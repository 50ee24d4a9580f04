# Verified model of esma

Esma is an engine for communicating state machines: a text template is parsed, loaded
into transition tables, and driven by a message queue, a reactor on file descriptors and
a dispatcher. Its core library holds the CRCs, a hash, a ring buffer and pools. This
project models those parts in Dafny and proves what they promise.

Code that changes fields step by step is a class or a method with a loop, proved against
a specification function; what the source promises is then proved about that function.
C integers are naturals with their width, truncation and wrap-around written out
(`Words`, `RingIndex.Wrap`, `Text.ToInt`).

How the files fit together:

- **Template language.** `Text`, `Template`, `Decoder` (what the character-level parser
  decides at each step), `TemplateParser` (the parser with its pointers, proved equal to
  it), `Surface` (programs with any layout and comments between tokens, their text and
  their meaning), `ReadTokens`, `ReadTrans`, `RoundTrip` (reading a text gives back its
  meaning), `Drafts` (texts laid out like a program, whatever their names, words and
  separators), `Refusals` (such a text is parsed exactly if it is a program, and refused
  otherwise), `UnknownNames` (the same of programs that name states nobody declares).
- **Loading and dispatching.** `Loader`, `FunctionNames` (which transitions share a
  function), `Compile` (loading keeps the meaning), `Dispatcher` (one delivery, and the
  timers over whole runs), `Promises` (what the text says of an event: which declaration
  decides, and which functions are called by name), `EndToEnd` (text, tables and dispatch
  together keep these promises).
- **CRCs and hash.** `Gf2` (polynomials and one shift register for all widths and bit
  orders), `Words`, `CrcLoops`, `CrcNames`, `CrcTheorems`, `CrcStandards` (the names by
  the exponents of their generators), `CrcMirror`, `CrcResidue`, `BitVectors` (words the
  solver computes with), `CrcConstants` (residues and check values), `Murmur`,
  `MurmurValues`.
- **Ring buffer.** `RingIndex`, `RingBuffer`, `SpinLock` (any number of threads, one
  field access at a time).
- **Pools, arrays, reactor.** `Mempool`, `ObjPool`, `EsmaArray`, `PollReactor`.
- **Echo server.** `EchoServer` (the protocol and its invariant), `EchoRuns` (draining
  and what a wait may bring), `EchoClients` (what one event comes to), `EchoPairs` and
  `EchoBatches` (two events of one slave in one wait: exactly what the server survives),
  `EchoRing` (whole runs with the ring that the queue is), `EchoArises` (runs that leave
  the server serving, and how much the ring must hold then), `EchoReactor` (whole runs
  with the reactor's table), `EchoBoard` (the machines' channels in the reactor),
  `EchoActs` and `EchoEngine` (the server on the ring buffer, the object pool and the
  reactor), `EchoText`, `EchoMaster` and `EchoProgram` (the protocol's tables are what
  the texts of slave.esma and master.esma do).

CRC32_BASIC is the CRC-32 of section 8 of RFC 1952, and its residue that of appendix C.3
of RFC 1662; CRC16_X_25 is the FCS-16 of appendix C.2 of RFC 1662; CRC32_C has the
generator of section 12.1 of RFC 3720. Two names do not have the parameters that
catalogues give them, and the model follows the code: CRC8_WCDMA runs on 0xBD
(core/esma_crc.c:66), although the mirror image of its 0x9B is 0xD9, and CRC8_MAXIM starts
from 0xFF (line 101).

## Model

| member | source | states |
|---|---|---|
| Gf2.LfsrIsRemainder | core/esma_crc.c:29-38 | a bit string is the remainder of r x^m + M x^w by x^w + p over GF(2) if and only if it is the register after M, for every width and start |
| Gf2.LfsrConcat | core/esma_crc.c:29-38 | the register after two messages is the register after the second, started from the register after the first |
| Gf2.LfsrXor | core/esma_crc.c:29-38 | the register is linear: XOR of starts and messages gives XOR of registers |
| Gf2.BurstDetected | core/esma_crc.c:29-49 | with constant term 1, messages that differ only inside w consecutive bits leave equal registers if and only if they are equal |
| Gf2.UndetectedIffDivisible | core/esma_crc.c:29-49 | two messages of one length leave equal registers exactly if the generator divides their difference |
| CrcLoops.Crc8FalseFalse | core/esma_crc.c:29-38 | the nested loops on a u8 leave the polynomial register of the whole message, high bit first |
| CrcLoops.Crc8TrueTrue | core/esma_crc.c:40-49 | the same for the reflected loop, low bit first |
| CrcLoops.Crc16FalseFalse | core/esma_crc.c:112-121 | the same on a u16, where each byte enters at the top |
| CrcLoops.Crc16TrueTrue | core/esma_crc.c:123-132 | the same on a u16, reflected |
| CrcLoops.Crc32FalseFalse | core/esma_crc.c:283-292 | the same on a u32 |
| CrcLoops.Crc32TrueTrue | core/esma_crc.c:294-303 | the same on a u32, reflected |
| CrcNames.NamedInvertible | core/esma_crc.c:51-72 | every generator any of the 36 names uses has constant term 1 in its loop's bit order |
| CrcNames.Crc8 | core/esma_crc.c:74-110 | a known name gives its checksum; an unknown one is an error and leaves the output alone |
| CrcNames.Crc16 | core/esma_crc.c:165-281 | likewise for the 22 names of 16 bits |
| CrcNames.Crc32 | core/esma_crc.c:346-401 | likewise for the 9 names of 32 bits |
| CrcStandards.WordIsGenerator | core/esma_crc.c:305-326 | a word that is the sum of the powers of two for a polynomial's terms shows as that polynomial's coefficients, for every width and both bit orders |
| CrcStandards.NamedAgrees | core/esma_crc.c:74-401 | exactly 5, 22 and 9 names are known, and each has the generator with the listed exponents, the listed bit order, start and final mask |
| CrcStandards.NamedConforms | core/esma_crc.c:346-401 | for all 36 names and every message: a word is the checksum if and only if, without the mask, it is the remainder of start x^8n + M x^w by the generator given as its exponents |
| CrcTheorems.RegisterIsRemainder | core/esma_crc.c:283-303 | a word is the result of a loop if and only if its bits are the remainder of init x^8n + M x^w by x^w + poly, for every message, start and polynomial |
| CrcTheorems.RegisterConcat | core/esma_crc.c:283-303 | a checksum continues from where an earlier one stopped |
| CrcTheorems.RegisterXor | core/esma_crc.c:283-303 | XOR of two messages and starts gives XOR of the results |
| CrcTheorems.NamedDetectsBursts | core/esma_crc.c:346-401 | for all 36 names: messages that differ only inside a window of at most w bits, anywhere, have equal checksums if and only if they are equal |
| CrcTheorems.NamedMissesMultiples | core/esma_crc.c:346-401 | for all 36 names: two messages of one length collide exactly if their difference is a multiple of the generator |
| CrcMirror.ReflectedIsMirror | core/esma_crc.c:283-303 | the reflected loop on mirrored bytes, start and polynomial is the mirror of the normal loop, for every input |
| CrcMirror.NamedMirrors | core/esma_crc.c:346-401 | BZIP2/BASIC, MPEG2/JAMCRC, XMODEM/KERMIT, GENIBUS/X_25, BUYPASS/ARC and EN_13757/DNP are mirror images on every message, in both directions |
| CrcResidue.BytesShowBits | core/esma_crc.c:112-132 | the checksum's bytes, big-endian for normal and little-endian for reflected loops, are its bits in the loop's order |
| CrcResidue.NamedResidue | core/esma_crc.c:346-401 | for all 36 names: a message followed by its own checksum always ends in the same register, which is 0 where nothing is XORed onto the result |
| CrcConstants.X25Residue | core/esma_crc.c:267-270 | for CRC16_X_25 that register is 0xF0B8, for every message |
| CrcConstants.BasicResidue | core/esma_crc.c:351-354 | for CRC32_BASIC that register is 0xDEBB20E3, for every message |
| CrcConstants.BasicChecks | core/esma_crc.c:351-389 | the characters 1 to 9 have the checksum 0xCBF43926 by CRC32_BASIC and 0x340BC6D9 by CRC32_JAMCRC |
| CrcConstants.IscsiChecks | core/esma_crc.c:361-364 | and 0xE3069283 by CRC32_C |
| CrcConstants.Checksum32DChecks | core/esma_crc.c:366-369 | 0x87315576 by CRC32_D |
| CrcConstants.X25Checks | core/esma_crc.c:224-270 | 0x6F91 by CRC16_MCRF4XX and 0x906E by CRC16_X_25 |
| CrcConstants.KermitChecks | core/esma_crc.c:257-260 | 0x2189 by CRC16_KERMIT |
| CrcConstants.ArcChecks | core/esma_crc.c:169-222 | 0xBB3D by CRC16_ARC and 0x44C2 by CRC16_MAXIM |
| CrcConstants.ModbusChecks | core/esma_crc.c:248-265 | 0xB4C8 by CRC16_USB and 0x4B37 by CRC16_MODBUS |
| CrcConstants.DnpChecks | core/esma_crc.c:204-207 | 0xEA82 by CRC16_DNP |
| CrcConstants.RielloChecks | core/esma_crc.c:228-231 | 0x63D0 by CRC16_RIELLO |
| CrcConstants.TmsChecks | core/esma_crc.c:243-246 | 0x26B1 by CRC16_TMS37157 |
| CrcConstants.AChecks | core/esma_crc.c:252-255 | 0xBF05 by CRC16_A |
| CrcConstants.DarcChecks | core/esma_crc.c:90-93 | 0x15 by CRC8_DARC |
| Murmur.MurmurHash | core/esma_murmur_hash.c:11-50 | the loop over four bytes at a time and the falling-through switch compute Hash |
| Murmur.OriginInverse | core/esma_murmur_hash.c:18-49 | for fixed data the hash is a bijection of the state it starts from |
| Murmur.StartsFromLength | core/esma_murmur_hash.c:16 | for data of every length, undoing the hash along the data ends in the length; no other start gives this hash |
| MurmurValues.TextValue | core/esma_murmur_hash.c:11-50 | the text abcdefg, one word and a tail of three bytes, has the hash 0x8C0FD93B |
| MurmurValues.ZeroByte | core/esma_murmur_hash.c:16-49 | the single byte 0 has the hash 0xE94E6EBD |
| Murmur.WordIsBijective | core/esma_murmur_hash.c:18-33 | with length and all other bytes fixed, every hash value is reached by exactly one value of an aligned word |
| Murmur.TailIsInjective | core/esma_murmur_hash.c:35-43 | the one to three bytes behind the last word decide the hash one to one |
| Murmur.NoCollision | core/esma_murmur_hash.c:16-49 | inputs of one length that differ only in one aligned word or only behind the last one never collide |
| Murmur.ShiftInverse | core/esma_murmur_hash.c:45-47 | x ^ x >> r can be undone, from both sides, when three shifts by r empty a word |
| Murmur.ScaleInverse | core/esma_murmur_hash.c:26-28 | multiplying by 0x5bd1e995 modulo 2^32 can be undone, from both sides |
| Text.ScanDecimal | engine/esma_template.c:616-635 | reading a decimal number gives the number that was written, reduced to an int; itself if it fits |
| FunctionNames.SameFunction | engine/esma_load.c:119-158 | two transitions of a machine name the same function if and only if their numbers agree as ints and either state and channel agree too, or one is a plain code of a state named like the other's with _tick, _data or _sign behind it |
| FunctionNames.SharedFunction | engine/esma_load.c:121-131 | such a pair can be declared: a well-formed program whose states a and a_tick share one function, a timer transition of the one and a plain code of the other |
| FunctionNames.EnterAndLeave | engine/esma_load.c:46-60 | a state's enter function is called like the state, with _enter behind it, and its leave function with _leave; two states share neither, and no function of a transition is one of them |
| Decoder.DecodeEnds | engine/esma_template.c:314-968 | parsing any text ends, with success, an error or a read past the end |
| Decoder.StepProgress | engine/esma_template.c:314-365 | every round of the loop consumes text or moves on between states, although a channel name lets the pointer run ahead and back |
| TemplateParser.Parser.SetByStr | engine/esma_template.c:1033-1044 | the parser with its pointers succeeds, fails and fills the template exactly as the specification decides, for every text |
| TemplateParser.Parser.Round | engine/esma_template.c:316-349 | one round of the loop: comments, blanks, then the switch |
| TemplateParser.Parser.AtIdle | engine/esma_template.c:351-377 | the start of a section, or an error |
| TemplateParser.Parser.AtNameEnter | engine/esma_template.c:413-449 | a closing brace ends the section, with an error if no state was declared; a name is appended, also a repeated one; at init and fini the pointer does not move |
| ReadTokens.ReservedFails | engine/esma_template.c:434-461 | so that declaring init or fini always fails |
| TemplateParser.Parser.AtSrc | engine/esma_template.c:503-538 | the source state is the first of that name |
| TemplateParser.Parser.AtDst | engine/esma_template.c:551-602 | the target is the first state of that name, or none for self |
| TemplateParser.Parser.AtCode | engine/esma_template.c:616-635 | a number is a plain code; anything else is a channel up to the next colon |
| TemplateParser.Parser.AtCodeChannel | engine/esma_template.c:637-666 | the three kinds of channel with their codes, tried in order |
| TemplateParser.Parser.AtTickInterval | engine/esma_template.c:668-717 | the interval in milliseconds from its unit |
| TemplateParser.Parser.AtTickPeriod | engine/esma_template.c:719-757 | the periodic flag |
| TemplateParser.Parser.AtSignNumber | engine/esma_template.c:759-884 | the number of a signal's name |
| TemplateParser.Parser.AtDataEvent | engine/esma_template.c:886-932 | the event mask of an event's name |
| TemplateParser.Parser.AtSemicolon | engine/esma_template.c:934-952 | a complete transition is added and the record cleared |
| TemplateParser.Parser.NewTrans | engine/esma_template.c:261-296 | the transition is appended to its source state, whose counter or maximum follows |
| RoundTrip.ReadBack | engine/esma_template.c:299-968 | for every well-formed program and every layout of blanks, line comments and block comments (a block comment not directly followed by another comment, nor by the end of the text), parsing its text succeeds and gives exactly the template it means: names, codes, targets, intervals, flags, signals and maxima |
| Refusals.DraftDecides | engine/esma_template.c:299-968 | for every text laid out like a program, whatever its names, words and separators: parsing succeeds if and only if the keywords, separators and arrows are the language's, no declared state is called init or fini, every source is init, fini or declared, every target is self or one of these, every interval is not 0 in 32 bits with unit ms or s, and every period, event, signal and channel is known; otherwise it is an error. The states are then the declared ones in order, also repeated ones |
| UnknownNames.NamesDecide | engine/esma_template.c:503-602 | a program whose layout and triggers are right is parsed if and only if every source and every target other than self is one of its states and init and fini are not declared; otherwise it is an error |
| Refusals.AtInterval | engine/esma_template.c:668-717 | an interval goes on exactly if it is not 0, its unit is ms or s, and a colon or semicolon follows its blanks |
| Refusals.AtSignal | engine/esma_template.c:759-884 | a signal's word goes on exactly if it is SIG and a supported name, or begins with SIGVTALRM and has no underscore |
| Refusals.UnclosedFails | engine/esma_template.c:326-341 | a block comment that does not close, or in which another one opens first, is an error wherever it stands |
| Refusals.LongNameOverflows | engine/esma_template.c:428-443 | a declared name of 64 characters or more is copied past its buffer |
| ReadTrans.ReadChannel | engine/esma_template.c:616-666 | everything between the name of a channel and the next colon is skipped, and its number is reduced to an int |
| RoundTrip.BuiltTrans | engine/esma_template.c:261-296 | adding transitions one by one leaves each state its own ones in order, with their count and per-kind maxima |
| RoundTrip.ProgramNames | engine/esma_template.c:241-259 | the states of the template are init, fini and the declared ones in order, all distinct |
| ReadTokens.SkipGap | engine/esma_template.c:316-347 | blanks, line comments and block comments before a token change nothing else |
| ReadTrans.EverySignalReads | engine/esma_template.c:759-884 | every signal's name is recognised as that signal, whose number no other one has |
| Surface.MaxCode | engine/esma_template.c:265-282 | the maximum over all codes of a kind: an upper bound, and attained |
| Loader.Machine.FindNextStateByName | engine/esma_load.c:19-32 | the first state that carries the target's name |
| Loader.Machine.PrepareStates | engine/esma_load.c:34-89 | fails exactly if an enter function is missing; otherwise every state has its functions and an empty table of the right size |
| Loader.Machine.StoreTrans | engine/esma_load.c:113-198 | one transition goes into its slot of its state, and nothing else changes; it fails exactly if its function or slot is missing |
| Loader.Machine.StoreStateTrans | engine/esma_load.c:107-199 | all transitions of one state in order, other states untouched |
| Loader.Machine.PrepareTrans | engine/esma_load.c:91-205 | all states, or a state whose loading fails |
| Loader.Machine.Load | engine/esma_load.c:207-236 | fails exactly if some state cannot be loaded, and otherwise holds every loaded state |
| Compile.LoadKeepsMeaning | engine/esma_load.c:91-205 | loading succeeds if and only if every named function exists; then every code and IO slot holds the last declaration made for it, undeclared slots are empty, no declared code is outside its table, and the k-th timer keeps the k-th tick declaration |
| Compile.LastFor | engine/esma_load.c:121-158 | the last declaration for a slot, or none if there is none |
| Dispatcher.Esma.Run | engine/esma_machine.c:155-173 | the machine is in init, whose enter function is called and decides the result |
| Dispatcher.Esma.StartChannels | engine/esma_engine_dispatcher.c:79-115 | arms exactly the timers of the state before the one that fails |
| Dispatcher.Esma.StopChannels | engine/esma_engine_dispatcher.c:117-146 | disarms exactly the timers before the one that fails; the loop over the signals masks what stands in the slots of the timers, and runs past what is known of them if and only if there are more signals than timers and than slots zeroed at first, and nothing has failed before |
| Dispatcher.Esma.DispatcherSend | engine/esma_engine_dispatcher.c:148-259 | one delivery in every case: Mealy, Moore, each failure, the functions called and their order, and the state left behind, as the specification that EndToEnd.TextDecidesStep ties to the text |
| Dispatcher.SendKeepsDiscipline | engine/esma_engine_dispatcher.c:208-258 | on every success and failure path armed timers stay inside the current state's; a successful Moore step arms exactly the new state's; a Mealy step changes neither state nor timers |
| Dispatcher.AlwaysDisciplined | engine/esma_engine_dispatcher.c:148-259 | the same at every moment of every run of deliveries and expiring timers |
| EndToEnd.ParsedIsConsistent | engine/esma_template.c:261-296 | every parsed template satisfies what the loader relies on: codes within the maxima, targets that exist, known events, distinct names |
| EndToEnd.LastInState | engine/esma_load.c:107-158 | the last entry for a slot among a state's transitions is the last declaration for it in the text |
| EndToEnd.SlotDecides | engine/esma_engine_dispatcher.c:161-200 | dispatching through loaded tables does what the last template entry for the slot says |
| EndToEnd.TextDecidesStep | engine/esma_engine_dispatcher.c:148-259 | parsing, loading and dispatching together, for every program, state, event and answer of the system: a code and a descriptor's event do what the last declaration for them in the current state says, the k-th timer and the k-th signal of a state what the k-th such declaration of that state says, and a failing read runs nothing. A transition to self calls the function named after machine, state, channel and number; another one calls the old state's _leave function, if there is one, and the new state's _enter function, stays after a failing leave, leaves again after a failing enter, and arms the new state's timers |
| EndToEnd.MooreMoves | engine/esma_engine_dispatcher.c:208-258 | the step from one state to another in terms of the text: its functions by name, and its timers and signals by the number of their declarations, for every answer of the system |
| EndToEnd.HearingIsDeclared | engine/esma_load.c:121-158 | the last declaration that waits for a code or event is the one whose table slot the dispatcher looks into |
| EndToEnd.ChannelsAreSet | engine/esma_load.c:160-198 | every timer of a loaded state has the interval and period of its declaration, in milliseconds, and every signal its number |
| EndToEnd.StartsInInit | engine/esma_machine.c:155-173 | the state a machine starts in is called init, and its enter function init_enter behind the machine's name |
| Promises.CountsBefore | engine/esma_load.c:160-198 | the k-th timer or signal of a state is the declaration with k such declarations before it |
| Promises.LastHearing | engine/esma_load.c:121-158 | the last declaration of the state that waits for the code or event, or none if there is none |
| RingIndex.PowerOfTwoTest | core/esma_ring_buffer.c:32 | cap & (cap - 1) is 0 if and only if cap is a power of two |
| RingIndex.MaskIsMod | core/esma_ring_buffer.c:181-201 | masking with 2^k - 1 is the remainder modulo 2^k |
| RingBuffer.InitWellformed | core/esma_ring_buffer.c:27-51 | the fields after _init describe an empty ring, whatever capacity is asked for: that one if it is a power of two above 1, and 128 otherwise |
| RingBuffer.GetStep | core/esma_ring_buffer.c:172-185 | a get keeps (head + 1) congruent to tail + size |
| RingBuffer.PutStep | core/esma_ring_buffer.c:188-203 | a put keeps it too, through the wrap from ~0 and around the end |
| RingBuffer.ExpandStep | core/esma_ring_buffer.c:146-170 | the fields after growth of any full ring; they still describe a ring if and only if tail is 0 or 1 |
| RingBuffer.GrowthFinds | core/esma_ring_buffer.c:146-203 | after a put that has to grow the ring, the i-th of the next gets returns the slot it would have returned without it if and only if the i-th item had not wrapped around |
| RingBuffer.GrowthFindsNew | core/esma_ring_buffer.c:146-203 | and the get after them returns the slot that the put has filled if and only if tail is 0 or 1 |
| RingBuffer.GrowthSound | core/esma_ring_buffer.c:146-203 | so all of those gets do if and only if tail is 0 |
| RingBuffer.ManyPuts | core/esma_ring_buffer.c:146-203 | n puts in a row are all sound if and only if the ring has room for them, or starts in slot 0 and 32 bits hold the size in bytes of the memory it grows to; then the capacity is the least doubled one that holds all items |
| RingBuffer.OverrunLoses | core/esma_ring_buffer.c:146-203 | otherwise one of them grows a full ring: from another slot than 0, and a get after it returns a wrong slot, or to memory that is smaller than the items |
| RingBuffer.RingBuffer.constructor | core/esma_ring_buffer.c:27-51 | a new ring is an empty queue |
| RingBuffer.RingBuffer.Get | core/esma_ring_buffer.c:172-185 | removes and returns the oldest item, or nothing from an empty ring |
| RingBuffer.RingBuffer.Put | core/esma_ring_buffer.c:188-203 | the item is appended exactly if the put is sound; the fields change as in the code in every case, and not at all if realloc is asked for no bytes |
| RingBuffer.RingBuffer.PutAll | core/esma_ring_buffer.c:188-203 | putting items one after the other appends them all exactly if the ring has room for them, or starts in slot 0 and can tell realloc the size it grows to |
| RingBuffer.RingBuffer.Expand | core/esma_ring_buffer.c:146-170 | the fields change as in the code; with tail 0 and a size in bytes below 2^32 the capacity doubles and the items stay |
| RingBuffer.RunOps | core/esma_ring_buffer.c:172-203 | over any run of puts and gets the ring returns what a queue returns, and stops only at a put that is not sound |
| RingBuffer.QueueConserves | core/esma_ring_buffer.c:172-203 | what came out and what is left is what was inside and put in, in insertion order, each once |
| RingBuffer.GrowthCanFail | core/esma_ring_buffer.c:146-203 | every full ring from slot 0 is one get and one put away from a put that grows it to fields that look right; of all gets after that exactly the one for the newest item returns another slot |
| SpinLock.StepKeepsInv | core/esma_ring_buffer.c:227-268 | any single field access by any thread keeps: at most one thread inside, the lock word set exactly then, and the ring is part way through that call |
| SpinLock.FinishIsAlone | core/esma_ring_buffer.c:172-203 | a call's field accesses one after the other have the effect and result of the whole function, growth included |
| SpinLock.Linearizable | core/esma_ring_buffer.c:244-268 | for any number of threads and any interleaving: mutual exclusion, and every call answers as in the sequential run ordered by taking the lock, which respects the order of calls that do not overlap |
| SpinLock.StepKeepsLog | core/esma_ring_buffer.c:244-268 | that order only grows, and an answer once given stays |
| SpinLock.CallsAreEntries | core/esma_ring_buffer.c:244-268 | the n-th call of a thread is its n-th entry in that order, from the moment it has the lock |
| SpinLock.RespectsRealTime | core/esma_ring_buffer.c:244-268 | a call that begins after another has taken the lock, let alone answered, comes after it |
| SpinLock.NeverStuck | core/esma_ring_buffer.c:227-268 | in every state of every interleaving: once the thread inside, if there is one, has made ten steps, a waiting thread needs eleven of its own to take the lock, make its call with the right answer and leave the lock free |
| SpinLock.InsideReturns | core/esma_ring_buffer.c:172-203 | the thread inside needs no one else to finish its call and release the lock |
| Mempool.Pool.constructor | core/esma_mempool.c:74-101 | a new pool has one page of 1024 blocks, all of them unused |
| Mempool.Pool.NewPage | core/esma_mempool.c:44-72 | a page is added, its blocks chained in address order; other memory is unchanged |
| Mempool.Pool.InitBlocks | core/esma_mempool.c:29-42 | every block points to the next and the last to NULL |
| Mempool.Pool.GetBlock | core/esma_mempool.c:126-159 | returns a block nobody holds: the one returned last, or else the next unused one of the newest page, or else the first of a new page of 1024; keeps the partition of all slots into unused, returned and held, and leaves exactly the pages the peak needs |
| Mempool.Pool.GetBlockN | core/esma_mempool.c:161-193 | n consecutive unheld blocks; the pool stays valid if and only if n is below nblocks or not positive; above nblocks nothing but the stray write is reported |
| Mempool.GrowthWritesBehind | core/esma_mempool.c:175 | the address written before growth is NULL if no block is unused, and otherwise lies behind its own page, at 1024 + 7 nblocks of its 1024 blocks |
| Mempool.Pool.PutBlock | core/esma_mempool.c:195-212 | a held block returns to the basket, NULL is refused |
| Mempool.Pool.ClientWrite | core/esma_mempool.c:25-27 | anything a client writes into a block it holds leaves the pool valid |
| Mempool.WriteKeepsChains | core/esma_mempool.c:25-27 | both chains survive arbitrary words in held blocks |
| Mempool.TakeReturned | core/esma_mempool.c:152-155 | taking from the basket keeps partition, chains and counts |
| Mempool.TakeUnused | core/esma_mempool.c:147-150 | taking the first unused block does too |
| Mempool.GrowWhenExhausted | core/esma_mempool.c:139-145 | a page added when every block is held restores the partition |
| Mempool.GiveBack | core/esma_mempool.c:205-211 | returning a held block keeps partition, chains and counts |
| Mempool.PagesAreMinimal | core/esma_mempool.c:139-150 | the number of pages is max(1, ceil(peak / 1024)) |
| Mempool.RowKeepsPool | core/esma_mempool.c:186-192 | after a row is taken the pool is valid exactly if the row did not use up the page |
| Mempool.ExactFitGoesBehind | core/esma_mempool.c:147-192 | a row that uses up the page makes the next block come from behind it, and nblocks wraps to 2^32 - 1 |
| Mempool.ChainUnique | core/esma_mempool.c:29-42 | a start and the memory determine the chain |
| ObjPool.ObjPool.Put | core/esma_objpool.c:103-118 | the object goes on top, after growth if the pool is full, unless the capacity does not grow |
| ObjPool.GrowsUnlessWrapped | core/esma_objpool.c:90 | the capacity grows by capdelta, or doubles without one; it fails to grow exactly if both are 0 or the 32-bit sum wraps |
| ObjPool.ObjPool.Get | core/esma_objpool.c:120-129 | the object put last comes back, or NULL from an empty pool |
| ObjPool.ObjPool.Expand | core/esma_objpool.c:82-101 | the new capacity in 32 bits, with the same objects if it is larger |
| EsmaArray.EsmaArray.Push | core/esma_array.c:71-92 | one more slot behind unchanged items, which keeps what it held unless the array grew; outside the memory exactly if doubling leaves no room |
| EsmaArray.DoublingWorks | core/esma_array.c:55-58 | with 8-byte items doubling works below 2^28 slots, and never for an empty array |
| EsmaArray.EsmaArray.Pop | core/esma_array.c:94-104 | the last item leaves, and nothing happens to an empty array |
| EsmaArray.EsmaArray.Expand | core/esma_array.c:55-69 | the slots that the 32-bit size leaves room for, with the same items if they fit |
| PollReactor.Reactor.Add | engine/modules/esma_reactor_poll.c:53-66 | with room, every channel knows its place afterwards if and only if this one was not registered; then the map gains the channel with its descriptor, and its mask if one is given, and no other entry changes |
| PollReactor.Reactor.Del | engine/modules/esma_reactor_poll.c:68-85 | the map loses exactly the entry at the channel's index, its own if it is registered, although the last entry moves; behind the count it loses the last entry; a negative index is an error; the write goes astray if and only if there is no entry or the index lies behind the memory |
| PollReactor.Reactor.Mod | engine/modules/esma_reactor_poll.c:87-96 | the map changes in the mask at the channel's index only, its own if it is registered, and not at all behind the count; a negative index is an error; the write goes through NULL if and only if the index lies behind the memory |
| PollReactor.Reactor.Wait | engine/modules/esma_reactor_poll.c:98-149 | given what poll reports, the loop that stops early posts exactly the ready entries' messages; each says IN if there is input, or else OUT if there is room for output, or else ERR, or else HUP, or else 0 |
| PollReactor.TableDel | engine/modules/esma_reactor_poll.c:76-81 | filling the hole with the last entry of both arrays removes exactly one channel from the map |
| PollReactor.PostsOwn | engine/modules/esma_reactor_poll.c:115-148 | every ready entry has its message, with its channel and code, behind those of the ready entries before it |
| PollReactor.CodeTells | engine/modules/esma_reactor_poll.c:124-138 | the code of a message is 1 exactly if input is reported, 2 exactly if output but no input, 8 exactly if an error and neither, 4 exactly if only a hang-up among the four, and 0 otherwise |
| PollReactor.PostsTell | engine/modules/esma_reactor_poll.c:115-148 | and that for every ready entry of every wait |
| PollReactor.PostsOnly | engine/modules/esma_reactor_poll.c:115-148 | every message belongs to a ready entry |
| PollReactor.PostsRest | engine/modules/esma_reactor_poll.c:115 | stopping once all ready entries were seen misses nothing |
| EchoServer.ReactOk | programs/esma_echo_server/slave.c:78-271 | whatever the system answers, a slave's step leaves it, its place in the pool and its waiting events in one of the allowed combinations, and its code is declared |
| EchoServer.HandOverKeeps | programs/esma_echo_server/master.c:223-246 | handing a client to the slave on top of the pool keeps the invariant, also for a slave that has yet to leave init or done |
| EchoServer.StepKeepsInv | programs/esma_echo_server/slave.esma:23-44 | every dispatch keeps the invariant, and no machine gets a code it does not declare |
| EchoRuns.StepShrinks | engine/esma_engine.c:80-90 | every dispatch strictly lowers the weight of the queue and never lengthens it |
| EchoRuns.DrainKeeps | engine/esma_engine.c:73-93 | draining ends, crashes nothing, keeps the invariant, and the queue never exceeds its length at the start |
| EchoRuns.DrainedIsReady | programs/esma_echo_server/slave.c:251-271 | with an empty queue a slave is in the pool exactly once iff idle iff without an IO channel, and otherwise receiving or sending with the matching mask and an armed timer |
| EchoClients.EventSettles | programs/esma_echo_server/slave.c:118-271 | one event of a client, drained: the slave is back in the pool if and only if the client is gone, changes between receiving and sending if and only if the line is complete, and otherwise nothing has changed |
| EchoClients.ClientSettles | programs/esma_echo_server/master.c:223-246 | a new client, drained: the slave on top of the pool receives from it, or is on top again if it cannot be accepted; without a slave the client is turned away, and the engine stops if accepting it fails |
| EchoRuns.PoolNeverGrows | programs/esma_echo_server/master.c:119-141 | the pool never holds more than there are slaves |
| EchoRuns.BatchIsShort | programs/esma_echo_server/main.c:79-87 | one wait posts at most one message per slave and five for the master, if no slave gets two |
| EchoRuns.WaitKeepsInv | programs/esma_echo_server/main.c:79-87 | a safe batch keeps the invariant: one event per slave, or a timeout with an error or hang-up while it sends |
| EchoRuns.StartIsOk | programs/esma_echo_server/master.c:106-167 | the invariant holds when the master has started its slaves, or has failed to open its socket |
| EchoRuns.NoSocketStops | programs/esma_echo_server/master.c:149-167 | without a listening socket there is one message, and handling it ends the program |
| EchoRing.StepCarries | engine/esma_engine.c:79-90 | a dispatch takes one message from the ring and posts at most one, so that it never grows it |
| EchoRing.WaitCarries | engine/modules/esma_reactor_poll.c:98-149 | a wait on the drained ring is sound if and only if the ring has room for the batch, or starts in slot 0 and can tell realloc the size it grows to |
| EchoRing.StartCarries | programs/esma_echo_server/main.c:71-79 | start-up is sound if and only if it sends at most 2^26 messages, and then leaves the ring with the least doubled capacity |
| EchoRing.AlwaysSafe | programs/esma_echo_server/main.c:79-87 | at every moment of every run, for any number of slaves below 2^26, of safe batches that the ring can take: every growth was sound, no undeclared code, an empty queue means every slave is where it belongs, and every drain ends within four dispatches per message |
| EchoPairs.TwoEvents | programs/esma_echo_server/slave.c:118-243 | two events of one wait come down to the codes they make the slave send: 1 and 1 end in a code that done does not declare, 1 and 0 leave the slave in recv and in the pool, all else returns it to the pool |
| EchoPairs.PairSettles | programs/esma_echo_server/slave.c:118-243 | a timeout and an IO event of one slave, in either order, for all answers: the drained server is ready if and only if the event neither loses the client nor completes the line after the timeout, and does not lose it before; which of the two failures follows |
| EchoBatches.QueueExact | programs/esma_echo_server/main.c:79-87 | a queue with room survives a batch, whatever is answered, if and only if an event stops the engine at once, or every two events that a slave does not survive together have an error or hang-up of the master's socket before the second |
| EchoRing.BatchExact | programs/esma_echo_server/main.c:79-87 | of all batches of watched events, exactly these do no harm whatever is answered: the ring has room for the batch or grows soundly to have it, and the batch is survivable |
| EchoBatches.PairExact | programs/esma_echo_server/slave.c:118-243 | a serving slave's timeout and IO event may always come together, and that is harmless for all answers if and only if it sends and the event is an error or hang-up |
| EchoArises.ServingArises | programs/esma_echo_server/main.c:71-87 | a run from the start makes all slaves receive, and another makes all of them send, in a ring that does not start in slot 0, for any number of slaves below 2^26 |
| EchoArises.SafeBatchesFit | programs/esma_echo_server/main.c:79-87 | every wait with a safe batch is sound in every run if and only if there are at most 61 slaves; with more, one batch of all channels overruns the ring |
| EchoArises.OneEachFits | programs/esma_echo_server/main.c:79-87 | with one event for each slave it is if and only if the number of slaves is not one of the four below a power of two from 128 on |
| EchoReactor.StepKeepsRegistered | engine/esma_engine_dispatcher.c:79-255 | every dispatch after which the engine goes on keeps the table the server's: a slave changes the entry of its IO channel and that of the timer of the state it enters, the master on entering work those of its two timers and two signals |
| EchoReactor.StartRegistered | engine/esma_machine.c:70-103 | the table is the server's after start-up: two timers of every slave, two timers, two signals and the listening socket of the master |
| EchoReactor.WaitIsWatched | engine/modules/esma_reactor_poll.c:98-149 | given what poll(2) may report of the server's own table, the messages of one wait are events that are watched for, one for each channel, although every slave has two timers |
| EchoReactor.EntryIsHeard | engine/modules/esma_reactor_poll.c:115-148 | every ready entry brings its machine its own event: a slave whose channel reports input gets it whatever else is reported, and a hang-up only if nothing else is; timers and signals bring their own number |
| EchoReactor.SystemSafe | programs/esma_echo_server/main.c:79-87 | a run whose batches are what the reactor posts for its own table, with nothing assumed of their events but that no slave gets two it does not survive together and that the ring can take them, is a safe run |
| EchoBoard.Board.RegisterMaster | engine/esma_machine.c:70-103 | in an empty reactor the master's timers, signals and, if it listens, its IO channel are registered, with growth of the reactor's arrays |
| EchoBoard.Board.RegisterSlave | engine/esma_machine.c:70-103 | one more slave adds exactly its two timers |
| EchoBoard.Board.Wait | engine/modules/esma_reactor_poll.c:98-149 | poll(2) may be interrupted or report what it likes of the entries; what the reactor posts, and what the table is then, as the system's wait says |
| EchoEngine.Server.constructor | engine/esma_engine.c:28-71 | an empty queue, pool and reactor |
| EchoEngine.Server.MasterInit | programs/esma_echo_server/master.c:149-167 | after start-up the queue holds every slave's first message and the master's, the ring has the fields of so many puts, and the reactor's table is the server's, with and without a listening socket |
| EchoEngine.Server.InitSlaves | programs/esma_echo_server/master.c:106-147 | the loop that makes, registers, pools and starts the slaves |
| EchoEngine.Server.SlaveIdle1 | programs/esma_echo_server/slave.c:78-104 | a client accepted or not, as the protocol says, and its channel added to the reactor |
| EchoEngine.Server.SlaveRecvActs | programs/esma_echo_server/slave.c:118-183 | timeout, closed connection, whole line or more to come |
| EchoEngine.Server.SlaveSendActs | programs/esma_echo_server/slave.c:198-243 | timeout, everything sent, interrupted, failed or more to send, and the channel's mask |
| EchoEngine.Server.SlaveEnters | programs/esma_echo_server/slave.c:251-271 | the enter handlers with their changes of mask, the timer started with the state, and done, which removes the channel and returns the slave to the pool |
| EchoEngine.Server.MasterHandles | programs/esma_echo_server/master.c:187-253 | the master's handlers, and its timers and signals started and stopped with the state work |
| EchoEngine.Server.Exec | engine/esma_engine.c:73-93 | the loop ends for all answers of the system, does what the system's drain does to world, ring and table, leaves a ready server, and neither ring nor pool grows |
| EchoEngine.Server.Wait | engine/modules/esma_reactor_poll.c:98-149 | posting a batch does what the engine's wait does to world and ring, and fails exactly when that is not sound |
| EchoEngine.Server.Pass | programs/esma_echo_server/main.c:81-87 | one pass of the main loop: whatever poll(2) reports of the reactor's own entries, if no slave gets two events it does not survive together and the ring has room, is a turn of the system, keeps the server in order and the capacities unchanged |
| EchoEngine.Serve | programs/esma_echo_server/main.c:71-90 | with 256 slaves, over any number of such passes, what the program does is a run of the system; the ring has 512 slots and the pool its first capacity, and the server is never left crashed or with a misplaced slave |
| EchoText.TextIsTable | programs/esma_echo_server/slave.esma:23-44 | the protocol's table is what a machine does that is parsed, loaded and dispatched from slave.esma, for every state, code, IO event and timeout, down to the names of the functions called; a failing read runs nothing |
| EchoText.SlaveCalls | engine/esma_load.c:46-60 | a machine loaded from slave.esma enters each state with the function of its name, slave_idle_enter and so on, and leaves it with slave_idle_leave and so on if there is one |
| EchoText.SlaveFollowsText | programs/esma_echo_server/slave.c:78-271 | the slave of the protocol ends in the state that the declarations of slave.esma lead to, keeps its timer in a transition to self, crashes the engine without a declaration and stops it when its channel cannot be read |
| EchoText.SlaveLoads | engine/esma_load.c:34-205 | slave.esma can be loaded exactly if there are its six enter functions and its seven actions, whose names are listed |
| EchoMaster.TextIsMaster | programs/esma_echo_server/master.esma:16-34 | the same for master.esma: which timer ends the work, which functions its timers, signals and socket call, and what each code does |
| EchoMaster.MasterFollowsText | programs/esma_echo_server/master.c:187-253 | the master of the protocol does with every event what the declarations of master.esma say |
| EchoProgram.FileIsSlave | programs/esma_echo_server/slave.esma:15-44 | the file's declarations are a well-formed program with exactly those transitions |
| EchoProgram.FileIsMaster | programs/esma_echo_server/master.esma:16-34 | likewise for the declarations of master.esma |

## Left out

- Sockets, serial ports, descriptors, epoll, timerfd and signalfd calls, the logger, clocks, CPU and backtrace helpers: foreign calls, whose results are parameters where a handler needs them.
- core/esma_md5.c: it has no update function and an empty finalize.
- Reading a template from a file (engine/esma_template.c:983-1031), and the check that the string ends in NUL (1038-1041): the model starts at the string.
- Refusals.DraftDecides: names of fewer than 64 characters, and sections in the usual order; repeated or exchanged sections, and texts that end early, are covered by TemplateParser.Parser.SetByStr alone.
- TemplateParser.Parser.SetByStr: a name of 64 or more characters and a channel name without a later colon make the C code write or read out of bounds; the outcome is then Undefined and says nothing more. Memory for more than eight user states is taken as zeroed, which realloc does not promise, and on an error the NUL that the C code writes behind a name in the caller's string is not modelled.
- Surface: signal numbers are those of Linux.
- Loader.Machine.Load: dlsym is a finite map from names to functions; allocation succeeds; the file descriptors made by _esma_register_channels (engine/esma_machine.c:70-103), and the sizes of tables for codes near 2^31, are not modelled.
- Dispatcher.Esma.StopChannels: the signals' own channels are never masked by the code, and that the timers it masks instead are no longer reported is not modelled: timers are armed or not. Masking a zeroed slot, whose index is 0, masks the reactor's first entry. Stale tick messages that arrive after a change of state are delivered with their own transition, as in the code.
- RingBuffer.RingBuffer.Put: growth of a ring whose oldest item is not in slot 0 mixes byte and item offsets and reads freed memory; after Corrupt the fields are those of the code, and nothing is said about the slots. Memory runs out only when realloc is asked for no bytes, for which it returns NULL.
- SpinLock.Linearizable: memory is sequentially consistent; the items themselves are outside, because callers fill and read slots after the lock is released. The mutex variants are not modelled.
- Mempool.Pool.GetBlockN: what follows the stray write before growth is undefined in the code and left out; esma_mempool_put_block_n scales a pointer in the same way (core/esma_mempool.c:223). The basket is NULL at the start, as in the engine's static memory.
- Mempool: pages are separate memory, a block is known by its page and place, and its size does not matter; an overflow of the u32 naddr is not reached.
- EsmaArray.EsmaArray.Push: after a push outside the memory nothing is said, and the capacity that the code then believes in is not kept apart from the memory.
- PollReactor.Reactor.Add: after adding with no events the mask is what the slot held, so nothing is claimed about it. A failing allocation, which the C code does not check, is excluded.
- PollReactor.Reactor.Del: after a write astray nothing is said; likewise in PollReactor.Reactor.Mod.
- esma_objpool_shrink and esma_array_copy: no part of the server uses them.
- EchoServer: allocation succeeds, descriptors are positive, a fresh machine's IO channel is zeroed, and a failing system call that the engine does not survive stops the server. The echoed bytes, and the positions in the buffer, are outside.
- EchoEngine.Serve: safe batches of more than 512 messages, of which 256 slaves can have up to 517, are not taken by the program's model; what they come to is EchoRing.BatchExact and RingBuffer.OverrunLoses.
- EchoReactor.StepKeepsRegistered: says nothing of the table once the engine has stopped.
- EchoReactor.WaitIsWatched: that poll(2) reports only what was asked for, errors, and armed timers is assumed of the system. EchoBoard.Board.Wait: poll(2) fails only when it is interrupted; after other failures the code ends the process.
- CrcTheorems: the correspondence of polynomial and bit mirror for the 8-bit table is not claimed, since 0x07/0xD0 and 0x9B/0xBD are not mirror images.
- engine/modules/esma_reactor_epoll.c: it keeps no table and passes its arguments on to epoll_ctl. The utils, the other example programs and the remaining helpers of engine/esma_machine.c (restart, deletion, channel look-up) are not called by the echo server.
