/** The echo server as it runs: handlers and the drain loop change the server's state
    and the reactor's table, and messages wait in the ring buffer. */
module EchoEngine {
  import opened Wrappers
  import opened EchoServer
  import opened EchoRuns
  import opened EchoBatches
  import opened EchoRing
  import opened EchoReactor
  import opened EchoActs
  import B = EchoBoard
  import RI = RingIndex
  import RB = RingBuffer
  import OP = ObjPool
  import P = PollReactor
  import T = Template

  class Server {
    const queue: RB.RingBuffer<Message>
    var slaves: seq<Slave>
    const pool: OP.ObjPool<nat>
    var working: bool
    var status: Status
    const board: B.Board

    /** Queue and pool. */
    ghost predicate Core()
      reads this, queue, queue.data, pool, pool.items
    {
      queue.Valid() && queue.itemSize == MESSAGE_SIZE && pool.Valid()
    }

    ghost predicate Valid()
      reads this, queue, queue.data, pool, pool.items
      reads board.reactor, board.reactor.events, board.reactor.channels, board.Repr()
    {
      && Core() && board.Valid()
      && {this, queue, queue.data, pool, pool.items} !! board.Repr()
    }

    function Value(): World
      reads this, queue, queue.data, pool, pool.items
      requires queue.Valid() && pool.Valid()
    {
      World(slaves, pool.Contents(), queue.Contents(), working, status)
    }

    /** The world with the fields of its ring. */
    function Whole(): Engine
      reads this, queue, queue.data, pool, pool.items
      requires queue.Valid() && pool.Valid()
    {
      Engine(Value(), queue.Indices(), true)
    }

    /** The reactor's table. */
    ghost function Rows(): Table
      reads board.reactor, board.reactor.events, board.reactor.channels, board.Repr()
      requires board.Valid()
    {
      board.Rows()
    }

    /** The table is that of the server's channels. */
    ghost predicate Known()
      reads this, queue, queue.data, pool, pool.items
      reads board.reactor, board.reactor.events, board.reactor.channels, board.Repr()
      requires Valid()
    {
      Registered(Value(), board.wiring, Rows())
    }

    /** The ring has changed from r on by nothing but puts. */
    ghost predicate Fed(r: RI.Ring)
      reads queue
    {
      queue.size >= r.size && queue.Indices() == RB.PutMany(r, queue.size - r.size)
    }

    /** The ring has only been put into since it was made. */
    ghost predicate StartRing()
      reads queue
    {
      queue.Indices() == RB.PutMany(RI.Init(QUEUE_SIZE), queue.size)
    }

    /** esma_engine_init: an empty queue, an empty pool, and a reactor without entries. */
    constructor (queue: RB.RingBuffer<Message>, pool: OP.ObjPool<nat>, board: B.Board)
      requires queue.Valid() && queue.itemSize == MESSAGE_SIZE && pool.Valid() && board.Valid()
      requires {queue, queue.data, pool, pool.items} !! board.Repr()
      requires queue.Contents() == [] && queue.Indices() == RI.Init(QUEUE_SIZE) && pool.Contents() == []
      requires board.Rows() == map[]
      ensures this.queue == queue && this.pool == pool && this.board == board
      ensures Blank(pool.items.Length, board.n)
    {
      hide RB.Wellformed, RB.Slot, RB.PutMany, RI.Init, RI.Put, B.Board.Valid, B.Board.Rows, RB.RingBuffer.Valid;
      NoPuts();
      InitialRing();
      this.queue, this.pool, this.board := queue, pool, board;
      slaves, working, status := [], false, Running;
    }

    /** Nothing has been sent or registered. */
    ghost predicate Blank(n: nat, made: nat)
      reads this, queue, queue.data, pool, pool.items
      reads board.reactor, board.reactor.events, board.reactor.channels, board.Repr()
    {
      && Valid() && Value() == World([], [], [], false, Running)
      && queue.tail == 0 && queue.cap == QUEUE_SIZE && StartRing() && pool.items.Length == n
      && Rows() == map[] && board.n == made
    }

    /** i slaves have been made and started. */
    ghost predicate Made(i: nat)
      reads this, queue, queue.data, pool, pool.items
      reads board.reactor, board.reactor.events, board.reactor.channels, board.Repr()
    {
      Valid() && Begins(i) && board.Registers(i, true)
    }

    /** esma_machine_run of the master: master_init_enter with __master_init_slaves. */
    method MasterInit(n: nat, listening: bool)
      requires n < MAX_MESSAGES && Blank(n, if listening then n else 0)
      modifies this, queue, queue.data, pool, pool.items, board.Repr()
      ensures Valid() && (queue.data == old(queue.data) || fresh(queue.data)) && pool.items == old(pool.items)
      ensures fresh(board.Repr() - old(board.Repr()))
      ensures Whole() == EngineStart(n, listening) && Known()
    {
      hide RB.Wellformed, RB.Slot, CapFor, RB.PutMany, RI.Init, RI.Put, B.Board.Valid, B.Board.Registers,
           Registered, EngineStart, Made, Blank, B.Board.Rows;
      RegisterMaster(n, listening);
      if !listening {
        SendFail();
      } else {
        NoneMade();
        InitSlaves(n);
        SendLast(n);
      }
      HasStarted(n, listening);
    }

    /** The part of it that opens the master's channels. */
    method RegisterMaster(n: nat, listening: bool)
      requires Blank(n, if listening then n else 0)
      modifies board.Repr()
      ensures Valid() && fresh(board.Repr() - old(board.Repr())) && Value() == World([], [], [], false, Running)
      ensures queue.tail == 0 && queue.cap == QUEUE_SIZE && StartRing() && pool.items.Length == n
      ensures board.n == (if listening then n else 0) && board.Registers(0, listening)
    {
      hide RB.Wellformed, RB.Slot, RB.PutMany, RI.Init, RI.Put, B.Board.Valid, B.Board.Registers, B.Board.Rows;
      board.RegisterMaster(listening);
    }

    /** master_init_enter without a listening socket */
    method SendFail()
      requires Valid() && Value() == World([], [], [], false, Running)
      requires queue.tail == 0 && queue.cap == QUEUE_SIZE && StartRing() && board.Registers(0, false)
      modifies queue, queue.data
      ensures Valid() && (queue.data == old(queue.data) || fresh(queue.data))
      ensures Value() == Started(0, false) && StartRing() && board.Registers(0, false)
    {
      CapForFew();
      hide RB.Wellformed, RB.Slot, CapFor, RB.PutMany, RI.Init, RI.Put, B.Board.Valid, B.Board.Registers;
      SendFirst(Message(Master, Code(3)));
      assert queue.Contents() == [Message(Master, Code(3))];
    }

    /** Its last step otherwise. */
    method SendLast(n: nat)
      requires Made(n) && n < MAX_MESSAGES
      modifies queue, queue.data
      ensures Valid() && (queue.data == old(queue.data) || fresh(queue.data))
      ensures Value() == Started(n, true) && StartRing() && board.Registers(n, true)
    {
      hide RB.Wellformed, RB.Slot, CapFor, RB.PutMany, RI.Init, B.Board.Valid, B.Board.Registers;
      SendFirst(Message(Master, Code(0)));
    }

    lemma HasStarted(n: nat, listening: bool)
      requires Valid() && Value() == Started(n, listening) && StartRing() && n < MAX_MESSAGES
      requires board.n == (if listening then n else 0) && board.Registers(board.n, listening)
      ensures Whole() == EngineStart(n, listening) && Known()
    {
      hide B.Board.Valid, B.Board.Registers, RB.Wellformed, Registered;
      StartCarries(n, listening);
      StartKnown(board, n, listening);
      hide RB.PutMany, RB.AllSound;
    }

    lemma NoneMade()
      requires Valid() && Value() == World([], [], [], false, Running)
      requires queue.tail == 0 && queue.cap == QUEUE_SIZE && StartRing() && board.Registers(0, true)
      ensures Made(0)
    {
      CapForFew();
      hide B.Board.Valid, B.Holds, RB.Wellformed, RB.PutMany;
    }

    /** __master_init_slaves: each slave is put into the pool and started. */
    method InitSlaves(n: nat)
      requires n < MAX_MESSAGES && Made(0) && board.n == n && pool.items.Length == n
      modifies this, queue, queue.data, pool, pool.items, board.Repr()
      ensures Made(n) && (queue.data == old(queue.data) || fresh(queue.data)) && pool.items == old(pool.items)
      ensures fresh(board.Repr() - old(board.Repr()))
    {
      hide Made;
      for i := 0 to n
        invariant Made(i) && (queue.data == old(queue.data) || fresh(queue.data)) && pool.items == old(pool.items)
        invariant fresh(board.Repr() - old(board.Repr()))
      {
        InitSlave(i);
      }
    }

    method InitSlave(i: nat)
      requires i < board.n && i + 1 < MAX_MESSAGES && Made(i) && i < pool.items.Length
      modifies this, queue, queue.data, pool, pool.items, board.Repr()
      ensures Made(i + 1) && (queue.data == old(queue.data) || fresh(queue.data)) && pool.items == old(pool.items)
      ensures fresh(board.Repr() - old(board.Repr()))
    {
      hide RB.Wellformed, RB.Slot, CapFor, RB.PutMany, RI.Init, B.Board.Valid, B.Board.Registers, Begins;
      board.RegisterSlave(i);
      StartSlave(i);
    }

    /** Its side of the queue and the pool. */
    ghost predicate Begins(i: nat)
      reads this, queue, queue.data, pool, pool.items
    {
      && Core() && Value() == World(seq(i, _ => Slave(Init, Closed, false)), Upto(i), Greetings(i), false, Running)
      && queue.tail == 0 && queue.cap == CapFor(i) && StartRing()
    }

    method StartSlave(i: nat)
      requires Begins(i) && i + 1 < MAX_MESSAGES && i < pool.items.Length
      modifies this, queue, queue.data, pool, pool.items
      ensures Begins(i + 1) && Core()
      ensures (queue.data == old(queue.data) || fresh(queue.data)) && pool.items == old(pool.items)
    {
      NextGreeting(i);
      hide RB.Wellformed, RB.Slot, CapFor, RB.PutMany, RI.Init, Upto, Greetings;
      slaves := slaves + [Slave(Init, Closed, false)];
      var outside := pool.Put(i);
      SendFirst(Message(SlaveNo(i), Code(0)));
    }

    /** esma_machine_send_msg before anything has been taken from the queue. */
    method SendFirst(m: Message)
      requires queue.Valid() && queue.itemSize == MESSAGE_SIZE
      requires queue.tail == 0 && queue.cap == CapFor(|queue.Contents()|) && StartRing()
      requires |queue.Contents()| < MAX_MESSAGES
      modifies queue, queue.data
      ensures queue.Valid() && queue.tail == 0 && queue.Contents() == old(queue.Contents()) + [m]
      ensures StartRing() && queue.cap == CapFor(|queue.Contents()|)
      ensures queue.data == old(queue.data) || fresh(queue.data)
    {
      hide RB.PutMany, RI.Put, RI.Init, RB.Wellformed, RB.Slot, RB.Fits, CapFor;
      MorePuts(queue.size);
      FirstPutIsSound(queue.size);
      var r := queue.Put(m);
    }

    /** esma_machine_send_msg while there is room. */
    method Post(m: Message)
      requires queue.Valid() && queue.size < queue.cap
      modifies queue, queue.data
      ensures queue.Valid() && queue.Contents() == old(queue.Contents()) + [m]
      ensures Fed(old(queue.Indices()))
      ensures queue.cap == old(queue.cap) && (queue.data == old(queue.data) || fresh(queue.data))
    {
      hide RB.PutMany, RI.Put, RB.Wellformed, RB.Slot;
      FewPuts(queue.Indices());
      var r := queue.Put(m);
    }

    // ------------------------------------------------------------------ handlers

    /** What every handler leaves: the ring has been put into and has not grown. */
    twostate predicate Kept()
      reads this, queue, queue.data, pool, pool.items
      reads board.reactor, board.reactor.events, board.reactor.channels, board.Repr()
    {
      && Valid() && old(Valid()) && Fed(old(queue.Indices())) && queue.cap == old(queue.cap)
      && (queue.data == old(queue.data) || fresh(queue.data))
      && fresh(board.Repr() - old(board.Repr()))
    }

    /** And what becomes of slave i and its channels. */
    twostate predicate Follows(i: nat, r: Effect, entry: P.PollFd)
      reads this, queue, queue.data, pool, pool.items
      reads board.reactor, board.reactor.events, board.reactor.channels, board.Repr()
    {
      && Kept() && i < old(|slaves|) && Value() == Apply(old(Value()), i, r)
      && Rows() == SlaveTable(board.wiring, old(Rows()), i, old(slaves[i]), r.slave, entry)
    }

    /** esma_machine_send_msg: a machine sends a code. */
    method Tell(who: Who, c: nat)
      requires Valid() && queue.size < queue.cap
      modifies queue, queue.data
      ensures Kept() && Value() == SendCode(old(Value()), who, Some(c))
      ensures Rows() == old(Rows()) && board.Repr() == old(board.Repr())
    {
      hide RB.PutMany, RI.Put, RB.Wellformed, RB.Slot, B.Board.Valid, B.Board.Rows;
      NoPut(queue.Indices());
      Post(Message(who, Code(c)));
    }

    /** slave_idle_1 */
    method SlaveIdle1(i: nat, e: Event, a: Answer) returns (ghost entry: P.PollFd)
      requires Valid() && Known() && queue.size < queue.cap && status == Running
      requires i < |slaves| && slaves[i].state == Idle
      modifies this, queue, queue.data, board.Repr()
      ensures Follows(i, Act(old(slaves[i]), e, a), entry)
    {
      hide RB.PutMany, RI.Put, RB.Wellformed, RB.Slot, B.Board.Valid, B.Board.Rows, B.Board.Repr, Registered,
           SlaveTable, Changed, Modified, Apply, Act;
      NoPut(queue.Indices());
      IdleActs(Value(), i, e, a);
      entry := P.ZERO;
      IoOnly(board.wiring, Rows(), i, slaves[i], slaves[i].io, entry);
      if !a.accepted {
        Tell(SlaveNo(i), 3);
        return;
      }
      if slaves[i].io.Closed? {
        entry := OpenIo(i);
      }
      Tell(SlaveNo(i), 0);
    }

    /** esma_machine_init_io_channel of a slave that has none. */
    method OpenIo(i: nat) returns (ghost entry: P.PollFd)
      requires Valid() && Known() && i < |slaves| && slaves[i].io.Closed?
      modifies this`slaves, board.Repr()
      ensures Valid() && fresh(board.Repr() - old(board.Repr()))
      ensures slaves == old(slaves)[i := old(slaves[i]).(io := Open(Unclaimed))]
      ensures Rows() == SlaveTable(board.wiring, old(Rows()), i, old(slaves[i]), slaves[i], entry)
    {
      hide RB.PutMany, RI.Put, RB.Wellformed, RB.Slot, B.Board.Valid, B.Board.Rows, Registered, SlaveTable;
      NoPut(queue.Indices());
      Present(Value(), board.wiring, Rows());
      board.Places(SlaveIo(i));
      var fd: nat := *;
      ghost var t := Rows();
      entry := board.Add(SlaveIo(i), fd, 0);
      IoOnly(board.wiring, t, i, slaves[i], Open(Unclaimed), entry);
      slaves := slaves[i := slaves[i].(io := Open(Unclaimed))];
    }

    /** slave_recv_tick_0, slave_recv_data_0 and slave_recv_data_1 */
    method SlaveRecvActs(i: nat, e: Event, a: Answer)
      requires Valid() && queue.size < queue.cap && i < |slaves| && status == Running && slaves[i].state == Recv
      modifies queue, queue.data
      ensures Follows(i, Act(old(slaves[i]), e, a), P.ZERO)
    {
      hide RB.PutMany, RI.Put, RB.Wellformed, RB.Slot, B.Board.Valid, B.Board.Rows, B.Board.Repr, Registered,
           SlaveTable, Changed, Modified, Apply, Act;
      NoPut(queue.Indices());
      RecvActs(Value(), i, e, a);
      IoOnly(board.wiring, Rows(), i, slaves[i], slaves[i].io, P.ZERO);
      if !e.PollIn? || a.available == 0 || a.expandFails {
        Tell(SlaveNo(i), 1);
      } else if a.read == a.available && a.lastIsNewline {
        Tell(SlaveNo(i), 0);
      }
    }

    /** slave_send_tick_0, slave_send_data_0 and slave_send_data_1 */
    method SlaveSendActs(i: nat, e: Event, a: Answer)
      requires Valid() && Known() && queue.size < queue.cap && status == Running
      requires i < |slaves| && slaves[i].state == EchoServer.Send
      modifies this, queue, queue.data, board.Repr()
      ensures Follows(i, Act(old(slaves[i]), e, a), P.ZERO)
    {
      hide RB.PutMany, RI.Put, RB.Wellformed, RB.Slot, B.Board.Valid, B.Board.Rows, B.Board.Repr, Registered,
           SlaveTable, Changed, Modified, Apply, Act;
      NoPut(queue.Indices());
      SendActs(Value(), i, e, a);
      IoOnly(board.wiring, Rows(), i, slaves[i], slaves[i].io, P.ZERO);
      IoOnly(board.wiring, Rows(), i, slaves[i], WithMask(slaves[i].io, Nothing), P.ZERO);
      if e.Tick? {
        Tell(SlaveNo(i), 1);
      } else if e.PollOut? {
        if a.written < 0 {
          if !a.interrupted {
            Tell(SlaveNo(i), 1);
          }
        } else if a.written == a.left {
          Mask(i, Nothing);
          Tell(SlaveNo(i), 0);
        }
      }
    }

    /** esma_machine_mod_io_channel: nothing happens without an IO channel. */
    method Mask(i: nat, mask: EchoServer.Mask)
      requires Valid() && Known() && i < |slaves| && mask != Unclaimed
      modifies this`slaves, board.Repr()
      ensures Kept() && board.Repr() == old(board.Repr())
      ensures slaves == old(slaves)[i := old(slaves[i]).(io := WithMask(old(slaves[i].io), mask))]
      ensures Rows() == Changed(board.wiring, old(Rows()), i, old(slaves[i].io), slaves[i].io, P.ZERO)
    {
      hide RB.PutMany, RI.Put, RB.Wellformed, RB.Slot, B.Board.Valid, B.Board.Rows, Registered;
      NoPut(queue.Indices());
      ghost var w, x, t := Value(), board.wiring, Rows();
      var io := slaves[i].io;
      Present(w, x, t);
      board.Places(SlaveIo(i));
      slaves := slaves[i := slaves[i].(io := WithMask(io, mask))];
      if io.Open? {
        SameMask(x, t, i, io, mask, P.ZERO);
        board.Mod(SlaveIo(i), EventsOf(mask));
      }
    }

    /** The enter function of a state, and __start_channels. */
    method SlaveEnters(i: nat, state: SlaveState)
      requires Valid() && Known() && queue.size < queue.cap && i < |slaves| && status == Running
      requires state == Done ==> pool.size < pool.items.Length
      requires state != slaves[i].state
      modifies this, queue, queue.data, pool, pool.items, board.Repr()
      ensures Follows(i, Enter(old(slaves[i]), state), P.ZERO) && pool.items == old(pool.items)
    {
      hide RB.PutMany, RI.Put, RB.Wellformed, RB.Slot, B.Board.Valid, B.Board.Rows, B.Board.Repr, Registered,
           SlaveTable, Changed, Modified, Apply, Enter, TimerStarted;
      NoPut(queue.Indices());
      Enters(Value(), i, state);
      EntersTable(board.wiring, Rows(), i, slaves[i], state);
      match state {
        case Recv => SlaveStarts(i, false);
        case Send => SlaveStarts(i, true);
        case Done => SlaveDoneEnter(i);
        case Fini =>
          slaves := slaves[i := Slave(Fini, slaves[i].io, false)];
          status := Stopped;
        case _ => slaves := slaves[i := Slave(state, slaves[i].io, false)];
      }
    }

    /** slave_recv_enter and slave_send_enter, and the timer of the state. */
    method SlaveStarts(i: nat, sending: bool)
      requires Valid() && Known() && i < |slaves| && status == Running
      requires slaves[i].state != if sending then Send else Recv
      modifies this`slaves, board.Repr()
      ensures Follows(i, Enter(old(slaves[i]), if sending then Send else Recv), P.ZERO)
    {
      hide RB.PutMany, RI.Put, RB.Wellformed, RB.Slot, B.Board.Valid, B.Board.Rows, B.Board.Repr, Registered,
           SlaveTable, Changed, Modified, Apply, Enter, TimerStarted;
      NoPut(queue.Indices());
      var state := if sending then Send else Recv;
      ghost var w, t := Value(), Rows();
      Enters(w, i, state);
      EntersTable(board.wiring, t, i, slaves[i], state);
      var mask := if sending then Output else Input;
      TimerStays(w, board.wiring, t, i, slaves[i].io, WithMask(slaves[i].io, mask), sending);
      Mask(i, mask);
      slaves := slaves[i := Slave(state, slaves[i].io, true)];
      StartTimer(i, sending);
    }

    method StartTimer(i: nat, sending: bool)
      requires Valid() && SlaveTimer(i, sending) in board.wiring.wires
      requires board.wiring.wires[SlaveTimer(i, sending)] in Rows()
      modifies board.Repr()
      ensures Kept() && board.Repr() == old(board.Repr())
      ensures Rows() == Modified(board.wiring, old(Rows()), SlaveTimer(i, sending), T.POLLIN)
    {
      hide RB.PutMany, RI.Put, RB.Wellformed, RB.Slot, B.Board.Valid, B.Board.Rows, Modified;
      NoPut(queue.Indices());
      board.Places(SlaveTimer(i, sending));
      board.Mod(SlaveTimer(i, sending), T.POLLIN);
    }

    /** slave_done_enter */
    method SlaveDoneEnter(i: nat)
      requires Valid() && Known() && queue.size < queue.cap && i < |slaves| && status == Running
      requires pool.size < pool.items.Length && slaves[i].state != Done
      modifies this, queue, queue.data, pool, pool.items, board.Repr()
      ensures Follows(i, Enter(old(slaves[i]), Done), P.ZERO) && pool.items == old(pool.items)
    {
      hide RB.PutMany, RI.Put, RB.Wellformed, RB.Slot, B.Board.Valid, B.Board.Rows, B.Board.Repr, Registered,
           SlaveTable, Changed, Modified, Apply, Enter, TimerStarted;
      NoPut(queue.Indices());
      Enters(Value(), i, Done);
      EntersTable(board.wiring, Rows(), i, slaves[i], Done);
      CloseIo(i);
      slaves := slaves[i := Slave(Done, Closed, false)];
      Pool(i);
      Tell(SlaveNo(i), 0);
    }

    /** esma_machine_free_io_channel */
    method CloseIo(i: nat)
      requires Valid() && Known() && i < |slaves|
      modifies board.Repr()
      ensures Kept() && board.Repr() == old(board.Repr())
      ensures Rows() == Changed(board.wiring, old(Rows()), i, slaves[i].io, Closed, P.ZERO)
    {
      hide RB.PutMany, RI.Put, RB.Wellformed, RB.Slot, B.Board.Valid, B.Board.Rows, Registered;
      NoPut(queue.Indices());
      Present(Value(), board.wiring, Rows());
      board.Places(SlaveIo(i));
      if slaves[i].io.Open? {
        board.Del(SlaveIo(i));
      }
    }

    /** esma_objpool_put */
    method Pool(i: nat)
      requires Valid() && pool.size < pool.items.Length
      modifies pool, pool.items
      ensures Kept() && Value() == old(Value()).(pool := old(pool.Contents()) + [i]) && pool.items == old(pool.items)
      ensures Rows() == old(Rows()) && board.Repr() == old(board.Repr())
    {
      hide RB.PutMany, RI.Put, RB.Wellformed, RB.Slot, B.Board.Valid, B.Board.Rows;
      NoPut(queue.Indices());
      var outside := pool.Put(i);
    }

    /** The action of a Mealy transition. */
    method SlaveActs(i: nat, e: Event, a: Answer) returns (ghost entry: P.PollFd)
      requires Valid() && Known() && queue.size < queue.cap && i < |slaves| && status == Running
      modifies this, queue, queue.data, board.Repr()
      ensures Follows(i, Act(old(slaves[i]), e, a), entry)
    {
      hide RB.PutMany, RI.Put, RB.Wellformed, RB.Slot, B.Board.Valid, B.Board.Rows, B.Board.Repr, Registered,
           SlaveTable, Changed, Modified, Apply, Act;
      NoPut(queue.Indices());
      entry := P.ZERO;
      match slaves[i].state {
        case Idle => entry := SlaveIdle1(i, e, a);
        case Recv => SlaveRecvActs(i, e, a);
        case Send => SlaveSendActs(i, e, a);
        case _ =>
          NoAction(Value(), i, e, a);
          IoOnly(board.wiring, Rows(), i, slaves[i], slaves[i].io, entry);
      }
    }

    method SlaveHandles(i: nat, e: Event, a: Answer) returns (ghost entry: P.PollFd)
      requires Valid() && Known() && queue.size < queue.cap && i < |slaves| && status == Running
      requires |SlaveStep(Value(), i, e, a).pool| <= pool.items.Length
      modifies this, queue, queue.data, pool, pool.items, board.Repr()
      ensures Follows(i, React(old(slaves[i]), e, a), entry) && pool.items == old(pool.items)
    {
      hide RB.PutMany, RI.Put, RB.Wellformed, RB.Slot, B.Board.Valid, B.Board.Rows, B.Board.Repr, Registered,
           SlaveTable, Changed, Modified, Act, Enter, Declared, RB.RingBuffer.Valid;
      NoPut(queue.Indices());
      entry := P.ZERO;
      GotoMoves(slaves[i].state, e);
      IoOnly(board.wiring, Rows(), i, slaves[i], slaves[i].io, entry);
      assert slaves[i := slaves[i]] == slaves;
      if e.NoPoll? || a.fault {
        Ends(Stopped);
        return;
      }
      match Declared(slaves[i].state, e) {
        case Undeclared => Ends(Crashed);
        case Self => entry := SlaveActs(i, e, a);
        case Goto(state) =>
          if state == Done {
            DonePools(Value(), i, e, a);
          }
          SlaveEnters(i, state);
      }
    }

    /** The master's transitions. */
    method MasterHandles(e: Event, a: Answer)
      requires Valid() && Known() && queue.size < queue.cap
      modifies this, queue, queue.data, pool, pool.items, board.Repr()
      ensures Kept() && Value() == MasterStep(old(Value()), e, a) && pool.items == old(pool.items)
      ensures Rows() == MasterTable(board.wiring, old(Rows()), old(working), e, a)
    {
      hide RB.PutMany, RI.Put, RB.Wellformed, RB.Slot, B.Board.Valid, B.Board.Rows, B.Board.Repr, Registered,
           SlaveTable, Changed, Modified, WorkStarted, WorkStopped;
      NoPut(queue.Indices());
      if e.NoPoll? || a.fault {
        Ends(Stopped);
      } else if e == Code(3) {
        if working {
          StopWork();
        }
        Ends(Stopped);
      } else if !working {
        if e == Code(0) {
          StartWork();
          working := true;
        } else {
          Ends(Crashed);
        }
      } else {
        match e {
          case PollIn => MasterNewClient(a);
          case PollErr => Tell(Master, 3);
          case PollHup => Tell(Master, 3);
          case Tick(k) =>
            if k == 3 {
              StopWork();
              Ends(Stopped);
            } else if k != 0 {
              Ends(Crashed);
            }
          case Sign(k) =>
            if k > 1 {
              Ends(Crashed);
            }
          case Code(_) => Ends(Crashed);
          case PollOut => Ends(Crashed);
          case NoPoll =>
        }
      }
    }

    /** master_work_data_0 */
    method MasterNewClient(a: Answer)
      requires Valid() && queue.size < queue.cap
      modifies this`status, queue, queue.data, pool
      ensures Kept() && Value() == NewClient(old(Value()), a) && pool.items == old(pool.items)
      ensures Rows() == old(Rows()) && board.Repr() == old(board.Repr())
    {
      hide RB.PutMany, RI.Put, RB.Wellformed, RB.Slot, B.Board.Valid, B.Board.Rows, B.Board.Repr;
      NoPut(queue.Indices());
      var slave := Unpool();
      if slave.Some? {
        Tell(SlaveNo(slave.value), 1);
      } else if !a.accepted {
        Ends(Stopped);
      }
    }

    /** esma_objpool_get */
    method Unpool() returns (slave: Option<nat>)
      requires Valid()
      modifies pool
      ensures Kept() && pool.items == old(pool.items)
      ensures var p := old(pool.Contents());
              if p == [] then slave == None && Value() == old(Value())
              else slave == Some(p[|p| - 1]) && Value() == old(Value()).(pool := p[..|p| - 1])
      ensures Rows() == old(Rows()) && board.Repr() == old(board.Repr())
    {
      hide RB.PutMany, RI.Put, RB.Wellformed, RB.Slot, B.Board.Valid, B.Board.Rows;
      NoPut(queue.Indices());
      slave := pool.Get();
    }

    /** __start_channels of `work` */
    method StartWork()
      requires Valid() && Known()
      modifies board.Repr()
      ensures Kept() && board.Repr() == old(board.Repr()) && Rows() == WorkStarted(board.wiring, old(Rows()))
    {
      hide RB.PutMany, RI.Put, RB.Wellformed, RB.Slot, B.Board.Valid, B.Board.Rows, B.Board.Repr, Registered,
           WorkStarted;
      NoPut(queue.Indices());
      WorkPresent();
      board.StartWork();
    }

    /** __stop_channels of `work` */
    method StopWork()
      requires Valid() && Known()
      modifies board.Repr()
      ensures Kept() && board.Repr() == old(board.Repr()) && Rows() == WorkStopped(board.wiring, old(Rows()))
    {
      hide RB.PutMany, RI.Put, RB.Wellformed, RB.Slot, B.Board.Valid, B.Board.Rows, B.Board.Repr, Registered,
           WorkStopped;
      NoPut(queue.Indices());
      WorkPresent();
      board.StopWork();
    }

    lemma WorkPresent()
      requires Valid() && Known()
      ensures forall e :: OfWork(e) ==> Exists(board.n, e) && board.At(e) in Rows()
    {
      Present(Value(), board.wiring, Rows());
      forall e | OfWork(e) ensures Exists(board.n, e) && board.At(e) in Rows() {
        board.Places(e);
      }
    }

    /** Nothing but the status changes. */
    method Ends(s: Status)
      requires Valid()
      modifies this`status
      ensures Kept() && Value() == old(Value()).(status := s) && board.Repr() == old(board.Repr())
      ensures Rows() == old(Rows())
    {
      hide RB.PutMany, RI.Put, RB.Wellformed, RB.Slot, B.Board.Valid, B.Board.Rows;
      NoPut(queue.Indices());
      status := s;
    }

    /** One dispatch: the handler the transition names. */
    method Dispatch(m: Message, a: Answer) returns (ghost entry: P.PollFd)
      requires Valid() && Known() && queue.size < queue.cap && status == Running
      requires |Deliver(Value(), m, a).pool| <= pool.items.Length
      modifies this, queue, queue.data, pool, pool.items, board.Repr()
      ensures Kept() && Value() == Deliver(old(Value()), m, a) && pool.items == old(pool.items)
      ensures fresh(board.Repr() - old(board.Repr())) && (queue.data == old(queue.data) || fresh(queue.data))
      ensures Rows() == Told(board.wiring, old(Value()), m, a, old(Rows()), entry)
    {
      hide RB.PutMany, RI.Put, RB.Wellformed, RB.Slot, B.Board.Valid, B.Board.Rows, B.Board.Repr, Registered,
           SlaveTable, Changed, Modified, React, MasterStep, MasterTable, Apply;
      NoPut(queue.Indices());
      entry := P.ZERO;
      match m.who {
        case Master => MasterHandles(m.event, a);
        case SlaveNo(i) =>
          if i >= |slaves| {
            status := Crashed;
          } else {
            entry := SlaveHandles(i, m.event, a);
          }
      }
    }

    // ------------------------------------------------------------- the main loop

    /** The engine with its reactor's table. */
    ghost function System(): System
      reads this, queue, queue.data, pool, pool.items
      reads board.reactor, board.reactor.events, board.reactor.channels, board.Repr()
      requires Valid()
    {
      EchoReactor.System(Whole(), Rows())
    }

    /** The next message, if there is one. */
    method Take() returns (m: Option<Message>)
      requires Valid() && Known()
      modifies queue`tail, queue`size
      ensures Valid() && Known() && queue.cap == old(queue.cap)
      ensures Rows() == old(Rows()) && board.Repr() == old(board.Repr())
      ensures old(queue.Contents()) == [] ==> m == None && System() == old(System())
      ensures old(queue.Contents()) != [] ==>
                && m == Some(old(queue.Contents())[0]) && Value() == old(Value()).(queue := old(queue.Contents())[1..])
                && queue.Indices() == RI.Get(old(queue.Indices())).0 && queue.size < queue.cap
    {
      hide RB.PutMany, RI.Put, RI.Get, RB.Wellformed, RB.Slot, B.Board.Valid, B.Board.Rows, Registered;
      RB.Bounded(queue.Indices());
      ghost var w := Value();
      GetNone(queue.Indices());
      m := queue.Get();
      SameSlaves(w, Value(), board.wiring, Rows());
    }

    /** Whenever the engine goes on. */
    ghost predicate Going()
      reads this, queue, queue.data, pool, pool.items
      reads board.reactor, board.reactor.events, board.reactor.channels, board.Repr()
    {
      Valid() && Inv(Value()) && Known() && |slaves| <= pool.items.Length
    }

    /** One message taken and dispatched. */
    method ExecOne() returns (more: bool, a: Answer, ghost entry: P.PollFd)
      requires Going()
      modifies this, queue, queue.data, pool, pool.items, board.Repr()
      ensures Valid() && queue.cap == old(queue.cap) && (queue.data == old(queue.data) || fresh(queue.data))
      ensures fresh(board.Repr() - old(board.Repr())) && pool.items == old(pool.items)
      ensures |slaves| == old(|slaves|) && status != Crashed && (status == Running ==> Going())
      ensures more <==> old(queue.Contents()) != []
      ensures !more ==> System() == old(System())
      ensures more ==> System() == SystemStep(board.wiring, old(System()), a, entry)
      ensures more && status == Running ==> Weight(queue.Contents()) < old(Weight(queue.Contents()))
    {
      hide RB.PutMany, RI.Put, RI.Get, RB.Wellformed, RB.Slot, B.Board.Valid, B.Board.Rows, Registered, Inv,
           Deliver, Told, Step, EngineStep, TableStep, Weight;
      ghost var before := System();
      InvRuns(before.e.w);
      var m := Take();
      a := *;
      entry := P.ZERO;
      if m == None {
        return false, a, entry;
      }
      Steps(before, board.wiring, a);
      entry := Dispatch(m.value, a);
      Stepped(before, board.wiring, a, entry, queue.Indices());
      return true, a, entry;
    }

    /** Whenever the queue has been drained. */
    ghost predicate InOrder()
      reads this, queue, queue.data, pool, pool.items
      reads board.reactor, board.reactor.events, board.reactor.channels, board.Repr()
    {
      Valid() && status != Crashed && (status == Running ==> Going() && Ready(Value()))
    }

    /** esma_engine_exec. It ends, and the ring does not grow. */
    method Exec() returns (ghost answers: seq<Answer>, ghost entries: seq<P.PollFd>)
      requires Going()
      modifies this, queue, queue.data, pool, pool.items, board.Repr()
      ensures Valid() && |entries| == |answers|
      ensures System() == SystemDrain(board.wiring, old(System()), answers, entries)
      ensures InOrder()
      ensures |slaves| == old(|slaves|) && pool.items == old(pool.items) && queue.cap == old(queue.cap)
      ensures (queue.data == old(queue.data) || fresh(queue.data)) && fresh(board.Repr() - old(board.Repr()))
    {
      hide Inv, Ready, SystemDrain, SystemStep, B.Board.Valid, B.Board.Rows, Registered, RB.Wellformed, Weight;
      answers, entries := [], [];
      NothingDrained(board.wiring, System());
      IsCarried();
      InvRuns(Value());
      while true
        invariant Going() && status == Running && |entries| == |answers|
        invariant System() == SystemDrain(board.wiring, old(System()), answers, entries)
        invariant |slaves| == old(|slaves|) && pool.items == old(pool.items) && queue.cap == old(queue.cap)
        invariant (queue.data == old(queue.data) || fresh(queue.data)) && fresh(board.Repr() - old(board.Repr()))
        decreases Weight(queue.Contents())
      {
        ghost var before := System();
        var more, a;
        ghost var entry;
        more, a, entry := ExecOne();
        if !more {
          DrainedIsReady(before.e.w);
          return;
        }
        DrainedMore(board.wiring, old(System()), answers, a, entries, entry);
        answers, entries := answers + [a], entries + [entry];
        if status != Running {
          return;
        }
      }
    }

    lemma IsSettled()
      requires InOrder() && status == Running
      ensures Valid() && System().e == Whole() && Settled(System().e.w)
    {
      ReadyIsDrained(Value());
      hide Ready, Inv, Registered, B.Board.Valid;
    }

    lemma IsBooted(listening: bool)
      requires Valid() && Whole() == EngineStart(NSLAVES, listening) && Known() && pool.items.Length == NSLAVES
      ensures Going() && System().e == EngineStart(NSLAVES, listening)
      ensures Registered(System().e.w, board.wiring, System().t)
      ensures queue.cap == (if listening then 512 else QUEUE_SIZE) && |slaves| == if listening then NSLAVES else 0
    {
      BootsRight(listening);
      hide Inv, EngineStart, Registered, B.Board.Valid;
    }

    lemma IsCarried()
      requires Valid()
      ensures Carries(System().e)
    {
      hide B.Board.Valid, RB.Wellformed;
    }

    /** The messages that one wait posts. */
    method Wait(batch: seq<Message>) returns (r: RB.PutResult)
      requires Valid() && queue.Contents() == []
      modifies queue, queue.data
      ensures r == RB.Stored <==> HasRoom(old(Whole()), batch)
      ensures r == RB.Stored ==> Valid() && Whole() == EngineWait(old(Whole()), batch)
      ensures r == RB.Stored && |batch| <= old(queue.cap) ==> queue.cap == old(queue.cap)
      ensures queue.data == old(queue.data) || fresh(queue.data)
      ensures board.Valid() && Rows() == old(Rows()) && board.Repr() == old(board.Repr())
    {
      hide RB.Wellformed, RB.Slot, RI.Put, B.Board.Valid, B.Board.Rows, RB.PutMany, RB.Fits;
      PutsFit(queue.Indices(), batch);
      r := queue.PutAll(batch);
    }

    /** One more pass of the main loop: poll(2) reports what it likes of the server's
        channels, but for two events of one slave that it does not survive together and
        messages that the ring has no room for; then the queue is drained. Neither the
        ring nor the pool grows. */
    method Pass() returns (ghost p: Poll, ghost next: System, ghost answers: seq<Answer>, ghost entries: seq<P.PollFd>)
      requires InOrder() && status == Running
      modifies this, queue, queue.data, pool, pool.items, board.Repr()
      ensures Waits(board.wiring, old(System()), p, next) && Bearable(old(Whole()), next.e.w.queue)
      ensures Valid() && |entries| == |answers|
      ensures System() == SystemDrain(board.wiring, next, answers, entries)
      ensures InOrder()
      ensures |slaves| == old(|slaves|) && pool.items == old(pool.items) && queue.cap == old(queue.cap)
      ensures (queue.data == old(queue.data) || fresh(queue.data)) && fresh(board.Repr() - old(board.Repr()))
    {
      hide Inv, Ready, B.Board.Valid, B.Board.Rows, Registered, RB.Wellformed, EngineWait, Polls, Brings, Noted,
           RB.RingBuffer.Valid;
      ghost var before := System();
      ReadyIsDrained(Value());
      var batch;
      p, batch := board.Wait(Value(), queue.cap);
      var r := Wait(batch);
      next := System();
      WaitsNow(before, p, next, batch, board.wiring);
      answers, entries := Exec();
    }
  }

  /** The main loop, with the slaves the server has, over passes in which poll(2) reports
      what it likes of the reactor's own entries, but for what Pass leaves out. What the
      program does is a run of the system; the ring grows to 512 slots while the server
      starts, and never again, and the pool keeps the capacity it was made with. */
  method Serve(listening: bool, passes: nat)
      returns (server: Server, ghost ss: seq<System>, ghost rs: seq<Round>,
               ghost answers: seq<Answer>, ghost entries: seq<P.PollFd>)
    ensures server.Valid() && |entries| == |answers|
    ensures IsSystemRun(server.board.wiring, ss, rs, NSLAVES, listening)
    ensures server.System() == SystemDrain(server.board.wiring, ss[|rs|], answers, entries)
    ensures server.InOrder()
    ensures server.queue.cap == if listening then 512 else QUEUE_SIZE
    ensures |server.slaves| == if listening then NSLAVES else 0
    ensures server.pool.items.Length == NSLAVES
  {
    hide Inv, Ready, CapFor, RB.Wellformed, RB.RingBuffer.Valid, B.Board.Valid, B.Board.Rows, Registered, Started,
         EngineStart, SystemDrain, Waits, Bearable, IsSystemRun, Server.Going, Server.System, Server.Whole,
         Server.Value, Server.Valid, Server.InOrder;
    server := Boot(listening);
    var x := server.board.wiring;
    ss, rs := [server.System()], [];
    RunBegins(x, server.System(), NSLAVES, listening);
    answers, entries := server.Exec();
    for k := 0 to passes
      invariant fresh(server) && fresh(server.queue) && fresh(server.queue.data)
      invariant fresh(server.pool) && fresh(server.pool.items) && server.pool.items.Length == NSLAVES
      invariant fresh(server.board.Repr()) && server.board.wiring == x
      invariant server.Valid() && |entries| == |answers| && |ss| == |rs| + 1
      invariant IsSystemRun(x, ss, rs, NSLAVES, listening)
      invariant server.System() == SystemDrain(x, ss[|rs|], answers, entries)
      invariant server.InOrder()
      invariant server.queue.cap == if listening then 512 else QUEUE_SIZE
      invariant |server.slaves| == if listening then NSLAVES else 0
    {
      if server.status == Running {
        server.IsSettled();
        ghost var turn, entered := answers, entries;
        ghost var before := server.System();
        ghost var p, next;
        p, next, answers, entries := server.Pass();
        OneTurn(x, ss[|rs|], before, turn, entered, p, next);
        SystemSnoc(x, ss, rs, NSLAVES, listening, Round(turn, entered, p), next);
        RunLength(x, ss + [next], rs + [Round(turn, entered, p)], NSLAVES, listening);
        ss, rs := ss + [next], rs + [Round(turn, entered, p)];
      }
    }
  }

  /** esma_engine_init and esma_machine_run of the master. */
  method Boot(listening: bool) returns (server: Server)
    ensures fresh(server) && fresh(server.queue) && fresh(server.queue.data)
    ensures fresh(server.pool) && fresh(server.pool.items) && server.pool.items.Length == NSLAVES
    ensures fresh(server.board.Repr())
    ensures server.Going() && server.Valid() && server.System().e == EngineStart(NSLAVES, listening)
    ensures var s := server.System(); Registered(s.e.w, server.board.wiring, s.t)
    ensures server.queue.cap == if listening then 512 else QUEUE_SIZE
    ensures |server.slaves| == if listening then NSLAVES else 0
  {
    hide Inv, CapFor, RB.Wellformed, RB.RingBuffer.Valid, B.Board.Valid, B.Board.Rows, Registered, Started,
         EngineStart, Server.Blank;
    server := Make(if listening then NSLAVES else 0);
    server.MasterInit(NSLAVES, listening);
    server.IsBooted(listening);
  }

  method Make(made: nat) returns (server: Server)
    requires made <= NSLAVES
    ensures fresh(server) && fresh(server.queue) && fresh(server.queue.data)
    ensures fresh(server.pool) && fresh(server.pool.items) && server.pool.items.Length == NSLAVES
    ensures fresh(server.board.Repr()) && server.Blank(NSLAVES, made)
  {
    hide RB.Wellformed, RB.RingBuffer.Valid, B.Board.Valid, B.Board.Rows, Server.Blank, RB.Slot;
    var queue := new RB.RingBuffer<Message>(28, QUEUE_SIZE);
    var pool := new OP.ObjPool<nat>(NSLAVES, 0);
    var board := new B.Board(made);
    server := new Server(queue, pool, board);
  }
}
