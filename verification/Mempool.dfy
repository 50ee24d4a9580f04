/** The memory pool: free blocks are linked through memory that clients may have
    written to while they held it. */
module Mempool {
  import opened Wrappers

  const NBLOCKS: nat := 1024

  /** A block: its page and its place there. Pages lie apart from each other. */
  datatype Addr = Addr(page: nat, index: nat)

  /** The word at the start of every block. */
  type Memory = map<Addr, Option<Addr>>

  /** s is the chain that starts at p and follows the words of mem. */
  ghost predicate Chain(p: Option<Addr>, s: seq<Addr>, mem: Memory)
    decreases |s|
  {
    if s == [] then p == None
    else p == Some(s[0]) && s[0] in mem && Chain(mem[s[0]], s[1..], mem)
  }

  /** A chain only depends on the words of its own blocks. */
  lemma {:induction false} ChainFrame(p: Option<Addr>, s: seq<Addr>, mem: Memory, mem': Memory)
    requires Chain(p, s, mem)
    requires forall a :: a in s ==> a in mem' && a in mem && mem'[a] == mem[a]
    ensures Chain(p, s, mem')
    decreases |s|
  {
    if s != [] {
      ChainFrame(mem[s[0]], s[1..], mem, mem');
    }
  }

  /** A chain is determined by its start and the memory. */
  lemma {:induction false} ChainUnique(p: Option<Addr>, s: seq<Addr>, t: seq<Addr>, mem: Memory)
    requires Chain(p, s, mem) && Chain(p, t, mem)
    ensures s == t
    decreases |s|
  {
    if s != [] {
      ChainUnique(mem[s[0]], s[1..], t[1..], mem);
    }
  }

  /** The n last blocks of a page, in order. */
  function Suffix(page: nat, n: nat): (s: seq<Addr>)
    requires n <= NBLOCKS
    ensures |s| == n
  {
    seq(n, i requires 0 <= i < n => Addr(page, NBLOCKS - n + i))
  }

  lemma InSuffix(page: nat, n: nat, a: Addr)
    requires n <= NBLOCKS
    ensures a in Suffix(page, n) <==> a.page == page && NBLOCKS - n <= a.index < NBLOCKS
  {
    if a.page == page && NBLOCKS - n <= a.index < NBLOCKS {
      assert Suffix(page, n)[a.index - (NBLOCKS - n)] == a;
    }
  }

  lemma SuffixTail(page: nat, n: nat)
    requires 0 < n <= NBLOCKS
    ensures Suffix(page, n)[0] == Addr(page, NBLOCKS - n)
    ensures Suffix(page, n)[1..] == Suffix(page, n - 1)
  {
  }

  ghost predicate Distinct(s: seq<Addr>) {
    forall i, j :: 0 <= i < j < |s| ==> s[i] != s[j]
  }

  predicate Slot(a: Addr, pages: nat) {
    a.page < pages && a.index < NBLOCKS
  }

  /** The fields of the pool, with what clients hold and have held at most. */
  datatype State =
    State(blocks: Option<Addr>, basket: Option<Addr>, nblocks: nat, naddr: nat, mem: Memory,
          free: seq<Addr>, held: set<Addr>, peak: nat)
  {
    /** Not handed out yet: the end of the newest page. */
    predicate Unused(a: Addr) {
      a.page == naddr - 1 && NBLOCKS - nblocks <= a.index < NBLOCKS
    }

    /** Every slot of every page is unused, returned or held, and only one of them. */
    ghost predicate Partition() {
      && Distinct(free)
      && (forall a :: a in free ==> Slot(a, naddr) && !Unused(a) && a !in held)
      && (forall a :: a in held ==> Slot(a, naddr) && !Unused(a))
      && (forall a :: Slot(a, naddr) ==> Unused(a) || a in free || a in held)
    }

    /** Unused blocks are chained in order from `blocks`, returned ones from
        `basket`, through the memory of all pages. */
    ghost predicate Chained() {
      && naddr >= 1 && nblocks <= NBLOCKS
      && (forall a :: a in mem <==> Slot(a, naddr))
      && Chain(blocks, Suffix(naddr - 1, nblocks), mem)
      && Chain(basket, free, mem)
    }

    ghost predicate Counted() {
      && |held| + |free| + nblocks == NBLOCKS * naddr
      && |held| <= peak <= NBLOCKS * naddr
    }

    ghost predicate Core() {
      Chained() && Partition() && Counted()
    }

    /** And there are only as many pages as the peak needs. */
    ghost predicate Valid() {
      Core() && (naddr > 1 ==> NBLOCKS * (naddr - 1) < peak)
    }
  }

  /** How many pages hold n blocks, and at least one. */
  function PagesFor(n: nat): nat {
    if n == 0 then 1 else (n + NBLOCKS - 1) / NBLOCKS
  }

  /** A valid pool has exactly the pages its peak needs. */
  lemma PagesAreMinimal(s: State)
    requires s.Valid()
    ensures s.naddr == PagesFor(s.peak)
  {
  }

  /** The words of blocks in use may change freely. */
  lemma WriteKeepsChains(s: State, a: Addr, word: Option<Addr>)
    requires s.Valid() && a in s.held
    ensures Chain(s.blocks, Suffix(s.naddr - 1, s.nblocks), s.mem[a := word])
    ensures Chain(s.basket, s.free, s.mem[a := word])
  {
    var unused := Suffix(s.naddr - 1, s.nblocks);
    forall b | b in unused ensures b in s.mem && b != a {
      InSuffix(s.naddr - 1, s.nblocks, b);
    }
    hide Chain;
    ChainFrame(s.blocks, unused, s.mem, s.mem[a := word]);
    ChainFrame(s.basket, s.free, s.mem, s.mem[a := word]);
  }

  // ------------------------------------------------------ steps of the pool

  function Higher(held: set<Addr>, peak: nat): nat {
    if |held| > peak then |held| else peak
  }

  /** Taking the first block of the basket. */
  lemma TakeReturned(s: State)
    requires s.Valid() && s.basket.Some?
    ensures s.free != [] && s.basket == Some(s.free[0]) && s.free[0] in s.mem && s.free[0] !in s.held
    ensures var a := s.free[0];
            var held := s.held + {a};
            s.(basket := s.mem[a], free := s.free[1..], held := held, peak := Higher(held, s.peak)).Valid()
  {
    hide Chain, Suffix;
    ReturnedHead(s);
    var a := s.free[0];
    TakenFromFree(s, s.mem[a], Higher(s.held + {a}, s.peak));
    TakenCounted(s);
    hide State.Partition, State.Counted;
  }

  lemma ReturnedHead(s: State)
    requires s.Chained() && s.Partition() && s.basket.Some?
    ensures s.free != [] && s.basket == Some(s.free[0]) && s.free[0] in s.mem && s.free[0] !in s.held
    ensures Chain(s.mem[s.free[0]], s.free[1..], s.mem)
  {
    assert s.free[0] in s.free;
  }

  lemma TakenCounted(s: State)
    requires s.Counted() && s.free != [] && s.free[0] !in s.held && s.free[0] in s.mem
    ensures var held := s.held + {s.free[0]};
            var t := s.(basket := s.mem[s.free[0]], free := s.free[1..], held := held, peak := Higher(held, s.peak));
            t.Counted() && s.peak <= t.peak
  {
    assert |s.held + {s.free[0]}| == |s.held| + 1;
  }

  lemma TakenFromFree(s: State, basket: Option<Addr>, peak: nat)
    requires s.Partition() && s.free != []
    ensures s.(basket := basket, free := s.free[1..], held := s.held + {s.free[0]}, peak := peak).Partition()
  {
    hide Slot;
    var t := s.free[1..];
    assert forall b :: b in t ==> b in s.free && b != s.free[0];
    assert forall b :: b in s.free ==> b == s.free[0] || b in t;
    assert s.free[0] in s.free;
  }

  /** Taking the first unused block. */
  lemma TakeUnused(s: State)
    requires s.Core() && s.basket == None && s.nblocks > 0
    requires s.naddr > 1 ==> NBLOCKS * (s.naddr - 1) < s.peak || s.nblocks == NBLOCKS
    ensures var a := Addr(s.naddr - 1, NBLOCKS - s.nblocks);
            var held := s.held + {a};
            && s.blocks == Some(a) && a in s.mem && a !in s.held
            && s.(blocks := s.mem[a], nblocks := s.nblocks - 1, held := held, peak := Higher(held, s.peak)).Valid()
  {
    var a := Addr(s.naddr - 1, NBLOCKS - s.nblocks);
    SuffixTail(s.naddr - 1, s.nblocks);
    assert s.Unused(a) && Slot(a, s.naddr);
    assert s.free == [];
    assert Chain(s.mem[a], Suffix(s.naddr - 1, s.nblocks - 1), s.mem);
    hide Chain, Suffix;
    assert NBLOCKS * s.naddr == NBLOCKS * (s.naddr - 1) + NBLOCKS;
    TakenFromUnused(s, s.mem[a], Higher(s.held + {a}, s.peak));
  }

  lemma TakenFromUnused(s: State, blocks: Option<Addr>, peak: nat)
    requires s.Partition() && 0 < s.nblocks <= NBLOCKS && s.naddr > 0
    ensures s.(blocks := blocks, nblocks := s.nblocks - 1,
               held := s.held + {Addr(s.naddr - 1, NBLOCKS - s.nblocks)}, peak := peak).Partition()
  {
  }

  /** What follows a block on a page just allocated. */
  function LinkOf(a: Addr): Option<Addr> {
    if a.index + 1 < NBLOCKS then Some(Addr(a.page, a.index + 1)) else None
  }

  /** The first n blocks of a page. */
  function PageSlots(page: nat, n: nat): (s: set<Addr>)
    ensures forall a :: a in s <==> a.page == page && a.index < n
  {
    var s := set i: nat | i < n :: Addr(page, i);
    assert forall a: Addr :: a.page == page && a.index < n ==> a == Addr(page, a.index) && a in s;
    s
  }

  lemma MoreSlots(page: nat, n: nat)
    ensures PageSlots(page, n + 1) == PageSlots(page, n) + {Addr(page, n)}
  {
    hide PageSlots;
    forall a: Addr | a.page == page && a.index == n ensures a == Addr(page, n) {
    }
  }

  ghost predicate Linked(page: nat, mem: Memory) {
    forall a :: a in PageSlots(page, NBLOCKS) ==> a in mem && mem[a] == LinkOf(a)
  }

  lemma {:induction false} LinkedIsChain(page: nat, n: nat, mem: Memory)
    requires n <= NBLOCKS && Linked(page, mem)
    ensures Chain(if n == 0 then None else Some(Addr(page, NBLOCKS - n)), Suffix(page, n), mem)
    decreases n
  {
    if n > 0 {
      SuffixTail(page, n);
      LinkedIsChain(page, n - 1, mem);
      var a := Addr(page, NBLOCKS - n);
      assert a in PageSlots(page, NBLOCKS);
    } else {
      assert Suffix(page, 0) == [];
    }
  }

  lemma EmptyChain(mem: Memory)
    ensures Chain(None, [], mem)
  {
  }

  lemma FirstPageIsValid(s: State)
    requires s.Chained() && s.naddr == 1 && s.nblocks == NBLOCKS && s.free == [] && s.held == {} && s.peak == 0
    ensures s.Valid()
  {
    hide Chain, Suffix;
  }

  /** A new page when every block of every page is held. */
  lemma GrowWhenExhausted(s: State, mem: Memory)
    requires s.Valid() && s.basket == None && s.nblocks == 0
    requires forall a :: a in mem <==> Slot(a, s.naddr + 1)
    requires Linked(s.naddr, mem)
    ensures s.(blocks := Some(Addr(s.naddr, 0)), nblocks := NBLOCKS, naddr := s.naddr + 1, mem := mem).Core()
  {
    LinkedIsChain(s.naddr, NBLOCKS, mem);
    assert s.free == [];
    assert NBLOCKS * (s.naddr + 1) == NBLOCKS * s.naddr + NBLOCKS;
    hide Suffix, Linked;
  }

  lemma GiveBack(s: State, a: Addr)
    requires s.Valid() && a in s.held
    ensures s.(basket := Some(a), mem := s.mem[a := s.basket], free := [a] + s.free, held := s.held - {a}).Valid()
  {
    WriteKeepsChains(s, a, s.basket);
    var free := [a] + s.free;
    assert free[1..] == s.free;
    assert Chain(Some(a), free, s.mem[a := s.basket]);
    hide Chain, Suffix;
    assert (s.held - {a}) + {a} == s.held;
    GivenBack(s, a, s.mem[a := s.basket]);
  }

  lemma GivenBack(s: State, a: Addr, mem: Memory)
    requires s.Partition() && a in s.held
    ensures s.(basket := Some(a), mem := mem, free := [a] + s.free, held := s.held - {a}).Partition()
  {
    hide Slot;
    assert forall b :: b in [a] + s.free <==> b == a || b in s.free;
  }

  // --------------------------------------------------------------- the pool

  class Pool {
    var blocks: Option<Addr>     // the chain of blocks never handed out
    var basket: Option<Addr>     // the chain of returned blocks
    var nblocks: nat
    var naddr: nat
    var mem: Memory

    ghost var free: seq<Addr>    // the blocks of the basket
    ghost var held: set<Addr>    // the blocks clients hold
    ghost var peak: nat          // the most blocks ever held at once

    ghost function Value(): State
      reads this
    {
      State(blocks, basket, nblocks, naddr, mem, free, held, peak)
    }

    ghost predicate Valid()
      reads this
    {
      Value().Valid()
    }

    /** esma_mempool_init on a zeroed structure: one page, nothing returned. */
    constructor ()
      ensures Valid() && held == {} && free == [] && naddr == 1 && peak == 0
      ensures nblocks == 1024 && blocks == Some(Addr(0, 0)) && basket == None
    {
      hide State.Partition, State.Counted, Linked, Suffix, State.Valid, PageSlots;
      blocks, basket, nblocks, naddr, mem := None, None, 0, 0, map[];
      free, held, peak := [], {}, 0;
      new;
      NewPage();
      EmptyChain(mem);
      FirstPageIsValid(Value());
    }

    /** _esma_mempool_new_addr */
    method NewPage()
      requires forall a :: a in mem <==> Slot(a, naddr)
      modifies this`blocks, this`nblocks, this`naddr, this`mem
      ensures blocks == Some(Addr(old(naddr), 0)) && nblocks == NBLOCKS && naddr == old(naddr) + 1
      ensures forall a :: a in mem <==> Slot(a, naddr)
      ensures forall a :: a in old(mem) ==> a in mem && mem[a] == old(mem)[a]
      ensures Linked(old(naddr), mem)
      ensures Chain(blocks, Suffix(old(naddr), NBLOCKS), mem)
    {
      var page := naddr;
      naddr := naddr + 1;
      blocks := Some(Addr(page, 0));
      nblocks := NBLOCKS;
      InitBlocks(page);
      LinkedIsChain(page, NBLOCKS, mem);
    }

    /** _esma_mempool_init_blocks, for a whole page. */
    method InitBlocks(page: nat)
      modifies this`mem
      ensures mem.Keys == old(mem).Keys + PageSlots(page, NBLOCKS)
      ensures forall a :: a in old(mem) && a.page != page ==> mem[a] == old(mem)[a]
      ensures Linked(page, mem)
    {
      var qty, i := NBLOCKS - 1, 0;
      while qty > 0
        invariant qty >= 0 && qty + i == NBLOCKS - 1
        invariant mem.Keys == old(mem).Keys + PageSlots(page, i)
        invariant forall a :: a in old(mem) && a.page != page ==> mem[a] == old(mem)[a]
        invariant forall a :: a in PageSlots(page, i) ==> mem[a] == LinkOf(a)
      {
        mem := mem[Addr(page, i) := Some(Addr(page, i + 1))];
        MoreSlots(page, i);
        qty, i := qty - 1, i + 1;
      }
      mem := mem[Addr(page, i) := None];
      MoreSlots(page, i);
      assert mem.Keys == old(mem).Keys + PageSlots(page, NBLOCKS);
    }

    /** esma_mempool_get_block: a block nobody holds. It is the one returned last; if there
        is none, the next unused one of the newest page; and with none left, the first
        one of a page of 1024 more. */
    method GetBlock() returns (a: Addr)
      requires Valid()
      modifies this
      ensures Valid()
      ensures a !in old(held) && held == old(held) + {a}
      ensures forall b :: b in old(mem) ==> b in mem && mem[b] == old(mem)[b]
      ensures peak == Higher(held, old(peak)) && naddr == PagesFor(peak)
      ensures old(basket).Some? ==>
                && Some(a) == old(basket) && [a] + free == old(free) && basket == old(mem)[a]
                && blocks == old(blocks) && nblocks == old(nblocks) && naddr == old(naddr)
      ensures old(basket).None? && old(nblocks) > 0 ==>
                a == Addr(old(naddr) - 1, 1024 - old(nblocks)) && nblocks == old(nblocks) - 1 && naddr == old(naddr)
      ensures old(basket).None? && old(nblocks) == 0 ==>
                a == Addr(old(naddr), 0) && nblocks == 1023 && naddr == old(naddr) + 1
      ensures old(basket).None? ==> free == old(free) && basket == None
    {
      hide Chain, Linked, Suffix, State.Partition, State.Counted;
      if basket != None {
        TakeReturned(Value());
        a := basket.value;
        basket := mem[a];
        free := free[1..];
      } else {
        FreshIsNotNull(Value());
        if blocks == None {
          ghost var before := Value();
          NewPage();
          GrowWhenExhausted(before, mem);
        }
        TakeUnused(Value());
        nblocks := nblocks - 1;
        a := blocks.value;
        blocks := mem[a];
      }
      held := held + {a};
      peak := Higher(held, peak);
      PagesAreMinimal(Value());
    }

    /** esma_mempool_get_block_n: n consecutive blocks that nobody holds. The pool
        survives unless they use up the page. With fewer unused blocks the code first
        writes through a pointer that it scales twice: then nothing is done here. */
    method GetBlockN(n: int) returns (outside: bool, block: Option<Addr>)
      requires Valid()
      modifies this
      ensures outside <==> n > old(nblocks)
      ensures outside || n < 0 ==> block == None && Value() == old(Value())
      ensures !outside && n >= 0 ==> block == old(blocks) && Value() == TakeRow(old(Value()), n)
      ensures !outside ==> (Valid() <==> n < old(nblocks) || n <= 0)
      ensures 0 <= n < old(nblocks) ==>
                && block.Some? && block.value.page + 1 == naddr && block.value.index + old(nblocks) == NBLOCKS
                && held == old(held) + Row(old(Value()), n) && Row(old(Value()), n) !! old(held)
    {
      if n < 0 || n > nblocks {
        return n > nblocks, None;
      }
      ghost var s := Value();
      RowKeepsPool(s, n);
      hide State.Valid, Row, Higher, Plus;
      outside := false;
      block := blocks;
      held := held + Row(Value(), n);
      peak := Higher(held, peak);
      blocks := Plus(block, n);
      nblocks := nblocks - n;
      assert Value() == TakeRow(s, n);
    }

    /** esma_mempool_put_block; a NULL pointer is refused. */
    method PutBlock(p: Option<Addr>) returns (err: bool)
      requires Valid()
      requires p.Some? ==> p.value in held
      modifies this`basket, this`mem, this`free, this`held
      ensures Valid()
      ensures err <==> p == None
      ensures Value() == if err then old(Value())
                         else old(Value()).(basket := p, mem := old(mem)[p.value := old(basket)],
                                            free := [p.value] + old(free), held := old(held) - {p.value})
    {
      if p == None {
        return true;
      }
      GiveBack(Value(), p.value);
      var tmp := basket;
      basket := p;
      mem := mem[p.value := tmp];
      free := [p.value] + free;
      held := held - {p.value};
      return false;
    }

    /** A client writes anything into a block it holds. */
    method ClientWrite(a: Addr, word: Option<Addr>)
      requires Valid() && a in held
      modifies this`mem
      ensures Valid() && Value() == old(Value()).(mem := old(mem)[a := word])
    {
      WriteKeepsChains(Value(), a, word);
      mem := mem[a := word];
    }
  }

  /** The blocks of a page from `start` on. */
  function Consecutive(page: nat, start: nat, n: nat): (r: set<Addr>)
    ensures forall a :: a in r <==> a.page == page && start <= a.index < start + n
  {
    var r := set i: nat | start <= i < start + n :: Addr(page, i);
    assert forall a: Addr :: a.page == page && start <= a.index < start + n ==> a == Addr(page, a.index) && a in r;
    r
  }

  lemma {:induction false} ConsecutiveCount(page: nat, start: nat, n: nat)
    ensures |Consecutive(page, start, n)| == n
  {
    hide Consecutive;
    if n == 0 {
      assert Consecutive(page, start, n) == {};
    } else {
      ConsecutiveCount(page, start, n - 1);
      var last := Addr(page, start + n - 1);
      forall a: Addr | a.page == page && a.index == last.index ensures a == last {
      }
      assert Consecutive(page, start, n) == Consecutive(page, start, n - 1) + {last};
    }
  }

  /** A pointer to the block n places on; NULL stays NULL for n = 0. */
  function Plus(p: Option<Addr>, n: nat): Option<Addr> {
    if p == None then None else Some(Addr(p.value.page, p.value.index + n))
  }

  /** The first n unused blocks. */
  function Row(s: State, n: nat): set<Addr> {
    if 1 <= s.naddr && s.nblocks <= NBLOCKS then Consecutive(s.naddr - 1, NBLOCKS - s.nblocks, n) else {}
  }

  /** What esma_mempool_get_block_n leaves when the newest page has enough
      unused blocks. */
  function TakeRow(s: State, n: nat): State
    requires n <= s.nblocks
  {
    var held := s.held + Row(s, n);
    s.(blocks := Plus(s.blocks, n), nblocks := s.nblocks - n, held := held, peak := Higher(held, s.peak))
  }

  /** The pool stays valid exactly when the row does not use up the page:
      behind the last block `blocks` should be NULL and is not. */
  lemma RowKeepsPool(s: State, n: nat)
    requires s.Valid() && n <= s.nblocks
    ensures s.naddr >= 1
    ensures n < s.nblocks ==> s.blocks == Some(Addr(s.naddr - 1, NBLOCKS - s.nblocks))
    ensures n < s.nblocks ==> Row(s, n) !! s.held
    ensures TakeRow(s, n).Valid() <==> n < s.nblocks || n == 0
  {
    hide State.Partition, State.Counted, Consecutive, Chain, Suffix;
    if n == 0 {
      NoRow(s);
    }
    if n < s.nblocks {
      RowLeavesRest(s, n);
    } else if n > 0 {
      RowUsesUp(s);
    }
  }

  lemma NoRow(s: State)
    requires s.Valid()
    ensures TakeRow(s, 0) == s
  {
    assert s.held + Row(s, 0) == s.held;
    hide Chain, Suffix, State.Partition, Consecutive, Row;
  }

  lemma RowLeavesRest(s: State, n: nat)
    requires s.Valid() && n < s.nblocks
    ensures s.blocks == Some(Addr(s.naddr - 1, NBLOCKS - s.nblocks))
    ensures Row(s, n) !! s.held
    ensures TakeRow(s, n).Valid()
  {
    hide Chain, Suffix, State.Partition, State.Counted, Row;
    RowStart(s);
    RowChained(s, n);
    RowTakenHeld(s, n);
    RowCounted(s, n);
    RowTaken(s, n);
    hide State.Chained;
  }

  lemma RowStart(s: State)
    requires s.Chained() && s.nblocks > 0
    ensures s.blocks == Some(Addr(s.naddr - 1, NBLOCKS - s.nblocks))
  {
    SuffixTail(s.naddr - 1, s.nblocks);
  }

  lemma RowChained(s: State, n: nat)
    requires s.Chained() && n < s.nblocks
    ensures TakeRow(s, n).Chained()
  {
    SuffixTail(s.naddr - 1, s.nblocks);
    ChainDrop(s.blocks, s.naddr - 1, s.nblocks, n, s.mem);
    assert s.blocks == Some(Addr(s.naddr - 1, NBLOCKS - s.nblocks));
    hide Chain, Suffix, Row, Higher;
  }

  lemma RowUsesUp(s: State)
    requires s.Valid() && s.nblocks > 0
    ensures !TakeRow(s, s.nblocks).Valid()
  {
    FreshIsNotNull(s);
    hide State.Partition, State.Counted, Consecutive;
    var t := TakeRow(s, s.nblocks);
    assert Suffix(t.naddr - 1, t.nblocks) == [];
    assert !Chain(t.blocks, [], t.mem);
  }

  lemma RowTakenHeld(s: State, n: nat)
    requires s.Partition() && n <= s.nblocks <= NBLOCKS && s.naddr > 0
    ensures Row(s, n) !! s.held
  {
  }

  lemma RowCounted(s: State, n: nat)
    requires s.Counted() && n <= s.nblocks <= NBLOCKS && s.naddr > 0 && Row(s, n) !! s.held
    ensures TakeRow(s, n).Counted() && s.peak <= TakeRow(s, n).peak
  {
    ConsecutiveCount(s.naddr - 1, NBLOCKS - s.nblocks, n);
    var row := Row(s, n);
    hide *;
    UnionCount(s, row, n);
  }

  lemma UnionCount(s: State, row: set<Addr>, n: nat)
    requires s.Counted() && n <= s.nblocks && row !! s.held && |row| == n
    ensures |s.held + row| + |s.free| + s.nblocks - n == NBLOCKS * s.naddr
  {
  }

  lemma RowTaken(s: State, n: nat)
    requires s.Partition() && n <= s.nblocks <= NBLOCKS && s.naddr > 0
    ensures TakeRow(s, n).Partition()
  {
    hide Higher, Consecutive, Slot;
    var t := TakeRow(s, n);
    var row := Row(s, n);
    assert forall a :: a in t.held <==> a in s.held || a in row;
    assert forall a :: s.Unused(a) <==> t.Unused(a) || a in row;
    assert forall a :: a in row ==> !t.Unused(a);
    RowSlots(s, n);
    hide State.Unused, Row;
  }

  lemma RowSlots(s: State, n: nat)
    requires n <= s.nblocks <= NBLOCKS && s.naddr > 0
    ensures forall a :: a in Row(s, n) ==> Slot(a, s.naddr)
  {
  }

  lemma {:induction false} ChainDrop(p: Option<Addr>, page: nat, count: nat, n: nat, mem: Memory)
    requires n < count <= NBLOCKS && Chain(p, Suffix(page, count), mem)
    ensures Chain(Some(Addr(page, NBLOCKS - (count - n))), Suffix(page, count - n), mem)
    decreases n
  {
    SuffixTail(page, count);
    if n > 0 {
      ChainDrop(mem[Addr(page, NBLOCKS - count)], page, count - 1, n - 1, mem);
    }
  }

  /** Where esma_mempool_get_block_n writes before it grows the pool: block_size *
      nblocks times 8 bytes, the size of a block header, behind the first unused
      block. */
  function ScaledTwice(s: State): Option<Addr> {
    Plus(s.blocks, 8 * s.nblocks)
  }

  /** That is NULL if no block is unused, and otherwise behind its own page: at
      address 1024 + 7 * nblocks of a page of 1024 blocks. */
  lemma GrowthWritesBehind(s: State)
    requires s.Valid()
    ensures ScaledTwice(s) == if s.nblocks == 0 then None else Some(Addr(s.naddr - 1, NBLOCKS + 7 * s.nblocks))
  {
    FreshIsNotNull(s);
    if s.nblocks > 0 {
      SuffixTail(s.naddr - 1, s.nblocks);
    }
    hide State.Partition, State.Counted;
  }

  /** The address and the count that esma_mempool_get_block leaves with an empty basket
      and `blocks` not NULL; the count is a 32-bit number. */
  function TakenNext(s: State): (Option<Addr>, nat) {
    (s.blocks, (s.nblocks + 0xFFFF_FFFF) % 0x1_0000_0000)
  }

  /** After a row that uses up the page the next block comes from behind the page, and
      the count wraps around. */
  lemma ExactFitGoesBehind(s: State)
    requires s.Valid() && s.nblocks > 0
    ensures TakenNext(TakeRow(s, s.nblocks)) == (Some(Addr(s.naddr - 1, NBLOCKS)), 0xFFFF_FFFF)
  {
    hide Chain, Suffix, State.Partition, State.Counted, Row, Higher;
    RowStart(s);
  }

  lemma FreshIsNotNull(s: State)
    requires s.Chained()
    ensures s.blocks == None <==> s.nblocks == 0
  {
    if s.nblocks == 0 {
      assert Suffix(s.naddr - 1, 0) == [];
    }
  }
}
