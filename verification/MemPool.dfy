/**
  The chunk pool as a transition system: any number of threads inside MemPoolAlloc and
  MemPoolRelease, interleaved at every access to the free list, its lock and the bump pointer.
 */
module MemPool {
  import opened PageTables
  import opened Wrappers

  /** Where the pool is, how large, and how large its chunks are. */
  datatype Pool = Pool(base: nat, chunkSize: nat, poolSize: nat)

  const NULL: nat := 0

  /** Bytes before data in a chunk: next and top. */
  const HEADER: nat := 16

  /** The access a thread makes next, and the chunk it works on. */
  datatype Pc =
    | Check | LockList | Recheck | Popping(head: nat) | InitRecycled(taken: nat) | Unlock(recycled: nat)  // recycle_chunk
    | FetchAdd | CheckBound(lo: nat) | InitFresh(made: nat)                                             // alloc_chunk
    | Return(result: nat)
    | LockRelease(given: nat) | LinkNext(linked: nat) | SetHead(first: nat)                              // MemPoolRelease

  /**
    Chunk headers are next and top; live are the chunks handed out and not released. chain lists
    what the free list holds, head first; it is bookkeeping and no step looks at it.
   */
  datatype State = State(
    freelist: nat, next: map<nat, nat>, top: map<nat, nat>, start: nat, lock: Option<nat>,
    pcs: map<nat, Pc>, live: set<nat>, chain: seq<nat>)

  datatype Action = Allocate(caller: nat) | Release(releaser: nat, chunk: nat) | Go(t: nat) | Use(used: nat, newNext: nat, newTop: nat)

  predicate Sane(c: Pool) {
    c.base > 0 && c.chunkSize >= HEADER
  }

  /** The check of alloc_chunk, passed: lo + chunk_size < freearea_end. */
  predicate InBound(c: Pool, lo: nat) {
    lo + c.chunkSize < c.base + c.poolSize
  }

  predicate HoldsLock(pc: Pc) {
    pc.Recheck? || pc.Popping? || pc.InitRecycled? || pc.Unlock? || pc.LinkNext? || pc.SetHead?
  }

  predicate MayGo(s: State, t: nat) {
    t in s.pcs
    && match s.pcs[t]
       case LockList => s.lock.None?
       case LockRelease(_) => s.lock.None?
       case Popping(p) => p in s.next
       case _ => true
  }

  /** Callers release only chunks they were given; a lock is taken only when free. */
  predicate Enabled(s: State, a: Action) {
    match a
    case Allocate(t) => t !in s.pcs
    case Release(t, chunk) => t !in s.pcs && chunk in s.live
    case Go(t) => MayGo(s, t)
    case Use(chunk, _, _) => chunk in s.live
  }

  function At(s: State, t: nat, pc: Pc): State {
    s.(pcs := s.pcs[t := pc])
  }

  function Init(s: State, p: nat): State {
    s.(top := s.top[p := p + HEADER], next := s.next[p := NULL])
  }

  function Step(c: Pool, s: State, t: nat): State
    requires MayGo(s, t)
  {
    match s.pcs[t]
    case Check => At(s, t, if s.freelist != NULL then LockList else FetchAdd)
    case LockList => At(s, t, Recheck).(lock := Some(t))
    case Recheck => if s.freelist != NULL then At(s, t, Popping(s.freelist)) else At(s, t, FetchAdd).(lock := None)
    case Popping(p) => At(s, t, InitRecycled(p)).(freelist := s.next[p], chain := if s.chain == [] then [] else s.chain[1..])
    case InitRecycled(p) => At(Init(s, p), t, Unlock(p))
    case Unlock(p) => At(s, t, Return(p)).(lock := None)
    case FetchAdd => At(s, t, CheckBound(s.start)).(start := s.start + c.chunkSize)
    case CheckBound(lo) => At(s, t, if InBound(c, lo) then InitFresh(lo) else Return(NULL))
    case InitFresh(lo) => At(Init(s, lo), t, Return(lo))
    case Return(p) => s.(pcs := s.pcs - {t}, live := if p == NULL then s.live else s.live + {p})
    case LockRelease(p) => At(s, t, LinkNext(p)).(lock := Some(t))
    case LinkNext(p) => At(s, t, SetHead(p)).(next := s.next[p := s.freelist])
    case SetHead(p) => s.(pcs := s.pcs - {t}, freelist := p, lock := None, chain := [p] + s.chain)
  }

  function Next(c: Pool, s: State, a: Action): State
    requires Enabled(s, a)
  {
    match a
    case Allocate(t) => At(s, t, Check)
    case Release(t, chunk) => At(s, t, LockRelease(chunk)).(live := s.live - {chunk})
    case Go(t) => Step(c, s, t)
    case Use(chunk, n, p) => s.(next := s.next[chunk := n], top := s.top[chunk := p])
  }

  predicate CanRun(c: Pool, s: State, actions: seq<Action>)
    decreases |actions|
  {
    actions == [] || (Enabled(s, actions[0]) && CanRun(c, Next(c, s, actions[0]), actions[1..]))
  }

  function Run(c: Pool, s: State, actions: seq<Action>): State
    requires CanRun(c, s, actions)
    decreases |actions|
  {
    if actions == [] then s else Run(c, Next(c, s, actions[0]), actions[1..])
  }

  /** After MemPoolInit. */
  function Initial(c: Pool): State {
    State(NULL, map[], map[], c.base, None, map[], {}, [])
  }

  // ---------------------------------------------------------------- where chunks are

  datatype Place = InUse | OnList | With(t: nat)

  /** The chunk a thread has to itself, if any. */
  function Carried(c: Pool, pc: Pc): nat {
    match pc
    case InitRecycled(p) => p
    case Unlock(p) => p
    case CheckBound(lo) => if InBound(c, lo) then lo else NULL
    case InitFresh(lo) => lo
    case Return(p) => p
    case LockRelease(p) => p
    case LinkNext(p) => p
    case SetHead(p) => p
    case _ => NULL
  }

  predicate Owns(c: Pool, s: State, at: Place, p: nat) {
    p != NULL && match at
      case InUse => p in s.live
      case OnList => p in s.chain
      case With(t) => t in s.pcs && Carried(c, s.pcs[t]) == p
  }

  /** Addresses fetch_add has given out that passed the bound. */
  predicate Passed(c: Pool, s: State, p: nat)
    requires Sane(c)
  {
    c.base <= p < s.start && (p - c.base) % c.chunkSize == 0 && InBound(c, p)
  }

  /** The n-th pointer of the free list: the chain's entry, or NULL past its end. */
  function Link(chain: seq<nat>, i: nat): nat {
    if i < |chain| then chain[i] else NULL
  }

  predicate LinkOk(s: State, i: nat) {
    i < |s.chain| && s.chain[i] != NULL && s.chain[i] in s.next && s.next[s.chain[i]] == Link(s.chain, i + 1)
  }

  /** The free list, read along its pointers, is the chain. */
  ghost predicate ChainOk(s: State) {
    && s.freelist == Link(s.chain, 0)
    && (forall i :: 0 <= i < |s.chain| ==> LinkOk(s, i))
    && (forall i, j :: 0 <= i < j < |s.chain| ==> s.chain[i] != s.chain[j])
  }

  predicate Fresh(s: State, p: nat) {
    p == NULL || (p in s.top && p in s.next && s.top[p] == p + HEADER && s.next[p] == NULL)
  }

  predicate PcOk(s: State, t: nat) {
    t in s.pcs
    && (HoldsLock(s.pcs[t]) ==> s.lock == Some(t))
    && match s.pcs[t]
       case Popping(p) => p != NULL && s.freelist == p
       case SetHead(p) => p != NULL && p in s.next && s.next[p] == s.freelist
       case Unlock(p) => p != NULL && Fresh(s, p)
       case InitRecycled(p) => p != NULL
       case InitFresh(p) => p != NULL
       case CheckBound(p) => p != NULL
       case LockRelease(p) => p != NULL
       case LinkNext(p) => p != NULL
       case Return(p) => Fresh(s, p)
       case _ => true
  }

  /** NULL is returned once the bump pointer has gone past every chunk there is room for. */
  predicate BoundOk(c: Pool, s: State, t: nat) {
    t in s.pcs
    && match s.pcs[t]
       case CheckBound(lo) => lo < s.start
       case Return(p) => p == NULL ==> s.start + c.chunkSize > c.base + c.poolSize
       case _ => true
  }

  ghost predicate OnePlace(c: Pool, s: State)
    requires Sane(c)
  {
    && (forall at, p :: Owns(c, s, at, p) ==> Passed(c, s, p))
    && (forall p :: Passed(c, s, p) ==> Held(c, s, p))
    && (forall a, b, p :: Owns(c, s, a, p) && Owns(c, s, b, p) ==> a == b)
  }

  ghost predicate Held(c: Pool, s: State, p: nat) {
    exists at :: Owns(c, s, at, p)
  }

  ghost predicate Invariant(c: Pool, s: State)
    requires Sane(c)
  {
    && s.start >= c.base && (s.start - c.base) % c.chunkSize == 0 && NULL !in s.live
    && ChainOk(s) && (forall t :: t in s.pcs ==> PcOk(s, t) && BoundOk(c, s, t)) && OnePlace(c, s)
  }

  // ---------------------------------------------------------------- every step

  /** One chunk goes from a place to another, or is claimed; all others stay. */
  ghost predicate Moves(c: Pool, s: State, s': State, p: nat, to: Place)
    requires Sane(c)
  {
    && (forall q :: Passed(c, s', q) <==> Passed(c, s, q) || (q == p && p != NULL))
    && (forall at, q :: Owns(c, s', at, q) <==> if q == p && p != NULL then at == to else Owns(c, s, at, q))
  }

  lemma MovingKeeps(c: Pool, s: State, s': State, p: nat, to: Place)
    requires Sane(c) && OnePlace(c, s) && Moves(c, s, s', p, to)
    ensures OnePlace(c, s')
  {
    hide Owns, Passed;
    forall q | Passed(c, s', q) ensures Held(c, s', q) {
      if q == p && p != NULL {
        assert Owns(c, s', to, p);
      } else {
        assert Held(c, s, q);
        var at :| Owns(c, s, at, q);
        assert Owns(c, s', at, q);
      }
    }
  }

  lemma OnlyAt(c: Pool, s: State, a: Place, b: Place, p: nat)
    requires Sane(c) && OnePlace(c, s) && Owns(c, s, a, p)
    ensures Owns(c, s, b, p) ==> a == b
    ensures Passed(c, s, p)
  {
    hide Owns, Passed;
  }

  /** The chunk a step moves, and where to. */
  function MovedBy(c: Pool, s: State, t: nat): (nat, Place)
    requires t in s.pcs
  {
    match s.pcs[t]
    case Popping(p) => (p, With(t))
    case FetchAdd => (if InBound(c, s.start) then s.start else NULL, With(t))
    case Return(p) => (p, InUse)
    case SetHead(p) => (p, OnList)
    case _ => (NULL, InUse)
  }

  lemma NextIndex(c: Pool, start: nat, q: nat)
    requires Sane(c) && start >= c.base && (start - c.base) % c.chunkSize == 0
    ensures (start + c.chunkSize - c.base) % c.chunkSize == 0
    ensures c.base <= q < start + c.chunkSize && (q - c.base) % c.chunkSize == 0 ==> q <= start
  {
    var z, n := c.chunkSize, start - c.base;
    AddSize(n, z);
    if c.base <= q < start + z && (q - c.base) % z == 0 && q > start {
      var d := q - start;
      DivMod(n, z);
      Quotient(n + d, z, n / z, d);
    }
  }

  lemma PassedAfter(c: Pool, s: State, t: nat, q: nat)
    requires Sane(c) && MayGo(s, t) && s.start >= c.base && (s.start - c.base) % c.chunkSize == 0 && !s.pcs[t].FetchAdd?
    ensures Passed(c, Step(c, s, t), q) <==> Passed(c, s, q)
  {
  }

  lemma FetchMoves(c: Pool, s: State, t: nat)
    requires Sane(c) && OnePlace(c, s) && MayGo(s, t) && s.pcs[t].FetchAdd?
    requires s.start >= c.base && (s.start - c.base) % c.chunkSize == 0
    ensures Moves(c, s, Step(c, s, t), MovedBy(c, s, t).0, MovedBy(c, s, t).1)
  {
    var s', p := Step(c, s, t), MovedBy(c, s, t).0;
    assert !Passed(c, s, s.start);
    hide OnePlace;
    forall q ensures Passed(c, s', q) <==> Passed(c, s, q) || (q == p && p != NULL) {
      NextIndex(c, s.start, q);
    }
    forall at, q
      ensures Owns(c, s', at, q) <==> if q == p && p != NULL then at == With(t) else Owns(c, s, at, q)
    {
      if q == s.start { NotYetOwned(c, s, at, q); }
    }
  }

  lemma NotYetOwned(c: Pool, s: State, at: Place, p: nat)
    requires Sane(c) && OnePlace(c, s) && !Passed(c, s, p)
    ensures !Owns(c, s, at, p)
  {
    hide Owns, Passed;
  }

  lemma OtherMoves(c: Pool, s: State, t: nat, at: Place, q: nat)
    requires Sane(c) && OnePlace(c, s) && ChainOk(s) && MayGo(s, t) && PcOk(s, t) && !s.pcs[t].FetchAdd?
    ensures var m := MovedBy(c, s, t);
      Owns(c, Step(c, s, t), at, q) <==> if q == m.0 && q != NULL then at == m.1 else Owns(c, s, at, q)
  {
    if s.pcs[t].Popping? {
      PopMoves(c, s, t, at, q);
    } else if s.pcs[t].Return? || s.pcs[t].SetHead? {
      HandMoves(c, s, t, at, q);
    } else {
      NothingMoves(c, s, t, at, q);
    }
  }

  lemma PopMoves(c: Pool, s: State, t: nat, at: Place, q: nat)
    requires Sane(c) && OnePlace(c, s) && ChainOk(s) && MayGo(s, t) && PcOk(s, t) && s.pcs[t].Popping?
    ensures var p := s.pcs[t].head; Owns(c, Step(c, s, t), at, q) <==> if q == p && q != NULL then at == With(t) else Owns(c, s, at, q)
  {
    var p := s.pcs[t].head;
    assert s.chain != [] && s.chain[0] == p && LinkOk(s, 0);
    assert Owns(c, s, OnList, p);
    assert s.chain == [p] + s.chain[1..];
    OnlyAt(c, s, OnList, at, p);
    hide OnePlace, Passed;
  }

  lemma HandMoves(c: Pool, s: State, t: nat, at: Place, q: nat)
    requires Sane(c) && OnePlace(c, s) && MayGo(s, t) && (s.pcs[t].Return? || s.pcs[t].SetHead?)
    ensures var m := MovedBy(c, s, t);
      Owns(c, Step(c, s, t), at, q) <==> if q == m.0 && q != NULL then at == m.1 else Owns(c, s, at, q)
  {
    var p := MovedBy(c, s, t).0;
    if p != NULL {
      assert Owns(c, s, With(t), p);
      OnlyAt(c, s, With(t), at, p);
    }
    hide OnePlace, Passed;
  }

  lemma NothingMoves(c: Pool, s: State, t: nat, at: Place, q: nat)
    requires MayGo(s, t) && !s.pcs[t].Popping? && !s.pcs[t].Return? && !s.pcs[t].SetHead? && !s.pcs[t].FetchAdd?
    ensures Owns(c, Step(c, s, t), at, q) <==> Owns(c, s, at, q)
  {
  }

  lemma StepKeepsPlaces(c: Pool, s: State, t: nat)
    requires Sane(c) && Invariant(c, s) && MayGo(s, t)
    ensures OnePlace(c, Step(c, s, t))
  {
    var s', m := Step(c, s, t), MovedBy(c, s, t);
    assert PcOk(s, t);
    if s.pcs[t].FetchAdd? {
      FetchMoves(c, s, t);
    } else {
      forall q ensures Passed(c, s', q) <==> Passed(c, s, q) || (q == m.0 && m.0 != NULL) {
        PassedAfter(c, s, t, q);
        MovedIsPassed(c, s, t);
      }
      forall at, q
        ensures Owns(c, s', at, q) <==> if q == m.0 && m.0 != NULL then at == m.1 else Owns(c, s, at, q)
      {
        OtherMoves(c, s, t, at, q);
      }
    }
    hide *;
    MovingKeeps(c, s, s', m.0, m.1);
  }

  lemma MovedIsPassed(c: Pool, s: State, t: nat)
    requires Sane(c) && OnePlace(c, s) && ChainOk(s) && MayGo(s, t) && PcOk(s, t) && !s.pcs[t].FetchAdd?
    ensures var p := MovedBy(c, s, t).0; p != NULL ==> Passed(c, s, p)
  {
    var p := MovedBy(c, s, t).0;
    if p != NULL {
      if s.pcs[t].Popping? {
        assert s.chain != [] && s.chain[0] == p;
        assert Owns(c, s, OnList, p);
        OnlyAt(c, s, OnList, OnList, p);
      } else {
        assert Owns(c, s, With(t), p);
        OnlyAt(c, s, With(t), OnList, p);
      }
    }
  }

  /** The lock's holder alone changes the list; everyone else's chunk headers are elsewhere. */
  lemma StepKeepsChain(c: Pool, s: State, t: nat)
    requires Sane(c) && Invariant(c, s) && MayGo(s, t)
    ensures ChainOk(Step(c, s, t))
  {
    var s', pc := Step(c, s, t), s.pcs[t];
    assert PcOk(s, t) && OnePlace(c, s);
    if pc.Popping? {
      assert LinkOk(s, 0);
      hide Invariant, OnePlace;
      forall i | 0 <= i < |s'.chain| ensures LinkOk(s', i) {
        assert LinkOk(s, i + 1);
      }
    } else if pc.SetHead? {
      SetHeadKeeps(c, s, t);
    } else {
      hide OnePlace;
      forall i | 0 <= i < |s'.chain| ensures LinkOk(s', i) {
        assert LinkOk(s, i);
        HeadersApart(c, s, t, s.chain[i]);
      }
      hide Invariant;
    }
  }

  lemma SetHeadKeeps(c: Pool, s: State, t: nat)
    requires Sane(c) && OnePlace(c, s) && ChainOk(s) && MayGo(s, t) && PcOk(s, t) && s.pcs[t].SetHead?
    ensures ChainOk(Step(c, s, t))
  {
    var s', p := Step(c, s, t), s.pcs[t].first;
    assert Owns(c, s, With(t), p);
    OnlyAt(c, s, With(t), OnList, p);
    assert p != NULL && p !in s.chain;
    hide OnePlace;
    forall i | 0 <= i < |s'.chain| ensures LinkOk(s', i) {
      if i > 0 { assert LinkOk(s, i - 1); }
    }
  }

  /** The header a step writes is not that of a chunk on the list. */
  lemma HeadersApart(c: Pool, s: State, t: nat, q: nat)
    requires Sane(c) && OnePlace(c, s) && MayGo(s, t) && q in s.chain && q != NULL && q in s.next
    ensures q in Step(c, s, t).next && Step(c, s, t).next[q] == s.next[q]
  {
    assert Owns(c, s, OnList, q);
    OnlyAt(c, s, OnList, With(t), q);
    hide OnePlace, Passed;
  }

  /** What the other threads rely on is untouched. */
  lemma StepKeepsOthers(c: Pool, s: State, t: nat, r: nat)
    requires Sane(c) && OnePlace(c, s) && MayGo(s, t) && PcOk(s, t) && PcOk(s, r) && r != t
    ensures PcOk(Step(c, s, t), r)
  {
    var p := Carried(c, s.pcs[r]);
    if p != NULL {
      assert Owns(c, s, With(r), p);
      OnlyAt(c, s, With(r), With(t), p);
    }
    hide OnePlace, Passed;
  }

  lemma StepKeepsBound(c: Pool, s: State, t: nat, r: nat)
    requires Sane(c) && MayGo(s, t) && PcOk(s, t) && BoundOk(c, s, t) && (r in s.pcs ==> BoundOk(c, s, r)) && r in Step(c, s, t).pcs
    ensures BoundOk(c, Step(c, s, t), r)
  {
  }

  lemma StepKeepsOwn(c: Pool, s: State, t: nat)
    requires Sane(c) && s.start >= c.base && MayGo(s, t) && PcOk(s, t) && t in Step(c, s, t).pcs
    ensures PcOk(Step(c, s, t), t)
  {
  }

  // ---------------------------------------------------------------- every run

  lemma GoKeeps(c: Pool, s: State, t: nat)
    requires Sane(c) && Invariant(c, s) && MayGo(s, t)
    ensures Invariant(c, Step(c, s, t))
  {
    var s' := Step(c, s, t);
    assert PcOk(s, t) && OnePlace(c, s);
    StepKeepsPlaces(c, s, t);
    StepKeepsChain(c, s, t);
    NextIndex(c, s.start, 0);
    hide OnePlace, ChainOk, PcOk, BoundOk, Passed;
    forall r | r in s'.pcs ensures PcOk(s', r) && BoundOk(c, s', r) {
      assert BoundOk(c, s, t);
      StepKeepsBound(c, s, t, r);
      if r == t {
        StepKeepsOwn(c, s, t);
      } else {
        assert PcOk(s, r);
        StepKeepsOthers(c, s, t, r);
      }
    }
  }

  lemma ReleaseKeeps(c: Pool, s: State, a: Action)
    requires Sane(c) && Invariant(c, s) && a.Release? && Enabled(s, a)
    ensures Invariant(c, Next(c, s, a))
  {
    var s' := Next(c, s, a);
    assert Owns(c, s, InUse, a.chunk);
    forall r | r in s'.pcs ensures PcOk(s', r) && BoundOk(c, s', r) {
      if r != a.releaser { assert PcOk(s, r) && BoundOk(c, s, r); }
    }
    forall i | 0 <= i < |s'.chain| ensures LinkOk(s', i) {
      assert LinkOk(s, i);
    }
    forall at, q
      ensures Owns(c, s', at, q) <==> if q == a.chunk && q != NULL then at == With(a.releaser) else Owns(c, s, at, q)
    {
      OnlyAt(c, s, InUse, at, a.chunk);
      hide Invariant, OnePlace, Passed;
    }
    OnlyAt(c, s, InUse, InUse, a.chunk);
    assert Moves(c, s, s', a.chunk, With(a.releaser));
    MovingKeeps(c, s, s', a.chunk, With(a.releaser));
  }

  lemma AllocateKeeps(c: Pool, s: State, a: Action)
    requires Sane(c) && Invariant(c, s) && a.Allocate? && Enabled(s, a)
    ensures Invariant(c, Next(c, s, a))
  {
    var s' := Next(c, s, a);
    forall r | r in s'.pcs ensures PcOk(s', r) && BoundOk(c, s', r) {
      if r != a.caller { assert PcOk(s, r) && BoundOk(c, s, r); }
    }
    forall i | 0 <= i < |s'.chain| ensures LinkOk(s', i) {
      assert LinkOk(s, i);
    }
    forall at, q ensures Owns(c, s', at, q) <==> Owns(c, s, at, q) {
    }
    assert Moves(c, s, s', NULL, InUse);
    MovingKeeps(c, s, s', NULL, InUse);
  }

  lemma UseKeeps(c: Pool, s: State, a: Action)
    requires Sane(c) && Invariant(c, s) && a.Use? && Enabled(s, a)
    ensures Invariant(c, Next(c, s, a))
  {
    var s' := Next(c, s, a);
    assert Owns(c, s, InUse, a.used);
    forall r | r in s'.pcs ensures PcOk(s', r) && BoundOk(c, s', r) {
      assert PcOk(s, r) && BoundOk(c, s, r);
      OnlyAt(c, s, InUse, With(r), a.used);
    }
    OnlyAt(c, s, InUse, OnList, a.used);
    forall i | 0 <= i < |s'.chain| ensures LinkOk(s', i) {
      assert LinkOk(s, i);
    }
    forall at, q ensures Owns(c, s', at, q) <==> Owns(c, s, at, q) {
    }
    assert Moves(c, s, s', NULL, InUse);
    MovingKeeps(c, s, s', NULL, InUse);
  }

  lemma ActionKeeps(c: Pool, s: State, a: Action)
    requires Sane(c) && Invariant(c, s) && Enabled(s, a)
    ensures Invariant(c, Next(c, s, a))
  {
    hide Invariant, Step, MayGo;
    match a
    case Allocate(_) => AllocateKeeps(c, s, a);
    case Release(_, _) => ReleaseKeeps(c, s, a);
    case Go(t) => GoKeeps(c, s, t);
    case Use(_, _, _) => UseKeeps(c, s, a);
  }

  lemma {:induction false} InvariantHolds(c: Pool, s: State, actions: seq<Action>)
    requires Sane(c) && Invariant(c, s) && CanRun(c, s, actions)
    ensures Invariant(c, Run(c, s, actions))
    decreases |actions|
  {
    hide Invariant, Enabled, Next;
    if actions != [] {
      ActionKeeps(c, s, actions[0]);
      InvariantHolds(c, Next(c, s, actions[0]), actions[1..]);
    }
  }

  lemma InitiallyInvariant(c: Pool)
    requires Sane(c)
    ensures Invariant(c, Initial(c))
  {
    Quotient(0, c.chunkSize, 0, 0);
  }

  // ---------------------------------------------------------------- the theorems

  /** How many chunks the pool has room for: one less than its size divided by the chunk size, rounded up. */
  function Capacity(c: Pool): nat
    requires Sane(c)
  {
    if c.poolSize == 0 then 0 else (c.poolSize + c.chunkSize - 1) / c.chunkSize - 1
  }

  function ChunkAt(c: Pool, i: nat): nat {
    c.base + i * c.chunkSize
  }

  /** The addresses inside the bound are those of the first Capacity indices. */
  lemma BoundIsCapacity(c: Pool, i: nat)
    requires Sane(c)
    ensures InBound(c, ChunkAt(c, i)) <==> i < Capacity(c)
    ensures ChunkAt(c, i) >= c.base && (ChunkAt(c, i) - c.base) % c.chunkSize == 0
  {
    var z := c.chunkSize;
    Quotient(i * z, z, i, 0);
    if c.poolSize > 0 {
      var n := (c.poolSize + z - 1) / z;
      DivMod(c.poolSize + z - 1, z);
      Distribute(i, 1, z);
      Distribute(n - 1, 1, z);
      MulMono(i + 1, n - 1, z);
      MulMono(n, i + 1, z);
    }
  }

  /** A claimed chunk is one of those. */
  lemma PassedIsIndex(c: Pool, s: State, p: nat)
    requires Sane(c) && Passed(c, s, p)
    ensures var i := (p - c.base) / c.chunkSize; p == ChunkAt(c, i) && i < Capacity(c)
  {
    DivMod(p - c.base, c.chunkSize);
    BoundIsCapacity(c, (p - c.base) / c.chunkSize);
  }

  /**
    In every reachable state a chunk is claimed exactly when it is in one place: in use, on the
    free list, or with one thread.
   */
  lemma ChunksPartition(c: Pool, actions: seq<Action>, p: nat)
    requires Sane(c) && CanRun(c, Initial(c), actions)
    ensures var s := Run(c, Initial(c), actions);
      && (Passed(c, s, p) <==> exists at :: Owns(c, s, at, p))
      && (forall a, b :: Owns(c, s, a, p) && Owns(c, s, b, p) ==> a == b)
  {
    InitiallyInvariant(c);
    var s := Run(c, Initial(c), actions);
    hide Run, CanRun, Initial, ChainOk, Owns, Passed, PcOk;
    InvariantHolds(c, Initial(c), actions);
    if Passed(c, s, p) { assert Held(c, s, p); }
  }

  /** Claimed chunks lie inside the pool and do not overlap. */
  lemma ChunksApart(c: Pool, s: State, p: nat, q: nat)
    requires Sane(c) && Passed(c, s, p) && Passed(c, s, q) && p < q
    ensures c.base <= p && p + c.chunkSize <= q && q + c.chunkSize < c.base + c.poolSize
  {
    var z := c.chunkSize;
    DivMod(p - c.base, z);
    DivMod(q - c.base, z);
    var i, j := (p - c.base) / z, (q - c.base) / z;
    MulMono(j, i, z);
    MulMono(i + 1, j, z);
    Distribute(i, 1, z);
  }

  /** A chunk about to be handed out is initialised: top at data, next NULL. */
  lemma HandedOutFresh(c: Pool, actions: seq<Action>, t: nat)
    requires Sane(c) && CanRun(c, Initial(c), actions) && t in Run(c, Initial(c), actions).pcs
    requires Run(c, Initial(c), actions).pcs[t].Return?
    ensures var s := Run(c, Initial(c), actions); var p := s.pcs[t].result;
      p != NULL ==> p in s.top && s.top[p] == p + HEADER && p in s.next && s.next[p] == NULL && Passed(c, s, p) && p !in s.live && p !in s.chain
  {
    InitiallyInvariant(c);
    var s := Run(c, Initial(c), actions);
    hide Run, CanRun, Initial, ChainOk, Passed;
    InvariantHolds(c, Initial(c), actions);
    assert PcOk(s, t) && OnePlace(c, s);
    var p := s.pcs[t].result;
    if p != NULL {
      assert Owns(c, s, With(t), p);
      OnlyAt(c, s, With(t), InUse, p);
      OnlyAt(c, s, With(t), OnList, p);
    }
  }

  /** NULL comes back only after every chunk the pool has room for was claimed. */
  lemma NullWhenExhausted(c: Pool, actions: seq<Action>, t: nat, i: nat)
    requires Sane(c) && CanRun(c, Initial(c), actions) && t in Run(c, Initial(c), actions).pcs
    requires Run(c, Initial(c), actions).pcs[t] == Return(NULL) && i < Capacity(c)
    ensures Passed(c, Run(c, Initial(c), actions), ChunkAt(c, i))
  {
    InitiallyInvariant(c);
    var s := Run(c, Initial(c), actions);
    hide Run, CanRun, Initial, ChainOk, OnePlace;
    InvariantHolds(c, Initial(c), actions);
    assert BoundOk(c, s, t);
    BoundIsCapacity(c, i);
  }

  /** At most Capacity chunks ever exist. */
  lemma ChunksBounded(c: Pool, s: State, ps: set<nat>)
    requires Sane(c) && forall p :: p in ps ==> Passed(c, s, p)
    ensures |ps| <= Capacity(c)
  {
    forall p | p in ps ensures p < ChunkAt(c, Capacity(c)) {
      PassedIsIndex(c, s, p);
      MulStrict((p - c.base) / c.chunkSize, Capacity(c), c.chunkSize);
    }
    AtMost(c, s, ps, Capacity(c));
  }

  lemma {:induction false} AtMost(c: Pool, s: State, ps: set<nat>, n: nat)
    requires Sane(c) && n <= Capacity(c)
    requires forall p :: p in ps ==> Passed(c, s, p) && p < ChunkAt(c, n)
    ensures |ps| <= n
  {
    if n == 0 {
      forall p ensures p !in ps {
        NoneBelow(c, s, p);
      }
    } else {
      var last := ChunkAt(c, n - 1);
      forall p | p in ps - {last} ensures p < ChunkAt(c, n - 1) {
        PassedIsIndex(c, s, p);
        IndexBelow(c, p, n);
      }
      AtMost(c, s, ps - {last}, n - 1);
      assert |ps| <= |ps - {last}| + 1;
    }
  }

  lemma NoneBelow(c: Pool, s: State, p: nat)
    requires Sane(c)
    ensures !(Passed(c, s, p) && p < ChunkAt(c, 0))
  {
  }

  lemma IndexBelow(c: Pool, p: nat, n: nat)
    requires Sane(c) && n > 0 && p >= c.base && p == ChunkAt(c, (p - c.base) / c.chunkSize) && p < ChunkAt(c, n) && p != ChunkAt(c, n - 1)
    ensures p < ChunkAt(c, n - 1)
  {
    var i, z := (p - c.base) / c.chunkSize, c.chunkSize;
    MulStrict(i, n, z);
    MulStrict(i, n - 1, z);
    MulMono(n, i, z);
  }
}
