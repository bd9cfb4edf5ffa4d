/** Who holds each page list of the arena, and which pages are in it: a partition, in every reachable state. */
module ArenaOwnership {
  import opened PageTables
  import opened Arena
  import opened ArenaReferences
  import opened Wrappers

  /** The places a page list can be: a live slot, a call in progress, what vma_free has taken down, the free list. */
  datatype Place = OnSlot(h: nat, id: nat) | OnCall(t: nat) | Spliced(splicer: nat) | OnFreeList

  predicate Owns(s: State, at: Place, l: nat) {
    match at
    case OnSlot(h, id) => h in s.allocs && id in s.allocs[h].slots && s.allocs[h].slots[id].Live? && s.allocs[h].slots[id].list == l
    case OnCall(t) => t in s.ops && HoldsList(s.ops[t]) && s.ops[t].held == l
    case Spliced(t) => t in s.ops && l in s.ops[t].spliced
    case OnFreeList => l in s.free
  }

  ghost predicate Held(s: State, l: nat) {
    exists at :: Owns(s, at, l)
  }

  /** Every list is in exactly one place, and only lists that have not been freed are anywhere. */
  ghost predicate OnePlace(s: State) {
    && (forall at, l :: Owns(s, at, l) ==> l in s.lists)
    && (forall l :: l in s.lists ==> Held(s, l))
    && (forall a, b, l :: Owns(s, a, l) && Owns(s, b, l) ==> a == b)
  }

  predicate SplicedOk(s: State, t: nat) {
    t in s.ops && Distinct(s.ops[t].spliced) && ((s.ops[t].call.VmaFree? && s.ops[t].pc != Splice) || s.ops[t].spliced == [])
  }

  ghost predicate NoRepeats(s: State) {
    Distinct(s.free) && forall t :: t in s.ops ==> SplicedOk(s, t)
  }

  // ---------------------------------------------------------------- how lists move

  /** The lists of one set are now at one place; all others are where they were. */
  ghost predicate Relocates(s: State, s': State, moved: set<nat>, to: Place) {
    && s'.lists.Keys == s.lists.Keys + moved
    && (forall at, l :: Owns(s', at, l) <==> if l in moved then at == to else Owns(s, at, l))
  }

  ghost predicate Loses(s: State, s': State, l: nat) {
    && s'.lists.Keys == s.lists.Keys - {l}
    && forall at, m :: Owns(s', at, m) <==> m != l && Owns(s, at, m)
  }

  lemma RelocatingKeeps(s: State, s': State, moved: set<nat>, to: Place)
    requires OnePlace(s) && Relocates(s, s', moved, to)
    ensures OnePlace(s')
  {
    hide Owns;
    forall l | l in s'.lists ensures Held(s', l) {
      if l in moved {
        assert Owns(s', to, l);
      } else {
        assert Held(s, l);
        var at :| Owns(s, at, l);
        assert Owns(s', at, l);
      }
    }
  }

  lemma LosingKeeps(s: State, s': State, l: nat)
    requires OnePlace(s) && Loses(s, s', l)
    ensures OnePlace(s')
  {
    hide Owns;
    forall m | m in s'.lists ensures Held(s', m) {
      assert Held(s, m);
      var at :| Owns(s, at, m);
      assert Owns(s', at, m);
    }
  }

  /** The steps that move a list, and where to. */
  predicate Moves(s: State, t: nat, c: Choice)
    requires t in s.ops
  {
    var pc := s.ops[t].pc;
    pc == Publish || pc == EraseLive || (pc == NewPages && c.ok) || pc == Unlinking || pc == Linking || pc == Splice
  }

  predicate Drops(s: State, t: nat)
    requires t in s.ops
  {
    (s.ops[t].pc == CheckSize && s.size >= GL_SA_CAPACITY) || (s.ops[t].pc == FreeRest && s.ops[t].spliced != [])
  }

  lemma OnlyAt(s: State, a: Place, b: Place, l: nat)
    requires OnePlace(s) && Owns(s, a, l)
    ensures Owns(s, b, l) ==> a == b
  {
    hide Owns;
  }

  predicate TurnsLive(o: Op, h: nat, id: nat) {
    (o.pc == Publish || o.pc == EraseLive) && o.h == h && o.id == id
  }

  /** The slot of a call is published or taken down. */
  lemma TurnChange(s: State, t: nat, c: Choice)
    requires CanAdvance(s, t, c) && OpOk(s, t) && TurnsLive(s.ops[t], s.ops[t].h, s.ops[t].id)
    ensures var o := s.ops[t];
      && o.h in s.allocs && o.id in s.allocs[o.h].slots
      && (s.allocs[o.h].slots[o.id].Live? <==> o.pc == EraseLive)
      && ChangeOf(s, t, c) == if o.pc == Publish then SetSlot(o.id, Live(t, o.held, o.desc)) else ClearSlot(o.id)
    ensures var o := s.ops[t]; (HoldsList(o) <==> o.pc == Publish) && (HoldsDesc(o) <==> o.pc == Publish) && (o.call.SaFree? <==> o.pc == EraseLive)
  {
    hide HoldsRef, UsesParent, Registered, Possible;
  }

  lemma TurnAfter(s: State, t: nat, c: Choice)
    requires CanAdvance(s, t, c) && TurnsLive(s.ops[t], s.ops[t].h, s.ops[t].id)
    ensures var o, a := s.ops[t], After(s, t, c);
      if o.pc == Publish then a.None?
      else a.Some? && o.h in s.allocs && o.id in s.allocs[o.h].slots && s.allocs[o.h].slots[o.id].Live?
           && a.value == o.(pc := CheckSize, held := s.allocs[o.h].slots[o.id].list, desc := s.allocs[o.h].slots[o.id].desc)
  {
    hide Possible, Present;
  }

  /** The state after it: one slot of one allocator, and the call. */
  lemma TurnIs(s: State, t: nat, c: Choice)
    requires CanAdvance(s, t, c) && OpOk(s, t) && TurnsLive(s.ops[t], s.ops[t].h, s.ops[t].id)
    ensures var o, s' := s.ops[t], Advanced(s, t, c);
      && o.h in s.allocs && s'.ops == Called(s, t, After(s, t, c)).ops
      && s'.free == s.free && s'.lists == s.lists && s'.threads == s.threads
      && s'.allocs == s.allocs[o.h := WithSlots(s.allocs[o.h], if o.pc == Publish then s.allocs[o.h].slots[o.id := Live(t, o.held, o.desc)]
                                                                else s.allocs[o.h].slots - {o.id})]
  {
    AdvancedIs(s, t, c);
    TurnChange(s, t, c);
    ChangedRest(s, s.ops[t].h, ChangeOf(s, t, c));
    hide CanAdvance, Safe, Possible, ChangeOf, After, Advanced, Changed, OpOk, Applies;
  }

  lemma PublishMoves(s: State, t: nat, c: Choice)
    requires CanAdvance(s, t, c) && OpOk(s, t) && SplicedOk(s, t) && OnePlace(s) && s.ops[t].pc == Publish
    ensures Relocates(s, Advanced(s, t, c), {s.ops[t].held}, OnSlot(s.ops[t].h, s.ops[t].id))
  {
    var o, s' := s.ops[t], Advanced(s, t, c);
    TurnIs(s, t, c);
    TurnChange(s, t, c);
    TurnAfter(s, t, c);
    PublisherSplices(s, t);
    OwnsNow(s, t, o.held);
    InLists(s, OnCall(t), o.held);
    hide CanAdvance, Advanced, After, ChangeOf, OpOk, SplicedOk, OnePlace, HoldsList, HoldsDesc;
    forall at, l
      ensures Owns(s', at, l) <==> if l == o.held then at == OnSlot(o.h, o.id) else Owns(s, at, l)
    {
      OnlyAt(s, OnCall(t), at, o.held);
    }
  }

  lemma PublisherSplices(s: State, t: nat)
    requires OpOk(s, t) && SplicedOk(s, t) && TurnsLive(s.ops[t], s.ops[t].h, s.ops[t].id)
    ensures s.ops[t].spliced == []
  {
    hide HoldsRef, HoldsSlot, UsesParent, Registered, Distinct;
  }

  lemma EraseMoves(s: State, t: nat, c: Choice)
    requires CanAdvance(s, t, c) && OpOk(s, t) && OnePlace(s) && s.ops[t].pc == EraseLive
    ensures Relocates(s, Advanced(s, t, c), {s.allocs[s.ops[t].h].slots[s.ops[t].id].list}, OnCall(t))
  {
    var o, s' := s.ops[t], Advanced(s, t, c);
    TurnIs(s, t, c);
    TurnChange(s, t, c);
    TurnAfter(s, t, c);
    var list := s.allocs[o.h].slots[o.id].list;
    assert HoldsList(o.(pc := CheckSize));
    KeepsHolding(o, After(s, t, c).value);
    assert Owns(s, OnSlot(o.h, o.id), list);
    InLists(s, OnSlot(o.h, o.id), list);
    hide CanAdvance, Advanced, After, ChangeOf, OpOk, OnePlace, HoldsList, HoldsDesc;
    forall at, l
      ensures Owns(s', at, l) <==> if l == list then at == OnCall(t) else Owns(s, at, l)
    {
      OnlyAt(s, OnSlot(o.h, o.id), at, list);
    }
  }

  // ---------------------------------------------------------------- steps between a call and the free list

  predicate CallOwns(o: Op, l: nat) {
    HoldsList(o) && o.held == l
  }

  /** Only the call of thread t and the free list may own other lists than before. */
  predicate OnlyCall(s: State, s': State, t: nat, a: Op) {
    t in s.ops && s'.allocs == s.allocs && s'.ops == s.ops[t := a]
  }

  lemma OwnsAfter(s: State, s': State, t: nat, a: Op, at: Place, l: nat)
    requires OnlyCall(s, s', t, a)
    ensures Owns(s', at, l) <==>
      if at == OnCall(t) then CallOwns(a, l) else if at == Spliced(t) then l in a.spliced
      else if at == OnFreeList then l in s'.free else Owns(s, at, l)
  {
    hide HoldsList;
  }

  lemma OwnsNow(s: State, t: nat, l: nat)
    requires t in s.ops
    ensures Owns(s, OnCall(t), l) <==> CallOwns(s.ops[t], l)
    ensures Owns(s, Spliced(t), l) <==> l in s.ops[t].spliced
    ensures Owns(s, OnFreeList, l) <==> l in s.free
  {
    hide HoldsList;
  }

  predicate IsOf(at: Place, t: nat) {
    at == OnCall(t) || at == Spliced(t) || at == OnFreeList
  }

  /** Lists go from one of the call's own places, the free list or nowhere to another one. */
  lemma CallMoves(s: State, s': State, t: nat, a: Op, moved: set<nat>, from: Place, to: Place)
    requires OnePlace(s) && OnlyCall(s, s', t, a) && IsOf(from, t) && IsOf(to, t) && s'.lists.Keys == s.lists.Keys + moved
    requires forall l :: l in moved ==> l !in s.lists || Owns(s, from, l)
    requires forall l :: CallOwns(a, l) <==> if l in moved then to == OnCall(t) else CallOwns(s.ops[t], l)
    requires forall l :: l in a.spliced <==> if l in moved then to == Spliced(t) else l in s.ops[t].spliced
    requires forall l :: l in s'.free <==> if l in moved then to == OnFreeList else l in s.free
    ensures Relocates(s, s', moved, to)
  {
    hide OnePlace, Owns, OnlyCall, CallOwns;
    forall at, l
      ensures Owns(s', at, l) <==> if l in moved then at == to else Owns(s, at, l)
    {
      OwnsAfter(s, s', t, a, at, l);
      assert t in s.ops by { assert OnlyCall(s, s', t, a); CallThere(s, s', t, a); }
      OwnsNow(s, t, l);
      if l in moved && !IsOf(at, t) {
        if l in s.lists { OnlyAt(s, from, at, l); } else { NotOwned(s, at, l); }
      }
    }
  }

  lemma CallThere(s: State, s': State, t: nat, a: Op)
    requires OnlyCall(s, s', t, a)
    ensures t in s.ops
  {
  }

  /** Or it is freed from there. */
  lemma CallLoses(s: State, s': State, t: nat, a: Op, list: nat, from: Place)
    requires OnePlace(s) && OnlyCall(s, s', t, a) && IsOf(from, t) && s'.lists.Keys == s.lists.Keys - {list} && Owns(s, from, list)
    requires forall l :: CallOwns(a, l) <==> l != list && CallOwns(s.ops[t], l)
    requires forall l :: l in a.spliced <==> l != list && l in s.ops[t].spliced
    requires forall l :: l in s'.free <==> l != list && l in s.free
    ensures Loses(s, s', list)
  {
    hide OnePlace, Owns, OnlyCall, CallOwns;
    forall at, l
      ensures Owns(s', at, l) <==> l != list && Owns(s, at, l)
    {
      OwnsAfter(s, s', t, a, at, l);
      assert t in s.ops by { assert OnlyCall(s, s', t, a); CallThere(s, s', t, a); }
      OwnsNow(s, t, l);
      if l == list && !IsOf(at, t) { OnlyAt(s, from, at, l); }
    }
  }

  /** The call after a step that does not touch the allocators. */
  lemma StepsCall(s: State, t: nat, c: Choice, a: Op)
    requires t in s.ops && Safe(s, t) && After(s, t, c) == Some(a)
    requires var x := ChangeOf(s, t, c); x.SetFree? || x.NewList? || x.DropList?
    ensures var x, s' := ChangeOf(s, t, c), Advanced(s, t, c);
      && OnlyCall(s, s', t, a) && s'.free == (if x.SetFree? then x.free else s.free)
      && (x.DropList? ==> x.dropped in s.lists)
      && s'.lists.Keys == if x.NewList? then s.lists.Keys + {x.made} else if x.DropList? then s.lists.Keys - {x.dropped} else s.lists.Keys
  {
    AdvancedIs(s, t, c);
    ChangedRest(s, s.ops[t].h, ChangeOf(s, t, c));
    hide Safe, ChangeOf, After, Changed, Advanced;
  }

  lemma TakeStep(s: State, t: nat, c: Choice)
    requires CanAdvance(s, t, c) && Shape(s.ops[t]) && s.ops[t].pc == Unlinking
    ensures var o := s.ops[t];
      && s.free != [] && !HoldsList(o) && ChangeOf(s, t, c) == SetFree(s.free[1..], s.size, None)
      && After(s, t, c) == Some(o.(pc := AfterStack(o.call), held := s.free[0])) && HoldsList(o.(pc := AfterStack(o.call)))
  {
    hide Possible, Present;
  }

  lemma TakeMoves(s: State, t: nat, c: Choice)
    requires CanAdvance(s, t, c) && OpOk(s, t) && OnePlace(s) && Distinct(s.free) && s.ops[t].pc == Unlinking
    ensures s.free != [] && Relocates(s, Advanced(s, t, c), {s.free[0]}, OnCall(t))
  {
    TakeStep(s, t, c);
    var o, s' := s.ops[t], Advanced(s, t, c);
    var a := o.(pc := AfterStack(o.call), held := s.free[0]);
    StepsCall(s, t, c, a);
    OwnsNow(s, t, s.free[0]);
    InLists(s, OnFreeList, s.free[0]);
    RestAll(s.free);
    KeepsHolding(o, a);
    hide CanAdvance, OpOk, OnePlace, Advanced, ChangeOf, After, Owns, HoldsList, Distinct, OnlyCall, AfterStack, Safe, Possible;
    CallMoves(s, s', t, a, {s.free[0]}, OnFreeList, OnCall(t));
  }

  /** HoldsList looks at the call and the point it is at. */
  lemma KeepsHolding(o: Op, a: Op)
    requires a.call == o.call
    ensures HoldsList(a) <==> HoldsList(o.(pc := a.pc))
  {
  }

  lemma RestOf(xs: seq<nat>, x: nat)
    requires xs != [] && Distinct(xs)
    ensures x in xs[1..] <==> x in xs && x != xs[0]
  {
    assert xs == [xs[0]] + xs[1..];
  }

  lemma RestAll(xs: seq<nat>)
    requires xs != [] && Distinct(xs)
    ensures forall x :: x in xs[1..] <==> x in xs && x != xs[0]
  {
    hide Distinct;
    forall x
      ensures x in xs[1..] <==> x in xs && x != xs[0]
    {
      RestOf(xs, x);
    }
  }

  lemma NewStep(s: State, t: nat, c: Choice)
    requires CanAdvance(s, t, c) && Shape(s.ops[t]) && s.ops[t].pc == NewPages && c.ok
    ensures var o := s.ops[t];
      && c.n !in s.lists && !HoldsList(o) && ChangeOf(s, t, c) == NewList(c.n, c.pages)
      && After(s, t, c) == Some(o.(pc := AfterStack(o.call), held := c.n)) && HoldsList(o.(pc := AfterStack(o.call)))
  {
    hide Present, Distinct;
  }

  lemma NewMoves(s: State, t: nat, c: Choice)
    requires CanAdvance(s, t, c) && OpOk(s, t) && OnePlace(s) && s.ops[t].pc == NewPages && c.ok
    ensures Relocates(s, Advanced(s, t, c), {c.n}, OnCall(t))
  {
    NewStep(s, t, c);
    var o, s' := s.ops[t], Advanced(s, t, c);
    var a := o.(pc := AfterStack(o.call), held := c.n);
    StepsCall(s, t, c, a);
    KeepsHolding(o, a);
    NotOwned(s, OnFreeList, c.n);
    NotOwned(s, Spliced(t), c.n);
    OwnsNow(s, t, c.n);
    hide CanAdvance, OpOk, OnePlace, Advanced, ChangeOf, After, Owns, HoldsList, Distinct, OnlyCall, AfterStack, Safe, Possible;
    CallMoves(s, s', t, a, {c.n}, OnCall(t), OnCall(t));
  }

  lemma LinkStep(s: State, t: nat, c: Choice)
    requires CanAdvance(s, t, c) && s.ops[t].pc == Linking
    ensures var o := s.ops[t];
      && HoldsList(o) && ChangeOf(s, t, c) == SetFree([o.held] + s.free, s.size, None)
      && After(s, t, c) == Some(o.(pc := FreeThread)) && !HoldsList(o.(pc := FreeThread))
  {
    assert t in s.ops && Safe(s, t);
    hide CanAdvance, Safe, Possible;
  }

  lemma LinkMoves(s: State, t: nat, c: Choice)
    requires CanAdvance(s, t, c) && OnePlace(s) && s.ops[t].pc == Linking
    ensures Relocates(s, Advanced(s, t, c), {s.ops[t].held}, OnFreeList)
  {
    LinkStep(s, t, c);
    var o, s' := s.ops[t], Advanced(s, t, c);
    var a := o.(pc := FreeThread);
    StepsCall(s, t, c, a);
    assert Owns(s, OnCall(t), o.held);
    InLists(s, OnCall(t), o.held);
    OnlyAt(s, OnCall(t), Spliced(t), o.held);
    OwnsNow(s, t, o.held);
    hide CanAdvance, OnePlace, Advanced, ChangeOf, After, Owns, HoldsList, OnlyCall;
    CallMoves(s, s', t, a, {o.held}, OnCall(t), OnFreeList);
  }

  function SetOf(xs: seq<nat>): set<nat> {
    set x | x in xs
  }

  lemma SpliceStep(s: State, t: nat, c: Choice)
    requires CanAdvance(s, t, c) && Shape(s.ops[t]) && SplicedOk(s, t) && s.ops[t].pc == Splice
    ensures var o := s.ops[t];
      && !HoldsList(o) && o.spliced == [] && ChangeOf(s, t, c) == SetFree([], s.size, Some(t))
      && After(s, t, c) == Some(o.(pc := Emptying, spliced := s.free)) && !HoldsList(o.(pc := Emptying))
  {
    assert t in s.ops && Safe(s, t);
    hide CanAdvance, Safe, Possible, Distinct;
  }

  lemma SpliceMoves(s: State, t: nat, c: Choice)
    requires CanAdvance(s, t, c) && OpOk(s, t) && SplicedOk(s, t) && OnePlace(s) && s.ops[t].pc == Splice
    ensures Relocates(s, Advanced(s, t, c), SetOf(s.free), Spliced(t))
  {
    SpliceStep(s, t, c);
    var o, s' := s.ops[t], Advanced(s, t, c);
    var a := o.(pc := Emptying, spliced := s.free);
    StepsCall(s, t, c, a);
    KeepsHolding(o, a);
    hide CanAdvance, OpOk, SplicedOk, OnePlace, Advanced, ChangeOf, After, HoldsList, OnlyCall;
    forall l | l in s.free ensures l in s.lists && Owns(s, OnFreeList, l) {
      InLists(s, OnFreeList, l);
    }
    CallMoves(s, s', t, a, SetOf(s.free), OnFreeList, Spliced(t));
  }

  lemma InLists(s: State, at: Place, l: nat)
    requires OnePlace(s) && Owns(s, at, l)
    ensures l in s.lists
  {
    hide Owns;
  }

  lemma NotOwned(s: State, at: Place, l: nat)
    requires OnePlace(s) && l !in s.lists
    ensures !Owns(s, at, l)
  {
    hide Owns;
  }

  lemma DropStep(s: State, t: nat, c: Choice)
    requires CanAdvance(s, t, c) && s.ops[t].pc == CheckSize && s.size >= GL_SA_CAPACITY
    ensures var o := s.ops[t];
      && HoldsList(o) && ChangeOf(s, t, c) == DropList(o.held)
      && After(s, t, c) == Some(o.(pc := FreeThread)) && !HoldsList(o.(pc := FreeThread))
  {
    assert t in s.ops && Safe(s, t);
    hide CanAdvance, Safe, Possible;
  }

  lemma DropLoses(s: State, t: nat, c: Choice)
    requires CanAdvance(s, t, c) && OnePlace(s) && s.ops[t].pc == CheckSize && s.size >= GL_SA_CAPACITY
    ensures Loses(s, Advanced(s, t, c), s.ops[t].held)
  {
    DropStep(s, t, c);
    var o, s' := s.ops[t], Advanced(s, t, c);
    var a := o.(pc := FreeThread);
    StepsCall(s, t, c, a);
    assert Owns(s, OnCall(t), o.held);
    OnlyAt(s, OnCall(t), Spliced(t), o.held);
    OnlyAt(s, OnCall(t), OnFreeList, o.held);
    OwnsNow(s, t, o.held);
    hide CanAdvance, OnePlace, Advanced, ChangeOf, After, Owns, HoldsList, OnlyCall;
    CallLoses(s, s', t, a, o.held, OnCall(t));
  }

  lemma FreeRestStep(s: State, t: nat, c: Choice)
    requires CanAdvance(s, t, c) && Shape(s.ops[t]) && s.ops[t].pc == FreeRest && s.ops[t].spliced != []
    ensures var o := s.ops[t];
      && !HoldsList(o) && ChangeOf(s, t, c) == DropList(o.spliced[0]) && After(s, t, c) == Some(o.(spliced := o.spliced[1..]))
  {
    assert t in s.ops && Safe(s, t);
    hide CanAdvance, Safe, Possible, Distinct;
  }

  lemma FreeRestLoses(s: State, t: nat, c: Choice)
    requires CanAdvance(s, t, c) && OpOk(s, t) && SplicedOk(s, t) && OnePlace(s) && s.ops[t].pc == FreeRest && s.ops[t].spliced != []
    ensures Loses(s, Advanced(s, t, c), s.ops[t].spliced[0])
  {
    FreeRestStep(s, t, c);
    var o, s' := s.ops[t], Advanced(s, t, c);
    var a, list := o.(spliced := o.spliced[1..]), o.spliced[0];
    StepsCall(s, t, c, a);
    KeepsHolding(o, a);
    assert Distinct(o.spliced);
    OwnsNow(s, t, list);
    OnlyAt(s, Spliced(t), OnFreeList, list);
    RestAll(o.spliced);
    hide CanAdvance, OpOk, SplicedOk, OnePlace, Advanced, ChangeOf, After, Owns, HoldsList, OnlyCall, Distinct, Safe, Possible;
    CallLoses(s, s', t, a, list, Spliced(t));
  }

  lemma CallStays(s: State, t: nat, c: Choice)
    requires t in s.ops && Safe(s, t) && Shape(s.ops[t]) && SplicedOk(s, t) && !Moves(s, t, c) && !Drops(s, t)
    ensures var o, a := s.ops[t], After(s, t, c);
      && ((a.Some? && HoldsList(a.value)) <==> HoldsList(o)) && (a.Some? && HoldsList(o) ==> a.value.held == o.held)
      && (if a.Some? then a.value.spliced == o.spliced else o.spliced == [])
  {
    AfterIs(s, t, c);
    PcStays(s, t, c);
    HeldStays(s, t, c);
    hide *;
    if After(s, t, c).Some? { KeepsHolding(s.ops[t], After(s, t, c).value); }
  }

  lemma PcStays(s: State, t: nat, c: Choice)
    requires t in s.ops && Safe(s, t) && Shape(s.ops[t]) && !Moves(s, t, c) && !Drops(s, t)
    ensures var o, pc := s.ops[t], PcAfter(s, t, c); (pc.Some? && HoldsList(o.(pc := pc.value))) <==> HoldsList(o)
  {
    hide Safe;
  }

  lemma HeldStays(s: State, t: nat, c: Choice)
    requires t in s.ops && Safe(s, t) && Shape(s.ops[t]) && SplicedOk(s, t) && !Moves(s, t, c) && !Drops(s, t)
    ensures HeldAfter(s, t, c) == s.ops[t].held && SplicedAfter(s, t) == s.ops[t].spliced
    ensures PcAfter(s, t, c).None? ==> s.ops[t].spliced == []
  {
    hide Safe, Distinct;
  }

  lemma FreeListStays(s: State, t: nat, c: Choice)
    requires t in s.ops && Safe(s, t) && !Moves(s, t, c) && !Drops(s, t)
    ensures Advanced(s, t, c).free == s.free && Advanced(s, t, c).lists == s.lists
  {
    AdvancedIs(s, t, c);
    FreeListChange(s, t, c);
    hide *;
    ChangedRest(s, s.ops[t].h, ChangeOf(s, t, c));
  }

  lemma FreeListChange(s: State, t: nat, c: Choice)
    requires t in s.ops && Safe(s, t) && !Moves(s, t, c) && !Drops(s, t)
    ensures var x := ChangeOf(s, t, c); !x.NewList? && !x.DropList? && (x.SetFree? ==> x.free == s.free)
  {
  }

  lemma SlotChange(s: State, t: nat, c: Choice)
    requires CanAdvance(s, t, c) && OpOk(s, t)
    ensures var o, x := s.ops[t], ChangeOf(s, t, c);
      && (x.SetSlot? ==> TurnsLive(o, o.h, x.at) || (!x.slot.Live? && o.h in s.allocs && x.at !in s.allocs[o.h].slots))
      && (x.ClearSlot? ==> TurnsLive(o, o.h, x.gone)
                           || (o.h in s.allocs && x.gone in s.allocs[o.h].slots && !s.allocs[o.h].slots[x.gone].Live?))
  {
    hide HoldsRef, UsesParent, Mapped, NoneFrom, EntryFrom, Distinct;
  }

  predicate LiveAt(s: State, h: nat, id: nat, slot: Slot) {
    slot.Live? && h in s.allocs && id in s.allocs[h].slots && s.allocs[h].slots[id] == slot
  }

  /** Only publishing and freeing change what is live. */
  lemma LiveStays(s: State, t: nat, c: Choice, h: nat, id: nat, slot: Slot)
    requires CanAdvance(s, t, c) && OpOk(s, t) && !TurnsLive(s.ops[t], h, id)
    requires ChangeOf(s, t, c).FreeAllocator? ==> s.ops[t].h in s.allocs && s.allocs[s.ops[t].h].slots == map[]
    ensures LiveAt(Advanced(s, t, c), h, id, slot) <==> LiveAt(s, h, id, slot)
  {
    AdvancedIs(s, t, c);
    SlotChange(s, t, c);
    ChangedAllocs(s, s.ops[t].h, ChangeOf(s, t, c), h);
    hide CanAdvance, Safe, Possible, ChangeOf, After, OpOk, Changed, Advanced, Applies;
  }

  lemma SlotStays(s: State, t: nat, c: Choice, h: nat, id: nat, l: nat)
    requires CanAdvance(s, t, c) && OpOk(s, t) && !Moves(s, t, c) && !Drops(s, t)
    requires ChangeOf(s, t, c).FreeAllocator? ==> s.ops[t].h in s.allocs && s.allocs[s.ops[t].h].slots == map[]
    ensures Owns(Advanced(s, t, c), OnSlot(h, id), l) <==> Owns(s, OnSlot(h, id), l)
  {
    var s' := Advanced(s, t, c);
    hide CanAdvance, ChangeOf, Advanced, OpOk, Drops;
    assert !TurnsLive(s.ops[t], h, id);
    if Owns(s, OnSlot(h, id), l) { LiveStays(s, t, c, h, id, s.allocs[h].slots[id]); }
    if Owns(s', OnSlot(h, id), l) { LiveStays(s, t, c, h, id, s'.allocs[h].slots[id]); }
  }

  /** Every other step leaves all lists where they are. */
  lemma OthersStay(s: State, t: nat, c: Choice, at: Place, l: nat)
    requires CanAdvance(s, t, c) && OpOk(s, t) && SplicedOk(s, t) && !Moves(s, t, c) && !Drops(s, t)
    requires ChangeOf(s, t, c).FreeAllocator? ==> s.ops[t].h in s.allocs && s.allocs[s.ops[t].h].slots == map[]
    ensures Owns(Advanced(s, t, c), at, l) <==> Owns(s, at, l)
  {
    assert Shape(s.ops[t]) && t in s.ops;
    AdvancedIs(s, t, c);
    CallStays(s, t, c);
    FreeListStays(s, t, c);
    hide *;
    if at.OnSlot? {
      SlotStays(s, t, c, at.h, at.id, l);
    } else {
      NotSlotStays(s, Advanced(s, t, c), t, After(s, t, c), at, l);
    }
  }

  lemma NotSlotStays(s: State, s': State, t: nat, a: Option<Op>, at: Place, l: nat)
    requires !at.OnSlot? && t in s.ops && s'.ops == Called(s, t, a).ops && s'.free == s.free
    requires var o := s.ops[t];
      && ((a.Some? && HoldsList(a.value)) <==> HoldsList(o)) && (a.Some? && HoldsList(o) ==> a.value.held == o.held)
      && (if a.Some? then a.value.spliced == o.spliced else o.spliced == [])
    ensures Owns(s', at, l) <==> Owns(s, at, l)
  {
    hide HoldsList;
  }

  // ---------------------------------------------------------------- every step keeps the places

  lemma AdvanceKeepsPlaces(s: State, t: nat, c: Choice)
    requires Lifetimes(s) && OnePlace(s) && NoRepeats(s) && CanAdvance(s, t, c)
    ensures OnePlace(Advanced(s, t, c))
  {
    var o, s' := s.ops[t], Advanced(s, t, c);
    assert OpOk(s, t) && SplicedOk(s, t) && Distinct(s.free);
    if ChangeOf(s, t, c).FreeAllocator? { FreedAtEnd(s, t, c); DestroyedEmpty(s, t); }
    hide Lifetimes, OnePlace, NoRepeats, CanAdvance, Advanced, OpOk, SplicedOk, Distinct, ChangeOf;
    if Drops(s, t) {
      if o.pc == CheckSize {
        DropLoses(s, t, c);
        LosingKeeps(s, s', o.held);
      } else {
        FreeRestLoses(s, t, c);
        LosingKeeps(s, s', o.spliced[0]);
      }
    } else if Moves(s, t, c) {
      MovesKeep(s, t, c);
    } else {
      StaysKeep(s, t, c);
    }
  }

  lemma FreedAtEnd(s: State, t: nat, c: Choice)
    requires t in s.ops && Safe(s, t) && ChangeOf(s, t, c).FreeAllocator?
    ensures s.ops[t].pc == FreeAlloc
  {
  }

  lemma MovesKeep(s: State, t: nat, c: Choice)
    requires OpOk(s, t) && SplicedOk(s, t) && OnePlace(s) && Distinct(s.free) && CanAdvance(s, t, c) && Moves(s, t, c)
    ensures OnePlace(Advanced(s, t, c))
  {
    var o, s' := s.ops[t], Advanced(s, t, c);
    assert o.pc == EraseLive ==> o.h in s.allocs && o.id in s.allocs[o.h].slots && s.allocs[o.h].slots[o.id].Live?;
    hide OnePlace, CanAdvance, Advanced, OpOk, SplicedOk, Distinct;
    if o.pc == Publish {
      PublishMoves(s, t, c);
      RelocatingKeeps(s, s', {o.held}, OnSlot(o.h, o.id));
    } else if o.pc == EraseLive {
      EraseMoves(s, t, c);
      RelocatingKeeps(s, s', {s.allocs[o.h].slots[o.id].list}, OnCall(t));
    } else if o.pc == NewPages {
      NewMoves(s, t, c);
      RelocatingKeeps(s, s', {c.n}, OnCall(t));
    } else if o.pc == Unlinking {
      TakeMoves(s, t, c);
      RelocatingKeeps(s, s', {s.free[0]}, OnCall(t));
    } else if o.pc == Linking {
      LinkMoves(s, t, c);
      RelocatingKeeps(s, s', {o.held}, OnFreeList);
    } else {
      SpliceMoves(s, t, c);
      RelocatingKeeps(s, s', SetOf(s.free), Spliced(t));
    }
  }

  lemma StaysKeep(s: State, t: nat, c: Choice)
    requires OpOk(s, t) && SplicedOk(s, t) && OnePlace(s) && CanAdvance(s, t, c) && !Moves(s, t, c) && !Drops(s, t)
    requires ChangeOf(s, t, c).FreeAllocator? ==> s.ops[t].h in s.allocs && s.allocs[s.ops[t].h].slots == map[]
    ensures OnePlace(Advanced(s, t, c))
  {
    var s' := Advanced(s, t, c);
    FreeListStays(s, t, c);
    hide OnePlace, Advanced, OpOk, SplicedOk, Owns, ChangeOf, Moves, Drops;
    forall at, l
      ensures Owns(s', at, l) <==> Owns(s, at, l)
    {
      OthersStay(s, t, c, at, l);
    }
    RelocatingKeeps(s, s', {}, OnFreeList);
  }

  /** The list about to be linked is not on the free list already. */
  lemma AdvanceKeepsNoRepeats(s: State, t: nat, c: Choice)
    requires OpsOk(s) && OnePlace(s) && NoRepeats(s) && CanAdvance(s, t, c)
    ensures NoRepeats(Advanced(s, t, c))
  {
    var o, s' := s.ops[t], Advanced(s, t, c);
    assert OpOk(s, t) && SplicedOk(s, t) && Distinct(s.free);
    FreeDistinct(s, t, c);
    CallSplicedOk(s, t, c);
    assert s'.ops == Called(s, t, After(s, t, c)).ops;
    forall r | r in s'.ops ensures SplicedOk(s', r) {
      if r != t { assert SplicedOk(s, r); }
      hide OnePlace, OpsOk, NoRepeats, CanAdvance, Advanced, OpOk, ChangeOf, After, Distinct;
    }
  }

  lemma FreeDistinct(s: State, t: nat, c: Choice)
    requires t in s.ops && Safe(s, t) && OnePlace(s) && Distinct(s.free)
    ensures Distinct(Advanced(s, t, c).free)
  {
    var o := s.ops[t];
    if o.pc == Linking {
      assert Owns(s, OnCall(t), o.held);
      OnlyAt(s, OnCall(t), OnFreeList, o.held);
      assert o.held !in s.free;
    }
    AdvancedIs(s, t, c);
    FreeListAfter(s, t, c);
    ChangedRest(s, o.h, ChangeOf(s, t, c));
    hide OnePlace, Safe, ChangeOf, After, Owns, Changed, Advanced;
  }

  lemma FreeListAfter(s: State, t: nat, c: Choice)
    requires t in s.ops && Safe(s, t)
    ensures var x := ChangeOf(s, t, c);
      x.SetFree? ==> x.free == s.free || x.free == [] || (s.free != [] && x.free == s.free[1..])
                     || (s.ops[t].pc == Linking && x.free == [s.ops[t].held] + s.free)
  {
  }

  lemma CallSplicedOk(s: State, t: nat, c: Choice)
    requires t in s.ops && Safe(s, t) && Shape(s.ops[t]) && SplicedOk(s, t) && Distinct(s.free)
    ensures var a := After(s, t, c); a.Some? ==>
      Distinct(a.value.spliced) && ((a.value.call.VmaFree? && a.value.pc != Splice) || a.value.spliced == [])
  {
  }

  /** The points calls start at. */
  predicate Starting(pc: Pc) {
    pc == GetRef || pc == EraseLive || pc == PutRef || pc == Splice
  }

  lemma StartIs(s: State, a: Action)
    requires Enabled(s, a) && IsStart(a)
    ensures var t, s' := StarterOf(a), Next(s, a);
      && t !in s.ops && t in s'.ops && s'.ops == s.ops[t := s'.ops[t]] && Starting(s'.ops[t].pc) && s'.ops[t].spliced == []
      && s'.allocs == s.allocs && s'.threads == s.threads
      && s'.lists == s.lists && s'.free == s.free && s'.content == s.content && s'.size == s.size && s'.lock == s.lock
  {
    hide ValidAddress, AddrToId, UsesParent;
  }

  lemma StartingHoldsNothing(o: Op)
    ensures Starting(o.pc) ==> !HoldsList(o) && !HoldsDesc(o) && !InGlFree(o.pc)
  {
  }

  lemma NewCallHoldsNothing(s: State, a: Action)
    requires Enabled(s, a) && IsStart(a)
    ensures var t, s' := StarterOf(a), Next(s, a);
      && t !in s.ops && t in s'.ops && s'.ops == s.ops[t := s'.ops[t]] && !HoldsList(s'.ops[t]) && s'.ops[t].spliced == []
      && s'.lists == s.lists && s'.free == s.free && s'.content == s.content && s'.size == s.size && s'.lock == s.lock
  {
    StartIs(s, a);
    hide Enabled, Next, HoldsList;
    StartingHoldsNothing(Next(s, a).ops[StarterOf(a)]);
  }

  lemma StartStays(s: State, a: Action, at: Place, l: nat)
    requires Enabled(s, a) && IsStart(a)
    ensures Owns(Next(s, a), at, l) <==> Owns(s, at, l)
  {
    NewCallHoldsNothing(s, a);
    StartStarts(s, a);
    var s' := Next(s, a);
    hide Next, Enabled, HoldsList;
  }

  lemma OtherActionStays(s: State, a: Action, at: Place, l: nat)
    requires Enabled(s, a) && !a.Advance?
    ensures Owns(Next(s, a), at, l) <==> Owns(s, at, l)
    ensures Next(s, a).lists == s.lists && Next(s, a).free == s.free
  {
    if IsStart(a) {
      NewCallHoldsNothing(s, a);
      StartStays(s, a, at, l);
      hide Next, Enabled, Owns;
    } else {
      hide IsStart, CanAdvance, Walk, IsTable, HoldsList;
    }
  }

  /** No list is ever lost, in two places at once, or used after it has been freed. */
  lemma StepKeepsPlaces(s: State, a: Action)
    requires Lifetimes(s) && OnePlace(s) && NoRepeats(s) && Enabled(s, a)
    ensures OnePlace(Next(s, a)) && NoRepeats(Next(s, a))
  {
    if a.Advance? {
      AdvanceIs(s, a);
      hide *;
      AdvanceKeepsPlaces(s, a.t, a.c);
      LifetimeParts(s);
      AdvanceKeepsNoRepeats(s, a.t, a.c);
    } else {
      hide *;
      OtherActionPlaces(s, a);
      OtherActionNoRepeats(s, a);
    }
  }

  lemma AdvanceIs(s: State, a: Action)
    requires Enabled(s, a) && a.Advance?
    ensures CanAdvance(s, a.t, a.c) && Next(s, a) == Advanced(s, a.t, a.c)
  {
    hide CanAdvance, Advanced;
  }

  lemma OtherActionPlaces(s: State, a: Action)
    requires OnePlace(s) && Enabled(s, a) && !a.Advance?
    ensures OnePlace(Next(s, a))
  {
    var s' := Next(s, a);
    hide OnePlace, Owns, Next, Enabled;
    forall at, l
      ensures Owns(s', at, l) <==> Owns(s, at, l)
    {
      OtherActionStays(s, a, at, l);
    }
    OtherActionStays(s, a, OnFreeList, 0);
    RelocatingKeeps(s, s', {}, OnFreeList);
  }

  lemma OtherActionNoRepeats(s: State, a: Action)
    requires NoRepeats(s) && Enabled(s, a) && !a.Advance?
    ensures NoRepeats(Next(s, a))
  {
    var s' := Next(s, a);
    if IsStart(a) { NewCallHoldsNothing(s, a); }
    OtherActionStays(s, a, OnFreeList, 0);
    assert !IsStart(a) ==> s'.ops == s.ops;
    hide Enabled, Next, Distinct;
    forall r | r in s'.ops ensures SplicedOk(s', r) {
      if r in s.ops { assert SplicedOk(s, r); }
    }
  }
}
