/** Reference counts and lifetimes in the arena: the count is the number of holders, in every reachable state. */
module ArenaReferences {
  import opened Arena
  import opened Wrappers

  /** Who may hold a reference on an allocator: the registry, a live slot, a call in progress. */
  datatype Holder = Registry | SlotOf(id: nat) | CallOf(t: nat)

  predicate Registered(s: State, h: nat)
    requires h in s.allocs
  {
    s.allocs[h].tgid in s.registry && s.registry[s.allocs[h].tgid] == h
  }

  predicate Holds(s: State, h: nat, x: Holder)
    requires h in s.allocs
  {
    match x
    case Registry => Registered(s, h)
    case SlotOf(id) => id in s.allocs[h].slots && s.allocs[h].slots[id].Live?
    case CallOf(t) => t in s.ops && s.ops[t].h == h && HoldsRef(s.ops[t])
  }

  function Holders(s: State, h: nat): (r: set<Holder>)
    requires h in s.allocs
    ensures forall x :: x in r <==> Holds(s, h, x)
  {
    (if Registered(s, h) then {Registry} else {})
    + (set id | id in s.allocs[h].slots && s.allocs[h].slots[id].Live? :: SlotOf(id))
    + (set t | t in s.ops && s.ops[t].h == h && HoldsRef(s.ops[t]) :: CallOf(t))
  }

  predicate Taken(slot: Slot, o: Op, t: nat) {
    slot == if o.call.SaFork? then Pending(t, o.held, o.desc) else Reserved(t)
  }

  /** The slot a search has come to is one there can be, and so is the one to copy to. */
  predicate InBounds(o: Op) {
    && (o.pc.Examine? ==> o.pc.at <= THREADS_LIMIT) && (o.pc == Insert ==> o.id <= THREADS_LIMIT)
    && (o.pc.Copying? ==> o.pc.copied <= PAGES && o.pc.source <= THREADS_LIMIT)
  }

  /** What a call relies on at the point it has reached. */
  predicate OpOk(s: State, t: nat) {
    t in s.ops && var o := s.ops[t];
    && Shape(o)
    && (HoldsRef(o) ==> o.h in s.allocs)
    && (HoldsSlot(o) ==> o.h in s.allocs && o.id in s.allocs[o.h].slots && Taken(s.allocs[o.h].slots[o.id], o, t))
    && (o.pc == EraseLive ==> o.h in s.allocs && o.id in s.allocs[o.h].slots && s.allocs[o.h].slots[o.id].Live?)
    && InBounds(o)
    && (o.pc == FreeAlloc ==> o.h in s.allocs && s.allocs[o.h].kref == 0)
  }

  /** A slot that is not live yet belongs to a call that is still to finish or to undo it. */
  predicate SlotOk(s: State, h: nat, id: nat) {
    h in s.allocs && id in s.allocs[h].slots && id <= THREADS_LIMIT
    && match s.allocs[h].slots[id]
       case Reserved(t) => t in s.ops && s.ops[t].call.SaAlloc? && HoldsSlot(s.ops[t]) && s.ops[t].h == h && s.ops[t].id == id
       case Pending(t, l, d) =>
         && t in s.ops && s.ops[t].call.SaFork? && HoldsSlot(s.ops[t]) && s.ops[t].h == h && s.ops[t].id == id
         && s.ops[t].held == l && s.ops[t].desc == d
       case Live(_, _, _) => true
  }

  /** No slot is being freed by two threads, nor an allocator. */
  predicate FreedOnce(s: State, t: nat, r: nat)
    requires t in s.ops && r in s.ops
  {
    var o, u := s.ops[t], s.ops[r];
    && (o.pc == EraseLive && u.pc == EraseLive && o.h == u.h && o.id == u.id ==> t == r)
    && (o.pc == FreeAlloc && u.pc == FreeAlloc && o.h == u.h ==> t == r)
  }

  predicate RefsOk(s: State, h: nat) {
    h in s.allocs && s.allocs[h].kref == |Holders(s, h)|
  }

  predicate EntryOk(s: State, g: nat) {
    g in s.registry && s.registry[g] in s.allocs && s.allocs[s.registry[g]].tgid == g
  }

  ghost predicate RegistryOk(s: State) {
    forall g :: g in s.registry ==> EntryOk(s, g)
  }

  ghost predicate OpsOk(s: State) {
    forall t :: t in s.ops ==> OpOk(s, t)
  }

  ghost predicate SlotsOk(s: State) {
    forall h, id :: h in s.allocs && id in s.allocs[h].slots ==> SlotOk(s, h, id)
  }

  ghost predicate FreesOk(s: State) {
    forall t, r :: t in s.ops && r in s.ops ==> FreedOnce(s, t, r)
  }

  ghost predicate CountsOk(s: State) {
    forall h :: h in s.allocs ==> RefsOk(s, h)
  }

  ghost predicate Lifetimes(s: State) {
    RegistryOk(s) && OpsOk(s) && SlotsOk(s) && FreesOk(s) && CountsOk(s)
  }

  // ---------------------------------------------------------------- the last reference

  lemma AtEnd(o: Op)
    ensures Shape(o) && o.pc == PutRef ==> HoldsRef(o) && !HoldsSlot(o)
    ensures o.pc == FreeAlloc || o.pc == PutRef || o.call.VmaFree? ==> !HoldsSlot(o)
  {
  }

  lemma SlotNeedsRef(o: Op)
    ensures HoldsSlot(o) ==> HoldsRef(o)
  {
  }

  /** A count of zero means that nobody holds a reference. */
  lemma ZeroIsNobody(s: State, h: nat, x: Holder)
    requires RefsOk(s, h) && s.allocs[h].kref == 0
    ensures !Holds(s, h, x)
  {
    var holders := Holders(s, h);
    assert holders == {};
    assert x !in holders;
  }

  /** So the slot table is empty when the destroy callback runs, and its warning never fires. */
  lemma DestroyedEmpty(s: State, t: nat)
    requires Lifetimes(s) && t in s.ops && s.ops[t].pc == FreeAlloc
    ensures s.ops[t].h in s.allocs && s.allocs[s.ops[t].h].slots == map[] && !Registered(s, s.ops[t].h)
  {
    var h := s.ops[t].h;
    assert OpOk(s, t) && RefsOk(s, h);
    ZeroIsNobody(s, h, Registry);
    assert !Registered(s, h);
    hide *;
    forall id | id in s.allocs[h].slots
      ensures false
    {
      NoSlotLeft(s, h, id);
    }
  }

  lemma NoSlotLeft(s: State, h: nat, id: nat)
    requires RefsOk(s, h) && s.allocs[h].kref == 0 && SlotsOk(s)
    ensures id !in s.allocs[h].slots
  {
    if id in s.allocs[h].slots {
      assert SlotOk(s, h, id);
      hide HoldsRef, HoldsSlot, Registered, RefsOk, SlotsOk;
      match s.allocs[h].slots[id]
      case Live(_, _, _) => ZeroIsNobody(s, h, SlotOf(id));
      case Reserved(r) => SlotNeedsRef(s.ops[r]); ZeroIsNobody(s, h, CallOf(r));
      case Pending(r, _, _) => SlotNeedsRef(s.ops[r]); ZeroIsNobody(s, h, CallOf(r));
    }
  }

  // ---------------------------------------------------------------- what a step does to holders and slots

  function SlotsAfter(slots: map<nat, Slot>, x: Change): map<nat, Slot> {
    match x
    case SetSlot(id, slot) => slots[id := slot]
    case ClearSlot(id) => slots - {id}
    case _ => slots
  }

  function RefsAfter(kref: nat, x: Change): int {
    kref + (if x.AddRef? then 1 else 0) - if x.DropRef? then 1 else 0
  }

  /** The allocators after a change. */
  lemma ChangedAllocs(s: State, h: nat, x: Change, g: nat)
    requires Applies(s, h, x)
    ensures var s' := Changed(s, h, x);
      && s'.registry == s.registry && s'.ops == s.ops
      && (g in s'.allocs <==> g in s.allocs && !(g == h && x.FreeAllocator?))
      && (g in s'.allocs && g != h ==> s'.allocs[g] == s.allocs[g])
      && (h in s'.allocs ==>
            && s'.allocs[h].tgid == s.allocs[h].tgid && s'.allocs[h].mm == s.allocs[h].mm
            && s'.allocs[h].slots == SlotsAfter(s.allocs[h].slots, x) && s'.allocs[h].kref == RefsAfter(s.allocs[h].kref, x))
  {
  }

  /** How the call of a thread, the slot it holds and the change it makes go together. */
  predicate Facts(s: State, t: nat, x: Change, after: Option<Op>)
    requires t in s.ops && Applies(s, s.ops[t].h, x)
  {
    var o := s.ops[t];
    match after
    case None => Returns(o, t, x)
    case Some(a) =>
      && a.h == o.h && a.call == o.call && Shape(a) && RefFacts(s, x, o, a) && SlotFacts(s, t, x, o, a) && InBounds(a)
  }

  /** The last step of a call. */
  predicate Returns(o: Op, t: nat, x: Change) {
    || (o.pc == Publish && HoldsSlot(o) && x == SetSlot(o.id, Live(t, o.held, o.desc)))
    || (o.pc == PutRef && x.DropRef?)
    || (o.pc == FreeAlloc && x.FreeAllocator?)
    || (o.pc == GetRef && x.Nothing?)
    || (o.call.VmaFree? && o.pc == FreeRest && x.Nothing?)
  }

  predicate RefFacts(s: State, x: Change, o: Op, a: Op) {
    && a.pc != EraseLive && a.pc != GetRef && o.pc != Publish && o.pc != FreeAlloc && !x.FreeAllocator?
    && (x.AddRef? <==> o.pc == GetRef) && (x.DropRef? <==> o.pc == PutRef) && (a.pc == FreeAlloc <==> o.pc == PutRef)
    && (x.AddRef? ==> o.h in s.allocs && s.allocs[o.h].kref > 0) && (x.DropRef? ==> o.h in s.allocs && s.allocs[o.h].kref == 1)
    && (HoldsRef(a) <==> (HoldsRef(o) && o.pc != PutRef) || o.pc == EraseLive || o.pc == GetRef)
  }

  predicate SlotFacts(s: State, t: nat, x: Change, o: Op, a: Op)
    requires Applies(s, o.h, x)
  {
    match x
    case SetSlot(id, slot) =>
      o.pc != EraseLive && !HoldsSlot(o) && HoldsSlot(a) && a.id == id && id !in s.allocs[o.h].slots && id <= THREADS_LIMIT && Taken(slot, a, t)
    case ClearSlot(id) => id == o.id && !HoldsSlot(a) && (HoldsSlot(o) || o.pc == EraseLive)
    case _ =>
      && (HoldsSlot(a) <==> HoldsSlot(o)) && o.pc != EraseLive
      && (HoldsSlot(o) ==> a.id == o.id && (o.call.SaFork? ==> a.desc == o.desc && a.held == o.held))
  }

  lemma CallFacts(s: State, t: nat, c: Choice)
    requires t in s.ops && Safe(s, t) && Shape(s.ops[t])
    ensures var o, a := s.ops[t], After(s, t, c); a.Some? ==> a.value.h == o.h && a.value.call == o.call && Shape(a.value)
  {
    AfterIs(s, t, c);
    ShapeAfter(s, t, c);
    hide *;
    ShapeOf(s.ops[t], After(s, t, c));
  }

  lemma ShapeAfter(s: State, t: nat, c: Choice)
    requires t in s.ops && Safe(s, t) && Shape(s.ops[t])
    ensures PcAfter(s, t, c).Some? ==> Shape(s.ops[t].(pc := PcAfter(s, t, c).value))
  {
    hide HoldsSlot, HoldsRef, Safe;
  }

  lemma ShapeOf(o: Op, a: Option<Op>)
    requires a.Some? ==> a.value.call == o.call && Shape(o.(pc := a.value.pc))
    ensures a.Some? ==> Shape(a.value)
  {
  }

  lemma RefFactsHold(s: State, t: nat, c: Choice)
    requires t in s.ops && Safe(s, t) && Shape(s.ops[t])
    ensures var o, a := s.ops[t], After(s, t, c); a.Some? ==> RefFacts(s, ChangeOf(s, t, c), o, a.value)
  {
    RefMoves(s, t, c);
    RefKept(s, t, c);
    hide Safe, After, ChangeOf, Shape, HoldsRef;
  }

  lemma RefMoves(s: State, t: nat, c: Choice)
    requires t in s.ops && Safe(s, t) && Shape(s.ops[t])
    ensures var o, a, x := s.ops[t], After(s, t, c), ChangeOf(s, t, c); a.Some? ==>
      && a.value.pc != EraseLive && a.value.pc != GetRef && o.pc != Publish && o.pc != FreeAlloc && !x.FreeAllocator?
      && (x.AddRef? <==> o.pc == GetRef) && (x.DropRef? <==> o.pc == PutRef) && (a.value.pc == FreeAlloc <==> o.pc == PutRef)
      && (x.AddRef? ==> o.h in s.allocs && s.allocs[o.h].kref > 0) && (x.DropRef? ==> o.h in s.allocs && s.allocs[o.h].kref == 1)
  {
    AfterIs(s, t, c);
    RefPcs(s, t, c);
    RefChange(s, t, c);
    hide Safe, After, PcAfter, ChangeOf, Shape, HoldsRef, HoldsSlot;
  }

  lemma RefPcs(s: State, t: nat, c: Choice)
    requires t in s.ops && Safe(s, t)
    ensures var pc, next := s.ops[t].pc, PcAfter(s, t, c); next.Some? ==>
      && next.value != EraseLive && next.value != GetRef && pc != Publish && pc != FreeAlloc && (next.value == FreeAlloc <==> pc == PutRef)
    ensures var o, next := s.ops[t], PcAfter(s, t, c);
      next.Some? && (o.pc == GetRef || o.pc == PutRef) ==> o.h in s.allocs && (if o.pc == GetRef then s.allocs[o.h].kref > 0 else s.allocs[o.h].kref == 1)
  {
    hide Present, FindsParent;
  }

  lemma RefChange(s: State, t: nat, c: Choice)
    requires t in s.ops && Safe(s, t)
    ensures var o, x := s.ops[t], ChangeOf(s, t, c);
      && (x.FreeAllocator? <==> o.pc == FreeAlloc) && (x.DropRef? <==> o.pc == PutRef)
      && (x.AddRef? ==> o.pc == GetRef) && (PcAfter(s, t, c).Some? && o.pc == GetRef ==> x.AddRef?)
  {
    hide Present;
  }

  lemma RefKept(s: State, t: nat, c: Choice)
    requires t in s.ops && Safe(s, t) && Shape(s.ops[t])
    ensures var o, a := s.ops[t], After(s, t, c);
      a.Some? ==> (HoldsRef(a.value) <==> (HoldsRef(o) && o.pc != PutRef) || o.pc == EraseLive || o.pc == GetRef)
  {
    hide ChangeOf, HoldsSlot;
  }

  lemma TakingSlots(s: State, t: nat, c: Choice)
    requires CanAdvance(s, t, c) && Shape(s.ops[t]) && Applies(s, s.ops[t].h, ChangeOf(s, t, c))
    requires s.ops[t].pc == Insert ==> s.ops[t].id <= THREADS_LIMIT
    requires var pc := s.ops[t].pc; pc == PickId || pc == Insert
    ensures var a := After(s, t, c); a.Some? ==> SlotFacts(s, t, ChangeOf(s, t, c), s.ops[t], a.value)
  {
    hide Distinct, Mapped, NoneFrom, EntryFrom;
  }

  lemma ClearingSlots(s: State, t: nat, c: Choice)
    requires CanAdvance(s, t, c) && Shape(s.ops[t]) && Applies(s, s.ops[t].h, ChangeOf(s, t, c))
    requires var pc := s.ops[t].pc; pc == EraseLive || pc == EraseSlot
    ensures var a := After(s, t, c); a.Some? ==> SlotFacts(s, t, ChangeOf(s, t, c), s.ops[t], a.value)
  {
    hide Distinct, Mapped, NoneFrom, EntryFrom;
  }

  lemma SlotHeld(s: State, t: nat, c: Choice)
    requires t in s.ops && Safe(s, t) && Shape(s.ops[t])
    requires var pc := s.ops[t].pc; pc != PickId && pc != Insert && pc != EraseLive && pc != EraseSlot
    ensures var o, a := s.ops[t], After(s, t, c);
      && (a.Some? ==> (HoldsSlot(a.value) <==> HoldsSlot(o)))
      && (a.Some? && HoldsSlot(o) ==> a.value.id == o.id && (o.call.SaFork? ==> a.value.desc == o.desc && a.value.held == o.held))
  {
    AfterIs(s, t, c);
    SlotPcs(s, t, c);
    SlotPoints(s.ops[t], After(s, t, c));
    hide Safe, After, PcAfter, HeldAfter, SplicedAfter, HoldsSlot, Shape;
  }

  lemma SlotPcs(s: State, t: nat, c: Choice)
    requires t in s.ops && Safe(s, t) && Shape(s.ops[t])
    requires var pc := s.ops[t].pc; pc != PickId && pc != Insert && pc != EraseLive && pc != EraseSlot
    ensures var o, next := s.ops[t], PcAfter(s, t, c); next.Some? ==> (HoldsSlot(o.(pc := next.value)) <==> HoldsSlot(o))
    ensures var o := s.ops[t]; HoldsSlot(o) ==> !o.pc.Copying? || !o.call.SaFork?
    ensures var o := s.ops[t]; HoldsSlot(o) && o.call.SaFork? ==> HeldAfter(s, t, c) == o.held && o.pc != NewThread
    ensures var o := s.ops[t]; HoldsSlot(o) && o.call.SaAlloc? ==> !o.pc.Copying?
    ensures HoldsSlot(s.ops[t]) ==> s.ops[t].call.SaAlloc? || s.ops[t].call.SaFork?
  {
    hide Safe;
  }

  /** HoldsSlot looks at the call and the point it is at. */
  lemma SlotPoints(o: Op, a: Option<Op>)
    ensures a.Some? && a.value.call == o.call ==> (HoldsSlot(a.value) <==> HoldsSlot(o.(pc := a.value.pc)))
  {
  }

  lemma NoSlotChange(s: State, t: nat, c: Choice)
    requires t in s.ops && Safe(s, t) && After(s, t, c).Some?
    requires var pc := s.ops[t].pc; pc != PickId && pc != Insert && pc != EraseLive && pc != EraseSlot
    ensures !ChangeOf(s, t, c).SetSlot? && !ChangeOf(s, t, c).ClearSlot?
  {
    hide Present, HeldAfter, SplicedAfter, Onward;
  }

  lemma KeepingSlots(s: State, t: nat, c: Choice)
    requires CanAdvance(s, t, c) && Shape(s.ops[t]) && Applies(s, s.ops[t].h, ChangeOf(s, t, c))
    requires var pc := s.ops[t].pc; pc != PickId && pc != Insert && pc != EraseLive && pc != EraseSlot
    ensures var a := After(s, t, c); a.Some? ==> SlotFacts(s, t, ChangeOf(s, t, c), s.ops[t], a.value)
  {
    SlotHeld(s, t, c);
    if After(s, t, c).Some? { NoSlotChange(s, t, c); }
    hide Possible, Safe, ChangeOf, After, HoldsSlot, Shape;
  }

  lemma SlotFactsHold(s: State, t: nat, c: Choice)
    requires CanAdvance(s, t, c) && Shape(s.ops[t]) && Applies(s, s.ops[t].h, ChangeOf(s, t, c))
    requires s.ops[t].pc == Insert ==> s.ops[t].id <= THREADS_LIMIT
    ensures var a := After(s, t, c); a.Some? ==> SlotFacts(s, t, ChangeOf(s, t, c), s.ops[t], a.value)
  {
    var pc := s.ops[t].pc;
    hide *;
    if pc == PickId || pc == Insert {
      TakingSlots(s, t, c);
    } else if pc == EraseLive || pc == EraseSlot {
      ClearingSlots(s, t, c);
    } else {
      KeepingSlots(s, t, c);
    }
  }

  lemma ReturnFacts(s: State, t: nat, c: Choice)
    requires t in s.ops && Safe(s, t) && Shape(s.ops[t])
    ensures After(s, t, c).None? ==> Returns(s.ops[t], t, ChangeOf(s, t, c))
  {
  }

  lemma BoundsHold(s: State, t: nat, c: Choice)
    requires CanAdvance(s, t, c) && OpOk(s, t) && SlotsOk(s)
    ensures var a := After(s, t, c); a.Some? ==> InBounds(a.value)
  {
    var o := s.ops[t];
    AfterIs(s, t, c);
    BoundPcs(s, t, c);
    if o.pc.Scan? && After(s, t, c).Some? && After(s, t, c).value.pc.Examine? { assert SlotOk(s, o.parent, After(s, t, c).value.pc.at); }
    hide CanAdvance, Safe, Possible, After, PcAfter, Shape, HoldsSlot, HoldsRef, SlotsOk, HeldAfter, SplicedAfter;
  }

  /** How a call comes to the points where a slot number matters. */
  lemma BoundPcs(s: State, t: nat, c: Choice)
    requires t in s.ops && Safe(s, t)
    ensures var o, a := s.ops[t], After(s, t, c); a.Some? ==>
      && (a.value.pc.Examine? ==> o.pc.Scan? && o.parent in s.allocs && a.value.pc.at in s.allocs[o.parent].slots)
      && (a.value.pc.Copying? ==>
            || (o.pc.Examine? && a.value.pc.source == o.pc.at && a.value.pc.copied == 0)
            || (o.pc.Copying? && a.value.pc.source == o.pc.source && o.pc.copied < PAGES && a.value.pc.copied == o.pc.copied + 1))
      && (a.value.pc == Insert ==> o.pc.Copying? && a.value.id == o.pc.source)
  {
    hide Present, HeldAfter, SplicedAfter, FindsParent;
  }

  lemma FactsHold(s: State, t: nat, c: Choice)
    requires CanAdvance(s, t, c) && OpOk(s, t) && SlotsOk(s)
    ensures Applies(s, s.ops[t].h, ChangeOf(s, t, c))
    ensures Facts(s, t, ChangeOf(s, t, c), After(s, t, c))
  {
    ChangeApplies(s, t, c);
    CallFacts(s, t, c);
    RefFactsHold(s, t, c);
    SlotFactsHold(s, t, c);
    ReturnFacts(s, t, c);
    BoundsHold(s, t, c);
    hide Distinct, Mapped, NoneFrom, HoldsSlot, HoldsRef, ChangeOf, After, Safe, Possible, OpOk, SlotOk, Applies, SlotFacts, InBounds, Shape, RefFacts, Returns;
  }

  // ---------------------------------------------------------------- every step keeps the lifetimes

  /** A slot somebody else's call relies on is not touched. */
  lemma OtherSlotKept(s: State, t: nat, x: Change, after: Option<Op>, r: nat)
    requires t in s.ops && r in s.ops && r != t && Applies(s, s.ops[t].h, x) && Facts(s, t, x, after)
    requires OpOk(s, t) && OpOk(s, r) && FreedOnce(s, t, r) && s.ops[r].h == s.ops[t].h && s.ops[t].h in s.allocs
    requires HoldsSlot(s.ops[r]) || s.ops[r].pc == EraseLive
    ensures SameSlot(s.allocs[s.ops[t].h].slots, x, s.ops[r].id)
  {
    hide Shape, HoldsRef, HoldsSlot, UsesParent;
  }

  /** A call freeing the allocator is the only one left on it. */
  lemma DyingApart(s: State, t: nat, x: Change, after: Option<Op>, r: nat)
    requires t in s.ops && r in s.ops && r != t && Applies(s, s.ops[t].h, x) && Facts(s, t, x, after)
    requires OpOk(s, t) && OpOk(s, r) && FreedOnce(s, t, r) && s.ops[r].pc == FreeAlloc && s.ops[r].h == s.ops[t].h
    requires RefsOk(s, s.ops[t].h)
    ensures !x.AddRef? && !x.DropRef? && !x.FreeAllocator?
  {
    AtEnd(s.ops[t]);
    ZeroIsNobody(s, s.ops[t].h, CallOf(t));
    hide Shape, HoldsRef, HoldsSlot, UsesParent, SlotFacts, RefsOk, Registered;
  }

  /** Every call in progress but the one that steps still finds what it relies on. */
  lemma OthersOk(s: State, t: nat, x: Change, after: Option<Op>, r: nat)
    requires t in s.ops && r in s.ops && r != t && Applies(s, s.ops[t].h, x) && Facts(s, t, x, after)
    requires OpOk(s, t) && OpOk(s, r) && FreedOnce(s, t, r)
    requires s.ops[t].h in s.allocs ==> RefsOk(s, s.ops[t].h)
    ensures OpOk(Called(Changed(s, s.ops[t].h, x), t, after), r)
  {
    var o, u := s.ops[t], s.ops[r];
    if x.FreeAllocator? { FreesAtFreeAlloc(s, t, x, after); KeptByHolder(s, t, r); }
    SlotNeedsRef(u);
    if u.h == o.h && (HoldsSlot(u) || u.pc == EraseLive) { OtherSlotKept(s, t, x, after, r); }
    if u.h == o.h && u.pc == FreeAlloc { DyingApart(s, t, x, after, r); }
    hide Changed, Shape, HoldsRef, RefsOk, HoldsSlot, UsesParent, Facts, FreedOnce, Applies, SlotsAfter;
    CarriedOver(s, o.h, x, t, after, r);
  }

  lemma FreesAtFreeAlloc(s: State, t: nat, x: Change, after: Option<Op>)
    requires t in s.ops && Applies(s, s.ops[t].h, x) && Facts(s, t, x, after) && x.FreeAllocator?
    ensures s.ops[t].pc == FreeAlloc && s.ops[t].h in s.allocs
  {
    hide SlotFacts, Shape;
  }

  /** What OpOk asks of the allocators, read off before and after. */
  lemma CarriedOver(s: State, h: nat, x: Change, t: nat, after: Option<Op>, r: nat)
    requires t in s.ops && r in s.ops && r != t && Applies(s, h, x) && OpOk(s, r)
    requires var u := s.ops[r];
      && (HoldsSlot(u) ==> HoldsRef(u)) && (x.FreeAllocator? && (HoldsRef(u) || u.pc == EraseLive) ==> u.h != h)
      && (u.h == h && h in s.allocs && (HoldsSlot(u) || u.pc == EraseLive) ==> SameSlot(s.allocs[h].slots, x, u.id))
      && (u.h == h && u.pc == FreeAlloc ==> !x.AddRef? && !x.DropRef? && !x.FreeAllocator?)
    ensures OpOk(Called(Changed(s, h, x), t, after), r)
  {
    var u := s.ops[r];
    ChangedAllocs(s, h, x, u.h);
    hide Changed, Shape, HoldsRef, HoldsSlot, UsesParent, Applies, SlotsAfter;
  }

  predicate SameSlot(slots: map<nat, Slot>, x: Change, id: nat) {
    id in slots && id in SlotsAfter(slots, x) && SlotsAfter(slots, x)[id] == slots[id]
  }

  /** Nobody else relies on an allocator that is being freed. */
  lemma KeptByHolder(s: State, t: nat, r: nat)
    requires t in s.ops && r in s.ops && OpOk(s, t) && OpOk(s, r) && s.ops[t].pc == FreeAlloc && RefsOk(s, s.ops[t].h)
    ensures var u := s.ops[r]; HoldsRef(u) || u.pc == EraseLive ==> u.h != s.ops[t].h
  {
    hide RefsOk, HoldsRef, HoldsSlot, Registered;
    var u, h := s.ops[r], s.ops[t].h;
    ZeroIsNobody(s, h, CallOf(r));
    ZeroIsNobody(s, h, SlotOf(u.id));
  }

  /** The call that steps, if it goes on, has what it relies on at the next point. */
  lemma SelfOk(s: State, t: nat, x: Change, after: Option<Op>)
    requires t in s.ops && Applies(s, s.ops[t].h, x) && Facts(s, t, x, after) && after.Some? && OpOk(s, t)
    ensures OpOk(Called(Changed(s, s.ops[t].h, x), t, after), t)
  {
    SelfHolds(s, t, x, after);
    hide Changed, HoldsRef, HoldsSlot, UsesParent, Applies, RefFacts, SlotFacts, Shape, Registered;
  }

  lemma SelfHolds(s: State, t: nat, x: Change, after: Option<Op>)
    requires t in s.ops && Applies(s, s.ops[t].h, x) && Facts(s, t, x, after) && after.Some? && OpOk(s, t)
    ensures var s', a := Changed(s, s.ops[t].h, x), after.value;
      && (HoldsRef(a) ==> a.h in s'.allocs)
      && (HoldsSlot(a) ==> a.h in s'.allocs && a.id in s'.allocs[a.h].slots && Taken(s'.allocs[a.h].slots[a.id], a, t))
      && (a.pc == FreeAlloc ==> a.h in s'.allocs && s'.allocs[a.h].kref == 0) && a.pc != EraseLive
  {
    var o, a := s.ops[t], after.value;
    ChangedAllocs(s, o.h, x, a.h);
    SlotNeedsRef(a);
    hide Changed, Shape, HoldsRef, HoldsSlot, UsesParent, Applies, SameSlot, Registered;
  }

  /** A slot entry of a step's own call stays its own until it is published or cleared. */
  lemma OwnSlotKept(s: State, t: nat, x: Change, after: Option<Op>)
    requires t in s.ops && Applies(s, s.ops[t].h, x) && Facts(s, t, x, after) && HoldsSlot(s.ops[t])
    ensures var o := s.ops[t];
      || (after.Some? && HoldsSlot(after.value) && after.value.id == o.id && after.value.h == o.h && after.value.call == o.call
          && (o.call.SaFork? ==> after.value.desc == o.desc && after.value.held == o.held))
      || x == ClearSlot(o.id) || x == SetSlot(o.id, Live(t, o.held, o.desc))
  {
    AtEnd(s.ops[t]);
    hide Shape, HoldsRef, HoldsSlot, UsesParent, Applies;
  }

  /** Slots that are not live still belong to their calls. */
  lemma SlotsKept(s: State, t: nat, x: Change, after: Option<Op>, h: nat, id: nat)
    requires t in s.ops && Applies(s, s.ops[t].h, x) && Facts(s, t, x, after) && OpOk(s, t) && SlotsOk(s)
    requires h in Changed(s, s.ops[t].h, x).allocs && id in Changed(s, s.ops[t].h, x).allocs[h].slots
    ensures SlotOk(Called(Changed(s, s.ops[t].h, x), t, after), h, id)
  {
    ChangedAllocs(s, s.ops[t].h, x, h);
    if h == s.ops[t].h && x.SetSlot? && x.at == id {
      NewSlotOk(s, t, x, after);
    } else {
      assert SlotOk(s, h, id);
      hide *;
      OldSlotOk(s, t, x, after, h, id);
    }
  }

  lemma OldSlotOk(s: State, t: nat, x: Change, after: Option<Op>, h: nat, id: nat)
    requires t in s.ops && Applies(s, s.ops[t].h, x) && Facts(s, t, x, after) && SlotOk(s, h, id)
    requires h in Changed(s, s.ops[t].h, x).allocs && id in Changed(s, s.ops[t].h, x).allocs[h].slots
    requires !(h == s.ops[t].h && x.SetSlot? && x.at == id)
    ensures SlotOk(Called(Changed(s, s.ops[t].h, x), t, after), h, id)
  {
    var o := s.ops[t];
    var s' := Called(Changed(s, o.h, x), t, after);
    ChangedAllocs(s, o.h, x, h);
    assert s'.allocs == Changed(s, o.h, x).allocs && s'.ops == Called(s, t, after).ops;
    if HoldsSlot(o) { OwnSlotKept(s, t, x, after); }
    hide Changed, Called, Shape, HoldsRef, HoldsSlot, UsesParent, Applies, Facts, SlotOk;
    StillTaken(s, s', t, after, h, id);
  }

  lemma StillTaken(s: State, s': State, t: nat, after: Option<Op>, h: nat, id: nat)
    requires SlotOk(s, h, id) && h in s'.allocs && id in s'.allocs[h].slots && s'.allocs[h].slots[id] == s.allocs[h].slots[id]
    requires s'.ops == Called(s, t, after).ops
    requires t in s.ops && HoldsSlot(s.ops[t]) && s.ops[t].h == h && s.ops[t].id == id ==>
      (after.Some? && HoldsSlot(after.value) && after.value.id == id && after.value.h == h && after.value.call == s.ops[t].call
       && (s.ops[t].call.SaFork? ==> after.value.desc == s.ops[t].desc && after.value.held == s.ops[t].held))
    ensures SlotOk(s', h, id)
  {
    hide HoldsSlot;
  }

  lemma NewSlotOk(s: State, t: nat, x: Change, after: Option<Op>)
    requires t in s.ops && Applies(s, s.ops[t].h, x) && Facts(s, t, x, after) && OpOk(s, t) && SlotsOk(s) && x.SetSlot?
    ensures SlotOk(Called(Changed(s, s.ops[t].h, x), t, after), s.ops[t].h, x.at)
  {
    var o := s.ops[t];
    ChangedAllocs(s, o.h, x, o.h);
    if after.None? { assert SlotOk(s, o.h, o.id); }
    hide Changed, Shape, HoldsRef, HoldsSlot, UsesParent, Applies, SlotsOk;
  }

  // ---------------------------------------------------------------- every step keeps the counts

  /** Who stops holding a reference on the call's allocator at a step. */
  function Leaving(o: Op, t: nat): set<Holder> {
    if o.pc == Publish || o.pc == PutRef then {CallOf(t)} else if o.pc == EraseLive then {SlotOf(o.id)} else {}
  }

  /** And who starts. */
  function Joining(o: Op, t: nat, x: Change): set<Holder> {
    if o.pc == Publish then {SlotOf(o.id)} else if o.pc == EraseLive || x.AddRef? then {CallOf(t)} else {}
  }

  lemma HolderMoves(s: State, t: nat, x: Change, after: Option<Op>, y: Holder)
    requires t in s.ops && Applies(s, s.ops[t].h, x) && Facts(s, t, x, after) && OpOk(s, t)
    requires var s' := Called(Changed(s, s.ops[t].h, x), t, after); s.ops[t].h in s'.allocs && s.ops[t].h in s.allocs
    ensures var o := s.ops[t]; var s' := Called(Changed(s, o.h, x), t, after);
      Holds(s', o.h, y) <==> (Holds(s, o.h, y) && y !in Leaving(o, t)) || y in Joining(o, t, x)
  {
    var o := s.ops[t];
    ChangedAllocs(s, o.h, x, o.h);
    if y.SlotOf? { LiveAfter(s, t, x, after, y.id); }
    if y == CallOf(t) { RefAfter(s, t, x, after); }
    hide Changed, HoldsSlot, HoldsRef, Applies, Facts, SlotsAfter, OpOk;
  }

  predicate LiveIn(slots: map<nat, Slot>, id: nat) {
    id in slots && slots[id].Live?
  }

  lemma LiveAfter(s: State, t: nat, x: Change, after: Option<Op>, id: nat)
    requires t in s.ops && Applies(s, s.ops[t].h, x) && Facts(s, t, x, after) && OpOk(s, t) && s.ops[t].h in s.allocs
    ensures var o, slots := s.ops[t], s.allocs[s.ops[t].h].slots;
      LiveIn(SlotsAfter(slots, x), id) <==> (LiveIn(slots, id) && SlotOf(id) !in Leaving(o, t)) || SlotOf(id) in Joining(o, t, x)
  {
    hide HoldsSlot, HoldsRef, UsesParent, Shape;
  }

  lemma RefAfter(s: State, t: nat, x: Change, after: Option<Op>)
    requires t in s.ops && Applies(s, s.ops[t].h, x) && Facts(s, t, x, after) && OpOk(s, t)
    ensures var o := s.ops[t];
      (after.Some? && HoldsRef(after.value)) <==> (HoldsRef(o) && CallOf(t) !in Leaving(o, t)) || CallOf(t) in Joining(o, t, x)
    ensures after.Some? ==> after.value.h == s.ops[t].h
  {
    hide HoldsSlot, UsesParent, SlotFacts, Applies;
  }

  lemma HoldersMove(s: State, t: nat, x: Change, after: Option<Op>)
    requires t in s.ops && Applies(s, s.ops[t].h, x) && Facts(s, t, x, after) && OpOk(s, t)
    requires var s' := Called(Changed(s, s.ops[t].h, x), t, after); s.ops[t].h in s'.allocs && s.ops[t].h in s.allocs
    ensures var o := s.ops[t]; var s' := Called(Changed(s, o.h, x), t, after);
      Holders(s', o.h) == Holders(s, o.h) - Leaving(o, t) + Joining(o, t, x)
  {
    var o := s.ops[t];
    var s' := Called(Changed(s, o.h, x), t, after);
    var now := Holders(s', o.h);
    var moved := Holders(s, o.h) - Leaving(o, t) + Joining(o, t, x);
    hide Changed, Called, HoldsSlot, HoldsRef, Shape, Applies, Facts, OpOk, Holds;
    forall y
      ensures y in now <==> y in moved
    {
      HolderMoves(s, t, x, after, y);
    }
  }

  /** The allocators of others: nobody joins or leaves. */
  lemma OthersCount(s: State, t: nat, x: Change, after: Option<Op>, g: nat)
    requires t in s.ops && Applies(s, s.ops[t].h, x) && g != s.ops[t].h && g in s.allocs && g in Changed(s, s.ops[t].h, x).allocs
    requires after.Some? ==> after.value.h == s.ops[t].h
    ensures Holders(Called(Changed(s, s.ops[t].h, x), t, after), g) == Holders(s, g)
  {
    ChangedAllocs(s, s.ops[t].h, x, g);
    hide Changed, HoldsRef, Applies;
  }

  lemma LeavingHolds(s: State, t: nat, x: Change, after: Option<Op>)
    requires t in s.ops && Applies(s, s.ops[t].h, x) && Facts(s, t, x, after) && OpOk(s, t) && s.ops[t].h in s.allocs
    ensures Leaving(s.ops[t], t) <= Holders(s, s.ops[t].h) && Joining(s.ops[t], t, x) !! Holders(s, s.ops[t].h)
    ensures (s.ops[t].pc == PutRef <==> x.DropRef?) && (x.AddRef? ==> s.ops[t].pc == GetRef)
  {
    hide UsesParent, Applies;
  }

  lemma Cardinalities<T>(xs: set<T>, less: set<T>, more: set<T>)
    requires less <= xs && more !! xs
    ensures |xs - less + more| == |xs| - |less| + |more|
  {
    assert xs == (xs - less) + less;
    assert |xs| == |xs - less| + |less|;
    assert |xs - less + more| == |xs - less| + |more|;
  }

  lemma MoveSizes(o: Op, t: nat, x: Change)
    requires x.AddRef? ==> o.pc == GetRef
    ensures |Joining(o, t, x)| == |Leaving(o, t)| + (if x.AddRef? then 1 else 0) - if o.pc == PutRef then 1 else 0
  {
  }

  /** The count moves with the holders. */
  lemma OwnCount(s: State, t: nat, x: Change, after: Option<Op>)
    requires t in s.ops && Applies(s, s.ops[t].h, x) && Facts(s, t, x, after) && OpOk(s, t)
    requires s.ops[t].h in s.allocs && RefsOk(s, s.ops[t].h) && s.ops[t].h in Changed(s, s.ops[t].h, x).allocs
    ensures RefsOk(Called(Changed(s, s.ops[t].h, x), t, after), s.ops[t].h)
  {
    var o := s.ops[t];
    var s' := Called(Changed(s, o.h, x), t, after);
    ChangedAllocs(s, o.h, x, o.h);
    LeavingHolds(s, t, x, after);
    assert s'.allocs[o.h].kref == s.allocs[o.h].kref + (if x.AddRef? then 1 else 0) - if x.DropRef? then 1 else 0;
    assert s.allocs[o.h].kref == |Holders(s, o.h)|;
    hide *;
    HoldersMove(s, t, x, after);
    Cardinalities(Holders(s, o.h), Leaving(o, t), Joining(o, t, x));
    MoveSizes(o, t, x);
    CountIs(s', o.h);
  }

  lemma CountIs(s: State, h: nat)
    requires h in s.allocs
    ensures RefsOk(s, h) <==> s.allocs[h].kref == |Holders(s, h)|
  {
    hide Holders;
  }

  lemma CountKept(s: State, t: nat, x: Change, after: Option<Op>, g: nat)
    requires t in s.ops && Applies(s, s.ops[t].h, x) && Facts(s, t, x, after) && OpOk(s, t)
    requires g in s.allocs && RefsOk(s, g) && g in Changed(s, s.ops[t].h, x).allocs
    ensures RefsOk(Called(Changed(s, s.ops[t].h, x), t, after), g)
  {
    if g == s.ops[t].h {
      OwnCount(s, t, x, after);
    } else {
      ChangedAllocs(s, s.ops[t].h, x, g);
      RefAfter(s, t, x, after);
      OthersCount(s, t, x, after, g);
      hide Changed, HoldsSlot, HoldsRef, Shape, Applies, Facts, OpOk, Holders;
    }
  }

  // ---------------------------------------------------------------- every run

  lemma AdvanceKeeps(s: State, t: nat, c: Choice)
    requires Lifetimes(s) && CanAdvance(s, t, c)
    ensures Lifetimes(Advanced(s, t, c))
  {
    assert OpOk(s, t);
    hide Safe, Possible, ChangeOf, After, Facts, Changed, OpOk, RegistryOk, OpsOk, SlotsOk, FreesOk, CountsOk, Applies;
    FactsHold(s, t, c);
    var o, x, after, s' := s.ops[t], ChangeOf(s, t, c), After(s, t, c), Advanced(s, t, c);
    assert s' == Called(Changed(s, o.h, x), t, after);
    hide *;
    AdvanceKeepsOps(s, s', t, x, after);
    AdvanceKeepsRest(s, s', t, x, after);
    LifetimeParts(s');
  }

  lemma LifetimeParts(s: State)
    ensures RegistryOk(s) && OpsOk(s) && SlotsOk(s) && FreesOk(s) && CountsOk(s) <==> Lifetimes(s)
  {
    hide RegistryOk, OpsOk, SlotsOk, FreesOk, CountsOk;
  }

  lemma AdvanceKeepsOps(s: State, s': State, t: nat, x: Change, after: Option<Op>)
    requires Lifetimes(s) && t in s.ops && Applies(s, s.ops[t].h, x) && Facts(s, t, x, after)
    requires s' == Called(Changed(s, s.ops[t].h, x), t, after)
    ensures OpsOk(s') && FreesOk(s')
  {
    hide Facts, Changed, Applies, Lifetimes, OpOk, FreesOk;
    forall r | r in s'.ops
      ensures OpOk(s', r)
    {
      OpKept(s, s', t, x, after, r);
    }
    NotFreeingTwice(s, t, x, after);
    AdvanceKeepsFrees(s, s', t, after);
  }

  /** No call becomes the second to free a slot or an allocator. */
  lemma NotFreeingTwice(s: State, t: nat, x: Change, after: Option<Op>)
    requires t in s.ops && Applies(s, s.ops[t].h, x) && Facts(s, t, x, after)
    ensures after.Some? ==> after.value.pc != EraseLive
    ensures after.Some? && after.value.pc == FreeAlloc ==> after.value.h in s.allocs && s.allocs[after.value.h].kref == 1
  {
    hide SlotFacts, Shape, Applies, HoldsRef;
  }

  lemma AdvanceKeepsFrees(s: State, s': State, t: nat, after: Option<Op>)
    requires Lifetimes(s) && s'.ops == Called(s, t, after).ops && (after.Some? ==> after.value.pc != EraseLive)
    requires after.Some? && after.value.pc == FreeAlloc ==> after.value.h in s.allocs && s.allocs[after.value.h].kref == 1
    ensures FreesOk(s')
  {
    hide RegistryOk, SlotsOk, CountsOk;
    forall r, q | r in s'.ops && q in s'.ops
      ensures FreedOnce(s', r, q)
    {
      if r != t && q != t { assert FreedOnce(s, r, q); }
      if r in s.ops { assert OpOk(s, r); }
      if q in s.ops { assert OpOk(s, q); }
      hide OpsOk, Shape, HoldsRef, HoldsSlot, UsesParent, Registered;
    }
  }

  lemma OpKept(s: State, s': State, t: nat, x: Change, after: Option<Op>, r: nat)
    requires Lifetimes(s) && t in s.ops && Applies(s, s.ops[t].h, x) && Facts(s, t, x, after)
    requires s' == Called(Changed(s, s.ops[t].h, x), t, after)
    requires r in s'.ops
    ensures OpOk(s', r)
  {
    assert OpOk(s, t) && (r != t ==> OpOk(s, r) && FreedOnce(s, t, r)) && (s.ops[t].h in s.allocs ==> RefsOk(s, s.ops[t].h));
    assert r == t ==> after.Some?;
    hide Facts, Changed, Called, Applies, Lifetimes, OpOk, RefsOk, FreedOnce;
    if r == t {
      SelfOk(s, t, x, after);
    } else {
      OthersOk(s, t, x, after, r);
    }
  }

  lemma AdvanceKeepsRest(s: State, s': State, t: nat, x: Change, after: Option<Op>)
    requires Lifetimes(s) && t in s.ops && Applies(s, s.ops[t].h, x) && Facts(s, t, x, after)
    requires s' == Called(Changed(s, s.ops[t].h, x), t, after)
    ensures RegistryOk(s') && SlotsOk(s') && CountsOk(s')
  {
    hide *;
    AdvanceKeepsRegistry(s, s', t, x, after);
    AdvanceKeepsSlots(s, s', t, x, after);
    AdvanceKeepsCounts(s, s', t, x, after);
  }

  lemma AdvanceKeepsRegistry(s: State, s': State, t: nat, x: Change, after: Option<Op>)
    requires Lifetimes(s) && t in s.ops && Applies(s, s.ops[t].h, x) && Facts(s, t, x, after)
    requires s' == Called(Changed(s, s.ops[t].h, x), t, after)
    ensures RegistryOk(s')
  {
    var h := s.ops[t].h;
    UnregisteredAtLast(s, t, x, after);
    assert s'.allocs == Changed(s, h, x).allocs && s'.registry == s.registry;
    hide Facts, Changed, Called, Applies, SlotsOk, OpsOk, FreesOk, CountsOk, Registered, EntryOk;
    forall g | g in s'.registry
      ensures EntryOk(s', g)
    {
      assert EntryOk(s, g);
      StaysRegistered(s, s', h, x, g);
    }
  }

  lemma UnregisteredAtLast(s: State, t: nat, x: Change, after: Option<Op>)
    requires Lifetimes(s) && t in s.ops && Applies(s, s.ops[t].h, x) && Facts(s, t, x, after)
    ensures x.FreeAllocator? ==> s.ops[t].h in s.allocs && !Registered(s, s.ops[t].h)
  {
    hide Lifetimes, Facts, Applies, Registered;
    if x.FreeAllocator? {
      FreesAtFreeAlloc(s, t, x, after);
      DestroyedEmpty(s, t);
    }
  }

  lemma StaysRegistered(s: State, s': State, h: nat, x: Change, g: nat)
    requires Applies(s, h, x) && EntryOk(s, g) && s'.allocs == Changed(s, h, x).allocs && s'.registry == s.registry
    requires x.FreeAllocator? ==> h in s.allocs && !Registered(s, h)
    ensures EntryOk(s', g)
  {
    ChangedAllocs(s, h, x, s.registry[g]);
    hide Changed;
  }

  lemma AdvanceKeepsSlots(s: State, s': State, t: nat, x: Change, after: Option<Op>)
    requires Lifetimes(s) && t in s.ops && Applies(s, s.ops[t].h, x) && Facts(s, t, x, after)
    requires s' == Called(Changed(s, s.ops[t].h, x), t, after)
    ensures SlotsOk(s')
  {
    assert OpOk(s, t);
    assert s'.allocs == Changed(s, s.ops[t].h, x).allocs;
    hide Facts, Changed, Called, Applies, OpsOk, OpOk, RefsOk, FreesOk, CountsOk, RegistryOk, SlotOk;
    forall h, id | h in s'.allocs && id in s'.allocs[h].slots
      ensures SlotOk(s', h, id)
    {
      SlotsKept(s, t, x, after, h, id);
    }
  }

  lemma AdvanceKeepsCounts(s: State, s': State, t: nat, x: Change, after: Option<Op>)
    requires Lifetimes(s) && t in s.ops && Applies(s, s.ops[t].h, x) && Facts(s, t, x, after)
    requires s' == Called(Changed(s, s.ops[t].h, x), t, after)
    ensures CountsOk(s')
  {
    assert OpOk(s, t);
    assert s'.allocs == Changed(s, s.ops[t].h, x).allocs;
    hide Facts, Changed, Called, Applies, OpsOk, OpOk, RefsOk, FreesOk, RegistryOk, SlotsOk;
    forall g | g in s'.allocs
      ensures RefsOk(s', g)
    {
      ChangedAllocs(s, s.ops[t].h, x, g);
      assert RefsOk(s, g);
      CountKept(s, t, x, after, g);
    }
  }

  // ---------------------------------------------------------------- calls that start

  /** A call starts: it has looked up what it needs and changed nothing but, in alloc_destroy, the registry. */
  ghost predicate Starts(s: State, s': State, t: nat, o: Op) {
    && t !in s.ops && s'.ops == s.ops[t := o] && s'.allocs == s.allocs
    && (forall g :: g in s'.registry ==> g in s.registry && s'.registry[g] == s.registry[g])
  }

  lemma StartKeepsOp(s: State, s': State, t: nat, o: Op, r: nat)
    requires Starts(s, s', t, o) && r in s.ops && OpOk(s, r)
    ensures OpOk(s', r)
  {
    hide Shape, HoldsRef, HoldsSlot, UsesParent, Registered;
  }

  lemma StartKeepsSlot(s: State, s': State, t: nat, o: Op, h: nat, id: nat)
    requires Starts(s, s', t, o) && SlotOk(s, h, id)
    ensures SlotOk(s', h, id)
  {
    hide HoldsSlot;
  }

  predicate Leaves(s: State, s': State, g: nat) {
    g in s.allocs && g in s'.allocs && Registered(s, g) && !Registered(s', g)
  }

  predicate Enters(o: Op, g: nat) {
    HoldsRef(o) && o.h == g
  }

  lemma StartHolds(s: State, s': State, t: nat, o: Op, g: nat, y: Holder)
    requires Starts(s, s', t, o) && g in s.allocs && RegistryOk(s)
    ensures Holds(s', g, y) <==> (Holds(s, g, y) && (y == Registry ==> Registered(s', g))) || (y == CallOf(t) && Enters(o, g))
  {
    hide HoldsRef, RegistryOk;
  }

  lemma StartMoves(s: State, s': State, t: nat, o: Op, g: nat)
    requires Starts(s, s', t, o) && g in s.allocs && RegistryOk(s) && (Leaves(s, s', g) <==> Enters(o, g))
    ensures Holders(s', g) == Holders(s, g) - (if Leaves(s, s', g) then {Registry} else {}) + (if Enters(o, g) then {CallOf(t)} else {})
  {
    var was, now := Holders(s, g), Holders(s', g);
    var less := if Leaves(s, s', g) then {Registry} else {};
    var more := if Enters(o, g) then {CallOf(t)} else {};
    forall y
      ensures y in now <==> y in was - less + more
    {
      StartHolds(s, s', t, o, g, y);
      hide Starts, RegistryOk, Registered, HoldsRef;
    }
  }

  lemma StartBounds(s: State, s': State, t: nat, g: nat)
    requires t !in s.ops && g in s.allocs
    ensures Leaves(s, s', g) ==> Registry in Holders(s, g)
    ensures CallOf(t) !in Holders(s, g)
  {
    hide HoldsRef, Registered;
  }

  lemma StartKeepsCount(s: State, s': State, t: nat, o: Op, g: nat)
    requires Starts(s, s', t, o) && RegistryOk(s) && RefsOk(s, g) && (Leaves(s, s', g) <==> Enters(o, g))
    ensures RefsOk(s', g)
  {
    assert t !in s.ops && s'.allocs == s.allocs;
    var was := Holders(s, g);
    assert g in s.allocs && s.allocs[g].kref == |was|;
    hide *;
    var less := if Leaves(s, s', g) then {Registry} else {};
    var more := if Enters(o, g) then {CallOf(t)} else {};
    StartMoves(s, s', t, o, g);
    StartBounds(s, s', t, g);
    Cardinalities(was, less, more);
    CountIs(s', g);
  }

  /** What starting a call must respect for the lifetimes to stay as they are. */
  ghost predicate FairStart(s: State, s': State, t: nat, o: Op) {
    && Starts(s, s', t, o) && OpOk(s', t) && !HoldsSlot(o)
    && (forall g :: g in s.allocs ==> (Leaves(s, s', g) <==> Enters(o, g)))
    && (forall r :: r in s.ops ==> FreedOnce(s', t, r) && FreedOnce(s', r, t))
  }

  lemma StartKeeps(s: State, s': State, t: nat, o: Op)
    requires Lifetimes(s) && FairStart(s, s', t, o)
    ensures Lifetimes(s')
  {
    hide OpOk, SlotOk, RefsOk, EntryOk, FreedOnce, HoldsSlot, Leaves, Enters;
    forall r | r in s'.ops ensures OpOk(s', r) {
      if r != t { assert OpOk(s, r); StartKeepsOp(s, s', t, o, r); }
    }
    forall r, q | r in s'.ops && q in s'.ops ensures FreedOnce(s', r, q) {
      if r != t && q != t { assert FreedOnce(s, r, q); FreedOnceStill(s, s', t, o, r, q); }
      if r == t && q == t { FreedOnceSelf(s', t); }
    }
    StartKeepsTables(s, s', t, o);
  }

  lemma FreedOnceSelf(s: State, t: nat)
    requires t in s.ops
    ensures FreedOnce(s, t, t)
  {
  }

  lemma FreedOnceStill(s: State, s': State, t: nat, o: Op, r: nat, q: nat)
    requires Starts(s, s', t, o) && r in s.ops && q in s.ops && FreedOnce(s, r, q)
    ensures r in s'.ops && q in s'.ops && FreedOnce(s', r, q)
  {
  }

  lemma StartKeepsTables(s: State, s': State, t: nat, o: Op)
    requires Lifetimes(s) && FairStart(s, s', t, o)
    ensures RegistryOk(s') && SlotsOk(s') && CountsOk(s')
  {
    hide OpOk, SlotOk, RefsOk, EntryOk, FreedOnce, HoldsSlot, OpsOk, FreesOk, Leaves, Enters;
    forall g | g in s'.registry ensures EntryOk(s', g) {
      assert EntryOk(s, g);
      StartKeepsEntry(s, s', t, o, g);
    }
    forall h, id | h in s'.allocs && id in s'.allocs[h].slots ensures SlotOk(s', h, id) {
      assert SlotOk(s, h, id);
      StartKeepsSlot(s, s', t, o, h, id);
    }
    forall g | g in s'.allocs ensures RefsOk(s', g) {
      assert RefsOk(s, g);
      StartKeepsCount(s, s', t, o, g);
    }
  }

  lemma StartKeepsEntry(s: State, s': State, t: nat, o: Op, g: nat)
    requires Starts(s, s', t, o) && EntryOk(s, g) && g in s'.registry
    ensures EntryOk(s', g)
  {
  }

  predicate IsStart(a: Action) {
    a.Alloc? || a.Fork? || a.Free? || a.Destroy? || a.FreeAll?
  }

  function StarterOf(a: Action): nat
    requires IsStart(a)
  {
    match a
    case Alloc(t, _) => t
    case Fork(t, _, _, _) => t
    case Free(t, _, _) => t
    case Destroy(t, _) => t
    case FreeAll(t) => t
  }

  lemma StartIsFair(s: State, a: Action)
    requires Lifetimes(s) && Enabled(s, a) && IsStart(a)
    ensures var t := StarterOf(a); t in Next(s, a).ops && FairStart(s, Next(s, a), t, Next(s, a).ops[t])
  {
    var t, s' := StarterOf(a), Next(s, a);
    StartStarts(s, a);
    var o := s'.ops[t];
    StartRefs(s, a);
    hide *;
    StartOpOk(s, a);
    forall r | r in s.ops ensures FreedOnce(s', t, r) && FreedOnce(s', r, t) {
      StartSparesSlot(s, a, r);
    }
    FairParts(s, s', t, o);
  }

  lemma FairParts(s: State, s': State, t: nat, o: Op)
    requires Starts(s, s', t, o) && OpOk(s', t) && !HoldsSlot(o)
    requires forall g :: g in s.allocs ==> (Leaves(s, s', g) <==> Enters(o, g))
    requires forall r :: r in s.ops ==> FreedOnce(s', t, r) && FreedOnce(s', r, t)
    ensures FairStart(s, s', t, o)
  {
    hide OpOk, Starts, HoldsSlot, Leaves, Enters, FreedOnce;
  }

  lemma StartStarts(s: State, a: Action)
    requires Enabled(s, a) && IsStart(a)
    ensures var t := StarterOf(a); t in Next(s, a).ops && Starts(s, Next(s, a), t, Next(s, a).ops[t]) && !HoldsSlot(Next(s, a).ops[t])
  {
  }

  /** Only alloc_destroy takes a reference at once: the registry's. */
  lemma StartRefs(s: State, a: Action)
    requires Lifetimes(s) && Enabled(s, a) && IsStart(a) && StarterOf(a) in Next(s, a).ops
    ensures forall g :: g in s.allocs ==> (Leaves(s, Next(s, a), g) <==> Enters(Next(s, a).ops[StarterOf(a)], g))
  {
    hide OpsOk, SlotsOk, FreesOk, CountsOk, RegistryOk;
  }

  lemma StartOpOk(s: State, a: Action)
    requires Enabled(s, a) && IsStart(a)
    ensures OpOk(Next(s, a), StarterOf(a))
  {
  }

  lemma StartSparesSlot(s: State, a: Action, r: nat)
    requires Enabled(s, a) && IsStart(a) && r in s.ops && StarterOf(a) in Next(s, a).ops
    ensures r in Next(s, a).ops && FreedOnce(Next(s, a), StarterOf(a), r) && FreedOnce(Next(s, a), r, StarterOf(a))
  {
    hide UsesParent, ValidAddress, AddrToId;
  }

  // ---------------------------------------------------------------- every run

  /** Nothing is lost between two states, and no call moves. */
  ghost predicate Grows(s: State, s': State) {
    && s'.ops == s.ops && (forall g :: g in s.allocs ==> g in s'.allocs && s'.allocs[g] == s.allocs[g])
    && (forall g :: g in s.registry ==> g in s'.registry && s'.registry[g] == s.registry[g])
  }

  lemma GrowOp(s: State, s': State, r: nat)
    requires Grows(s, s') && OpOk(s, r)
    ensures OpOk(s', r)
  {
    hide Shape, HoldsRef, HoldsSlot, UsesParent;
  }

  lemma GrowSlot(s: State, s': State, h: nat, id: nat)
    requires Grows(s, s') && SlotOk(s, h, id)
    ensures SlotOk(s', h, id)
  {
    hide HoldsSlot;
  }

  lemma GrowCount(s: State, s': State, g: nat)
    requires Grows(s, s') && RefsOk(s, g) && (g in s'.allocs && Registered(s', g) ==> Registered(s, g))
    ensures RefsOk(s', g)
  {
    hide HoldsRef;
    assert Registered(s, g) ==> Registered(s', g);
    assert Holders(s', g) == Holders(s, g);
  }

  lemma GrowKeeps(s: State, s': State)
    requires Lifetimes(s) && Grows(s, s') && RegistryOk(s')
    requires forall g :: g in s'.allocs && g !in s.allocs ==> s'.allocs[g].slots == map[] && RefsOk(s', g)
    requires forall g :: g in s.allocs && Registered(s', g) ==> Registered(s, g)
    ensures Lifetimes(s')
  {
    hide OpOk, SlotOk, RefsOk, EntryOk, Registered;
    forall r | r in s'.ops ensures OpOk(s', r) {
      assert OpOk(s, r);
      GrowOp(s, s', r);
    }
    forall h, id | h in s'.allocs && id in s'.allocs[h].slots ensures SlotOk(s', h, id) {
      assert SlotOk(s, h, id);
      GrowSlot(s, s', h, id);
    }
    forall g | g in s'.allocs ensures RefsOk(s', g) {
      if g in s.allocs { assert RefsOk(s, g); GrowCount(s, s', g); }
    }
    hide Grows;
    forall r, q | r in s'.ops && q in s'.ops ensures FreedOnce(s', r, q) {
      assert FreedOnce(s, r, q);
    }
  }

  lemma CreateKeeps(s: State, a: Action)
    requires Lifetimes(s) && Enabled(s, a) && a.Create?
    ensures Lifetimes(Next(s, a))
  {
    var s', h := Next(s, a), a.handle;
    LifetimeParts(s);
    NewAllocator(s, a);
    CreateGrows(s, a);
    assert s'.allocs[h].slots == map[] && forall g :: g in s'.allocs ==> g == h || g in s.allocs;
    forall g | g in s.allocs && Registered(s', g) ensures Registered(s, g) {
      CreateRegisters(s, a, g);
    }
    hide *;
    GrowKeeps(s, s');
  }

  lemma CreateGrows(s: State, a: Action)
    requires RegistryOk(s) && Enabled(s, a) && a.Create?
    ensures Grows(s, Next(s, a)) && RegistryOk(Next(s, a))
  {
    var s' := Next(s, a);
    forall g | g in s'.registry ensures EntryOk(s', g) {
      if g in s.registry { assert EntryOk(s, g); }
      hide RegistryOk;
    }
  }

  lemma CreateRegisters(s: State, a: Action, g: nat)
    requires Enabled(s, a) && a.Create? && g in s.allocs && g in Next(s, a).allocs && Registered(Next(s, a), g)
    ensures Registered(s, g)
  {
  }

  lemma StoreKeeps(s: State, s': State)
    requires Lifetimes(s) && s'.registry == s.registry && s'.allocs == s.allocs && s'.ops == s.ops
    ensures Lifetimes(s')
  {
    hide OpsOk, SlotsOk, FreesOk, CountsOk;
    forall g | g in s'.registry ensures EntryOk(s', g) {
      assert EntryOk(s, g);
    }
    GrowKeeps(s, s');
  }

  /** A new allocator is held by the registry alone. */
  lemma NewAllocator(s: State, a: Action)
    requires OpsOk(s) && Enabled(s, a) && a.Create?
    ensures RefsOk(Next(s, a), a.handle)
  {
    var s', h := Next(s, a), a.handle;
    forall r | r in s'.ops && HoldsRef(s'.ops[r]) ensures s'.ops[r].h != h {
      assert OpOk(s, r);
      hide Shape, HoldsRef, HoldsSlot, UsesParent, Registered;
    }
    hide HoldsRef, OpsOk, OpOk;
    assert Holders(s', h) == {Registry};
  }

  /** kref is the number of holders in every reachable state: the registry, the live slots, and the calls in progress. */
  lemma {:induction false} LifetimesHold(s: State, actions: seq<Action>)
    requires Lifetimes(s) && CanRun(s, actions)
    ensures Lifetimes(Run(s, actions))
    decreases |actions|
  {
    hide Lifetimes, Enabled, Next;
    if actions != [] {
      StepKeeps(s, actions[0]);
      LifetimesHold(Next(s, actions[0]), actions[1..]);
    }
  }

  lemma StepKeeps(s: State, a: Action)
    requires Lifetimes(s) && Enabled(s, a)
    ensures Lifetimes(Next(s, a))
  {
    hide Lifetimes, CanAdvance;
    match a
    case Create(_, _, _, _) => CreateKeeps(s, a);
    case Advance(t, c) => AdvanceKeeps(s, t, c);
    case Store(_, _, _, _) => StoreKeeps(s, Next(s, a));
    case _ =>
      StartIsFair(s, a);
      StartKeeps(s, Next(s, a), StarterOf(a), Next(s, a).ops[StarterOf(a)]);
  }

  // ---------------------------------------------------------------- from the start

  lemma StartsEmpty()
    ensures Lifetimes(Initial())
  {
  }

  function LiveSlots(s: State, h: nat): set<nat>
    requires h in s.allocs
  {
    set id | id in s.allocs[h].slots && s.allocs[h].slots[id].Live?
  }

  function CallsOn(s: State, h: nat): set<nat> {
    set t | t in s.ops && s.ops[t].h == h && HoldsRef(s.ops[t])
  }

  lemma {:induction false} Renamed(xs: set<nat>)
    ensures |Slots(xs)| == |xs| && |Calls(xs)| == |xs|
    decreases |xs|
  {
    if xs != {} {
      var x :| x in xs;
      Renamed(xs - {x});
      assert Slots(xs) == Slots(xs - {x}) + {SlotOf(x)};
      assert Calls(xs) == Calls(xs - {x}) + {CallOf(x)};
    }
  }

  function RegistryHolder(s: State, h: nat): set<Holder>
    requires h in s.allocs
  {
    if Registered(s, h) then {Registry} else {}
  }

  function Slots(ids: set<nat>): set<Holder> {
    set id | id in ids :: SlotOf(id)
  }

  function Calls(ts: set<nat>): set<Holder> {
    set t | t in ts :: CallOf(t)
  }

  lemma HoldersSplit(s: State, h: nat)
    requires h in s.allocs
    ensures Holders(s, h) == RegistryHolder(s, h) + Slots(LiveSlots(s, h)) + Calls(CallsOn(s, h))
    ensures RegistryHolder(s, h) !! Slots(LiveSlots(s, h)) !! Calls(CallsOn(s, h))
  {
    hide HoldsRef, Registered;
  }

  lemma HoldersCounted(s: State, h: nat)
    requires h in s.allocs
    ensures |Holders(s, h)| == (if Registered(s, h) then 1 else 0) + |LiveSlots(s, h)| + |CallsOn(s, h)|
  {
    assert |RegistryHolder(s, h)| == if Registered(s, h) then 1 else 0;
    hide *;
    HoldersSplit(s, h);
    Renamed(LiveSlots(s, h));
    Renamed(CallsOn(s, h));
  }

  /**
    The reference count is one for being registered, one for each live slot, and one for each
    call in progress that has taken a reference, after any run at all; and the destroy callback
    runs, if it does, on an empty slot table.
   */
  lemma ReferenceCounts(actions: seq<Action>)
    requires CanRun(Initial(), actions)
    ensures var s := Run(Initial(), actions);
      && (forall h :: h in s.allocs ==>
            s.allocs[h].kref == (if Registered(s, h) then 1 else 0) + |LiveSlots(s, h)| + |CallsOn(s, h)|)
      && (forall t :: t in s.ops && s.ops[t].pc == FreeAlloc ==>
            s.ops[t].h in s.allocs && s.allocs[s.ops[t].h].slots == map[])
  {
    StartsEmpty();
    var s := Run(Initial(), actions);
    hide Run, CanRun, Initial, OpsOk, SlotsOk, RegistryOk, FreesOk, Registered, Holders;
    LifetimesHold(Initial(), actions);
    forall h | h in s.allocs
      ensures s.allocs[h].kref == (if Registered(s, h) then 1 else 0) + |LiveSlots(s, h)| + |CallsOn(s, h)|
    {
      assert RefsOk(s, h);
      HoldersCounted(s, h);
    }
    forall t | t in s.ops && s.ops[t].pc == FreeAlloc
      ensures s.ops[t].h in s.allocs && s.allocs[s.ops[t].h].slots == map[]
    {
      DestroyedEmpty(s, t);
    }
  }
}
