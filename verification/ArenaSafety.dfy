/**
  When a run of the arena is left with a pointer to something freed: exactly when an allocator, a thread
  descriptor or a page list is freed while another call has a bare pointer to it that it may still follow.
 */
module ArenaSafety {
  import opened PageTables
  import opened Arena
  import opened ArenaReferences
  import opened ArenaOwnership
  import opened ArenaThreads
  import opened ArenaFreeList
  import opened ArenaTranslation
  import opened ArenaPages
  import opened ArenaRuns
  import opened Wrappers

  /** The list structures that the next step unlinks, links or splices. */
  predicate LinksThere(s: State, pc: Pc) {
    match pc
    case Unlinking => s.free != [] && Present(s, s.free[0]) && (|s.free| > 1 ==> Present(s, s.free[1]))
    case Linking => s.free != [] ==> Present(s, s.free[0])
    case Splice => s.free != [] ==> Present(s, s.free[0]) && Present(s, s.free[|s.free| - 1])
    case _ => true
  }

  /** The list a search copies from, or will once it has read the thread number it looks for. */
  predicate Follows(s: State, r: nat, l: nat) {
    r in s.ops && s.ops[r].call.SaFork? && match s.ops[r].pc
    case Examine(_, d, list) => list == l && d in s.threads && s.threads[d] == s.ops[r].call.parentPid
    case Copying(_, _, list, _) => list == l
    case _ => false
  }

  /** The pointers followed without holding anything: those alloc_find returned, and an entry of the table searched. */
  predicate Points(s: State, t: nat) {
    t in s.ops && var o := s.ops[t];
    && (o.pc == GetRef ==> o.h in s.allocs) && (UsesParent(o) ==> o.parent in s.allocs)
    && (o.pc.Examine? || o.pc.Copying? ==> o.pc.seen in s.threads && (Follows(s, t, o.pc.list) ==> o.pc.list in s.lists))
  }

  /** Everything thread t may touch at its next step, by reading or by writing, and all it points to for later, has not been freed. */
  predicate Intact(s: State, t: nat) {
    t in s.ops && var o := s.ops[t];
    && Safe(s, t) && LinksThere(s, o.pc) && (HoldsRef(o) ==> o.h in s.allocs) && Points(s, t)
    && (HoldsDesc(o) ==> o.desc in s.threads) && (HoldsList(o) ==> Present(s, o.held))
  }

  ghost predicate AllIntact(s: State) {
    forall t :: t in s.ops ==> Intact(s, t)
  }

  // ---------------------------------------------------------------- all the rest is owned

  lemma PresentIfOwned(s: State, at: Place, l: nat)
    requires OnePlace(s) && PagesOk(s) && Owns(s, at, l)
    ensures Present(s, l)
  {
    InLists(s, at, l);
    assert ListOk(s, l);
  }

  lemma CallListPresent(s: State, t: nat)
    requires OnePlace(s) && PagesOk(s) && t in s.ops
    ensures HoldsList(s.ops[t]) ==> Present(s, s.ops[t].held)
    ensures s.ops[t].spliced != [] ==> Present(s, s.ops[t].spliced[0])
  {
    hide OnePlace, PagesOk, HoldsList, Present;
    var o := s.ops[t];
    if HoldsList(o) { assert Owns(s, OnCall(t), o.held); PresentIfOwned(s, OnCall(t), o.held); }
    if o.spliced != [] { assert Owns(s, Spliced(t), o.spliced[0]); PresentIfOwned(s, Spliced(t), o.spliced[0]); }
  }

  lemma FreePresent(s: State, k: nat)
    requires OnePlace(s) && PagesOk(s) && k < |s.free|
    ensures Present(s, s.free[k])
  {
    hide OnePlace, PagesOk, Present;
    assert Owns(s, OnFreeList, s.free[k]);
    PresentIfOwned(s, OnFreeList, s.free[k]);
  }

  lemma LinksPresent(s: State, pc: Pc)
    requires OnePlace(s) && PagesOk(s) && (pc == Unlinking ==> s.free != [])
    ensures LinksThere(s, pc)
  {
    hide OnePlace, PagesOk, Present;
    if |s.free| > 0 { FreePresent(s, 0); FreePresent(s, |s.free| - 1); }
    if |s.free| > 1 { FreePresent(s, 1); }
  }

  /** Each access is covered by something the call holds, or goes through a pointer of these kinds. */
  lemma HoldsEnough(s: State, t: nat)
    requires OpOk(s, t) && Points(s, t) && SizeOk(s) && (Locked(s.ops[t].pc) ==> s.lock == Some(t))
    requires HoldsRef(s.ops[t]) ==> SpaceOk(s, s.ops[t].h) && s.allocs[s.ops[t].h].kref > 0
    requires HoldsList(s.ops[t]) ==> Present(s, s.ops[t].held)
    requires HoldsDesc(s.ops[t]) ==> s.ops[t].desc in s.threads
    requires s.ops[t].spliced != [] ==> Present(s, s.ops[t].spliced[0])
    requires s.ops[t].pc.Copying? ==> Present(s, s.ops[t].pc.list)
    ensures Safe(s, t)
  {
    var o := s.ops[t];
    OpParts(s, t);
    RefPoints(o);
    HoldPoints(o);
    if Reading(o.pc) { CopyingIsFork(o); }
    hide OpOk, Present, IsTable, HoldsSlot, HoldsRef, HoldsList, HoldsDesc, Shape, SizeOk, Locked, UsesParent, Follows;
    if Reading(o.pc) { SearchSafe(s, t); } else { RestSafe(s, t); }
  }

  lemma OpParts(s: State, t: nat)
    requires OpOk(s, t) && SizeOk(s) && (Locked(s.ops[t].pc) ==> s.lock == Some(t))
    ensures var o := s.ops[t];
      && Shape(o) && (o.pc == FreeAlloc ==> o.h in s.allocs) && (o.pc == Unlinking ==> s.free != [])
      && (o.pc == EraseLive ==> o.h in s.allocs && o.id in s.allocs[o.h].slots && s.allocs[o.h].slots[o.id].Live?)
  {
    hide Shape, HoldsRef, HoldsSlot, UsesParent;
  }

  lemma SearchSafe(s: State, t: nat)
    requires t in s.ops && Reading(s.ops[t].pc) && s.ops[t].call.SaFork? && s.ops[t].parent in s.allocs
    requires var pc := s.ops[t].pc; (pc.Examine? || pc.Copying? ==> pc.seen in s.threads) && (pc.Copying? ==> Present(s, pc.list) && Present(s, s.ops[t].held))
    ensures Safe(s, t)
  {
    hide Present;
  }

  lemma RestSafe(s: State, t: nat)
    requires t in s.ops && !Reading(s.ops[t].pc)
    requires var o := s.ops[t];
      && (o.pc == PickId || o.pc == Insert || o.pc == Publish || o.pc == EraseSlot || o.pc == MapWindow || o.pc == PutRef ==>
            SpaceOk(s, o.h) && s.allocs[o.h].kref > 0)
      && (o.pc == GetRef || o.pc == FreeAlloc ==> o.h in s.allocs) && (o.pc == Unlinking ==> s.free != [])
      && (o.pc == EraseLive ==> o.h in s.allocs && o.id in s.allocs[o.h].slots && s.allocs[o.h].slots[o.id].Live?)
      && (o.pc == MapWindow || o.pc == CheckSize || o.pc.Clearing? ==> Present(s, o.held))
      && (o.pc == FreeThread ==> o.desc in s.threads) && (o.spliced != [] ==> Present(s, o.spliced[0]))
    ensures Safe(s, t)
  {
    hide Present, IsTable;
  }

  /** Which points need the reference, and which the list or the descriptor. */
  lemma RefPoints(o: Op)
    ensures Shape(o) && (o.pc == PickId || o.pc == Insert || o.pc == Publish || o.pc == EraseSlot || o.pc == MapWindow || o.pc == PutRef) ==> HoldsRef(o)
    ensures Shape(o) && Reading(o.pc) ==> UsesParent(o)
  {
  }

  lemma HoldPoints(o: Op)
    ensures o.pc == MapWindow || o.pc == CheckSize || o.pc.Clearing? || o.pc.Copying? ==> HoldsList(o)
    ensures o.pc == FreeThread ==> HoldsDesc(o)
  {
  }

  lemma SoundSpaces(s: State)
    requires Sound(s)
    ensures forall h :: h in s.allocs ==> SpaceOk(s, h)
  {
    hide OnePlace, Lifetimes, WindowsOk, NoRepeats, SpaceOk;
  }

  lemma LockParts(s: State, t: nat)
    requires LockOk(s) && t in s.ops
    ensures SizeOk(s) && (Locked(s.ops[t].pc) ==> s.lock == Some(t))
    ensures s.ops[t].pc == Unlinking ==> s.free != []
  {
  }

  lemma LifetimeOf(s: State, t: nat)
    requires Lifetimes(s) && t in s.ops
    ensures OpOk(s, t) && (HoldsRef(s.ops[t]) ==> s.ops[t].h in s.allocs && s.allocs[s.ops[t].h].kref > 0)
  {
    hide RegistryOk, SlotsOk, FreesOk, SlotOk;
    assert OpOk(s, t);
    if HoldsRef(s.ops[t]) {
      assert RefsOk(s, s.ops[t].h);
      if s.allocs[s.ops[t].h].kref == 0 { ZeroIsNobody(s, s.ops[t].h, CallOf(t)); }
    }
  }

  lemma DescThere(s: State, t: nat)
    requires DescsOk(s) && t in s.ops
    ensures HoldsDesc(s.ops[t]) ==> s.ops[t].desc in s.threads
  {
    hide DescsOk, HoldsDesc;
    if HoldsDesc(s.ops[t]) {
      assert Keeps(s, OnCall(t), s.ops[t].desc);
      KeptThere(s, OnCall(t), s.ops[t].desc);
    }
  }

  /** So in a reachable state only those pointers can dangle. */
  lemma OnlyPointersDangle(s: State, t: nat)
    requires Invariant(s) && t in s.ops
    ensures Intact(s, t) <==> Points(s, t)
  {
    assert Sound(s) && PagesOk(s) && LockOk(s) && DescsOk(s);
    hide *;
    SoundPlaces(s);
    SoundSpaces(s);
    LockParts(s, t);
    CallListPresent(s, t);
    LifetimeOf(s, t);
    DescThere(s, t);
    LinksPresent(s, s.ops[t].pc);
    if Points(s, t) {
      if s.ops[t].pc.Copying? { SourcePresent(s, t); }
      HoldsEnough(s, t);
    }
    IntactIs(s, t);
  }

  lemma SourcePresent(s: State, t: nat)
    requires PagesOk(s) && OpOk(s, t) && Points(s, t) && s.ops[t].pc.Copying?
    ensures Present(s, s.ops[t].pc.list)
  {
    CopyingIsFork(s.ops[t]);
    ListsAre(s, s.ops[t].pc.list);
    hide PagesOk, Present, Distinct, HoldsRef, HoldsSlot, UsesParent;
  }

  lemma CopyingIsFork(o: Op)
    ensures Shape(o) && Reading(o.pc) ==> o.call.SaFork? && UsesParent(o)
  {
  }

  lemma IntactIs(s: State, t: nat)
    requires t in s.ops && LinksThere(s, s.ops[t].pc) && (Points(s, t) ==> Safe(s, t))
    requires var o := s.ops[t];
      (HoldsRef(o) ==> o.h in s.allocs) && (HoldsDesc(o) ==> o.desc in s.threads) && (HoldsList(o) ==> Present(s, o.held))
    ensures Intact(s, t) <==> Points(s, t)
  {
    hide Safe, LinksThere, HoldsRef, HoldsDesc, HoldsList, Present, Points;
  }

  // ---------------------------------------------------------------- the exact condition

  /** The step of thread t gives list l back. */
  predicate Dropping(s: State, t: nat, l: nat)
    requires t in s.ops
  {
    var o := s.ops[t];
    (o.pc == CheckSize && s.size >= GL_SA_CAPACITY && o.held == l) || (o.pc == FreeRest && o.spliced != [] && o.spliced[0] == l)
  }

  /** What the step of thread t frees, the call of thread r does not point to. */
  predicate Spares(s: State, t: nat, r: nat)
    requires t in s.ops && r in s.ops
  {
    var o, u := s.ops[t], s.ops[r];
    && (o.pc == FreeAlloc ==> (u.pc == GetRef ==> u.h != o.h) && (UsesParent(u) ==> u.parent != o.h))
    && (o.pc == FreeThread && (u.pc.Examine? || u.pc.Copying?) ==> u.pc.seen != o.desc)
    && (forall l :: l in s.lists && Dropping(s, t, l) ==> !Follows(s, r, l))
  }

  /** Nobody frees what another call still points to without holding it. */
  predicate OrderlyStep(s: State, a: Action) {
    a.Advance? && a.t in s.ops ==> forall r :: r in s.ops ==> Spares(s, a.t, r)
  }

  /** What a step of a call can take away. */
  lemma FreesOnly(s: State, t: nat, c: Choice, h: nat, d: nat)
    requires CanAdvance(s, t, c)
    ensures var o, s' := s.ops[t], Advanced(s, t, c);
      && (h in s'.allocs <==> h in s.allocs && !(o.pc == FreeAlloc && o.h == h))
      && (d in s.threads ==> (d in s'.threads <==> !(o.pc == FreeThread && o.desc == d)) && (d in s'.threads ==> s'.threads[d] == s.threads[d]))
      && s'.ops == Called(s, t, After(s, t, c)).ops && s'.registry == s.registry
  {
    ThreadsAfter(s, t, c);
    AdvancedIs(s, t, c);
    ChangedAllocs(s, s.ops[t].h, ChangeOf(s, t, c), h);
    FreeAllocChange(s, t, c);
    hide *;
  }

  lemma DropsOnly(s: State, t: nat, c: Choice, l: nat)
    requires CanAdvance(s, t, c) && l in s.lists
    ensures l in Advanced(s, t, c).lists <==> !Dropping(s, t, l)
  {
    AdvancedIs(s, t, c);
    DropChange(s, t, c);
    ChangedRest(s, s.ops[t].h, ChangeOf(s, t, c));
    hide CanAdvance, Safe, Possible, ChangeOf, After, Advanced, Changed;
  }

  lemma DropChange(s: State, t: nat, c: Choice)
    requires t in s.ops && Safe(s, t)
    ensures forall l :: ChangeOf(s, t, c) == DropList(l) <==> Dropping(s, t, l)
  {
    hide Present;
  }

  lemma FreeAllocChange(s: State, t: nat, c: Choice)
    requires t in s.ops && Safe(s, t)
    ensures ChangeOf(s, t, c).FreeAllocator? <==> s.ops[t].pc == FreeAlloc
  {
  }

  /** The allocator to search is one looked up just now, or the same as before. */
  predicate ParentFrom(s: State, o: Op, a: Op) {
    if o.pc == FindParent then o.call.SaFork? && o.call.parentTgid in s.registry && s.registry[o.call.parentTgid] == a.parent
    else UsesParent(o) && a.parent == o.parent
  }

  /** The pointers a call picks up, and those it goes on with. */
  lemma SearchFinds(s: State, t: nat, c: Choice)
    requires CanAdvance(s, t, c) && Shape(s.ops[t])
    ensures var o, a := s.ops[t], After(s, t, c); a.Some? ==>
      && a.value.pc != GetRef && a.value.call == o.call
      && (UsesParent(a.value) ==> o.pc != FreeAlloc && ParentFrom(s, o, a.value))
  {
    AfterIs(s, t, c);
    ParentPcs(s, t, c);
    hide CanAdvance, Safe, Possible, After, PcAfter, UsesParent, Shape;
  }

  lemma ParentPcs(s: State, t: nat, c: Choice)
    requires t in s.ops && Safe(s, t) && Shape(s.ops[t])
    ensures var o, a := s.ops[t], After(s, t, c); a.Some? ==>
      && a.value.pc != GetRef
      && (UsesParent(a.value) ==> o.pc != FreeAlloc && ParentFrom(s, o, a.value))
  {
    hide Present, HoldsSlot, HoldsRef, HeldAfter, SplicedAfter;
  }

  /** Where a search is after a step, and where it was before. */
  lemma SearchPcs(s: State, t: nat, c: Choice)
    requires t in s.ops && Safe(s, t)
    ensures var o, a := s.ops[t], After(s, t, c); a.Some? && a.value.pc.Examine? ==>
      && o.pc.Scan? && o.parent in s.allocs && a.value.pc.at in s.allocs[o.parent].slots && a.value.parent == o.parent
      && var slot := s.allocs[o.parent].slots[a.value.pc.at];
         !slot.Reserved? && a.value.pc.seen == slot.desc && a.value.pc.list == slot.list
    ensures var o, a := s.ops[t], After(s, t, c); a.Some? && a.value.pc.Copying? ==>
      && (o.pc.Copying? || (o.pc.Examine? && o.pc.seen in s.threads && o.call.SaFork? && s.threads[o.pc.seen] == o.call.parentPid))
      && SearchPlace(a.value.pc) == SearchPlace(o.pc) && a.value.parent == o.parent
  {
    hide HeldAfter, SplicedAfter, Present;
  }

  /** The entry a search has come to: its slot, its descriptor and its list. */
  function SearchPlace(pc: Pc): (nat, nat, nat) {
    match pc
    case Examine(at, d, l) => (at, d, l)
    case Copying(at, d, l, _) => (at, d, l)
    case _ => (0, 0, 0)
  }

  /** Who has the descriptor and the list of an entry. */
  function EntryKeeper(s: State, h: nat, id: nat): Place
    requires h in s.allocs && id in s.allocs[h].slots
  {
    match s.allocs[h].slots[id]
    case Pending(t, _, _) => OnCall(t)
    case _ => OnSlot(h, id)
  }

  lemma EntryKept(s: State, h: nat, id: nat)
    requires Lifetimes(s) && h in s.allocs && id in s.allocs[h].slots && !s.allocs[h].slots[id].Reserved?
    ensures var at, slot := EntryKeeper(s, h, id), s.allocs[h].slots[id];
      && Keeps(s, at, slot.desc) && Owns(s, at, slot.list)
      && (slot.Pending? ==> slot.tid in s.ops && s.ops[slot.tid].call.SaFork? && HoldsSlot(s.ops[slot.tid]))
  {
    if s.allocs[h].slots[id].Pending? {
      LifetimeParts(s);
      assert SlotOk(s, h, id) by { hide SlotOk; }
      hide Lifetimes, SlotsOk;
      PendingKept(s, h, id);
    }
    hide Lifetimes, HoldsSlot, HoldsDesc, HoldsList;
  }

  lemma PendingKept(s: State, h: nat, id: nat)
    requires SlotOk(s, h, id) && s.allocs[h].slots[id].Pending?
    ensures var slot := s.allocs[h].slots[id];
      && Keeps(s, OnCall(slot.tid), slot.desc) && Owns(s, OnCall(slot.tid), slot.list)
      && slot.tid in s.ops && s.ops[slot.tid].call.SaFork? && HoldsSlot(s.ops[slot.tid])
  {
    ForkHasDesc(s.ops[s.allocs[h].slots[id].tid]);
    hide HoldsSlot, HoldsDesc, HoldsList;
  }

  lemma EntryThere(s: State, h: nat, id: nat)
    requires Lifetimes(s) && DescsOk(s) && OnePlace(s) && h in s.allocs && id in s.allocs[h].slots && !s.allocs[h].slots[id].Reserved?
    ensures s.allocs[h].slots[id].desc in s.threads && s.allocs[h].slots[id].list in s.lists
  {
    EntryKept(s, h, id);
    hide *;
    KeptThere(s, EntryKeeper(s, h, id), s.allocs[h].slots[id].desc);
    InLists(s, EntryKeeper(s, h, id), s.allocs[h].slots[id].list);
  }

  lemma ForkHasDesc(o: Op)
    ensures o.call.SaFork? && HoldsSlot(o) ==> HoldsDesc(o) && HoldsList(o)
  {
  }

  /** Somebody else's pointers, when the step spares them. */
  lemma OthersPoint(s: State, t: nat, c: Choice, r: nat)
    requires CanAdvance(s, t, c) && r in s.ops && r != t && Points(s, r) && t in s.ops && Spares(s, t, r)
    ensures Points(Advanced(s, t, c), r)
  {
    var u := s.ops[r];
    FreesOnly(s, t, c, u.h, 0);
    FreesOnly(s, t, c, u.parent, 0);
    hide CanAdvance, Advanced, After, UsesParent, Dropping;
    if u.pc.Examine? || u.pc.Copying? {
      FreesOnly(s, t, c, 0, u.pc.seen);
      if u.pc.list in s.lists { DropsOnly(s, t, c, u.pc.list); }
    }
  }

  /** The pointers of the call that steps: a search comes to an entry whose descriptor and list are there. */
  lemma SelfPoints(s: State, t: nat, c: Choice)
    requires Lifetimes(s) && DescsOk(s) && OnePlace(s) && CanAdvance(s, t, c) && OpOk(s, t) && Points(s, t) && t in Advanced(s, t, c).ops
    ensures Points(Advanced(s, t, c), t)
  {
    var s' := Advanced(s, t, c);
    FreesOnly(s, t, c, 0, 0);
    SelfParent(s, t, c);
    SelfSearch(s, t, c);
    hide Lifetimes, DescsOk, OnePlace, CanAdvance, Advanced, After, OpOk, UsesParent, Follows;
    if s'.ops[t].pc.Examine? || s'.ops[t].pc.Copying? { SelfFollows(s, t, c); }
  }

  lemma SelfParent(s: State, t: nat, c: Choice)
    requires Lifetimes(s) && CanAdvance(s, t, c) && OpOk(s, t) && Points(s, t) && After(s, t, c).Some?
    ensures var a := After(s, t, c).value; a.pc != GetRef && (UsesParent(a) ==> a.parent in Advanced(s, t, c).allocs)
  {
    var o, a := s.ops[t], After(s, t, c).value;
    SearchFinds(s, t, c);
    FreesOnly(s, t, c, a.parent, 0);
    LifetimeParts(s);
    hide Lifetimes, CanAdvance, Advanced, After, OpOk, UsesParent, RegistryOk;
    if UsesParent(a) && o.pc == FindParent { LookedUp(s, o.call.parentTgid); }
  }

  /** The entry is there before the step, and a step of a search frees nothing. */
  lemma SelfSearch(s: State, t: nat, c: Choice)
    requires Lifetimes(s) && DescsOk(s) && OnePlace(s) && CanAdvance(s, t, c) && Points(s, t) && After(s, t, c).Some?
    ensures var a := After(s, t, c).value; a.pc.Examine? || a.pc.Copying? ==>
      Reading(s.ops[t].pc) && a.pc.seen in s.threads && (a.pc.Examine? || Follows(s, t, a.pc.list) ==> a.pc.list in s.lists)
    ensures var a := After(s, t, c).value; a.pc.Copying? ==> Follows(s, t, a.pc.list) || !s.ops[t].call.SaFork?
  {
    var a := After(s, t, c).value;
    SearchPcs(s, t, c);
    assert t in s.ops;
    hide Lifetimes, DescsOk, OnePlace, CanAdvance, Safe, Possible, After, UsesParent;
    if a.pc.Examine? {
      EntryThere(s, s.ops[t].parent, a.pc.at);
    } else if a.pc.Copying? {
      CopyFollows(s, t, a.pc);
    }
  }

  lemma CopyFollows(s: State, t: nat, pc: Pc)
    requires Points(s, t) && pc.Copying? && SearchPlace(pc) == SearchPlace(s.ops[t].pc)
    requires var o := s.ops[t];
      o.pc.Copying? || (o.pc.Examine? && o.pc.seen in s.threads && o.call.SaFork? && s.threads[o.pc.seen] == o.call.parentPid)
    ensures Reading(s.ops[t].pc) && pc.seen in s.threads && (Follows(s, t, pc.list) ==> pc.list in s.lists)
    ensures Follows(s, t, pc.list) || !s.ops[t].call.SaFork?
  {
    hide UsesParent;
  }

  lemma SelfFollows(s: State, t: nat, c: Choice)
    requires CanAdvance(s, t, c) && After(s, t, c).Some? && Shape(s.ops[t])
    requires var a := After(s, t, c).value; (a.pc.Examine? || a.pc.Copying?) && Reading(s.ops[t].pc) && a.pc.seen in s.threads
    requires var a := After(s, t, c).value; a.pc.Examine? || Follows(s, t, a.pc.list) ==> a.pc.list in s.lists
    requires var a := After(s, t, c).value; a.pc.Copying? ==> Follows(s, t, a.pc.list) || !s.ops[t].call.SaFork?
    ensures var s', a := Advanced(s, t, c), After(s, t, c).value;
      a.pc.seen in s'.threads && (Follows(s', t, a.pc.list) ==> a.pc.list in s'.lists)
  {
    var a := After(s, t, c).value;
    FreesOnly(s, t, c, 0, a.pc.seen);
    SearchFinds(s, t, c);
    hide CanAdvance, Advanced, After, UsesParent, Shape;
    if a.pc.list in s.lists { DropsOnly(s, t, c, a.pc.list); }
  }

  lemma LookedUp(s: State, g: nat)
    requires RegistryOk(s) && g in s.registry
    ensures s.registry[g] in s.allocs && Registered(s, s.registry[g])
  {
    assert EntryOk(s, g);
    hide RegistryOk;
  }

  lemma AdvancePoints(s: State, t: nat, c: Choice, r: nat)
    requires Lifetimes(s) && DescsOk(s) && OnePlace(s) && CanAdvance(s, t, c) && OrderlyStep(s, Advance(t, c))
    requires r in Advanced(s, t, c).ops && (r in s.ops ==> Points(s, r))
    ensures Points(Advanced(s, t, c), r)
  {
    FreesOnly(s, t, c, 0, 0);
    LifetimeParts(s);
    assert OpOk(s, t);
    hide Lifetimes, DescsOk, OnePlace, CanAdvance, Advanced, After, Points, Spares, OpOk;
    if r == t { SelfPoints(s, t, c); } else { OthersPoint(s, t, c, r); }
  }

  lemma StartPoints(s: State, a: Action, r: nat)
    requires RegistryOk(s) && Enabled(s, a) && !a.Advance? && r in Next(s, a).ops && (r in s.ops ==> Points(s, r))
    ensures Points(Next(s, a), r)
  {
    if IsStart(a) {
      StartIs(s, a);
      if r == StarterOf(a) { NewPoints(s, a); }
    } else {
      OtherGrows(s, a);
    }
    hide Enabled, Next, StarterOf, RegistryOk, UsesParent;
  }

  lemma NewPoints(s: State, a: Action)
    requires RegistryOk(s) && Enabled(s, a) && IsStart(a) && StarterOf(a) in Next(s, a).ops
    ensures Points(Next(s, a), StarterOf(a))
  {
    if a.Alloc? { assert EntryOk(s, a.group); }
    if a.Fork? { assert EntryOk(s, a.child); }
    hide RegistryOk;
  }

  lemma OtherGrows(s: State, a: Action)
    requires Enabled(s, a) && (a.Create? || a.Store?)
    ensures var s' := Next(s, a);
      s'.ops == s.ops && s'.threads == s.threads && s'.lists == s.lists && forall h :: h in s.allocs ==> h in s'.allocs
  {
    hide IsTable, Walk;
  }

  /** An orderly step, and only that, leaves everything in use allocated. */
  lemma StepIntact(s: State, a: Action)
    requires Invariant(s) && AllIntact(s) && Enabled(s, a)
    ensures AllIntact(Next(s, a)) <==> OrderlyStep(s, a)
  {
    var s' := Next(s, a);
    StepKeepsInvariant(s, a);
    InvariantParts(s);
    hide Invariant, Lifetimes, DescsOk, OnePlace, Enabled, Next, Intact, OrderlyStep, Points;
    if OrderlyStep(s, a) {
      forall r | r in s'.ops ensures Intact(s', r) {
        if r in s.ops { OnlyPointersDangle(s, r); }
        StepPoints(s, a, r);
        OnlyPointersDangle(s', r);
      }
    } else {
      var r := Stranded(s, a);
      OnlyPointersDangle(s', r);
    }
  }

  lemma InvariantParts(s: State)
    requires Invariant(s)
    ensures Lifetimes(s) && DescsOk(s) && NamesOk(s) && OnePlace(s) && PagesOk(s) && Sound(s)
  {
    hide Lifetimes, DescsOk, NamesOk, OnePlace, PagesOk, ZeroOk, LockOk, NoRepeats, SpacesOk, WindowsOk;
  }

  lemma StepPoints(s: State, a: Action, r: nat)
    requires Lifetimes(s) && DescsOk(s) && OnePlace(s) && Enabled(s, a) && OrderlyStep(s, a) && r in Next(s, a).ops && (r in s.ops ==> Points(s, r))
    ensures Points(Next(s, a), r)
  {
    LifetimeParts(s);
    if a.Advance? {
      AdvanceIs(s, a);
      hide *;
      AdvancePoints(s, a.t, a.c, r);
    } else {
      assert RegistryOk(s);
      hide *;
      StartPoints(s, a, r);
    }
  }

  /** Whose pointer a disorderly step leaves dangling. */
  lemma Stranded(s: State, a: Action) returns (r: nat)
    requires Enabled(s, a) && !OrderlyStep(s, a)
    ensures r in Next(s, a).ops && !Points(Next(s, a), r)
  {
    AdvanceIs(s, a);
    r :| r in s.ops && !Spares(s, a.t, r);
    hide *;
    NotSpared(s, a.t, a.c, r);
  }

  lemma NotSpared(s: State, t: nat, c: Choice, r: nat)
    requires CanAdvance(s, t, c) && r in s.ops && !Spares(s, t, r)
    ensures r in Advanced(s, t, c).ops && !Points(Advanced(s, t, c), r)
  {
    var o, u := s.ops[t], s.ops[r];
    FreesOnly(s, t, c, o.h, 0);
    FreeingPoints(o);
    hide CanAdvance, Advanced, After, UsesParent, Dropping, Follows;
    if o.pc == FreeThread {
      DescFreed(s, t, c);
    } else if o.pc != FreeAlloc {
      var l :| l in s.lists && Dropping(s, t, l) && Follows(s, r, l);
      ListFreed(s, t, c, r, l);
    }
  }

  lemma ListFreed(s: State, t: nat, c: Choice, r: nat, l: nat)
    requires CanAdvance(s, t, c) && l in s.lists && Dropping(s, t, l) && Follows(s, r, l) && r != t
    ensures r in Advanced(s, t, c).ops && !Points(Advanced(s, t, c), r)
  {
    DropsOnly(s, t, c, l);
    DropperIs(s, t, l);
    FreesOnly(s, t, c, 0, s.ops[r].pc.seen);
    hide CanAdvance, Advanced, After, UsesParent, Dropping;
  }

  lemma DropperIs(s: State, t: nat, l: nat)
    requires t in s.ops && Dropping(s, t, l)
    ensures s.ops[t].pc != FreeThread && s.ops[t].pc != FreeAlloc
  {
  }

  /** A call that frees something is not one that looks anything up or searches. */
  lemma FreeingPoints(o: Op)
    ensures o.pc == FreeAlloc || o.pc == FreeThread || o.pc == CheckSize || o.pc == FreeRest ==> !UsesParent(o) && !o.pc.GetRef? && !Reading(o.pc)
  {
  }

  lemma DescFreed(s: State, t: nat, c: Choice)
    requires CanAdvance(s, t, c) && s.ops[t].pc == FreeThread
    ensures s.ops[t].desc !in Advanced(s, t, c).threads
  {
    ThreadsAfter(s, t, c);
    hide *;
  }

  // ---------------------------------------------------------------- every run

  ghost predicate Orderly(s: State, actions: seq<Action>)
    requires CanRun(s, actions)
    decreases |actions|
  {
    actions == [] || (OrderlyStep(s, actions[0]) && Orderly(Next(s, actions[0]), actions[1..]))
  }

  /** In every state of the run all calls find everything they may touch. */
  ghost predicate AlwaysIntact(s: State, actions: seq<Action>)
    requires CanRun(s, actions)
    decreases |actions|
  {
    AllIntact(s) && (actions == [] || AlwaysIntact(Next(s, actions[0]), actions[1..]))
  }

  lemma {:induction false} IntactIffOrderly(s: State, actions: seq<Action>)
    requires Invariant(s) && AllIntact(s) && CanRun(s, actions)
    ensures AlwaysIntact(s, actions) <==> Orderly(s, actions)
    decreases |actions|
  {
    hide Invariant, AllIntact, Enabled, Next, OrderlyStep;
    if actions != [] {
      var s' := Next(s, actions[0]);
      StepIntact(s, actions[0]);
      StepKeepsInvariant(s, actions[0]);
      if AllIntact(s') {
        IntactIffOrderly(s', actions[1..]);
      } else {
        assert !AlwaysIntact(s', actions[1..]);
      }
    }
  }

  /**
    No call is ever left with a pointer to something freed that it may still follow, if and only if
    no allocator is freed while a call has looked it up and holds no reference, no descriptor while a
    search looks at it or copies from it, and no list while a search copies from it or is about to.
   */
  lemma NoUseAfterFree(actions: seq<Action>)
    requires CanRun(Initial(), actions)
    ensures AlwaysIntact(Initial(), actions) <==> Orderly(Initial(), actions)
  {
    InitiallyInvariant();
    assert AllIntact(Initial());
    hide Invariant, AllIntact, Initial;
    IntactIffOrderly(Initial(), actions);
  }

  // ---------------------------------------------------------------- guards that are enough

  /**
    What would rule it out: alloc_destroy waits for calls that have looked the allocator up, to get
    it or to search it, and a failing sa_fork takes al_lock to remove its entry, as sa_free does.
   */
  predicate Waits(s: State, a: Action) {
    && (a.Destroy? ==> forall r :: r in s.ops && s.ops[r].pc == GetRef ==> s.ops[r].h != a.unregistered)
    && (a.Destroy? ==> forall r :: r in s.ops && UsesParent(s.ops[r]) ==> s.ops[r].parent != a.unregistered)
    && (a.Advance? && a.t in s.ops && s.ops[a.t].pc == EraseSlot && s.ops[a.t].call.SaFork? ==>
          forall r :: r in s.ops && Reading(s.ops[r].pc) ==> s.ops[r].parent != s.ops[a.t].h)
  }

  ghost predicate AlwaysWaits(s: State, actions: seq<Action>)
    requires CanRun(s, actions)
    decreases |actions|
  {
    actions == [] || (Waits(s, actions[0]) && AlwaysWaits(Next(s, actions[0]), actions[1..]))
  }

  predicate EntryAt(s: State, h: nat, id: nat, d: nat, l: nat) {
    && h in s.allocs && id in s.allocs[h].slots && !s.allocs[h].slots[id].Reserved?
    && s.allocs[h].slots[id].desc == d && s.allocs[h].slots[id].list == l
  }

  /** What has been looked up is registered still, what is looked at or copied from is in its table still. */
  predicate Anchored(s: State, r: nat) {
    r in s.ops && var u := s.ops[r];
    && (u.pc == GetRef ==> u.h in s.allocs && Registered(s, u.h))
    && (UsesParent(u) ==> u.parent in s.allocs && Registered(s, u.parent))
    && (u.pc.Examine? || u.pc.Copying? ==> EntryAt(s, u.parent, SearchPlace(u.pc).0, u.pc.seen, u.pc.list))
  }

  ghost predicate AllAnchored(s: State) {
    forall r :: r in s.ops ==> Anchored(s, r)
  }

  /** Such a state allows no disorderly step. */
  lemma AnchoredIsOrderly(s: State, a: Action)
    requires Lifetimes(s) && DescsOk(s) && OnePlace(s) && AllAnchored(s) && Enabled(s, a)
    ensures OrderlyStep(s, a)
  {
    if a.Advance? && a.t in s.ops {
      AdvanceIs(s, a);
      LifetimeParts(s);
      assert OpOk(s, a.t);
      hide Lifetimes, DescsOk, OnePlace, OpsOk, OpOk, AllAnchored, Anchored, Spares, Enabled, CanAdvance;
      forall r | r in s.ops
        ensures Spares(s, a.t, r)
      {
        AnchoredAt(s, r);
        AnchoredSpared(s, a.t, a.c, r);
      }
    }
  }

  lemma AnchoredSpared(s: State, t: nat, c: Choice, r: nat)
    requires Lifetimes(s) && DescsOk(s) && OnePlace(s) && OpOk(s, t) && Anchored(s, r) && CanAdvance(s, t, c)
    ensures Spares(s, t, r)
  {
    if s.ops[t].pc == FreeAlloc { NotBeingFreed(s, t, r); }
    if s.ops[t].pc == FreeThread { NotLookedAt(s, t, r); }
    hide Lifetimes, DescsOk, OnePlace, OpOk, Anchored, UsesParent, Dropping, CanAdvance;
    forall l | l in s.lists && Dropping(s, t, l) ensures !Follows(s, r, l) {
      NotFollowed(s, t, c, r, l);
    }
  }

  lemma AnchoredAt(s: State, r: nat)
    requires AllAnchored(s) && r in s.ops
    ensures Anchored(s, r)
  {
    hide Anchored;
  }

  lemma NotBeingFreed(s: State, t: nat, r: nat)
    requires Lifetimes(s) && OpOk(s, t) && s.ops[t].pc == FreeAlloc && Anchored(s, r)
    ensures (s.ops[r].pc == GetRef ==> s.ops[r].h != s.ops[t].h) && (UsesParent(s.ops[r]) ==> s.ops[r].parent != s.ops[t].h)
  {
    DestroyedEmpty(s, t);
    hide Lifetimes, OpOk, EntryAt, Registered, UsesParent;
  }

  lemma NotLookedAt(s: State, t: nat, r: nat)
    requires Lifetimes(s) && DescsOk(s) && OpOk(s, t) && s.ops[t].pc == FreeThread && Anchored(s, r)
    ensures s.ops[r].pc.Examine? || s.ops[r].pc.Copying? ==> s.ops[r].pc.seen != s.ops[t].desc
  {
    hide Lifetimes, OpOk, DescsOk, EntryAt, Registered, UsesParent;
    if s.ops[r].pc.Examine? || s.ops[r].pc.Copying? {
      EntryNotFreed(s, t, s.ops[r].parent, SearchPlace(s.ops[r].pc).0, s.ops[r].pc.seen, s.ops[r].pc.list);
    }
  }

  lemma EntryIs(s: State, h: nat, id: nat, d: nat, l: nat)
    requires EntryAt(s, h, id, d, l)
    ensures h in s.allocs && id in s.allocs[h].slots && !s.allocs[h].slots[id].Reserved?
    ensures s.allocs[h].slots[id].desc == d && s.allocs[h].slots[id].list == l
  {
  }

  lemma CallKeepsDesc(s: State, t: nat)
    requires t in s.ops && HoldsDesc(s.ops[t])
    ensures Keeps(s, OnCall(t), s.ops[t].desc)
  {
    hide HoldsDesc;
  }

  lemma EntryNotFreed(s: State, t: nat, h: nat, id: nat, d: nat, l: nat)
    requires Lifetimes(s) && DescsOk(s) && OpOk(s, t) && s.ops[t].pc == FreeThread && EntryAt(s, h, id, d, l)
    ensures d != s.ops[t].desc
  {
    EntryIs(s, h, id, d, l);
    hide Lifetimes, DescsOk, OpOk, EntryAt, Keeps, Owns, HoldsDesc, HoldsSlot, EntryKeeper;
    EntryKept(s, h, id);
    FreeingIsNot(s.ops[t]);
    KeeperIsNot(s, t, h, id);
    CallKeepsDesc(s, t);
    OnlyKept(s, EntryKeeper(s, h, id), OnCall(t), d);
  }

  lemma NotFollowed(s: State, t: nat, c: Choice, r: nat, l: nat)
    requires Lifetimes(s) && OnePlace(s) && CanAdvance(s, t, c) && Anchored(s, r) && Dropping(s, t, l)
    ensures !Follows(s, r, l)
  {
    if Follows(s, r, l) {
      var u := s.ops[r];
      assert EntryAt(s, u.parent, SearchPlace(u.pc).0, u.pc.seen, l);
      hide Anchored, Follows;
      EntryNotDropped(s, t, c, u.parent, SearchPlace(u.pc).0, u.pc.seen, l);
    }
  }

  lemma EntryNotDropped(s: State, t: nat, c: Choice, h: nat, id: nat, d: nat, l: nat)
    requires Lifetimes(s) && OnePlace(s) && CanAdvance(s, t, c) && Dropping(s, t, l)
    ensures !EntryAt(s, h, id, d, l)
  {
    if EntryAt(s, h, id, d, l) {
      EntryKept(s, h, id);
      DropperOwns(s, t, l);
      KeeperIsNot(s, t, h, id);
      hide *;
      OnlyAt(s, EntryKeeper(s, h, id), if s.ops[t].pc == CheckSize then OnCall(t) else Spliced(t), l);
    }
  }

  lemma KeeperIsNot(s: State, t: nat, h: nat, id: nat)
    requires h in s.allocs && id in s.allocs[h].slots && t in s.ops && !(s.ops[t].call.SaFork? && HoldsSlot(s.ops[t]))
    requires var slot := s.allocs[h].slots[id];
      slot.Pending? ==> slot.tid in s.ops && s.ops[slot.tid].call.SaFork? && HoldsSlot(s.ops[slot.tid])
    ensures EntryKeeper(s, h, id) != OnCall(t) && EntryKeeper(s, h, id) != Spliced(t)
  {
    hide HoldsSlot;
  }

  lemma DropperOwns(s: State, t: nat, l: nat)
    requires t in s.ops && Dropping(s, t, l)
    ensures Owns(s, if s.ops[t].pc == CheckSize then OnCall(t) else Spliced(t), l)
    ensures !(s.ops[t].call.SaFork? && HoldsSlot(s.ops[t]))
  {
  }

  lemma FreeingIsNot(o: Op)
    ensures o.pc == FreeThread ==> HoldsDesc(o) && !(o.call.SaFork? && HoldsSlot(o))
  {
  }

  /** An entry of a table stays, with its descriptor, unless its own call takes it out. */
  lemma EntryStays(s: State, t: nat, c: Choice, h: nat, id: nat, d: nat, l: nat)
    requires OpOk(s, t) && CanAdvance(s, t, c) && EntryAt(s, h, id, d, l)
    requires ChangeOf(s, t, c).FreeAllocator? ==> s.ops[t].h in s.allocs && s.allocs[s.ops[t].h].slots == map[]
    requires var o := s.ops[t]; o.h == h && (o.pc == EraseLive || (o.pc == EraseSlot && o.call.SaFork?)) ==> o.id != id
    ensures EntryAt(Advanced(s, t, c), h, id, d, l)
  {
    AdvancedIs(s, t, c);
    EntryChange(s, t, c);
    ChangedAllocs(s, s.ops[t].h, ChangeOf(s, t, c), h);
    hide CanAdvance, Safe, Possible, ChangeOf, After, Advanced, Changed, Applies, OpOk, SlotsAfter, Called;
    if h == s.ops[t].h { SlotsKeepEntry(s.allocs[h].slots, ChangeOf(s, t, c), id); }
  }

  lemma SlotsKeepEntry(slots: map<nat, Slot>, x: Change, id: nat)
    requires id in slots && !slots[id].Reserved? && !(x.ClearSlot? && x.gone == id)
    requires x.SetSlot? && x.at == id ==> SameEntry(x.slot, slots[id])
    ensures id in SlotsAfter(slots, x) && SameEntry(SlotsAfter(slots, x)[id], slots[id])
  {
  }

  predicate SameEntry(now: Slot, was: Slot) {
    !now.Reserved? && !was.Reserved? && now.desc == was.desc && now.list == was.list
  }

  lemma EntryChange(s: State, t: nat, c: Choice)
    requires CanAdvance(s, t, c) && OpOk(s, t)
    ensures var o, x := s.ops[t], ChangeOf(s, t, c);
      && (x.SetSlot? || x.ClearSlot? ==> o.h in s.allocs)
      && (x.SetSlot? && x.at in s.allocs[o.h].slots && !s.allocs[o.h].slots[x.at].Reserved? ==>
            SameEntry(x.slot, s.allocs[o.h].slots[x.at]))
      && (x.ClearSlot? && x.gone in s.allocs[o.h].slots && !s.allocs[o.h].slots[x.gone].Reserved? ==>
            (x.gone == o.id && (o.pc == EraseLive || (o.pc == EraseSlot && o.call.SaFork?))))
  {
    hide HoldsRef, UsesParent, Mapped, NoneFrom, EntryFrom, Distinct;
  }

  lemma AdvanceAnchors(s: State, t: nat, c: Choice, r: nat)
    requires Lifetimes(s) && OpOk(s, t) && CanAdvance(s, t, c) && Waits(s, Advance(t, c)) && OrderlyStep(s, Advance(t, c))
    requires ChangeOf(s, t, c).FreeAllocator? ==> s.ops[t].h in s.allocs && s.allocs[s.ops[t].h].slots == map[]
    requires r in Advanced(s, t, c).ops && (r in s.ops ==> Anchored(s, r))
    ensures Anchored(Advanced(s, t, c), r)
  {
    var u := Advanced(s, t, c).ops[r];
    FreesOnly(s, t, c, 0, 0);
    SearchFinds(s, t, c);
    SearchPcs(s, t, c);
    assert r in s.ops && t in s.ops && Spares(s, t, r);
    LifetimeParts(s);
    if r == t && UsesParent(u) && s.ops[t].pc == FindParent { LookedUp(s, s.ops[t].call.parentTgid); }
    FreeingPoints(s.ops[t]);
    hide Lifetimes, RegistryOk, OpOk, CanAdvance, Advanced, After, ChangeOf, Changed, EntryAt, UsesParent, Registered, Dropping, Follows;
    if u.pc == GetRef { RegisteredStays(s, t, c, u.h); }
    if UsesParent(u) { RegisteredStays(s, t, c, u.parent); }
    if u.pc.Examine? || u.pc.Copying? {
      var at := SearchPlace(u.pc).0;
      EntrySeen(s, t, c, r, u);
      EntryNotTaken(s, t, c, r, u);
      EntryStays(s, t, c, u.parent, at, u.pc.seen, u.pc.list);
    }
  }

  lemma RegisteredStays(s: State, t: nat, c: Choice, h: nat)
    requires CanAdvance(s, t, c) && h in s.allocs && Registered(s, h) && !(s.ops[t].pc == FreeAlloc && s.ops[t].h == h)
    ensures h in Advanced(s, t, c).allocs && Registered(Advanced(s, t, c), h)
  {
    AdvancedIs(s, t, c);
    FreeAllocChange(s, t, c);
    ChangedAllocs(s, s.ops[t].h, ChangeOf(s, t, c), h);
    hide CanAdvance, Safe, Possible, ChangeOf, After, Advanced, Changed;
  }

  /** What a search is at after a step was in the table before it. */
  lemma EntrySeen(s: State, t: nat, c: Choice, r: nat, u: Op)
    requires CanAdvance(s, t, c) && r in s.ops && Anchored(s, r) && (u.pc.Examine? || u.pc.Copying?)
    requires if r == t then After(s, t, c) == Some(u) else u == s.ops[r]
    ensures EntryAt(s, u.parent, SearchPlace(u.pc).0, u.pc.seen, u.pc.list)
  {
    SearchPcs(s, t, c);
    hide CanAdvance, After, UsesParent, Registered;
  }

  /** And the step does not take it out: both ways to remove an entry wait for the search. */
  lemma EntryNotTaken(s: State, t: nat, c: Choice, r: nat, u: Op)
    requires CanAdvance(s, t, c) && r in s.ops && Waits(s, Advance(t, c)) && (u.pc.Examine? || u.pc.Copying?)
    requires if r == t then After(s, t, c) == Some(u) else u == s.ops[r]
    ensures var o := s.ops[t]; o.pc == EraseLive || (o.pc == EraseSlot && o.call.SaFork?) ==> o.h != u.parent
  {
    if r != t && s.ops[t].pc == EraseLive { EraseWaits(s, t, c, r); }
    SearchPcs(s, t, c);
    hide CanAdvance, After;
  }

  lemma EraseWaits(s: State, t: nat, c: Choice, r: nat)
    requires CanAdvance(s, t, c) && s.ops[t].pc == EraseLive && r in s.ops && Reading(s.ops[r].pc)
    ensures s.ops[r].parent != s.ops[t].h
  {
    hide Safe;
  }

  lemma OtherAnchors(s: State, a: Action, r: nat)
    requires RegistryOk(s) && Enabled(s, a) && !a.Advance? && Waits(s, a) && r in Next(s, a).ops && (r in s.ops ==> Anchored(s, r))
    ensures Anchored(Next(s, a), r)
  {
    var s' := Next(s, a);
    hide Anchored, RegistryOk;
    if IsStart(a) {
      StartStarts(s, a);
      if r == StarterOf(a) {
        NewAnchored(s, a);
      } else {
        assert Anchored(s, r);
        KeepsAnchor(s, a, r);
      }
    } else {
      CreateSpares(s, a);
      hide Enabled, Next, Waits;
      StillAnchored(s, s', r);
    }
  }

  /** A call that starts with a lookup finds a registered allocator. */
  lemma NewAnchored(s: State, a: Action)
    requires RegistryOk(s) && Enabled(s, a) && IsStart(a) && StarterOf(a) in Next(s, a).ops
    ensures Anchored(Next(s, a), StarterOf(a))
  {
    if a.Alloc? { assert EntryOk(s, a.group); }
    if a.Fork? { assert EntryOk(s, a.child); }
    hide RegistryOk;
  }

  lemma StartSparesRegistry(s: State, a: Action, h: nat)
    requires Enabled(s, a) && IsStart(a) && h in s.allocs && Registered(s, h) && (a.Destroy? ==> a.unregistered != h)
    ensures h in Next(s, a).allocs && Registered(Next(s, a), h)
  {
  }

  lemma CreateSpares(s: State, a: Action)
    requires Enabled(s, a) && (a.Create? || a.Store?)
    ensures Next(s, a).ops == s.ops
    ensures var s' := Next(s, a);
      forall h :: h in s.allocs ==> h in s'.allocs && s'.allocs[h] == s.allocs[h] && (Registered(s, h) ==> Registered(s', h))
  {
    hide IsTable, Walk;
  }

  lemma StillAnchored(s: State, s': State, r: nat)
    requires Anchored(s, r) && r in s'.ops && s'.ops[r] == s.ops[r]
    requires forall h :: h in s.allocs ==> h in s'.allocs && s'.allocs[h] == s.allocs[h]
    requires var u := s.ops[r];
      && (u.pc == GetRef && u.h in s.allocs && Registered(s, u.h) ==> Registered(s', u.h))
      && (UsesParent(u) && u.parent in s.allocs && Registered(s, u.parent) ==> Registered(s', u.parent))
    ensures Anchored(s', r)
  {
    hide Registered, UsesParent;
  }

  lemma KeepsAnchor(s: State, a: Action, r: nat)
    requires Enabled(s, a) && IsStart(a) && Waits(s, a) && r in s.ops && Anchored(s, r)
    ensures r in Next(s, a).ops && Anchored(Next(s, a), r)
  {
    StartIs(s, a);
    var u := s.ops[r];
    assert a.Destroy? ==> (u.pc == GetRef ==> u.h != a.unregistered) && (UsesParent(u) ==> u.parent != a.unregistered);
    hide Enabled, Next, Waits, UsesParent, Registered, EntryAt;
    if u.pc == GetRef { StartSparesRegistry(s, a, u.h); }
    if UsesParent(u) { StartSparesRegistry(s, a, u.parent); }
    StillAnchored(s, Next(s, a), r);
  }

  lemma EmptyWhenFreed(s: State, a: Action)
    requires Lifetimes(s) && Enabled(s, a) && a.Advance?
    ensures CanAdvance(s, a.t, a.c) && Next(s, a) == Advanced(s, a.t, a.c) && OpOk(s, a.t)
    ensures ChangeOf(s, a.t, a.c).FreeAllocator? ==> s.ops[a.t].h in s.allocs && s.allocs[s.ops[a.t].h].slots == map[]
  {
    AdvanceIs(s, a);
    LifetimeParts(s);
    assert OpOk(s, a.t);
    hide Lifetimes, OpOk, OpsOk, Possible, After, Advanced, Next, Enabled;
    if ChangeOf(s, a.t, a.c).FreeAllocator? { FreedAtEnd(s, a.t, a.c); DestroyedEmpty(s, a.t); }
  }

  lemma StepAnchors(s: State, a: Action)
    requires Lifetimes(s) && DescsOk(s) && OnePlace(s) && AllAnchored(s) && Enabled(s, a) && Waits(s, a)
    ensures OrderlyStep(s, a) && AllAnchored(Next(s, a))
  {
    AnchoredIsOrderly(s, a);
    LifetimeParts(s);
    if a.Advance? { EmptyWhenFreed(s, a); }
    hide Lifetimes, DescsOk, OnePlace, Enabled, Next, Anchored, OrderlyStep, Waits, OpOk, ChangeOf, RegistryOk;
    forall r | r in Next(s, a).ops ensures Anchored(Next(s, a), r) {
      if r in s.ops { assert Anchored(s, r); }
      if a.Advance? {
        AdvanceAnchors(s, a.t, a.c, r);
      } else {
        OtherAnchors(s, a, r);
      }
    }
  }

  lemma {:induction false} AnchoredRun(s: State, actions: seq<Action>)
    requires Invariant(s) && AllAnchored(s) && CanRun(s, actions) && AlwaysWaits(s, actions)
    ensures Orderly(s, actions)
    decreases |actions|
  {
    hide Invariant, AllAnchored, Enabled, Next, OrderlyStep, Waits;
    if actions != [] {
      InvariantParts(s);
      StepAnchors(s, actions[0]);
      StepKeepsInvariant(s, actions[0]);
      AnchoredRun(Next(s, actions[0]), actions[1..]);
    }
  }

  /** With these waits no run uses anything after it has been freed. */
  lemma WaitingIsEnough(actions: seq<Action>)
    requires CanRun(Initial(), actions) && AlwaysWaits(Initial(), actions)
    ensures AlwaysIntact(Initial(), actions)
  {
    InitiallyInvariant();
    assert AllAnchored(Initial());
    NoUseAfterFree(actions);
    hide Invariant, AllAnchored, Initial;
    AnchoredRun(Initial(), actions);
  }
}
