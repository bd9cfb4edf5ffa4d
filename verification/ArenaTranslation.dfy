/** Live slots and address translation: each window shows exactly its own slot's pages, whatever the others do. */
module ArenaTranslation {
  import opened PageTables
  import opened RangeWalks
  import opened PageMapping
  import opened Arena
  import opened ArenaReferences
  import opened ArenaOwnership
  import opened Wrappers

  ghost predicate Shows(table: seq<Entry>, id: nat, pages: seq<nat>, va: nat) {
    IsTable(table, PGD) && Walk(table, PGD, va) == Some(FrameFor(pages, IdToAddr(id), va))
  }

  /** Walking the window of slot id gives the pages of a list, in order. */
  ghost predicate WindowOk(table: seq<Entry>, id: nat, pages: seq<nat>) {
    forall va: nat :: InWindow(id, va) ==> Shows(table, id, pages, va)
  }

  predicate SpaceOk(s: State, h: nat) {
    h in s.allocs && s.allocs[h].mm in s.spaces && IsTable(s.spaces[s.allocs[h].mm], PGD)
  }

  /** Address spaces are there, and no two allocators share one. */
  ghost predicate SpacesOk(s: State) {
    && (forall h :: h in s.allocs ==> SpaceOk(s, h))
    && (forall g, h :: g in s.allocs && h in s.allocs && s.allocs[g].mm == s.allocs[h].mm ==> g == h)
  }

  ghost predicate Translated(s: State, h: nat, id: nat, l: nat) {
    SpaceOk(s, h) && l in s.lists && id <= THREADS_LIMIT && WindowOk(s.spaces[s.allocs[h].mm], id, s.lists[l])
  }

  /** A slot that is live, or mapped by a call about to publish it, with its page list. */
  predicate Mapping(s: State, h: nat, id: nat, l: nat) {
    && h in s.allocs && id in s.allocs[h].slots
    && match s.allocs[h].slots[id]
       case Live(_, list, _) => l == list
       case Reserved(t) => t in s.ops && s.ops[t].pc == Publish && s.ops[t].held == l
       case Pending(t, _, _) => t in s.ops && s.ops[t].pc == Publish && s.ops[t].held == l
  }

  ghost predicate WindowsOk(s: State) {
    forall h, id, l :: Mapping(s, h, id, l) ==> Translated(s, h, id, l)
  }

  // ---------------------------------------------------------------- mapping one window

  /** map_range on the window of one slot shows that slot's pages there and leaves every other window alone. */
  lemma MappingOneWindow(now: seq<Entry>, was: seq<Entry>, id: nat, pages: seq<nat>, ok: bool, other: nat, theirs: seq<nat>)
    requires id <= THREADS_LIMIT && other <= THREADS_LIMIT && IsTable(was, PGD) && Mapped(now, was, id, pages, ok)
    ensures ok ==> WindowOk(now, id, pages)
    ensures other != id && WindowOk(was, other, theirs) ==> WindowOk(now, other, theirs)
  {
    hide Walk, IsTable, Frames, TranslatesTo, PartlyTranslatesTo;
    forall va: nat | InWindow(id, va) && ok ensures Shows(now, id, pages, va) {
      InsideWindow(now, was, id, pages, va);
    }
    if other != id && WindowOk(was, other, theirs) {
      forall va: nat | InWindow(other, va) ensures Shows(now, other, theirs, va) {
        assert Shows(was, other, theirs, va);
        OutsideWindow(now, was, id, pages, ok, other, va);
      }
    }
  }

  /** The mapping step is what map_range does with the window and the page list of a slot. */
  method MapSlot(pgd: seq<Entry>, id: nat, pages: seq<nat>) returns (r: seq<Entry>, ok: bool)
    requires IsTable(pgd, PGD) && id <= THREADS_LIMIT && |pages| == PAGES
    ensures Mapped(r, pgd, id, pages, ok)
  {
    hide IsTable, TranslatesTo, PartlyTranslatesTo;
    WindowsApart(id, id, IdToAddr(id));
    r, ok := MapRange(pgd, IdToAddr(id), IdToAddr(id) + SS_SIZE, pages);
  }

  lemma InsideWindow(now: seq<Entry>, was: seq<Entry>, id: nat, pages: seq<nat>, va: nat)
    requires id <= THREADS_LIMIT && IsTable(was, PGD) && Mapped(now, was, id, pages, true) && InWindow(id, va)
    ensures IsTable(now, PGD) && Walk(now, PGD, va) == Some(FrameFor(pages, IdToAddr(id), va))
  {
    WindowsApart(id, id, va);
    hide Walk, IsTable, Canonical, FrameFor;
    assert At(now, was, IdToAddr(id), IdToAddr(id) + SS_SIZE, Frames(IdToAddr(id), pages), va);
  }

  lemma OutsideWindow(now: seq<Entry>, was: seq<Entry>, id: nat, pages: seq<nat>, ok: bool, other: nat, va: nat)
    requires other <= THREADS_LIMIT && IsTable(was, PGD) && Mapped(now, was, id, pages, ok) && InWindow(other, va) && other != id
    ensures IsTable(now, PGD) && Walk(now, PGD, va) == Walk(was, PGD, va)
  {
    WindowsApart(other, id, va);
    hide Walk, IsTable, Canonical, FrameFor;
    if ok {
      assert At(now, was, IdToAddr(id), IdToAddr(id) + SS_SIZE, Frames(IdToAddr(id), pages), va);
    } else {
      assert PartlyAt(now, was, IdToAddr(id), IdToAddr(id) + SS_SIZE, Frames(IdToAddr(id), pages), va);
    }
  }

  // ---------------------------------------------------------------- every step keeps the windows

  /** The lists and address spaces after a change. */
  lemma ChangedTables(s: State, h: nat, x: Change, l: nat, m: nat)
    requires Applies(s, h, x)
    ensures var s' := Changed(s, h, x);
      && (l in s.lists && x != DropList(l) && (x.NewList? ==> x.made != l) ==> l in s'.lists && s'.lists[l] == s.lists[l])
      && (m in s.spaces ==> m in s'.spaces && ((x.SetTables? && m == s.allocs[h].mm) || s'.spaces[m] == s.spaces[m]))
      && (x.SetTables? ==> s.allocs[h].mm in s'.spaces && s'.spaces[s.allocs[h].mm] == x.table)
  {
  }

  predicate JustMapped(o: Op, c: Choice, h: nat, id: nat, l: nat) {
    o.pc == MapWindow && c.ok && h == o.h && id == o.id && l == o.held && HoldsSlot(o) && id <= THREADS_LIMIT
  }

  /** A window is shown after a step only if it was before, or the step has just mapped it. */
  lemma MappingBefore(s: State, t: nat, c: Choice, h: nat, id: nat, l: nat)
    requires CanAdvance(s, t, c) && OpOk(s, t) && SlotsOk(s) && Mapping(Advanced(s, t, c), h, id, l)
    ensures Mapping(s, h, id, l) || JustMapped(s.ops[t], c, h, id, l)
  {
    var o, x, a, s' := s.ops[t], ChangeOf(s, t, c), After(s, t, c), Advanced(s, t, c);
    FactsHold(s, t, c);
    PublishAfter(s, t, c);
    ChangedAllocs(s, o.h, x, h);
    assert s' == Called(Changed(s, o.h, x), t, a);
    assert h in s.allocs && s'.allocs[h].slots == if h == o.h then SlotsAfter(s.allocs[h].slots, x) else s.allocs[h].slots;
    if id in s.allocs[h].slots { assert SlotOk(s, h, id); }
    hide CanAdvance, Safe, Possible, ChangeOf, After, Advanced, Changed, Facts, OpOk, SlotsOk, Mapping, SlotOk, JustMapped, Applies;
    if h == o.h && x.SetSlot? && x.at == id {
      NewMapping(s, s', t, c, x, a, l);
    } else {
      OldMapping(s, s', t, c, a, h, id, l);
    }
  }

  lemma NewMapping(s: State, s': State, t: nat, c: Choice, x: Change, a: Option<Op>, l: nat)
    requires t in s.ops && OpOk(s, t) && Applies(s, s.ops[t].h, x) && Facts(s, t, x, a) && x.SetSlot?
    requires a.Some? ==> a.value.pc != Publish
    requires s'.ops == Called(s, t, a).ops && s.ops[t].h in s'.allocs && s.ops[t].h in s.allocs
    requires s'.allocs[s.ops[t].h].slots == SlotsAfter(s.allocs[s.ops[t].h].slots, x) && Mapping(s', s.ops[t].h, x.at, l)
    ensures Mapping(s, s.ops[t].h, x.at, l)
  {
    hide Shape, HoldsRef, HoldsSlot, UsesParent;
  }

  lemma OldMapping(s: State, s': State, t: nat, c: Choice, a: Option<Op>, h: nat, id: nat, l: nat)
    requires t in s.ops && s'.ops == Called(s, t, a).ops && SlotOk(s, h, id) && Mapping(s', h, id, l)
    requires s'.allocs[h].slots[id] == s.allocs[h].slots[id]
    requires a.Some? && a.value.pc == Publish ==> s.ops[t].pc == MapWindow && c.ok && a.value.held == s.ops[t].held
    ensures Mapping(s, h, id, l) || JustMapped(s.ops[t], c, h, id, l)
  {
    hide HoldsSlot;
  }

  lemma PublishAfter(s: State, t: nat, c: Choice)
    requires t in s.ops && Safe(s, t)
    ensures var o, a := s.ops[t], After(s, t, c);
      a.Some? && a.value.pc == Publish ==> o.pc == MapWindow && c.ok && a.value.held == o.held && a.value.h == o.h && a.value.id == o.id
    ensures s.ops[t].pc == MapWindow <==> ChangeOf(s, t, c).SetTables?
    ensures s.ops[t].pc == MapWindow ==> ChangeOf(s, t, c).table == c.table
  {
  }

  /** Where the list of a shown window is. */
  lemma MappingOwned(s: State, h: nat, id: nat, l: nat)
    requires OpsOk(s) && Mapping(s, h, id, l)
    ensures exists at :: Owns(s, at, l) && (at.OnSlot? || (at.OnCall? && at.t in s.ops && s.ops[at.t].pc == Publish))
  {
    match s.allocs[h].slots[id]
    case Live(_, _, _) => assert Owns(s, OnSlot(h, id), l);
    case Reserved(t) => assert OpOk(s, t); assert Owns(s, OnCall(t), l);
    case Pending(t, _, _) => assert OpOk(s, t); assert Owns(s, OnCall(t), l);
  }

  /** So no step frees it, or makes it anew. */
  lemma MappedListKept(s: State, t: nat, c: Choice, h: nat, id: nat, l: nat)
    requires CanAdvance(s, t, c) && OpsOk(s) && OnePlace(s) && Mapping(s, h, id, l)
    ensures l in s.lists && ChangeOf(s, t, c) != DropList(l) && (ChangeOf(s, t, c).NewList? ==> ChangeOf(s, t, c).made != l)
  {
    assert OpOk(s, t);
    MappingOwned(s, h, id, l);
    var at :| Owns(s, at, l) && (at.OnSlot? || (at.OnCall? && at.t in s.ops && s.ops[at.t].pc == Publish));
    InLists(s, at, l);
    ListChange(s, t, c);
    hide CanAdvance, Safe, Possible, ChangeOf, OpsOk, OpOk, Owns, OnePlace, Mapping;
    if ChangeOf(s, t, c) == DropList(l) {
      var from := if s.ops[t].pc == CheckSize then OnCall(t) else Spliced(t);
      OnlyAt(s, from, at, l);
    }
  }

  lemma ListChange(s: State, t: nat, c: Choice)
    requires CanAdvance(s, t, c)
    ensures var o, x := s.ops[t], ChangeOf(s, t, c);
      && (x.NewList? ==> x.made !in s.lists)
      && (x.DropList? ==> if o.pc == CheckSize then Owns(s, OnCall(t), x.dropped) else Owns(s, Spliced(t), x.dropped))
      && (x.DropList? ==> o.pc == CheckSize || o.pc == FreeRest)
  {
    hide Mapped, NoneFrom, EntryFrom, Distinct;
  }

  lemma SpaceKept(s: State, s': State, h: nat)
    requires SpaceOk(s, h) && h in s'.allocs && s'.allocs[h].mm == s.allocs[h].mm
    requires s.allocs[h].mm in s'.spaces && IsTable(s'.spaces[s.allocs[h].mm], PGD)
    ensures SpaceOk(s', h)
  {
  }

  lemma AdvanceKeepsSpaces(s: State, t: nat, c: Choice)
    requires CanAdvance(s, t, c) && SpacesOk(s)
    ensures SpacesOk(Advanced(s, t, c))
  {
    var o, x, s' := s.ops[t], ChangeOf(s, t, c), Advanced(s, t, c);
    ChangeApplies(s, t, c);
    assert s'.allocs == Changed(s, o.h, x).allocs && s'.spaces == Changed(s, o.h, x).spaces;
    NewTableOk(s, t, c);
    hide CanAdvance, Safe, Possible, ChangeOf, Advanced, Changed, IsTable, Applies;
    forall h | h in s'.allocs
      ensures h in s.allocs && s'.allocs[h].mm == s.allocs[h].mm && SpaceOk(s', h)
    {
      ChangedAllocs(s, o.h, x, h);
      assert SpaceOk(s, h);
      ChangedTables(s, o.h, x, 0, s.allocs[h].mm);
      SpaceKept(s, s', h);
    }
  }

  lemma NewTableOk(s: State, t: nat, c: Choice)
    requires CanAdvance(s, t, c)
    ensures ChangeOf(s, t, c).SetTables? ==> IsTable(ChangeOf(s, t, c).table, PGD)
  {
    hide IsTable, TranslatesTo, PartlyTranslatesTo;
  }

  /** Windows shown before a step are shown after it. */
  lemma WindowKept(s: State, t: nat, c: Choice, h: nat, id: nat, l: nat)
    requires CanAdvance(s, t, c) && Lifetimes(s) && OnePlace(s) && SpacesOk(s) && Mapping(s, h, id, l) && Translated(s, h, id, l)
    requires h in Advanced(s, t, c).allocs
    ensures Translated(Advanced(s, t, c), h, id, l)
  {
    var o, x, s' := s.ops[t], ChangeOf(s, t, c), Advanced(s, t, c);
    ChangeApplies(s, t, c);
    LifetimeParts(s);
    MappedListKept(s, t, c, h, id, l);
    AdvanceKeepsSpaces(s, t, c);
    assert SpaceOk(s', h) && SpaceOk(s, h);
    ChangedAllocs(s, o.h, x, h);
    ChangedTables(s, o.h, x, l, s.allocs[h].mm);
    assert s' == Called(Changed(s, o.h, x), t, After(s, t, c));
    if x.SetTables? && s.allocs[h].mm == s.allocs[o.h].mm {
      SameSpace(s, h, o.h);
      OtherWindow(s, t, c, id, l);
    }
    hide CanAdvance, Safe, Possible, ChangeOf, After, Advanced, Changed, IsTable, Applies, Lifetimes, OnePlace, SpacesOk, WindowOk, Mapping;
  }

  lemma SameSpace(s: State, g: nat, h: nat)
    requires SpacesOk(s) && g in s.allocs && h in s.allocs && s.allocs[g].mm == s.allocs[h].mm
    ensures g == h
  {
    hide SpaceOk;
  }

  /** The window being mapped is not a shown one. */
  lemma OtherWindow(s: State, t: nat, c: Choice, id: nat, l: nat)
    requires CanAdvance(s, t, c) && OpsOk(s) && SlotsOk(s) && Mapping(s, s.ops[t].h, id, l) && ChangeOf(s, t, c).SetTables?
    requires Translated(s, s.ops[t].h, id, l)
    ensures WindowOk(ChangeOf(s, t, c).table, id, s.lists[l])
  {
    var o := s.ops[t];
    PublishAfter(s, t, c);
    assert OpOk(s, t);
    MapHolds(s, t);
    assert o.id != id;
    assert SlotOk(s, o.h, o.id);
    TableChosen(s, t, c);
    hide CanAdvance, Safe, Possible, ChangeOf, After, IsTable, Mapped, WindowOk, OpsOk, SlotsOk, OpOk, SlotOk, Mapping;
    MappingOneWindow(c.table, s.spaces[s.allocs[o.h].mm], o.id, s.lists[o.held], c.ok, id, s.lists[l]);
  }

  lemma MapHolds(s: State, t: nat)
    requires OpOk(s, t) && s.ops[t].pc == MapWindow
    ensures var o := s.ops[t]; HoldsSlot(o) && o.h in s.allocs && o.id in s.allocs[o.h].slots && Taken(s.allocs[o.h].slots[o.id], o, t)
  {
  }

  lemma TableChosen(s: State, t: nat, c: Choice)
    requires CanAdvance(s, t, c) && s.ops[t].pc == MapWindow
    ensures var o := s.ops[t];
      && o.h in s.allocs && SpaceOk(s, o.h) && o.held in s.lists
      && Mapped(c.table, s.spaces[s.allocs[o.h].mm], o.id, s.lists[o.held], c.ok)
  {
    hide Mapped, IsTable;
  }

  /** And the one it maps is shown. */
  lemma NewWindow(s: State, t: nat, c: Choice, h: nat, id: nat, l: nat)
    requires CanAdvance(s, t, c) && OpsOk(s) && SpacesOk(s) && JustMapped(s.ops[t], c, h, id, l) && h in Advanced(s, t, c).allocs
    ensures Translated(Advanced(s, t, c), h, id, l)
  {
    var o, x, s' := s.ops[t], ChangeOf(s, t, c), Advanced(s, t, c);
    PublishAfter(s, t, c);
    TableChosen(s, t, c);
    ChangeApplies(s, t, c);
    AdvanceKeepsSpaces(s, t, c);
    assert SpaceOk(s', h) && SpaceOk(s, h);
    ChangedAllocs(s, o.h, x, h);
    ChangedTables(s, o.h, x, l, s.allocs[h].mm);
    assert s' == Called(Changed(s, o.h, x), t, After(s, t, c));
    hide CanAdvance, Safe, Possible, ChangeOf, After, Advanced, Changed, IsTable, Applies, SpacesOk, OpsOk, WindowOk, Mapped, HoldsSlot;
    MappingOneWindow(c.table, s.spaces[s.allocs[o.h].mm], o.id, s.lists[o.held], c.ok, id, s.lists[l]);
  }

  lemma AdvanceKeepsWindows(s: State, t: nat, c: Choice)
    requires CanAdvance(s, t, c) && Lifetimes(s) && OnePlace(s) && SpacesOk(s) && WindowsOk(s)
    ensures WindowsOk(Advanced(s, t, c))
  {
    var s' := Advanced(s, t, c);
    LifetimeParts(s);
    assert OpOk(s, t);
    hide CanAdvance, Advanced, Lifetimes, OpsOk, SlotsOk, OpOk, OnePlace, SpacesOk, Translated, JustMapped;
    forall h, id, l | Mapping(s', h, id, l)
      ensures Translated(s', h, id, l)
    {
      MappingBefore(s, t, c, h, id, l);
      if JustMapped(s.ops[t], c, h, id, l) {
        NewWindow(s, t, c, h, id, l);
      } else {
        assert Translated(s, h, id, l);
        WindowKept(s, t, c, h, id, l);
      }
    }
  }

  lemma StartSpaces(s: State, a: Action)
    requires Enabled(s, a) && IsStart(a)
    ensures Next(s, a).spaces == s.spaces && Next(s, a).lists == s.lists
  {
  }

  lemma StartKeepsWindows(s: State, a: Action)
    requires Enabled(s, a) && IsStart(a) && SlotsOk(s) && SpacesOk(s) && WindowsOk(s)
    ensures SpacesOk(Next(s, a)) && WindowsOk(Next(s, a))
  {
    var s', t := Next(s, a), StarterOf(a);
    StartSpaces(s, a);
    StartStarts(s, a);
    hide Next, Enabled, IsTable, WindowOk, SlotsOk, StarterOf;
    forall h | h in s'.allocs
      ensures h in s.allocs && s'.allocs[h].mm == s.allocs[h].mm && SpaceOk(s', h)
    {
      assert SpaceOk(s, h);
    }
    forall h, id, l | Mapping(s', h, id, l)
      ensures Translated(s', h, id, l)
    {
      StartMapping(s, s', t, h, id, l);
      assert Translated(s, h, id, l);
    }
  }

  lemma StartMapping(s: State, s': State, t: nat, h: nat, id: nat, l: nat)
    requires t in s'.ops && Starts(s, s', t, s'.ops[t]) && SlotsOk(s) && Mapping(s', h, id, l)
    ensures Mapping(s, h, id, l)
  {
    assert SlotOk(s, h, id);
    hide HoldsSlot, SlotsOk;
  }

  lemma OtherKeepsWindows(s: State, a: Action)
    requires Enabled(s, a) && !a.Advance? && !IsStart(a) && SpacesOk(s) && WindowsOk(s)
    ensures SpacesOk(Next(s, a)) && WindowsOk(Next(s, a))
  {
    var s' := Next(s, a);
    OtherKeepsSpaces(s, a);
    OtherExtends(s, a);
    hide Next, Enabled, IsTable, WindowOk, SpacesOk, SpaceOk;
    forall h, id, l | Mapping(s', h, id, l) ensures Translated(s', h, id, l) {
      assert Mapping(s, h, id, l);
      assert Translated(s, h, id, l);
    }
  }

  lemma OtherKeepsSpaces(s: State, a: Action)
    requires Enabled(s, a) && !a.Advance? && !IsStart(a) && SpacesOk(s)
    ensures SpacesOk(Next(s, a))
  {
    var s' := Next(s, a);
    OtherExtends(s, a);
    hide Next, Enabled, IsTable;
    forall h | h in s'.allocs ensures SpaceOk(s', h) {
      if h in s.allocs { assert SpaceOk(s, h); }
    }
  }

  lemma OtherExtends(s: State, a: Action)
    requires Enabled(s, a) && !a.Advance? && !IsStart(a)
    ensures var s' := Next(s, a);
      && s'.lists == s.lists && s'.ops == s.ops
      && (forall h :: h in s.allocs ==> h in s'.allocs && s'.allocs[h] == s.allocs[h])
      && (forall h :: h in s'.allocs && h !in s.allocs ==>
            s'.allocs[h].slots == map[] && SpaceOk(s', h) && forall g :: g in s.allocs ==> s.allocs[g].mm != s'.allocs[h].mm)
      && (forall g, h :: g in s'.allocs && h in s'.allocs && g !in s.allocs && h !in s.allocs ==> g == h)
      && (forall h :: h in s.allocs && s.allocs[h].mm in s.spaces ==>
            s.allocs[h].mm in s'.spaces && s'.spaces[s.allocs[h].mm] == s.spaces[s.allocs[h].mm])
  {
    hide IsTable, Walk;
  }

  /** Everything about lifetimes, places and windows together. */
  ghost predicate Sound(s: State) {
    Lifetimes(s) && OnePlace(s) && NoRepeats(s) && SpacesOk(s) && WindowsOk(s)
  }

  lemma StepKeepsSound(s: State, a: Action)
    requires Sound(s) && Enabled(s, a)
    ensures Sound(Next(s, a))
  {
    hide Lifetimes, OnePlace, NoRepeats, SpacesOk, WindowsOk, Next, Enabled;
    StepKeeps(s, a);
    StepKeepsPlaces(s, a);
    LifetimeParts(s);
    if a.Advance? {
      AdvanceIs(s, a);
      AdvanceKeepsSpaces(s, a.t, a.c);
      AdvanceKeepsWindows(s, a.t, a.c);
    } else if IsStart(a) {
      StartKeepsWindows(s, a);
    } else {
      OtherKeepsWindows(s, a);
    }
  }

  lemma {:induction false} SoundHolds(s: State, actions: seq<Action>)
    requires Sound(s) && CanRun(s, actions)
    ensures Sound(Run(s, actions))
    decreases |actions|
  {
    hide Sound, Enabled, Next;
    if actions != [] {
      StepKeepsSound(s, actions[0]);
      SoundHolds(Next(s, actions[0]), actions[1..]);
    }
  }

  lemma StartsSound()
    ensures Sound(Initial())
  {
    StartsEmpty();
    hide Lifetimes;
  }

  /**
    In every reachable state each live slot is below the limit or at it, and each address of its
    window translates, in its own address space, to the page of its own list that belongs there.
   */
  lemma LiveSlotsTranslate(actions: seq<Action>, h: nat, id: nat, va: nat)
    requires CanRun(Initial(), actions)
    requires var s := Run(Initial(), actions); h in s.allocs && id in s.allocs[h].slots && s.allocs[h].slots[id].Live? && InWindow(id, va)
    ensures var s := Run(Initial(), actions);
      && id <= THREADS_LIMIT && SpaceOk(s, h) && s.allocs[h].slots[id].list in s.lists
      && Walk(s.spaces[s.allocs[h].mm], PGD, va) == Some(FrameFor(s.lists[s.allocs[h].slots[id].list], IdToAddr(id), va))
  {
    StartsSound();
    var s := Run(Initial(), actions);
    hide CanRun, Run, Initial, Walk, IsTable, FrameFor, Lifetimes, OnePlace, NoRepeats;
    SoundHolds(Initial(), actions);
    var l := s.allocs[h].slots[id].list;
    assert Mapping(s, h, id, l);
    assert Translated(s, h, id, l);
    assert Shows(s.spaces[s.allocs[h].mm], id, s.lists[l], va);
  }
}
