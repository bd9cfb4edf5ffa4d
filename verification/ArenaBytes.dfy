/** What is on a shadow stack: after any run exactly what was there before, and what has been stored through its own slot since. */
module ArenaBytes {
  import opened PageTables
  import opened RangeWalks
  import opened PageMapping
  import opened Arena
  import opened ArenaReferences
  import opened ArenaOwnership
  import opened ArenaTranslation
  import opened ArenaPages
  import opened ArenaRuns
  import opened ArenaSafety
  import opened Wrappers

  /** A list whose pages, and what is on them, are the same in both states. */
  predicate SameList(s: State, s': State, l: nat) {
    && l in s.lists && l in s'.lists && s'.lists[l] == s.lists[l]
    && forall k :: 0 <= k < |s.lists[l]| ==> SamePage(s, s', s.lists[l][k])
  }

  predicate SamePage(s: State, s': State, p: nat) {
    p in s.content && p in s'.content && s'.content[p] == s.content[p]
  }

  /** A call steps on the lists it has, a store goes through one slot. */
  predicate Reaches(a: Action, at: Place) {
    match a
    case Advance(t, _) => at == OnCall(t) || at == Spliced(t)
    case Store(h, id, _, _) => at == OnSlot(h, id)
    case _ => false
  }

  lemma NotReaching(a: Action, at: Place)
    requires !Reaches(a, at)
    ensures a.Advance? ==> at != OnCall(a.t) && at != Spliced(a.t)
    ensures a.Store? ==> at != OnSlot(a.space, a.slot)
  {
  }

  lemma ChangedSame(s: State, h: nat, x: Change, l: nat, p: nat)
    requires Applies(s, h, x) && InList(s, l, p) && p in s.content
    requires (x.WritePage? ==> x.page != p) && (x.DropList? ==> x.dropped != l && !InList(s, x.dropped, p))
    requires x.NewList? ==> x.made !in s.lists && p !in x.pages
    ensures var s' := Changed(s, h, x); l in s'.lists && s'.lists[l] == s.lists[l] && SamePage(s, s', p)
  {
  }

  /** The list a call writes to, and the one it frees, are its own. */
  lemma WritesOwn(s: State, t: nat, c: Choice, l: nat)
    requires CanAdvance(s, t, c)
    ensures var x := ChangeOf(s, t, c);
      && (x.WritePage? ==> InList(s, s.ops[t].held, x.page) && Owns(s, OnCall(t), s.ops[t].held))
      && (x == DropList(l) ==> Owns(s, OnCall(t), l) || Owns(s, Spliced(t), l))
  {
    hide Possible;
  }

  lemma PageStays(s: State, t: nat, c: Choice, at: Place, l: nat, p: nat)
    requires OnePlace(s) && PagesOk(s) && CanAdvance(s, t, c) && Owns(s, at, l) && InList(s, l, p)
    requires at != OnCall(t) && at != Spliced(t)
    ensures var s' := Advanced(s, t, c); l in s'.lists && s'.lists[l] == s.lists[l] && SamePage(s, s', p)
  {
    var o, x := s.ops[t], ChangeOf(s, t, c);
    AdvancedIs(s, t, c);
    WritesOwn(s, t, c, l);
    PageChange(s, t, c);
    hide CanAdvance, Safe, Possible, ChangeOf, After, Advanced, Changed, PagesOk, OnePlace, Owns, Distinct, Called;
    ListInContent(s, l, p);
    OnlyAt(s, at, OnCall(t), l);
    OnlyAt(s, at, Spliced(t), l);
    if x.WritePage? { OneList(s, o.held, l, p); }
    if x.DropList? { OneList(s, x.dropped, l, p); }
    ChangedSame(s, o.h, x, l, p);
  }

  /** What a store writes: the page of its slot's list that its address is on. */
  function Target(s: State, h: nat, id: nat, va: nat): nat
    requires h in s.allocs && id in s.allocs[h].slots && s.allocs[h].slots[id].Live? && s.allocs[h].slots[id].list in s.lists
  {
    FrameFor(s.lists[s.allocs[h].slots[id].list], IdToAddr(id), va)
  }

  lemma StoreGuard(s: State, a: Action)
    requires Enabled(s, a) && a.Store?
    ensures a.space in s.allocs && a.slot in s.allocs[a.space].slots && s.allocs[a.space].slots[a.slot].Live? && InWindow(a.slot, a.va)
    ensures var s' := Next(s, a); s'.allocs == s.allocs && s'.lists == s.lists && s'.ops == s.ops
  {
    hide IsTable, Walk, InWindow;
  }

  lemma StoreWritesTarget(s: State, a: Action)
    requires Sound(s) && PagesOk(s) && Enabled(s, a) && a.Store?
    ensures a.space in s.allocs && a.slot in s.allocs[a.space].slots && s.allocs[a.space].slots[a.slot].Live?
    ensures var l := s.allocs[a.space].slots[a.slot].list;
      && l in s.lists && InList(s, l, Target(s, a.space, a.slot, a.va)) && InWindow(a.slot, a.va)
      && Next(s, a).content == s.content[Target(s, a.space, a.slot, a.va) := a.byte]
  {
    StoreGuard(s, a);
    StoreWrites(s, a);
    assert WindowsOk(s) by { hide WindowsOk; }
    hide *;
    WalkHits(s, a.space, a.slot, a.va);
    LandsAt(s, a.space, a.slot, a.va);
  }

  lemma WalkHits(s: State, h: nat, id: nat, va: nat)
    requires WindowsOk(s) && h in s.allocs && id in s.allocs[h].slots && s.allocs[h].slots[id].Live? && InWindow(id, va)
    ensures SpaceOk(s, h) && s.allocs[h].slots[id].list in s.lists
    ensures Walk(s.spaces[s.allocs[h].mm], PGD, va) == Some(Target(s, h, id, va))
  {
    var l := s.allocs[h].slots[id].list;
    hide WindowsOk, Walk, IsTable, InWindow, FrameFor;
    assert Mapping(s, h, id, l);
    WindowTranslated(s, h, id, l);
    assert Shows(s.spaces[s.allocs[h].mm], id, s.lists[l], va);
  }

  lemma OneWritten(s: State, s': State, l: nat, page: nat, byte: nat)
    requires l in s.lists && (forall k :: 0 <= k < |s.lists[l]| ==> s.lists[l][k] in s.content) && !InList(s, l, page)
    requires s'.lists == s.lists && (s'.content == s.content || s'.content == s.content[page := byte])
    ensures SameList(s, s', l)
  {
  }

  lemma StoreStays(s: State, a: Action, at: Place, l: nat)
    requires Sound(s) && PagesOk(s) && Enabled(s, a) && a.Store? && Owns(s, at, l) && at != OnSlot(a.space, a.slot)
    ensures SameList(s, Next(s, a), l)
  {
    StoreGuard(s, a);
    StoreWritesTarget(s, a);
    SoundPlaces(s);
    hide Enabled, Next, Sound, PagesOk, OnePlace, Owns, Target, InWindow, Distinct, Lifetimes, SameList, ListOk;
    InLists(s, at, l);
    ListsAre(s, l);
    ListSize(s, l);
    var own := s.allocs[a.space].slots[a.slot].list;
    SlotOwns(s, a.space, a.slot);
    OnlyAt(s, at, OnSlot(a.space, a.slot), l);
    OneList(s, own, l, Target(s, a.space, a.slot, a.va));
    OneWritten(s, Next(s, a), l, Target(s, a.space, a.slot, a.va), a.byte);
  }

  lemma OtherActionSame(s: State, a: Action)
    requires Enabled(s, a) && !a.Advance? && !a.Store?
    ensures Next(s, a).lists == s.lists && Next(s, a).content == s.content
  {
    if IsStart(a) { StartIs(s, a); }
    hide IsTable, CanAdvance;
  }

  lemma SameIfPages(s: State, s': State, l: nat)
    requires l in s.lists && |s.lists[l]| == PAGES
    requires forall p :: InList(s, l, p) ==> l in s'.lists && s'.lists[l] == s.lists[l] && SamePage(s, s', p)
    ensures SameList(s, s', l)
  {
    assert InList(s, l, s.lists[l][0]);
    assert forall k :: 0 <= k < |s.lists[l]| ==> InList(s, l, s.lists[l][k]);
  }

  lemma AdvanceSame(s: State, t: nat, c: Choice, at: Place, l: nat)
    requires OnePlace(s) && PagesOk(s) && CanAdvance(s, t, c) && Owns(s, at, l) && at != OnCall(t) && at != Spliced(t)
    ensures SameList(s, Advanced(s, t, c), l)
  {
    var s' := Advanced(s, t, c);
    InLists(s, at, l);
    ListsAre(s, l);
    ListSize(s, l);
    hide OnePlace, PagesOk, CanAdvance, Owns, SameList, SamePage, Advanced, ListOk;
    forall p | InList(s, l, p)
      ensures l in s'.lists && s'.lists[l] == s.lists[l] && SamePage(s, s', p)
    {
      PageStays(s, t, c, at, l, p);
    }
    SameIfPages(s, s', l);
  }

  lemma ListSize(s: State, l: nat)
    requires ListOk(s, l)
    ensures l in s.lists && |s.lists[l]| == PAGES && forall k :: 0 <= k < PAGES ==> s.lists[l][k] in s.content
  {
    hide Distinct;
  }

  lemma OtherSame(s: State, s': State, at: Place, l: nat)
    requires OnePlace(s) && PagesOk(s) && Owns(s, at, l) && s'.lists == s.lists && s'.content == s.content
    ensures SameList(s, s', l)
  {
    hide OnePlace, PagesOk, Owns, ListOk;
    InLists(s, at, l);
    ListsAre(s, l);
    ListSize(s, l);
  }

  /** No step touches a list it does not reach. */
  lemma ListStaysSame(s: State, a: Action, at: Place, l: nat)
    requires Invariant(s) && Enabled(s, a) && Owns(s, at, l) && !Reaches(a, at)
    ensures SameList(s, Next(s, a), l)
  {
    InvariantParts(s);
    if a.Advance? {
      AdvanceIs(s, a);
      hide *;
      NotReaching(a, at);
      AdvanceSame(s, a.t, a.c, at, l);
    } else if a.Store? {
      NotReaching(a, at);
      hide *;
      StoreStays(s, a, at, l);
    } else {
      OtherActionSame(s, a);
      hide *;
      OtherSame(s, Next(s, a), at, l);
    }
  }

  // ---------------------------------------------------------------- live slots

  /** The step that takes a slot down for good. */
  predicate Frees(s: State, a: Action, h: nat, id: nat) {
    a.Advance? && a.t in s.ops && s.ops[a.t].pc == EraseLive && s.ops[a.t].h == h && s.ops[a.t].id == id
  }

  predicate StoresTo(a: Action, h: nat, id: nat) {
    a.Store? && a.space == h && a.slot == id
  }

  lemma NotPublished(s: State, t: nat, c: Choice, h: nat, id: nat, slot: Slot)
    requires CanAdvance(s, t, c) && OpOk(s, t) && LiveAt(s, h, id, slot) && TurnsLive(s.ops[t], h, id)
    ensures s.ops[t].pc == EraseLive
  {
    TurnChange(s, t, c);
    hide CanAdvance, OpOk;
  }

  lemma OtherLive(s: State, a: Action, h: nat, id: nat, slot: Slot)
    requires Enabled(s, a) && !a.Advance? && LiveAt(s, h, id, slot)
    ensures LiveAt(Next(s, a), h, id, slot)
  {
    if IsStart(a) { StartIs(s, a); }
    hide IsTable, CanAdvance, Walk;
  }

  /** A live slot stays as it is until it is freed. */
  lemma StaysLive(s: State, a: Action, h: nat, id: nat, slot: Slot)
    requires Lifetimes(s) && Enabled(s, a) && LiveAt(s, h, id, slot) && !Frees(s, a, h, id)
    ensures LiveAt(Next(s, a), h, id, slot)
  {
    if a.Advance? {
      EmptyWhenFreed(s, a);
      hide Lifetimes, Enabled, Next, OpOk, CanAdvance, Advanced, ChangeOf;
      if TurnsLive(s.ops[a.t], h, id) { NotPublished(s, a.t, a.c, h, id, slot); }
      LiveStays(s, a.t, a.c, h, id, slot);
    } else {
      OtherLive(s, a, h, id, slot);
    }
  }

  /** A live slot and all the pages of its list. */
  predicate HasStack(s: State, h: nat, id: nat) {
    h in s.allocs && id in s.allocs[h].slots && s.allocs[h].slots[id].Live? && Present(s, s.allocs[h].slots[id].list)
  }

  function ListBytes(s: State, l: nat): (r: seq<nat>)
    requires Present(s, l)
    ensures |r| == PAGES && forall k :: 0 <= k < PAGES ==> r[k] == s.content[s.lists[l][k]]
  {
    seq(PAGES, k requires 0 <= k < PAGES => s.content[s.lists[l][k]])
  }

  function StackBytes(s: State, h: nat, id: nat): (r: seq<nat>)
    requires HasStack(s, h, id)
    ensures |r| == PAGES
  {
    ListBytes(s, s.allocs[h].slots[id].list)
  }

  lemma LiveHasStack(s: State, h: nat, id: nat, slot: Slot)
    requires OnePlace(s) && PagesOk(s) && LiveAt(s, h, id, slot)
    ensures HasStack(s, h, id)
  {
    SlotOwns(s, h, id);
    PresentIfOwned(s, OnSlot(h, id), slot.list);
    hide *;
  }

  lemma SameBytes(s: State, s': State, h: nat, id: nat)
    requires HasStack(s, h, id) && LiveAt(s', h, id, s.allocs[h].slots[id]) && SameList(s, s', s.allocs[h].slots[id].list)
    ensures HasStack(s', h, id) && StackBytes(s', h, id) == StackBytes(s, h, id)
  {
  }

  /** The page of its window that an address is on. */
  function PageOf(id: nat, va: nat): int {
    (va - IdToAddr(id)) / PAGE_SIZE
  }

  /** What one action leaves on the stack of a slot. */
  function Stored(bytes: seq<nat>, a: Action, h: nat, id: nat): seq<nat> {
    if StoresTo(a, h, id) && 0 <= PageOf(id, a.va) < |bytes| then bytes[PageOf(id, a.va) := a.byte] else bytes
  }

  lemma StoreShows(s: State, a: Action)
    requires Invariant(s) && Enabled(s, a) && a.Store? && HasStack(s, a.space, a.slot)
    ensures HasStack(Next(s, a), a.space, a.slot)
    ensures StackBytes(Next(s, a), a.space, a.slot) == Stored(StackBytes(s, a.space, a.slot), a, a.space, a.slot)
  {
    InvariantParts(s);
    StoreGuard(s, a);
    StoreWritesTarget(s, a);
    hide Invariant, Sound, PagesOk, Enabled, Next, OnePlace, Lifetimes;
    ListsAre(s, s.allocs[a.space].slots[a.slot].list);
    WriteOne(s, Next(s, a), a);
  }

  lemma WriteOne(s: State, s': State, a: Action)
    requires a.Store? && HasStack(s, a.space, a.slot) && ListOk(s, s.allocs[a.space].slots[a.slot].list) && InWindow(a.slot, a.va)
    requires s'.allocs == s.allocs && s'.lists == s.lists && s'.content == s.content[Target(s, a.space, a.slot, a.va) := a.byte]
    ensures HasStack(s', a.space, a.slot)
    ensures StackBytes(s', a.space, a.slot) == Stored(StackBytes(s, a.space, a.slot), a, a.space, a.slot)
  {
    var l, n := s.allocs[a.space].slots[a.slot].list, PageOf(a.slot, a.va);
    assert 0 <= n < PAGES && Target(s, a.space, a.slot, a.va) == s.lists[l][n];
    hide Target, InWindow, PageOf;
    assert forall k :: 0 <= k < PAGES && k != n ==> s.lists[l][k] != s.lists[l][n];
  }

  /** A stack changes by stores through its own slot alone, and by those exactly where they go. */
  lemma OwnStoresOnly(s: State, a: Action, h: nat, id: nat)
    requires Invariant(s) && Enabled(s, a) && HasStack(s, h, id) && !Frees(s, a, h, id)
    ensures HasStack(Next(s, a), h, id) && Next(s, a).allocs[h].slots[id] == s.allocs[h].slots[id]
    ensures StackBytes(Next(s, a), h, id) == Stored(StackBytes(s, h, id), a, h, id)
  {
    var slot := s.allocs[h].slots[id];
    InvariantParts(s);
    StaysLive(s, a, h, id, slot);
    if StoresTo(a, h, id) {
      StoreShows(s, a);
    } else {
      SlotOwns(s, h, id);
      NotReached(a, h, id);
      ListStaysSame(s, a, OnSlot(h, id), slot.list);
      SameBytes(s, Next(s, a), h, id);
    }
    hide Invariant, Lifetimes, Enabled, Next, StackBytes, Frees, PageOf, OnePlace, PagesOk;
  }

  lemma NotReached(a: Action, h: nat, id: nat)
    requires !StoresTo(a, h, id)
    ensures !Reaches(a, OnSlot(h, id))
  {
  }

  // ---------------------------------------------------------------- every run

  ghost predicate NeverFreed(s: State, actions: seq<Action>, h: nat, id: nat)
    requires CanRun(s, actions)
    decreases |actions|
  {
    actions == [] || (!Frees(s, actions[0], h, id) && NeverFreed(Next(s, actions[0]), actions[1..], h, id))
  }

  function AllStored(bytes: seq<nat>, actions: seq<Action>, h: nat, id: nat): seq<nat>
    decreases |actions|
  {
    if actions == [] then bytes else AllStored(Stored(bytes, actions[0], h, id), actions[1..], h, id)
  }

  lemma {:induction false} RunStores(s: State, actions: seq<Action>, h: nat, id: nat)
    requires Invariant(s) && CanRun(s, actions) && HasStack(s, h, id) && NeverFreed(s, actions, h, id)
    ensures HasStack(Run(s, actions), h, id) && Run(s, actions).allocs[h].slots[id] == s.allocs[h].slots[id]
    ensures StackBytes(Run(s, actions), h, id) == AllStored(StackBytes(s, h, id), actions, h, id)
    decreases |actions|
  {
    hide Invariant, Enabled, Next, StackBytes, Stored, Frees, HasStack;
    if actions != [] {
      OwnStoresOnly(s, actions[0], h, id);
      StepKeepsInvariant(s, actions[0]);
      RunStores(Next(s, actions[0]), actions[1..], h, id);
    }
  }

  /**
    Whatever all the other threads do, copying, clearing, mapping and storing included: from any
    reachable state on, a stack that is not freed holds what was on it with the stores through its
    own slot applied in order.
   */
  lemma StackIsOwnStores(before: seq<Action>, actions: seq<Action>, h: nat, id: nat)
    requires CanRun(Initial(), before) && CanRun(Run(Initial(), before), actions)
    requires var s := Run(Initial(), before);
      h in s.allocs && id in s.allocs[h].slots && s.allocs[h].slots[id].Live? && NeverFreed(s, actions, h, id)
    ensures var s := Run(Initial(), before); var d := Run(s, actions);
      && HasStack(s, h, id) && HasStack(d, h, id) && d.allocs[h].slots[id] == s.allocs[h].slots[id]
      && StackBytes(d, h, id) == AllStored(StackBytes(s, h, id), actions, h, id)
  {
    InitiallyInvariant();
    var s := Run(Initial(), before);
    hide Invariant, Initial, CanRun, Run, StackBytes, HasStack, NeverFreed, AllStored, OnePlace, PagesOk;
    InvariantHolds(Initial(), before);
    InvariantParts(s);
    LiveHasStack(s, h, id, s.allocs[h].slots[id]);
    RunStores(s, actions, h, id);
  }
}
