/** What holds in the arena after any run: the pages are partitioned and idle stacks are zeroes. */
module ArenaRuns {
  import opened PageTables
  import opened RangeWalks
  import opened Arena
  import opened ArenaReferences
  import opened ArenaOwnership
  import opened ArenaThreads
  import opened ArenaFreeList
  import opened ArenaTranslation
  import opened ArenaPages
  import opened Wrappers

  ghost predicate Invariant(s: State) {
    Sound(s) && PagesOk(s) && ZeroOk(s) && LockOk(s) && DescsOk(s) && NamesOk(s)
  }

  // ---------------------------------------------------------------- zeroes

  lemma AdvanceKeepsZero(s: State, t: nat, c: Choice)
    requires CanAdvance(s, t, c) && Sound(s) && PagesOk(s) && ZeroOk(s) && OnePlace(Advanced(s, t, c))
    ensures ZeroOk(Advanced(s, t, c))
  {
    var s' := Advanced(s, t, c);
    hide CanAdvance, Sound, PagesOk, OnePlace, CallZero, ZeroUpTo, Advanced;
    forall l | l in s'.free ensures ZeroUpTo(s', l, PAGES) {
      FreeStaysZero(s, t, c, l);
    }
    forall r | r in s'.ops && InGlFree(s'.ops[r].pc) ensures CallZero(s', r) {
      AdvancedOps(s, t, c, r);
      if r == t {
        OwnStaysZero(s, t, c);
      } else {
        CallStaysZero(s, t, c, r);
      }
    }
  }

  lemma AdvancedOps(s: State, t: nat, c: Choice, r: nat)
    requires CanAdvance(s, t, c)
    ensures r != t && r in Advanced(s, t, c).ops ==> r in s.ops && s.ops[r] == Advanced(s, t, c).ops[r]
    ensures t in s.ops
  {
    hide Safe, Possible, After, ChangeOf;
  }

  lemma StartKeepsZero(s: State, a: Action)
    requires Enabled(s, a) && IsStart(a) && ZeroOk(s)
    ensures ZeroOk(Next(s, a))
  {
    var s', t := Next(s, a), StarterOf(a);
    NewCallHoldsNothing(s, a);
    NewCallNotFreeing(s, a);
    hide Enabled, Next, StarterOf;
    forall r | r in s'.ops && InGlFree(s'.ops[r].pc) ensures CallZero(s', r) {
      assert r != t;
      assert CallZero(s, r);
    }
    forall l | l in s'.free ensures ZeroUpTo(s', l, PAGES) {
      assert ZeroUpTo(s, l, PAGES);
    }
  }

  lemma NewCallNotFreeing(s: State, a: Action)
    requires Enabled(s, a) && IsStart(a) && StarterOf(a) in Next(s, a).ops
    ensures !InGlFree(Next(s, a).ops[StarterOf(a)].pc)
  {
    StartIs(s, a);
    hide Enabled, Next;
    StartingHoldsNothing(Next(s, a).ops[StarterOf(a)]);
  }

  /** A store through a live slot cannot reach a list on the free list or being cleared. */
  lemma StoreMisses(s: State, a: Action, at: Place, l: nat, n: nat)
    requires Sound(s) && PagesOk(s) && Enabled(s, a) && a.Store? && Owns(s, at, l) && !at.OnSlot? && ZeroUpTo(s, l, n)
    ensures ZeroUpTo(Next(s, a), l, n)
  {
    StoreWrites(s, a);
    SoundPlaces(s);
    hide *;
    LandsAt(s, a.space, a.slot, a.va);
    var own := s.allocs[a.space].slots[a.slot].list;
    var page := Walk(s.spaces[s.allocs[a.space].mm], PGD, a.va).value;
    SlotOwns(s, a.space, a.slot);
    OnlyAt(s, at, OnSlot(a.space, a.slot), l);
    OneList(s, own, l, page);
    OtherZero(s, Next(s, a), l, n, page, a.byte);
  }

  lemma OtherZero(s: State, s': State, l: nat, n: nat, page: nat, byte: nat)
    requires ZeroUpTo(s, l, n) && !InList(s, l, page) && s'.lists == s.lists && s'.content == s.content[page := byte]
    ensures ZeroUpTo(s', l, n)
  {
  }

  lemma SlotOwns(s: State, h: nat, id: nat)
    requires h in s.allocs && id in s.allocs[h].slots && s.allocs[h].slots[id].Live?
    ensures Owns(s, OnSlot(h, id), s.allocs[h].slots[id].list)
  {
  }

  lemma SoundPlaces(s: State)
    requires Sound(s)
    ensures OnePlace(s) && Lifetimes(s)
  {
    hide OnePlace, Lifetimes;
  }

  lemma StoreFrame(s: State, a: Action)
    requires Enabled(s, a) && a.Store?
    ensures Next(s, a).free == s.free && Next(s, a).ops == s.ops
  {
    hide Walk, IsTable;
  }

  lemma StoreKeepsZero(s: State, a: Action)
    requires Sound(s) && PagesOk(s) && ZeroOk(s) && Enabled(s, a) && a.Store?
    ensures ZeroOk(Next(s, a))
  {
    hide Sound, PagesOk, Enabled, Next, ZeroUpTo;
    var s' := Next(s, a);
    StoreFrame(s, a);
    forall r | r in s'.ops && InGlFree(s'.ops[r].pc) ensures CallZero(s', r) {
      assert CallZero(s, r);
      assert Owns(s, OnCall(r), s.ops[r].held);
      StoreMisses(s, a, OnCall(r), s.ops[r].held, ClearedBy(s.ops[r]));
    }
    forall l | l in s'.free ensures ZeroUpTo(s', l, PAGES) {
      assert Owns(s, OnFreeList, l);
      StoreMisses(s, a, OnFreeList, l, PAGES);
    }
  }

  lemma CreateKeepsZero(s: State, a: Action)
    requires Enabled(s, a) && a.Create? && ZeroOk(s)
    ensures ZeroOk(Next(s, a))
  {
    var s' := Next(s, a);
    assert s'.free == s.free && s'.ops == s.ops && s'.content == s.content && s'.lists == s.lists;
    hide Enabled, Next;
    forall r | r in s'.ops && InGlFree(s'.ops[r].pc) ensures CallZero(s', r) {
      assert CallZero(s, r);
    }
    forall l | l in s'.free ensures ZeroUpTo(s', l, PAGES) {
      assert ZeroUpTo(s, l, PAGES);
    }
  }

  lemma StepKeepsInvariant(s: State, a: Action)
    requires Invariant(s) && Enabled(s, a)
    ensures Invariant(Next(s, a))
  {
    hide Sound, PagesOk, ZeroOk, LockOk, DescsOk, NamesOk, Enabled, Next;
    StepKeepsSound(s, a);
    StepKeepsPages(s, a);
    StepKeepsLock(s, a);
    SoundPlaces(s);
    StepKeepsDescs(s, a);
    StepKeepsNames(s, a);
    if a.Advance? {
      AdvanceIs(s, a);
      SoundPlaces(Next(s, a));
      AdvanceKeepsZero(s, a.t, a.c);
    } else if IsStart(a) {
      StartKeepsZero(s, a);
    } else if a.Store? {
      StoreKeepsZero(s, a);
    } else {
      CreateKeepsZero(s, a);
    }
  }

  lemma {:induction false} InvariantHolds(s: State, actions: seq<Action>)
    requires Invariant(s) && CanRun(s, actions)
    ensures Invariant(Run(s, actions))
    decreases |actions|
  {
    hide Invariant, Enabled, Next;
    if actions != [] {
      StepKeepsInvariant(s, actions[0]);
      InvariantHolds(Next(s, actions[0]), actions[1..]);
    }
  }

  // ---------------------------------------------------------------- the theorems

  ghost predicate Within(s: State, at: Place, l: nat, p: nat) {
    Owns(s, at, l) && InList(s, l, p)
  }

  ghost predicate SomewhereWithin(s: State, p: nat) {
    exists at, l :: Within(s, at, l, p)
  }

  /** The pages obtained and not returned are the disjoint union of what slots, calls and free list hold. */
  ghost predicate Partitioned(s: State) {
    && (forall p :: p in s.content <==> SomewhereWithin(s, p))
    && (forall at, l, to, m, p :: Within(s, at, l, p) && Within(s, to, m, p) ==> at == to && l == m)
    && (forall l :: l in s.lists ==> |s.lists[l]| == PAGES && Distinct(s.lists[l]))
  }

  lemma InvariantPartitions(s: State)
    requires OnePlace(s) && PagesOk(s)
    ensures Partitioned(s)
  {
    hide Owns;
    forall p | p in s.content ensures SomewhereWithin(s, p) {
      assert InSomeList(s, p);
      var l :| InList(s, l, p);
      assert Held(s, l);
      var at :| Owns(s, at, l);
      assert Within(s, at, l, p);
    }
    forall at, l, p | Within(s, at, l, p) ensures p in s.content {
      ListInContent(s, l, p);
    }
    forall l | l in s.lists ensures |s.lists[l]| == PAGES && Distinct(s.lists[l]) {
      assert ListOk(s, l);
    }
  }

  lemma InitiallyInvariant()
    ensures Invariant(Initial())
  {
    StartsSound();
    hide Sound;
  }

  /** No page is lost, shared or returned twice, whatever fails on the way, and every stack on the free list is all zeroes. */
  lemma PagesPartition(actions: seq<Action>)
    requires CanRun(Initial(), actions)
    ensures Partitioned(Run(Initial(), actions))
    ensures var s := Run(Initial(), actions); forall l :: l in s.free ==> ZeroUpTo(s, l, PAGES)
  {
    InitiallyInvariant();
    hide CanRun, Run, Initial, Partitioned, ZeroUpTo, PagesOk, LockOk, DescsOk, NamesOk;
    InvariantHolds(Initial(), actions);
    SoundPlaces(Run(Initial(), actions));
    InvariantPartitions(Run(Initial(), actions));
  }

  /** After any run each address of a live slot's window is on a page of the slot's own list. */
  lemma SlotOfRun(actions: seq<Action>, h: nat, id: nat)
    requires CanRun(Initial(), actions)
    requires var s := Run(Initial(), actions); h in s.allocs && id in s.allocs[h].slots && s.allocs[h].slots[id].Live?
    ensures id <= THREADS_LIMIT
    ensures var s := Run(Initial(), actions); forall va: nat :: InWindow(id, va) ==> Lands(s, h, id, va)
  {
    InitiallyInvariant();
    var s := Run(Initial(), actions);
    hide CanRun, Run, Initial, InWindow, Lands, PagesOk, ZeroOk, LockOk, DescsOk, NamesOk, Lifetimes, OnePlace, NoRepeats, SpacesOk, WindowsOk;
    InvariantHolds(Initial(), actions);
    LiveBelow(s, h, id);
    forall va: nat | InWindow(id, va) ensures Lands(s, h, id, va) {
      StoreLands(s, h, id, va);
    }
  }

  lemma LiveBelow(s: State, h: nat, id: nat)
    requires Lifetimes(s) && h in s.allocs && id in s.allocs[h].slots
    ensures id <= THREADS_LIMIT
  {
    assert SlotOk(s, h, id);
    hide *;
  }
}
