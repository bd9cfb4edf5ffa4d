/** gl_lock, gl_size and the free list: the count is right whenever the lock is free, and stays bounded although it is checked without the lock. */
module ArenaFreeList {
  import opened PageTables
  import opened Arena
  import opened ArenaReferences
  import opened ArenaOwnership
  import opened Wrappers

  /** What gl_size is, depending on who holds gl_lock and where it is. */
  predicate SizeOk(s: State) {
    match s.lock
    case None => s.size == |s.free|
    case Some(t) => t in s.ops && SizeAt(s, s.ops[t].pc)
  }

  predicate SizeAt(s: State, pc: Pc) {
    match pc
    case Unlinking => s.free != [] && s.size == |s.free| - 1
    case Linking => s.size == |s.free| + 1
    case Emptying => s.free == []
    case _ => false
  }

  predicate Locked(pc: Pc) {
    pc == Unlinking || pc == Linking || pc == Emptying
  }

  ghost predicate LockOk(s: State) {
    SizeOk(s) && forall t :: t in s.ops && Locked(s.ops[t].pc) ==> s.lock == Some(t)
  }

  lemma AdvanceKeepsSize(s: State, t: nat, c: Choice)
    requires CanAdvance(s, t, c) && LockOk(s)
    ensures SizeOk(Advanced(s, t, c))
  {
    AdvancedIs(s, t, c);
    assert t in s.ops;
    hide CanAdvance, Safe, Possible, Advanced, Changed, After, ChangeOf;
    if Locked(s.ops[t].pc) {
      UnlockAfter(s, t, c);
    } else {
      NotLocking(s, t, c);
    }
  }

  /** The three steps that let go of the lock. */
  lemma UnlockAfter(s: State, t: nat, c: Choice)
    requires CanAdvance(s, t, c) && Locked(s.ops[t].pc)
    ensures Advanced(s, t, c).lock == None && Unlocks(s, s.ops[t], Advanced(s, t, c).free, Advanced(s, t, c).size)
    ensures var a := After(s, t, c); a.Some? && !Locked(a.value.pc)
  {
    UnlockChange(s, t, c);
    AdvancedIs(s, t, c);
    ChangedRest(s, s.ops[t].h, ChangeOf(s, t, c));
    hide CanAdvance, Safe, Possible, ChangeOf, After, Changed, Advanced, Unlocks;
  }

  predicate Unlocks(s: State, o: Op, free: seq<nat>, size: int) {
    match o.pc
    case Unlinking => s.free != [] && free == s.free[1..] && size == s.size
    case Linking => free == [o.held] + s.free && size == s.size
    case _ => free == s.free && size == 0
  }

  lemma UnlockChange(s: State, t: nat, c: Choice)
    requires CanAdvance(s, t, c) && Locked(s.ops[t].pc)
    ensures var x := ChangeOf(s, t, c); x.SetFree? && x.lock == None && Unlocks(s, s.ops[t], x.free, x.size)
    ensures var a := After(s, t, c); a.Some? && !Locked(a.value.pc)
  {
    hide Possible;
  }

  /** The steps that take it, and those that do neither. */
  lemma NotLocking(s: State, t: nat, c: Choice)
    requires CanAdvance(s, t, c) && !Locked(s.ops[t].pc)
    ensures var pc, a, s' := s.ops[t].pc, After(s, t, c), Advanced(s, t, c);
      || (s'.free == s.free && s'.size == s.size && s'.lock == s.lock && (a.Some? ==> !Locked(a.value.pc)))
      || (s.lock == None && s'.lock == Some(t) && a.Some? && (
            || (a.value.pc == Unlinking && s.free != [] && s'.free == s.free && s'.size == s.size - 1)
            || (a.value.pc == Linking && s'.free == s.free && s'.size == s.size + 1)
            || (a.value.pc == Emptying && s'.free == [] && s'.size == s.size)))
  {
    LockChange(s, t, c);
    AdvancedIs(s, t, c);
    ChangedRest(s, s.ops[t].h, ChangeOf(s, t, c));
    hide CanAdvance, Safe, Possible, ChangeOf, After, Changed, Advanced;
  }

  lemma LockChange(s: State, t: nat, c: Choice)
    requires CanAdvance(s, t, c) && !Locked(s.ops[t].pc)
    ensures var a, x := After(s, t, c), ChangeOf(s, t, c);
      || (!x.SetFree? && (a.Some? ==> !Locked(a.value.pc)))
      || (x.SetFree? && s.lock == None && x.lock == Some(t) && a.Some? && (
            || (a.value.pc == Unlinking && s.free != [] && x.free == s.free && x.size == s.size - 1)
            || (a.value.pc == Linking && x.free == s.free && x.size == s.size + 1)
            || (a.value.pc == Emptying && x.free == [] && x.size == s.size)))
  {
    AfterIs(s, t, c);
    LockPcs(s, t, c);
    assert t in s.ops;
    hide CanAdvance, Safe, After, PcAfter, ChangeOf;
  }

  lemma LockPcs(s: State, t: nat, c: Choice)
    requires CanAdvance(s, t, c) && !Locked(s.ops[t].pc)
    ensures var next, x := PcAfter(s, t, c), ChangeOf(s, t, c);
      || (!x.SetFree? && (next.Some? ==> !Locked(next.value)))
      || (x.SetFree? && s.lock == None && x.lock == Some(t) && next.Some? && (
            || (next.value == Unlinking && s.free != [] && x.free == s.free && x.size == s.size - 1)
            || (next.value == Linking && x.free == s.free && x.size == s.size + 1)
            || (next.value == Emptying && x.free == [] && x.size == s.size)))
  {
    hide Present, Mapped, EntryFrom, NoneFrom, Distinct;
  }

  lemma StepKeepsLock(s: State, a: Action)
    requires LockOk(s) && Enabled(s, a)
    ensures LockOk(Next(s, a))
  {
    if a.Advance? {
      AdvanceIs(s, a);
      hide *;
      AdvanceKeepsSize(s, a.t, a.c);
      AdvanceKeepsLock(s, a.t, a.c);
    } else {
      if IsStart(a) { NewCallHoldsNothing(s, a); NewCallUnlocked(s, a); } else { NoCall(s, a); }
      hide Enabled, Next, HoldsList, StarterOf, Locked, SizeAt;
    }
  }

  lemma NoCall(s: State, a: Action)
    requires Enabled(s, a) && !a.Advance? && !IsStart(a)
    ensures var s' := Next(s, a); s'.ops == s.ops && s'.size == s.size && s'.lock == s.lock && s'.free == s.free
  {
    hide IsTable, Walk;
  }

  lemma NewCallUnlocked(s: State, a: Action)
    requires Enabled(s, a) && IsStart(a) && StarterOf(a) in Next(s, a).ops
    ensures !Locked(Next(s, a).ops[StarterOf(a)].pc)
  {
    StartIs(s, a);
    hide Enabled, Next;
  }

  lemma AdvanceKeepsLock(s: State, t: nat, c: Choice)
    requires CanAdvance(s, t, c) && LockOk(s)
    ensures forall r :: r in Advanced(s, t, c).ops && Locked(Advanced(s, t, c).ops[r].pc) ==> Advanced(s, t, c).lock == Some(r)
  {
    AdvancedIs(s, t, c);
    assert t in s.ops;
    hide CanAdvance, Safe, Possible, Advanced, Changed, After, ChangeOf, SizeOk, Unlocks;
    if Locked(s.ops[t].pc) {
      UnlockAfter(s, t, c);
    } else {
      NotLocking(s, t, c);
    }
  }

  // ---------------------------------------------------------------- the bound under the unlocked check

  /** Threads inside gl_free. */
  function Freeing(s: State): set<nat> {
    set t | t in s.ops && InGlFree(s.ops[t].pc)
  }

  /** Those past the capacity check whose list is not counted yet. */
  function PastCheck(s: State): set<nat> {
    set t | t in s.ops && (s.ops[t].pc.Clearing? || s.ops[t].pc == AddLock)
  }

  ghost predicate AtMost(s: State, actions: seq<Action>, n: nat)
    requires CanRun(s, actions)
    decreases |actions|
  {
    |Freeing(s)| <= n && (actions == [] || AtMost(Next(s, actions[0]), actions[1..], n))
  }

  predicate Bounded(s: State, n: nat) {
    s.size + |PastCheck(s)| <= GL_SA_CAPACITY - 1 + n
  }

  lemma Subset<T>(xs: set<T>, ys: set<T>)
    requires xs <= ys
    ensures |xs| <= |ys|
  {
    assert ys == xs + (ys - xs);
  }

  /** Passing the check needs room; counting the list moves one from past the check to the size; nothing else raises the sum. */
  lemma StepKeepsBound(s: State, a: Action, n: nat)
    requires Enabled(s, a) && Bounded(s, n) && |Freeing(Next(s, a))| <= n && LockOk(s)
    ensures Bounded(Next(s, a), n)
  {
    var s' := Next(s, a);
    Subset(PastCheck(s'), Freeing(s'));
    if a.Advance? {
      PastAfter(s, a.t, a.c);
      hide Enabled, Next, Freeing, PastCheck, LockOk, CanAdvance, Advanced;
    } else {
      OtherPast(s, a);
      hide Enabled, Next, Freeing, PastCheck, LockOk;
    }
  }

  lemma OtherPast(s: State, a: Action)
    requires Enabled(s, a) && !a.Advance?
    ensures PastCheck(Next(s, a)) == PastCheck(s) && Next(s, a).size == s.size
  {
    if IsStart(a) { NewCallHoldsNothing(s, a); NewCallPc(s, a); } else { NoCall(s, a); }
    hide Enabled, Next, HoldsList, StarterOf;
  }

  lemma NewCallPc(s: State, a: Action)
    requires Enabled(s, a) && IsStart(a) && StarterOf(a) in Next(s, a).ops
    ensures var pc := Next(s, a).ops[StarterOf(a)].pc; !pc.Clearing? && pc != AddLock
  {
    StartIs(s, a);
    hide Enabled, Next;
  }

  lemma PastAfter(s: State, t: nat, c: Choice)
    requires CanAdvance(s, t, c) && LockOk(s)
    ensures var s' := Advanced(s, t, c);
      || (s'.size < GL_SA_CAPACITY)
      || (PastCheck(s') <= PastCheck(s) && s'.size <= s.size && |PastCheck(s')| <= |PastCheck(s)|)
      || (|PastCheck(s')| == |PastCheck(s)| - 1 && s'.size == s.size + 1)
  {
    var s' := Advanced(s, t, c);
    assert s'.ops == Called(s, t, After(s, t, c)).ops;
    PastMoves(s, t, c);
    hide CanAdvance, Safe, Possible, Advanced, After, LockOk;
    if s'.size >= GL_SA_CAPACITY {
      if s.ops[t].pc == AddLock {
        assert PastCheck(s') == PastCheck(s) - {t};
      } else {
        assert PastCheck(s') <= PastCheck(s);
        Subset(PastCheck(s'), PastCheck(s));
      }
    }
  }

  predicate Past(pc: Pc) {
    pc.Clearing? || pc == AddLock
  }

  lemma PastMoves(s: State, t: nat, c: Choice)
    requires CanAdvance(s, t, c) && LockOk(s)
    ensures PastMoved(s, t, c)
  {
    hide LockOk, PastMoved;
    if Locked(s.ops[t].pc) {
      PastUnlocks(s, t, c);
    } else {
      PastLocks(s, t, c);
    }
  }

  predicate PastMoved(s: State, t: nat, c: Choice)
    requires t in s.ops && Safe(s, t)
  {
    var pc, a, s' := s.ops[t].pc, After(s, t, c), Advanced(s, t, c);
    if pc == AddLock then s'.size == s.size + 1 && (a.Some? ==> !Past(a.value.pc))
    else s'.size < GL_SA_CAPACITY || (s'.size <= s.size && (a.Some? && Past(a.value.pc) ==> Past(pc)))
  }

  lemma PastUnlocks(s: State, t: nat, c: Choice)
    requires CanAdvance(s, t, c) && LockOk(s) && Locked(s.ops[t].pc)
    ensures PastMoved(s, t, c)
  {
    UnlockAfter(s, t, c);
    PastChange(s, t, c);
    hide CanAdvance, Safe, Possible, Advanced, After;
  }

  lemma OutsideLock()
    ensures !Past(Unlinking) && !Past(Linking) && !Past(Emptying) && Locked(Linking)
  {
  }

  lemma PastLocks(s: State, t: nat, c: Choice)
    requires CanAdvance(s, t, c) && !Locked(s.ops[t].pc)
    ensures PastMoved(s, t, c)
  {
    assert Safe(s, t);
    NotLocking(s, t, c);
    PastChange(s, t, c);
    OutsideLock();
    hide CanAdvance, Safe, Possible, ChangeOf, PcAfter, Changed, Advanced, After, Past, Locked;
  }

  lemma PastChange(s: State, t: nat, c: Choice)
    requires CanAdvance(s, t, c)
    ensures var pc, a := s.ops[t].pc, After(s, t, c);
      a.Some? && Past(a.value.pc) ==> (Past(pc) && pc != AddLock) || (pc == CheckSize && s.size < GL_SA_CAPACITY)
    ensures var pc, a := s.ops[t].pc, After(s, t, c); (a.Some? && a.value.pc == Linking) <==> pc == AddLock
  {
    AfterIs(s, t, c);
    hide Possible, After, Onward;
  }

  lemma {:induction false} BoundHolds(s: State, actions: seq<Action>, n: nat)
    requires CanRun(s, actions) && AtMost(s, actions, n) && LockOk(s) && Bounded(s, n)
    ensures LockOk(Run(s, actions)) && Bounded(Run(s, actions), n)
    decreases |actions|
  {
    hide LockOk, Bounded, Enabled, Next, Freeing;
    if actions != [] {
      StepKeepsLock(s, actions[0]);
      assert AtMost(Next(s, actions[0]), actions[1..], n);
      StepKeepsBound(s, actions[0], n);
      BoundHolds(Next(s, actions[0]), actions[1..], n);
    }
  }

  /**
    With at most n threads in gl_free at any time, gl_size and the threads past its check never
    add up to more than the capacity less one plus n; and gl_size is the length of the list
    whenever the lock is free.
   */
  lemma FreeListBound(actions: seq<Action>, n: nat)
    requires CanRun(Initial(), actions) && AtMost(Initial(), actions, n)
    ensures var s := Run(Initial(), actions);
      && s.size + |PastCheck(s)| <= GL_SA_CAPACITY - 1 + n
      && (s.lock.None? ==> s.size == |s.free|)
  {
    assert LockOk(Initial()) && PastCheck(Initial()) == {};
    hide Run, CanRun, AtMost, Initial, PastCheck;
    BoundHolds(Initial(), actions, n);
  }
}
