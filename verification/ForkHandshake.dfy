/**
  fork() of the preloaded runtime on top of the arena: parent and child interleaved at every system
  call and pipe access, the kernel's threads at every step of the arena, the child free to die
  outside the kernel.
 */
module ForkHandshake {
  import opened Arena
  import opened ArenaReferences
  import opened ArenaOwnership
  import opened ArenaRuns
  import opened ArenaSafety
  import opened ArenaBytes
  import opened ForkCopy
  import opened Wrappers

  datatype ParentPc = Running | CallPipe | CallFork | CloseWrite | Read | CloseRead | CloseBoth | Returned(ok: bool)

  /** The child's way through the fork wrapper. */
  datatype ChildPc = Unborn | CloseReadEnd | Reopen | InIoctl | WriteDone | CloseWriteEnd | ChildRunning | Exited

  /** done says that the ioctl has published the child's slot. */
  datatype State = State(
    arena: Arena.State, parent: ParentPc, child: ChildPc, buffered: bool, parentEnd: bool, childEnd: bool, done: bool)

  datatype Action =
    | ParentGoes(ok: bool)
    | ChildGoes(fine: bool)
    | ChildDies
    | Kernel(step: Arena.Action)      // any thread's step in the arena, the child's in its ioctl included

  // ---------------------------------------------------------------- steps

  /** Between the call of fork() and its return the parent's thread does nothing else. */
  predicate InFork(pc: ParentPc) {
    !pc.Running? && !pc.Returned?
  }

  /** The child has entered its ioctl and not left the wrapper. */
  predicate PastCall(pc: ChildPc) {
    pc.InIoctl? || pc.WriteDone? || pc.CloseWriteEnd?
  }

  /** The ioctl is over, one way or the other. */
  predicate AfterIoctl(pc: ChildPc) {
    pc.WriteDone? || pc.CloseWriteEnd? || pc.ChildRunning?
  }

  /** read() returns once there is a byte, or nobody is left who could write one. */
  predicate Readable(s: State) {
    s.buffered || (!s.parentEnd && !s.childEnd)
  }

  function ForkCall(f: Forker): Arena.Action {
    Fork(f.childPid, f.childTgid, f.tgid, f.pid)
  }

  /**
    What fork() forbids: the forking thread makes no system call, and nobody else stores through
    its stack, frees it or destroys its allocator; the same for the child in its wrapper.
   */
  predicate Fair(f: Forker, s: State, a: Arena.Action) {
    && (InFork(s.parent) ==> !StartedBy(a, f.pid) && !Touches(s.arena, a, f.h, f.id))
    && (!s.child.ChildRunning? && !s.child.Exited? ==> !StartedBy(a, f.childPid))
    && (PastCall(s.child) && f.childTgid in s.arena.registry ==> !Touches(s.arena, a, s.arena.registry[f.childTgid], f.id))
  }

  ghost predicate Enabled(f: Forker, s: State, a: Action) {
    match a
    case ParentGoes(_) => !s.parent.Returned? && (s.parent.Read? ==> Readable(s))
    case ChildGoes(fine) =>
      && !s.child.Unborn? && !s.child.ChildRunning? && !s.child.Exited?
      && (s.child.Reopen? && fine ==> Arena.Enabled(s.arena, ForkCall(f)))
      && (s.child.InIoctl? ==> f.childPid !in s.arena.ops)
    case ChildDies => !s.child.Unborn? && !s.child.Exited? && !s.child.InIoctl?
    case Kernel(step) => Arena.Enabled(s.arena, step) && Fair(f, s, step)
  }

  function ParentAfter(pc: ParentPc, ok: bool): ParentPc {
    match pc
    case Running => CallPipe
    case CallPipe => CallFork
    case CallFork => if ok then CloseWrite else CloseBoth
    case CloseWrite => Read
    case Read => CloseRead
    case CloseRead => Returned(true)
    case CloseBoth => Returned(false)
    case Returned(_) => pc
  }

  function ParentStep(s: State, ok: bool): State {
    var forks := s.parent.CallFork? && ok;
    s.(
      parent := ParentAfter(s.parent, ok),
      parentEnd := if s.parent.CallPipe? then true else if s.parent.CloseWrite? || s.parent.CloseBoth? then false else s.parentEnd,
      child := if forks then CloseReadEnd else s.child,
      childEnd := if forks then true else s.childEnd,
      buffered := if s.parent.Read? then false else s.buffered)
  }

  function ChildAfter(pc: ChildPc, fine: bool): ChildPc {
    match pc
    case CloseReadEnd => Reopen
    case Reopen => if fine then InIoctl else WriteDone
    case InIoctl => WriteDone
    case WriteDone => CloseWriteEnd
    case CloseWriteEnd => ChildRunning
    case _ => pc
  }

  /** What a step of the handshake does in the arena. */
  function Steps(f: Forker, s: State, a: Action): seq<Arena.Action> {
    match a
    case ChildGoes(fine) => if s.child.Reopen? && fine then [ForkCall(f)] else []
    case Kernel(step) => [step]
    case _ => []
  }

  predicate Publishes(f: Forker, s: State, step: Arena.Action) {
    s.child.InIoctl? && step.Advance? && step.t == f.childPid && f.childPid in s.arena.ops && s.arena.ops[f.childPid].pc == Publish
  }

  ghost function Next(f: Forker, s: State, a: Action): State
    requires Enabled(f, s, a)
  {
    match a
    case ParentGoes(ok) => ParentStep(s, ok)
    case ChildGoes(fine) =>
      s.(
        arena := if s.child.Reopen? && fine then Arena.Next(s.arena, ForkCall(f)) else s.arena,
        child := ChildAfter(s.child, fine),
        buffered := s.buffered || s.child.WriteDone?,
        childEnd := s.childEnd && !s.child.CloseWriteEnd?)
    case ChildDies => s.(child := Exited, childEnd := false)
    case Kernel(step) => s.(arena := Arena.Next(s.arena, step), done := s.done || Publishes(f, s, step))
  }

  ghost predicate CanRun(f: Forker, s: State, actions: seq<Action>)
    decreases |actions|
  {
    actions == [] || (Enabled(f, s, actions[0]) && CanRun(f, Next(f, s, actions[0]), actions[1..]))
  }

  ghost function Run(f: Forker, s: State, actions: seq<Action>): State
    requires CanRun(f, s, actions)
    decreases |actions|
  {
    if actions == [] then s else Run(f, Next(f, s, actions[0]), actions[1..])
  }

  /** A thread about to call fork(); f.id is its first shadow stack, which nobody is freeing. */
  ghost predicate Initial(f: Forker, s: State) {
    && s.parent.Running? && s.child.Unborn? && !s.buffered && !s.parentEnd && !s.childEnd && !s.done
    && HasStack(s.arena, f.h, f.id) && ParentKeeps(f, StackBytes(s.arena, f.h, f.id), s.arena)
    && f.childPid !in s.arena.ops && f.childPid != f.pid
  }

  // ---------------------------------------------------------------- the pipe

  /** The parent waits in the kernel until the child is through with the ioctl or gone. */
  predicate WaitOk(s: State) {
    && (s.child.Unborn? <==> s.parent.Running? || s.parent.CallPipe? || s.parent.CallFork? || s.parent.CloseBoth? || s.parent == Returned(false))
    && (s.parent.CloseRead? || s.parent == Returned(true) || s.buffered ==> s.child.CloseWriteEnd? || s.child.ChildRunning? || s.child.Exited?)
    && (!s.child.Unborn? && !s.childEnd ==> s.child.ChildRunning? || s.child.Exited?)
    && (s.done ==> s.child.InIoctl? || AfterIoctl(s.child) || s.child.Exited?)
    && (s.parent.Read? ==> !s.parentEnd)
  }

  lemma StepKeepsWait(f: Forker, s: State, a: Action)
    requires WaitOk(s) && Enabled(f, s, a)
    ensures WaitOk(Next(f, s, a))
  {
    hide Fair, Arena.Enabled, Arena.Next, ForkCall;
  }

  // ---------------------------------------------------------------- the invariant

  /** The child's call and its slot, by where the child is. */
  ghost predicate ChildOk(f: Forker, bytes: seq<nat>, a: Arena.State, child: ChildPc, done: bool) {
    && (f.childPid in a.ops ==> child.InIoctl? || child.ChildRunning? || child.Exited?)
    && (child.InIoctl? && f.childPid in a.ops ==> !done && InCall(f, bytes, a))
    && (PastCall(child) && done ==>
          f.childTgid in a.registry && SlotKeeps(a, f.childTgid, a.registry[f.childTgid], f.id, f.childPid, bytes))
  }

  ghost predicate Handshake(f: Forker, bytes: seq<nat>, s: State) {
    && Invariant(s.arena) && WaitOk(s) && |bytes| == PAGES && f.slot.Live? && ChildOk(f, bytes, s.arena, s.child, s.done)
    && !s.parent.Running? && (InFork(s.parent) ==> ParentKeeps(f, bytes, s.arena))
  }

  lemma ForkCallStarts(f: Forker, s: Arena.State)
    requires Arena.Enabled(s, ForkCall(f))
    ensures var o := Arena.Next(s, ForkCall(f)).ops;
      f.childPid in o && o[f.childPid].call == SaFork(f.tgid, f.pid) && o[f.childPid].pc == GetRef
      && f.childTgid in s.registry && o[f.childPid].h == s.registry[f.childTgid]
    ensures Arena.Next(s, ForkCall(f)).registry == s.registry
    ensures StartedBy(ForkCall(f), f.childPid)
    ensures forall h, id :: !Touches(s, ForkCall(f), h, id)
  {
  }

  lemma FreshCall(f: Forker, bytes: seq<nat>, s: Arena.State)
    requires f.childPid in s.ops && f.childTgid in s.registry && f.slot.Live?
    requires var o := s.ops[f.childPid]; o.call == SaFork(f.tgid, f.pid) && o.pc == GetRef && o.h == s.registry[f.childTgid]
    ensures InCall(f, bytes, s)
  {
  }

  lemma NotStartedBy(a: Arena.Action, t: nat, r: nat)
    requires StartedBy(a, t) && r != t
    ensures !StartedBy(a, r)
  {
  }

  /** The child enters its ioctl. */
  lemma EnteringKeeps(f: Forker, bytes: seq<nat>, a: Arena.State)
    requires Invariant(a) && Arena.Enabled(a, ForkCall(f)) && f.pid != f.childPid && f.slot.Live?
    ensures Invariant(Arena.Next(a, ForkCall(f))) && ChildOk(f, bytes, Arena.Next(a, ForkCall(f)), InIoctl, false)
    ensures ParentKeeps(f, bytes, a) ==> ParentKeeps(f, bytes, Arena.Next(a, ForkCall(f)))
  {
    ForkCallStarts(f, a);
    hide Invariant, Arena.Enabled, Arena.Next, ForkCall, InCall, SlotKeeps, ParentKeeps, StartedBy, Touches;
    StepKeepsInvariant(a, ForkCall(f));
    FreshCall(f, bytes, Arena.Next(a, ForkCall(f)));
    NotStartedBy(ForkCall(f), f.childPid, f.pid);
    if ParentKeeps(f, bytes, a) { UntouchedParent(f, bytes, a, ForkCall(f)); }
  }

  /** Steps outside the arena: the child leaves the ioctl only when its call has returned. */
  lemma OutsideKeeps(f: Forker, bytes: seq<nat>, a: Arena.State, child: ChildPc, done: bool, now: ChildPc)
    requires ChildOk(f, bytes, a, child, done) && (done ==> child.InIoctl? || AfterIoctl(child) || child.Exited?)
    requires child.InIoctl? && now != child ==> f.childPid !in a.ops
    requires now == child || now == ChildAfter(child, false) || (now.Exited? && !child.InIoctl?) || (child.Unborn? && now.CloseReadEnd?)
    ensures ChildOk(f, bytes, a, now, done)
  {
    hide InCall, SlotKeeps;
  }

  /** A step of the child's own call. */
  lemma OwnStepKeeps(f: Forker, bytes: seq<nat>, a: Arena.State, step: Arena.Action)
    requires Invariant(a) && Arena.Enabled(a, step) && step.Advance? && step.t == f.childPid && f.childPid in a.ops
    requires InCall(f, bytes, a) && ParentKeeps(f, bytes, a) && |bytes| == PAGES
    ensures ChildOk(f, bytes, Arena.Next(a, step), InIoctl, a.ops[f.childPid].pc == Publish)
  {
    OwnStep(f, bytes, a, step);
    hide Invariant, Arena.Enabled, Arena.Next, InCall, SlotKeeps, ParentKeeps;
  }

  lemma OwnStep(f: Forker, bytes: seq<nat>, a: Arena.State, step: Arena.Action)
    requires Invariant(a) && Arena.Enabled(a, step) && step.Advance? && step.t == f.childPid && f.childPid in a.ops
    requires InCall(f, bytes, a) && ParentKeeps(f, bytes, a) && |bytes| == PAGES
    ensures var s' := Arena.Next(a, step); f.childPid in s'.ops ==> InCall(f, bytes, s') && a.ops[f.childPid].pc != Publish
    ensures var s' := Arena.Next(a, step); a.ops[f.childPid].pc == Publish ==>
      f.childTgid in s'.registry && SlotKeeps(s', f.childTgid, s'.registry[f.childTgid], f.id, f.childPid, bytes)
  {
    var t := f.childPid;
    AdvanceIs(a, step);
    AdvancingIsThere(a, step);
    InvariantParts(a);
    LifetimeOf(a, t);
    ShapeOfOk(a, t);
    CallOfInCall(f, bytes, a);
    ParentRegistered(f, bytes, a);
    AdvancedIs(a, t, step.c);
    RegistryOfCall(f, a, a.ops[t]);
    hide *;
    if a.ops[t].pc == Publish {
      CopyEnds(f, bytes, a, step.c);
      RegistryOfKept(Advanced(a, t, step.c), f.childTgid, a.ops[t].h, f.id, t, bytes);
    } else if Arena.After(a, t, step.c).Some? {
      CallAfter(f, a, step.c);
      CopyGoesOn(f, bytes, a, step.c);
      MakesInCall(f, bytes, Advanced(a, t, step.c), Arena.After(a, t, step.c).value);
    }
    OpsAfter(a, t, Arena.After(a, t, step.c));
  }

  lemma OpsAfter(s: Arena.State, t: nat, a: Option<Op>)
    ensures t in Called(s, t, a).ops <==> a.Some?
    ensures a.Some? ==> Called(s, t, a).ops[t] == a.value
  {
  }

  lemma ShapeOfOk(s: Arena.State, t: nat)
    requires OpOk(s, t)
    ensures Shape(s.ops[t])
  {
    hide HoldsRef, HoldsSlot, UsesParent, Registered, Shape;
  }

  lemma ParentRegistered(f: Forker, bytes: seq<nat>, s: Arena.State)
    requires ParentKeeps(f, bytes, s)
    ensures f.tgid in s.registry && s.registry[f.tgid] == f.h
  {
    KeepsHas(s, f.tgid, f.h, f.id, f.pid, bytes);
    hide SlotKeeps, First;
  }

  lemma RegistryOfCall(f: Forker, s: Arena.State, o: Op)
    requires CallIs(f, s, o)
    ensures f.childTgid in s.registry && s.registry[f.childTgid] == o.h
  {
    hide UsesParent;
  }

  lemma RegistryOfKept(s: Arena.State, g: nat, h: nat, id: nat, tid: nat, bytes: seq<nat>)
    requires SlotKeeps(s, g, h, id, tid, bytes)
    ensures g in s.registry && s.registry[g] == h
  {
    KeepsHas(s, g, h, id, tid, bytes);
    hide SlotKeeps;
  }

  lemma MakesInCall(f: Forker, bytes: seq<nat>, s: Arena.State, o: Op)
    requires f.childPid in s.ops && s.ops[f.childPid] == o && CallIs(f, s, o) && Copied(f, bytes, s, o)
    ensures InCall(f, bytes, s)
  {
    hide CallIs, Copied;
  }

  /** A step of anybody else. */
  lemma OtherStepKeeps(f: Forker, bytes: seq<nat>, a: Arena.State, child: ChildPc, done: bool, step: Arena.Action)
    requires Invariant(a) && Arena.Enabled(a, step) && ChildOk(f, bytes, a, child, done)
    requires !child.ChildRunning? && !child.Exited? ==> !StartedBy(step, f.childPid)
    requires PastCall(child) && f.childTgid in a.registry ==> !Touches(a, step, a.registry[f.childTgid], f.id)
    requires !(child.InIoctl? && f.childPid in a.ops && step.Advance? && step.t == f.childPid) && (child.InIoctl? ==> f.pid !in a.ops)
    ensures ChildOk(f, bytes, Arena.Next(a, step), child, done)
  {
    hide Invariant, Arena.Enabled, Arena.Next, InCall, SlotKeeps, StartedBy, Touches;
    if f.childPid !in a.ops && !child.ChildRunning? && !child.Exited? { NotEntering(a, step, f.childPid); }
    if child.InIoctl? && f.childPid in a.ops { CallLeftAlone(f, bytes, a, step); }
    if PastCall(child) && done {
      var h := a.registry[f.childTgid];
      UntouchedKeeps(a, step, f.childTgid, h, f.id, f.childPid, bytes);
      RegistryOfKept(Arena.Next(a, step), f.childTgid, h, f.id, f.childPid, bytes);
    }
  }

  lemma CallLeftAlone(f: Forker, bytes: seq<nat>, a: Arena.State, step: Arena.Action)
    requires Invariant(a) && Arena.Enabled(a, step) && InCall(f, bytes, a) && !(step.Advance? && step.t == f.childPid)
    requires (f.childTgid in a.registry ==> !Touches(a, step, a.registry[f.childTgid], f.id)) && f.pid !in a.ops
    ensures InCall(f, bytes, Arena.Next(a, step))
  {
    CallOfInCall(f, bytes, a);
    RegistryOfCall(f, a, a.ops[f.childPid]);
    hide *;
    OthersLeaveCopy(f, bytes, a, step);
  }

  lemma NotPublishing(f: Forker, s: State, step: Arena.Action)
    requires !(s.child.InIoctl? && f.childPid in s.arena.ops && step.Advance? && step.t == f.childPid)
    ensures !Publishes(f, s, step)
  {
  }

  lemma KernelKeeps(f: Forker, bytes: seq<nat>, s: State, step: Arena.Action)
    requires Handshake(f, bytes, s) && Enabled(f, s, Kernel(step))
    ensures Invariant(Arena.Next(s.arena, step))
    ensures ChildOk(f, bytes, Arena.Next(s.arena, step), s.child, s.done || Publishes(f, s, step))
    ensures InFork(s.parent) ==> ParentKeeps(f, bytes, Arena.Next(s.arena, step))
  {
    hide Invariant, Arena.Enabled, Arena.Next, InCall, SlotKeeps, ParentKeeps, StartedBy, Touches, ChildOk;
    StepKeepsInvariant(s.arena, step);
    if InFork(s.parent) { UntouchedParent(f, bytes, s.arena, step); ParentBusy(f, bytes, s.arena); }
    if s.child.InIoctl? && f.childPid in s.arena.ops && step.Advance? && step.t == f.childPid {
      CallInProgress(f, bytes, s.arena, s.done);
      OwnStepKeeps(f, bytes, s.arena, step);
    } else {
      NotPublishing(f, s, step);
      OtherStepKeeps(f, bytes, s.arena, s.child, s.done, step);
    }
  }

  lemma ParentBusy(f: Forker, bytes: seq<nat>, a: Arena.State)
    requires ParentKeeps(f, bytes, a)
    ensures f.pid !in a.ops && f.slot.Live?
  {
    hide SlotKeeps, First;
  }

  lemma CallInProgress(f: Forker, bytes: seq<nat>, a: Arena.State, done: bool)
    requires ChildOk(f, bytes, a, InIoctl, done) && f.childPid in a.ops
    ensures InCall(f, bytes, a) && !done
  {
    hide InCall, SlotKeeps;
  }

  lemma MakesHandshake(f: Forker, bytes: seq<nat>, s: State)
    requires Invariant(s.arena) && WaitOk(s) && |bytes| == PAGES && f.slot.Live? && ChildOk(f, bytes, s.arena, s.child, s.done)
    requires !s.parent.Running? && (InFork(s.parent) ==> ParentKeeps(f, bytes, s.arena))
    ensures Handshake(f, bytes, s)
  {
    hide Invariant, WaitOk, ChildOk, ParentKeeps;
  }

  lemma ParentMoves(s: State, ok: bool)
    requires WaitOk(s) && !s.parent.Running? && !s.parent.Returned?
    ensures var s' := ParentStep(s, ok);
      && s'.arena == s.arena && s'.done == s.done && !s'.parent.Running? && InFork(s.parent)
      && (s'.child == s.child || (s.child.Unborn? && s'.child.CloseReadEnd?))
      && (s.done ==> s.child.InIoctl? || AfterIoctl(s.child) || s.child.Exited?)
  {
  }

  lemma ParentGoesKeeps(f: Forker, bytes: seq<nat>, s: State, a: Action)
    requires Handshake(f, bytes, s) && Enabled(f, s, a) && a.ParentGoes?
    ensures Handshake(f, bytes, Next(f, s, a))
  {
    StepKeepsWait(f, s, a);
    ParentMoves(s, a.ok);
    var s' := ParentStep(s, a.ok);
    assert Next(f, s, a) == s';
    hide Enabled, Next, Invariant, ParentKeeps, ChildOk, WaitOk, ParentStep, InFork, AfterIoctl;
    OutsideKeeps(f, bytes, s.arena, s.child, s.done, s'.child);
    MakesHandshake(f, bytes, s');
  }

  lemma ChildGoesKeeps(f: Forker, bytes: seq<nat>, s: State, a: Action)
    requires Handshake(f, bytes, s) && Enabled(f, s, a) && (a.ChildGoes? || a.ChildDies?) && f.pid != f.childPid
    ensures Handshake(f, bytes, Next(f, s, a))
  {
    StepKeepsWait(f, s, a);
    var s' := Next(f, s, a);
    hide Fair, Invariant, Arena.Enabled, Arena.Next, ForkCall, ParentKeeps, ChildOk, InFork;
    if a.ChildGoes? && s.child.Reopen? && a.fine {
      EnteringKeeps(f, bytes, s.arena);
    } else {
      OutsideKeeps(f, bytes, s.arena, s.child, s.done, s'.child);
    }
    assert s'.parent == s.parent && s'.done == s.done;
    hide WaitOk;
    MakesHandshake(f, bytes, s');
  }

  lemma StepKeepsHandshake(f: Forker, bytes: seq<nat>, s: State, a: Action)
    requires Handshake(f, bytes, s) && Enabled(f, s, a) && f.pid != f.childPid
    ensures Handshake(f, bytes, Next(f, s, a))
  {
    match a
    case Kernel(step) =>
      StepKeepsWait(f, s, a);
      hide Fair, Invariant, Arena.Enabled, Arena.Next, ParentKeeps, ChildOk, Publishes, InFork, WaitOk;
      KernelKeeps(f, bytes, s, step);
      MakesHandshake(f, bytes, Next(f, s, a));
    case ParentGoes(_) => hide *; ParentGoesKeeps(f, bytes, s, a);
    case _ => hide *; ChildGoesKeeps(f, bytes, s, a);
  }

  lemma {:induction false} HandshakeHolds(f: Forker, bytes: seq<nat>, s: State, actions: seq<Action>)
    requires Handshake(f, bytes, s) && CanRun(f, s, actions) && f.pid != f.childPid
    ensures Handshake(f, bytes, Run(f, s, actions))
    decreases |actions|
  {
    hide Handshake, Enabled, Next;
    if actions != [] {
      StepKeepsHandshake(f, bytes, s, actions[0]);
      HandshakeHolds(f, bytes, Next(f, s, actions[0]), actions[1..]);
    }
  }

  // ---------------------------------------------------------------- the handshake is a run of the arena

  ghost function Trace(f: Forker, s: State, actions: seq<Action>): seq<Arena.Action>
    requires CanRun(f, s, actions)
    decreases |actions|
  {
    if actions == [] then [] else Steps(f, s, actions[0]) + Trace(f, Next(f, s, actions[0]), actions[1..])
  }

  lemma StepsRun(f: Forker, s: State, a: Action)
    requires Enabled(f, s, a)
    ensures var x := Steps(f, s, a);
      if x == [] then Next(f, s, a).arena == s.arena
      else |x| == 1 && Arena.Enabled(s.arena, x[0]) && Next(f, s, a).arena == Arena.Next(s.arena, x[0])
  {
    hide Arena.Enabled, Arena.Next, Fair, ForkCall;
  }

  lemma {:induction false} TraceRuns(f: Forker, s: State, actions: seq<Action>)
    requires CanRun(f, s, actions)
    ensures Arena.CanRun(s.arena, Trace(f, s, actions)) && Arena.Run(s.arena, Trace(f, s, actions)) == Run(f, s, actions).arena
    decreases |actions|
  {
    hide Enabled, Next, Arena.Enabled, Arena.Next, Steps;
    if actions != [] {
      StepsRun(f, s, actions[0]);
      TraceRuns(f, Next(f, s, actions[0]), actions[1..]);
      var x, rest := Steps(f, s, actions[0]), Trace(f, Next(f, s, actions[0]), actions[1..]);
      if x == [] {
        assert x + rest == rest;
      } else {
        assert (x + rest)[0] == x[0] && (x + rest)[1..] == rest;
      }
    }
  }

  // ---------------------------------------------------------------- the theorems

  /** The call of fork() by a thread with a shadow stack, in a reachable state of the arena, and what follows it. */
  ghost predicate Calls(f: Forker, before: seq<Arena.Action>, s: State, ok: bool, actions: seq<Action>) {
    && Arena.CanRun(Arena.Initial(), before) && s.arena == Arena.Run(Arena.Initial(), before)
    && Initial(f, s) && Enabled(f, s, ParentGoes(ok)) && CanRun(f, Next(f, s, ParentGoes(ok)), actions)
  }

  ghost function After(f: Forker, before: seq<Arena.Action>, s: State, ok: bool, actions: seq<Action>): State
    requires Calls(f, before, s, ok, actions)
  {
    Run(f, Next(f, s, ParentGoes(ok)), actions)
  }

  lemma CallHandshake(f: Forker, s: State, ok: bool)
    requires Initial(f, s) && Invariant(s.arena) && Enabled(f, s, ParentGoes(ok))
    ensures Handshake(f, StackBytes(s.arena, f.h, f.id), Next(f, s, ParentGoes(ok))) && f.pid != f.childPid
  {
    var bytes, s' := StackBytes(s.arena, f.h, f.id), Next(f, s, ParentGoes(ok));
    assert s' == ParentStep(s, ok) && WaitOk(s');
    assert s'.arena == s.arena && s'.child.Unborn? && s'.parent == CallPipe && !s'.done;
    hide Invariant, HasStack, StackBytes, ParentKeeps, WaitOk, Enabled, Next, ParentStep, Arena.Enabled, Arena.Next;
    ParentBusy(f, bytes, s.arena);
    MakesHandshake(f, bytes, s');
  }

  lemma AfterHandshake(f: Forker, before: seq<Arena.Action>, s: State, ok: bool, actions: seq<Action>)
    requires Calls(f, before, s, ok, actions)
    ensures HasStack(s.arena, f.h, f.id) && Handshake(f, StackBytes(s.arena, f.h, f.id), After(f, before, s, ok, actions))
    ensures f.pid != f.childPid
  {
    ArenaRuns.InitiallyInvariant();
    hide Handshake, Invariant, Enabled, Next, Run, CanRun, Arena.Initial, Arena.CanRun, Arena.Run, StackBytes, HasStack;
    InvariantHolds(Arena.Initial(), before);
    CallHandshake(f, s, ok);
    HandshakeHolds(f, StackBytes(s.arena, f.h, f.id), Next(f, s, ParentGoes(ok)), actions);
  }

  /** The child has a live slot of its own, with the parent's slot number, in its own group's allocator. */
  predicate ChildHasStack(f: Forker, a: Arena.State) {
    && f.childTgid in a.registry && HasStack(a, a.registry[f.childTgid], f.id)
    && a.allocs[a.registry[f.childTgid]].slots[f.id].tid == f.childPid
  }

  function ChildBytes(f: Forker, a: Arena.State): seq<nat>
    requires ChildHasStack(f, a)
  {
    StackBytes(a, a.registry[f.childTgid], f.id)
  }

  lemma HandshakeChild(f: Forker, bytes: seq<nat>, d: State)
    requires Handshake(f, bytes, d) && d.done && PastCall(d.child)
    ensures ChildHasStack(f, d.arena) && ChildBytes(f, d.arena) == bytes
  {
    assert SlotKeeps(d.arena, f.childTgid, d.arena.registry[f.childTgid], f.id, f.childPid, bytes);
    KeepsHas(d.arena, f.childTgid, d.arena.registry[f.childTgid], f.id, f.childPid, bytes);
    hide *;
    ChildHas(f, d.arena, bytes);
  }

  lemma ChildHas(f: Forker, a: Arena.State, bytes: seq<nat>)
    requires f.childTgid in a.registry && HasStack(a, a.registry[f.childTgid], f.id)
    requires var h := a.registry[f.childTgid]; a.allocs[h].slots[f.id].tid == f.childPid && StackBytes(a, h, f.id) == bytes
    ensures ChildHasStack(f, a) && ChildBytes(f, a) == bytes
  {
    hide StackBytes;
  }

  lemma HandshakeParent(f: Forker, bytes: seq<nat>, d: State)
    requires Handshake(f, bytes, d) && InFork(d.parent)
    ensures HasStack(d.arena, f.h, f.id) && StackBytes(d.arena, f.h, f.id) == bytes && d.arena.allocs[f.h].slots[f.id].tid == f.pid
  {
    assert SlotKeeps(d.arena, f.tgid, f.h, f.id, f.pid, bytes);
    KeepsHas(d.arena, f.tgid, f.h, f.id, f.pid, bytes);
    hide *;
  }

  /**
    In every interleaving of the pipe and of all threads of the arena: once the ioctl has published
    the child's slot and until the child leaves its fork(), the child has a stack of the parent
    thread's slot number, and so of its address, with the bytes the parent's had when it called
    fork(). Those are also the parent's own until it returns.
   */
  lemma ForkSnapshot(f: Forker, before: seq<Arena.Action>, s: State, ok: bool, actions: seq<Action>)
    requires Calls(f, before, s, ok, actions)
    ensures HasStack(s.arena, f.h, f.id)
    ensures var d := After(f, before, s, ok, actions);
      d.done && PastCall(d.child) ==>
        ChildHasStack(f, d.arena) && ChildBytes(f, d.arena) == StackBytes(s.arena, f.h, f.id)
    ensures var d := After(f, before, s, ok, actions);
      InFork(d.parent) ==>
        HasStack(d.arena, f.h, f.id) && StackBytes(d.arena, f.h, f.id) == StackBytes(s.arena, f.h, f.id)
  {
    var d := After(f, before, s, ok, actions);
    var bytes := AfterSnapshot(f, before, s, ok, actions);
    hide *;
    if d.done && PastCall(d.child) { HandshakeChild(f, bytes, d); }
    if InFork(d.parent) { HandshakeParent(f, bytes, d); }
  }

  lemma AfterSnapshot(f: Forker, before: seq<Arena.Action>, s: State, ok: bool, actions: seq<Action>) returns (bytes: seq<nat>)
    requires Calls(f, before, s, ok, actions)
    ensures HasStack(s.arena, f.h, f.id) && bytes == StackBytes(s.arena, f.h, f.id)
    ensures Handshake(f, bytes, After(f, before, s, ok, actions))
  {
    AfterHandshake(f, before, s, ok, actions);
    bytes := StackBytes(s.arena, f.h, f.id);
    hide *;
  }

  /** The parent's fork() returns a child only when the child is past its ioctl, or has died. */
  lemma ReturnsAfterCopy(f: Forker, before: seq<Arena.Action>, s: State, ok: bool, actions: seq<Action>)
    requires Calls(f, before, s, ok, actions)
    ensures var d := After(f, before, s, ok, actions); d.parent == Returned(true) ==> AfterIoctl(d.child) || d.child.Exited?
  {
    AfterHandshake(f, before, s, ok, actions);
    hide Calls, After, Invariant, ChildOk, ParentKeeps, HasStack, StackBytes;
  }

  predicate Settled(s: State) {
    WaitOk(s) && s.parent == Returned(true)
  }

  lemma {:induction false} StaysSettled(f: Forker, s: State, later: seq<Action>)
    requires Settled(s) && CanRun(f, s, later)
    ensures Run(f, s, later).done == s.done && Settled(Run(f, s, later))
    decreases |later|
  {
    if later != [] {
      SettledStep(f, s, later[0]);
      hide Enabled, Next, Settled;
      StaysSettled(f, Next(f, s, later[0]), later[1..]);
    }
  }

  lemma SettledStep(f: Forker, s: State, a: Action)
    requires Settled(s) && Enabled(f, s, a)
    ensures Settled(Next(f, s, a)) && Next(f, s, a).done == s.done
  {
    StepKeepsWait(f, s, a);
    hide Arena.Enabled, Arena.Next, Fair, ForkCall;
  }

  /** And whether the child got its copy is settled by then: no later step of anybody publishes it. */
  lemma SettledBeforeReturn(f: Forker, before: seq<Arena.Action>, s: State, ok: bool, actions: seq<Action>, later: seq<Action>)
    requires Calls(f, before, s, ok, actions) && After(f, before, s, ok, actions).parent == Returned(true)
    requires CanRun(f, After(f, before, s, ok, actions), later)
    ensures Run(f, After(f, before, s, ok, actions), later).done == After(f, before, s, ok, actions).done
  {
    AfterHandshake(f, before, s, ok, actions);
    var d := After(f, before, s, ok, actions);
    assert WaitOk(d) by { hide Calls, After, Invariant, WaitOk, ChildOk, ParentKeeps, HasStack, StackBytes; }
    hide Calls, After, Run, CanRun, WaitOk;
    StaysSettled(f, d, later);
  }

  /**
    From the successful return of the ioctl on, whatever runs: each of the two stacks, as long as it
    is not freed, holds the bytes of the call with the stores through its own slot applied, and no
    store goes through both.
   */
  lemma StacksApart(f: Forker, before: seq<Arena.Action>, s: State, ok: bool, actions: seq<Action>, later: seq<Action>)
    requires Calls(f, before, s, ok, actions)
    requires var d := After(f, before, s, ok, actions); d.done && d.child.WriteDone? && CanRun(f, d, later)
    ensures HasStack(s.arena, f.h, f.id)
    ensures var d := After(f, before, s, ok, actions); Arena.CanRun(d.arena, Trace(f, d, later)) && ChildHasStack(f, d.arena)
    ensures var d := After(f, before, s, ok, actions);
      var h, steps, e, bytes := d.arena.registry[f.childTgid], Trace(f, d, later), Run(f, d, later).arena, StackBytes(s.arena, f.h, f.id);
      && h != f.h
      && (NeverFreed(d.arena, steps, f.h, f.id) ==>
            HasStack(e, f.h, f.id) && StackBytes(e, f.h, f.id) == AllStored(bytes, steps, f.h, f.id))
      && (NeverFreed(d.arena, steps, h, f.id) ==>
            HasStack(e, h, f.id) && StackBytes(e, h, f.id) == AllStored(bytes, steps, h, f.id))
  {
    var d := After(f, before, s, ok, actions);
    var bytes := AfterSnapshot(f, before, s, ok, actions);
    AfterHandshake(f, before, s, ok, actions);
    hide *;
    ChildReturns(f, bytes, d);
    HandshakeChild(f, bytes, d);
    HandshakeParent(f, bytes, d);
    TraceRuns(f, d, later);
    TwoStacks(f, d.arena, Trace(f, d, later), bytes);
  }

  /** While the child has its success to report the parent is still waiting for it. */
  lemma ChildReturns(f: Forker, bytes: seq<nat>, d: State)
    requires Handshake(f, bytes, d) && d.child.WriteDone?
    ensures PastCall(d.child) && InFork(d.parent) && Invariant(d.arena)
  {
    hide Invariant, ChildOk, ParentKeeps;
  }

  lemma TwoStacks(f: Forker, a: Arena.State, steps: seq<Arena.Action>, bytes: seq<nat>)
    requires Invariant(a) && Arena.CanRun(a, steps) && f.pid != f.childPid
    requires ChildHasStack(f, a) && ChildBytes(f, a) == bytes
    requires HasStack(a, f.h, f.id) && StackBytes(a, f.h, f.id) == bytes && a.allocs[f.h].slots[f.id].tid == f.pid
    ensures f.childTgid in a.registry
    ensures var h, e := a.registry[f.childTgid], Arena.Run(a, steps);
      && h != f.h
      && (NeverFreed(a, steps, f.h, f.id) ==> HasStack(e, f.h, f.id) && StackBytes(e, f.h, f.id) == AllStored(bytes, steps, f.h, f.id))
      && (NeverFreed(a, steps, h, f.id) ==> HasStack(e, h, f.id) && StackBytes(e, h, f.id) == AllStored(bytes, steps, h, f.id))
  {
    var h := a.registry[f.childTgid];
    hide Invariant, Arena.CanRun, Arena.Run, NeverFreed, AllStored, HasStack, StackBytes;
    if NeverFreed(a, steps, f.h, f.id) { RunStores(a, steps, f.h, f.id); }
    if NeverFreed(a, steps, h, f.id) { RunStores(a, steps, h, f.id); }
  }
}
