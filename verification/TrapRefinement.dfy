/** The trapping strategy follows the blind-write strategy up to the first altered return address, and stops there. */
module TrapRefinement {
  import opened Words
  import opened Memory
  import opened X86
  import opened ReturnIntegrity
  import opened Wrappers

  /** Equal but for the zero flag, which no code reads across a call or a return. */
  predicate SameButFlags(t: Config, b: Config) {
    t.frames == b.frames && t.m == b.m.(zf := t.m.zf)
  }

  /** A return of an instrumented function, or a tail jump out of one, whose slot no longer holds what its call pushed. */
  predicate Altered(e: Event, c: Config) {
    && (e.Return? || e.Leave?) && c.m.status == Running && c.frames != [] && !Last(c.frames).leaf
    && ReadWord(c.m.mem, Last(c.frames).slot) != Last(c.frames).ret
  }

  lemma CallsAgree(ret: Word, leaf: bool, t: Config, b: Config, size: nat)
    requires SameButFlags(t, b) && b.m.status == Running
    requires Integrity(b, size) && Admissible(Call(ret, leaf), b, size)
    ensures SameButFlags(StepCall(ret, leaf, t), StepCall(ret, leaf, b))
  {
    hide ReadWord, WriteWord, ExecAll, Preamble, PushWord, Pushed;
    var sp := b.m.regs[RSP] - 8;
    var ps := Pending(b.frames);
    PushWordEffect(t.m, ret);
    PushWordEffect(b.m, ret);
    if !leaf {
      var tm, bm := PushWord(t.m, ret), PushWord(b.m, ret);
      LowWord(b.m.mem, sp, ret);
      ShadowKept(b.m.gs, b.m.mem, bm.mem, size, ps);
      PreambleEffect(tm);
      PreambleEffect(bm);
      PushedIgnoresFlags(bm, tm.zf);
    }
  }

  lemma PushedIgnoresFlags(m: Machine, zf: bool)
    requires StackReady(m.regs[RSP]) && ShadowReady(m.gs, m.mem)
    ensures Pushed(m.(zf := zf)) == Pushed(m)
  {
    hide ReadWord, WriteWord;
  }

  /** A return whose slot is intact: the compare succeeds and the blind write would change nothing. */
  lemma IntactReturnsAgree(scratch: Option<Reg>, t: Config, b: Config, size: nat)
    requires SameButFlags(t, b) && b.m.status == Running
    requires Integrity(b, size) && Admissible(Return(scratch), b, size) && !Altered(Return(scratch), b)
    ensures SameButFlags(StepReturn(TrapOnMismatch, scratch, t), StepReturn(BlindWrite, scratch, b))
  {
    hide ReadWord, WriteWord, ExecAll, Epilogue;
    if !Last(b.frames).leaf {
      ReadyToReturn(scratch, b, size);
      TrapEffect(t.m, scratch, TRAP_BLOCK);
      BlindWriteEffect(b.m, scratch, TRAP_BLOCK);
      PoppedReads(b.m, scratch);
      WriteSame(Popped(b.m, scratch), b.m.regs[RSP]);
    }
  }

  lemma IntactLeavesAgree(scratch: Option<Reg>, t: Config, b: Config, size: nat)
    requires SameButFlags(t, b) && b.m.status == Running
    requires Integrity(b, size) && Admissible(Leave(scratch), b, size) && !Altered(Leave(scratch), b)
    ensures SameButFlags(StepLeave(TrapOnMismatch, scratch, t), StepLeave(BlindWrite, scratch, b))
  {
    hide ReadWord, WriteWord, ExecAll, Epilogue;
    ReadyToReturn(scratch, b, size);
    TrapEffect(t.m, scratch, TRAP_BLOCK);
    BlindWriteEffect(b.m, scratch, TRAP_BLOCK);
    PoppedReads(b.m, scratch);
    WriteSame(Popped(b.m, scratch), b.m.regs[RSP]);
  }

  lemma EntersAgree(t: Config, b: Config, size: nat)
    requires SameButFlags(t, b) && b.m.status == Running && Integrity(b, size) && Admissible(Enter, b, size)
    ensures SameButFlags(StepEnter(t), StepEnter(b))
  {
    hide ReadWord, WriteWord, ExecAll, Preamble, Pushed, Marked;
    PreambleEffect(t.m);
    PreambleEffect(b.m);
    PushedIgnoresFlags(b.m, t.m.zf);
  }

  lemma AlteredReturnTraps(e: Event, t: Config, b: Config, size: nat)
    requires SameButFlags(t, b) && Integrity(b, size) && Admissible(e, b, size) && Altered(e, b)
    ensures Step(TrapOnMismatch, e, t).m.status == Trapped
  {
    hide ReadWord, WriteWord, ExecAll, Epilogue;
    ReadyToReturn(e.scratch, b, size);
    TrapEffect(t.m, e.scratch, TRAP_BLOCK);
  }

  lemma StepsAgree(e: Event, t: Config, b: Config, size: nat)
    requires SameButFlags(t, b) && Integrity(b, size) && Admissible(e, b, size) && !Altered(e, b)
    ensures SameButFlags(Step(TrapOnMismatch, e, t), Step(BlindWrite, e, b))
  {
    hide ReadWord, WriteWord, ExecAll, Epilogue, Preamble, Memory.Write;
    if b.m.status == Running {
      match e
      case Call(ret, leaf) => CallsAgree(ret, leaf, t, b, size);
      case Return(scratch) => IntactReturnsAgree(scratch, t, b, size);
      case Leave(scratch) => IntactLeavesAgree(scratch, t, b, size);
      case Enter => EntersAgree(t, b, size);
      case _ =>
    }
  }

  /** Blind writing never stops at a trap. */
  lemma BlindNeverTraps(e: Event, c: Config, size: nat)
    requires Integrity(c, size) && Admissible(e, c, size) && c.m.status != Trapped
    ensures Step(BlindWrite, e, c).m.status != Trapped
  {
    hide ReadWord, WriteWord, ExecAll, Epilogue, Preamble, Memory.Write;
    if c.m.status == Running {
      match e
      case Call(ret, leaf) => CallKeeps(ret, leaf, c, size);
      case Return(scratch) => ReturnKeeps(scratch, c, size);
      case Leave(scratch) => LeaveKeeps(scratch, c, size);
      case Enter => EnterKeeps(c, size);
      case _ =>
    }
  }

  ghost predicate SomeAltered(es: seq<Event>, c: Config) {
    exists n :: 0 <= n < |es| && Altered(es[n], Run(BlindWrite, es[..n], c))
  }

  /** Over every run the trapping program equals the blind one as long as no slot was altered, and has trapped otherwise. */
  lemma {:induction false} TrapFollowsBlindWrite(es: seq<Event>, c: Config, size: nat)
    requires Integrity(c, size) && AdmissibleRun(BlindWrite, es, c, size) && c.m.status != Trapped
    ensures var t := Run(TrapOnMismatch, es, c); var b := Run(BlindWrite, es, c);
      if SomeAltered(es, c) then t.m.status == Trapped else SameButFlags(t, b) && b.m.status != Trapped
  {
    hide Step, Integrity, Admissible, Altered, SameButFlags, SomeAltered;
    SameAtStart(c);
    if es != [] {
      var n := |es| - 1;
      var b := Run(BlindWrite, es[..n], c);
      var t := Run(TrapOnMismatch, es[..n], c);
      PrefixAdmissible(BlindWrite, es, c, size, n);
      TrapFollowsBlindWrite(es[..n], c, size);
      ShadowHoldsPendingReturns(es[..n], c, size);
      AlteredInPrefix(es, c);
      TrappedStays(es[n], t);
      assert Admissible(es[n], b, size);
      if !SomeAltered(es[..n], c) {
        if Altered(es[n], b) {
          AlteredReturnTraps(es[n], t, b, size);
        } else {
          StepsAgree(es[n], t, b, size);
          BlindNeverTraps(es[n], b, size);
        }
      }
    }
  }

  lemma SameAtStart(c: Config)
    ensures SameButFlags(c, c) && !SomeAltered([], c)
  {
  }

  lemma TrappedStays(e: Event, t: Config)
    ensures t.m.status == Trapped ==> Step(TrapOnMismatch, e, t) == t
  {
    hide ExecAll, Epilogue, Preamble;
  }

  lemma AlteredInPrefix(es: seq<Event>, c: Config)
    requires es != []
    ensures var n := |es| - 1;
      SomeAltered(es, c) <==> SomeAltered(es[..n], c) || Altered(es[n], Run(BlindWrite, es[..n], c))
  {
    hide Altered, Run;
    var n := |es| - 1;
    forall k | 0 <= k < n
      ensures es[..n][..k] == es[..k] && es[..n][k] == es[k]
    {
    }
    if SomeAltered(es[..n], c) {
      var k :| 0 <= k < n && Altered(es[..n][k], Run(BlindWrite, es[..n][..k], c));
      assert Altered(es[k], Run(BlindWrite, es[..k], c));
    }
    if SomeAltered(es, c) {
      var k :| 0 <= k < |es| && Altered(es[k], Run(BlindWrite, es[..k], c));
      if k < n {
        assert Altered(es[..n][k], Run(BlindWrite, es[..n][..k], c));
      }
    }
  }
}
