/** Runs of instrumented machine code: the shadow stack holds the pending returns, and returns go where their calls said. */
module ReturnIntegrity {
  import opened Words
  import opened Memory
  import opened X86
  import opened Wrappers

  /** A call that has not returned: where its return address was pushed, and what was pushed. */
  datatype Frame = Frame(slot: Word, ret: Word, leaf: bool)

  datatype Config = Config(m: Machine, frames: seq<Frame>)

  /**
    What a thread does, in any order. A leaf function has no calls and is not instrumented.
    Leave is a tail jump out of a function, Enter the entry of one by a tail jump.
    Store is a store of the program, FrameWrite any other write to the ordinary stack (spills,
    pushes), Compute any change of registers and flags.
   */
  datatype Event =
    | Call(ret: Word, leaf: bool)
    | Return(scratch: Option<Reg>)
    | Leave(scratch: Option<Reg>)
    | Enter
    | Store(addr: Word, bs: seq<byte>)
    | FrameWrite(addr: Word, bs: seq<byte>)
    | Compute(regs: Regs, zf: bool)

  const TRAP_BLOCK: nat := 0

  function WriteBytes(m: Machine, a: Word, bs: seq<byte>): Machine {
    if Accessible(a, |bs|) then m.(mem := Memory.Write(m.mem, a, bs)) else m.(status := Faulted)
  }

  function Last(fs: seq<Frame>): Frame
    requires fs != []
  {
    fs[|fs| - 1]
  }

  /** The call instruction, then the prologue of the function entered. */
  function StepCall(ret: Word, leaf: bool, c: Config): Config {
    var m := PushWord(c.m, ret);
    if m.status != Running then c.(m := m) else
    Config(if leaf then m else ExecAll(Preamble(), m), c.frames + [Frame(m.regs[RSP], ret, leaf)])
  }

  /** The epilogue of the function left, then its ret instruction. */
  function StepReturn(strategy: Strategy, scratch: Option<Reg>, c: Config): Config
    requires c.frames != []
  {
    var m := if Last(c.frames).leaf then c.m else ExecAll(Epilogue(strategy, scratch, TRAP_BLOCK), c.m);
    if m.status != Running then c.(m := m) else
    Config(Exec(Ret, m), c.frames[..|c.frames| - 1])
  }

  /** The last frame, its return address on the shadow stack or not. */
  function Marked(fs: seq<Frame>, leaf: bool): seq<Frame>
    requires fs != []
  {
    fs[..|fs| - 1] + [Last(fs).(leaf := leaf)]
  }

  /** The epilogue before a tail jump: the frame stays, for the function jumped to. */
  function StepLeave(strategy: Strategy, scratch: Option<Reg>, c: Config): Config
    requires c.frames != []
  {
    var m := if Last(c.frames).leaf then c.m else ExecAll(Epilogue(strategy, scratch, TRAP_BLOCK), c.m);
    if m.status != Running then c.(m := m) else Config(m, Marked(c.frames, true))
  }

  /** The prologue of the function jumped to. */
  function StepEnter(c: Config): Config
    requires c.frames != []
  {
    Config(ExecAll(Preamble(), c.m), Marked(c.frames, false))
  }

  function Step(strategy: Strategy, e: Event, c: Config): Config {
    if c.m.status != Running then c else
    match e
    case Call(ret, leaf) => StepCall(ret, leaf, c)
    case Return(scratch) => if c.frames == [] then c else StepReturn(strategy, scratch, c)
    case Leave(scratch) => if c.frames == [] then c else StepLeave(strategy, scratch, c)
    case Enter => if c.frames == [] then c else StepEnter(c)
    case Store(a, bs) => c.(m := WriteBytes(c.m, a, bs))
    case FrameWrite(a, bs) => c.(m := WriteBytes(c.m, a, bs))
    case Compute(regs, zf) => c.(m := c.m.(regs := regs, zf := zf))
  }

  function Run(strategy: Strategy, es: seq<Event>, c: Config): Config {
    if es == [] then c else Step(strategy, es[|es| - 1], Run(strategy, es[..|es| - 1], c))
  }

  lemma {:induction false} ExecKeepsGs(code: seq<Instr>, m: Machine)
    ensures ExecAll(code, m).gs == m.gs
  {
    if code != [] { ExecKeepsGs(code[1..], Exec(code[0], m)); }
  }

  lemma StepKeepsGs(strategy: Strategy, e: Event, c: Config)
    ensures Step(strategy, e, c).m.gs == c.m.gs
  {
    hide ExecAll, Preamble, Epilogue;
    if e.Call? { ExecKeepsGs(Preamble(), PushWord(c.m, e.ret)); }
    if e.Enter? { ExecKeepsGs(Preamble(), c.m); }
    if e.Return? || e.Leave? { ExecKeepsGs(Epilogue(strategy, e.scratch, TRAP_BLOCK), c.m); }
  }

  /** No event moves the area. */
  lemma {:induction false} RunKeepsGs(strategy: Strategy, es: seq<Event>, c: Config)
    ensures Run(strategy, es, c).m.gs == c.m.gs
    decreases |es|
  {
    hide Step;
    if es != [] {
      RunKeepsGs(strategy, es[..|es| - 1], c);
      StepKeepsGs(strategy, es[|es| - 1], Run(strategy, es[..|es| - 1], c));
    }
  }

  /** The return addresses of the pending non-leaf calls, oldest first. */
  function Pending(fs: seq<Frame>): seq<Word> {
    if fs == [] then [] else
      Pending(fs[..|fs| - 1]) + (if Last(fs).leaf then [] else [Last(fs).ret])
  }

  /**
    What is asked of a thread: the ordinary stack is in the lower half, stores go below 2^47
    (the store pass sees to that), the depth stays within the area, rsp is back at the return
    slot when a function returns or is left by a tail jump, and where no epilogue has restored
    the return address, in leaf functions and at entries by a tail jump, it is unaltered.
   */
  predicate Admissible(e: Event, c: Config, size: nat) {
    c.m.status == Running ==>
    match e
    case Call(_, leaf) => 24 <= c.m.regs[RSP] <= LIMIT && (leaf || 8 * |Pending(c.frames)| + 24 <= size)
    case Return(scratch) =>
      && c.frames != [] && c.m.regs[RSP] == Last(c.frames).slot && scratch != Some(RSP)
      && (Last(c.frames).leaf ==> ReadWord(c.m.mem, Last(c.frames).slot) == Last(c.frames).ret)
    case Leave(scratch) =>
      c.frames != [] && !Last(c.frames).leaf && c.m.regs[RSP] == Last(c.frames).slot && scratch != Some(RSP)
    case Enter =>
      && c.frames != [] && Last(c.frames).leaf && c.m.regs[RSP] == Last(c.frames).slot
      && ReadWord(c.m.mem, Last(c.frames).slot) == Last(c.frames).ret && 8 * |Pending(c.frames)| + 24 <= size
    case Store(a, _) => a < LIMIT
    case FrameWrite(a, bs) => a + |bs| <= LIMIT
    case Compute(_, _) => true
  }

  ghost predicate AdmissibleRun(strategy: Strategy, es: seq<Event>, c: Config, size: nat) {
    forall n :: 0 <= n < |es| ==> Admissible(es[n], Run(strategy, es[..n], c), size)
  }

  /** The words of the area from data to top are exactly ps. */
  ghost predicate ShadowIs(gs: Word, mem: Mem, size: nat, ps: seq<Word>) {
    && HIGH <= gs && gs + size <= WORD - 8 && 16 + 8 * |ps| <= size
    && ReadWord(mem, gs + 8) == gs + 16 + 8 * |ps|
    && (forall i :: 0 <= i < |ps| ==> ReadWord(mem, gs + 16 + 8 * i) == ps[i])
  }

  ghost predicate Integrity(c: Config, size: nat) {
    && ShadowIs(c.m.gs, c.m.mem, size, Pending(c.frames))
    && (forall k :: 0 <= k < |c.frames| ==> StackReady(c.frames[k].slot))
  }

  // ---------------------------------------------------------------- one step

  ghost predicate SameAbove(m: Mem, m': Mem) {
    forall a: nat :: HIGH <= a ==> ReadWord(m', a) == ReadWord(m, a)
  }

  lemma LowWrite(m: Mem, a: nat, bs: seq<byte>)
    requires a + |bs| <= LIMIT
    ensures SameAbove(m, Memory.Write(m, a, bs))
  {
    hide ReadWord, Memory.Write;
    forall b: nat | HIGH <= b
      ensures ReadWord(Memory.Write(m, a, bs), b) == ReadWord(m, b)
    {
      ReadElsewhere(m, a, bs, b);
    }
  }

  lemma LowWord(m: Mem, a: nat, w: Word)
    requires a + 8 <= LIMIT
    ensures SameAbove(m, WriteWord(m, a, w))
  {
    LowWrite(m, a, Bytes(w, 8));
  }

  lemma ShadowKept(gs: Word, m: Mem, m': Mem, size: nat, ps: seq<Word>)
    requires ShadowIs(gs, m, size, ps) && SameAbove(m, m')
    ensures ShadowIs(gs, m', size, ps)
  {
    hide ReadWord;
  }

  /** Pushing onto the shadow stack. */
  lemma ShadowPush(gs: Word, m: Mem, size: nat, ps: seq<Word>, w: Word)
    requires ShadowIs(gs, m, size, ps) && 16 + 8 * (|ps| + 1) <= size
    ensures var top := gs + 16 + 8 * |ps|;
      ShadowIs(gs, WriteWord(WriteWord(m, top, w), gs + 8, top + 8), size, ps + [w])
  {
    hide ReadWord, WriteWord;
    var top := gs + 16 + 8 * |ps|;
    var m1 := WriteWord(m, top, w);
    var m2 := WriteWord(m1, gs + 8, top + 8);
    ReadWritten(m1, gs + 8, top + 8);
    forall i | 0 <= i < |ps| + 1
      ensures ReadWord(m2, gs + 16 + 8 * i) == (ps + [w])[i]
    {
      WordElsewhere(m1, gs + 8, top + 8, gs + 16 + 8 * i);
      if i == |ps| { ReadWritten(m, top, w); } else { WordElsewhere(m, top, w, gs + 16 + 8 * i); }
    }
  }

  /** Popping it. */
  lemma ShadowPop(gs: Word, m: Mem, size: nat, ps: seq<Word>)
    requires ShadowIs(gs, m, size, ps) && ps != []
    ensures var top := gs + 16 + 8 * |ps|;
      ReadWord(m, top - 8) == ps[|ps| - 1]
      && ShadowIs(gs, WriteWord(m, gs + 8, top - 8), size, ps[..|ps| - 1])
  {
    hide ReadWord, WriteWord;
    var top := gs + 16 + 8 * |ps|;
    var m2 := WriteWord(m, gs + 8, top - 8);
    assert ReadWord(m, gs + 16 + 8 * (|ps| - 1)) == ps[|ps| - 1];
    ReadWritten(m, gs + 8, top - 8);
    forall i | 0 <= i < |ps| - 1
      ensures ReadWord(m2, gs + 16 + 8 * i) == ps[i]
    {
      WordElsewhere(m, gs + 8, top - 8, gs + 16 + 8 * i);
    }
  }

  lemma PendingPush(fs: seq<Frame>, f: Frame)
    ensures Pending(fs + [f]) == Pending(fs) + (if f.leaf then [] else [f.ret])
  {
    assert (fs + [f])[..|fs|] == fs;
  }

  /** The prologue pushes the word at the stack pointer and keeps every register. */
  lemma PreamblePushes(m: Machine, size: nat, ps: seq<Word>)
    requires m.status == Running && StackReady(m.regs[RSP])
    requires ShadowIs(m.gs, m.mem, size, ps) && 24 + 8 * |ps| <= size
    ensures var t := ExecAll(Preamble(), m);
      t == m.(mem := t.mem, zf := t.zf) && ShadowIs(m.gs, t.mem, size, ps + [ReadWord(m.mem, m.regs[RSP])])
  {
    hide ReadWord, WriteWord, ExecAll, Preamble;
    var sp := m.regs[RSP];
    var m1 := WriteWord(m.mem, sp - 8, m.regs[R11]);
    var m2 := WriteWord(m1, sp - 16, m.regs[R10]);
    PreambleEffect(m);
    LowWord(m.mem, sp - 8, m.regs[R11]);
    LowWord(m1, sp - 16, m.regs[R10]);
    ShadowKept(m.gs, m.mem, m1, size, ps);
    ShadowKept(m.gs, m1, m2, size, ps);
    ShadowPush(m.gs, m2, size, ps, ReadWord(m.mem, sp));
  }

  lemma CallKeeps(ret: Word, leaf: bool, c: Config, size: nat)
    requires c.m.status == Running && Integrity(c, size) && Admissible(Call(ret, leaf), c, size)
    ensures var c' := StepCall(ret, leaf, c); var sp := c.m.regs[RSP] - 8;
      c'.m.status == Running && c'.m.regs == c.m.regs[RSP := sp]
      && c'.frames == c.frames + [Frame(sp, ret, leaf)] && Integrity(c', size)
  {
    hide ReadWord, WriteWord, ExecAll, Preamble, PushWord;
    var sp := c.m.regs[RSP] - 8;
    var m := c.m.(regs := c.m.regs[RSP := sp], mem := WriteWord(c.m.mem, sp, ret));
    var ps := Pending(c.frames);
    PushWordEffect(c.m, ret);
    assert ShadowIs(m.gs, m.mem, size, ps) by {
      LowWord(c.m.mem, sp, ret);
      ShadowKept(c.m.gs, c.m.mem, m.mem, size, ps);
    }
    PendingPush(c.frames, Frame(sp, ret, leaf));
    if leaf {
      assert ps + [] == ps;
    } else {
      ReadWritten(c.m.mem, sp, ret);
      PreamblePushes(m, size, ps);
    }
  }

  lemma PushWordEffect(m: Machine, w: Word)
    requires 8 <= m.regs[RSP] <= LIMIT
    ensures var sp := m.regs[RSP] - 8; PushWord(m, w) == m.(regs := m.regs[RSP := sp], mem := WriteWord(m.mem, sp, w))
  {
    hide WriteWord;
  }

  /** An epilogue's memory holds the shadow stack without its top word. */
  lemma PoppedShadow(m: Machine, scratch: Option<Reg>, size: nat, ps: seq<Word>)
    requires ReturnReady(m, scratch) && ShadowIs(m.gs, m.mem, size, ps) && ps != []
    ensures ShadowTop(m) == ps[|ps| - 1]
    ensures ShadowIs(m.gs, Popped(m, scratch), size, ps[..|ps| - 1])
    ensures ShadowIs(m.gs, WriteWord(Popped(m, scratch), m.regs[RSP], ShadowTop(m)), size, ps[..|ps| - 1])
  {
    hide ReadWord, WriteWord;
    var sp := m.regs[RSP];
    var m1 := if scratch == None then WriteWord(m.mem, sp - 8, m.regs[R11]) else m.mem;
    LowWord(m.mem, sp - 8, m.regs[R11]);
    ShadowKept(m.gs, m.mem, m1, size, ps);
    ShadowPop(m.gs, m.mem, size, ps);
    ShadowPop(m.gs, m1, size, ps);
    LowWord(Popped(m, scratch), sp, ShadowTop(m));
    ShadowKept(m.gs, Popped(m, scratch), WriteWord(Popped(m, scratch), sp, ShadowTop(m)), size, ps[..|ps| - 1]);
  }

  lemma ReadyToReturn(scratch: Option<Reg>, c: Config, size: nat)
    requires c.m.status == Running && Integrity(c, size)
    requires Admissible(Return(scratch), c, size) || Admissible(Leave(scratch), c, size)
    requires !Last(c.frames).leaf
    ensures ReturnReady(c.m, scratch) && Pending(c.frames) != []
    ensures ShadowTop(c.m) == Last(c.frames).ret
  {
    hide ReadWord, WriteWord;
    var ps := Pending(c.frames);
    ShadowPop(c.m.gs, c.m.mem, size, ps);
  }

  /** A BlindWrite return goes to the address its call pushed, and pops one frame. */
  lemma ReturnKeeps(scratch: Option<Reg>, c: Config, size: nat)
    requires c.m.status == Running && Integrity(c, size) && Admissible(Return(scratch), c, size)
    ensures var c' := StepReturn(BlindWrite, scratch, c);
      c'.m.status == Running && c'.m.rip == Last(c.frames).ret && c'.m.regs[RSP] == Last(c.frames).slot + 8
      && (forall r: Reg :: r != RSP && scratch != Some(r) ==> c'.m.regs[r] == c.m.regs[r])
      && c'.frames == c.frames[..|c.frames| - 1] && Integrity(c', size)
  {
    hide ReadWord, WriteWord, ExecAll, Epilogue;
    var f := Last(c.frames);
    var ps := Pending(c.frames);
    if !f.leaf {
      ReadyToReturn(scratch, c, size);
      BlindWriteEffect(c.m, scratch, TRAP_BLOCK);
      PoppedShadow(c.m, scratch, size, ps);
      ReadWritten(Popped(c.m, scratch), f.slot, ShadowTop(c.m));
      assert ps[..|ps| - 1] == Pending(c.frames[..|c.frames| - 1]);
    } else {
      assert ps == Pending(c.frames[..|c.frames| - 1]);
    }
  }

  lemma PendingMarked(fs: seq<Frame>, leaf: bool)
    requires fs != []
    ensures Pending(Marked(fs, leaf)) == Pending(fs[..|fs| - 1]) + (if leaf then [] else [Last(fs).ret])
    ensures Pending(fs) == Pending(fs[..|fs| - 1]) + (if Last(fs).leaf then [] else [Last(fs).ret])
  {
    PendingPush(fs[..|fs| - 1], Last(fs).(leaf := leaf));
  }

  /** The epilogue before a tail jump pops the return address and puts it back where the function jumped to finds it. */
  lemma LeaveKeeps(scratch: Option<Reg>, c: Config, size: nat)
    requires c.m.status == Running && Integrity(c, size) && Admissible(Leave(scratch), c, size)
    ensures var c' := StepLeave(BlindWrite, scratch, c);
      c'.m.status == Running && c'.m.regs[RSP] == c.m.regs[RSP]
      && (forall r: Reg :: r != RSP && scratch != Some(r) ==> c'.m.regs[r] == c.m.regs[r])
      && c'.frames == Marked(c.frames, true) && Integrity(c', size) && Admissible(Enter, c', size)
  {
    hide ReadWord, WriteWord, ExecAll, Epilogue;
    var f := Last(c.frames);
    var ps := Pending(c.frames);
    ReadyToReturn(scratch, c, size);
    BlindWriteEffect(c.m, scratch, TRAP_BLOCK);
    PoppedShadow(c.m, scratch, size, ps);
    ReadWritten(Popped(c.m, scratch), f.slot, ShadowTop(c.m));
    PendingMarked(c.frames, true);
    assert ps[..|ps| - 1] == Pending(Marked(c.frames, true));
  }

  /** The prologue of a function entered by a tail jump pushes the address its caller was called with. */
  lemma EnterKeeps(c: Config, size: nat)
    requires c.m.status == Running && Integrity(c, size) && Admissible(Enter, c, size)
    ensures var c' := StepEnter(c);
      c'.m.status == Running && c'.m.regs == c.m.regs && c'.frames == Marked(c.frames, false) && Integrity(c', size)
  {
    hide ReadWord, WriteWord, ExecAll, Preamble;
    PreamblePushes(c.m, size, Pending(c.frames));
    PendingMarked(c.frames, false);
    assert Pending(Marked(c.frames, false)) == Pending(c.frames) + [Last(c.frames).ret];
  }

  lemma StepKeeps(e: Event, c: Config, size: nat)
    requires Integrity(c, size) && Admissible(e, c, size)
    ensures Integrity(Step(BlindWrite, e, c), size)
  {
    hide ReadWord, WriteWord, ExecAll, Epilogue, Memory.Write;
    if c.m.status == Running {
      match e
      case Call(ret, leaf) => CallKeeps(ret, leaf, c, size);
      case Return(scratch) => ReturnKeeps(scratch, c, size);
      case Leave(scratch) => LeaveKeeps(scratch, c, size);
      case Enter => EnterKeeps(c, size);
      case Store(a, bs) => StoreKeeps(c, a, bs, size);
      case FrameWrite(a, bs) => StoreKeeps(c, a, bs, size);
      case Compute(regs, zf) =>
    }
  }

  /** A store below 2^47 either stays in the lower half or faults: it cannot reach the area. */
  lemma StoreKeeps(c: Config, a: Word, bs: seq<byte>, size: nat)
    requires Integrity(c, size) && (a < LIMIT || a + |bs| <= LIMIT)
    ensures Integrity(c.(m := WriteBytes(c.m, a, bs)), size)
  {
    hide ReadWord, Memory.Write;
    if Accessible(a, |bs|) {
      if bs != [] {
        LowWrite(c.m.mem, a, bs);
        ShadowKept(c.m.gs, c.m.mem, Memory.Write(c.m.mem, a, bs), size, Pending(c.frames));
      } else {
        WriteNothing(c.m.mem, a);
      }
    }
  }

  lemma WriteNothing(m: Mem, a: nat)
    ensures Memory.Write(m, a, []) == m
  {
  }

  // ---------------------------------------------------------------- whole runs

  /** In every state of an admissible BlindWrite run the area holds exactly the pending non-leaf return addresses. */
  lemma {:induction false} ShadowHoldsPendingReturns(es: seq<Event>, c: Config, size: nat)
    requires Integrity(c, size) && AdmissibleRun(BlindWrite, es, c, size)
    ensures Integrity(Run(BlindWrite, es, c), size)
  {
    if es != [] {
      var n := |es| - 1;
      PrefixAdmissible(BlindWrite, es, c, size, n);
      ShadowHoldsPendingReturns(es[..n], c, size);
      StepKeeps(es[n], Run(BlindWrite, es[..n], c), size);
    }
  }

  lemma PrefixAdmissible(strategy: Strategy, es: seq<Event>, c: Config, size: nat, n: nat)
    requires n <= |es| && AdmissibleRun(strategy, es, c, size)
    ensures AdmissibleRun(strategy, es[..n], c, size)
  {
    forall k | 0 <= k < n
      ensures Admissible(es[..n][k], Run(strategy, es[..n][..k], c), size)
    {
      assert es[..n][..k] == es[..k];
    }
  }

  /** The calls and returns of a run seen without any machine: who is waiting, and for which address. */
  function CallStack(es: seq<Event>): seq<(Word, bool)> {
    if es == [] then [] else StackStep(CallStack(es[..|es| - 1]), es[|es| - 1])
  }

  ghost predicate FramesAre(fs: seq<Frame>, s: seq<(Word, bool)>) {
    |fs| == |s| && forall k :: 0 <= k < |fs| ==> fs[k].ret == s[k].0 && fs[k].leaf == s[k].1
  }

  lemma {:induction false} FramesFollowCalls(es: seq<Event>, c: Config, size: nat)
    requires Integrity(c, size) && AdmissibleRun(BlindWrite, es, c, size) && c.frames == []
    requires Run(BlindWrite, es, c).m.status == Running
    ensures FramesAre(Run(BlindWrite, es, c).frames, CallStack(es))
  {
    if es != [] {
      var n := |es| - 1;
      var d := Run(BlindWrite, es[..n], c);
      PrefixAdmissible(BlindWrite, es, c, size, n);
      FramesFollowCalls(es[..n], c, size);
      ShadowHoldsPendingReturns(es[..n], c, size);
      FramesStep(es[n], d, CallStack(es[..n]), size);
    }
  }

  function StackStep(s: seq<(Word, bool)>, e: Event): seq<(Word, bool)> {
    match e
    case Call(ret, leaf) => s + [(ret, leaf)]
    case Return(_) => if s == [] then s else s[..|s| - 1]
    case Leave(_) => if s == [] then s else s[..|s| - 1] + [(s[|s| - 1].0, true)]
    case Enter => if s == [] then s else s[..|s| - 1] + [(s[|s| - 1].0, false)]
    case _ => s
  }

  /** Dropping the last frame, or marking it. */
  lemma FramesBoth(fs: seq<Frame>, s: seq<(Word, bool)>)
    requires FramesAre(fs, s)
    ensures |fs| == |s| && (fs != [] ==> FramesAre(fs[..|fs| - 1], s[..|s| - 1]))
    ensures forall leaf :: fs != [] ==> FramesAre(Marked(fs, leaf), s[..|s| - 1] + [(s[|s| - 1].0, leaf)])
  {
  }

  lemma FramesPush(fs: seq<Frame>, s: seq<(Word, bool)>, f: Frame)
    requires FramesAre(fs, s)
    ensures FramesAre(fs + [f], s + [(f.ret, f.leaf)])
  {
  }

  lemma FramesStep(e: Event, d: Config, s: seq<(Word, bool)>, size: nat)
    requires d.m.status == Running && Integrity(d, size) && Admissible(e, d, size) && FramesAre(d.frames, s)
    ensures FramesAre(Step(BlindWrite, e, d).frames, StackStep(s, e))
  {
    hide ReadWord, WriteWord, ExecAll, Epilogue, Preamble, Memory.Write, Marked, StepCall, StepReturn, StepLeave, StepEnter, Integrity, FramesAre;
    FramesBoth(d.frames, s);
    match e
    case Call(ret, leaf) => CallKeeps(ret, leaf, d, size); FramesPush(d.frames, s, Frame(d.m.regs[RSP] - 8, ret, leaf));
    case Return(scratch) => ReturnKeeps(scratch, d, size);
    case Leave(scratch) => LeaveKeeps(scratch, d, size);
    case Enter => EnterKeeps(d, size);
    case _ =>
  }

  /**
    Return integrity: in a run from an empty shadow stack, whatever the stores did to the
    ordinary stack, a return resumes at the address pushed by the call it matches.
   */
  lemma ReturnsMatchCalls(es: seq<Event>, scratch: Option<Reg>, c: Config, size: nat)
    requires Integrity(c, size) && c.frames == [] && AdmissibleRun(BlindWrite, es + [Return(scratch)], c, size)
    requires Run(BlindWrite, es, c).m.status == Running
    ensures CallStack(es) != []
    ensures var d := Run(BlindWrite, es + [Return(scratch)], c); var s := CallStack(es);
      d.m.status == Running && d.m.rip == s[|s| - 1].0
  {
    var all := es + [Return(scratch)];
    var n := |es|;
    assert all[..n] == es && all[n] == Return(scratch);
    PrefixAdmissible(BlindWrite, all, c, size, n);
    ShadowHoldsPendingReturns(es, c, size);
    FramesFollowCalls(es, c, size);
    assert Admissible(all[n], Run(BlindWrite, all[..n], c), size);
    ReturnKeeps(scratch, Run(BlindWrite, es, c), size);
  }
}
