/** Executing the machine pass's output block by block: it does exactly the calls, returns and other events of `ReturnIntegrity`. */
module InstrumentedRuns {
  import opened Words
  import opened X86
  import opened X86Pass
  import opened ReturnIntegrity
  import opened Wrappers

  /** What an instruction of the program itself does: any events, and whether control leaves the block there. */
  datatype Doing = Doing(es: seq<Event>, leaves: bool)

  /** The machine runs a stretch of a block; what says what the program's own instructions do. */
  function ExecBlock(strategy: Strategy, code: Block, what: nat -> Doing, c: Config): Config
    decreases |code|
  {
    if code == [] || c.m.status != Running then c else
    match code[0]
    case Ret => if c.frames == [] then c else Config(Exec(Ret, c.m), c.frames[..|c.frames| - 1])
    case TailJump(_) => if c.frames == [] then c else Config(Exec(code[0], c.m), Marked(c.frames, true))
    case Other(id) =>
      var d := Run(strategy, what(id).es, c);
      if what(id).leaves then d else ExecBlock(strategy, code[1..], what, d)
    case i => ExecBlock(strategy, code[1..], what, c.(m := Exec(i, c.m)))
  }

  /** The input of the pass: the program's own instructions, returns, tail jumps and meta instructions. */
  predicate Plain(s: Block) {
    forall i :: 0 <= i < |s| ==> IsReturn(s[i]) || s[i].Other? || s[i].Meta?
  }

  /** The events of the same stretch before the pass. */
  function Doings(s: Block, free: seq<Option<Reg>>, what: nat -> Doing): seq<Event>
    requires |free| == |s|
  {
    if s == [] then [] else
    match s[0]
    case Ret => [Return(free[0])]
    case TailJump(_) => [Leave(free[0])]
    case Other(id) => what(id).es + if what(id).leaves then [] else Doings(s[1..], free[1..], what)
    case _ => Doings(s[1..], free[1..], what)
  }

  /** A return or tail jump that is reached belongs to a call of an instrumented function. */
  predicate OwnReturn(strategy: Strategy, s: Block, what: nat -> Doing, c: Config)
    decreases |s|
  {
    s == [] || c.m.status != Running ||
    match s[0]
    case Ret => c.frames != [] && !Last(c.frames).leaf
    case TailJump(_) => c.frames != [] && !Last(c.frames).leaf
    case Other(id) => what(id).leaves || OwnReturn(strategy, s[1..], what, Run(strategy, what(id).es, c))
    case _ => OwnReturn(strategy, s[1..], what, c)
  }

  // ---------------------------------------------------------------- runs of events

  lemma {:induction false} RunConcat(strategy: Strategy, a: seq<Event>, b: seq<Event>, c: Config)
    ensures Run(strategy, a + b, c) == Run(strategy, b, Run(strategy, a, c))
    decreases |b|
  {
    hide Step;
    if b == [] {
      assert a + b == a;
    } else {
      var most := b[..|b| - 1];
      RunConcat(strategy, a, most, c);
      assert (a + b)[..|a + b| - 1] == a + most;
    }
  }

  lemma {:induction false} StoppedStays(strategy: Strategy, es: seq<Event>, c: Config)
    requires c.m.status != Running
    ensures Run(strategy, es, c) == c
    decreases |es|
  {
    if es != [] { StoppedStays(strategy, es[..|es| - 1], c); }
  }

  lemma RunOne(strategy: Strategy, e: Event, c: Config)
    ensures Run(strategy, [e], c) == Step(strategy, e, c)
  {
    hide Step;
    assert [e][..0] == [];
  }

  // ---------------------------------------------------------------- emitted code

  predicate Emitted(code: Block) {
    forall i :: 0 <= i < |code| ==> !IsReturn(code[i]) && !code[i].Other?
  }

  lemma {:induction false} StoppedExec(code: Block, m: Machine)
    requires m.status != Running
    ensures ExecAll(code, m) == m
  {
    if code != [] { StoppedExec(code[1..], m); }
  }

  /** Straight-line code in front of the rest of a block. */
  lemma {:induction false} ExecEmitted(strategy: Strategy, code: Block, rest: Block, what: nat -> Doing, c: Config)
    requires Emitted(code)
    ensures ExecBlock(strategy, code + rest, what, c) == ExecBlock(strategy, rest, what, c.(m := ExecAll(code, c.m)))
    decreases |code|
  {
    if code == [] {
      assert code + rest == rest;
    } else if c.m.status != Running {
      StoppedExec(code, c.m);
    } else {
      assert (code + rest)[0] == code[0] && (code + rest)[1..] == code[1..] + rest;
      EmittedStep(strategy, code + rest, what, c);
      hide Exec, ExecBlock;
      ExecEmitted(strategy, code[1..], rest, what, c.(m := Exec(code[0], c.m)));
    }
  }

  lemma EmittedStep(strategy: Strategy, code: Block, what: nat -> Doing, c: Config)
    requires code != [] && c.m.status == Running && !IsReturn(code[0]) && !code[0].Other?
    ensures ExecBlock(strategy, code, what, c) == ExecBlock(strategy, code[1..], what, c.(m := Exec(code[0], c.m)))
  {
    hide Exec;
  }

  lemma EpilogueEmitted(strategy: Strategy, free: Option<Reg>, bb: nat)
    ensures Emitted(Epilogue(strategy, free, bb)) && Emitted(Preamble())
  {
  }

  /** The number of the trap block makes no difference to what the epilogue does. */
  lemma TrapBlockNumber(strategy: Strategy, free: Option<Reg>, bb: nat, m: Machine)
    ensures ExecAll(Epilogue(strategy, free, bb), m) == ExecAll(Epilogue(strategy, free, TRAP_BLOCK), m)
  {
    SameButJumps(Epilogue(strategy, free, bb), Epilogue(strategy, free, TRAP_BLOCK), m);
  }

  lemma {:induction false} SameButJumps(a: Block, b: Block, m: Machine)
    requires |a| == |b| && forall i :: 0 <= i < |a| ==> a[i] == b[i] || (a[i].JumpNotEqual? && b[i].JumpNotEqual?)
    ensures ExecAll(a, m) == ExecAll(b, m)
    decreases |a|
  {
    if a != [] {
      assert Exec(a[0], m) == Exec(b[0], m);
      hide Exec;
      SameButJumps(a[1..], b[1..], Exec(a[0], m));
    }
  }

  // ---------------------------------------------------------------- one block

  /** A stretch of a guarded block does the events of the original. */
  lemma {:induction false} BlockRuns(strategy: Strategy, s: Block, free: seq<Option<Reg>>, bb: nat, what: nat -> Doing, c: Config)
    requires |free| == |s| && Plain(s) && OwnReturn(strategy, s, what, c)
    ensures ExecBlock(strategy, Guarded(s, free, strategy, bb), what, c) == Run(strategy, Doings(s, free, what), c)
    decreases |s|
  {
    if c.m.status != Running {
      StoppedStays(strategy, Doings(s, free, what), c);
    } else if s != [] {
      var rest := Guarded(s[1..], free[1..], strategy, bb);
      assert Guarded(s, free, strategy, bb) == Guard(s[0], free[0], strategy, bb) + rest;
      if s[0].Ret? {
        ReturnRuns(strategy, free[0], bb, rest, what, c);
        RunOne(strategy, Return(free[0]), c);
      } else if s[0].TailJump? {
        TailJumpRuns(strategy, s[0], free[0], bb, rest, what, c);
        RunOne(strategy, Leave(free[0]), c);
      } else {
        assert ([s[0]] + rest)[0] == s[0] && ([s[0]] + rest)[1..] == rest;
        hide Guarded, Epilogue;
        if s[0].Meta? {
          BlockRuns(strategy, s[1..], free[1..], bb, what, c);
        } else if what(s[0].id).leaves {
          assert what(s[0].id).es + [] == what(s[0].id).es;
        } else {
          BlockRuns(strategy, s[1..], free[1..], bb, what, Run(strategy, what(s[0].id).es, c));
          RunConcat(strategy, what(s[0].id).es, Doings(s[1..], free[1..], what), c);
        }
      }
    }
  }

  /** The epilogue and its return are one event. */
  lemma ReturnRuns(strategy: Strategy, free: Option<Reg>, bb: nat, rest: Block, what: nat -> Doing, c: Config)
    requires c.m.status == Running && c.frames != [] && !Last(c.frames).leaf
    ensures ExecBlock(strategy, Guard(Ret, free, strategy, bb) + rest, what, c) == Step(strategy, Return(free), c)
  {
    var code := Epilogue(strategy, free, bb);
    EpilogueEmitted(strategy, free, bb);
    TrapBlockNumber(strategy, free, bb, c.m);
    hide Epilogue, ExecAll;
    assert Guard(Ret, free, strategy, bb) + rest == code + ([Ret] + rest);
    ExecEmitted(strategy, code, [Ret] + rest, what, c);
    assert ([Ret] + rest)[0] == Ret;
  }

  lemma TailJumpRuns(strategy: Strategy, jump: Instr, free: Option<Reg>, bb: nat, rest: Block, what: nat -> Doing, c: Config)
    requires c.m.status == Running && c.frames != [] && !Last(c.frames).leaf && jump.TailJump?
    ensures ExecBlock(strategy, Guard(jump, free, strategy, bb) + rest, what, c) == Step(strategy, Leave(free), c)
  {
    var code := Epilogue(strategy, free, bb);
    EpilogueEmitted(strategy, free, bb);
    TrapBlockNumber(strategy, free, bb, c.m);
    hide Epilogue, ExecAll;
    assert Guard(jump, free, strategy, bb) + rest == code + ([jump] + rest);
    ExecEmitted(strategy, code, [jump] + rest, what, c);
    assert ([jump] + rest)[0] == jump;
  }

  // ---------------------------------------------------------------- whole programs

  /** How control comes to a block: by a call that pushes ret, by a tail jump, or inside the function. */
  datatype Way = Called(ret: Word) | Jumped | Inside

  /**
    A stretch of control through one block of a function: from its entry, by a call or a tail
    jump, or from the place of instruction start, where a jump or a return of a callee leads.
   */
  datatype Visit = Visit(blocks: seq<Block>, free: seq<seq<Option<Reg>>>, b: nat, from: Way, start: nat, what: nat -> Doing)

  predicate VisitOk(v: Visit) {
    && Inputs(v.blocks, v.free) && v.b < |v.blocks| && v.start <= |v.blocks[v.b]| && Plain(v.blocks[v.b])
    && (!v.from.Inside? ==> v.b == 0 && v.start == MetaPrefix(v.blocks[0]))
    && (v.from.Inside? && v.b == 0 ==> v.start >= MetaPrefix(v.blocks[0]))
  }

  /** The part of the block after the pass's input that is still to come, and its scratch registers. */
  function Rest(v: Visit): Block
    requires VisitOk(v)
  {
    v.blocks[v.b][v.start..]
  }

  function RestFree(v: Visit): seq<Option<Reg>>
    requires VisitOk(v)
  {
    if v.b == 0 then v.free[0][v.start + |Preamble()|..] else v.free[v.b][v.start..]
  }

  /** Where the visit begins in the output of the pass. */
  function Begin(strategy: Strategy, v: Visit): nat
    requires VisitOk(v)
  {
    var was := Entered(v.blocks)[v.b];
    var at := if v.b == 0 then v.start + |Preamble()| else v.start;
    if !v.from.Inside? then 0 else |Guarded(was[..at], v.free[v.b][..at], strategy, |v.blocks|)|
  }

  /** The output of the pass executed from there, after the call instruction if there is one. */
  function ExecVisit(strategy: Strategy, v: Visit, c: Config): Config
    requires VisitOk(v)
  {
    var code := Instrumented(v.blocks, v.free, strategy)[v.b];
    if c.m.status != Running || Begin(strategy, v) > |code| then c else
    match v.from
    case Inside => ExecBlock(strategy, code[Begin(strategy, v)..], v.what, c)
    case Jumped => if c.frames == [] then c else ExecBlock(strategy, code, v.what, Config(c.m, Marked(c.frames, false)))
    case Called(ret) =>
      var m := PushWord(c.m, ret);
      if m.status != Running then c.(m := m) else
      ExecBlock(strategy, code, v.what, Config(m, c.frames + [Frame(m.regs[RSP], ret, false)]))
  }

  /** The entry of the function, if the visit begins there. */
  function EntryEvents(from: Way): seq<Event> {
    match from
    case Called(ret) => [Call(ret, false)]
    case Jumped => [Enter]
    case Inside => []
  }

  function VisitEvents(v: Visit): seq<Event>
    requires VisitOk(v)
  {
    EntryEvents(v.from) + Doings(Rest(v), RestFree(v), v.what)
  }

  /** Returns reached in the visit are those of the function's own calls, and a function jumped to has a caller. */
  predicate VisitReturns(strategy: Strategy, v: Visit, c: Config)
    requires VisitOk(v)
  {
    (v.from.Jumped? ==> c.frames != []) && OwnReturn(strategy, Rest(v), v.what, Run(strategy, EntryEvents(v.from), c))
  }

  lemma {:induction false} GuardedConcat(a: Block, b: Block, free: seq<Option<Reg>>, strategy: Strategy, bb: nat)
    requires |free| == |a| + |b|
    ensures Guarded(a + b, free, strategy, bb) == Guarded(a, free[..|a|], strategy, bb) + Guarded(b, free[|a|..], strategy, bb)
    decreases |a|
  {
    hide Guard;
    if a == [] {
      assert a + b == b && free[0..] == free;
    } else {
      assert (a + b)[1..] == a[1..] + b && free[..|a|][1..] == free[1..][..|a| - 1] && free[1..][|a| - 1..] == free[|a|..];
      GuardedConcat(a[1..], b, free[1..], strategy, bb);
    }
  }

  lemma {:induction false} GuardedSame(a: Block, free: seq<Option<Reg>>, strategy: Strategy, bb: nat)
    requires |free| == |a| && !Returns(a)
    ensures Guarded(a, free, strategy, bb) == a
    decreases |a|
  {
    if a != [] {
      assert !Returns(a[1..]) && !IsReturn(a[0]) by { assert forall i :: 0 <= i < |a| - 1 ==> a[1..][i] == a[i + 1]; }
      GuardedSame(a[1..], free[1..], strategy, bb);
    }
  }

  /** The output from the beginning of the visit on. */
  lemma VisitCode(strategy: Strategy, v: Visit)
    requires VisitOk(v)
    ensures |RestFree(v)| == |Rest(v)| && v.b < |Instrumented(v.blocks, v.free, strategy)|
    ensures var code, rest := Instrumented(v.blocks, v.free, strategy)[v.b], Guarded(Rest(v), RestFree(v), strategy, |v.blocks|);
      && Begin(strategy, v) <= |code|
      && (v.from.Inside? ==> code[Begin(strategy, v)..] == rest)
      && (!v.from.Inside? ==> code == v.blocks[0][..v.start] + Preamble() + rest)
  {
    EnteredBlock(v.blocks, v.free, strategy, v.b);
    var was := Entered(v.blocks)[v.b];
    var at := if v.b == 0 then v.start + |Preamble()| else v.start;
    hide Preamble, Guarded, Instrumented, MetaPrefix;
    assert at <= |was| && was[at..] == Rest(v) && v.free[v.b][at..] == RestFree(v);
    assert was == was[..at] + was[at..];
    GuardedConcat(was[..at], was[at..], v.free[v.b], strategy, |v.blocks|);
    if !v.from.Inside? {
      EntryPlain(v.blocks[0]);
      assert was[..at] == v.blocks[0][..v.start] + Preamble();
      GuardedSame(was[..at], v.free[0][..at], strategy, |v.blocks|);
    }
  }

  lemma EntryPlain(s: Block)
    ensures Emitted(s[..MetaPrefix(s)] + Preamble()) && !Returns(s[..MetaPrefix(s)] + Preamble())
    ensures forall m :: ExecAll(s[..MetaPrefix(s)], m) == m
  {
    MetaNoReturn(s);
    EpilogueEmitted(BlindWrite, None, 0);
    var meta := s[..MetaPrefix(s)];
    hide Preamble, MetaPrefix, Exec;
    forall m: Machine ensures ExecAll(meta, m) == m { MetaDoesNothing(meta, m); }
    assert forall i :: 0 <= i < |meta + Preamble()| ==> (meta + Preamble())[i] == if i < |meta| then meta[i] else Preamble()[i - |meta|];
  }

  lemma {:induction false} MetaDoesNothing(code: Block, m: Machine)
    requires forall i :: 0 <= i < |code| ==> code[i].Meta?
    ensures ExecAll(code, m) == m
    decreases |code|
  {
    if code != [] { MetaDoesNothing(code[1..], m); }
  }

  /** One visit does its events. */
  lemma VisitRuns(strategy: Strategy, v: Visit, c: Config)
    requires VisitOk(v) && VisitReturns(strategy, v, c)
    ensures |RestFree(v)| == |Rest(v)| && ExecVisit(strategy, v, c) == Run(strategy, VisitEvents(v), c)
  {
    VisitCode(strategy, v);
    PlainRest(v);
    var doings := Doings(Rest(v), RestFree(v), v.what);
    if c.m.status != Running {
      StoppedStays(strategy, VisitEvents(v), c);
    } else if v.from.Inside? {
      hide Instrumented, Guarded, Begin, Rest, RestFree, OwnReturn, Doings, ExecBlock;
      assert [] + doings == doings;
      BlockRuns(strategy, Rest(v), RestFree(v), |v.blocks|, v.what, c);
    } else {
      hide Instrumented, Guarded, Begin, Rest, RestFree, OwnReturn, Doings, ExecBlock;
      RunConcat(strategy, EntryEvents(v.from), doings, c);
      EntryRuns(strategy, v, c);
    }
  }

  lemma PlainRest(v: Visit)
    requires VisitOk(v)
    ensures Plain(Rest(v))
  {
  }

  /** The meta instructions and the prologue of an entry, from the state the call or tail jump has left. */
  lemma PrologueRuns(strategy: Strategy, v: Visit, d: Config)
    requires VisitOk(v) && !v.from.Inside? && d.m.status == Running && |RestFree(v)| == |Rest(v)|
    requires OwnReturn(strategy, Rest(v), v.what, d.(m := ExecAll(Preamble(), d.m))) && v.b < |Instrumented(v.blocks, v.free, strategy)|
    ensures ExecBlock(strategy, Instrumented(v.blocks, v.free, strategy)[v.b], v.what, d)
         == Run(strategy, Doings(Rest(v), RestFree(v), v.what), d.(m := ExecAll(Preamble(), d.m)))
  {
    var rest := Guarded(Rest(v), RestFree(v), strategy, |v.blocks|);
    var start := v.blocks[0][..v.start];
    VisitCode(strategy, v);
    PlainRest(v);
    EntryPlain(v.blocks[0]);
    hide Instrumented, Guarded, Begin, Rest, RestFree, OwnReturn, Doings, ExecBlock, Preamble, MetaPrefix, ExecAll;
    ExecEmitted(strategy, start + Preamble(), rest, v.what, d);
    ExecAllConcat(start, Preamble(), d.m);
    BlockRuns(strategy, Rest(v), RestFree(v), |v.blocks|, v.what, d.(m := ExecAll(Preamble(), d.m)));
  }

  /** The call or tail jump, the meta instructions and the prologue are one event. */
  lemma EntryRuns(strategy: Strategy, v: Visit, c: Config)
    requires VisitOk(v) && !v.from.Inside? && c.m.status == Running && |RestFree(v)| == |Rest(v)|
    requires VisitReturns(strategy, v, c)
    ensures ExecVisit(strategy, v, c) == Run(strategy, Doings(Rest(v), RestFree(v), v.what), Run(strategy, EntryEvents(v.from), c))
  {
    VisitCode(strategy, v);
    if v.from.Jumped? {
      RunOne(strategy, Enter, c);
      hide Instrumented, Guarded, Begin, Rest, RestFree, OwnReturn, Doings, ExecBlock, PushWord, Preamble, MetaPrefix, ExecAll, Marked;
      PrologueRuns(strategy, v, Config(c.m, Marked(c.frames, false)));
    } else {
      var m := PushWord(c.m, v.from.ret);
      RunOne(strategy, Call(v.from.ret, false), c);
      hide Instrumented, Guarded, Begin, Rest, RestFree, OwnReturn, Doings, ExecBlock, PushWord, Preamble, MetaPrefix, ExecAll, Marked;
      if m.status != Running {
        StoppedStays(strategy, Doings(Rest(v), RestFree(v), v.what), c.(m := m));
      } else {
        PrologueRuns(strategy, v, Config(m, c.frames + [Frame(m.regs[RSP], v.from.ret, false)]));
      }
    }
  }

  /** A thread going through instrumented code, block by block. */
  function RunVisits(strategy: Strategy, vs: seq<Visit>, c: Config): Config
    requires forall k :: 0 <= k < |vs| ==> VisitOk(vs[k])
  {
    if vs == [] then c else RunVisits(strategy, vs[1..], ExecVisit(strategy, vs[0], c))
  }

  function AllEvents(vs: seq<Visit>): seq<Event>
    requires forall k :: 0 <= k < |vs| ==> VisitOk(vs[k])
  {
    if vs == [] then [] else VisitEvents(vs[0]) + AllEvents(vs[1..])
  }

  predicate OwnReturns(strategy: Strategy, vs: seq<Visit>, c: Config)
    requires forall k :: 0 <= k < |vs| ==> VisitOk(vs[k])
  {
    vs == [] || (VisitReturns(strategy, vs[0], c) && OwnReturns(strategy, vs[1..], ExecVisit(strategy, vs[0], c)))
  }

  /** Running the pass's output, function after function and block after block, is a run of the events. */
  lemma {:induction false} VisitsRun(strategy: Strategy, vs: seq<Visit>, c: Config)
    requires (forall k :: 0 <= k < |vs| ==> VisitOk(vs[k])) && OwnReturns(strategy, vs, c)
    ensures RunVisits(strategy, vs, c) == Run(strategy, AllEvents(vs), c)
    decreases |vs|
  {
    hide ExecVisit, VisitEvents, VisitReturns, VisitOk, Step;
    if vs != [] {
      VisitRuns(strategy, vs[0], c);
      VisitsRun(strategy, vs[1..], ExecVisit(strategy, vs[0], c));
      RunConcat(strategy, VisitEvents(vs[0]), AllEvents(vs[1..]), c);
    }
  }
}
