/**
  The IR pass: a function is a control-flow graph of instructions in SSA form, and the pass
  makes every visited store go through an address ANDed with MASK.
 */
module StoreMasking {
  import opened Words

  datatype Operand = Const(w: Word) | Val(id: nat)

  /** AndMask stands for the three instructions ptrtoint, and, inttoptr that the pass inserts. */
  datatype Instr =
    | Op(dst: nat, args: seq<Operand>)
    | Load(dst: nat, from: Operand)
    | Call(dst: nat, args: seq<Operand>)
    | AndMask(dst: nat, src: Operand)
    | Store(ptr: Operand, val: Operand, ignored: bool)

  /** One original instruction, together with what was inserted right before it, and where control goes next. */
  datatype Node = Node(code: seq<Instr>, cond: seq<Operand>, succs: set<nat>)

  type Func = seq<Node>

  // ---------------------------------------------------------------- semantics

  /**
    What the instructions compute. The node, the number of nodes already executed and the
    predecessor are arguments, so phis, undefined values and call results are all covered.
   */
  datatype Interp<!M> = Interp(
    op: (nat, nat, nat, seq<Word>) -> Word,
    call: (nat, nat, seq<Word>, M) -> (Word, M),
    load: (Word, M) -> Word,
    store: (Word, Word, M) -> M,
    next: (nat, nat, seq<Word>) -> nat)

  datatype Write = Write(addr: Word, val: Word, ignored: bool)

  datatype State<M> = State(env: map<nat, Word>, mem: M, trace: seq<Write>)

  /** path lists the nodes executed so far; pc == |f| means the function has returned. */
  datatype Config<M> = Config(path: seq<nat>, pc: nat, st: State<M>)

  function Eval(env: map<nat, Word>, o: Operand): Word {
    match o
    case Const(w) => w
    case Val(id) => if id in env then env[id] else 0
  }

  function EvalAll(env: map<nat, Word>, os: seq<Operand>): seq<Word> {
    seq(|os|, i requires 0 <= i < |os| => Eval(env, os[i]))
  }

  function Prev(path: seq<nat>): nat {
    if path == [] then 0 else path[|path| - 1]
  }

  /** One instruction. With masking set, every store that is not ignored masks its own address. */
  function Exec<M>(i: Instr, I: Interp<M>, n: nat, path: seq<nat>, masking: bool, s: State<M>): State<M> {
    match i
    case Op(d, args) => s.(env := s.env[d := I.op(n, |path|, Prev(path), EvalAll(s.env, args))])
    case Load(d, p) => s.(env := s.env[d := I.load(Eval(s.env, p), s.mem)])
    case Call(d, args) =>
      var (w, m) := I.call(n, |path|, EvalAll(s.env, args), s.mem);
      s.(env := s.env[d := w], mem := m)
    case AndMask(d, src) => s.(env := s.env[d := Masked(Eval(s.env, src))])
    case Store(p, v, ignored) =>
      var a := Eval(s.env, p);
      var addr := if masking && !ignored then Masked(a) else a;
      State(s.env, I.store(addr, Eval(s.env, v), s.mem), s.trace + [Write(addr, Eval(s.env, v), ignored)])
  }

  function ExecAll<M>(code: seq<Instr>, I: Interp<M>, n: nat, path: seq<nat>, masking: bool, s: State<M>): State<M> {
    if code == [] then s else ExecAll(code[1..], I, n, path, masking, Exec(code[0], I, n, path, masking, s))
  }

  function Step<M>(f: Func, I: Interp<M>, masking: bool, c: Config<M>): Config<M> {
    if c.pc >= |f| then c else
    var st := ExecAll(f[c.pc].code, I, c.pc, c.path, masking, c.st);
    var next := I.next(c.pc, |c.path|, EvalAll(st.env, f[c.pc].cond));
    Config(c.path + [c.pc], if next in f[c.pc].succs then next else |f|, st)
  }

  function Init<M>(env: map<nat, Word>, mem: M): Config<M> {
    Config([], 0, State(env, mem, []))
  }

  function Run<M>(f: Func, I: Interp<M>, masking: bool, env: map<nat, Word>, mem: M, n: nat): Config<M> {
    if n == 0 then Init(env, mem) else Step(f, I, masking, Run(f, I, masking, env, mem, n - 1))
  }

  /** A run in which the memory is replaced by an arbitrary one before every step. */
  function HavocRun<M>(f: Func, I: Interp<M>, env: map<nat, Word>, mem: M, mems: nat -> M, n: nat): Config<M> {
    if n == 0 then Init(env, mem) else
    var c := HavocRun(f, I, env, mem, mems, n - 1);
    Step(f, I, false, c.(st := c.st.(mem := mems(n - 1))))
  }

  // ---------------------------------------------------------------- SSA form and dominance

  ghost predicate IsPath(f: Func, p: seq<nat>) {
    && p != [] && p[0] == 0
    && (forall i :: 0 <= i < |p| ==> p[i] < |f|)
    && (forall i :: 0 <= i < |p| - 1 ==> p[i + 1] in f[p[i]].succs)
  }

  ghost predicate Dominates(f: Func, a: nat, b: nat) {
    forall p :: IsPath(f, p) && p[|p| - 1] == b ==> a in p
  }

  predicate Defines(n: Node, id: nat) {
    exists i :: 0 <= i < |n.code| && !n.code[i].Store? && n.code[i].dst == id
  }

  predicate Visited(n: Node) {
    n.code != [] && n.code[0].Store? && !n.code[0].ignored
  }

  predicate DefinesPointerOf(d: Node, n: Node) {
    Visited(n) && n.code[0].ptr.Val? && Defines(d, n.code[0].ptr.id)
  }

  predicate OperandBelow(o: Operand, base: nat) {
    o.Val? ==> o.id < base
  }

  predicate OperandsBelow(os: seq<Operand>, base: nat) {
    forall i :: 0 <= i < |os| ==> OperandBelow(os[i], base)
  }

  predicate InstrBelow(i: Instr, base: nat) {
    match i
    case Op(d, args) => d < base && OperandsBelow(args, base)
    case Load(d, p) => d < base && OperandBelow(p, base)
    case Call(d, args) => d < base && OperandsBelow(args, base)
    case AndMask(d, src) => false
    case Store(p, v, _) => OperandBelow(p, base) && OperandBelow(v, base)
  }

  /** The input of the pass: one instruction a node, ids below base, one definition an id, defined before stored through. */
  ghost predicate WellFormed(f: Func, base: nat) {
    && (forall n :: 0 <= n < |f| ==>
      && |f[n].code| <= 1
      && OperandsBelow(f[n].cond, base)
      && (forall s :: s in f[n].succs ==> s < |f|)
      && (f[n].code != [] ==> InstrBelow(f[n].code[0], base)))
    && (forall a, b, id :: 0 <= a < |f| && 0 <= b < |f| && Defines(f[a], id) && Defines(f[b], id) ==> a == b)
    && (forall d, n :: 0 <= d < |f| && 0 <= n < |f| && DefinesPointerOf(f[d], f[n]) ==> Dominates(f, d, n))
  }

  // ---------------------------------------------------------------- what the analyses answer

  /** Per node: bits known to be zero in the stored-to pointer, its unsigned maximum, and the dominance queries. */
  datatype Analyses = Analyses(knownZero: seq<Word>, rangeMax: seq<Word>, dom: set<(nat, nat)>)

  /** The answers hold at each of the first n steps of a run. */
  ghost predicate FactsAlong<M>(f: Func, I: Interp<M>, masking: bool, env: map<nat, Word>, mem: M, an: Analyses, n: nat) {
    && |an.knownZero| == |f| && |an.rangeMax| == |f|
    && forall k :: 0 <= k < n ==> FactsHold(f, an, Run(f, I, masking, env, mem, k))
  }

  /** The answers hold whatever memory contains at each step. */
  ghost predicate SoundFacts<M(!new)>(f: Func, I: Interp<M>, env: map<nat, Word>, mem: M, an: Analyses) {
    && |an.knownZero| == |f| && |an.rangeMax| == |f|
    && (forall a, b :: (a, b) in an.dom ==> Dominates(f, a, b))
    && forall mems: nat -> M, n: nat :: FactsHold(f, an, HavocRun(f, I, env, mem, mems, n))
  }

  ghost predicate FactsHold<M>(f: Func, an: Analyses, c: Config<M>)
    requires |an.knownZero| == |f| && |an.rangeMax| == |f|
  {
    c.pc < |f| && Visited(f[c.pc]) ==>
      var a := Eval(c.st.env, f[c.pc].code[0].ptr);
      BitAnd(a, an.knownZero[c.pc]) == 0 && a <= an.rangeMax[c.pc]
  }

  /** The compile-time switches KNOWNBITS_OPT, SCEV_OPT and DOMTREE_OPT; OPT_ALL is all three. */
  datatype Options = Options(knownBits: bool, scev: bool, domTree: bool)

  predicate KnownBitsOpt(zero: Word) {
    BitAnd(zero, BitNot(MASK)) == BitNot(MASK)
  }

  predicate ScalarEvolutionOpt(max: Word) {
    BitAnd(max, BitNot(MASK)) == 0
  }

  predicate SkipTest(opts: Options, zero: Word, max: Word) {
    (opts.knownBits && KnownBitsOpt(zero)) || (opts.scev && ScalarEvolutionOpt(max))
  }

  // ---------------------------------------------------------------- the result of the pass

  /** What the pass did to a node. */
  datatype Outcome =
    | Untouched              // not a visited store
    | Skipped                // known bits or value range already keep the address below 2^47
    | Fresh(dst: nat)        // AND inserted before the store, its result stored through
    | Folded                 // constant pointer: the masked pointer is a constant
    | Reused(source: nat)    // the masked pointer made at another, dominating, store

  ghost predicate NodeRewritten(f: Func, base: nat, an: Analyses, opts: Options, outs: seq<Outcome>, n: nat, node: Node)
    requires |outs| == |f| == |an.knownZero| == |an.rangeMax| && n < |f|
  {
    var was := f[n];
    && node.cond == was.cond && node.succs == was.succs
    && match outs[n]
       case Untouched => node == was && !Visited(was)
       case Skipped => node == was && Visited(was) && SkipTest(opts, an.knownZero[n], an.rangeMax[n])
       case Fresh(d) =>
         && |was.code| == 1 && Visited(was) && !SkipTest(opts, an.knownZero[n], an.rangeMax[n])
         && was.code[0].ptr.Val? && d >= base
         && node.code == [AndMask(d, was.code[0].ptr), was.code[0].(ptr := Val(d))]
       case Folded =>
         && |was.code| == 1 && Visited(was) && !SkipTest(opts, an.knownZero[n], an.rangeMax[n]) && was.code[0].ptr.Const?
         && node.code == [was.code[0].(ptr := Const(Masked(was.code[0].ptr.w)))]
       case Reused(m) =>
         && |was.code| == 1 && Visited(was) && !SkipTest(opts, an.knownZero[n], an.rangeMax[n])
         && opts.domTree && m < |f| && m != n && outs[m].Fresh? && (m, n) in an.dom
         && Visited(f[m]) && f[m].code[0].ptr == was.code[0].ptr
         && node.code == [was.code[0].(ptr := Val(outs[m].dst))]
  }

  /** The function g is f with every visited store dealt with. */
  ghost predicate Rewritten(f: Func, base: nat, an: Analyses, opts: Options, outs: seq<Outcome>, g: Func) {
    && |outs| == |f| == |g| == |an.knownZero| == |an.rangeMax|
    && (forall n :: 0 <= n < |f| ==> NodeRewritten(f, base, an, opts, outs, n, g[n]))
    && DistinctFresh(outs)
  }

  ghost predicate DistinctFresh(outs: seq<Outcome>) {
    forall a, b :: 0 <= a < b < |outs| && outs[a].Fresh? && outs[b].Fresh? ==> outs[a].dst != outs[b].dst
  }
}
