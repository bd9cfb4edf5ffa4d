/** What the store pass preserves: every run of a rewritten function follows the run that masks at each store. */
module MaskingSoundness {
  import opened Words
  import opened StoreMasking

  // ---------------------------------------------------------------- paths and dominance

  /** A run walks the control-flow graph. */
  lemma {:induction false} RunIsPath<M>(f: Func, I: Interp<M>, masking: bool, env: map<nat, Word>, mem: M, n: nat, base: nat)
    requires WellFormed(f, base) && |f| > 0
    ensures var c := Run(f, I, masking, env, mem, n);
            c.pc <= |f| && (forall i :: 0 <= i < |c.path| ==> c.path[i] < |f|)
            && (c.pc < |f| ==> IsPath(f, c.path + [c.pc]))
  {
    if n > 0 {
      RunIsPath(f, I, masking, env, mem, n - 1, base);
      var c := Run(f, I, masking, env, mem, n - 1);
      var c' := Run(f, I, masking, env, mem, n);
      if c.pc < |f| && c'.pc < |f| {
        var p := c.path + [c.pc];
        assert c'.path + [c'.pc] == p + [c'.pc];
      }
    }
  }

  /**
    The path argument behind reusing a masked pointer: d defines the pointer, m masks it and
    reaches the store t. Since d dominates m and m dominates t, the pointer is not redefined
    after the last visit of m, on any path, loops included.
   */
  lemma NoRedefinition(f: Func, p: seq<nat>, i: nat, d: nat, m: nat)
    requires IsPath(f, p) && i < |p| - 1 && m !in p[i + 1..]
    requires Dominates(f, d, m) && d != m && Dominates(f, m, p[|p| - 1])
    ensures forall j :: i < j < |p| - 1 ==> p[j] != d
  {
    forall j | i < j < |p| - 1
      ensures p[j] != d
    {
      if p[j] == d {
        Detour(f, p, i, j, d, m);
        assert false;
      }
    }
  }

  /** A redefinition after the last visit of m would leave a path to the end that avoids m. */
  lemma Detour(f: Func, p: seq<nat>, i: nat, j: nat, d: nat, m: nat)
    requires IsPath(f, p) && i < j < |p| - 1 && m !in p[i + 1..] && p[j] == d
    requires Dominates(f, d, m) && d != m
    ensures !Dominates(f, m, p[|p| - 1])
  {
    var k := FirstVisit(p, d, j);
    forall x | 0 <= x < k + 1
      ensures p[x] != m
    {
      PrefixIsPath(f, p, x);
      assert p[..x + 1][x] == p[x];
      assert x < k ==> d !in p[..x + 1] by { assert x < k ==> p[..x + 1] == p[..k][..x + 1]; }
    }
    var q := p[..k + 1] + p[j + 1..];
    Splice(f, p, k, j);
    assert m !in q;
  }

  lemma FirstVisit(p: seq<nat>, d: nat, j: nat) returns (k: nat)
    requires j < |p| && p[j] == d
    ensures k <= j && p[k] == d && d !in p[..k]
  {
    k := 0;
    while p[k] != d
      invariant k <= j && d !in p[..k]
      decreases j - k
    {
      k := k + 1;
    }
  }

  lemma PrefixIsPath(f: Func, p: seq<nat>, x: nat)
    requires IsPath(f, p) && x < |p|
    ensures IsPath(f, p[..x + 1])
  {
  }

  /** Cutting the part between two visits of the same node leaves a path. */
  lemma Splice(f: Func, p: seq<nat>, k: nat, j: nat)
    requires IsPath(f, p) && k <= j < |p| - 1 && p[k] == p[j]
    ensures var q := p[..k + 1] + p[j + 1..]; IsPath(f, q) && q[|q| - 1] == p[|p| - 1]
  {
    var q := p[..k + 1] + p[j + 1..];
    forall i | 0 <= i < |q| - 1
      ensures q[i + 1] in f[q[i]].succs
    {
      if i < k {
        assert q[i] == p[i] && q[i + 1] == p[i + 1];
      } else {
        assert q[i] == p[i - k + j] && q[i + 1] == p[i - k + j + 1];
      }
    }
  }

  // ---------------------------------------------------------------- facts and skips

  /** mems are the memories met by the run that masks at every store. */
  ghost predicate MemoriesOf<M>(mems: nat -> M, f: Func, I: Interp<M>, env: map<nat, Word>, mem: M) {
    forall k: nat :: mems(k) == Run(f, I, true, env, mem, k).st.mem
  }

  /** Masking addresses is, to the values and the path, the same as changing memory behind the function's back. */
  lemma {:induction false} HavocFollows<M>(f: Func, I: Interp<M>, env: map<nat, Word>, mem: M, mems: nat -> M, n: nat, base: nat)
    requires WellFormed(f, base) && MemoriesOf(mems, f, I, env, mem)
    ensures var h := HavocRun(f, I, env, mem, mems, n);
            var c := Run(f, I, true, env, mem, n);
            h.path == c.path && h.pc == c.pc && h.st.env == c.st.env
  {
    if n > 0 {
      HavocFollows(f, I, env, mem, mems, n - 1, base);
      var h := HavocRun(f, I, env, mem, mems, n - 1);
      var c := Run(f, I, true, env, mem, n - 1);
      assert mems(n - 1) == c.st.mem;
      MaskingKeepsValues(f, I, h.(st := h.st.(mem := c.st.mem)), c, base);
    }
  }

  lemma ExecOne<M>(code: seq<Instr>, I: Interp<M>, n: nat, path: seq<nat>, masking: bool, s: State<M>)
    requires |code| == 1
    ensures ExecAll(code, I, n, path, masking, s) == Exec(code[0], I, n, path, masking, s)
  {
    assert code[1..] == [];
  }

  lemma ExecTwo<M>(code: seq<Instr>, I: Interp<M>, n: nat, path: seq<nat>, masking: bool, s: State<M>)
    requires |code| == 2
    ensures ExecAll(code, I, n, path, masking, s)
         == Exec(code[1], I, n, path, masking, Exec(code[0], I, n, path, masking, s))
  {
    ExecOne(code[1..], I, n, path, masking, Exec(code[0], I, n, path, masking, s));
  }

  lemma MaskingKeepsValues<M>(f: Func, I: Interp<M>, h: Config<M>, c: Config<M>, base: nat)
    requires WellFormed(f, base)
    requires h.path == c.path && h.pc == c.pc && h.st.env == c.st.env && h.st.mem == c.st.mem
    ensures var h' := Step(f, I, false, h); var c' := Step(f, I, true, c);
            h'.path == c'.path && h'.pc == c'.pc && h'.st.env == c'.st.env
  {
    if c.pc < |f| && f[c.pc].code != [] {
      ExecOne(f[c.pc].code, I, c.pc, c.path, false, h.st);
      ExecOne(f[c.pc].code, I, c.pc, c.path, true, c.st);
    }
  }

  /** A skipped store needs no mask. */
  lemma SkipIsSafe(opts: Options, a: Word, zero: Word, max: Word)
    requires BitAnd(a, zero) == 0 && a <= max
    requires SkipTest(opts, zero, max)
    ensures a < LIMIT && Masked(a) == a
  {
    if KnownBitsOpt(zero) {
      KnownZero(a, zero, BitNot(MASK));
      HighBitsClear(a);
    } else {
      HighBitsClear(max);
    }
    MaskedBelow(a);
  }

  // ---------------------------------------------------------------- simulation

  ghost predicate Agree(e1: map<nat, Word>, e0: map<nat, Word>, base: nat) {
    forall id: nat :: id < base ==> Eval(e1, Val(id)) == Eval(e0, Val(id))
  }

  /** The masked pointer made at path[i] is current as long as the pointer was not redefined since. */
  ghost predicate MaskCurrent(f: Func, outs: seq<Outcome>, path: seq<nat>, env: map<nat, Word>, i: nat)
    requires i < |path|
  {
    var m := path[i];
    m < |f| == |outs| && outs[m].Fresh? && Visited(f[m]) && f[m].code[0].ptr.Val?
      && (forall j :: i < j < |path| ==> path[j] < |f| && !Defines(f[path[j]], f[m].code[0].ptr.id))
    ==> Eval(env, Val(outs[m].dst)) == Masked(Eval(env, f[m].code[0].ptr))
  }

  ghost predicate Simulates<M>(f: Func, outs: seq<Outcome>, base: nat, c1: Config<M>, c0: Config<M>) {
    && c1.path == c0.path && c1.pc == c0.pc
    && c1.st.mem == c0.st.mem && c1.st.trace == c0.st.trace
    && Agree(c1.st.env, c0.st.env, base)
    && (forall i :: 0 <= i < |c1.path| ==> MaskCurrent(f, outs, c1.path, c1.st.env, i))
  }

  lemma EvalAgrees(e1: map<nat, Word>, e0: map<nat, Word>, base: nat, o: Operand)
    requires Agree(e1, e0, base) && OperandBelow(o, base)
    ensures Eval(e1, o) == Eval(e0, o)
  {
  }

  lemma EvalAllAgrees(e1: map<nat, Word>, e0: map<nat, Word>, base: nat, os: seq<Operand>)
    requires Agree(e1, e0, base) && OperandsBelow(os, base)
    ensures EvalAll(e1, os) == EvalAll(e0, os)
  {
    forall i | 0 <= i < |os|
      ensures EvalAll(e1, os)[i] == EvalAll(e0, os)[i]
    {
      EvalAgrees(e1, e0, base, os[i]);
    }
  }

  /** An instruction below base does the same in both runs. */
  lemma ExecAgrees<M>(i: Instr, I: Interp<M>, n: nat, path: seq<nat>, base: nat, s1: State<M>, s0: State<M>)
    requires InstrBelow(i, base) && Agree(s1.env, s0.env, base) && s1.mem == s0.mem && s1.trace == s0.trace
    requires i.Store? ==> i.ignored || Masked(Eval(s0.env, i.ptr)) == Eval(s0.env, i.ptr)
    ensures var t1 := Exec(i, I, n, path, false, s1); var t0 := Exec(i, I, n, path, true, s0);
            Agree(t1.env, t0.env, base) && t1.mem == t0.mem && t1.trace == t0.trace
  {
    match i
    case Op(d, args) => EvalAllAgrees(s1.env, s0.env, base, args);
    case Load(d, p) => EvalAgrees(s1.env, s0.env, base, p);
    case Call(d, args) => EvalAllAgrees(s1.env, s0.env, base, args);
    case AndMask(_, _) => assert false;
    case Store(p, v, _) => EvalAgrees(s1.env, s0.env, base, p); EvalAgrees(s1.env, s0.env, base, v);
  }

  /** Which masks an executed node leaves current. */
  lemma MasksSurvive(f: Func, base: nat, outs: seq<Outcome>, path: seq<nat>, n: nat,
                     e: map<nat, Word>, e': map<nat, Word>)
    requires WellFormed(f, base) && n < |f| == |outs| && DistinctFresh(outs)
    requires forall m :: 0 <= m < |outs| && outs[m].Fresh? ==> outs[m].dst >= base
    requires forall m :: 0 <= m < |outs| && outs[m].Fresh? && m != n ==>
      Eval(e', Val(outs[m].dst)) == Eval(e, Val(outs[m].dst))
    requires forall id: nat :: id < base && !Defines(f[n], id) ==> Eval(e', Val(id)) == Eval(e, Val(id))
    requires forall i :: 0 <= i < |path| ==> MaskCurrent(f, outs, path, e, i)
    requires outs[n].Fresh? && Visited(f[n]) && f[n].code[0].ptr.Val? ==>
      Eval(e', Val(outs[n].dst)) == Masked(Eval(e', f[n].code[0].ptr))
    ensures forall i :: 0 <= i < |path| + 1 ==> MaskCurrent(f, outs, path + [n], e', i)
  {
    var path' := path + [n];
    forall i | 0 <= i < |path'|
      ensures MaskCurrent(f, outs, path', e', i)
    {
      var m := path'[i];
      if i < |path| && m < |f| && outs[m].Fresh? && Visited(f[m]) && f[m].code[0].ptr.Val?
        && (forall j :: i < j < |path'| ==> path'[j] < |f| && !Defines(f[path'[j]], f[m].code[0].ptr.id)) {
        assert path'[|path|] == n;
        assert forall j :: i < j < |path| ==> path'[j] == path[j];
        assert MaskCurrent(f, outs, path, e, i);
      }
    }
  }

  /** At a store that reuses the mask made at m, that mask is current: m was visited and the pointer stayed. */
  lemma ReuseIsCurrent(f: Func, base: nat, outs: seq<Outcome>, path: seq<nat>, n: nat, m: nat, env: map<nat, Word>)
    requires WellFormed(f, base) && IsPath(f, path + [n]) && |outs| == |f|
    requires m < |f| && m != n && outs[m].Fresh? && Visited(f[m]) && f[m].code[0].ptr.Val? && |f[m].code| == 1
    requires Dominates(f, m, n)
    requires forall i :: 0 <= i < |path| ==> MaskCurrent(f, outs, path, env, i)
    ensures Eval(env, Val(outs[m].dst)) == Masked(Eval(env, f[m].code[0].ptr))
  {
    var p := path + [n];
    assert p[|p| - 1] == n;
    assert m in p;
    assert m in path;
    var i := LastVisit(path, m);
    var id := f[m].code[0].ptr.id;
    forall j | i < j < |path|
      ensures path[j] < |f| && !Defines(f[path[j]], id)
    {
      assert p[j] == path[j];
      if Defines(f[path[j]], id) {
        var d := path[j];
        assert DefinesPointerOf(f[d], f[m]);
        assert m !in p[i + 1..];
        NoRedefinition(f, p, i, d, m);
        assert false;
      }
    }
    assert MaskCurrent(f, outs, path, env, i);
  }

  lemma LastVisit(p: seq<nat>, m: nat) returns (i: nat)
    requires m in p
    ensures i < |p| && p[i] == m && m !in p[i + 1..]
  {
    i := |p| - 1;
    while p[i] != m
      invariant i < |p| && m !in p[i + 1..]
      invariant m in p[..i + 1]
      decreases i
    {
      i := i - 1;
    }
  }

  // ---------------------------------------------------------------- the simulation

  ghost predicate Prepared(f: Func, base: nat, an: Analyses, opts: Options, outs: seq<Outcome>, g: Func) {
    && |f| > 0 && WellFormed(f, base) && Rewritten(f, base, an, opts, outs, g)
    && (forall a, b :: (a, b) in an.dom ==> Dominates(f, a, b))
  }

  ghost predicate SameEffect<M>(f: Func, base: nat, outs: seq<Outcome>, g: Func, I: Interp<M>, c1: Config<M>, c0: Config<M>)
    requires c0.pc < |f| == |g| == |outs|
  {
    var t1 := ExecAll(g[c0.pc].code, I, c0.pc, c0.path, false, c1.st);
    var t0 := ExecAll(f[c0.pc].code, I, c0.pc, c0.path, true, c0.st);
    Agree(t1.env, t0.env, base) && t1.mem == t0.mem && t1.trace == t0.trace && NodeEffect(f, outs, base, c0.pc, c1.st.env, t1.env)
  }

  /** The effect of one rewritten node is the effect of the masking original, mask bookkeeping included. */
  lemma NodeSimulates<M>(f: Func, base: nat, an: Analyses, opts: Options, outs: seq<Outcome>, g: Func, I: Interp<M>, c1: Config<M>, c0: Config<M>)
    requires Prepared(f, base, an, opts, outs, g) && Simulates(f, outs, base, c1, c0)
    requires c0.pc < |f| && IsPath(f, c0.path + [c0.pc]) && FactsHold(f, an, c0)
    ensures SameEffect(f, base, outs, g, I, c1, c0)
  {
    hide SameEffect, NodeEffect, Agree;
    if outs[c0.pc].Fresh? {
      MaskSimulates(f, base, an, opts, outs, g, I, c1, c0);
    } else if outs[c0.pc].Folded? || outs[c0.pc].Reused? {
      ReuseSimulates(f, base, an, opts, outs, g, I, c1, c0);
    } else {
      SameSimulates(f, base, an, opts, outs, g, I, c1, c0);
    }
  }

  /** A node left as it is. */
  lemma SameSimulates<M>(f: Func, base: nat, an: Analyses, opts: Options, outs: seq<Outcome>, g: Func, I: Interp<M>, c1: Config<M>, c0: Config<M>)
    requires Prepared(f, base, an, opts, outs, g) && Simulates(f, outs, base, c1, c0) && c0.pc < |f| && FactsHold(f, an, c0)
    requires outs[c0.pc].Untouched? || outs[c0.pc].Skipped?
    ensures SameEffect(f, base, outs, g, I, c1, c0)
  {
    var n := c0.pc;
    assert NodeRewritten(f, base, an, opts, outs, n, g[n]);
    FreshAboveBase(f, base, an, opts, outs, g);
    var s1, s0 := c1.st, c0.st;
    if f[n].code != [] {
      var i0 := f[n].code[0];
      ExecOne(f[n].code, I, n, c0.path, true, s0);
      ExecOne(f[n].code, I, n, c0.path, false, s1);
      if outs[n].Skipped? {
        EvalAgrees(s1.env, s0.env, base, i0.ptr);
        SkipIsSafe(opts, Eval(s0.env, i0.ptr), an.knownZero[n], an.rangeMax[n]);
      }
      ExecAgrees(i0, I, n, c0.path, base, s1, s0);
    }
  }

  /** A store with a new mask before it. */
  lemma MaskSimulates<M>(f: Func, base: nat, an: Analyses, opts: Options, outs: seq<Outcome>, g: Func, I: Interp<M>, c1: Config<M>, c0: Config<M>)
    requires Prepared(f, base, an, opts, outs, g) && Simulates(f, outs, base, c1, c0) && c0.pc < |f| && outs[c0.pc].Fresh?
    ensures SameEffect(f, base, outs, g, I, c1, c0)
  {
    var n := c0.pc;
    assert NodeRewritten(f, base, an, opts, outs, n, g[n]);
    FreshAboveBase(f, base, an, opts, outs, g);
    var s1, s0 := c1.st, c0.st;
    var i0 := f[n].code[0];
    ExecOne(f[n].code, I, n, c0.path, true, s0);
    EvalAgrees(s1.env, s0.env, base, i0.ptr);
    EvalAgrees(s1.env, s0.env, base, i0.val);
    ExecTwo(g[n].code, I, n, c0.path, false, s1);
    var e := s1.env[outs[n].dst := Masked(Eval(s1.env, i0.ptr))];
    assert Agree(e, s1.env, base);
    EvalAgrees(e, s1.env, base, i0.val);
    EvalAgrees(e, s1.env, base, i0.ptr);
  }

  /** A store through a mask made before, or folded. */
  lemma ReuseSimulates<M>(f: Func, base: nat, an: Analyses, opts: Options, outs: seq<Outcome>, g: Func, I: Interp<M>, c1: Config<M>, c0: Config<M>)
    requires Prepared(f, base, an, opts, outs, g) && Simulates(f, outs, base, c1, c0)
    requires c0.pc < |f| && IsPath(f, c0.path + [c0.pc]) && (outs[c0.pc].Folded? || outs[c0.pc].Reused?)
    ensures SameEffect(f, base, outs, g, I, c1, c0)
  {
    var n := c0.pc;
    assert NodeRewritten(f, base, an, opts, outs, n, g[n]);
    FreshAboveBase(f, base, an, opts, outs, g);
    var s1, s0 := c1.st, c0.st;
    var i0 := f[n].code[0];
    ExecOne(f[n].code, I, n, c0.path, true, s0);
    EvalAgrees(s1.env, s0.env, base, i0.ptr);
    EvalAgrees(s1.env, s0.env, base, i0.val);
    ExecOne(g[n].code, I, n, c0.path, false, s1);
    if outs[n].Reused? {
      var m := outs[n].source;
      assert NodeRewritten(f, base, an, opts, outs, m, g[m]);
      ReuseIsCurrent(f, base, outs, c0.path, n, m, s1.env);
    }
  }

  /** How a node may change the environment: only what it defines, and its own mask, correctly. */
  ghost predicate NodeEffect(f: Func, outs: seq<Outcome>, base: nat, n: nat, e: map<nat, Word>, e': map<nat, Word>)
    requires n < |f| == |outs|
  {
    && (forall m :: 0 <= m < |outs| && outs[m].Fresh? && m != n ==> Eval(e', Val(outs[m].dst)) == Eval(e, Val(outs[m].dst)))
    && (forall id: nat :: id < base && !Defines(f[n], id) ==> Eval(e', Val(id)) == Eval(e, Val(id)))
    && (outs[n].Fresh? && Visited(f[n]) && f[n].code[0].ptr.Val? ==>
          Eval(e', Val(outs[n].dst)) == Masked(Eval(e', f[n].code[0].ptr)))
  }

  lemma StepSimulates<M>(f: Func, base: nat, an: Analyses, opts: Options, outs: seq<Outcome>, g: Func, I: Interp<M>, c1: Config<M>, c0: Config<M>)
    requires Prepared(f, base, an, opts, outs, g) && Simulates(f, outs, base, c1, c0)
    requires c0.pc < |f| ==> IsPath(f, c0.path + [c0.pc]) && FactsHold(f, an, c0)
    ensures Simulates(f, outs, base, Step(g, I, false, c1), Step(f, I, true, c0))
  {
    if c0.pc < |f| {
      var n := c0.pc;
      NodeSimulates(f, base, an, opts, outs, g, I, c1, c0);
      assert NodeRewritten(f, base, an, opts, outs, n, g[n]);
      var e1 := ExecAll(g[n].code, I, n, c0.path, false, c1.st).env;
      var e0 := ExecAll(f[n].code, I, n, c0.path, true, c0.st).env;
      EvalAllAgrees(e1, e0, base, f[n].cond);
      FreshAboveBase(f, base, an, opts, outs, g);
      MasksSurvive(f, base, outs, c0.path, n, c1.st.env, e1);
    }
  }

  lemma FreshAboveBase(f: Func, base: nat, an: Analyses, opts: Options, outs: seq<Outcome>, g: Func)
    requires Rewritten(f, base, an, opts, outs, g)
    ensures forall m :: 0 <= m < |outs| && outs[m].Fresh? ==> outs[m].dst >= base
  {
    forall m | 0 <= m < |outs| && outs[m].Fresh?
      ensures outs[m].dst >= base
    {
      assert NodeRewritten(f, base, an, opts, outs, m, g[m]);
    }
  }

  lemma InitSimulates<M>(f: Func, outs: seq<Outcome>, base: nat, env: map<nat, Word>, mem: M)
    ensures Simulates(f, outs, base, Init(env, mem), Init(env, mem))
  {
  }

  lemma {:induction false} RunsSimulate<M>(f: Func, base: nat, an: Analyses, opts: Options, outs: seq<Outcome>, g: Func,
                                           I: Interp<M>, env: map<nat, Word>, mem: M, n: nat)
    requires Prepared(f, base, an, opts, outs, g) && FactsAlong(f, I, true, env, mem, an, n)
    ensures Simulates(f, outs, base, Run(g, I, false, env, mem, n), Run(f, I, true, env, mem, n))
  {
    hide Simulates, Step, FactsHold, IsPath, WellFormed, Rewritten, Dominates;
    if n == 0 {
      InitSimulates(f, outs, base, env, mem);
    } else {
      RunsSimulate(f, base, an, opts, outs, g, I, env, mem, n - 1);
      RunIsPath(f, I, true, env, mem, n - 1, base);
      StepSimulates(f, base, an, opts, outs, g, I, Run(g, I, false, env, mem, n - 1), Run(f, I, true, env, mem, n - 1));
    }
  }

  // ---------------------------------------------------------------- the main results

  /**
    The optimised pass refines the plain one: after any number of steps at which the analyses were
    right, under any mix of skips and reuses, the rewritten function has taken the path, holds the
    memory and has made the writes of the original function masking the address of every visited store.
   */
  lemma PassRefinesMasking<M>(f: Func, base: nat, an: Analyses, opts: Options, outs: seq<Outcome>, g: Func,
                              I: Interp<M>, env: map<nat, Word>, mem: M, n: nat)
    requires Prepared(f, base, an, opts, outs, g) && FactsAlong(f, I, true, env, mem, an, n)
    ensures var c1 := Run(g, I, false, env, mem, n); var c0 := Run(f, I, true, env, mem, n);
            c1.path == c0.path && c1.pc == c0.pc && c1.st.mem == c0.st.mem && c1.st.trace == c0.st.trace
  {
    RunsSimulate(f, base, an, opts, outs, g, I, env, mem, n);
  }

  /** Answers that hold whatever memory contains hold along the masked run, whose memory may differ from the original's. */
  lemma SoundFactsSuffice<M(!new)>(f: Func, base: nat, an: Analyses, I: Interp<M>, env: map<nat, Word>, mem: M, n: nat)
    requires WellFormed(f, base) && SoundFacts(f, I, env, mem, an)
    ensures FactsAlong(f, I, true, env, mem, an, n)
  {
    var mems: nat -> M := (k: nat) => Run(f, I, true, env, mem, k).st.mem;
    forall k | 0 <= k < n
      ensures FactsHold(f, an, Run(f, I, true, env, mem, k))
    {
      HavocFollows(f, I, env, mem, mems, k, base);
      assert FactsHold(f, an, HavocRun(f, I, env, mem, mems, k));
    }
  }

  ghost predicate AllBelow(trace: seq<Write>) {
    forall i :: 0 <= i < |trace| && !trace[i].ignored ==> trace[i].addr < LIMIT
  }

  lemma {:induction false} MaskingWritesBelow<M>(f: Func, base: nat, I: Interp<M>, env: map<nat, Word>, mem: M, n: nat)
    requires WellFormed(f, base)
    ensures AllBelow(Run(f, I, true, env, mem, n).st.trace)
  {
    if n > 0 {
      MaskingWritesBelow(f, base, I, env, mem, n - 1);
      var c := Run(f, I, true, env, mem, n - 1);
      if c.pc < |f| && f[c.pc].code != [] {
        ExecOne(f[c.pc].code, I, c.pc, c.path, true, c.st);
        if f[c.pc].code[0].Store? { MaskedBelow(Eval(c.st.env, f[c.pc].code[0].ptr)); }
      }
    }
  }

  /** Every store the pass visits writes below 2^47 in every run of the rewritten function. */
  lemma VisitedStoresStayBelow<M>(f: Func, base: nat, an: Analyses, opts: Options, outs: seq<Outcome>, g: Func,
                                  I: Interp<M>, env: map<nat, Word>, mem: M, n: nat)
    requires Prepared(f, base, an, opts, outs, g) && FactsAlong(f, I, true, env, mem, an, n)
    ensures AllBelow(Run(g, I, false, env, mem, n).st.trace)
  {
    PassRefinesMasking(f, base, an, opts, outs, g, I, env, mem, n);
    MaskingWritesBelow(f, base, I, env, mem, n);
  }

  lemma LowExecAgrees<M>(i: Instr, I: Interp<M>, n: nat, path: seq<nat>, s: State<M>)
    requires AllBelow(Exec(i, I, n, path, false, s).trace)
    ensures Exec(i, I, n, path, true, s) == Exec(i, I, n, path, false, s) && AllBelow(s.trace)
  {
    if i.Store? {
      var a, v := Eval(s.env, i.ptr), Eval(s.env, i.val);
      LastBelow(s.trace, Write(a, v, i.ignored));
      MaskedBelow(a);
    }
  }

  lemma LastBelow(trace: seq<Write>, w: Write)
    requires AllBelow(trace + [w])
    ensures AllBelow(trace) && (!w.ignored ==> w.addr < LIMIT)
  {
    var t' := trace + [w];
    assert t'[|trace|] == w;
    assert forall k :: 0 <= k < |trace| ==> trace[k] == t'[k];
  }

  lemma LowStepAgrees<M>(f: Func, base: nat, I: Interp<M>, c: Config<M>)
    requires WellFormed(f, base) && AllBelow(Step(f, I, false, c).st.trace)
    ensures Step(f, I, true, c) == Step(f, I, false, c) && AllBelow(c.st.trace)
  {
    if c.pc < |f| && f[c.pc].code != [] {
      ExecOne(f[c.pc].code, I, c.pc, c.path, false, c.st);
      ExecOne(f[c.pc].code, I, c.pc, c.path, true, c.st);
      LowExecAgrees(f[c.pc].code[0], I, c.pc, c.path, c.st);
    }
  }

  lemma {:induction false} LowRunsAgree<M>(f: Func, base: nat, I: Interp<M>, env: map<nat, Word>, mem: M, n: nat)
    requires WellFormed(f, base) && AllBelow(Run(f, I, false, env, mem, n).st.trace)
    ensures Run(f, I, true, env, mem, n) == Run(f, I, false, env, mem, n)
  {
    if n > 0 {
      LowStepAgrees(f, base, I, Run(f, I, false, env, mem, n - 1));
      LowRunsAgree(f, base, I, env, mem, n - 1);
    }
  }

  lemma {:induction false} LowPrefix<M>(f: Func, base: nat, I: Interp<M>, env: map<nat, Word>, mem: M, n: nat, k: nat)
    requires WellFormed(f, base) && AllBelow(Run(f, I, false, env, mem, n).st.trace) && k <= n
    ensures AllBelow(Run(f, I, false, env, mem, k).st.trace)
    decreases n
  {
    if k < n {
      LowStepAgrees(f, base, I, Run(f, I, false, env, mem, n - 1));
      LowPrefix(f, base, I, env, mem, n - 1, k);
    }
  }

  /**
    A function whose stores are already below 2^47 keeps its path, memory and writes; for that the
    analyses need to be right on its own, original, run only.
   */
  lemma LowFunctionsUnchanged<M>(f: Func, base: nat, an: Analyses, opts: Options, outs: seq<Outcome>, g: Func,
                                 I: Interp<M>, env: map<nat, Word>, mem: M, n: nat)
    requires Prepared(f, base, an, opts, outs, g) && FactsAlong(f, I, false, env, mem, an, n)
    requires AllBelow(Run(f, I, false, env, mem, n).st.trace)
    ensures var c1 := Run(g, I, false, env, mem, n); var c0 := Run(f, I, false, env, mem, n);
            c1.path == c0.path && c1.pc == c0.pc && c1.st.mem == c0.st.mem && c1.st.trace == c0.st.trace
  {
    forall k | 0 <= k < n
      ensures FactsHold(f, an, Run(f, I, true, env, mem, k))
    {
      LowPrefix(f, base, I, env, mem, n, k);
      LowRunsAgree(f, base, I, env, mem, k);
      assert FactsHold(f, an, Run(f, I, false, env, mem, k));
    }
    PassRefinesMasking(f, base, an, opts, outs, g, I, env, mem, n);
    LowRunsAgree(f, base, I, env, mem, n);
  }
}
