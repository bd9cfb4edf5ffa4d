/** The pass itself: it collects the stores of a function and rewrites them in place, one at a time. */
module StorePass {
  import opened Words
  import opened StoreMasking

  class FunctionPass {
    var nodes: Func                         // the function being rewritten
    var maskedPtrs: map<Operand, Operand>   // the last masked pointer made for each pointer
    var home: map<nat, nat>                 // the node holding each inserted instruction
    var nextId: nat                         // next unused value id
    var storesSeen: nat
    var skippedKnownBits: nat
    var skippedScev: nat
    var skippedDomTree: nat
    var instrumented: nat
    ghost var outs: seq<Outcome>            // what has been done to each node

    constructor (f: Func, base: nat)
      ensures nodes == f && nextId == base
      ensures maskedPtrs == map[] && home == map[]
      ensures storesSeen == skippedKnownBits == skippedScev == skippedDomTree == instrumented == 0
      ensures outs == seq(|f|, i => Untouched)
    {
      nodes := f;
      nextId := base;
      maskedPtrs, home := map[], map[];
      storesSeen, skippedKnownBits, skippedScev, skippedDomTree, instrumented := 0, 0, 0, 0, 0;
      outs := seq(|f|, i => Untouched);
    }

    /** Every node but the pending ones is rewritten, and the map only names masks that are in the function. */
    ghost predicate Valid(f: Func, base: nat, an: Analyses, opts: Options, pending: set<nat>)
      reads this
    {
      && |outs| == |nodes| == |f| == |an.knownZero| == |an.rangeMax| && base <= nextId
      && (forall n :: 0 <= n < |f| ==>
            if n in pending then nodes[n] == f[n] && outs[n] == Untouched && Visited(f[n])
            else NodeRewritten(f, base, an, opts, outs, n, nodes[n]))
      && DistinctFresh(outs)
      && (forall n :: 0 <= n < |f| && outs[n].Fresh? ==> outs[n].dst < nextId)
      && (forall p :: p in maskedPtrs ==> MapEntry(f, outs, home, p, maskedPtrs[p]))
    }

    /** A masked pointer made before can be stored through at node n: a constant, or an instruction that dominates it. */
    predicate Reusable(an: Analyses, n: nat, ptr: Operand)
      reads this
    {
      ptr in maskedPtrs &&
        match maskedPtrs[ptr]
        case Const(_) => true
        case Val(id) => id in home && (home[id], n) in an.dom
    }

    /** How it is recorded that node n reuses it. */
    ghost function Reuse(ptr: Operand): Outcome
      reads this
    {
      if ptr in maskedPtrs && maskedPtrs[ptr].Val? && maskedPtrs[ptr].id in home then Reused(home[maskedPtrs[ptr].id]) else Folded
    }

    /** How a mask made for a store is recorded. */
    ghost function Mask(ptr: Operand): Outcome
      reads this
    {
      if ptr.Val? then Fresh(nextId) else Folded
    }

    /** instrumentStores: collect the visited stores in layout order, then handle each. */
    method InstrumentStores(base: nat, an: Analyses, opts: Options)
      requires |nodes| == |an.knownZero| == |an.rangeMax| && WellFormed(nodes, base)
      requires Valid(nodes, base, an, opts, set n | 0 <= n < |nodes| && Visited(nodes[n]))
      requires storesSeen == skippedKnownBits + skippedScev + skippedDomTree + instrumented
      modifies this
      ensures Rewritten(old(nodes), base, an, opts, outs, nodes)
      ensures storesSeen == skippedKnownBits + skippedScev + skippedDomTree + instrumented
      ensures storesSeen == old(storesSeen) + |set n | 0 <= n < |old(nodes)| && Visited(old(nodes)[n])|
    {
      ghost var f := nodes;
      ghost var visited := set n | 0 <= n < |nodes| && Visited(nodes[n]);
      var stores: seq<nat> := [];
      for n := 0 to |nodes|
        invariant forall k :: 0 <= k < |stores| ==> stores[k] < n
        invariant forall k, l :: 0 <= k < l < |stores| ==> stores[k] < stores[l]
        invariant forall k :: 0 <= k < n ==> (k in stores <==> Visited(nodes[k]))
      {
        if Visited(nodes[n]) {
          stores := stores + [n];
        }
      }
      assert visited == Elements(stores);
      ghost var seen := storesSeen;
      for i := 0 to |stores|
        invariant Valid(f, base, an, opts, Elements(stores[i..]))
        invariant storesSeen == seen + i == skippedKnownBits + skippedScev + skippedDomTree + instrumented
      {
        assert Elements(stores[i + 1..]) == Elements(stores[i..]) - {stores[i]} && stores[i] in Elements(stores[i..]);
        InstrumentStore(f, base, an, opts, stores[i], Elements(stores[i..]));
      }
      DistinctCount(stores);
      assert Elements(stores[|stores|..]) == {};
    }

    /** instrumentStore: the three skips in order, else a mask right before the store. */
    method InstrumentStore(ghost f: Func, ghost base: nat, an: Analyses, opts: Options, n: nat, ghost pending: set<nat>)
      requires WellFormed(f, base) && n < |f| && n in pending && Valid(f, base, an, opts, pending)
      modifies this
      ensures Valid(f, base, an, opts, pending - {n}) && storesSeen == old(storesSeen) + 1 && Visited(f[n])
      ensures var ptr := f[n].code[0].ptr;
        var bits := opts.knownBits && KnownBitsOpt(an.knownZero[n]);
        var range := !bits && opts.scev && ScalarEvolutionOpt(an.rangeMax[n]);
        var reuse := !bits && !range && opts.domTree && old(Reusable(an, n, ptr));
        && outs == old(outs)[n := if bits || range then Skipped else if reuse then old(Reuse(ptr)) else old(Mask(ptr))]
        && skippedKnownBits == old(skippedKnownBits) + (if bits then 1 else 0)
        && skippedScev == old(skippedScev) + (if range then 1 else 0)
        && skippedDomTree == old(skippedDomTree) + (if reuse then 1 else 0)
        && instrumented == old(instrumented) + (if bits || range || reuse then 0 else 1)
    {
      hide NodeRewritten, MapEntry, WellFormed;
      storesSeen := storesSeen + 1;
      if opts.knownBits && KnownBitsOpt(an.knownZero[n]) {
        skippedKnownBits := skippedKnownBits + 1;
        Skip(f, base, an, opts, n, pending);
        return;
      }
      if opts.scev && ScalarEvolutionOpt(an.rangeMax[n]) {
        skippedScev := skippedScev + 1;
        Skip(f, base, an, opts, n, pending);
        return;
      }
      if opts.domTree {
        var done := DomTreeOpt(f, base, an, opts, n, pending);
        if done { return; }
      }
      instrumented := instrumented + 1;
      InsertMask(f, base, an, opts, n, pending);
    }

    /** A store left as it is. */
    ghost method Skip(f: Func, base: nat, an: Analyses, opts: Options, n: nat, pending: set<nat>)
      requires WellFormed(f, base) && n < |f| && n in pending && Valid(f, base, an, opts, pending)
      requires SkipTest(opts, an.knownZero[n], an.rangeMax[n])
      modifies this`outs
      ensures Valid(f, base, an, opts, pending - {n}) && outs == old(outs)[n := Skipped]
    {
      outs := outs[n := Skipped];
      OthersKept(f, base, an, opts, old(outs), n, Skipped, nodes);
    }

    /** The AND goes right before the store; IRBuilder folds the AND of a constant, so then nothing is inserted. */
    method InsertMask(ghost f: Func, ghost base: nat, ghost an: Analyses, ghost opts: Options, n: nat, ghost pending: set<nat>)
      requires WellFormed(f, base) && n < |f| && n in pending && Valid(f, base, an, opts, pending)
      requires !SkipTest(opts, an.knownZero[n], an.rangeMax[n])
      modifies this`nodes, this`maskedPtrs, this`home, this`nextId, this`outs
      ensures Valid(f, base, an, opts, pending - {n}) && Visited(f[n])
      ensures var ptr := f[n].code[0].ptr;
        && outs == old(outs)[n := old(Mask(ptr))]
        && maskedPtrs == old(maskedPtrs)[ptr := if ptr.Val? then Val(old(nextId)) else Const(Masked(ptr.w))]
        && (if ptr.Val? then nextId == old(nextId) + 1 && home == old(home)[old(nextId) := n] else nextId == old(nextId) && home == old(home))
    {
      hide SkipTest, DefinesPointerOf;
      var store := nodes[n].code[0];
      if store.ptr.Const? {
        var masked := Const(Masked(store.ptr.w));
        nodes := nodes[n := nodes[n].(code := [store.(ptr := masked)])];
        maskedPtrs := maskedPtrs[store.ptr := masked];
        outs := outs[n := Folded];
        OthersKept(f, base, an, opts, old(outs), n, Folded, old(nodes));
      } else {
        var d := nextId;
        nextId := nextId + 1;
        nodes := nodes[n := nodes[n].(code := [AndMask(d, store.ptr), store.(ptr := Val(d))])];
        maskedPtrs := maskedPtrs[store.ptr := Val(d)];
        home := home[d := n];
        outs := outs[n := Fresh(d)];
        OthersKept(f, base, an, opts, old(outs), n, Fresh(d), old(nodes));
        MaskRewrites(f, base, an, opts, old(outs), n, d);
        MaskRecorded(f, old(outs), old(home), old(maskedPtrs), n, d);
      }
    }

    /** domTreeOpt: reuse the last masked pointer if it is no instruction, or one that dominates the store. */
    method DomTreeOpt(ghost f: Func, ghost base: nat, an: Analyses, ghost opts: Options, n: nat, ghost pending: set<nat>) returns (done: bool)
      requires WellFormed(f, base) && n < |f| && n in pending && Valid(f, base, an, opts, pending)
      requires opts.domTree && !SkipTest(opts, an.knownZero[n], an.rangeMax[n])
      modifies this`nodes, this`skippedDomTree, this`outs
      ensures Visited(f[n]) && (done <==> old(Reusable(an, n, f[n].code[0].ptr)))
      ensures done ==> Valid(f, base, an, opts, pending - {n}) && skippedDomTree == old(skippedDomTree) + 1
      ensures done ==> outs == old(outs)[n := old(Reuse(f[n].code[0].ptr))]
      ensures !done ==> nodes == old(nodes) && outs == old(outs) && skippedDomTree == old(skippedDomTree)
    {
      hide NodeRewritten, MapEntry, SkipTest, WellFormed;
      var store := nodes[n].code[0];
      if store.ptr in maskedPtrs {
        var prev := maskedPtrs[store.ptr];
        EntryIs(f, outs, home, store.ptr, prev);
        if prev.Const? || (home[prev.id], n) in an.dom {
          ghost var o := if prev.Const? then Folded else Reused(home[prev.id]);
          nodes := nodes[n := nodes[n].(code := [store.(ptr := prev)])];
          skippedDomTree := skippedDomTree + 1;
          outs := outs[n := o];
          ReuseRewrites(f, base, an, opts, old(outs), home, n, prev, o);
          OthersKept(f, base, an, opts, old(outs), n, o, old(nodes));
          EntriesKept(f, old(outs), home, maskedPtrs, n, o);
          return true;
        }
      }
      return false;
    }
  }

  lemma EntryIs(f: Func, outs: seq<Outcome>, home: map<nat, nat>, p: Operand, masked: Operand)
    requires MapEntry(f, outs, home, p, masked)
    ensures masked.Val? ==> masked.id in home
  {
  }

  /** A store through a mask in reach is rewritten as it should be. */
  lemma ReuseRewrites(f: Func, base: nat, an: Analyses, opts: Options, outs: seq<Outcome>, home: map<nat, nat>, n: nat, prev: Operand, o: Outcome)
    requires |outs| == |f| == |an.knownZero| == |an.rangeMax| && n < |f| && outs[n] == Untouched && WellFormed(f, base)
    requires Visited(f[n]) && opts.domTree && !SkipTest(opts, an.knownZero[n], an.rangeMax[n])
    requires MapEntry(f, outs, home, f[n].code[0].ptr, prev)
    requires if prev.Const? then o == Folded else prev.id in home && o == Reused(home[prev.id]) && (home[prev.id], n) in an.dom
    ensures NodeRewritten(f, base, an, opts, outs[n := o], n, f[n].(code := [f[n].code[0].(ptr := prev)]))
  {
    hide SkipTest;
  }

  /** And so is a store through a new mask. */
  lemma MaskRewrites(f: Func, base: nat, an: Analyses, opts: Options, outs: seq<Outcome>, n: nat, d: nat)
    requires |outs| == |f| == |an.knownZero| == |an.rangeMax| && n < |f| && WellFormed(f, base) && d >= base
    requires Visited(f[n]) && f[n].code[0].ptr.Val? && !SkipTest(opts, an.knownZero[n], an.rangeMax[n])
    ensures NodeRewritten(f, base, an, opts, outs[n := Fresh(d)], n, f[n].(code := [AndMask(d, f[n].code[0].ptr), f[n].code[0].(ptr := Val(d))]))
  {
    hide SkipTest;
  }

  lemma MaskRecorded(f: Func, outs: seq<Outcome>, home: map<nat, nat>, maskedPtrs: map<Operand, Operand>, n: nat, d: nat)
    requires n < |outs| == |f| && outs[n] == Untouched && Visited(f[n]) && f[n].code[0].ptr.Val?
    requires forall p :: p in maskedPtrs ==> MapEntry(f, outs, home, p, maskedPtrs[p])
    requires forall k :: 0 <= k < |outs| && outs[k].Fresh? ==> outs[k].dst < d
    ensures var ptrs := maskedPtrs[f[n].code[0].ptr := Val(d)];
      forall p :: p in ptrs ==> MapEntry(f, outs[n := Fresh(d)], home[d := n], p, ptrs[p])
  {
    var ptrs := maskedPtrs[f[n].code[0].ptr := Val(d)];
    forall p | p in ptrs ensures MapEntry(f, outs[n := Fresh(d)], home[d := n], p, ptrs[p]) {
      if p != f[n].code[0].ptr { assert MapEntry(f, outs, home, p, maskedPtrs[p]); }
    }
  }

  lemma EntriesKept(f: Func, outs: seq<Outcome>, home: map<nat, nat>, maskedPtrs: map<Operand, Operand>, n: nat, o: Outcome)
    requires n < |outs| && outs[n] == Untouched
    requires forall p :: p in maskedPtrs ==> MapEntry(f, outs, home, p, maskedPtrs[p])
    ensures forall p :: p in maskedPtrs ==> MapEntry(f, outs[n := o], home, p, maskedPtrs[p])
  {
    forall p | p in maskedPtrs ensures MapEntry(f, outs[n := o], home, p, maskedPtrs[p]) {
      assert MapEntry(f, outs, home, p, maskedPtrs[p]);
    }
  }

  /** The pass on a whole function. */
  method RunPass(f: Func, base: nat, an: Analyses, opts: Options) returns (g: Func)
    requires |f| == |an.knownZero| == |an.rangeMax| && WellFormed(f, base)
    ensures exists outs :: Rewritten(f, base, an, opts, outs, g)
  {
    var pass := new FunctionPass(f, base);
    pass.InstrumentStores(base, an, opts);
    g := pass.nodes;
    assert Rewritten(f, base, an, opts, pass.outs, g);
  }

  /** An entry of the map: a folded constant, or a mask inserted for the same pointer at its home node. */
  ghost predicate MapEntry(f: Func, outs: seq<Outcome>, home: map<nat, nat>, p: Operand, masked: Operand)
  {
    match p
    case Const(w) => masked == Const(Masked(w))
    case Val(_) =>
      && masked.Val? && masked.id in home
      && var m := home[masked.id];
         m < |f| == |outs| && outs[m] == Fresh(masked.id) && Visited(f[m]) && f[m].code[0].ptr == p
  }

  /** Deciding an undecided node changes nothing for the others. */
  lemma OthersKept(f: Func, base: nat, an: Analyses, opts: Options, outs: seq<Outcome>, n: nat, o: Outcome, nodes: Func)
    requires |outs| == |nodes| == |f| == |an.knownZero| == |an.rangeMax| && n < |f| && outs[n] == Untouched
    ensures forall k :: 0 <= k < |f| && k != n && NodeRewritten(f, base, an, opts, outs, k, nodes[k]) ==>
              NodeRewritten(f, base, an, opts, outs[n := o], k, nodes[k])
  {
  }

  function Elements(s: seq<nat>): set<nat> {
    set x | x in s
  }

  lemma {:induction false} DistinctCount(s: seq<nat>)
    requires forall k, l :: 0 <= k < l < |s| ==> s[k] < s[l]
    ensures |Elements(s)| == |s|
  {
    if s != [] {
      var t := s[..|s| - 1];
      DistinctCount(t);
      assert Elements(s) == Elements(t) + {s[|s| - 1]};
    }
  }
}
