/** The machine pass: it inserts the prologue and an epilogue before every return, in place. */
module X86Pass {
  import opened X86
  import opened Wrappers

  type Block = seq<Instr>

  /** A machine function being instrumented. */
  class MachinePass {
    const strategy: Strategy
    var blocks: seq<Block>
    var trapBlock: Option<nat>

    constructor (blocks: seq<Block>, strategy: Strategy)
      ensures this.blocks == blocks && this.strategy == strategy && trapBlock == None
    {
      this.blocks, this.strategy, trapBlock := blocks, strategy, None;
    }

    /** The trap block, once there, is the block after the original ones. */
    ghost predicate Valid(count: nat)
      reads this
    {
      if trapBlock == None then |blocks| == count else |blocks| == count + 1 && trapBlock == Some(count)
    }

    /**
      runOnMachineFunction. free lists, per block and position once the prologue is in, the
      register the scavenger finds dead there.
     */
    method RunOnMachineFunction(hasCalls: bool, free: seq<seq<Option<Reg>>>) returns (changed: bool)
      requires blocks != []
      requires |free| == |blocks| && |free[0]| == |blocks[0]| + |Preamble()|
      requires forall b :: 0 < b < |blocks| ==> |free[b]| == |blocks[b]|
      modifies this
      ensures changed == hasCalls
      ensures blocks == if hasCalls then Instrumented(old(blocks), free, strategy) else old(blocks)
    {
      if !hasCalls {
        return false;
      }
      InstrumentPreamble();
      trapBlock := None;
      ghost var was := blocks;
      ghost var count := |blocks|;
      hide Guarded, Epilogue, InProgress, Instrumented;
      var b := 0;
      NothingDone(was, free, strategy);
      while b < |blocks|
        invariant b <= |blocks| && Valid(count) && InProgress(blocks, was, free, strategy, b, trapBlock.Some?)
        decreases count + 1 - b
      {
        // the appended trap block is walked over too; it holds no return
        BlockDone(blocks, was, free, strategy, b, trapBlock.Some?);
        InstrumentBlock(b, if b < |free| then free[b] else [None], count);
        b := b + 1;
      }
      AllDone(blocks, was, free, strategy, b, trapBlock.Some?);
      InstrumentedIs(old(blocks), was, free, strategy);
      return true;
    }

    /** instrumentPreamble: skip the meta instructions of the entry block, then insert. */
    method InstrumentPreamble()
      requires blocks != []
      modifies this`blocks
      ensures blocks == old(blocks)[0 := WithPreamble(old(blocks)[0])]
    {
      var mi := 0;
      while mi < |blocks[0]| && blocks[0][mi].Meta?
        invariant mi <= |blocks[0]|
        invariant MetaPrefix(blocks[0]) == mi + MetaPrefix(blocks[0][mi..])
      {
        mi := mi + 1;
      }
      blocks := blocks[0 := blocks[0][..mi] + Preamble() + blocks[0][mi..]];
    }

    /** The backward walk over one block; it also walks over what it inserts. */
    method InstrumentBlock(b: nat, free: seq<Option<Reg>>, ghost count: nat)
      requires Valid(count) && b < |blocks| && |free| == |blocks[b]| && (b >= count ==> !Returns(blocks[b]))
      modifies this`blocks, this`trapBlock
      ensures Valid(count)
      ensures blocks == (if trapBlock == old(trapBlock) then old(blocks) else old(blocks) + [[Trap]])
                        [b := Guarded(old(blocks[b]), free, strategy, count)]
      ensures trapBlock.Some? <==> old(trapBlock).Some? || (strategy.TrapOnMismatch? && Returns(old(blocks[b])))
    {
      hide Epilogue, Guarded, Walked;
      ghost var was := blocks[b];
      ghost var all := blocks;
      var cur := blocks[b];
      var pos := |cur|;
      ghost var i: nat := pos;     // original instructions not walked over yet
      NothingWalked(was, free, strategy, count);
      while pos > 0
        invariant i <= pos <= |cur| && i <= |was| && Walked(cur, was, free, strategy, count, i, pos)
        invariant blocks == if trapBlock == old(trapBlock) then all else all + [[Trap]]
        invariant Valid(count)
        invariant trapBlock.Some? <==> old(trapBlock).Some? || (strategy.TrapOnMismatch? && Returns(was[i..]))
        decreases i, pos
      {
        pos := pos - 1;
        WalkBack(cur, was, free, strategy, count, i, pos);
        if pos < i {
          i := pos;
        }
        if IsReturn(cur[pos]) {
          var n;
          cur, n := InstrumentRet(cur, pos, free[pos], count);
          pos := pos + n;
        }
      }
      AllWalked(cur, was, free, strategy, count, i);
      blocks := blocks[b := cur];
    }

    /** instrumentRet: the epilogue goes in before the return at pos; n is its length. */
    method InstrumentRet(cur: Block, pos: nat, free: Option<Reg>, ghost count: nat) returns (r: Block, n: nat)
      requires Valid(count) && pos < |cur|
      modifies this`blocks, this`trapBlock
      ensures Valid(count)
      ensures r == cur[..pos] + Epilogue(strategy, free, count) + cur[pos..] && n == |Epilogue(strategy, free, count)|
      ensures !Returns(Epilogue(strategy, free, count))
      ensures blocks == if trapBlock == old(trapBlock) then old(blocks) else old(blocks) + [[Trap]]
      ensures trapBlock.Some? <==> old(trapBlock).Some? || strategy.TrapOnMismatch?
    {
      hide Epilogue;
      var bb := 0;
      if strategy.TrapOnMismatch? {
        bb := GetOrCreateTrapBlock();
      }
      EpilogueShape(strategy, free, bb, count);
      var code := Epilogue(strategy, free, bb);
      r, n := cur[..pos] + code + cur[pos..], |code|;
    }

    method GetOrCreateTrapBlock() returns (bb: nat)
      modifies this`blocks, this`trapBlock
      ensures trapBlock == Some(bb)
      ensures if old(trapBlock) == None then bb == |old(blocks)| && blocks == old(blocks) + [[Trap]]
              else bb == old(trapBlock).value && blocks == old(blocks)
    {
      if trapBlock == None {
        trapBlock := Some(|blocks|);
        blocks := blocks + [[Trap]];
      }
      bb := trapBlock.value;
    }
  }

  function FreeFor(free: seq<seq<Option<Reg>>>, b: nat): seq<Option<Reg>> {
    if b < |free| then free[b] else [None]
  }

  /** The original blocks with the first b of them guarded, and the trap block if one was asked for. */
  ghost predicate InProgress(now: seq<Block>, was: seq<Block>, free: seq<seq<Option<Reg>>>, strategy: Strategy, b: nat, trap: bool) {
    && |free| == |was| && (forall k :: 0 <= k < |was| ==> |free[k]| == |was[k]|)
    && |now| == |was| + (if trap then 1 else 0) && b <= |now| && (trap ==> now[|was|] == [Trap])
    && (forall k :: 0 <= k < |was| ==> now[k] == if k < b then Guarded(was[k], free[k], strategy, |was|) else was[k])
    && (trap <==> strategy.TrapOnMismatch? && SomeReturn(was, b))
  }

  predicate Returns(s: Block) {
    exists k :: 0 <= k < |s| && IsReturn(s[k])
  }

  /** One of the first b blocks returns. */
  predicate SomeReturn(was: seq<Block>, b: nat) {
    exists k :: 0 <= k < |was| && k < b && Returns(was[k])
  }

  lemma SomeReturnStep(was: seq<Block>, b: nat)
    ensures SomeReturn(was, b + 1) <==> SomeReturn(was, b) || (b < |was| && Returns(was[b]))
    ensures b >= |was| ==> (SomeReturn(was, b) <==> SomeReturn(was, |was|))
  {
    if b < |was| && Returns(was[b]) { assert SomeReturn(was, b + 1); }
  }

  lemma NothingDone(was: seq<Block>, free: seq<seq<Option<Reg>>>, strategy: Strategy)
    requires |free| == |was| && forall k :: 0 <= k < |was| ==> |free[k]| == |was[k]|
    ensures InProgress(was, was, free, strategy, 0, false)
  {
  }

  lemma BlockDone(now: seq<Block>, was: seq<Block>, free: seq<seq<Option<Reg>>>, strategy: Strategy, b: nat, trap: bool)
    requires InProgress(now, was, free, strategy, b, trap) && b < |now|
    ensures |FreeFor(free, b)| == |now[b]| && (b >= |was| ==> !Returns(now[b]))
    ensures var more := strategy.TrapOnMismatch? && Returns(now[b]); var all := if more && !trap then now + [[Trap]] else now;
      InProgress(all[b := Guarded(now[b], FreeFor(free, b), strategy, |was|)], was, free, strategy, b + 1, trap || more)
  {
    if b == |was| { GuardedPlain([Trap], [None], strategy, |was|); }
    SomeReturnStep(was, b);
    hide Guarded, SomeReturn;
  }

  lemma AllDone(now: seq<Block>, was: seq<Block>, free: seq<seq<Option<Reg>>>, strategy: Strategy, b: nat, trap: bool)
    requires InProgress(now, was, free, strategy, b, trap) && b == |now|
    ensures |free| == |was| && forall k :: 0 <= k < |was| ==> |free[k]| == |was[k]|
    ensures now == WithTrap(was, free, strategy)
  {
    SomeReturnStep(was, b);
    hide Guarded, SomeReturn;
  }

  lemma InstrumentedIs(blocks: seq<Block>, was: seq<Block>, free: seq<seq<Option<Reg>>>, strategy: Strategy)
    requires blocks != [] && |free| == |blocks| && |free[0]| == |blocks[0]| + |Preamble()|
    requires forall b :: 0 < b < |blocks| ==> |free[b]| == |blocks[b]|
    requires was == blocks[0 := WithPreamble(blocks[0])] && forall k :: 0 <= k < |was| ==> |free[k]| == |was[k]|
    ensures Instrumented(blocks, free, strategy) == WithTrap(was, free, strategy)
  {
    hide Guarded;
  }

  function MetaPrefix(s: Block): (n: nat)
    ensures n <= |s|
  {
    if s == [] || !s[0].Meta? then 0 else 1 + MetaPrefix(s[1..])
  }

  function WithPreamble(s: Block): Block {
    s[..MetaPrefix(s)] + Preamble() + s[MetaPrefix(s)..]
  }

  function Guard(i: Instr, free: Option<Reg>, strategy: Strategy, bb: nat): Block {
    if IsReturn(i) then Epilogue(strategy, free, bb) + [i] else [i]
  }

  /** A block with every return guarded by an epilogue. */
  function Guarded(s: Block, free: seq<Option<Reg>>, strategy: Strategy, bb: nat): Block
    requires |free| == |s|
  {
    if s == [] then [] else Guard(s[0], free[0], strategy, bb) + Guarded(s[1..], free[1..], strategy, bb)
  }

  lemma GuardedNil(s: Block, free: seq<Option<Reg>>, strategy: Strategy, bb: nat)
    requires |free| == |s|
    ensures s[..|s|] + Guarded(s[|s|..], free[|s|..], strategy, bb) == s
  {
  }

  lemma WholeBlock(s: Block, free: seq<Option<Reg>>)
    ensures s[0..] == s && free[0..] == free
  {
  }

  lemma GuardedPlain(s: Block, free: seq<Option<Reg>>, strategy: Strategy, bb: nat)
    requires |free| == |s| == 1 && !IsReturn(s[0])
    ensures Guarded(s, free, strategy, bb) == s
  {
  }

  lemma GuardedStep(s: Block, free: seq<Option<Reg>>, strategy: Strategy, bb: nat, p: nat)
    requires |free| == |s| && p < |s|
    ensures Guarded(s[p..], free[p..], strategy, bb)
         == Guard(s[p], free[p], strategy, bb) + Guarded(s[p + 1..], free[p + 1..], strategy, bb)
    ensures s[..p + 1] == s[..p] + [s[p]]
    ensures Returns(s[p..]) <==> IsReturn(s[p]) || Returns(s[p + 1..])
  {
    assert s[p..][1..] == s[p + 1..] && free[p..][1..] == free[p + 1..];
    assert s[p..] == [s[p]] + s[p + 1..];
  }

  /** Inserting the epilogue before the return at p guards it. */
  lemma InsertGuard(s: Block, free: seq<Option<Reg>>, strategy: Strategy, bb: nat, p: nat, cur: Block)
    requires |free| == |s| && p < |s| && IsReturn(s[p])
    requires cur == s[..p + 1] + Guarded(s[p + 1..], free[p + 1..], strategy, bb)
    ensures var code := Epilogue(strategy, free[p], bb);
      cur[..p] + code + cur[p..] == s[..p] + Guarded(s[p..], free[p..], strategy, bb)
  {
    hide Epilogue, Guarded;
    GuardedStep(s, free, strategy, bb, p);
    assert cur[..p] == s[..p];
    assert cur[p..] == [s[p]] + Guarded(s[p + 1..], free[p + 1..], strategy, bb);
  }

  /** The block while the walk is at pos: i instructions are still to come, the others are guarded. */
  ghost predicate Walked(cur: Block, s: Block, free: seq<Option<Reg>>, strategy: Strategy, bb: nat, i: nat, pos: nat) {
    && |free| == |s| && i <= |s| && i <= pos <= |cur|
    && cur == s[..i] + Guarded(s[i..], free[i..], strategy, bb)
    && forall k :: i <= k < pos ==> !IsReturn(cur[k])
  }

  lemma NothingWalked(s: Block, free: seq<Option<Reg>>, strategy: Strategy, bb: nat)
    requires |free| == |s|
    ensures Walked(s, s, free, strategy, bb, |s|, |s|)
  {
    GuardedNil(s, free, strategy, bb);
  }

  /** One step back: over an inserted instruction, or over one more of the block, which if a return gets its epilogue. */
  lemma WalkBack(cur: Block, s: Block, free: seq<Option<Reg>>, strategy: Strategy, bb: nat, i: nat, pos: nat)
    requires pos < |cur| && Walked(cur, s, free, strategy, bb, i, pos + 1)
    ensures pos >= i ==> Walked(cur, s, free, strategy, bb, i, pos) && !IsReturn(cur[pos])
    ensures pos < i ==> pos < |s| && cur[pos] == s[pos] && (Returns(s[pos..]) <==> IsReturn(s[pos]) || Returns(s[i..]))
    ensures pos < i && !IsReturn(cur[pos]) ==> Walked(cur, s, free, strategy, bb, pos, pos)
    ensures pos < i && IsReturn(cur[pos]) && !Returns(Epilogue(strategy, free[pos], bb)) ==>
      var code := Epilogue(strategy, free[pos], bb);
      Walked(cur[..pos] + code + cur[pos..], s, free, strategy, bb, pos, pos + |code|)
  {
    hide Epilogue, Guarded;
    if pos < i {
      GuardedStep(s, free, strategy, bb, pos);
      if IsReturn(cur[pos]) { InsertGuard(s, free, strategy, bb, pos, cur); }
    }
  }

  lemma AllWalked(cur: Block, s: Block, free: seq<Option<Reg>>, strategy: Strategy, bb: nat, i: nat)
    requires Walked(cur, s, free, strategy, bb, i, 0)
    ensures i == 0 && s[0..] == s && cur == Guarded(s, free, strategy, bb)
  {
    hide Guarded;
    WholeBlock(s, free);
    assert cur == Guarded(s[0..], free[0..], strategy, bb);
  }

  /** An epilogue has no return in it, and only the trapping one names the trap block. */
  lemma EpilogueShape(strategy: Strategy, free: Option<Reg>, bb: nat, bb': nat)
    ensures !Returns(Epilogue(strategy, free, bb))
    ensures strategy.BlindWrite? ==> Epilogue(strategy, free, bb) == Epilogue(strategy, free, bb')
  {
  }

  /** The whole function: prologue, guarded returns, and the trap block if a return can jump to it. */
  function Instrumented(blocks: seq<Block>, free: seq<seq<Option<Reg>>>, strategy: Strategy): seq<Block>
    requires blocks != [] && |free| == |blocks| && |free[0]| == |blocks[0]| + |Preamble()|
    requires forall b :: 0 < b < |blocks| ==> |free[b]| == |blocks[b]|
  {
    WithTrap(blocks[0 := WithPreamble(blocks[0])], free, strategy)
  }

  /** All blocks guarded, and the trap block. */
  function WithTrap(was: seq<Block>, free: seq<seq<Option<Reg>>>, strategy: Strategy): seq<Block>
    requires |free| == |was| && forall b :: 0 <= b < |was| ==> |free[b]| == |was[b]|
  {
    var guarded := seq(|was|, b requires 0 <= b < |was| => Guarded(was[b], free[b], strategy, |was|));
    if strategy.TrapOnMismatch? && SomeReturn(was, |was|) then guarded + [[Trap]] else guarded
  }

  /** Where instruction i of the input ends up. */
  function PlaceOf(s: Block, free: seq<Option<Reg>>, strategy: Strategy, bb: nat, i: nat): nat
    requires |free| == |s| && i < |s|
  {
    var n := |Guard(s[0], free[0], strategy, bb)|;
    if i == 0 then n - 1 else n + PlaceOf(s[1..], free[1..], strategy, bb, i - 1)
  }

  /** Every instruction is still there, and a return has its epilogue right before it. */
  lemma {:induction false} InstructionsKept(s: Block, free: seq<Option<Reg>>, strategy: Strategy, bb: nat, i: nat)
    requires |free| == |s| && i < |s|
    ensures var out := Guarded(s, free, strategy, bb); var p := PlaceOf(s, free, strategy, bb, i);
      p < |out| && out[p] == s[i]
      && (IsReturn(s[i]) ==> var code := Epilogue(strategy, free[i], bb); |code| <= p && out[p - |code|..p] == code)
  {
    hide Epilogue;
    if i > 0 {
      InstructionsKept(s[1..], free[1..], strategy, bb, i - 1);
      var rest := Guarded(s[1..], free[1..], strategy, bb);
      var head := Guard(s[0], free[0], strategy, bb);
      var q := PlaceOf(s[1..], free[1..], strategy, bb, i - 1);
      if IsReturn(s[i]) {
        SliceOfRest(head, rest, q - |Epilogue(strategy, free[i], bb)|, q);
      }
    }
  }

  lemma SliceOfRest<T>(head: seq<T>, rest: seq<T>, lo: nat, hi: nat)
    requires lo <= hi <= |rest|
    ensures (head + rest)[lo + |head|..hi + |head|] == rest[lo..hi]
  {
  }

  /** Every return of the output is one of the input, so none is without its epilogue. */
  lemma {:induction false} NoOtherReturns(s: Block, free: seq<Option<Reg>>, strategy: Strategy, bb: nat, k: nat) returns (i: nat)
    requires |free| == |s| && k < |Guarded(s, free, strategy, bb)| && IsReturn(Guarded(s, free, strategy, bb)[k])
    ensures i < |s| && IsReturn(s[i]) && PlaceOf(s, free, strategy, bb, i) == k
  {
    hide Epilogue;
    var head := Guard(s[0], free[0], strategy, bb);
    EpilogueShape(strategy, free[0], bb, bb);
    if k < |head| {
      i := 0;
    } else {
      i := NoOtherReturns(s[1..], free[1..], strategy, bb, k - |head|);
      i := i + 1;
    }
  }

  // ---------------------------------------------------------------- order, and nothing else

  /** Where the code inserted for instruction i begins: its epilogue if it is a return, else the instruction itself. */
  function StartOf(s: Block, free: seq<Option<Reg>>, strategy: Strategy, bb: nat, i: nat): int
    requires |free| == |s| && i < |s|
  {
    PlaceOf(s, free, strategy, bb, i) - if IsReturn(s[i]) then |Epilogue(strategy, free[i], bb)| else 0
  }

  /** The instructions keep their order, and the epilogue of the later one comes after the earlier one. */
  lemma {:induction false} OrderKept(s: Block, free: seq<Option<Reg>>, strategy: Strategy, bb: nat, i: nat, j: nat)
    requires |free| == |s| && i < j < |s|
    ensures PlaceOf(s, free, strategy, bb, i) < StartOf(s, free, strategy, bb, j) <= PlaceOf(s, free, strategy, bb, j)
  {
    hide Epilogue;
    if i > 0 {
      OrderKept(s[1..], free[1..], strategy, bb, i - 1, j - 1);
    } else {
      StartsInside(s[1..], free[1..], strategy, bb, j - 1);
    }
  }

  lemma {:induction false} StartsInside(s: Block, free: seq<Option<Reg>>, strategy: Strategy, bb: nat, i: nat)
    requires |free| == |s| && i < |s|
    ensures 0 <= StartOf(s, free, strategy, bb, i)
  {
    hide Epilogue;
    if i > 0 { StartsInside(s[1..], free[1..], strategy, bb, i - 1); }
  }

  /** Every instruction of the output is one of the input, or one of the epilogue of the return that follows. */
  lemma {:induction false} NothingElse(s: Block, free: seq<Option<Reg>>, strategy: Strategy, bb: nat, k: nat) returns (i: nat)
    requires |free| == |s| && k < |Guarded(s, free, strategy, bb)|
    ensures i < |s| && StartOf(s, free, strategy, bb, i) <= k <= PlaceOf(s, free, strategy, bb, i)
    ensures 0 <= StartOf(s, free, strategy, bb, i)
  {
    hide Epilogue;
    var head := Guard(s[0], free[0], strategy, bb);
    if k < |head| {
      i := 0;
    } else {
      i := NothingElse(s[1..], free[1..], strategy, bb, k - |head|);
      i := i + 1;
    }
  }

  /** Up to the first return nothing moves. */
  lemma {:induction false} SameUntilReturn(s: Block, free: seq<Option<Reg>>, strategy: Strategy, bb: nat, i: nat)
    requires |free| == |s| && i < |s| && !Returns(s[..i + 1])
    ensures PlaceOf(s, free, strategy, bb, i) == i
  {
    hide Epilogue;
    assert s[..i + 1][0] == s[0];
    if i > 0 {
      assert s[1..][..i] == s[..i + 1][1..];
      SameUntilReturn(s[1..], free[1..], strategy, bb, i - 1);
    }
  }

  // ---------------------------------------------------------------- the whole function

  /** Where instruction i of block b is once the prologue is in. */
  function Shifted(blocks: seq<Block>, b: nat, i: nat): nat
    requires b < |blocks|
  {
    if b == 0 && i >= MetaPrefix(blocks[0]) then i + |Preamble()| else i
  }

  predicate Inputs(blocks: seq<Block>, free: seq<seq<Option<Reg>>>) {
    blocks != [] && |free| == |blocks| && |free[0]| == |blocks[0]| + |Preamble()|
    && forall b :: 0 < b < |blocks| ==> |free[b]| == |blocks[b]|
  }

  function Entered(blocks: seq<Block>): seq<Block>
    requires blocks != []
  {
    blocks[0 := WithPreamble(blocks[0])]
  }

  /** Where it ends up. */
  function FinalPlace(blocks: seq<Block>, free: seq<seq<Option<Reg>>>, strategy: Strategy, b: nat, i: nat): nat
    requires Inputs(blocks, free) && b < |blocks| && i < |blocks[b]|
  {
    PlaceOf(Entered(blocks)[b], free[b], strategy, |blocks|, Shifted(blocks, b, i))
  }

  lemma EnteredBlock(blocks: seq<Block>, free: seq<seq<Option<Reg>>>, strategy: Strategy, b: nat)
    requires Inputs(blocks, free) && b < |blocks|
    ensures |free[b]| == |Entered(blocks)[b]|
    ensures Instrumented(blocks, free, strategy)[b] == Guarded(Entered(blocks)[b], free[b], strategy, |blocks|)
    ensures |blocks| <= |Instrumented(blocks, free, strategy)| <= |blocks| + 1
    ensures |Instrumented(blocks, free, strategy)| > |blocks| ==> Instrumented(blocks, free, strategy)[|blocks|] == [Trap]
  {
    hide Guarded, Preamble, MetaPrefix, SomeReturn;
  }

  lemma ShiftedIs(blocks: seq<Block>, b: nat, i: nat)
    requires b < |blocks| && i < |blocks[b]|
    ensures Shifted(blocks, b, i) < |Entered(blocks)[b]| && Entered(blocks)[b][Shifted(blocks, b, i)] == blocks[b][i]
  {
    hide Preamble;
  }

  /** The whole output: every instruction of every block is there, in order, each return right behind its epilogue. */
  lemma OutputKeepsInput(blocks: seq<Block>, free: seq<seq<Option<Reg>>>, strategy: Strategy, b: nat, i: nat)
    requires Inputs(blocks, free) && b < |blocks| && i < |blocks[b]|
    ensures var out, p := Instrumented(blocks, free, strategy), FinalPlace(blocks, free, strategy, b, i);
      && b < |out| && p < |out[b]| && out[b][p] == blocks[b][i]
      && (forall j :: i < j < |blocks[b]| ==> p < FinalPlace(blocks, free, strategy, b, j))
      && (IsReturn(blocks[b][i]) ==>
            var at := Shifted(blocks, b, i);
            at < |free[b]| && var code := Epilogue(strategy, free[b][at], |blocks|); |code| <= p && out[b][p - |code|..p] == code)
  {
    EnteredBlock(blocks, free, strategy, b);
    ShiftedIs(blocks, b, i);
    hide Preamble, Epilogue, Guarded, Instrumented, WithPreamble, MetaPrefix;
    InstructionsKept(Entered(blocks)[b], free[b], strategy, |blocks|, Shifted(blocks, b, i));
    forall j | i < j < |blocks[b]|
      ensures FinalPlace(blocks, free, strategy, b, i) < FinalPlace(blocks, free, strategy, b, j)
    {
      ShiftedIs(blocks, b, j);
      OrderKept(Entered(blocks)[b], free[b], strategy, |blocks|, Shifted(blocks, b, i), Shifted(blocks, b, j));
    }
  }

  lemma PreambleReturnless(s: Block, k: nat)
    requires k < MetaPrefix(s) + |Preamble()|
    ensures MetaPrefix(s) <= |s| && k < |WithPreamble(s)| && !Returns(WithPreamble(s)[..k + 1])
    ensures k >= MetaPrefix(s) ==> WithPreamble(s)[k] == Preamble()[k - MetaPrefix(s)]
  {
    MetaNoReturn(s);
    var n, w := MetaPrefix(s), WithPreamble(s);
    assert !Returns(Preamble());
    assert forall x :: 0 <= x < n + |Preamble()| ==> w[x] == if x < n then s[x] else Preamble()[x - n];
    hide Preamble, MetaPrefix;
    var start := w[..k + 1];
    forall x | 0 <= x < |start| ensures !IsReturn(start[x]) {
      assert start[x] == w[x];
      if x >= n { assert Preamble()[x - n] in Preamble(); }
    }
  }

  lemma {:induction false} MetaNoReturn(s: Block)
    ensures forall x :: 0 <= x < MetaPrefix(s) ==> s[x].Meta?
  {
    if s != [] && s[0].Meta? {
      MetaNoReturn(s[1..]);
      assert forall x :: 0 < x < MetaPrefix(s) ==> s[x] == s[1..][x - 1];
    }
  }

  /** What an instruction of the output is. */
  datatype Origin = Original(i: nat) | OfEpilogue(ret: nat) | OfPrologue(k: nat) | TheTrap

  ghost predicate ComesFrom(blocks: seq<Block>, free: seq<seq<Option<Reg>>>, strategy: Strategy, b: nat, k: nat, from: Origin)
    requires Inputs(blocks, free)
  {
    var out := Instrumented(blocks, free, strategy);
    && b < |out| && k < |out[b]|
    && match from
       case Original(i) => b < |blocks| && i < |blocks[b]| && FinalPlace(blocks, free, strategy, b, i) == k
       case OfEpilogue(i) =>
         && b < |blocks| && i < |blocks[b]| && IsReturn(blocks[b][i]) && Shifted(blocks, b, i) < |free[b]|
         && FinalPlace(blocks, free, strategy, b, i) - |Epilogue(strategy, free[b][Shifted(blocks, b, i)], |blocks|)| <= k
         && k < FinalPlace(blocks, free, strategy, b, i)
       case OfPrologue(j) => b == 0 && j < |Preamble()| && k == MetaPrefix(blocks[0]) + j && out[0][k] == Preamble()[j]
       case TheTrap => b == |blocks| && k == 0 && out[b] == [Trap]
  }

  lemma FromPrologue(blocks: seq<Block>, free: seq<seq<Option<Reg>>>, strategy: Strategy, k: nat, i: nat)
    requires Inputs(blocks, free) && MetaPrefix(blocks[0]) <= i < MetaPrefix(blocks[0]) + |Preamble()|
    requires |free[0]| == |Entered(blocks)[0]| && i < |Entered(blocks)[0]|
    requires StartOf(Entered(blocks)[0], free[0], strategy, |blocks|, i) <= k <= PlaceOf(Entered(blocks)[0], free[0], strategy, |blocks|, i)
    ensures ComesFrom(blocks, free, strategy, 0, k, OfPrologue(i - MetaPrefix(blocks[0])))
  {
    var was := Entered(blocks)[0];
    EnteredBlock(blocks, free, strategy, 0);
    PreambleReturnless(blocks[0], i);
    SameUntilReturn(was, free[0], strategy, |blocks|, i);
    assert !IsReturn(was[i]) by { assert was[..i + 1][i] == was[i]; }
    hide Epilogue, Guarded, Instrumented, PlaceOf, Preamble, MetaPrefix, Returns, IsReturn;
    InstructionsKept(was, free[0], strategy, |blocks|, i);
  }

  /** The instruction of the input that is at a place outside the prologue. */
  lemma Unshifted(blocks: seq<Block>, b: nat, i: nat) returns (at: nat)
    requires b < |blocks| && i < |Entered(blocks)[b]|
    requires !(b == 0 && MetaPrefix(blocks[0]) <= i < MetaPrefix(blocks[0]) + |Preamble()|)
    ensures at < |blocks[b]| && Shifted(blocks, b, at) == i && Entered(blocks)[b][i] == blocks[b][at]
  {
    hide Preamble;
    at := if b == 0 && i >= MetaPrefix(blocks[0]) then i - |Preamble()| else i;
    ShiftedIs(blocks, b, at);
  }

  lemma FromInput(blocks: seq<Block>, free: seq<seq<Option<Reg>>>, strategy: Strategy, b: nat, k: nat, i: nat, at: nat) returns (from: Origin)
    requires Inputs(blocks, free) && b < |blocks| && |free[b]| == |Entered(blocks)[b]| && i < |Entered(blocks)[b]|
    requires at < |blocks[b]| && Shifted(blocks, b, at) == i && Entered(blocks)[b][i] == blocks[b][at]
    requires StartOf(Entered(blocks)[b], free[b], strategy, |blocks|, i) <= k <= PlaceOf(Entered(blocks)[b], free[b], strategy, |blocks|, i)
    requires b < |Instrumented(blocks, free, strategy)| && k < |Instrumented(blocks, free, strategy)[b]|
    ensures ComesFrom(blocks, free, strategy, b, k, from)
  {
    hide Epilogue, Guarded, Instrumented, PlaceOf, Preamble, MetaPrefix, Shifted, WithPreamble;
    from := if k == PlaceOf(Entered(blocks)[b], free[b], strategy, |blocks|, i) then Original(at) else OfEpilogue(at);
  }

  /** And nothing else is in it: the prologue once at the entry, an epilogue before each return, the trap block. */
  lemma OutputIsInput(blocks: seq<Block>, free: seq<seq<Option<Reg>>>, strategy: Strategy, b: nat, k: nat) returns (from: Origin)
    requires Inputs(blocks, free) && b < |Instrumented(blocks, free, strategy)| && k < |Instrumented(blocks, free, strategy)[b]|
    ensures ComesFrom(blocks, free, strategy, b, k, from)
  {
    EnteredBlock(blocks, free, strategy, if b < |blocks| then b else 0);
    hide Epilogue, Guarded, Instrumented, PlaceOf, Preamble, MetaPrefix, Shifted, Entered, StartOf;
    if b == |blocks| {
      from := TheTrap;
    } else {
      var i := NothingElse(Entered(blocks)[b], free[b], strategy, |blocks|, k);
      if b == 0 && MetaPrefix(blocks[0]) <= i < MetaPrefix(blocks[0]) + |Preamble()| {
        FromPrologue(blocks, free, strategy, k, i);
        from := OfPrologue(i - MetaPrefix(blocks[0]));
      } else {
        var at := Unshifted(blocks, b, i);
        from := FromInput(blocks, free, strategy, b, k, i, at);
      }
    }
  }
}
