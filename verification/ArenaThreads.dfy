/** Thread descriptors of the arena: each one not freed is in exactly one place, so none is freed twice or used by its holder after that. */
module ArenaThreads {
  import opened PageTables
  import opened Arena
  import opened ArenaReferences
  import opened ArenaOwnership
  import opened Wrappers

  /** A descriptor is with a live slot or with the call that made it or took it down. */
  predicate Keeps(s: State, at: Place, d: nat) {
    match at
    case OnSlot(h, id) => h in s.allocs && id in s.allocs[h].slots && s.allocs[h].slots[id].Live? && s.allocs[h].slots[id].desc == d
    case OnCall(t) => t in s.ops && HoldsDesc(s.ops[t]) && s.ops[t].desc == d
    case _ => false
  }

  ghost predicate Kept(s: State, d: nat) {
    exists at :: Keeps(s, at, d)
  }

  /** Every descriptor is in exactly one place, and only those not freed are anywhere. */
  ghost predicate DescsOk(s: State) {
    && (forall at, d :: Keeps(s, at, d) ==> d in s.threads)
    && (forall d :: d in s.threads ==> Kept(s, d))
    && (forall a, b, d :: Keeps(s, a, d) && Keeps(s, b, d) ==> a == b)
  }

  /** A descriptor names the thread it was made for. */
  predicate NamedAt(s: State, at: Place) {
    match at
    case OnSlot(h, id) =>
      h in s.allocs && id in s.allocs[h].slots && s.allocs[h].slots[id].Live? ==>
        (s.allocs[h].slots[id].desc in s.threads && s.threads[s.allocs[h].slots[id].desc] == s.allocs[h].slots[id].tid)
    case OnCall(t) =>
      t in s.ops && HoldsDesc(s.ops[t]) && !s.ops[t].call.SaFree? ==>
        (s.ops[t].desc in s.threads && s.threads[s.ops[t].desc] == t)
    case _ => true
  }

  ghost predicate NamesOk(s: State) {
    forall at :: NamedAt(s, at)
  }

  // ---------------------------------------------------------------- how descriptors move

  ghost predicate DescMoves(s: State, s': State, moved: set<nat>, to: Place) {
    && s'.threads.Keys == s.threads.Keys + moved
    && (forall at, d :: Keeps(s', at, d) <==> if d in moved then at == to else Keeps(s, at, d))
  }

  ghost predicate DescLost(s: State, s': State, d: nat) {
    && s'.threads.Keys == s.threads.Keys - {d}
    && forall at, e :: Keeps(s', at, e) <==> e != d && Keeps(s, at, e)
  }

  lemma MovingDesc(s: State, s': State, moved: set<nat>, to: Place)
    requires DescsOk(s) && DescMoves(s, s', moved, to)
    ensures DescsOk(s')
  {
    hide Keeps;
    forall d | d in s'.threads ensures Kept(s', d) {
      if d in moved {
        assert Keeps(s', to, d);
      } else {
        assert Kept(s, d);
        var at :| Keeps(s, at, d);
        assert Keeps(s', at, d);
      }
    }
  }

  lemma LosingDesc(s: State, s': State, d: nat)
    requires DescsOk(s) && DescLost(s, s', d)
    ensures DescsOk(s')
  {
    hide Keeps;
    forall e | e in s'.threads ensures Kept(s', e) {
      assert Kept(s, e);
      var at :| Keeps(s, at, e);
      assert Keeps(s', at, e);
    }
  }

  lemma OnlyKept(s: State, a: Place, b: Place, d: nat)
    requires DescsOk(s) && Keeps(s, a, d)
    ensures (Keeps(s, b, d) ==> a == b) && d in s.threads
  {
    hide Keeps;
  }

  lemma KeptThere(s: State, at: Place, d: nat)
    requires DescsOk(s) && Keeps(s, at, d)
    ensures d in s.threads
  {
    hide Keeps;
  }

  lemma NotKept(s: State, at: Place, d: nat)
    requires DescsOk(s) && d !in s.threads
    ensures !Keeps(s, at, d)
  {
    hide Keeps;
  }

  /** The steps that make, hand over, take down or free a descriptor. */
  predicate Hands(s: State, t: nat, c: Choice)
    requires t in s.ops
  {
    var pc := s.ops[t].pc;
    (pc == NewThread && c.ok) || pc == Publish || pc == EraseLive || pc == FreeThread
  }

  lemma CallKeeps(s: State, t: nat, c: Choice)
    requires t in s.ops && Safe(s, t) && Shape(s.ops[t]) && !Hands(s, t, c)
    ensures var o, a := s.ops[t], After(s, t, c);
      ((a.Some? && HoldsDesc(a.value)) <==> HoldsDesc(o)) && (a.Some? && HoldsDesc(o) ==> a.value.desc == o.desc)
    ensures After(s, t, c).Some? ==> After(s, t, c).value.call == s.ops[t].call
  {
    AfterIs(s, t, c);
    PcKeepsDesc(s, t, c);
    hide *;
    DescAtPc(s.ops[t], After(s, t, c));
  }

  lemma PcKeepsDesc(s: State, t: nat, c: Choice)
    requires t in s.ops && Safe(s, t) && Shape(s.ops[t]) && !Hands(s, t, c)
    ensures var o, pc := s.ops[t], PcAfter(s, t, c); (pc.Some? && HoldsDesc(o.(pc := pc.value))) <==> HoldsDesc(o)
    ensures var o := s.ops[t]; HoldsDesc(o) ==> !(o.pc == NewThread && c.ok) && o.pc != EraseLive
  {
    hide Safe;
  }

  /** HoldsDesc looks at the call and the point it is at. */
  lemma DescAtPc(o: Op, a: Option<Op>)
    ensures a.Some? && a.value.call == o.call ==> (HoldsDesc(a.value) <==> HoldsDesc(o.(pc := a.value.pc)))
  {
  }

  lemma DescChange(s: State, t: nat, c: Choice)
    requires CanAdvance(s, t, c)
    ensures var o, x := s.ops[t], ChangeOf(s, t, c);
      && (x.NewDesc? <==> o.pc == NewThread && c.ok) && (x.NewDesc? ==> x.born == c.n && x.owner == t && c.n !in s.threads)
      && (x.DropDesc? <==> o.pc == FreeThread) && (x.DropDesc? ==> x.dead == o.desc)
  {
    hide Present, Mapped, NoneFrom, EntryFrom, Distinct;
  }

  /** The descriptors after a step. */
  lemma ThreadsAfter(s: State, t: nat, c: Choice)
    requires CanAdvance(s, t, c)
    ensures var o, s' := s.ops[t], Advanced(s, t, c);
      s'.threads == if o.pc == NewThread && c.ok then s.threads[c.n := t]
                    else if o.pc == FreeThread then s.threads - {o.desc} else s.threads
    ensures s.ops[t].pc == NewThread && c.ok ==> c.n !in s.threads
    ensures Advanced(s, t, c).ops == Called(s, t, After(s, t, c)).ops
  {
    AdvancedIs(s, t, c);
    DescChange(s, t, c);
    hide *;
    ChangedRest(s, s.ops[t].h, ChangeOf(s, t, c));
  }

  lemma DescStays(s: State, t: nat, c: Choice, at: Place, d: nat)
    requires CanAdvance(s, t, c) && OpOk(s, t) && !Hands(s, t, c)
    requires ChangeOf(s, t, c).FreeAllocator? ==> s.ops[t].h in s.allocs && s.allocs[s.ops[t].h].slots == map[]
    ensures Keeps(Advanced(s, t, c), at, d) <==> Keeps(s, at, d)
  {
    assert Shape(s.ops[t]) && t in s.ops;
    AdvancedIs(s, t, c);
    CallKeeps(s, t, c);
    hide *;
    if at.OnSlot? {
      SlotDescStays(s, t, c, at.h, at.id, d);
    } else {
      CallDescStays(s, Advanced(s, t, c), t, After(s, t, c), at, d);
    }
  }

  lemma SlotDescStays(s: State, t: nat, c: Choice, h: nat, id: nat, d: nat)
    requires CanAdvance(s, t, c) && OpOk(s, t) && !Hands(s, t, c)
    requires ChangeOf(s, t, c).FreeAllocator? ==> s.ops[t].h in s.allocs && s.allocs[s.ops[t].h].slots == map[]
    ensures Keeps(Advanced(s, t, c), OnSlot(h, id), d) <==> Keeps(s, OnSlot(h, id), d)
  {
    var s' := Advanced(s, t, c);
    hide CanAdvance, ChangeOf, Advanced, OpOk;
    assert !TurnsLive(s.ops[t], h, id);
    if Keeps(s, OnSlot(h, id), d) { LiveStays(s, t, c, h, id, s.allocs[h].slots[id]); }
    if Keeps(s', OnSlot(h, id), d) { LiveStays(s, t, c, h, id, s'.allocs[h].slots[id]); }
  }

  lemma CallDescStays(s: State, s': State, t: nat, a: Option<Op>, at: Place, d: nat)
    requires !at.OnSlot? && t in s.ops && s'.ops == Called(s, t, a).ops
    requires var o := s.ops[t];
      ((a.Some? && HoldsDesc(a.value)) <==> HoldsDesc(o)) && (a.Some? && HoldsDesc(o) ==> a.value.desc == o.desc)
    ensures Keeps(s', at, d) <==> Keeps(s, at, d)
  {
    hide HoldsDesc;
  }

  lemma BornMoves(s: State, t: nat, c: Choice)
    requires CanAdvance(s, t, c) && OpOk(s, t) && DescsOk(s) && s.ops[t].pc == NewThread && c.ok
    ensures DescMoves(s, Advanced(s, t, c), {c.n}, OnCall(t))
  {
    var s' := Advanced(s, t, c);
    ThreadsAfter(s, t, c);
    AdvancedIs(s, t, c);
    assert s'.allocs == s.allocs;
    hide Possible, Safe, DescsOk, ChangeOf, Changed, Advanced;
    forall at, d
      ensures Keeps(s', at, d) <==> if d == c.n then at == OnCall(t) else Keeps(s, at, d)
    {
      NotKept(s, at, c.n);
    }
  }

  lemma PublishHands(s: State, t: nat, c: Choice)
    requires CanAdvance(s, t, c) && OpOk(s, t) && DescsOk(s) && s.ops[t].pc == Publish
    ensures DescMoves(s, Advanced(s, t, c), {s.ops[t].desc}, OnSlot(s.ops[t].h, s.ops[t].id))
  {
    var o, s' := s.ops[t], Advanced(s, t, c);
    TurnIs(s, t, c);
    TurnChange(s, t, c);
    TurnAfter(s, t, c);
    assert Keeps(s, OnCall(t), o.desc);
    KeptThere(s, OnCall(t), o.desc);
    hide CanAdvance, Advanced, After, ChangeOf, OpOk, DescsOk, HoldsList, HoldsDesc;
    forall at, d
      ensures Keeps(s', at, d) <==> if d == o.desc then at == OnSlot(o.h, o.id) else Keeps(s, at, d)
    {
      OnlyKept(s, OnCall(t), at, o.desc);
    }
  }

  lemma EraseHands(s: State, t: nat, c: Choice)
    requires CanAdvance(s, t, c) && OpOk(s, t) && DescsOk(s) && s.ops[t].pc == EraseLive
    ensures DescMoves(s, Advanced(s, t, c), {s.allocs[s.ops[t].h].slots[s.ops[t].id].desc}, OnCall(t))
  {
    var o, s' := s.ops[t], Advanced(s, t, c);
    TurnIs(s, t, c);
    TurnChange(s, t, c);
    TurnAfter(s, t, c);
    var desc := s.allocs[o.h].slots[o.id].desc;
    assert HoldsDesc(o.(pc := CheckSize));
    DescAtPc(o, After(s, t, c));
    assert Keeps(s, OnSlot(o.h, o.id), desc);
    KeptThere(s, OnSlot(o.h, o.id), desc);
    hide CanAdvance, Advanced, After, ChangeOf, OpOk, DescsOk, HoldsList, HoldsDesc;
    forall at, d
      ensures Keeps(s', at, d) <==> if d == desc then at == OnCall(t) else Keeps(s, at, d)
    {
      OnlyKept(s, OnSlot(o.h, o.id), at, desc);
    }
  }

  lemma FreeLoses(s: State, t: nat, c: Choice)
    requires CanAdvance(s, t, c) && OpOk(s, t) && DescsOk(s) && s.ops[t].pc == FreeThread
    ensures DescLost(s, Advanced(s, t, c), s.ops[t].desc)
  {
    var o, s' := s.ops[t], Advanced(s, t, c);
    assert Keeps(s, OnCall(t), o.desc);
    ThreadsAfter(s, t, c);
    AdvancedIs(s, t, c);
    FreeThreadGoesOn(s, t, c);
    ChangedRest(s, o.h, ChangeOf(s, t, c));
    hide CanAdvance, Possible, Safe, DescsOk, ChangeOf, After, Changed, Advanced, OpOk, HoldsDesc, Applies;
    forall at, d
      ensures Keeps(s', at, d) <==> d != o.desc && Keeps(s, at, d)
    {
      OnlyKept(s, OnCall(t), at, o.desc);
    }
  }

  lemma FreeThreadGoesOn(s: State, t: nat, c: Choice)
    requires t in s.ops && Safe(s, t) && s.ops[t].pc == FreeThread
    ensures ChangeOf(s, t, c) == DropDesc(s.ops[t].desc) && HoldsDesc(s.ops[t])
    ensures var a := After(s, t, c); a.Some? && !HoldsDesc(a.value)
  {
  }

  // ---------------------------------------------------------------- every step keeps the descriptors

  lemma StaysDescs(s: State, t: nat, c: Choice)
    requires CanAdvance(s, t, c) && OpOk(s, t) && DescsOk(s) && !Hands(s, t, c)
    requires ChangeOf(s, t, c).FreeAllocator? ==> s.ops[t].h in s.allocs && s.allocs[s.ops[t].h].slots == map[]
    ensures DescsOk(Advanced(s, t, c))
  {
    var s' := Advanced(s, t, c);
    ThreadsAfter(s, t, c);
    hide DescsOk, CanAdvance, Advanced, OpOk, Keeps, ChangeOf;
    forall at, d
      ensures Keeps(s', at, d) <==> Keeps(s, at, d)
    {
      DescStays(s, t, c, at, d);
    }
    MovingDesc(s, s', {}, OnFreeList);
  }

  lemma AdvanceKeepsDescs(s: State, t: nat, c: Choice)
    requires Lifetimes(s) && DescsOk(s) && CanAdvance(s, t, c)
    ensures DescsOk(Advanced(s, t, c))
  {
    var o, s' := s.ops[t], Advanced(s, t, c);
    assert OpOk(s, t);
    if ChangeOf(s, t, c).FreeAllocator? { FreedAtEnd(s, t, c); DestroyedEmpty(s, t); }
    assert o.pc == EraseLive ==> o.h in s.allocs && o.id in s.allocs[o.h].slots && s.allocs[o.h].slots[o.id].Live?;
    hide Lifetimes, DescsOk, CanAdvance, Advanced, OpOk, ChangeOf;
    if !Hands(s, t, c) {
      StaysDescs(s, t, c);
    } else if o.pc == NewThread {
      BornMoves(s, t, c);
      MovingDesc(s, s', {c.n}, OnCall(t));
    } else if o.pc == Publish {
      PublishHands(s, t, c);
      MovingDesc(s, s', {o.desc}, OnSlot(o.h, o.id));
    } else if o.pc == EraseLive {
      EraseHands(s, t, c);
      MovingDesc(s, s', {s.allocs[o.h].slots[o.id].desc}, OnCall(t));
    } else {
      FreeLoses(s, t, c);
      LosingDesc(s, s', o.desc);
    }
  }

  lemma OtherDescStays(s: State, a: Action, at: Place, d: nat)
    requires Enabled(s, a) && !a.Advance?
    ensures (Keeps(Next(s, a), at, d) <==> Keeps(s, at, d)) && Next(s, a).threads == s.threads
  {
    if IsStart(a) {
      NewCallNoDesc(s, a);
      StartStarts(s, a);
      hide Next, Enabled, HoldsDesc;
    } else {
      hide IsStart, CanAdvance, Walk, IsTable, HoldsDesc;
    }
  }

  lemma NewCallNoDesc(s: State, a: Action)
    requires Enabled(s, a) && IsStart(a)
    ensures Next(s, a).threads == s.threads && StarterOf(a) in Next(s, a).ops && !HoldsDesc(Next(s, a).ops[StarterOf(a)])
  {
    StartIs(s, a);
    hide Enabled, Next, HoldsDesc;
    StartingHoldsNothing(Next(s, a).ops[StarterOf(a)]);
  }

  lemma OtherDescs(s: State, a: Action)
    requires DescsOk(s) && Enabled(s, a) && !a.Advance?
    ensures DescsOk(Next(s, a))
  {
    var s' := Next(s, a);
    hide DescsOk, Keeps, Next, Enabled;
    forall at, d
      ensures Keeps(s', at, d) <==> Keeps(s, at, d)
    {
      OtherDescStays(s, a, at, d);
    }
    OtherDescStays(s, a, OnFreeList, 0);
    MovingDesc(s, s', {}, OnFreeList);
  }

  /** No thread descriptor is ever lost, in two places at once, or freed twice. */
  lemma StepKeepsDescs(s: State, a: Action)
    requires Lifetimes(s) && DescsOk(s) && Enabled(s, a)
    ensures DescsOk(Next(s, a))
  {
    if a.Advance? {
      AdvanceIs(s, a);
      hide *;
      AdvanceKeepsDescs(s, a.t, a.c);
    } else {
      hide *;
      OtherDescs(s, a);
    }
  }

  // ---------------------------------------------------------------- and their names

  /** A descriptor that a step leaves allocated keeps its name. */
  lemma NameStays(s: State, t: nat, c: Choice, d: nat)
    requires CanAdvance(s, t, c) && d in s.threads && d in Advanced(s, t, c).threads
    ensures Advanced(s, t, c).threads[d] == s.threads[d]
  {
    ThreadsAfter(s, t, c);
    hide *;
  }

  /** What is live at a slot once it has been published, or taken down. */
  lemma TurnedLive(s: State, t: nat, c: Choice, slot: Slot)
    requires CanAdvance(s, t, c) && OpOk(s, t) && TurnsLive(s.ops[t], s.ops[t].h, s.ops[t].id)
    ensures var o := s.ops[t];
      LiveAt(Advanced(s, t, c), o.h, o.id, slot) <==> o.pc == Publish && slot == Live(t, o.held, o.desc)
    ensures s.ops[t].pc == Publish ==> HoldsDesc(s.ops[t]) && !s.ops[t].call.SaFree?
  {
    TurnIs(s, t, c);
    TurnChange(s, t, c);
    hide CanAdvance, After, OpOk, ChangeOf, Advanced, HoldsDesc, HoldsList;
  }

  lemma SlotNameStays(s: State, t: nat, c: Choice, h: nat, id: nat, slot: Slot)
    requires CanAdvance(s, t, c) && OpOk(s, t) && DescsOk(Advanced(s, t, c)) && NamesOk(s) && LiveAt(Advanced(s, t, c), h, id, slot)
    requires ChangeOf(s, t, c).FreeAllocator? ==> s.ops[t].h in s.allocs && s.allocs[s.ops[t].h].slots == map[]
    ensures NamedAt(Advanced(s, t, c), OnSlot(h, id))
  {
    var o, s' := s.ops[t], Advanced(s, t, c);
    assert Keeps(s', OnSlot(h, id), slot.desc);
    KeptThere(s', OnSlot(h, id), slot.desc);
    hide CanAdvance, Advanced, DescsOk, ChangeOf, OpOk, HoldsDesc;
    if TurnsLive(o, h, id) {
      TurnedLive(s, t, c, slot);
      assert NamedAt(s, OnCall(t));
      NameStays(s, t, c, o.desc);
    } else {
      LiveStays(s, t, c, h, id, slot);
      assert NamedAt(s, OnSlot(h, id));
      NameStays(s, t, c, slot.desc);
    }
  }

  lemma CallNameStays(s: State, t: nat, c: Choice, r: nat)
    requires CanAdvance(s, t, c) && OpOk(s, t) && DescsOk(Advanced(s, t, c)) && NamesOk(s)
    ensures NamedAt(Advanced(s, t, c), OnCall(r))
  {
    var s' := Advanced(s, t, c);
    ThreadsAfter(s, t, c);
    hide CanAdvance, Advanced, DescsOk, HoldsDesc, After, Shape;
    if r in s'.ops && HoldsDesc(s'.ops[r]) && !s'.ops[r].call.SaFree? {
      var d := s'.ops[r].desc;
      assert Keeps(s', OnCall(r), d);
      KeptThere(s', OnCall(r), d);
      assert NamedAt(s, OnCall(r));
      if r == t { OwnDesc(s, t, c); }
      if d in s.threads { NameStays(s, t, c, d); }
    }
  }

  /** The descriptor of a call that goes on is the one it had, or the one it has just made. */
  lemma OwnDesc(s: State, t: nat, c: Choice)
    requires CanAdvance(s, t, c) && OpOk(s, t)
    ensures var o, a := s.ops[t], After(s, t, c); a.Some? && HoldsDesc(a.value) && !a.value.call.SaFree? ==>
      if o.pc == NewThread && c.ok then a.value.desc == c.n else HoldsDesc(o) && !o.call.SaFree? && a.value.desc == o.desc
  {
    assert Shape(s.ops[t]);
    if Hands(s, t, c) { HandsDesc(s, t, c); } else { CallKeeps(s, t, c); }
    hide CanAdvance, OpOk, After, HoldsDesc;
  }

  lemma HandsDesc(s: State, t: nat, c: Choice)
    requires t in s.ops && Safe(s, t) && Shape(s.ops[t]) && Hands(s, t, c)
    ensures var o, a := s.ops[t], After(s, t, c); a.Some? && HoldsDesc(a.value) && !a.value.call.SaFree? ==>
      o.pc == NewThread && c.ok && a.value.desc == c.n
  {
    hide ChangeOf;
  }

  lemma AdvanceKeepsNames(s: State, t: nat, c: Choice)
    requires Lifetimes(s) && DescsOk(s) && NamesOk(s) && CanAdvance(s, t, c)
    ensures NamesOk(Advanced(s, t, c))
  {
    var s' := Advanced(s, t, c);
    assert OpOk(s, t);
    if ChangeOf(s, t, c).FreeAllocator? { FreedAtEnd(s, t, c); DestroyedEmpty(s, t); }
    hide *;
    AdvanceKeepsDescs(s, t, c);
    forall at
      ensures NamedAt(s', at)
    {
      match at
      case OnSlot(h, id) => if !NamedAt(s', at) { NotNamed(s', h, id); SlotNameStays(s, t, c, h, id, s'.allocs[h].slots[id]); }
      case OnCall(r) => CallNameStays(s, t, c, r);
      case _ => NamedElsewhere(s', at);
    }
    AllNamed(s');
  }

  lemma NotNamed(s: State, h: nat, id: nat)
    requires !NamedAt(s, OnSlot(h, id))
    ensures h in s.allocs && id in s.allocs[h].slots && LiveAt(s, h, id, s.allocs[h].slots[id])
  {
  }

  lemma NamedElsewhere(s: State, at: Place)
    requires !at.OnSlot? && !at.OnCall?
    ensures NamedAt(s, at)
  {
  }

  lemma AllNamed(s: State)
    requires forall at :: NamedAt(s, at)
    ensures NamesOk(s)
  {
    hide NamedAt;
  }

  lemma OtherNames(s: State, a: Action, at: Place)
    requires NamedAt(s, at) && Enabled(s, a) && !a.Advance?
    ensures NamedAt(Next(s, a), at)
  {
    if IsStart(a) {
      NewCallNoDesc(s, a);
      StartStarts(s, a);
      hide Next, Enabled, HoldsDesc;
    } else {
      hide IsStart, CanAdvance, Walk, IsTable, HoldsDesc;
    }
  }

  lemma StepKeepsNames(s: State, a: Action)
    requires Lifetimes(s) && DescsOk(s) && NamesOk(s) && Enabled(s, a)
    ensures NamesOk(Next(s, a))
  {
    if a.Advance? {
      AdvanceIs(s, a);
      hide *;
      AdvanceKeepsNames(s, a.t, a.c);
    } else {
      hide Enabled, Next, NamedAt;
      forall at
        ensures NamedAt(Next(s, a), at)
      {
        OtherNames(s, a, at);
      }
    }
  }
}
