/** The copy sa_fork makes, inside the arena: the source is the parent thread's own slot, and nobody but the fork writes the copy. */
module ForkCopy {
  import opened PageTables
  import opened Arena
  import opened ArenaReferences
  import opened ArenaOwnership
  import opened ArenaThreads
  import opened ArenaPages
  import opened ArenaRuns
  import opened ArenaSafety
  import opened ArenaBytes
  import opened Wrappers

  /** A thread that forks: group and number, its allocator, slot number and slot; and the group and number of its child. */
  datatype Forker = Forker(tgid: nat, pid: nat, h: nat, id: nat, slot: Slot, childTgid: nat, childPid: nat)

  // ---------------------------------------------------------------- a slot left alone

  /** Stores through a slot, frees it, or destroys its allocator. */
  predicate Touches(s: State, a: Action, h: nat, id: nat) {
    match a
    case Store(space, slot, _, _) => space == h && slot == id
    case Free(_, g, addr) => g in s.registry && s.registry[g] == h && addr >= SS_START && AddrToId(addr) == id
    case Destroy(_, g) => g == h
    case _ => false
  }

  ghost predicate NotBeingFreed(s: State, h: nat, id: nat) {
    forall r :: r in s.ops && s.ops[r].pc == EraseLive ==> s.ops[r].h != h || s.ops[r].id != id
  }

  /** The slot of thread tid in the allocator of group g is live and has these bytes. */
  ghost predicate SlotKeeps(s: State, g: nat, h: nat, id: nat, tid: nat, bytes: seq<nat>) {
    && g in s.registry && s.registry[g] == h && HasStack(s, h, id) && s.allocs[h].slots[id].tid == tid
    && StackBytes(s, h, id) == bytes && NotBeingFreed(s, h, id)
  }

  lemma RegistryStays(s: State, a: Action, g: nat, h: nat, id: nat)
    requires Arena.Enabled(s, a) && g in s.registry && s.registry[g] == h && !Touches(s, a, h, id)
    ensures g in Next(s, a).registry && Next(s, a).registry[g] == h
  {
    hide IsTable, CanAdvance, Walk;
  }

  lemma FreesAgree(s: State, a: Action, h: nat, id: nat)
    requires NotBeingFreed(s, h, id)
    ensures !Frees(s, a, h, id)
  {
  }

  lemma NeverErases(s: State, t: nat, c: Choice)
    requires t in s.ops && Safe(s, t)
    ensures After(s, t, c).Some? ==> After(s, t, c).value.pc != EraseLive
  {
    AfterIs(s, t, c);
    RefPcs(s, t, c);
    hide *;
  }

  lemma StillNotFreed(s: State, a: Action, h: nat, id: nat)
    requires Arena.Enabled(s, a) && NotBeingFreed(s, h, id) && !Touches(s, a, h, id)
    ensures NotBeingFreed(Next(s, a), h, id)
  {
    if a.Advance? {
      AdvanceIs(s, a);
      AdvancedIs(s, a.t, a.c);
      NeverErases(s, a.t, a.c);
      hide Arena.Enabled, Next, CanAdvance, Advanced, After, Safe, ChangeOf, Changed;
    } else {
      hide IsTable, CanAdvance, Walk;
    }
  }

  lemma NotStored(s: State, a: Action, bytes: seq<nat>, h: nat, id: nat)
    requires !Touches(s, a, h, id)
    ensures Stored(bytes, a, h, id) == bytes
  {
  }

  /** Whatever step is taken, a slot that is not touched keeps its bytes, its thread and its list. */
  lemma UntouchedKeeps(s: State, a: Action, g: nat, h: nat, id: nat, tid: nat, bytes: seq<nat>)
    requires Invariant(s) && Arena.Enabled(s, a) && SlotKeeps(s, g, h, id, tid, bytes) && !Touches(s, a, h, id)
    ensures SlotKeeps(Next(s, a), g, h, id, tid, bytes)
    ensures h in s.allocs && id in s.allocs[h].slots && LiveAt(Next(s, a), h, id, s.allocs[h].slots[id])
  {
    SlotIsLive(s, g, h, id, tid, bytes);
    hide Invariant, Arena.Enabled, Next, Touches, NotBeingFreed, HasStack, StackBytes, Stored, Frees;
    FreesAgree(s, a, h, id);
    RegistryStays(s, a, g, h, id);
    StillNotFreed(s, a, h, id);
    NotStored(s, a, bytes, h, id);
    OwnStoresOnly(s, a, h, id);
    StaysLiveThen(s, a, h, id);
  }

  lemma SlotIsLive(s: State, g: nat, h: nat, id: nat, tid: nat, bytes: seq<nat>)
    requires SlotKeeps(s, g, h, id, tid, bytes)
    ensures h in s.allocs && id in s.allocs[h].slots && LiveAt(s, h, id, s.allocs[h].slots[id])
  {
    hide StackBytes, NotBeingFreed;
  }

  lemma StaysLiveThen(s: State, a: Action, h: nat, id: nat)
    requires Invariant(s) && Arena.Enabled(s, a) && h in s.allocs && id in s.allocs[h].slots && s.allocs[h].slots[id].Live? && !Frees(s, a, h, id)
    ensures LiveAt(Next(s, a), h, id, s.allocs[h].slots[id])
  {
    InvariantParts(s);
    hide Invariant, Lifetimes, Arena.Enabled, Next, Frees;
    StaysLive(s, a, h, id, s.allocs[h].slots[id]);
  }

  // ---------------------------------------------------------------- the parent's slot is the first of its thread

  ghost predicate First(s: State, h: nat, id: nat, tid: nat) {
    h in s.allocs && forall j :: j in s.allocs[h].slots && s.allocs[h].slots[j].Live? && s.allocs[h].slots[j].tid == tid ==> id <= j
  }

  lemma LiveFrom(s: State, a: Action, h: nat, j: nat, slot: Slot, tid: nat)
    requires Lifetimes(s) && Arena.Enabled(s, a) && tid !in s.ops && h in s.allocs && LiveAt(Next(s, a), h, j, slot) && slot.tid == tid
    ensures LiveAt(s, h, j, slot)
  {
    if a.Advance? {
      EmptyWhenFreed(s, a);
      AdvancingIsThere(s, a);
      hide Lifetimes, Arena.Enabled, Next, OpOk, CanAdvance, Advanced, ChangeOf;
      if TurnsLive(s.ops[a.t], h, j) { TurnedLive(s, a.t, a.c, slot); } else { LiveStays(s, a.t, a.c, h, j, slot); }
    } else {
      OtherAllocs(s, a, h);
      hide Lifetimes, Arena.Enabled, Next;
    }
  }

  lemma OtherAllocs(s: State, a: Action, h: nat)
    requires Arena.Enabled(s, a) && !a.Advance? && h in s.allocs
    ensures h in Next(s, a).allocs && Next(s, a).allocs[h] == s.allocs[h]
  {
    if IsStart(a) { StartIs(s, a); }
    hide IsTable, Walk, IsStart;
  }

  lemma AdvancingIsThere(s: State, a: Action)
    requires Arena.Enabled(s, a) && a.Advance?
    ensures a.t in s.ops && CanAdvance(s, a.t, a.c)
  {
    hide Possible, Safe;
  }

  lemma FirstStays(s: State, a: Action, h: nat, id: nat, tid: nat)
    requires Lifetimes(s) && Arena.Enabled(s, a) && tid !in s.ops && First(s, h, id, tid) && h in Next(s, a).allocs
    ensures First(Next(s, a), h, id, tid)
  {
    var s' := Next(s, a);
    hide Lifetimes, Arena.Enabled, Next;
    forall j | j in s'.allocs[h].slots && s'.allocs[h].slots[j].Live? && s'.allocs[h].slots[j].tid == tid ensures id <= j {
      LiveFrom(s, a, h, j, s'.allocs[h].slots[j], tid);
    }
  }

  /** While it is in fork() the parent's thread is in no call, and its stack is as it was at the call. */
  ghost predicate ParentKeeps(f: Forker, snapshot: seq<nat>, s: State) {
    && f.pid !in s.ops && SlotKeeps(s, f.tgid, f.h, f.id, f.pid, snapshot)
    && LiveAt(s, f.h, f.id, f.slot) && First(s, f.h, f.id, f.pid)
  }

  predicate StartedBy(a: Action, t: nat) {
    IsStart(a) && StarterOf(a) == t
  }

  lemma NotEntering(s: State, a: Action, t: nat)
    requires Arena.Enabled(s, a) && t !in s.ops && !StartedBy(a, t)
    ensures t !in Next(s, a).ops
  {
    if IsStart(a) {
      StartIs(s, a);
      hide Arena.Enabled, Next;
    } else if a.Advance? {
      AdvanceIs(s, a);
      AdvancingIsThere(s, a);
      AdvancedIs(s, a.t, a.c);
      hide Arena.Enabled, Next, CanAdvance, Advanced, After, Safe, ChangeOf, Changed;
    } else {
      NoCallMoves(s, a);
      hide Arena.Enabled, Next;
    }
  }

  lemma NoCallMoves(s: State, a: Action)
    requires Arena.Enabled(s, a) && !a.Advance? && !IsStart(a)
    ensures Next(s, a).ops == s.ops
  {
    hide IsTable, Walk;
  }

  lemma UntouchedParent(f: Forker, snapshot: seq<nat>, s: State, a: Action)
    requires Invariant(s) && Arena.Enabled(s, a) && ParentKeeps(f, snapshot, s)
    requires !StartedBy(a, f.pid) && !Touches(s, a, f.h, f.id)
    ensures ParentKeeps(f, snapshot, Next(s, a))
  {
    InvariantParts(s);
    hide Invariant, Lifetimes, Arena.Enabled, Next, StartedBy, Touches;
    UntouchedKeeps(s, a, f.tgid, f.h, f.id, f.pid, snapshot);
    KeepsHas(Next(s, a), f.tgid, f.h, f.id, f.pid, snapshot);
    NotEntering(s, a, f.pid);
    hide SlotKeeps, First;
    FirstStays(s, a, f.h, f.id, f.pid);
  }

  lemma KeepsHas(s: State, g: nat, h: nat, id: nat, tid: nat, bytes: seq<nat>)
    requires SlotKeeps(s, g, h, id, tid, bytes)
    ensures h in s.allocs && HasStack(s, h, id) && StackBytes(s, h, id) == bytes && s.allocs[h].slots[id].tid == tid
    ensures g in s.registry && s.registry[g] == h
  {
    hide StackBytes, NotBeingFreed;
  }

  // ---------------------------------------------------------------- the child's call

  predicate CopiedUpTo(s: State, l: nat, n: nat, bytes: seq<nat>) {
    n > 0 ==>
      && l in s.lists && |s.lists[l]| == PAGES && n <= PAGES && n <= |bytes|
      && forall k :: 0 <= k < n ==> s.lists[l][k] in s.content && s.content[s.lists[l][k]] == bytes[k]
  }

  predicate NamesOther(s: State, d: nat, tid: nat) {
    d in s.threads ==> s.threads[d] != tid
  }

  /** What the child's call has found and copied by the point it is at. */
  predicate Copied(f: Forker, bytes: seq<nat>, s: State, o: Op) {
    f.slot.Live? &&
    match o.pc
    case Scan(from) => from <= f.id
    case Examine(at, d, l) => at <= f.id && if at == f.id then d == f.slot.desc && l == f.slot.list else NamesOther(s, d, f.pid)
    case Copying(source, _, l, k) => source == f.id && l == f.slot.list && CopiedUpTo(s, o.held, k, bytes)
    case Insert => o.id == f.id && CopiedUpTo(s, o.held, PAGES, bytes)
    case MapWindow => o.id == f.id && CopiedUpTo(s, o.held, PAGES, bytes)
    case Publish => o.id == f.id && CopiedUpTo(s, o.held, PAGES, bytes)
    case _ => true
  }

  predicate CallIs(f: Forker, s: State, o: Op) {
    && o.call == SaFork(f.tgid, f.pid) && f.childTgid in s.registry && s.registry[f.childTgid] == o.h
    && (UsesParent(o) ==> o.parent == f.h)
  }

  predicate InCall(f: Forker, bytes: seq<nat>, s: State) {
    f.childPid in s.ops && CallIs(f, s, s.ops[f.childPid]) && Copied(f, bytes, s, s.ops[f.childPid])
  }

  predicate CopyPoint(pc: Pc) {
    pc.Copying? || pc == Insert || pc == MapWindow || pc == Publish
  }

  lemma CopyPointHolds(o: Op)
    ensures CopyPoint(o.pc) ==> HoldsList(o)
  {
  }

  lemma SameListCopied(s: State, s': State, l: nat, n: nat, bytes: seq<nat>)
    requires CopiedUpTo(s, l, n, bytes) && SameList(s, s', l)
    ensures CopiedUpTo(s', l, n, bytes)
  {
    forall k | 0 <= k < n ensures s'.lists[l][k] in s'.content && s'.content[s'.lists[l][k]] == bytes[k] {
      assert SamePage(s, s', s.lists[l][k]);
    }
  }

  lemma SameCopied(f: Forker, bytes: seq<nat>, s: State, s': State, o: Op)
    requires Copied(f, bytes, s, o) && (CopyPoint(o.pc) ==> SameList(s, s', o.held))
    requires o.pc.Examine? && NamesOther(s, o.pc.seen, f.pid) ==> NamesOther(s', o.pc.seen, f.pid)
    ensures Copied(f, bytes, s', o)
  {
    hide CopiedUpTo, SameList, NamesOther;
    match o.pc
    case Copying(_, _, _, k) => SameListCopied(s, s', o.held, k, bytes);
    case Insert => SameListCopied(s, s', o.held, PAGES, bytes);
    case MapWindow => SameListCopied(s, s', o.held, PAGES, bytes);
    case Publish => SameListCopied(s, s', o.held, PAGES, bytes);
    case _ =>
  }

  lemma OtherCallStays(s: State, a: Action, t: nat)
    requires Arena.Enabled(s, a) && t in s.ops && !(a.Advance? && a.t == t)
    ensures t in Next(s, a).ops && Next(s, a).ops[t] == s.ops[t]
  {
    if IsStart(a) {
      StartIs(s, a);
      hide Arena.Enabled, Next;
    } else if a.Advance? {
      AdvanceIs(s, a);
      AdvancingIsThere(s, a);
      AdvancedIs(s, a.t, a.c);
      hide Arena.Enabled, Next, CanAdvance, Advanced, After, Safe, ChangeOf, Changed;
    } else {
      NoCallMoves(s, a);
      hide Arena.Enabled, Next;
    }
  }

  /** Steps of others leave the child's call and what it has copied as they are. */
  lemma OthersLeaveCopy(f: Forker, bytes: seq<nat>, s: State, a: Action)
    requires Invariant(s) && Arena.Enabled(s, a) && InCall(f, bytes, s) && !(a.Advance? && a.t == f.childPid)
    requires !Touches(s, a, s.registry[f.childTgid], f.id) && f.pid !in s.ops
    ensures InCall(f, bytes, Next(s, a))
  {
    var o := s.ops[f.childPid];
    OtherCallStays(s, a, f.childPid);
    RegistryStays(s, a, f.childTgid, o.h, f.id);
    hide Invariant, Arena.Enabled, Next, Touches, Copied, SameList, HoldsList, CopyPoint;
    CopyPointHolds(o);
    if CopyPoint(o.pc) {
      CallOwnsHeld(s, f.childPid);
      NotReachingOther(a, f.childPid);
      ListStaysSame(s, a, OnCall(f.childPid), o.held);
    }
    if o.pc.Examine? { NameStaysOther(s, a, o.pc.seen, f.pid); }
    SameCopied(f, bytes, s, Next(s, a), o);
  }

  /** Only a thread inside a call makes descriptors of its name. */
  lemma NameStaysOther(s: State, a: Action, d: nat, tid: nat)
    requires Arena.Enabled(s, a) && tid !in s.ops
    ensures NamesOther(s, d, tid) ==> NamesOther(Next(s, a), d, tid)
  {
    if a.Advance? {
      AdvanceIs(s, a);
      AdvancingIsThere(s, a);
      hide Arena.Enabled, Next, CanAdvance, Advanced;
      ThreadsAfter(s, a.t, a.c);
    } else {
      ThreadsStay(s, a);
      hide Arena.Enabled, Next;
    }
  }

  lemma ThreadsStay(s: State, a: Action)
    requires Arena.Enabled(s, a) && !a.Advance?
    ensures Next(s, a).threads == s.threads
  {
    if IsStart(a) { StartIs(s, a); }
    hide IsTable, Walk, IsStart;
  }

  lemma CallOwnsHeld(s: State, t: nat)
    requires t in s.ops && HoldsList(s.ops[t])
    ensures Owns(s, OnCall(t), s.ops[t].held)
  {
    hide HoldsList;
  }

  lemma NotReachingOther(a: Action, t: nat)
    requires !(a.Advance? && a.t == t)
    ensures !Reaches(a, OnCall(t))
  {
  }

  // ---------------------------------------------------------------- its own steps

  lemma CallAfter(f: Forker, s: State, c: Choice)
    requires CanAdvance(s, f.childPid, c) && CallIs(f, s, s.ops[f.childPid]) && Shape(s.ops[f.childPid])
    requires f.tgid in s.registry && s.registry[f.tgid] == f.h
    ensures var a := After(s, f.childPid, c); a.Some? ==> CallIs(f, Advanced(s, f.childPid, c), a.value)
  {
    AfterIs(s, f.childPid, c);
    AdvancedIs(s, f.childPid, c);
    ParentAfter(s, f.childPid, c);
    assert f.childPid in s.ops;
    hide CanAdvance, Advanced, After, Safe, PcAfter, ChangeOf, Changed, UsesParent, Shape;
  }

  lemma ParentAfter(s: State, t: nat, c: Choice)
    requires CanAdvance(s, t, c) && Shape(s.ops[t])
    ensures var o, a := s.ops[t], After(s, t, c); a.Some? && UsesParent(a.value) ==>
      if o.pc == FindParent then o.call.SaFork? && o.call.parentTgid in s.registry && a.value.parent == s.registry[o.call.parentTgid]
      else UsesParent(o) && a.value.parent == o.parent
  {
    hide ChangeOf, Present, HoldsSlot, HoldsRef, Possible;
  }

  /** The search stops exactly at the forking thread's slot. */
  lemma FindsSource(f: Forker, bytes: seq<nat>, s: State)
    requires InCall(f, bytes, s) && s.ops[f.childPid].pc.Examine? && ParentKeeps(f, bytes, s) && NamesOk(s)
    ensures var o := s.ops[f.childPid]; o.pc.seen in s.threads ==> (s.threads[o.pc.seen] == f.pid <==> o.pc.at == f.id)
  {
    assert NamedAt(s, OnSlot(f.h, f.id));
    KeepsHas(s, f.tgid, f.h, f.id, f.pid, bytes);
    hide NamesOk, SlotKeeps, First, CallIs;
  }

  /** The descriptor of an entry names the thread it was made for. */
  lemma EntryNamed(s: State, h: nat, at: nat)
    requires Lifetimes(s) && NamesOk(s) && h in s.allocs && at in s.allocs[h].slots && !s.allocs[h].slots[at].Reserved?
    ensures var slot := s.allocs[h].slots[at];
      && (slot.desc in s.threads ==> s.threads[slot.desc] == slot.tid) && (slot.Pending? ==> slot.tid in s.ops)
  {
    var slot := s.allocs[h].slots[at];
    if slot.Live? {
      assert NamedAt(s, OnSlot(h, at)) by { hide NamedAt; }
      hide Lifetimes, NamesOk;
    } else {
      EntryKept(s, h, at);
      assert NamedAt(s, OnCall(slot.tid)) by { hide NamedAt; }
      ForkHasDesc(s.ops[slot.tid]);
      hide Lifetimes, NamesOk, HoldsDesc, HoldsSlot, HoldsList;
    }
  }

  /** An entry before the slot is somebody else's. */
  lemma EarlierEntry(f: Forker, bytes: seq<nat>, s: State, at: nat)
    requires ParentKeeps(f, bytes, s) && Lifetimes(s) && NamesOk(s) && at in s.allocs[f.h].slots && !s.allocs[f.h].slots[at].Reserved? && at < f.id
    ensures NamesOther(s, s.allocs[f.h].slots[at].desc, f.pid)
  {
    hide SlotKeeps, Lifetimes, NamesOk, LiveAt;
    EntryNamed(s, f.h, at);
  }

  /** A search that has not come past the slot comes to it, or to somebody else's before it. */
  lemma SearchComes(f: Forker, bytes: seq<nat>, s: State, c: Choice)
    requires CanAdvance(s, f.childPid, c) && InCall(f, bytes, s) && s.ops[f.childPid].pc.Scan? && After(s, f.childPid, c).Some?
    requires ParentKeeps(f, bytes, s) && Lifetimes(s) && NamesOk(s) && UsesParent(s.ops[f.childPid])
    ensures Copied(f, bytes, Advanced(s, f.childPid, c), After(s, f.childPid, c).value)
  {
    var t, a := f.childPid, After(s, f.childPid, c).value;
    ScanPoint(f, bytes, s);
    SearchPcs(s, t, c);
    ScanEnds(s, t, c, f.id);
    ScanChanges(s, t, c);
    hide CanAdvance, Advanced, After, ParentKeeps, Lifetimes, NamesOk, UsesParent, InCall, Copied, Safe, Possible;
    if a.pc.Examine? && a.pc.at < f.id { EarlierEntry(f, bytes, s, a.pc.at); }
    ComesTo(f, bytes, s, Advanced(s, t, c), a);
  }

  lemma ScanPoint(f: Forker, bytes: seq<nat>, s: State)
    requires InCall(f, bytes, s) && s.ops[f.childPid].pc.Scan? && ParentKeeps(f, bytes, s) && UsesParent(s.ops[f.childPid])
    ensures s.ops[f.childPid].parent == f.h && s.ops[f.childPid].pc.from <= f.id && LiveAt(s, f.h, f.id, f.slot)
  {
    hide SlotKeeps, First;
  }

  lemma ComesTo(f: Forker, bytes: seq<nat>, s: State, s': State, a: Op)
    requires LiveAt(s, f.h, f.id, f.slot) && s'.threads == s.threads && (a.pc.Examine? || a.pc == CheckSize)
    requires a.pc.Examine? ==>
      && a.pc.at <= f.id && a.pc.at in s.allocs[f.h].slots && !s.allocs[f.h].slots[a.pc.at].Reserved?
      && a.pc.seen == s.allocs[f.h].slots[a.pc.at].desc && a.pc.list == s.allocs[f.h].slots[a.pc.at].list
      && (a.pc.at < f.id ==> NamesOther(s, a.pc.seen, f.pid))
    ensures Copied(f, bytes, s', a)
  {
  }

  lemma ScanEnds(s: State, t: nat, c: Choice, id: nat)
    requires CanAdvance(s, t, c) && s.ops[t].pc.Scan? && s.ops[t].pc.from <= id && After(s, t, c).Some?
    ensures var o, pc := s.ops[t], After(s, t, c).value.pc;
      && o.parent in s.allocs && (pc.Examine? || pc == CheckSize)
      && (pc.Examine? && id in s.allocs[o.parent].slots && !s.allocs[o.parent].slots[id].Reserved? ==> pc.at <= id)
  {
    hide Present;
  }

  lemma ScanChanges(s: State, t: nat, c: Choice)
    requires CanAdvance(s, t, c) && (s.ops[t].pc.Scan? || s.ops[t].pc.Examine?)
    ensures Advanced(s, t, c).threads == s.threads
  {
    ThreadsAfter(s, t, c);
    hide *;
  }

  /** How the call comes to each of the points of the copy. */
  lemma CopyPcs(s: State, t: nat, c: Choice)
    requires CanAdvance(s, t, c) && s.ops[t].call.SaFork?
    ensures var o, a := s.ops[t], After(s, t, c); a.Some? ==>
      match a.value.pc
      case Scan(from) => from == 0 || (o.pc.Examine? && from == o.pc.at + 1 && o.pc.seen in s.threads && s.threads[o.pc.seen] != o.call.parentPid)
      case Examine(_, _, _) => o.pc.Scan?
      case Copying(source, d, l, k) =>
        || (k == 0 && o.pc == Examine(source, d, l) && d in s.threads && s.threads[d] == o.call.parentPid)
        || (k > 0 && o.pc == Copying(source, d, l, k - 1) && k <= PAGES && a.value.held == o.held)
      case Insert => o.pc.Copying? && o.pc.copied >= PAGES && a.value.id == o.pc.source && a.value.held == o.held
      case MapWindow => o.pc == Insert && a.value.id == o.id && a.value.held == o.held
      case Publish => o.pc == MapWindow && a.value.id == o.id && a.value.held == o.held
      case _ => true
  {
    hide ChangeOf, Present, Mapped, NoneFrom, EntryFrom, FindsParent;
  }

  lemma CopyWrites(s: State, t: nat, c: Choice)
    requires CanAdvance(s, t, c)
    ensures var o, x := s.ops[t], ChangeOf(s, t, c);
      && (o.pc.Copying? && o.pc.copied < PAGES ==>
            && Present(s, o.held) && Present(s, o.pc.list)
            && x == WritePage(s.lists[o.held][o.pc.copied], s.content[s.lists[o.pc.list][o.pc.copied]]))
      && ((o.pc.Copying? && o.pc.copied >= PAGES) || o.pc == Insert || o.pc == MapWindow || o.pc == Publish || o.pc.Examine? ==>
            !x.WritePage? && !x.NewList? && !x.DropList?)
  {
    hide Possible;
  }

  lemma ContentRest(s: State, h: nat, x: Change)
    requires Applies(s, h, x) && !x.NewList? && !x.DropList?
    ensures Changed(s, h, x).lists == s.lists
    ensures Changed(s, h, x).content == if x.WritePage? then s.content[x.page := x.value] else s.content
  {
  }

  lemma StepContent(s: State, t: nat, c: Choice)
    requires CanAdvance(s, t, c) && !ChangeOf(s, t, c).NewList? && !ChangeOf(s, t, c).DropList?
    ensures var x, s' := ChangeOf(s, t, c), Advanced(s, t, c);
      s'.lists == s.lists && s'.content == if x.WritePage? then s.content[x.page := x.value] else s.content
  {
    AdvancedIs(s, t, c);
    assert t in s.ops;
    hide CanAdvance, Safe, ChangeOf, After, Changed, Advanced;
    ContentRest(s, s.ops[t].h, ChangeOf(s, t, c));
  }

  /** One page more, and the right one. */
  lemma CopiesOne(s: State, s': State, l: nat, k: nat, bytes: seq<nat>)
    requires CopiedUpTo(s, l, k, bytes) && Present(s, l) && Distinct(s.lists[l]) && k < PAGES && |bytes| == PAGES
    requires s'.lists == s.lists && s'.content == s.content[s.lists[l][k] := bytes[k]]
    ensures CopiedUpTo(s', l, k + 1, bytes)
  {
  }

  lemma StackByte(s: State, h: nat, id: nat, bytes: seq<nat>, k: nat)
    requires HasStack(s, h, id) && StackBytes(s, h, id) == bytes && k < PAGES
    ensures |bytes| == PAGES && s.content[s.lists[s.allocs[h].slots[id].list][k]] == bytes[k]
  {
  }

  lemma CopyStep(f: Forker, bytes: seq<nat>, s: State, c: Choice)
    requires PagesOk(s) && CanAdvance(s, f.childPid, c) && InCall(f, bytes, s) && ParentKeeps(f, bytes, s)
    requires s.ops[f.childPid].pc.Copying? && s.ops[f.childPid].pc.copied < PAGES
    ensures var o := s.ops[f.childPid]; CopiedUpTo(Advanced(s, f.childPid, c), o.held, o.pc.copied + 1, bytes)
  {
    var t := f.childPid;
    var o := s.ops[t];
    CopyWrites(s, t, c);
    StepContent(s, t, c);
    KeepsHas(s, f.tgid, f.h, f.id, f.pid, bytes);
    StackByte(s, f.h, f.id, bytes, o.pc.copied);
    ListsAre(s, o.held);
    assert Distinct(s.lists[o.held]) && o.pc.list == f.slot.list && s.allocs[f.h].slots[f.id] == f.slot;
    assert CopiedUpTo(s, o.held, o.pc.copied, bytes);
    hide CanAdvance, ChangeOf, Advanced, Distinct, PagesOk, ParentKeeps, CopiedUpTo, InCall, HasStack, StackBytes, UsesParent;
    CopiesOne(s, Advanced(s, t, c), o.held, o.pc.copied, bytes);
  }

  lemma CopiedStays(s: State, s': State, l: nat, n: nat, bytes: seq<nat>)
    requires CopiedUpTo(s, l, n, bytes) && s'.lists == s.lists && s'.content == s.content
    ensures CopiedUpTo(s', l, n, bytes)
  {
  }

  lemma NoneCopied(s: State, l: nat, bytes: seq<nat>)
    ensures CopiedUpTo(s, l, 0, bytes)
  {
  }

  /** A copy begins at the entry of the parent's thread; the search goes on from any other. */
  lemma CopyBegins(f: Forker, bytes: seq<nat>, s: State, c: Choice)
    requires CanAdvance(s, f.childPid, c) && InCall(f, bytes, s) && s.ops[f.childPid].pc.Examine?
    requires ParentKeeps(f, bytes, s) && NamesOk(s) && After(s, f.childPid, c).Some?
    ensures Copied(f, bytes, Advanced(s, f.childPid, c), After(s, f.childPid, c).value)
  {
    var o, a := s.ops[f.childPid], After(s, f.childPid, c).value;
    FindsSource(f, bytes, s);
    assert o.call == SaFork(f.tgid, f.pid);
    CopyPcs(s, f.childPid, c);
    NoneCopied(Advanced(s, f.childPid, c), a.held, bytes);
    hide CanAdvance, Advanced, After, SlotKeeps, First, NamesOk, CopiedUpTo, UsesParent;
  }

  /** And goes on page by page. */
  lemma CopyGrows(f: Forker, bytes: seq<nat>, s: State, c: Choice)
    requires PagesOk(s) && CanAdvance(s, f.childPid, c) && InCall(f, bytes, s) && ParentKeeps(f, bytes, s)
    requires s.ops[f.childPid].pc.Copying? && s.ops[f.childPid].pc.copied < PAGES
    requires After(s, f.childPid, c).Some?
    ensures Copied(f, bytes, Advanced(s, f.childPid, c), After(s, f.childPid, c).value)
  {
    var o, a := s.ops[f.childPid], After(s, f.childPid, c).value;
    CopyStep(f, bytes, s, c);
    CopyPcs(s, f.childPid, c);
    assert o.pc.source == f.id && o.pc.list == f.slot.list && f.slot.Live? && o.call.SaFork?;
    hide CanAdvance, Advanced, After, ParentKeeps, InCall, PagesOk, CopiedUpTo, UsesParent;
  }

  /** What has been copied stays, to the last step of the call. */
  lemma CopyKept(f: Forker, bytes: seq<nat>, s: State, c: Choice)
    requires CanAdvance(s, f.childPid, c) && InCall(f, bytes, s) && After(s, f.childPid, c).Some?
    requires var pc := s.ops[f.childPid].pc; (pc.Copying? ==> pc.copied == PAGES) && !pc.Examine? && !pc.Scan?
    ensures Copied(f, bytes, Advanced(s, f.childPid, c), After(s, f.childPid, c).value)
  {
    var o, a, s' := s.ops[f.childPid], After(s, f.childPid, c).value, Advanced(s, f.childPid, c);
    CopyPcs(s, f.childPid, c);
    assert o.call.SaFork? && f.slot.Live?;
    if CopyPoint(a.pc) {
      assert CopiedUpTo(s, o.held, PAGES, bytes);
      CopyWrites(s, f.childPid, c);
      StepContent(s, f.childPid, c);
      CopiedStays(s, s', o.held, PAGES, bytes);
    }
    hide CanAdvance, Advanced, After, ChangeOf, CopiedUpTo, CallIs;
  }

  /** The child's call copies the parent's stack, page by page, and keeps what it has copied. */
  lemma CopyGoesOn(f: Forker, bytes: seq<nat>, s: State, c: Choice)
    requires Invariant(s) && CanAdvance(s, f.childPid, c) && InCall(f, bytes, s) && ParentKeeps(f, bytes, s)
    requires After(s, f.childPid, c).Some?
    ensures Copied(f, bytes, Advanced(s, f.childPid, c), After(s, f.childPid, c).value)
  {
    var pc := s.ops[f.childPid].pc;
    InvariantParts(s);
    LifetimeOf(s, f.childPid);
    SourceUse(s, f.childPid);
    CallOfInCall(f, bytes, s);
    hide *;
    if pc.Scan? {
      SearchComes(f, bytes, s, c);
    } else if pc.Examine? {
      CopyBegins(f, bytes, s, c);
    } else if pc.Copying? && pc.copied < PAGES {
      CopyGrows(f, bytes, s, c);
    } else {
      CopyKept(f, bytes, s, c);
    }
  }

  lemma CallOfInCall(f: Forker, bytes: seq<nat>, s: State)
    requires InCall(f, bytes, s)
    ensures f.childPid in s.ops && CallIs(f, s, s.ops[f.childPid]) && s.ops[f.childPid].call.SaFork?
  {
    hide Copied, UsesParent;
  }

  lemma SourceUse(s: State, t: nat)
    requires OpOk(s, t)
    ensures var o := s.ops[t]; (o.pc.Copying? ==> o.pc.copied <= PAGES && UsesParent(o)) && (Reading(o.pc) ==> UsesParent(o))
  {
    CopyingIsFork(s.ops[t]);
    hide HoldsRef, HoldsSlot, Registered;
  }

  // ---------------------------------------------------------------- the end of the call

  lemma UnpublishedNotFreed(s: State, t: nat, c: Choice)
    requires Lifetimes(s) && CanAdvance(s, t, c) && OpOk(s, t) && s.ops[t].pc == Publish
    ensures NotBeingFreed(s, s.ops[t].h, s.ops[t].id)
  {
    TurnChange(s, t, c);
    LifetimeParts(s);
    var h, id := s.ops[t].h, s.ops[t].id;
    hide Lifetimes, CanAdvance, ChangeOf, OpOk;
    forall r | r in s.ops && s.ops[r].pc == EraseLive ensures s.ops[r].h != h || s.ops[r].id != id {
      assert OpOk(s, r);
      ErasesLive(s, r);
    }
  }

  lemma ErasesLive(s: State, r: nat)
    requires OpOk(s, r) && s.ops[r].pc == EraseLive
    ensures s.ops[r].h in s.allocs && s.ops[r].id in s.allocs[s.ops[r].h].slots && s.allocs[s.ops[r].h].slots[s.ops[r].id].Live?
  {
    hide HoldsRef, HoldsSlot, UsesParent, Registered, Shape;
  }

  lemma PublishedBytes(s: State, s': State, t: nat, bytes: seq<nat>)
    requires t in s.ops && CopiedUpTo(s, s.ops[t].held, PAGES, bytes) && |bytes| == PAGES
    requires s'.lists == s.lists && s'.content == s.content
    requires LiveAt(s', s.ops[t].h, s.ops[t].id, Live(t, s.ops[t].held, s.ops[t].desc))
    ensures HasStack(s', s.ops[t].h, s.ops[t].id) && StackBytes(s', s.ops[t].h, s.ops[t].id) == bytes
  {
  }

  lemma OnlyPublishLeavesASlot(s: State, t: nat, c: Choice)
    requires CanAdvance(s, t, c) && s.ops[t].pc == Publish
    ensures After(s, t, c).None?
  {
  }

  /** The last step: the slot is live, nobody is freeing it, and no page has changed. */
  lemma PublishStep(s: State, t: nat, c: Choice)
    requires Lifetimes(s) && CanAdvance(s, t, c) && OpOk(s, t) && s.ops[t].pc == Publish
    ensures var o, s' := s.ops[t], Advanced(s, t, c);
      && s'.lists == s.lists && s'.content == s.content && s'.registry == s.registry && t !in s'.ops
      && LiveAt(s', o.h, o.id, Live(t, o.held, o.desc))
  {
    TurnedLive(s, t, c, Live(t, s.ops[t].held, s.ops[t].desc));
    CopyWrites(s, t, c);
    StepContent(s, t, c);
    OnlyPublishLeavesASlot(s, t, c);
    AdvancedIs(s, t, c);
    hide CanAdvance, Safe, ChangeOf, Advanced, After, Lifetimes, OpOk, Changed;
  }

  lemma PublishNotFreed(s: State, t: nat, c: Choice)
    requires Lifetimes(s) && CanAdvance(s, t, c) && OpOk(s, t) && s.ops[t].pc == Publish
    ensures NotBeingFreed(Advanced(s, t, c), s.ops[t].h, s.ops[t].id)
  {
    UnpublishedNotFreed(s, t, c);
    AdvanceEnabled(s, t, c);
    hide *;
    StillNotFreed(s, Advance(t, c), s.ops[t].h, s.ops[t].id);
  }

  lemma AdvanceEnabled(s: State, t: nat, c: Choice)
    requires CanAdvance(s, t, c)
    ensures Arena.Enabled(s, Advance(t, c)) && Next(s, Advance(t, c)) == Advanced(s, t, c)
    ensures forall h, id :: !Touches(s, Advance(t, c), h, id)
  {
    hide CanAdvance, Advanced;
  }

  /** The call succeeds with the parent's bytes in the same slot of the child's own allocator. */
  lemma CopyEnds(f: Forker, bytes: seq<nat>, s: State, c: Choice)
    requires Invariant(s) && CanAdvance(s, f.childPid, c) && InCall(f, bytes, s) && |bytes| == PAGES
    requires s.ops[f.childPid].pc == Publish
    ensures SlotKeeps(Advanced(s, f.childPid, c), f.childTgid, s.ops[f.childPid].h, f.id, f.childPid, bytes)
    ensures f.childPid !in Advanced(s, f.childPid, c).ops
  {
    var t := f.childPid;
    var o, s' := s.ops[t], Advanced(s, t, c);
    assert o.id == f.id && CopiedUpTo(s, o.held, PAGES, bytes) && CallIs(f, s, o);
    InvariantParts(s);
    hide Invariant, CanAdvance, Advanced, Lifetimes, OpOk, InCall, CopiedUpTo, NotBeingFreed, HasStack, StackBytes, UsesParent;
    LifetimeOf(s, t);
    PublishStep(s, t, c);
    PublishNotFreed(s, t, c);
    PublishedBytes(s, s', t, bytes);
  }
}
