/** Both passes together: functions rewritten by the store pass cannot divert the returns of the machine pass. */
module EndToEnd {
  import opened Words
  import M = StoreMasking
  import S = MaskingSoundness
  import X86
  import R = ReturnIntegrity
  import I = InstrumentedRuns
  import Arena
  import ArenaRuns
  import ArenaBytes
  import StackMemory
  import Memory
  import opened Wrappers

  /** One call of a function of the program: the function, what the pass made of it, and how far the call got. */
  datatype Invocation<!T> = Invocation(
    f: M.Func, base: nat, an: M.Analyses, opts: M.Options, outs: seq<M.Outcome>, g: M.Func,
    interp: M.Interp<T>, env: map<nat, Word>, mem: T, steps: nat)

  /** The pass produced g from f, and the analyses it asked were right along this call. */
  ghost predicate Compiled<T>(v: Invocation<T>) {
    && S.Prepared(v.f, v.base, v.an, v.opts, v.outs, v.g)
    && M.FactsAlong(v.f, v.interp, true, v.env, v.mem, v.an, v.steps)
  }

  /** The address was stored to by this call. */
  ghost predicate StoredBy<T>(v: Invocation<T>, addr: Word) {
    var trace := M.Run(v.g, v.interp, false, v.env, v.mem, v.steps).st.trace;
    exists j :: 0 <= j < |trace| && !trace[j].ignored && trace[j].addr == addr
  }

  lemma StoredBelow<T>(v: Invocation<T>, addr: Word)
    requires Compiled(v) && StoredBy(v, addr)
    ensures addr < LIMIT
  {
    S.VisitedStoresStayBelow(v.f, v.base, v.an, v.opts, v.outs, v.g, v.interp, v.env, v.mem, v.steps);
  }

  /** A thread whose stores are those of compiled functions and which keeps to the stack discipline otherwise. */
  ghost predicate Disciplined<T>(vs: seq<Invocation<T>>, es: seq<R.Event>, c: R.Config, size: nat) {
    forall n :: 0 <= n < |es| ==>
      if es[n].Store? then exists k :: 0 <= k < |vs| && StoredBy(vs[k], es[n].addr)
      else R.Admissible(es[n], R.Run(X86.BlindWrite, es[..n], c), size)
  }

  lemma DisciplinedIsAdmissible<T>(vs: seq<Invocation<T>>, es: seq<R.Event>, c: R.Config, size: nat)
    requires (forall k :: 0 <= k < |vs| ==> Compiled(vs[k])) && Disciplined(vs, es, c, size)
    ensures R.AdmissibleRun(X86.BlindWrite, es, c, size)
  {
    hide M.Run, Compiled, StoredBy, R.Run;
    forall n | 0 <= n < |es|
      ensures R.Admissible(es[n], R.Run(X86.BlindWrite, es[..n], c), size)
    {
      if es[n].Store? {
        var k :| 0 <= k < |vs| && StoredBy(vs[k], es[n].addr);
        StoredBelow(vs[k], es[n].addr);
      }
    }
  }

  /** Return integrity of the compiled program: in every state the area holds the pending returns, and each return is its call's. */
  lemma CompiledReturnsMatchCalls<T>(vs: seq<Invocation<T>>, es: seq<R.Event>, scratch: Option<X86.Reg>,
                                           c: R.Config, size: nat)
    requires forall k :: 0 <= k < |vs| ==> Compiled(vs[k])
    requires Disciplined(vs, es + [R.Return(scratch)], c, size)
    requires R.Integrity(c, size) && c.frames == [] && R.Run(X86.BlindWrite, es, c).m.status == X86.Running
    ensures R.Integrity(R.Run(X86.BlindWrite, es, c), size)
    ensures var d := R.Run(X86.BlindWrite, es + [R.Return(scratch)], c); var s := R.CallStack(es);
      s != [] && d.m.status == X86.Running && d.m.rip == s[|s| - 1].0
  {
    hide Compiled, Disciplined, M.Run, R.Run, R.Integrity;
    var all := es + [R.Return(scratch)];
    DisciplinedIsAdmissible(vs, all, c, size);
    R.PrefixAdmissible(X86.BlindWrite, all, c, size, |es|);
    assert all[..|es|] == es;
    R.ShadowHoldsPendingReturns(es, c, size);
    R.ReturnsMatchCalls(es, scratch, c, size);
  }

  /**
    The same for the code the machine pass produced: a thread that runs through its output, visit
    by visit, has the pending returns in its area, and when it leaves a function by a return it is
    back at the address of that function's call.
   */
  lemma InstrumentedReturnsMatchCalls<T>(vs: seq<Invocation<T>>, visits: seq<I.Visit>, es: seq<R.Event>, scratch: Option<X86.Reg>,
                                         c: R.Config, size: nat)
    requires forall k :: 0 <= k < |vs| ==> Compiled(vs[k])
    requires (forall k :: 0 <= k < |visits| ==> I.VisitOk(visits[k])) && I.OwnReturns(X86.BlindWrite, visits, c)
    requires I.AllEvents(visits) == es + [R.Return(scratch)] && Disciplined(vs, es + [R.Return(scratch)], c, size)
    requires R.Integrity(c, size) && c.frames == [] && R.Run(X86.BlindWrite, es, c).m.status == X86.Running
    ensures var d := I.RunVisits(X86.BlindWrite, visits, c); var s := R.CallStack(es);
      s != [] && d.m.status == X86.Running && d.m.rip == s[|s| - 1].0 && R.Integrity(d, size)
  {
    hide *;
    I.VisitsRun(X86.BlindWrite, visits, c);
    CompiledReturnsMatchCalls(vs, es, scratch, c, size);
    DisciplinedIsAdmissible(vs, es + [R.Return(scratch)], c, size);
    R.ShadowHoldsPendingReturns(es + [R.Return(scratch)], c, size);
  }

  /** A slot of the kernel arena, its header initialised, is an empty shadow area out of reach of masked stores. */
  lemma SlotIsShadowArea(id: nat, c: R.Config)
    requires id <= Arena.THREADS_LIMIT && c.m.gs == Arena.IdToAddr(id) && c.frames == []
    requires Memory.ReadWord(c.m.mem, c.m.gs + 8) == c.m.gs + 16
    ensures R.Integrity(c, Arena.SS_SIZE)
  {
    hide Memory.ReadWord;
    assert R.Pending(c.frames) == [];
  }

  /** The stores of compiled functions reach no window of the arena. */
  lemma StoresMissWindows<T>(v: Invocation<T>, addr: Word, id: nat)
    requires Compiled(v) && StoredBy(v, addr)
    ensures !Arena.InWindow(id, addr)
  {
    hide Compiled, StoredBy;
    StoredBelow(v, addr);
  }

  /** The words of the area as the page tables show them: the top, and the return addresses below it. */
  ghost predicate AreaThrough(s: Arena.State, h: nat, id: nat, ps: seq<Word>) {
    var base := Arena.IdToAddr(id);
    && StackMemory.ShowsWord(s, h, base + 8, base + 16 + 8 * |ps|)
    && forall i :: 0 <= i < |ps| ==> StackMemory.ShowsWord(s, h, base + 16 + 8 * i, ps[i])
  }

  lemma AreaIsThrough(s: Arena.State, h: nat, id: nat, c: R.Config)
    requires R.Integrity(c, Arena.SS_SIZE) && c.m.gs == Arena.IdToAddr(id) && StackMemory.Backed(c.m.mem, s, h, id)
    ensures AreaThrough(s, h, id, R.Pending(c.frames))
  {
    var base, ps := Arena.IdToAddr(id), R.Pending(c.frames);
    hide R.Pending, StackMemory.ShowsWord, StackMemory.Backed, Memory.ReadWord;
    StackMemory.BackedWord(c.m.mem, s, h, id, base + 8);
    forall i | 0 <= i < |ps| ensures StackMemory.ShowsWord(s, h, base + 16 + 8 * i, ps[i]) {
      StackMemory.BackedWord(c.m.mem, s, h, id, base + 16 + 8 * i);
    }
  }

  /**
    Return integrity of the code the machine pass produced for a thread on a live slot of the
    kernel arena: the thread's run starts in any reachable state of the arena, and goes on while
    the arena takes any steps, the thread's own stores through the slot among them being what its
    run has changed in the window. Then each return is its call's, and at the end the page tables
    show the pending return addresses in the window.
   */
  lemma SlotReturnsMatchCalls<T>(vs: seq<Invocation<T>>, visits: seq<I.Visit>, es: seq<R.Event>, scratch: Option<X86.Reg>, c: R.Config,
                                 before: seq<Arena.Action>, steps: seq<Arena.Action>, h: nat, id: nat)
    requires Arena.CanRun(Arena.Initial(), before) && Arena.CanRun(Arena.Run(Arena.Initial(), before), steps)
    requires var s := Arena.Run(Arena.Initial(), before);
      && ArenaBytes.HasStack(s, h, id) && ArenaBytes.NeverFreed(s, steps, h, id)
      && ArenaBytes.StackBytes(s, h, id) == StackMemory.WindowPages(c.m.mem, id)
    requires (forall k :: 0 <= k < |vs| ==> Compiled(vs[k])) && forall k :: 0 <= k < |visits| ==> I.VisitOk(visits[k])
    requires I.OwnReturns(X86.BlindWrite, visits, c) && I.AllEvents(visits) == es + [R.Return(scratch)]
    requires Disciplined(vs, es + [R.Return(scratch)], c, Arena.SS_SIZE)
    requires c.m.gs == Arena.IdToAddr(id) && c.frames == []
    requires Memory.ReadWord(c.m.mem, c.m.gs + 8) == c.m.gs + 16 && R.Run(X86.BlindWrite, es, c).m.status == X86.Running
    requires ArenaBytes.AllStored(StackMemory.WindowPages(c.m.mem, id), steps, h, id)
          == StackMemory.WindowPages(I.RunVisits(X86.BlindWrite, visits, c).m.mem, id)
    ensures var d, s := I.RunVisits(X86.BlindWrite, visits, c), R.CallStack(es);
      s != [] && d.m.status == X86.Running && d.m.rip == s[|s| - 1].0
    ensures var d, s := I.RunVisits(X86.BlindWrite, visits, c), Arena.Run(Arena.Run(Arena.Initial(), before), steps);
      StackMemory.Backed(d.m.mem, s, h, id) && AreaThrough(s, h, id, R.Pending(d.frames))
    ensures forall k, addr: Word, other: nat :: 0 <= k < |vs| && StoredBy(vs[k], addr) ==> !Arena.InWindow(other, addr)
  {
    var d := I.RunVisits(X86.BlindWrite, visits, c);
    StackIsLive(Arena.Run(Arena.Initial(), before), h, id);
    hide *;
    ArenaRuns.SlotOfRun(before, h, id);
    SlotIsShadowArea(id, c);
    InstrumentedReturnsMatchCalls(vs, visits, es, scratch, c, Arena.SS_SIZE);
    I.VisitsRun(X86.BlindWrite, visits, c);
    R.RunKeepsGs(X86.BlindWrite, I.AllEvents(visits), c);
    StackMemory.RunBacks(before, steps, h, id, c.m.mem, d.m.mem);
    AreaIsThrough(Arena.Run(Arena.Run(Arena.Initial(), before), steps), h, id, d);
    forall k, addr: Word, other: nat | 0 <= k < |vs| && StoredBy(vs[k], addr) ensures !Arena.InWindow(other, addr) {
      StoresMissWindows(vs[k], addr, other);
    }
  }

  lemma StackIsLive(s: Arena.State, h: nat, id: nat)
    requires ArenaBytes.HasStack(s, h, id)
    ensures h in s.allocs && id in s.allocs[h].slots && s.allocs[h].slots[id].Live?
  {
  }
}
