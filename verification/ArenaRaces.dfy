/** Three runs of the arena from its start that end with a call about to use something that has been freed. */
module ArenaRaces {
  import opened PageTables
  import opened RangeWalks
  import opened PageMapping
  import opened Arena
  import opened ArenaReferences
  import opened Wrappers

  // ---------------------------------------------------------------- runs by their ends

  ghost predicate Leads(s: State, xs: seq<Action>, d: State) {
    CanRun(s, xs) && Run(s, xs) == d
  }

  ghost predicate Reaches(s: State, d: State) {
    exists xs :: Leads(s, xs, d)
  }

  lemma {:induction false} LeadsOn(s: State, xs: seq<Action>, d: State, ys: seq<Action>, e: State)
    requires Leads(s, xs, d) && Leads(d, ys, e)
    ensures Leads(s, xs + ys, e)
    decreases |xs|
  {
    hide Enabled, Next;
    if xs == [] {
      assert xs + ys == ys;
    } else {
      assert (xs + ys)[0] == xs[0] && (xs + ys)[1..] == xs[1..] + ys;
      LeadsOn(Next(s, xs[0]), xs[1..], d, ys, e);
    }
  }

  lemma Onwards(s: State, d: State, e: State)
    requires Reaches(s, d) && Reaches(d, e)
    ensures Reaches(s, e)
  {
    var xs :| Leads(s, xs, d);
    var ys :| Leads(d, ys, e);
    LeadsOn(s, xs, d, ys, e);
    hide Leads;
    assert Leads(s, xs + ys, e);
  }

  lemma ByOne(s: State, a: Action)
    requires Enabled(s, a)
    ensures Reaches(s, Next(s, a))
  {
    hide Enabled, Next;
    assert [a][1..] == [] && CanRun(Next(s, a), []) && Run(Next(s, a), []) == Next(s, a);
    assert Leads(s, [a], Next(s, a));
  }

  /** A step of thread t that can be taken, with its change and its move. */
  ghost predicate Takes(s: State, t: nat, c: Choice, x: Change, a: Option<Op>) {
    CanAdvance(s, t, c) && ChangeOf(s, t, c) == x && After(s, t, c) == a
  }

  lemma Goes(s: State, t: nat, c: Choice, x: Change, a: Option<Op>) returns (d: State)
    requires Takes(s, t, c, x, a)
    ensures t in s.ops && Applies(s, s.ops[t].h, x) && d == Called(Changed(s, s.ops[t].h, x), t, a)
    ensures Reaches(s, d)
  {
    assert t in s.ops && Safe(s, t);
    AdvancedIs(s, t, c);
    d := Advanced(s, t, c);
    hide CanAdvance, Safe, Possible, ChangeOf, After, Changed;
    ByOne(s, Advance(t, c));
  }

  /** A step between two pages of a list only moves the call to the next. */
  lemma NextPage(s: State, t: nat, c: Choice, pc: Pc)
    requires t in s.ops && Safe(s, t) && PcAfter(s, t, c) == Some(pc)
    requires s.ops[t].pc.Clearing? || (s.ops[t].pc.Copying? && s.ops[t].pc.copied < PAGES)
    ensures After(s, t, c) == Some(s.ops[t].(pc := pc))
  {
    hide Safe, PcAfter;
  }

  function Pick(n: nat): Choice {
    Choice(true, n, [], [])
  }

  function Put(s: State, t: nat, o: Op): State {
    s.(ops := s.ops[t := o])
  }

  // ---------------------------------------------------------------- each point left

  lemma DoGet(s: State, t: nat) returns (d: State)
    requires t in s.ops && s.ops[t].pc == GetRef && s.ops[t].h in s.allocs && s.allocs[s.ops[t].h].kref > 0
    ensures var o, x := s.ops[t], s.allocs[s.ops[t].h];
      d == Put(s.(allocs := s.allocs[o.h := x.(kref := x.kref + 1)]), t, o.(pc := if o.call.SaFork? then FindParent else PickId))
    ensures Reaches(s, d)
  {
    var o := s.ops[t];
    d := Goes(s, t, Pick(0), AddRef, Some(o.(pc := if o.call.SaFork? then FindParent else PickId)));
  }

  lemma DoPickId(s: State, t: nat, id: nat) returns (d: State)
    requires t in s.ops && s.ops[t].pc == PickId && s.ops[t].h in s.allocs && id <= THREADS_LIMIT && id !in s.allocs[s.ops[t].h].slots
    ensures var o, x := s.ops[t], s.allocs[s.ops[t].h];
      d == Put(s.(allocs := s.allocs[o.h := WithSlots(x, x.slots[id := Reserved(t)])]), t, o.(pc := NewThread, id := id))
    ensures Reaches(s, d)
  {
    d := Goes(s, t, Pick(id), SetSlot(id, Reserved(t)), Some(s.ops[t].(pc := NewThread, id := id)));
  }

  lemma DoFindParent(s: State, t: nat) returns (d: State)
    requires t in s.ops && s.ops[t].pc == FindParent && FindsParent(s, s.ops[t])
    ensures var o := s.ops[t]; d == Put(s, t, o.(pc := NewThread, parent := s.registry[o.call.parentTgid]))
    ensures Reaches(s, d)
  {
    var o := s.ops[t];
    d := Goes(s, t, Pick(0), Nothing, Some(o.(pc := NewThread, parent := s.registry[o.call.parentTgid])));
  }

  lemma DoNewThread(s: State, t: nat, n: nat) returns (d: State)
    requires t in s.ops && s.ops[t].pc == NewThread && n !in s.threads
    ensures d == Put(s.(threads := s.threads[n := t]), t, s.ops[t].(pc := TakeLock, desc := n)) && Reaches(s, d)
  {
    d := Goes(s, t, Pick(n), NewDesc(n, t), Some(s.ops[t].(pc := TakeLock, desc := n)));
  }

  lemma DoTakeLock(s: State, t: nat) returns (d: State)
    requires t in s.ops && s.ops[t].pc == TakeLock && s.lock.None? && s.free == []
    ensures d == Put(s, t, s.ops[t].(pc := NewPages)) && Reaches(s, d)
  {
    d := Goes(s, t, Pick(0), Nothing, Some(s.ops[t].(pc := NewPages)));
  }

  function PagesFrom(n: nat): (r: seq<nat>)
    ensures |r| == PAGES && forall i :: 0 <= i < PAGES ==> r[i] == n + i
  {
    seq(PAGES, i requires 0 <= i < PAGES => n + i)
  }

  /** All pages out are below n. */
  predicate PagesBelow(s: State, n: nat) {
    forall p :: p in s.content ==> p < n
  }

  /** A state as another but for a list of new pages. */
  predicate Grown(s: State, d: State, l: nat, n: nat) {
    && d.lists == s.lists[l := PagesFrom(n)] && PagesBelow(d, n + PAGES)
    && (forall p :: p in s.content ==> p in d.content) && forall i :: n <= i < n + PAGES ==> i in d.content
  }

  lemma NewPagesTake(s: State, t: nat, l: nat, n: nat)
    requires t in s.ops && s.ops[t].pc == NewPages && l !in s.lists && PagesBelow(s, n)
    ensures var o, pages := s.ops[t], PagesFrom(n);
      Takes(s, t, Choice(true, l, pages, []), NewList(l, pages), Some(o.(pc := AfterStack(o.call), held := l)))
  {
    PagesAre(n);
  }

  lemma PagesAre(n: nat)
    ensures forall p :: p in PagesFrom(n) <==> n <= p < n + PAGES
  {
    forall p | n <= p < n + PAGES ensures p in PagesFrom(n) {
      assert PagesFrom(n)[p - n] == p;
    }
  }

  lemma DoNewPages(s: State, t: nat, l: nat, n: nat) returns (d: State)
    requires t in s.ops && s.ops[t].pc == NewPages && l !in s.lists && PagesBelow(s, n)
    ensures var o := s.ops[t]; d == Put(s.(lists := d.lists, content := d.content), t, o.(pc := AfterStack(o.call), held := l))
    ensures Grown(s, d, l, n) && Reaches(s, d)
  {
    NewPagesTake(s, t, l, n);
    PagesAre(n);
    var o := s.ops[t];
    hide Reaches, Takes, PagesFrom;
    d := Goes(s, t, Choice(true, l, PagesFrom(n), []), NewList(l, PagesFrom(n)), Some(o.(pc := AfterStack(o.call), held := l)));
  }

  lemma DoScan(s: State, t: nat, id: nat) returns (d: State)
    requires t in s.ops && s.ops[t].pc == Scan(0) && s.ops[t].call.SaFork? && s.ops[t].parent in s.allocs
    requires EntryFrom(s.allocs[s.ops[t].parent].slots, 0, id)
    ensures var o := s.ops[t]; var slot := s.allocs[o.parent].slots[id]; d == Put(s, t, o.(pc := Examine(id, slot.desc, slot.list)))
    ensures Reaches(s, d)
  {
    var o := s.ops[t];
    var slot := s.allocs[o.parent].slots[id];
    d := Goes(s, t, Pick(id), Nothing, Some(o.(pc := Examine(id, slot.desc, slot.list))));
  }

  lemma DoExamine(s: State, t: nat) returns (d: State)
    requires t in s.ops && s.ops[t].pc.Examine? && s.ops[t].call.SaFork? && s.ops[t].parent in s.allocs
    requires s.ops[t].pc.seen in s.threads && s.threads[s.ops[t].pc.seen] == s.ops[t].call.parentPid
    ensures var o := s.ops[t]; d == Put(s, t, o.(pc := Copying(o.pc.at, o.pc.seen, o.pc.list, 0)))
    ensures Reaches(s, d)
  {
    var o := s.ops[t];
    d := Goes(s, t, Pick(0), Nothing, Some(o.(pc := Copying(o.pc.at, o.pc.seen, o.pc.list, 0))));
  }

  /** What a fork needs at every page it copies. */
  predicate CanCopy(s: State, t: nat) {
    && t in s.ops && s.ops[t].pc.Copying? && s.ops[t].parent in s.allocs && s.ops[t].pc.seen in s.threads
    && Present(s, s.ops[t].pc.list) && Present(s, s.ops[t].held)
  }

  /** A state as another but for one call and the bytes of some pages. */
  predicate Rewritten(s: State, d: State, t: nat, o: Op) {
    d == Put(s.(content := d.content), t, o) && d.content.Keys == s.content.Keys
  }

  lemma RewrittenIs(s: State, d: State, t: nat, o: Op)
    requires Rewritten(s, d, t, o)
    ensures t in d.ops && d.ops[t] == o && d.lists == s.lists && d.content.Keys == s.content.Keys
    ensures d.allocs == s.allocs && d.threads == s.threads
  {
  }

  lemma RewrittenOn(s: State, s1: State, d: State, t: nat, o1: Op, o: Op)
    requires Rewritten(s, s1, t, o1) && Rewritten(s1, d, t, o)
    ensures Rewritten(s, d, t, o)
  {
    assert s1.ops[t := o] == s.ops[t := o];
  }

  /** Writing one page. */
  lemma DoWrite(s: State, t: nat, page: nat, value: nat, o: Op) returns (d: State)
    requires page in s.content && Takes(s, t, Pick(0), WritePage(page, value), Some(o))
    ensures Reaches(s, d) && Rewritten(s, d, t, o)
  {
    hide Reaches, Takes;
    d := Goes(s, t, Pick(0), WritePage(page, value), Some(o));
  }

  lemma CopyTakes(s: State, t: nat)
    requires CanCopy(s, t) && s.ops[t].pc.copied < PAGES
    ensures var o, k := s.ops[t], s.ops[t].pc.copied;
      && Present(s, o.held) && Present(s, o.pc.list)
      && Takes(s, t, Pick(0), WritePage(s.lists[o.held][k], s.content[s.lists[o.pc.list][k]]), Some(o.(pc := o.pc.(copied := k + 1))))
  {
    var o, k := s.ops[t], s.ops[t].pc.copied;
    PageThere(s, o.held, k);
    PageThere(s, o.pc.list, k);
    hide Present;
    assert PcAfter(s, t, Pick(0)) == Some(o.pc.(copied := k + 1));
    NextPage(s, t, Pick(0), o.pc.(copied := k + 1));
    hide PcAfter, After;
  }

  lemma DoCopy(s: State, t: nat) returns (d: State)
    requires CanCopy(s, t) && s.ops[t].pc.copied < PAGES
    ensures Reaches(s, d) && Rewritten(s, d, t, s.ops[t].(pc := s.ops[t].pc.(copied := s.ops[t].pc.copied + 1)))
  {
    CopyTakes(s, t);
    var o, k := s.ops[t], s.ops[t].pc.copied;
    PageThere(s, o.held, k);
    PageThere(s, o.pc.list, k);
    hide Present, Reaches, Takes, Rewritten;
    d := DoWrite(s, t, s.lists[o.held][k], s.content[s.lists[o.pc.list][k]], o.(pc := o.pc.(copied := k + 1)));
  }

  lemma DoCopied(s: State, t: nat) returns (d: State)
    requires CanCopy(s, t) && s.ops[t].pc.copied >= PAGES
    ensures Rewritten(s, d, t, s.ops[t].(pc := Insert, id := s.ops[t].pc.source)) && Reaches(s, d)
  {
    hide Present, Reaches;
    d := Goes(s, t, Pick(0), Nothing, Some(s.ops[t].(pc := Insert, id := s.ops[t].pc.source)));
  }

  lemma PageThere(s: State, l: nat, k: nat)
    requires Present(s, l) && k < PAGES
    ensures l in s.lists && |s.lists[l]| == PAGES && s.lists[l][k] in s.content
  {
  }

  lemma {:induction false} CopyAll(s: State, t: nat) returns (d: State)
    requires CanCopy(s, t)
    ensures Reaches(s, d) && Rewritten(s, d, t, s.ops[t].(pc := Insert, id := s.ops[t].pc.source))
    decreases PAGES - s.ops[t].pc.copied
  {
    var o := s.ops[t];
    hide Reaches, Present, Rewritten, Put;
    if o.pc.copied < PAGES {
      var s1 := DoCopy(s, t);
      var o1 := o.(pc := o.pc.(copied := o.pc.copied + 1));
      RewrittenIs(s, s1, t, o1);
      StillPresent(s, s1, o.held);
      StillPresent(s, s1, o.pc.list);
      d := CopyAll(s1, t);
      Onwards(s, s1, d);
      RewrittenOn(s, s1, d, t, o1, o.(pc := Insert, id := o.pc.source));
    } else {
      d := DoCopied(s, t);
    }
  }

  lemma DoInsert(s: State, t: nat) returns (d: State)
    requires t in s.ops && s.ops[t].pc == Insert && s.ops[t].h in s.allocs && s.ops[t].id !in s.allocs[s.ops[t].h].slots
    ensures var o, x := s.ops[t], s.allocs[s.ops[t].h];
      d == Put(s.(allocs := s.allocs[o.h := WithSlots(x, x.slots[o.id := Pending(t, o.held, o.desc)])]), t, o.(pc := MapWindow))
    ensures Reaches(s, d)
  {
    var o := s.ops[t];
    d := Goes(s, t, Pick(0), SetSlot(o.id, Pending(t, o.held, o.desc)), Some(o.(pc := MapWindow)));
  }

  predicate CanMap(s: State, t: nat) {
    && t in s.ops && s.ops[t].pc == MapWindow && s.ops[t].h in s.allocs && s.allocs[s.ops[t].h].mm in s.spaces
    && IsTable(s.spaces[s.allocs[s.ops[t].h].mm], PGD) && Present(s, s.ops[t].held)
  }

  /** A table that shows the pages already may be what map_range leaves; and a failure may leave any table as it was. */
  lemma DoMapWindow(s: State, t: nat, ok: bool) returns (d: State)
    requires CanMap(s, t) && (!ok ==> s.ops[t].call.SaFork?)
    requires ok ==> ShowsAll(s.spaces[s.allocs[s.ops[t].h].mm], s.ops[t].id, s.lists[s.ops[t].held])
    ensures d == Put(s, t, s.ops[t].(pc := if ok then Publish else EraseSlot)) && Reaches(s, d)
  {
    var o, table := s.ops[t], s.spaces[s.allocs[s.ops[t].h].mm];
    SameTable(table, o.id, s.lists[o.held], ok);
    hide IsTable, Mapped, Present, ShowsAll, Reaches;
    d := Goes(s, t, Choice(ok, 0, [], table), SetTables(table), Some(o.(pc := if ok then Publish else EraseSlot)));
    assert d.spaces == s.spaces;
  }

  ghost predicate ShowsAll(table: seq<Entry>, id: nat, pages: seq<nat>)
    requires IsTable(table, PGD)
  {
    forall va: nat :: InWindow(id, va) ==> Walk(table, PGD, va) == Frames(IdToAddr(id), pages)(va)
  }

  lemma SameTable(table: seq<Entry>, id: nat, pages: seq<nat>, ok: bool)
    requires IsTable(table, PGD) && (ok ==> ShowsAll(table, id, pages))
    ensures Mapped(table, table, id, pages, ok)
  {
    hide Walk, IsTable, Frames;
  }

  lemma DoPublish(s: State, t: nat) returns (d: State)
    requires t in s.ops && s.ops[t].pc == Publish && s.ops[t].h in s.allocs
    ensures var o, x := s.ops[t], s.allocs[s.ops[t].h];
      d == s.(allocs := s.allocs[o.h := WithSlots(x, x.slots[o.id := Live(t, o.held, o.desc)])], ops := s.ops - {t})
    ensures Reaches(s, d)
  {
    var o := s.ops[t];
    d := Goes(s, t, Pick(0), SetSlot(o.id, Live(t, o.held, o.desc)), None);
  }

  lemma DoEraseSlot(s: State, t: nat) returns (d: State)
    requires t in s.ops && s.ops[t].pc == EraseSlot && s.ops[t].call.SaFork? && s.ops[t].h in s.allocs
    ensures d == Put(s.(allocs := d.allocs), t, s.ops[t].(pc := CheckSize)) && d.allocs.Keys == s.allocs.Keys && Reaches(s, d)
  {
    var o := s.ops[t];
    d := Goes(s, t, Pick(0), ClearSlot(o.id), Some(o.(pc := CheckSize)));
  }

  lemma DoCheckSize(s: State, t: nat) returns (d: State)
    requires t in s.ops && s.ops[t].pc == CheckSize && s.size < GL_SA_CAPACITY && Present(s, s.ops[t].held)
    ensures d == Put(s, t, s.ops[t].(pc := Clearing(0))) && Reaches(s, d)
  {
    hide Present;
    d := Goes(s, t, Pick(0), Nothing, Some(s.ops[t].(pc := Clearing(0))));
  }

  lemma ClearTakes(s: State, t: nat)
    requires t in s.ops && s.ops[t].pc.Clearing? && Present(s, s.ops[t].held) && s.ops[t].pc.cleared < PAGES
    ensures var o := s.ops[t];
      Takes(s, t, Pick(0), WritePage(s.lists[o.held][o.pc.cleared], 0), Some(o.(pc := Clearing(o.pc.cleared + 1))))
  {
    PageThere(s, s.ops[t].held, s.ops[t].pc.cleared);
    hide Present;
    assert PcAfter(s, t, Pick(0)) == Some(Clearing(s.ops[t].pc.cleared + 1));
    NextPage(s, t, Pick(0), Clearing(s.ops[t].pc.cleared + 1));
    hide PcAfter, After;
  }

  lemma DoClear(s: State, t: nat) returns (d: State)
    requires t in s.ops && s.ops[t].pc.Clearing? && Present(s, s.ops[t].held) && s.ops[t].pc.cleared < PAGES
    ensures Reaches(s, d) && Rewritten(s, d, t, s.ops[t].(pc := Clearing(s.ops[t].pc.cleared + 1)))
  {
    ClearTakes(s, t);
    var o := s.ops[t];
    PageThere(s, o.held, o.pc.cleared);
    hide Present, Reaches, Takes, Rewritten;
    d := DoWrite(s, t, s.lists[o.held][o.pc.cleared], 0, o.(pc := Clearing(o.pc.cleared + 1)));
  }

  lemma DoCleared(s: State, t: nat) returns (d: State)
    requires t in s.ops && s.ops[t].pc.Clearing? && Present(s, s.ops[t].held) && s.ops[t].pc.cleared >= PAGES
    ensures Rewritten(s, d, t, s.ops[t].(pc := AddLock)) && Reaches(s, d)
  {
    hide Present, Reaches;
    d := Goes(s, t, Pick(0), Nothing, Some(s.ops[t].(pc := AddLock)));
  }

  lemma {:induction false} ClearAll(s: State, t: nat) returns (d: State)
    requires t in s.ops && s.ops[t].pc.Clearing? && Present(s, s.ops[t].held)
    ensures Reaches(s, d) && Rewritten(s, d, t, s.ops[t].(pc := AddLock))
    decreases PAGES - s.ops[t].pc.cleared
  {
    var o := s.ops[t];
    hide Reaches, Present, Rewritten, Put;
    if o.pc.cleared < PAGES {
      var s1 := DoClear(s, t);
      var o1 := o.(pc := Clearing(o.pc.cleared + 1));
      RewrittenIs(s, s1, t, o1);
      StillPresent(s, s1, o.held);
      d := ClearAll(s1, t);
      Onwards(s, s1, d);
      RewrittenOn(s, s1, d, t, o1, o.(pc := AddLock));
    } else {
      d := DoCleared(s, t);
    }
  }

  lemma DoAddLock(s: State, t: nat) returns (d: State)
    requires t in s.ops && s.ops[t].pc == AddLock && s.lock.None?
    ensures d == Put(s.(size := s.size + 1, lock := Some(t)), t, s.ops[t].(pc := Linking)) && Reaches(s, d)
  {
    d := Goes(s, t, Pick(0), SetFree(s.free, s.size + 1, Some(t)), Some(s.ops[t].(pc := Linking)));
  }

  lemma DoLinking(s: State, t: nat) returns (d: State)
    requires t in s.ops && s.ops[t].pc == Linking
    ensures d == Put(s.(free := [s.ops[t].held] + s.free, lock := None), t, s.ops[t].(pc := FreeThread)) && Reaches(s, d)
  {
    d := Goes(s, t, Pick(0), SetFree([s.ops[t].held] + s.free, s.size, None), Some(s.ops[t].(pc := FreeThread)));
  }

  lemma DoFreeThread(s: State, t: nat) returns (d: State)
    requires t in s.ops && s.ops[t].pc == FreeThread && s.ops[t].desc in s.threads
    ensures var o := s.ops[t]; d == Put(s.(threads := s.threads - {o.desc}), t, o.(pc := AfterThread(o.call)))
    ensures Reaches(s, d)
  {
    var o := s.ops[t];
    d := Goes(s, t, Pick(0), DropDesc(o.desc), Some(o.(pc := AfterThread(o.call))));
  }

  lemma DoLastPut(s: State, t: nat) returns (d: State)
    requires t in s.ops && s.ops[t].h in s.allocs && s.ops[t].pc == PutRef && s.allocs[s.ops[t].h].kref == 1
    ensures d == Put(s.(allocs := d.allocs), t, s.ops[t].(pc := FreeAlloc)) && d.allocs.Keys == s.allocs.Keys && Reaches(s, d)
  {
    d := Goes(s, t, Pick(0), DropRef, Some(s.ops[t].(pc := FreeAlloc)));
  }

  lemma DoFreeAlloc(s: State, t: nat) returns (d: State)
    requires t in s.ops && s.ops[t].h in s.allocs && s.ops[t].pc == FreeAlloc
    ensures d == s.(allocs := s.allocs - {s.ops[t].h}, ops := s.ops - {t}) && Reaches(s, d)
  {
    d := Goes(s, t, Pick(0), FreeAllocator, None);
  }

  // ---------------------------------------------------------------- calls begun

  lemma CreateRuns(s: State, g: nat, h: nat, mm: nat, table: seq<Entry>) returns (d: State)
    requires g !in s.registry && h !in s.allocs && IsTable(table, PGD) && forall x :: x in s.allocs ==> s.allocs[x].mm != mm
    ensures Reaches(s, d)
    ensures d == s.(registry := s.registry[g := h], allocs := s.allocs[h := Allocator(g, mm, 1, map[])], spaces := s.spaces[mm := table])
  {
    hide IsTable;
    ByOne(s, Create(g, h, mm, table));
    d := Next(s, Create(g, h, mm, table));
  }

  lemma AllocStarts(s: State, t: nat, g: nat) returns (d: State)
    requires t !in s.ops && g in s.registry
    ensures d == Put(s, t, Op(SaAlloc, GetRef, s.registry[g], 0, 0, 0, 0, [])) && Reaches(s, d)
  {
    ByOne(s, Alloc(t, g));
    d := Next(s, Alloc(t, g));
  }

  lemma ForkStarts(s: State, t: nat, g: nat, pg: nat, ppid: nat) returns (d: State)
    requires t !in s.ops && g in s.registry
    ensures d == Put(s, t, Op(SaFork(pg, ppid), GetRef, s.registry[g], 0, 0, 0, 0, [])) && Reaches(s, d)
  {
    ByOne(s, Fork(t, g, pg, ppid));
    d := Next(s, Fork(t, g, pg, ppid));
  }

  lemma DestroyStarts(s: State, t: nat, h: nat) returns (d: State)
    requires t !in s.ops && h in s.allocs && Registered(s, h)
    ensures d.allocs == s.allocs && d.ops == s.ops[t := Op(AllocDestroy, PutRef, h, 0, 0, 0, 0, [])] && Reaches(s, d)
  {
    ByOne(s, Destroy(t, h));
    d := Next(s, Destroy(t, h));
  }

  // ---------------------------------------------------------------- stretches of a run

  /** Nothing that a new call needs is taken. */
  predicate Ready(s: State, t: nat, g: nat, n: nat, l: nat, first: nat) {
    && t !in s.ops && g in s.registry && s.registry[g] in s.allocs && s.allocs[s.registry[g]].kref > 0
    && s.free == [] && s.lock.None? && n !in s.threads && l !in s.lists && PagesBelow(s, first)
  }

  /** A state as another but for the descriptor, the list, one more reference and the call given. */
  predicate Begun(s: State, d: State, g: nat, t: nat, n: nat, l: nat, first: nat) {
    && g in s.registry && s.registry[g] in s.allocs && Grown(s, d, l, first)
    && d.registry == s.registry && d.spaces == s.spaces && d.free == s.free && d.size == s.size && d.lock == s.lock
    && d.threads == s.threads[n := t]
    && d.allocs.Keys == s.allocs.Keys && (forall h :: h in s.allocs && h != s.registry[g] ==> d.allocs[h] == s.allocs[h])
    && d.allocs[s.registry[g]].mm == s.allocs[s.registry[g]].mm && d.allocs[s.registry[g]].kref > 0
  }

  /** gl_alloc_stack with an empty free list. */
  lemma GetsPages(s: State, t: nat, l: nat, n: nat) returns (d: State)
    requires t in s.ops && s.ops[t].pc == TakeLock && s.free == [] && s.lock.None? && l !in s.lists && PagesBelow(s, n)
    ensures Reaches(s, d) && Grown(s, d, l, n)
    ensures var o := s.ops[t]; d == Put(s.(lists := d.lists, content := d.content), t, o.(pc := AfterStack(o.call), held := l))
  {
    hide Reaches, PagesFrom;
    var s1 := DoTakeLock(s, t);
    d := DoNewPages(s1, t, l, n);
    Onwards(s, s1, d);
    assert d.ops == s.ops[t := d.ops[t]];
  }

  /** alloc_get, alloc_find and the new descriptor. */
  lemma CallBegins(s: State, t: nat, n: nat) returns (d: State)
    requires t in s.ops && s.ops[t].pc == GetRef && s.ops[t].call.SaFork? && FindsParent(s, s.ops[t]) && n !in s.threads
    requires s.ops[t].h in s.allocs && s.allocs[s.ops[t].h].kref > 0
    ensures Reaches(s, d)
    ensures var o, x := s.ops[t], s.allocs[s.ops[t].h];
      d == Put(s.(allocs := s.allocs[o.h := x.(kref := x.kref + 1)], threads := s.threads[n := t]), t,
               o.(pc := TakeLock, parent := s.registry[o.call.parentTgid], desc := n))
  {
    hide Reaches;
    var s1 := DoGet(s, t);
    var s2 := DoFindParent(s1, t);
    Onwards(s, s1, s2);
    d := DoNewThread(s2, t, n);
    Onwards(s, s2, d);
    assert d.ops == s.ops[t := d.ops[t]];
  }

  /** The same, from the call itself. */
  lemma ForkBegins(s: State, t: nat, g: nat, pg: nat, ppid: nat, n: nat) returns (d: State)
    requires t !in s.ops && g in s.registry && pg in s.registry && n !in s.threads
    requires s.registry[g] in s.allocs && s.allocs[s.registry[g]].kref > 0
    ensures Reaches(s, d)
    ensures var h := s.registry[g]; var x := s.allocs[h];
      d == Put(s.(allocs := s.allocs[h := x.(kref := x.kref + 1)], threads := s.threads[n := t]), t,
               Op(SaFork(pg, ppid), TakeLock, h, 0, n, s.registry[pg], 0, []))
  {
    hide Reaches;
    var s1 := ForkStarts(s, t, g, pg, ppid);
    d := CallBegins(s1, t, n);
    Onwards(s, s1, d);
    assert d.ops == s.ops[t := d.ops[t]];
  }

  /** A fork from its call to the point where it begins its search, everything being granted. */
  lemma ForkSearches(s: State, t: nat, g: nat, pg: nat, ppid: nat, n: nat, l: nat, first: nat) returns (d: State)
    requires Ready(s, t, g, n, l, first) && pg in s.registry
    ensures Reaches(s, d) && Begun(s, d, g, t, n, l, first)
    ensures d.allocs[s.registry[g]].slots == s.allocs[s.registry[g]].slots
    ensures d.ops == s.ops[t := Op(SaFork(pg, ppid), Scan(0), s.registry[g], 0, n, s.registry[pg], l, [])]
  {
    hide Reaches, Grown, PagesBelow;
    var s1 := ForkBegins(s, t, g, pg, ppid, n);
    SameBelow(s, s1, first);
    d := GetsPages(s1, t, l, first);
    Onwards(s, s1, d);
    SameGrowth(s, s1, d, l, first);
    assert d.ops == s.ops[t := Op(SaFork(pg, ppid), Scan(0), s.registry[g], 0, n, s.registry[pg], l, [])];
  }

  lemma SameGrowth(s: State, s': State, d: State, l: nat, n: nat)
    requires Grown(s', d, l, n) && s'.lists == s.lists && s'.content == s.content
    ensures Grown(s, d, l, n)
  {
    hide PagesFrom;
  }

  /** alloc_destroy by thread t, from a count of one to the free. */
  lemma DestroyRuns(s: State, t: nat, h: nat) returns (d: State)
    requires t !in s.ops && h in s.allocs && Registered(s, h) && s.allocs[h].kref == 1
    ensures Reaches(s, d) && h !in d.allocs && d.ops == s.ops
  {
    hide Reaches;
    var s1 := DestroyStarts(s, t, h);
    var s2 := DoLastPut(s1, t);
    d := DoFreeAlloc(s2, t);
    Onwards(s, s1, s2);
    Onwards(s, s2, d);
  }

  lemma FromTheStart(d: State) returns (xs: seq<Action>)
    requires Reaches(Initial(), d)
    ensures CanRun(Initial(), xs) && Run(Initial(), xs) == d
  {
    xs :| Leads(Initial(), xs, d);
  }

  // ---------------------------------------------------------------- lookup against destroy

  /**
    A call of group 1 has looked its allocator up when another thread destroys it: it then reads
    the reference count of an allocator that has been freed.
   */
  lemma LookupRaceFails() returns (xs: seq<Action>)
    ensures CanRun(Initial(), xs) && 30 in Run(Initial(), xs).ops && !Safe(Run(Initial(), xs), 30)
  {
    EmptyTableWalks(PGD, 0);
    hide IsTable, EmptyTable, Reaches;
    var s := CreateRuns(Initial(), 1, 7, 3, EmptyTable());
    var d := AllocStarts(s, 30, 1);
    var e := DestroyRuns(d, 20, 7);
    Onwards(Initial(), s, d);
    Onwards(Initial(), d, e);
    xs := FromTheStart(e);
  }

  // ---------------------------------------------------------------- search against destroy

  /** Two groups with their allocators, 7 and 8, the first in an address space with the given table. */
  function TwoGroups(table: seq<Entry>): State {
    State(map[1 := 7, 2 := 8], map[7 := Allocator(1, 3, 1, map[]), 8 := Allocator(2, 4, 1, map[])], map[3 := table, 4 := EmptyTable()],
          map[], map[], map[], [], 0, None, map[])
  }

  lemma GroupsCreated(table: seq<Entry>)
    requires IsTable(table, PGD)
    ensures Reaches(Initial(), TwoGroups(table))
  {
    EmptyTableWalks(PGD, 0);
    hide IsTable, EmptyTable, Reaches;
    var s1 := CreateRuns(Initial(), 1, 7, 3, table);
    var s2 := CreateRuns(s1, 2, 8, 4, EmptyTable());
    Onwards(Initial(), s1, s2);
    assert s2 == TwoGroups(table);
  }

  lemma ParentLookedUp() returns (d: State)
    ensures Reaches(Initial(), d)
    ensures 7 in d.allocs && Registered(d, 7) && d.allocs[7].kref == 1
    ensures d.ops == map[60 := Op(SaFork(1, 10), Scan(0), 8, 0, 100, 7, 200, [])]
  {
    EmptyTableWalks(PGD, 0);
    GroupsCreated(EmptyTable());
    hide IsTable, EmptyTable, Reaches, Grown;
    var s := TwoGroups(EmptyTable());
    d := ForkSearches(s, 60, 2, 1, 10, 100, 200, 0);
    Onwards(Initial(), s, d);
  }

  /**
    A call of sa_fork names group 1 as its parent's and is about to search that group's table when
    the allocator is destroyed: it then takes al_lock of an allocator that has been freed.
   */
  lemma ParentRaceFails() returns (xs: seq<Action>)
    ensures CanRun(Initial(), xs) && 60 in Run(Initial(), xs).ops && !Safe(Run(Initial(), xs), 60)
  {
    hide Reaches, Initial, Registered;
    var d := ParentLookedUp();
    var e := DestroyRuns(d, 20, 7);
    Onwards(Initial(), d, e);
    xs := FromTheStart(e);
  }

  // ---------------------------------------------------------------- search against a failing fork

  /** A page directory that shows page k of slot 0 at its k-th place: every 1 GiB of it is the same. */
  function Ptes(j: nat): seq<Entry> {
    seq(ENTRIES, i requires 0 <= i < ENTRIES => Page(ENTRIES * j + i))
  }

  function Pmds(): seq<Entry> {
    seq(ENTRIES, j requires 0 <= j < ENTRIES => Table(Ptes(j)))
  }

  function Over(kids: seq<Entry>): seq<Entry> {
    seq(ENTRIES, i => Table(kids))
  }

  lemma OverWalks(kids: seq<Entry>, level: nat, va: nat)
    requires IsTable(kids, level)
    ensures IsTable(Over(kids), level + 1) && Walk(Over(kids), level + 1, va) == Walk(kids, level, va)
  {
    hide Index;
    assert Over(kids)[Index(va, level + 1)] == Table(kids);
  }

  lemma PmdsWalk(va: nat)
    ensures IsTable(Pmds(), 1) && Walk(Pmds(), 1, va) == Some(ENTRIES * Index(va, 1) + Index(va, 0))
  {
    hide Index;
    assert forall j :: 0 <= j < ENTRIES ==> IsTable(Ptes(j), 0) && Pmds()[j] == Table(Ptes(j));
    assert Ptes(Index(va, 1))[Index(va, 0)] == Page(ENTRIES * Index(va, 1) + Index(va, 0));
  }

  function SlotTable(): seq<Entry> {
    Over(Over(Over(Pmds())))
  }

  lemma SlotTableWalks(va: nat)
    ensures IsTable(SlotTable(), PGD) && Walk(SlotTable(), PGD, va) == Some(ENTRIES * Index(va, 1) + Index(va, 0))
  {
    hide Walk, Index, IsTable, Over, Pmds;
    PmdsWalk(va);
    OverWalks(Pmds(), 1, va);
    OverWalks(Over(Pmds()), 2, va);
    OverWalks(Over(Over(Pmds())), 3, va);
  }

  lemma SlotTableShows()
    ensures IsTable(SlotTable(), PGD) && ShowsAll(SlotTable(), 0, PagesFrom(0))
  {
    SlotTableWalks(0);
    hide Walk, IsTable, SlotTable, Index;
    forall va: nat | InWindow(0, va) ensures Walk(SlotTable(), PGD, va) == Frames(IdToAddr(0), PagesFrom(0))(va) {
      SlotTableWalks(va);
      PlaceInWindow(va);
    }
  }

  lemma PlaceInWindow(va: nat)
    requires InWindow(0, va)
    ensures ENTRIES * Index(va, 1) + Index(va, 0) == (va - IdToAddr(0)) / PAGE_SIZE < PAGES
  {
    assert Size(1) == 0x20_0000 && Size(0) == 0x1000;
    var off := va - SS_START;
    assert SS_START == 0x7ff_ff58_0000 * 0x20_0000 && 0x7ff_ff58_0000 % 512 == 0;
  }

  /** alloc_get, the reservation of slot 0 and the new descriptor. */
  lemma SlotTaken(s: State, t: nat, n: nat) returns (d: State)
    requires t in s.ops && s.ops[t].pc == GetRef && s.ops[t].call.SaAlloc? && n !in s.threads
    requires s.ops[t].h in s.allocs && s.allocs[s.ops[t].h].kref > 0 && s.allocs[s.ops[t].h].slots == map[]
    ensures Reaches(s, d)
    ensures var o, x := s.ops[t], s.allocs[s.ops[t].h];
      d == Put(s.(allocs := s.allocs[o.h := Allocator(x.tgid, x.mm, x.kref + 1, map[0 := Reserved(t)])], threads := s.threads[n := t]), t,
               o.(pc := TakeLock, id := 0, desc := n))
  {
    hide Reaches;
    var s1 := DoGet(s, t);
    var s2 := DoPickId(s1, t, 0);
    Onwards(s, s1, s2);
    d := DoNewThread(s2, t, n);
    Onwards(s, s2, d);
    assert d.ops == s.ops[t := d.ops[t]];
    assert d.allocs == s.allocs[s.ops[t].h := d.allocs[s.ops[t].h]];
  }

  lemma AllocBegins(s: State, t: nat, g: nat, n: nat) returns (d: State)
    requires t !in s.ops && g in s.registry && n !in s.threads
    requires s.registry[g] in s.allocs && s.allocs[s.registry[g]].kref > 0 && s.allocs[s.registry[g]].slots == map[]
    ensures Reaches(s, d)
    ensures var h := s.registry[g]; var x := s.allocs[h];
      d == Put(s.(allocs := s.allocs[h := Allocator(x.tgid, x.mm, x.kref + 1, map[0 := Reserved(t)])], threads := s.threads[n := t]), t,
               Op(SaAlloc, TakeLock, h, 0, n, 0, 0, []))
  {
    hide Reaches;
    var s1 := AllocStarts(s, t, g);
    d := SlotTaken(s1, t, n);
    Onwards(s, s1, d);
    assert d.ops == s.ops[t := d.ops[t]];
  }

  /** The same, up to the mapping. */
  lemma AllocHolds(s: State, t: nat, g: nat, n: nat, l: nat, first: nat) returns (d: State)
    requires Ready(s, t, g, n, l, first) && s.allocs[s.registry[g]].slots == map[]
    ensures Reaches(s, d) && Grown(s, d, l, first)
    ensures var h := s.registry[g]; var x := s.allocs[h];
      d == Put(s.(allocs := s.allocs[h := Allocator(x.tgid, x.mm, x.kref + 1, map[0 := Reserved(t)])], threads := s.threads[n := t],
                  lists := d.lists, content := d.content), t, Op(SaAlloc, MapWindow, h, 0, n, 0, l, []))
  {
    hide Reaches, Grown, PagesBelow;
    var s1 := AllocBegins(s, t, g, n);
    SameBelow(s, s1, first);
    d := GetsPages(s1, t, l, first);
    Onwards(s, s1, d);
    SameGrowth(s, s1, d, l, first);
    assert d.ops == s.ops[t := d.ops[t]];
  }

  /** sa_alloc by thread t, everything being granted, into slot 0 of an allocator without slots. */
  lemma AllocRuns(s: State, t: nat, g: nat, n: nat, l: nat, first: nat) returns (d: State)
    requires Ready(s, t, g, n, l, first) && s.allocs[s.registry[g]].slots == map[]
    requires var mm := s.allocs[s.registry[g]].mm; mm in s.spaces && IsTable(s.spaces[mm], PGD) && ShowsAll(s.spaces[mm], 0, PagesFrom(first))
    ensures Reaches(s, d) && Begun(s, d, g, t, n, l, first)
    ensures d.allocs[s.registry[g]].slots == map[0 := Live(t, l, n)]
    ensures d.ops == s.ops
  {
    hide Reaches, Grown, IsTable, ShowsAll, Present, PagesBelow, PagesFrom;
    var s1 := AllocHolds(s, t, g, n, l, first);
    GrownIs(s, s1, l, first);
    d := AllocEnds(s1, t);
    Onwards(s, s1, d);
    SameGrown(s, s1, d, l, first);
    assert d.ops == s.ops;
  }

  lemma SameBelow(s: State, d: State, n: nat)
    requires PagesBelow(s, n) && d.content.Keys == s.content.Keys
    ensures PagesBelow(d, n)
  {
  }

  lemma SameGrown(s: State, d: State, d': State, l: nat, n: nat)
    requires Grown(s, d, l, n) && d'.lists == d.lists && d'.content.Keys == d.content.Keys
    ensures Grown(s, d', l, n)
  {
    hide PagesFrom;
    assert forall p :: p in d'.content <==> p in d.content;
  }

  lemma GrownIs(s: State, d: State, l: nat, n: nat)
    requires Grown(s, d, l, n)
    ensures l in d.lists && d.lists[l] == PagesFrom(n) && Present(d, l) && PagesBelow(d, n + PAGES)
    ensures forall x :: x in s.lists && x != l ==> x in d.lists && d.lists[x] == s.lists[x] && (Present(s, x) ==> Present(d, x))
  {
  }

  /** Its last two steps. */
  lemma AllocEnds(s: State, t: nat) returns (d: State)
    requires CanMap(s, t) && s.ops[t].call.SaAlloc?
    requires ShowsAll(s.spaces[s.allocs[s.ops[t].h].mm], s.ops[t].id, s.lists[s.ops[t].held])
    ensures Reaches(s, d)
    ensures var o, x := s.ops[t], s.allocs[s.ops[t].h];
      d == s.(allocs := s.allocs[o.h := WithSlots(x, x.slots[o.id := Live(t, o.held, o.desc)])], ops := s.ops - {t})
  {
    hide Reaches, IsTable, ShowsAll, Present;
    var s1 := DoMapWindow(s, t, true);
    d := DoPublish(s1, t);
    Onwards(s, s1, d);
    assert d.ops == s.ops - {t};
  }

  /** A fork at its search that finds slot 0, copies it and fails to map: up to taking its entry out again. */
  lemma ForkFails(s: State, t: nat) returns (d: State)
    requires t in s.ops && s.ops[t].pc == Scan(0) && s.ops[t].call.SaFork? && Present(s, s.ops[t].held)
    requires s.ops[t].parent in s.allocs && s.ops[t].h in s.allocs && s.ops[t].parent != s.ops[t].h && s.allocs[s.ops[t].h].slots == map[]
    requires s.allocs[s.ops[t].h].mm in s.spaces && IsTable(s.spaces[s.allocs[s.ops[t].h].mm], PGD)
    requires var slots := s.allocs[s.ops[t].parent].slots;
      && 0 in slots && slots[0].Live? && Present(s, slots[0].list)
      && slots[0].desc in s.threads && s.threads[slots[0].desc] == s.ops[t].call.parentPid
    ensures Reaches(s, d)
    ensures d.content.Keys == s.content.Keys
    ensures var o, x := s.ops[t], s.allocs[s.ops[t].h];
      d == Put(s.(content := d.content, allocs := s.allocs[o.h := WithSlots(x, map[0 := Pending(t, o.held, o.desc)])]), t, o.(pc := EraseSlot, id := 0))
  {
    hide Reaches, IsTable, Present;
    var o := s.ops[t];
    var s1 := DoScan(s, t, 0);
    var s2 := DoExamine(s1, t);
    Onwards(s, s1, s2);
    StillPresent(s, s2, o.held);
    StillPresent(s, s2, s.allocs[o.parent].slots[0].list);
    var s3 := CopyAll(s2, t);
    Onwards(s, s2, s3);
    var s4 := DoInsert(s3, t);
    Onwards(s, s3, s4);
    StillPresent(s, s4, o.held);
    d := DoMapWindow(s4, t, false);
    Onwards(s, s4, d);
    assert d.ops == s.ops[t := o.(pc := EraseSlot, id := 0)];
    assert d.allocs[o.h].slots == map[0 := Pending(t, o.held, o.desc)];
  }

  lemma StillPresent(s: State, d: State, l: nat)
    requires Present(s, l) && d.lists == s.lists && d.content.Keys == s.content.Keys
    ensures Present(d, l)
  {
    assert forall p :: p in s.content ==> p in d.content;
  }

  /** gl_free up to taking the lock. */
  lemma ListCleared(s: State, t: nat) returns (d: State)
    requires t in s.ops && s.ops[t].pc == CheckSize && s.size < GL_SA_CAPACITY && Present(s, s.ops[t].held)
    ensures Reaches(s, d) && Rewritten(s, d, t, s.ops[t].(pc := AddLock))
  {
    hide Reaches, Present;
    var o := s.ops[t];
    var s1 := DoCheckSize(s, t);
    StillPresent(s, s1, o.held);
    d := ClearAll(s1, t);
    Onwards(s, s1, d);
    assert d.ops == s.ops[t := o.(pc := AddLock)];
  }

  /** And from there to the free of the descriptor. */
  lemma Linked(s: State, t: nat) returns (d: State)
    requires t in s.ops && s.ops[t].pc == AddLock && s.lock.None? && s.ops[t].desc in s.threads
    ensures Reaches(s, d) && s.ops[t].desc !in d.threads
    ensures forall r :: r in s.ops && r != t ==> r in d.ops && d.ops[r] == s.ops[r]
  {
    hide Reaches;
    var s1 := DoAddLock(s, t);
    var s2 := DoLinking(s1, t);
    Onwards(s, s1, s2);
    d := DoFreeThread(s2, t);
    Onwards(s, s2, d);
  }

  lemma ForkUndone(s: State, t: nat) returns (d: State)
    requires t in s.ops && s.ops[t].pc == EraseSlot && s.ops[t].call.SaFork? && s.ops[t].h in s.allocs
    requires Present(s, s.ops[t].held) && s.size < GL_SA_CAPACITY && s.lock.None? && s.ops[t].desc in s.threads
    ensures Reaches(s, d) && s.ops[t].desc !in d.threads
    ensures forall r :: r in s.ops && r != t ==> r in d.ops && d.ops[r] == s.ops[r]
  {
    hide Reaches, Present;
    var s1 := DoEraseSlot(s, t);
    StillPresent(s, s1, s.ops[t].held);
    var s2 := ListCleared(s1, t);
    Onwards(s, s1, s2);
    d := Linked(s2, t);
    Onwards(s, s2, d);
  }

  /** Group 1 has one stack, of thread 10 in slot 0; group 2 none. */
  predicate OneStack(s: State) {
    && s.registry == map[1 := 7, 2 := 8] && 7 in s.allocs && 8 in s.allocs && s.allocs[7].kref > 0 && s.allocs[8].kref > 0
    && s.allocs[7].slots == map[0 := Live(10, 200, 100)] && s.allocs[8].slots == map[]
    && s.allocs[8].mm in s.spaces && IsTable(s.spaces[s.allocs[8].mm], PGD)
    && s.threads == map[100 := 10] && s.lists.Keys == {200} && Present(s, 200) && PagesBelow(s, PAGES)
    && s.ops == map[] && s.free == [] && s.lock.None? && s.size == 0
  }

  /** Thread 20 has failed to map the copy it made of that stack for group 2. */
  predicate Failing(s: State) {
    && s.registry == map[1 := 7, 2 := 8] && 7 in s.allocs && 8 in s.allocs && s.allocs[7].kref > 0
    && s.allocs[8].slots == map[0 := Pending(20, 201, 101)]
    && 101 in s.threads && 102 !in s.threads && Present(s, 201) && 202 !in s.lists && PagesBelow(s, 2 * PAGES)
    && s.ops == map[20 := Op(SaFork(1, 10), EraseSlot, 8, 0, 101, 7, 201, [])] && s.free == [] && s.lock.None? && s.size == 0
  }

  lemma StackGranted() returns (d: State)
    ensures Reaches(Initial(), d) && OneStack(d)
  {
    SlotTableShows();
    EmptyTableWalks(PGD, 0);
    GroupsCreated(SlotTable());
    hide IsTable, EmptyTable, SlotTable, Reaches, Grown, Present, ShowsAll, PagesFrom, Initial;
    var s := TwoGroups(SlotTable());
    d := AllocRuns(s, 10, 1, 100, 200, 0);
    Onwards(Initial(), s, d);
    GrownIs(s, d, 200, 0);
    OneMore(s, d, 200, 0);
  }

  lemma OneMore(s: State, d: State, l: nat, n: nat)
    requires Grown(s, d, l, n)
    ensures d.lists.Keys == s.lists.Keys + {l}
  {
  }

  lemma CopyMade(s: State) returns (d: State)
    requires OneStack(s)
    ensures Reaches(s, d) && Failing(d)
  {
    hide IsTable, Reaches, Grown, Present, PagesFrom, PagesBelow;
    var s1 := ForkSearches(s, 20, 2, 1, 10, 101, 201, PAGES);
    GrownIs(s, s1, 201, PAGES);
    OneMore(s, s1, 201, PAGES);
    d := ForkFails(s1, 20);
    Onwards(s, s1, d);
    SameBelow(s1, d, 2 * PAGES);
    StillPresent(s1, d, 201);
  }

  /** Thread 30 is about to search group 2's table. */
  lemma SearchBegins(s: State) returns (d: State)
    requires Failing(s)
    ensures Reaches(s, d)
    ensures d.ops == s.ops[30 := Op(SaFork(2, 99), Scan(0), 7, 0, 102, 8, 202, [])]
    ensures 8 in d.allocs && d.allocs[8] == s.allocs[8] && Present(d, 201) && d.size == 0 && d.lock.None? && 101 in d.threads
  {
    assert 201 in s.lists;
    hide IsTable, Reaches, Grown, Present, PagesFrom, PagesBelow;
    d := ForkSearches(s, 30, 1, 2, 99, 102, 202, 2 * PAGES);
    GrownIs(s, d, 202, 2 * PAGES);
  }

  lemma EntryReached(s: State) returns (d: State)
    requires Failing(s)
    ensures Reaches(s, d) && 20 in d.ops && d.ops[20] == s.ops[20]
    ensures d.ops == s.ops[30 := Op(SaFork(2, 99), Examine(0, 101, 201), 7, 0, 102, 8, 202, [])]
    ensures 8 in d.allocs && Present(d, 201) && d.size == 0 && d.lock.None? && 101 in d.threads
  {
    hide Reaches, Present, PagesBelow;
    var s1 := SearchBegins(s);
    d := DoScan(s1, 30, 0);
    Onwards(s, s1, d);
    StillPresent(s1, d, 201);
  }

  /**
    Thread 20 forks from group 1 into group 2 and fails to map the copy; thread 30 forks from
    group 2 and has come to 20's entry when 20 takes it out and frees it: it then reads the tid of
    a descriptor that has been freed.
   */
  lemma DescriptorRaceFails() returns (xs: seq<Action>)
    ensures CanRun(Initial(), xs) && 30 in Run(Initial(), xs).ops && !Safe(Run(Initial(), xs), 30)
  {
    hide Reaches, Present, OneStack, Initial;
    var s1 := StackGranted();
    var s2 := CopyMade(s1);
    Onwards(Initial(), s1, s2);
    var s3 := EntryReached(s2);
    Onwards(Initial(), s2, s3);
    var s4 := ForkUndone(s3, 20);
    Onwards(Initial(), s3, s4);
    xs := FromTheStart(s4);
  }
}
