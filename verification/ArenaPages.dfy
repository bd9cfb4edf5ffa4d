/** The pages of the arena: each one obtained and not returned is in exactly one page list, and idle stacks are all zeroes. */
module ArenaPages {
  import opened PageTables
  import opened RangeWalks
  import opened PageMapping
  import opened Arena
  import opened ArenaReferences
  import opened ArenaOwnership
  import opened ArenaTranslation
  import opened Wrappers

  predicate ListOk(s: State, l: nat) {
    Present(s, l) && Distinct(s.lists[l])
  }

  predicate InList(s: State, l: nat, p: nat) {
    l in s.lists && p in s.lists[l]
  }

  ghost predicate InSomeList(s: State, p: nat) {
    exists l :: InList(s, l, p)
  }

  /** The pages obtained and not returned are the disjoint union of the page lists. */
  ghost predicate PagesOk(s: State) {
    && (forall l :: l in s.lists ==> ListOk(s, l))
    && (forall l, m, p :: InList(s, l, p) && InList(s, m, p) ==> l == m)
    && (forall p :: p in s.content ==> InSomeList(s, p))
  }

  // ---------------------------------------------------------------- pages come and go

  lemma NewListPages(s: State, h: nat, l: nat, pages: seq<nat>)
    requires PagesOk(s) && l !in s.lists && |pages| == PAGES && Distinct(pages) && forall p :: p in pages ==> p !in s.content
    ensures PagesOk(Changed(s, h, NewList(l, pages)))
  {
    var s' := Changed(s, h, NewList(l, pages));
    forall m | m in s'.lists ensures ListOk(s', m) {
      if m != l { assert ListOk(s, m); }
    }
    forall m, n, p | InList(s', m, p) && InList(s', n, p) ensures m == n {
      if m != l { ListInContent(s, m, p); }
      if n != l { ListInContent(s, n, p); }
      if m != l && n != l { assert InList(s, m, p) && InList(s, n, p); }
    }
    forall p | p in s'.content ensures InSomeList(s', p) {
      if p in pages {
        assert InList(s', l, p);
      } else {
        assert InSomeList(s, p);
        var m :| InList(s, m, p);
        assert InList(s', m, p);
      }
    }
  }

  lemma ListInContent(s: State, l: nat, p: nat)
    requires PagesOk(s)
    ensures InList(s, l, p) ==> p in s.content
  {
    if InList(s, l, p) {
      assert ListOk(s, l);
      var k :| 0 <= k < |s.lists[l]| && s.lists[l][k] == p;
    }
  }

  lemma OneList(s: State, l: nat, m: nat, p: nat)
    requires PagesOk(s)
    ensures InList(s, l, p) && InList(s, m, p) ==> l == m
  {
    hide InList, ListOk;
  }

  lemma DropListPages(s: State, h: nat, l: nat)
    requires PagesOk(s) && l in s.lists
    ensures PagesOk(Changed(s, h, DropList(l)))
  {
    var s' := Changed(s, h, DropList(l));
    forall m | m in s'.lists ensures ListOk(s', m) {
      assert ListOk(s, m);
      forall k | 0 <= k < PAGES ensures s.lists[m][k] in s'.content {
        if s.lists[m][k] in s.lists[l] { assert InList(s, m, s.lists[m][k]) && InList(s, l, s.lists[m][k]); }
      }
    }
    forall m, n, p | InList(s', m, p) && InList(s', n, p) ensures m == n {
      assert InList(s, m, p) && InList(s, n, p);
    }
    forall p | p in s'.content ensures InSomeList(s', p) {
      assert InSomeList(s, p);
      var m :| InList(s, m, p);
      assert m != l && InList(s', m, p);
    }
  }

  lemma WritePages(s: State, s': State)
    requires PagesOk(s) && s'.lists == s.lists && s'.content.Keys == s.content.Keys
    ensures PagesOk(s')
  {
    forall l | l in s'.lists ensures ListOk(s', l) {
      assert ListOk(s, l);
    }
    forall l, m, p | InList(s', l, p) && InList(s', m, p) ensures l == m {
      assert InList(s, l, p) && InList(s, m, p);
    }
    forall p | p in s'.content ensures InSomeList(s', p) {
      assert InSomeList(s, p);
      var l :| InList(s, l, p);
      assert InList(s', l, p);
    }
  }

  lemma PageChange(s: State, t: nat, c: Choice)
    requires CanAdvance(s, t, c)
    ensures var x := ChangeOf(s, t, c);
      && (x.NewList? ==> x.made !in s.lists && |x.pages| == PAGES && Distinct(x.pages) && forall p :: p in x.pages ==> p !in s.content)
      && (x.WritePage? ==> x.page in s.content)
  {
    hide Mapped, NoneFrom, EntryFrom;
  }

  lemma ChangeKeepsPages(s: State, h: nat, x: Change)
    requires Applies(s, h, x) && PagesOk(s) && (x.WritePage? ==> x.page in s.content)
    requires x.NewList? ==> x.made !in s.lists && |x.pages| == PAGES && Distinct(x.pages) && forall p :: p in x.pages ==> p !in s.content
    ensures PagesOk(Changed(s, h, x))
  {
    hide PagesOk, Distinct;
    match x
    case NewList(l, pages) => hide Changed; NewListPages(s, h, l, pages);
    case DropList(l) => hide Changed; DropListPages(s, h, l);
    case _ => WritePages(s, Changed(s, h, x));
  }

  lemma AdvanceKeepsPages(s: State, t: nat, c: Choice)
    requires CanAdvance(s, t, c) && PagesOk(s)
    ensures PagesOk(Advanced(s, t, c))
  {
    PageChange(s, t, c);
    AdvancedIs(s, t, c);
    hide *;
    ChangeKeepsPages(s, s.ops[t].h, ChangeOf(s, t, c));
    WritePages(Changed(s, s.ops[t].h, ChangeOf(s, t, c)), Advanced(s, t, c));
  }

  // ---------------------------------------------------------------- user stores

  /** A store through a live slot lands on a page of that slot's own list. */
  ghost predicate Lands(s: State, h: nat, id: nat, va: nat) {
    && h in s.allocs && id in s.allocs[h].slots && s.allocs[h].slots[id].Live? && SpaceOk(s, h)
    && var hit := Walk(s.spaces[s.allocs[h].mm], PGD, va); hit.Some? && InList(s, s.allocs[h].slots[id].list, hit.value)
  }

  lemma StoreLands(s: State, h: nat, id: nat, va: nat)
    requires h in s.allocs && id in s.allocs[h].slots && s.allocs[h].slots[id].Live? && InWindow(id, va)
    requires WindowsOk(s) && PagesOk(s)
    ensures Lands(s, h, id, va)
  {
    var l := s.allocs[h].slots[id].list;
    hide Walk, IsTable, FrameFor, PagesOk, WindowsOk, Distinct, InWindow;
    assert Mapping(s, h, id, l);
    assert Translated(s, h, id, l) by { hide Translated, Mapping; assert WindowsOk(s); WindowTranslated(s, h, id, l); }
    assert Shows(s.spaces[s.allocs[h].mm], id, s.lists[l], va);
    assert ListOk(s, l) by { hide ListOk; ListsAre(s, l); }
    FrameInList(id, va, s.lists[l]);
  }

  lemma LandsAt(s: State, h: nat, id: nat, va: nat)
    requires Lands(s, h, id, va)
    ensures h in s.allocs && id in s.allocs[h].slots && s.allocs[h].slots[id].Live? && SpaceOk(s, h)
    ensures var hit := Walk(s.spaces[s.allocs[h].mm], PGD, va); hit.Some? && InList(s, s.allocs[h].slots[id].list, hit.value)
    ensures s.allocs[h].slots[id].list in s.lists
  {
    hide Walk, IsTable;
  }

  lemma WindowTranslated(s: State, h: nat, id: nat, l: nat)
    requires WindowsOk(s) && Mapping(s, h, id, l)
    ensures Translated(s, h, id, l)
  {
    hide Translated, Mapping;
  }

  lemma ListsAre(s: State, l: nat)
    requires PagesOk(s) && l in s.lists
    ensures ListOk(s, l)
  {
    hide ListOk;
  }

  lemma FrameInList(id: nat, va: nat, pages: seq<nat>)
    requires InWindow(id, va) && |pages| == PAGES
    ensures FrameFor(pages, IdToAddr(id), va) in pages
  {
    var k := (va - IdToAddr(id)) / PAGE_SIZE;
    assert pages[k] in pages;
  }

  lemma StepKeepsPages(s: State, a: Action)
    requires Sound(s) && PagesOk(s) && Enabled(s, a)
    ensures PagesOk(Next(s, a))
  {
    hide Sound, PagesOk;
    var s' := Next(s, a);
    if a.Advance? {
      AdvanceIs(s, a);
      hide *;
      AdvanceKeepsPages(s, a.t, a.c);
    } else if a.Store? {
      StoreWrites(s, a);
      hide *;
      WritePages(s, s');
    } else {
      OtherPages(s, a);
      hide *;
      WritePages(s, s');
    }
  }

  lemma OtherPages(s: State, a: Action)
    requires Enabled(s, a) && !a.Advance? && !a.Store?
    ensures Next(s, a).lists == s.lists && Next(s, a).content == s.content
  {
    hide IsTable;
  }

  /** What a store does to the pages: one page of the slot's own list is written. */
  lemma StoreWrites(s: State, a: Action)
    requires Sound(s) && PagesOk(s) && Enabled(s, a) && a.Store?
    ensures Lands(s, a.space, a.slot, a.va) && Next(s, a).lists == s.lists && Next(s, a).content.Keys == s.content.Keys
    ensures Next(s, a).content == s.content[Walk(s.spaces[s.allocs[a.space].mm], PGD, a.va).value := a.byte]
  {
    hide PagesOk, Walk, IsTable, WindowsOk, Lifetimes, OnePlace, NoRepeats, SpacesOk, InWindow;
    assert WindowsOk(s);
    StoreLands(s, a.space, a.slot, a.va);
    var page := Walk(s.spaces[s.allocs[a.space].mm], PGD, a.va).value;
    ListInContent(s, s.allocs[a.space].slots[a.slot].list, page);
  }

  // ---------------------------------------------------------------- idle stacks are zeroes

  predicate ZeroUpTo(s: State, l: nat, n: nat) {
    l in s.lists && n <= |s.lists[l]| && forall k :: 0 <= k < n ==> s.lists[l][k] in s.content && s.content[s.lists[l][k]] == 0
  }

  /** How many pages a call in gl_free has cleared. */
  function ClearedBy(o: Op): nat {
    match o.pc
    case Clearing(k) => k
    case AddLock => PAGES
    case Linking => PAGES
    case _ => 0
  }

  predicate CallZero(s: State, t: nat) {
    t in s.ops && ZeroUpTo(s, s.ops[t].held, ClearedBy(s.ops[t]))
  }

  ghost predicate ZeroOk(s: State) {
    && (forall l :: l in s.free ==> ZeroUpTo(s, l, PAGES))
    && (forall t :: t in s.ops && InGlFree(s.ops[t].pc) ==> CallZero(s, t))
  }

  /** Pages of other lists than the one written keep their content. */
  lemma ZeroKept(s: State, s': State, l: nat, n: nat)
    requires ZeroUpTo(s, l, n) && l in s'.lists && s'.lists[l] == s.lists[l]
    requires forall p :: InList(s, l, p) ==> p in s'.content && ((p in s.content && s'.content[p] == s.content[p]) || s'.content[p] == 0)
    ensures ZeroUpTo(s', l, n)
  {
    forall k | 0 <= k < n ensures s'.lists[l][k] in s'.content && s'.content[s'.lists[l][k]] == 0 {
      assert InList(s, l, s.lists[l][k]);
    }
  }

  /** The only list whose pages a step may dirty. */
  predicate Dirties(s: State, t: nat, x: Change, l: nat) {
    t in s.ops && (x == DropList(l) || (x.WritePage? && s.ops[t].pc.Copying? && s.ops[t].held == l))
  }

  lemma ContentKept(s: State, t: nat, c: Choice, l: nat, p: nat)
    requires CanAdvance(s, t, c) && PagesOk(s) && InList(s, l, p) && !Dirties(s, t, ChangeOf(s, t, c), l)
    ensures var s' := Advanced(s, t, c);
      l in s'.lists && s'.lists[l] == s.lists[l] && p in s.content && p in s'.content && (s'.content[p] == s.content[p] || s'.content[p] == 0)
  {
    var x := ChangeOf(s, t, c);
    AdvancedIs(s, t, c);
    ListInContent(s, l, p);
    WriteChange(s, t, c);
    PageChange(s, t, c);
    OneList(s, s.ops[t].held, l, p);
    if x.DropList? { OneList(s, x.dropped, l, p); }
    assert x.WritePage? && x.page == p ==> x.value == 0;
    assert x.DropList? ==> x.dropped != l && !InList(s, x.dropped, p);
    assert x.NewList? ==> x.made !in s.lists && p !in x.pages;
    hide CanAdvance, Safe, Possible, ChangeOf, Advanced, Changed, PagesOk;
    ChangedContent(s, s.ops[t].h, x, l, p);
  }

  lemma ChangedContent(s: State, h: nat, x: Change, l: nat, p: nat)
    requires Applies(s, h, x) && InList(s, l, p) && p in s.content
    requires (x.WritePage? && x.page == p ==> x.value == 0) && (x.DropList? ==> x.dropped != l && !InList(s, x.dropped, p))
    requires x.NewList? ==> x.made !in s.lists && p !in x.pages
    ensures var s' := Changed(s, h, x);
      l in s'.lists && s'.lists[l] == s.lists[l] && p in s'.content && (s'.content[p] == s.content[p] || s'.content[p] == 0)
  {
  }

  lemma WriteChange(s: State, t: nat, c: Choice)
    requires CanAdvance(s, t, c)
    ensures var o, x := s.ops[t], ChangeOf(s, t, c);
      x.WritePage? ==> InList(s, o.held, x.page) && (x.value == 0 || o.pc.Copying?)
  {
    hide Possible;
  }

  lemma StillZero(s: State, t: nat, c: Choice, l: nat, n: nat)
    requires CanAdvance(s, t, c) && PagesOk(s) && ZeroUpTo(s, l, n) && !Dirties(s, t, ChangeOf(s, t, c), l)
    ensures ZeroUpTo(Advanced(s, t, c), l, n)
  {
    var s' := Advanced(s, t, c);
    hide CanAdvance, ChangeOf, Advanced, Dirties;
    if n == 0 {
      ListStays(s, t, c, l);
    } else {
      forall p | InList(s, l, p) ensures p in s'.content && ((p in s.content && s'.content[p] == s.content[p]) || s'.content[p] == 0) {
        ContentKept(s, t, c, l, p);
      }
      assert InList(s, l, s.lists[l][0]);
      ContentKept(s, t, c, l, s.lists[l][0]);
      ZeroKept(s, s', l, n);
    }
  }

  lemma ListStays(s: State, t: nat, c: Choice, l: nat)
    requires CanAdvance(s, t, c) && l in s.lists && !Dirties(s, t, ChangeOf(s, t, c), l)
    ensures l in Advanced(s, t, c).lists
  {
    AdvancedIs(s, t, c);
    assert ChangeOf(s, t, c) != DropList(l);
    hide CanAdvance, Safe, Possible, ChangeOf, After, Advanced, Changed;
    ChangedRest(s, s.ops[t].h, ChangeOf(s, t, c));
  }

  /** A list somewhere else than with the call that steps is not dirtied. */
  lemma ElsewhereClean(s: State, t: nat, c: Choice, at: Place, l: nat)
    requires CanAdvance(s, t, c) && OnePlace(s) && Owns(s, at, l) && at != OnCall(t) && at != Spliced(t)
    ensures !Dirties(s, t, ChangeOf(s, t, c), l)
  {
    ListChange(s, t, c);
    OnlyAt(s, at, OnCall(t), l);
    OnlyAt(s, at, Spliced(t), l);
    hide Safe, Possible, ChangeOf, OnePlace;
  }

  lemma FreeStaysZero(s: State, t: nat, c: Choice, l: nat)
    requires CanAdvance(s, t, c) && Sound(s) && PagesOk(s) && ZeroOk(s) && l in Advanced(s, t, c).free
    ensures ZeroUpTo(Advanced(s, t, c), l, PAGES)
  {
    hide PagesOk, Distinct, Lifetimes, NoRepeats, SpacesOk, WindowsOk, OnePlace, ZeroUpTo;
    WhereFree(s, t, c, l);
    if l in s.free {
      assert Owns(s, OnFreeList, l);
      ElsewhereClean(s, t, c, OnFreeList, l);
      StillZero(s, t, c, l, PAGES);
    } else {
      assert CallZero(s, t);
      LinkingIsClean(s, t, c, l);
      StillZero(s, t, c, l, PAGES);
    }
  }

  lemma WhereFree(s: State, t: nat, c: Choice, l: nat)
    requires CanAdvance(s, t, c) && l in Advanced(s, t, c).free
    ensures l in s.free || (s.ops[t].pc == Linking && l == s.ops[t].held)
  {
    AdvancedIs(s, t, c);
    FreeListAfter(s, t, c);
    ChangedRest(s, s.ops[t].h, ChangeOf(s, t, c));
    hide *;
  }

  lemma LinkingIsClean(s: State, t: nat, c: Choice, l: nat)
    requires CanAdvance(s, t, c) && s.ops[t].pc == Linking
    ensures !Dirties(s, t, ChangeOf(s, t, c), l)
  {
    hide Possible;
  }

  lemma CallStaysZero(s: State, t: nat, c: Choice, r: nat)
    requires CanAdvance(s, t, c) && Sound(s) && PagesOk(s) && ZeroOk(s) && r in s.ops && r != t && InGlFree(s.ops[r].pc)
    ensures CallZero(Advanced(s, t, c), r)
  {
    hide PagesOk, Distinct, Lifetimes, NoRepeats, SpacesOk, WindowsOk, OnePlace, ZeroUpTo;
    assert CallZero(s, r);
    assert Owns(s, OnCall(r), s.ops[r].held);
    assert Advanced(s, t, c).ops == Called(s, t, After(s, t, c)).ops;
    ElsewhereClean(s, t, c, OnCall(r), s.ops[r].held);
    StillZero(s, t, c, s.ops[r].held, ClearedBy(s.ops[r]));
    hide CanAdvance, Advanced, After;
  }

  /** Clearing goes page by page. */
  lemma OwnStaysZero(s: State, t: nat, c: Choice)
    requires CanAdvance(s, t, c) && PagesOk(s) && OnePlace(Advanced(s, t, c)) && (InGlFree(s.ops[t].pc) ==> CallZero(s, t))
    requires t in Advanced(s, t, c).ops && InGlFree(Advanced(s, t, c).ops[t].pc)
    ensures CallZero(Advanced(s, t, c), t)
  {
    var o, s' := s.ops[t], Advanced(s, t, c);
    HeldStill(s', t);
    ClearStep(s, t, c);
    AdvancedIs(s, t, c);
    hide CanAdvance, PagesOk, OnePlace, Advanced, After, ChangeOf, ZeroUpTo, Safe;
    var a := s'.ops[t];
    if ClearedBy(a) > 0 {
      if o.pc.Clearing? && o.pc.cleared < PAGES { ClearOne(s, t, c); }
      StillZero(s, t, c, o.held, ClearedBy(o));
      OneMore(s', o.held, ClearedBy(o));
    } else {
      NoneYet(s', a.held);
    }
  }

  lemma HeldStill(s: State, t: nat)
    requires OnePlace(s) && t in s.ops && InGlFree(s.ops[t].pc)
    ensures s.ops[t].held in s.lists
  {
    assert Owns(s, OnCall(t), s.ops[t].held);
    InLists(s, OnCall(t), s.ops[t].held);
    hide *;
  }

  lemma OneMore(s: State, l: nat, n: nat)
    requires ZeroUpTo(s, l, n)
    ensures n < |s.lists[l]| && s.lists[l][n] in s.content && s.content[s.lists[l][n]] == 0 ==> ZeroUpTo(s, l, n + 1)
  {
  }

  lemma NoneYet(s: State, l: nat)
    requires l in s.lists
    ensures ZeroUpTo(s, l, 0)
  {
  }

  lemma ClearStep(s: State, t: nat, c: Choice)
    requires CanAdvance(s, t, c) && (InGlFree(s.ops[t].pc) ==> CallZero(s, t)) && PagesOk(s)
    ensures var o, a := s.ops[t], After(s, t, c);
      a.Some? && InGlFree(a.value.pc) && ClearedBy(a.value) > 0 ==>
        && a.value.held == o.held && InGlFree(o.pc) && o.pc != CheckSize && !Dirties(s, t, ChangeOf(s, t, c), o.held)
        && ClearedBy(a.value) == if o.pc.Clearing? && o.pc.cleared < PAGES then ClearedBy(o) + 1 else ClearedBy(o)
  {
    var o := s.ops[t];
    AfterIs(s, t, c);
    ClearPcs(s, t, c);
    if o.pc.Clearing? { ListsAre(s, o.held); }
    if InGlFree(o.pc) && o.pc != CheckSize { ClearingIsClean(s, t, c); }
    hide CanAdvance, Safe, Possible, PagesOk, Distinct, After, ChangeOf, Dirties;
  }

  lemma ClearPcs(s: State, t: nat, c: Choice)
    requires t in s.ops && Safe(s, t)
    ensures var pc, next := s.ops[t].pc, PcAfter(s, t, c);
      next.Some? && (next.value == AddLock || next.value == Linking || (next.value.Clearing? && next.value.cleared > 0)) ==>
        (HeldAfter(s, t, c) == s.ops[t].held && InGlFree(pc) && pc != CheckSize
         && (if pc.Clearing? && pc.cleared < PAGES then next.value == Clearing(pc.cleared + 1)
             else if pc.Clearing? then next.value == AddLock else pc == AddLock && next.value == Linking))
  {
    hide Safe;
  }

  lemma ClearingIsClean(s: State, t: nat, c: Choice)
    requires CanAdvance(s, t, c) && InGlFree(s.ops[t].pc) && s.ops[t].pc != CheckSize
    ensures !Dirties(s, t, ChangeOf(s, t, c), s.ops[t].held)
  {
    hide Possible;
  }

  lemma ClearOne(s: State, t: nat, c: Choice)
    requires CanAdvance(s, t, c) && s.ops[t].pc.Clearing? && s.ops[t].pc.cleared < PAGES
    ensures var l, k, s' := s.ops[t].held, s.ops[t].pc.cleared, Advanced(s, t, c);
      && l in s.lists && l in s'.lists && s'.lists[l] == s.lists[l] && k < |s.lists[l]|
      && s.lists[l][k] in s'.content && s'.content[s.lists[l][k]] == 0
  {
    hide Possible;
  }
}
