/** sa_pagelist_alloc_pages: pages in three phases, large blocks first, and all of them or none. */
module PageAlloc {
  import opened Words
  import opened Wrappers

  const COMPAT_MAX_ORDER: nat := 10
  const BULK: nat := 100

  /** ilog2, computed as fls(n) - 1 in an unsigned int: for zero it is the largest one. */
  function Ilog2(n: nat): nat {
    if n == 0 then 0xffff_ffff else if n == 1 then 0 else 1 + Ilog2(n / 2)
  }

  lemma {:induction false} Ilog2Fits(n: nat)
    requires n > 0
    ensures Pow2(Ilog2(n)) <= n
  {
    if n > 1 { Ilog2Fits(n / 2); }
  }

  lemma {:induction false} Pow2Mono(a: nat, b: nat)
    requires a <= b
    ensures Pow2(a) <= Pow2(b)
  {
    if a < b { Pow2Mono(a, b - 1); }
  }

  function Set(ps: seq<nat>): set<nat> {
    set p | p in ps
  }

  /** The pages ps, all different, are what has been taken since before. */
  predicate Took(ps: seq<nat>, before: set<nat>, now: set<nat>) {
    Distinct(ps) && Set(ps) !! before && now == before + Set(ps)
  }

  lemma NothingTook(before: set<nat>)
    ensures Took([], before, before)
  {
    assert Set([]) == {};
  }

  lemma TookMore(ps: seq<nat>, more: seq<nat>, before: set<nat>, now: set<nat>)
    requires Took(ps, before, now) && Distinct(more) && Set(more) !! now
    ensures Took(ps + more, before, now + Set(more))
  {
    forall i, j | 0 <= i < |ps| && 0 <= j < |more| ensures ps[i] != more[j] {
      assert ps[i] in Set(ps) && more[j] in Set(more);
    }
    assert Set(ps + more) == Set(ps) + Set(more);
  }

  lemma TookLess(ps: seq<nat>, before: set<nat>, now: set<nat>)
    requires ps != [] && Took(ps, before, now)
    ensures Took(ps[..|ps| - 1], before, now - {ps[|ps| - 1]})
  {
    var most, last := ps[..|ps| - 1], ps[|ps| - 1];
    assert ps == most + [last];
    assert Set(ps) == Set(most) + {last};
    assert last !in most;
  }

  /** The consecutive pages of a block. */
  function Block(page: nat, n: nat): (ps: seq<nat>)
    ensures |ps| == n && Distinct(ps) && forall i :: 0 <= i < n ==> ps[i] == page + i
  {
    seq(n, i requires 0 <= i < n => page + i)
  }

  /** The page allocator of the system; any request may fail. */
  class System {
    var taken: set<nat>

    constructor ()
      ensures taken == {}
    {
      taken := {};
    }

    /** alloc_pages followed by split_page. */
    method AllocPages(order: nat) returns (ok: bool, page: nat)
      modifies this
      ensures ok ==> Set(Block(page, Pow2(order))) !! old(taken) && taken == old(taken) + Set(Block(page, Pow2(order)))
      ensures !ok ==> taken == old(taken)
    {
      ok, page := *, *;
      if ok && !(Set(Block(page, Pow2(order))) !! taken) {
        ok := false;
      }
      if ok {
        taken := taken + Set(Block(page, Pow2(order)));
      }
    }

    /** alloc_pages_bulk: up to n pages, as many as there are. */
    method AllocBulk(n: nat) returns (ps: seq<nat>)
      modifies this
      ensures |ps| <= n && Distinct(ps) && Set(ps) !! old(taken) && taken == old(taken) + Set(ps)
    {
      ps := [];
      while |ps| < n
        invariant |ps| <= n && Took(ps, old(taken), taken)
        decreases n - |ps|
      {
        var ok, page := AllocPages(0);
        if !ok { return; }
        TookMore(ps, Block(page, 1), old(taken), taken - Set(Block(page, 1)));
        assert taken - Set(Block(page, 1)) + Set(Block(page, 1)) == taken;
        ps := ps + Block(page, 1);
      }
    }

    /** __free_page. */
    method FreePage(page: nat)
      requires page in taken
      modifies this
      ensures taken == old(taken) - {page}
    {
      taken := taken - {page};
    }
  }

  /** struct sa_pagelist. */
  class PageList {
    const system: System
    var nrPages: int
    var pages: array?<nat>

    constructor (s: System)
      ensures system == s && pages == null
    {
      system := s;
      nrPages, pages := 0, null;
    }

    /** sa_pagelist_free_pages: every page goes back, last first. */
    method FreePages(ghost before: set<nat>)
      requires pages != null && 0 <= nrPages <= pages.Length && Took(pages[..nrPages], before, system.taken)
      modifies this, system
      ensures system.taken == before && pages == null
    {
      while nrPages > 0
        invariant pages == old(pages) && pages != null && 0 <= nrPages <= pages.Length
        invariant pages[..] == old(pages[..]) && Took(pages[..nrPages], before, system.taken)
        decreases nrPages
      {
        TookLess(pages[..nrPages], before, system.taken);
        assert pages[..nrPages][..nrPages - 1] == pages[..nrPages - 1];
        assert pages[nrPages - 1] in Set(pages[..nrPages]);
        nrPages := nrPages - 1;
        system.FreePage(pages[nrPages]);
      }
      nrPages := -1;
      pages := null;
    }

    /** The blocks of decreasing order. */
    method LargeBlocks(nr: nat, ghost before: set<nat>) returns (got: nat)
      requires nr > 0 && pages != null && pages.Length == nr && before == system.taken
      modifies pages, system
      ensures got <= nr && Took(pages[..got], before, system.taken)
    {
      hide Took, Ilog2, Pow2;
      NothingTook(before);
      got := 0;
      assert pages[..got] == [];
      var maxAttempt, remaining := COMPAT_MAX_ORDER, nr;
      var order := Min(maxAttempt, Ilog2(remaining));
      OrderFits(maxAttempt, remaining);
      while order > 0 && remaining > 0
        invariant remaining == nr - got && got <= nr && order <= maxAttempt
        invariant remaining > 0 ==> Pow2(order) <= remaining
        invariant Took(pages[..got], before, system.taken)
        decreases maxAttempt, remaining
      {
        ghost var now := system.taken;
        var ok, page := system.AllocPages(order);
        if !ok {
          Pow2Mono(order - 1, order);
          order := order - 1;
          maxAttempt := order;
          continue;
        }
        ghost var had := pages[..got];
        Fill(got, page, Pow2(order));
        TookMore(had, Block(page, Pow2(order)), before, now);
        assert pages[..got + Pow2(order)] == had + Block(page, Pow2(order));
        got := got + Pow2(order);
        remaining := nr - got;
        order := Min(maxAttempt, Ilog2(remaining));
        OrderFits(maxAttempt, remaining);
      }
    }

    /** pages[from + i] = page + i. */
    method Fill(from: nat, page: nat, n: nat)
      requires pages != null && from + n <= pages.Length
      modifies pages
      ensures pages[..from + n] == old(pages[..from]) + Block(page, n)
    {
      var i := 0;
      while i < n
        invariant i <= n && forall k :: 0 <= k < from ==> pages[k] == old(pages[k])
        invariant forall k :: from <= k < from + i ==> pages[k] == page + (k - from)
      {
        pages[from + i] := page + i;
        i := i + 1;
      }
    }

    /** Requests of up to a hundred single pages, until one is not met in full. */
    method BulkRequests(nr: nat, start: nat, ghost before: set<nat>) returns (got: nat)
      requires pages != null && pages.Length == nr && start <= nr && Took(pages[..start], before, system.taken)
      modifies pages, system
      ensures start <= got <= nr && Took(pages[..got], before, system.taken)
    {
      hide Took;
      got := start;
      while got < nr
        invariant start <= got <= nr && Took(pages[..got], before, system.taken)
        decreases nr - got
      {
        var request := Min(BULK, nr - got);
        ghost var now, had := system.taken, pages[..got];
        var ps := system.AllocBulk(request);
        forall k | 0 <= k < |ps| {
          pages[got + k] := ps[k];
        }
        assert pages[..got + |ps|] == had + ps;
        TookMore(had, ps, before, now);
        got := got + |ps|;
        if |ps| != request { break; }
      }
    }

    /** Single pages, until one is refused or a fatal signal is pending. */
    method SinglePages(nr: nat, start: nat, ghost before: set<nat>) returns (got: nat)
      requires pages != null && pages.Length == nr && start <= nr && Took(pages[..start], before, system.taken)
      modifies pages, system
      ensures start <= got <= nr && Took(pages[..got], before, system.taken)
    {
      hide Took;
      got := start;
      while got < nr
        invariant start <= got <= nr && Took(pages[..got], before, system.taken)
        decreases nr - got
      {
        var fatal: bool := *;
        if fatal { break; }
        ghost var now, had := system.taken, pages[..got];
        var ok, page := system.AllocPages(0);
        if !ok { break; }
        pages[got] := page;
        assert Pow2(0) == 1;
        assert pages[..got + 1] == had + Block(page, 1);
        TookMore(had, Block(page, 1), before, now);
        got := got + 1;
      }
    }

    /**
      sa_pagelist_alloc_pages: with success exactly nr different pages that nobody else has, without
      it every page taken has been given back.
     */
    method AllocAll(nr: nat) returns (ok: bool)
      requires nr > 0
      modifies this, system
      ensures ok ==> pages != null && fresh(pages) && pages.Length == nr && nrPages == nr && Took(pages[..], old(system.taken), system.taken)
      ensures !ok ==> system.taken == old(system.taken) && pages == null
    {
      var gotArray: bool := *;
      if !gotArray {
        pages := null;
        return false;
      }
      pages := new nat[nr];
      ghost var before := system.taken;
      var got := LargeBlocks(nr, before);
      got := BulkRequests(nr, got, before);
      got := SinglePages(nr, got, before);
      nrPages := got;
      assert pages[..nr] == pages[..];
      if got != nr {
        FreePages(before);
        return false;
      }
      return true;
    }
  }

  lemma OrderFits(maxAttempt: nat, remaining: nat)
    ensures remaining > 0 ==> Pow2(Min(maxAttempt, Ilog2(remaining))) <= remaining
  {
    if remaining > 0 {
      Ilog2Fits(remaining);
      Pow2Mono(Min(maxAttempt, Ilog2(remaining)), Ilog2(remaining));
    }
  }
}
