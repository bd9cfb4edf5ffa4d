/** map_range and its helpers: mapping a page list over a range of addresses, tables being made on the way. */
module PageMapping {
  import opened Words
  import opened PageTables
  import opened RangeWalks
  import opened Wrappers

  /** The frame the page list gives to an address of a range that starts at start. */
  function FrameFor(pages: seq<nat>, start: nat, va: nat): nat {
    if start <= va && (va - start) / PAGE_SIZE < |pages| then pages[(va - start) / PAGE_SIZE] else 0
  }

  function Frames(start: nat, pages: seq<nat>): nat -> Option<nat> {
    (va: nat) => Some(FrameFor(pages, start, va))
  }

  /** A page-aligned, non-empty range inside one entry of a table of the given level, with a page for each of its pages. */
  predicate Mappable(level: nat, addr: Word, end: Word, start: Word, pages: seq<nat>) {
    && InOneEntry(level, addr, end) && start <= addr && Aligned(start)
    && Top(end) - start <= |pages| * PAGE_SIZE
  }

  /** The pages of a range are numbered from its start. */
  lemma SamePage(start: nat, a: nat, va: nat)
    requires Aligned(start) && Aligned(a) && start <= a
    ensures SameBlock(0, va, a) <==> a <= va < a + PAGE_SIZE
    ensures SameBlock(0, va, a) ==> va >= start && (va - start) / PAGE_SIZE == (a - start) / PAGE_SIZE
  {
    assert Size(0) == PAGE_SIZE;
  }

  lemma AllocKeeps(e: Entry, level: nat)
    requires level > 0 && IsEntry(e, level)
    ensures var kids := if e.Empty? then EmptyTable() else e.kids;
      IsTable(kids, level - 1) && forall va: nat :: WalkEntry(Table(kids), level, va) == WalkEntry(e, level, va)
  {
    hide Size, Index;
    if e.Empty? {
      EmptyTableWalks(level - 1, 0);
      forall va: nat
        ensures WalkEntry(Table(EmptyTable()), level, va) == WalkEntry(e, level, va)
      {
        EmptyTableWalks(level - 1, va);
      }
    }
  }

  /** Setting one page table entry maps the one page. */
  lemma PageMapped(was: Entry, a: nat, start: nat, pages: seq<nat>)
    requires IsEntry(was, 0) && Aligned(start) && Aligned(a) && start <= a && (a - start) / PAGE_SIZE < |pages|
    ensures Updated(0, Page(pages[(a - start) / PAGE_SIZE]), was, a, a + PAGE_SIZE, Frames(start, pages))
  {
    hide Size, Index;
    forall va: nat | SameBlock(0, va, a)
      ensures a <= va < a + PAGE_SIZE && FrameFor(pages, start, va) == pages[(a - start) / PAGE_SIZE]
    {
      SamePage(start, a, va);
    }
  }

  /** addr += PAGE_SIZE. */
  function NextPage(a: Word): Word {
    (a + PAGE_SIZE) % WORD
  }

  lemma PageStep(level: nat, a: Word, end: Word, start: Word, pages: seq<nat>)
    requires Mappable(level, a, end, start, pages)
    ensures (a - start) / PAGE_SIZE < |pages|
    ensures BlockEnd(0, a) == a + PAGE_SIZE == Top(NextPage(a)) <= Top(end) && Aligned(NextPage(a))
  {
    hide Size, BlockEnd;
    assert BlockEnd(0, a) == a + PAGE_SIZE by { PageBlock(a); }
    AlignedBelow(a, Top(end));
    AlignedBelow(a, WORD);
  }

  lemma PageBlock(a: nat)
    requires Aligned(a)
    ensures BlockEnd(0, a) == a + PAGE_SIZE
  {
    assert Size(0) == PAGE_SIZE;
  }

  lemma AlignedBelow(a: nat, b: nat)
    requires Aligned(a) && Aligned(b) && a < b
    ensures a + PAGE_SIZE <= b && Aligned(a + PAGE_SIZE)
  {
  }

  /** map_pte_range: one page after the other; fails only if there is no memory for the pte table. */
  method MapPteRange(pmd: Entry, addr: Word, end: Word, start: Word, pages: seq<nat>) returns (r: Entry, ok: bool)
    requires IsEntry(pmd, 1) && Mappable(1, addr, end, start, pages)
    ensures IsEntry(r, 1)
    ensures ok ==> Updated(1, r, pmd, addr, Top(end), Frames(start, pages))
    ensures !ok ==> r == pmd
  {
    hide Size, Index, AlignDown, Updated, BlockEnd, IsTable, NextPage, Aligned, SameBlock;
    var oom: bool := *;
    if pmd.Empty? && oom {
      return pmd, false;
    }
    var ptes := if pmd.Empty? then EmptyTable() else pmd.kids;
    AllocKeeps(pmd, 1);
    UpdateStart(1, Table(ptes), pmd, addr, Frames(start, pages));
    var a, i := addr, Index(addr, 0);
    SameBlockSelf(1, a);
    while true
      invariant addr <= a < Top(end) && Aligned(a) && i == Index(a, 0) && SameBlock(1, a, addr)
      invariant IsTable(ptes, 0) && Updated(1, Table(ptes), pmd, addr, a, Frames(start, pages))
      decreases Top(end) - a
    {
      LaterInOneEntry(1, addr, a, end);
      PageStep(1, a, end, start, pages);
      TableLength(ptes, 0);
      var pte := Page(pages[(a - start) / PAGE_SIZE]);
      PageMapped(ptes[i], a, start, pages);
      UpdateStep(0, ptes, pte, pmd, addr, a, a + PAGE_SIZE, Frames(start, pages));
      ptes := ptes[i := pte];
      if NextPage(a) != end { StepOn(0, addr, a, Top(end)); }
      i := i + 1;
      a := NextPage(a);
      if a == end { break; }
    }
    return Table(ptes), true;
  }

  /** map_pmd_range, map_pud_range, map_p4d_range and the loop of map_range, for tables of level 1, 2, 3 and 4. */
  method MapTableRange(entry: Entry, level: nat, addr: Word, end: Word, start: Word, pages: seq<nat>) returns (r: Entry, ok: bool)
    requires 1 <= level <= 4 && IsEntry(entry, level + 1) && Mappable(level + 1, addr, end, start, pages)
    ensures IsEntry(r, level + 1) && (entry.Table? ==> r.Table?)
    ensures ok ==> Updated(level + 1, r, entry, addr, Top(end), Frames(start, pages))
    ensures !ok ==> PartlyUpdated(level + 1, r, entry, addr, Top(end), Frames(start, pages))
    decreases level
  {
    hide Size, Index, AlignDown, Updated, BlockEnd, IsTable, AddrEnd;
    var oom: bool := *;
    if entry.Empty? && oom {
      return entry, false;
    }
    var kids := if entry.Empty? then EmptyTable() else entry.kids;
    AllocKeeps(entry, level + 1);
    UpdateStart(level + 1, Table(kids), entry, addr, Frames(start, pages));
    var a, i := addr, Index(addr, level);
    while true
      invariant addr <= a < Top(end) && Aligned(a) && i == Index(a, level) && SameBlock(level + 1, a, addr)
      invariant IsTable(kids, level) && Updated(level + 1, Table(kids), entry, addr, a, Frames(start, pages))
      decreases Top(end) - a
    {
      LaterInOneEntry(level + 1, addr, a, end);
      StepInOneEntry(level, a, end);
      TableLength(kids, level);
      var next := AddrEnd(level, a, end);
      var e, fine;
      if level == 1 {
        e, fine := MapPteRange(kids[i], a, next, start, pages);
      } else {
        e, fine := MapTableRange(kids[i], level - 1, a, next, start, pages);
      }
      if !fine {
        UpdateFails(level, kids, e, entry, addr, a, Top(next), Top(end), Frames(start, pages));
        return Table(kids[i := e]), false;
      }
      UpdateStep(level, kids, e, entry, addr, a, Top(next), Frames(start, pages));
      kids := kids[i := e];
      if next != end { StepOn(level, addr, a, Top(end)); }
      i := i + 1;
      a := next;
      if a == end { break; }
    }
    return Table(kids), true;
  }

  /**
    map_range: on success every address of the range translates to its page of the list, on
    failure to that or to what it did before; no other canonical address is affected.
   */
  method MapRange(pgd: seq<Entry>, addr: Word, end: Word, pages: seq<nat>) returns (r: seq<Entry>, ok: bool)
    requires IsTable(pgd, PGD) && CanonicalRange(addr, end) && Aligned(addr) && Aligned(end)
    requires Top(end) - addr <= |pages| * PAGE_SIZE
    ensures IsTable(r, PGD)
    ensures ok ==> TranslatesTo(r, pgd, addr, Top(end), Frames(addr, pages))
    ensures !ok ==> PartlyTranslatesTo(r, pgd, addr, Top(end), Frames(addr, pages))
  {
    hide Size, Index, AlignDown, Updated, BlockEnd, PartlyUpdated, TranslatesTo, PartlyTranslatesTo;
    HalfInOneTable(addr, end);
    var e;
    e, ok := MapTableRange(Table(pgd), PGD, addr, end, addr, pages);
    r := e.kids;
    ForAllCanonical(r, pgd, addr, end, Frames(addr, pages));
  }
}
