/** sa_remove and its helpers: clearing the leaves of a range, and dropping a p4d table found empty. */
module PageRemoval {
  import opened Words
  import opened PageTables
  import opened RangeWalks
  import opened PageMapping
  import opened Wrappers

  function Nothing(): nat -> Option<nat> {
    (va: nat) => None
  }

  lemma PageCleared(was: Entry, a: nat)
    requires IsEntry(was, 0) && Aligned(a)
    ensures Updated(0, Empty, was, a, a + PAGE_SIZE, Nothing())
  {
    hide Size, Index;
    forall va: nat | SameBlock(0, va, a)
      ensures a <= va < a + PAGE_SIZE
    {
      SamePage(a, a, va);
    }
  }

  /** A table with no entry for a block has nothing to clear there. */
  lemma AbsentIsCleared(level: nat, a: nat, next: nat)
    ensures Updated(level, Empty, Empty, a, next, Nothing())
  {
  }

  lemma LowRange(level: nat, a: Word, end: Word)
    requires InOneEntry(level, a, end) && end != 0
    ensures BlockEnd(0, a) == a + PAGE_SIZE == NextPage(a) <= end && Aligned(NextPage(a))
  {
    hide Size, BlockEnd;
    assert BlockEnd(0, a) == a + PAGE_SIZE by { PageBlock(a); }
    AlignedBelow(a, end);
  }

  /** sa_remove_pte: present entries are cleared, absent ones skipped. */
  method RemovePtes(kids: seq<Entry>, addr: Word, end: Word) returns (r: seq<Entry>)
    requires IsTable(kids, 0) && InOneEntry(1, addr, end) && end != 0
    ensures IsTable(r, 0) && Updated(1, Table(r), Table(kids), addr, end, Nothing())
  {
    hide Size, Index, AlignDown, Updated, BlockEnd, IsTable, NextPage, Aligned, SameBlock;
    r := kids;
    UpdateStart(1, Table(r), Table(kids), addr, Nothing());
    var a, i := addr, Index(addr, 0);
    SameBlockSelf(1, a);
    while a < end
      invariant addr <= a <= end && Aligned(a)
      invariant a < end ==> i == Index(a, 0) && SameBlock(1, a, addr)
      invariant IsTable(r, 0) && Updated(1, Table(r), Table(kids), addr, a, Nothing())
    {
      LaterInOneEntry(1, addr, a, end);
      LowRange(1, a, end);
      TableLength(r, 0);
      PageCleared(r[i], a);
      UpdateStep(0, r, Empty, Table(kids), addr, a, a + PAGE_SIZE, Nothing());
      if r[i].Page? {
        r := r[i := Empty];
      } else {
        assert r[i := Empty] == r;
      }
      if NextPage(a) < end { StepOn(0, addr, a, end); }
      i := i + 1;
      a := NextPage(a);
    }
  }

  /** sa_remove_pmd, sa_remove_pud and sa_remove_p4d, for tables of level 1, 2 and 3: present entries are descended into. */
  method RemoveTables(kids: seq<Entry>, level: nat, addr: Word, end: Word) returns (r: seq<Entry>)
    requires 1 <= level <= 3 && IsTable(kids, level) && InOneEntry(level + 1, addr, end) && end != 0
    ensures IsTable(r, level) && Updated(level + 1, Table(r), Table(kids), addr, end, Nothing())
    decreases level
  {
    hide Size, Index, AlignDown, Updated, BlockEnd, IsTable, AddrEnd, SameBlock;
    r := kids;
    UpdateStart(level + 1, Table(r), Table(kids), addr, Nothing());
    var a, i := addr, Index(addr, level);
    SameBlockSelf(level + 1, a);
    while a < end
      invariant addr <= a <= end && Aligned(a)
      invariant a < end ==> i == Index(a, level) && SameBlock(level + 1, a, addr)
      invariant IsTable(r, level) && Updated(level + 1, Table(r), Table(kids), addr, a, Nothing())
    {
      LaterInOneEntry(level + 1, addr, a, end);
      StepInOneEntry(level, a, end);
      TableLength(r, level);
      var next := AddrEnd(level, a, end);
      if r[i].Table? {
        var sub;
        if level == 1 {
          sub := RemovePtes(r[i].kids, a, next);
        } else {
          sub := RemoveTables(r[i].kids, level - 1, a, next);
        }
        UpdateStep(level, r, Table(sub), Table(kids), addr, a, next, Nothing());
        r := r[i := Table(sub)];
      } else {
        AbsentIsCleared(level, a, next);
        UpdateStep(level, r, Empty, Table(kids), addr, a, next, Nothing());
        assert r[i := Empty] == r;
      }
      if next < end { StepOn(level, addr, a, end); }
      i := i + 1;
      a := next;
    }
  }

  /** sa_free_p4d: the table goes if all its entries are empty; either way nothing translates differently. */
  method FreeP4d(p4ds: seq<Entry>) returns (pgd: Entry)
    requires IsTable(p4ds, 3)
    ensures IsEntry(pgd, PGD) && forall va: nat :: WalkEntry(pgd, PGD, va) == WalkEntry(Table(p4ds), PGD, va)
    ensures pgd == if forall i :: 0 <= i < ENTRIES ==> p4ds[i] == Empty then Empty else Table(p4ds)
  {
    hide Size, Index;
    for i := 0 to ENTRIES
      invariant forall k :: 0 <= k < i ==> p4ds[k] == Empty
    {
      if p4ds[i] != Empty {
        return Table(p4ds);
      }
    }
    return Empty;
  }

  /** sa_remove: afterwards no address of the range translates, every other canonical address as before. */
  method SaRemove(pgd: seq<Entry>, start: Word, end: Word) returns (r: seq<Entry>)
    requires IsTable(pgd, PGD) && Aligned(start) && Aligned(end) && (start < end ==> CanonicalRange(start, end))
    ensures IsTable(r, PGD) && TranslatesTo(r, pgd, start, end, Nothing())
  {
    hide Size, Index, AlignDown, Updated, BlockEnd, IsTable, AddrEnd, SameBlock, TranslatesTo;
    r := pgd;
    if start >= end {
      EmptyRange(pgd, start, end);
      return;
    }
    HalfInOneTable(start, end);
    UpdateStart(PGD + 1, Table(r), Table(pgd), start, Nothing());
    var a := start;
    SameBlockSelf(PGD + 1, a);
    while a < end
      invariant start <= a <= end && Aligned(a)
      invariant a < end ==> SameBlock(PGD + 1, a, start)
      invariant IsTable(r, PGD) && Updated(PGD + 1, Table(r), Table(pgd), start, a, Nothing())
    {
      LaterInOneEntry(PGD + 1, start, a, end);
      StepInOneEntry(PGD, a, end);
      TableLength(r, PGD);
      var next := AddrEnd(PGD, a, end);
      var i := Index(a, PGD);
      if r[i].Table? {
        var sub := RemoveTables(r[i].kids, 3, a, next);
        var e := FreeP4d(sub);
        SameWalks(PGD, e, Table(sub), r[i], a, next);
        UpdateStep(PGD, r, e, Table(pgd), start, a, next, Nothing());
        r := r[i := e];
      } else {
        AbsentIsCleared(PGD, a, next);
        UpdateStep(PGD, r, Empty, Table(pgd), start, a, next, Nothing());
        assert r[i := Empty] == r;
      }
      if next < end { StepOn(PGD, start, a, end); }
      a := next;
    }
    ForAllCanonical(r, pgd, start, end, Nothing());
  }

  lemma EmptyRange(pgd: seq<Entry>, start: nat, end: nat)
    requires IsTable(pgd, PGD) && start >= end
    ensures TranslatesTo(pgd, pgd, start, end, Nothing())
  {
  }

  lemma SameWalks(level: nat, e: Entry, sub: Entry, was: Entry, a: nat, next: nat)
    requires IsEntry(e, level) && IsEntry(sub, level) && IsEntry(was, level)
    requires forall va: nat :: WalkEntry(e, level, va) == WalkEntry(sub, level, va)
    requires Updated(level, sub, was, a, next, Nothing())
    ensures Updated(level, e, was, a, next, Nothing())
  {
    hide Size, Index, SameBlock;
    forall va: nat | SameBlock(level, va, a)
      ensures UpdatedAt(level, e, was, a, next, Nothing(), va)
    {
      assert UpdatedAt(level, sub, was, a, next, Nothing(), va);
    }
  }

  /** Mapping a range that translated to nothing and removing it again restores every translation. */
  lemma MapThenRemove(before: seq<Entry>, mapped: seq<Entry>, removed: seq<Entry>, start: nat, end: nat, pages: seq<nat>)
    requires IsTable(before, PGD) && IsTable(mapped, PGD) && IsTable(removed, PGD)
    requires PartlyTranslatesTo(mapped, before, start, end, Frames(start, pages))
    requires TranslatesTo(removed, mapped, start, end, Nothing())
    requires forall va: nat :: Canonical(va) && start <= va < end ==> Walk(before, PGD, va) == None
    ensures forall va: nat :: Canonical(va) ==> Walk(removed, PGD, va) == Walk(before, PGD, va)
  {
    hide Size, Index;
    forall va: nat | Canonical(va)
      ensures Walk(removed, PGD, va) == Walk(before, PGD, va)
    {
      assert At(removed, mapped, start, end, Nothing(), va);
      assert PartlyAt(mapped, before, start, end, Frames(start, pages), va);
    }
  }

  /** The round trip as the driver makes it: map_range, successful or not, then sa_remove. */
  method MapAndRemove(pgd: seq<Entry>, start: Word, end: Word, pages: seq<nat>) returns (r: seq<Entry>)
    requires IsTable(pgd, PGD) && CanonicalRange(start, end) && Aligned(start) && Aligned(end) && end != 0
    requires end - start <= |pages| * PAGE_SIZE
    requires forall va: nat :: Canonical(va) && start <= va < end ==> Walk(pgd, PGD, va) == None
    ensures IsTable(r, PGD)
    ensures forall va: nat :: Canonical(va) ==> Walk(r, PGD, va) == Walk(pgd, PGD, va)
  {
    hide Size, Index, IsTable;
    var mapped, ok := MapRange(pgd, start, end, pages);
    r := SaRemove(mapped, start, end);
    if ok { MappedIsPartly(mapped, pgd, start, end, pages); }
    MapThenRemove(pgd, mapped, r, start, end, pages);
  }

  lemma MappedIsPartly(mapped: seq<Entry>, before: seq<Entry>, start: nat, end: nat, pages: seq<nat>)
    requires IsTable(before, PGD) && IsTable(mapped, PGD)
    requires TranslatesTo(mapped, before, start, end, Frames(start, pages))
    ensures PartlyTranslatesTo(mapped, before, start, end, Frames(start, pages))
  {
    hide Size, Index;
    forall va: nat | Canonical(va)
      ensures PartlyAt(mapped, before, start, end, Frames(start, pages), va)
    {
      assert At(mapped, before, start, end, Frames(start, pages), va);
    }
  }
}
