/** What walking a range of addresses and replacing entries does to translations, one block at a time. */
module RangeWalks {
  import opened Words
  import opened PageTables
  import opened Wrappers

  predicate Aligned(a: nat) {
    a % PAGE_SIZE == 0
  }

  /** A page-aligned, non-empty range inside one entry of a table of the given level. */
  predicate InOneEntry(level: nat, addr: Word, end: Word) {
    addr < Top(end) <= BlockEnd(level, addr) && Aligned(addr) && Aligned(end)
  }

  /** The translation of va once [addr, cut) translates as f says. */
  ghost predicate UpdatedAt(level: nat, now: Entry, was: Entry, addr: nat, cut: nat, f: nat -> Option<nat>, va: nat)
    requires IsEntry(now, level) && IsEntry(was, level)
  {
    WalkEntry(now, level, va)
      == if addr <= va < cut then f(va) else WalkEntry(was, level, va)
  }

  /** In the block of addr, exactly the addresses of [addr, cut) have got the translation f. */
  ghost predicate Updated(level: nat, now: Entry, was: Entry, addr: nat, cut: nat, f: nat -> Option<nat>)
    requires IsEntry(now, level) && IsEntry(was, level)
  {
    forall va: nat :: SameBlock(level, va, addr) ==> UpdatedAt(level, now, was, addr, cut, f, va)
  }

  ghost predicate PartlyUpdatedAt(level: nat, now: Entry, was: Entry, addr: nat, end: nat, f: nat -> Option<nat>, va: nat)
    requires IsEntry(now, level) && IsEntry(was, level)
  {
    WalkEntry(now, level, va) == WalkEntry(was, level, va)
    || (addr <= va < end && WalkEntry(now, level, va) == f(va))
  }

  /** What a failure part-way leaves: no address outside the range moved, inside each got its new translation or kept the old. */
  ghost predicate PartlyUpdated(level: nat, now: Entry, was: Entry, addr: nat, end: nat, f: nat -> Option<nat>)
    requires IsEntry(now, level) && IsEntry(was, level)
  {
    forall va: nat :: SameBlock(level, va, addr) ==> PartlyUpdatedAt(level, now, was, addr, end, f, va)
  }

  /** What replacing an entry of a table does to the addresses the table covers. */
  lemma UpdateWalk(level: nat, kids: seq<Entry>, e: Entry, a: nat, va: nat)
    requires IsTable(kids, level) && IsEntry(e, level) && SameBlock(level + 1, va, a)
    ensures IsTable(kids[Index(a, level) := e], level)
    ensures WalkEntry(Table(kids[Index(a, level) := e]), level + 1, va)
      == if SameBlock(level, va, a) then WalkEntry(e, level, va) else WalkEntry(Table(kids), level + 1, va)
    ensures SameBlock(level, va, a) ==> WalkEntry(Table(kids), level + 1, va) == WalkEntry(kids[Index(a, level)], level, va)
  {
    hide Size, Index;
    IndexIsBlock(level, va, a);
  }

  /** A block updated up to next inside a table updated up to a gives the table updated up to next. */
  lemma UpdateStep(level: nat, before: seq<Entry>, e: Entry, was: Entry, addr: nat, a: nat, next: nat, f: nat -> Option<nat>)
    requires IsTable(before, level) && IsEntry(e, level) && IsEntry(was, level + 1)
    requires addr <= a <= next <= BlockEnd(level, a) && SameBlock(level + 1, a, addr)
    requires Updated(level + 1, Table(before), was, addr, a, f)
    requires Updated(level, e, before[Index(a, level)], a, next, f)
    ensures IsTable(before[Index(a, level) := e], level)
    ensures Updated(level + 1, Table(before[Index(a, level) := e]), was, addr, next, f)
  {
    hide Size, Index, AlignDown;
    UpdateWalk(level, before, e, a, a);
    var now, up := Table(before[Index(a, level) := e]), level + 1;
    forall va: nat | SameBlock(up, va, addr)
      ensures UpdatedAt(up, now, was, addr, next, f, va)
    {
      SameBlockTransitive(up, va, addr, a);
      UpdateWalk(level, before, e, a, va);
      BlockInterval(level, va, a);
      assert UpdatedAt(up, Table(before), was, addr, a, f, va);
      assert SameBlock(level, va, a) ==> UpdatedAt(level, e, before[Index(a, level)], a, next, f, va);
    }
  }

  /** The same step when the block could only be updated in part. */
  lemma UpdateFails(level: nat, before: seq<Entry>, e: Entry, was: Entry, addr: nat, a: nat, next: nat, end: nat, f: nat -> Option<nat>)
    requires IsTable(before, level) && IsEntry(e, level) && IsEntry(was, level + 1)
    requires addr <= a <= next <= end && SameBlock(level + 1, a, addr)
    requires Updated(level + 1, Table(before), was, addr, a, f)
    requires PartlyUpdated(level, e, before[Index(a, level)], a, next, f)
    ensures IsTable(before[Index(a, level) := e], level)
    ensures PartlyUpdated(level + 1, Table(before[Index(a, level) := e]), was, addr, end, f)
  {
    hide Size, Index, AlignDown;
    UpdateWalk(level, before, e, a, a);
    var now, up := Table(before[Index(a, level) := e]), level + 1;
    forall va: nat | SameBlock(up, va, addr)
      ensures PartlyUpdatedAt(up, now, was, addr, end, f, va)
    {
      SameBlockTransitive(up, va, addr, a);
      UpdateWalk(level, before, e, a, va);
      assert UpdatedAt(up, Table(before), was, addr, a, f, va);
      assert SameBlock(level, va, a) ==> PartlyUpdatedAt(level, e, before[Index(a, level)], a, next, f, va);
    }
  }

  lemma SameBlockTransitive(level: nat, x: nat, y: nat, z: nat)
    requires SameBlock(level, x, y) && SameBlock(level, z, y)
    ensures SameBlock(level, x, z)
  {
  }

  lemma SameBlockSelf(level: nat, a: nat)
    ensures SameBlock(level, a, a)
  {
  }

  lemma BlockEndAligned(level: nat, a: nat)
    requires level <= 4
    ensures Aligned(BlockEnd(level, a))
  {
    SizeDividesWord(level);
    BlockEndQuotient(level, a);
    var q := a / Size(level) + 1;
    Regroup(q, Size(level) / PAGE_SIZE, PAGE_SIZE);
    assert Size(level) == Size(level) / PAGE_SIZE * PAGE_SIZE;
    Quotient(BlockEnd(level, a), PAGE_SIZE, q * (Size(level) / PAGE_SIZE), 0);
  }

  /** The loop goes on at the next entry of the same table. */
  lemma StepOn(level: nat, addr: nat, a: nat, end: nat)
    requires SameBlock(level + 1, a, addr) && BlockEnd(level, a) < end <= BlockEnd(level + 1, addr)
    ensures SameBlock(level + 1, BlockEnd(level, a), addr) && Index(BlockEnd(level, a), level) == Index(a, level) + 1
  {
    hide Size, Index, AlignDown;
    NextEntry(level, a);
    SameBlockEnds(level + 1, a, addr);
  }

  lemma SameBlockEnds(level: nat, x: nat, y: nat)
    requires SameBlock(level, x, y)
    ensures BlockEnd(level, x) == BlockEnd(level, y)
  {
    BlockEndQuotient(level, x);
    BlockEndQuotient(level, y);
  }

  lemma TableLength(t: seq<Entry>, level: nat)
    requires IsTable(t, level)
    ensures |t| == ENTRIES && forall i :: 0 <= i < ENTRIES ==> IsEntry(t[i], level)
  {
  }

  lemma UpdateStart(level: nat, now: Entry, was: Entry, addr: nat, f: nat -> Option<nat>)
    requires IsEntry(now, level) && IsEntry(was, level) && forall va: nat :: WalkEntry(now, level, va) == WalkEntry(was, level, va)
    ensures Updated(level, now, was, addr, addr, f)
  {
  }

  /** The sub-range handed down is again inside one entry. */
  lemma StepInOneEntry(level: nat, a: Word, end: Word)
    requires level <= 4 && InOneEntry(level + 1, a, end)
    ensures var next := AddrEnd(level, a, end);
      InOneEntry(level, a, next) && Top(next) <= Top(end)
      && (next != end ==> Top(next) == BlockEnd(level, a) < Top(end))
  {
    hide Size, AlignDown, AddrEnd;
    AddrEndIsMin(level, a, end);
    BlockEndAligned(level, a);
  }

  lemma LaterInOneEntry(level: nat, addr: Word, a: Word, end: Word)
    requires InOneEntry(level, addr, end) && addr <= a < Top(end) && Aligned(a) && SameBlock(level, a, addr)
    ensures InOneEntry(level, a, end)
  {
    SameBlockEnds(level, a, addr);
  }

  // ---------------------------------------------------------------- whole address spaces

  /** Level of the page global directory: five levels in all. */
  const PGD: nat := 4

  const HALF: nat := 0x100_0000_0000_0000

  /** Canonical for 57-bit addresses: the seven upper bits repeat bit 56. */
  predicate Canonical(a: nat) {
    a < HALF || WORD - HALF <= a < WORD
  }

  /** A non-empty range inside one canonical half. */
  predicate CanonicalRange(addr: Word, end: Word) {
    addr < Top(end) && Canonical(addr) && Canonical(Top(end) - 1) && (addr < HALF <==> Top(end) - 1 < HALF)
  }

  lemma HalfInOneTable(addr: Word, end: Word)
    requires CanonicalRange(addr, end)
    ensures Top(end) <= BlockEnd(PGD + 1, addr)
  {
    SizeDividesWord(4);
  }

  /** Translation looks at the low bits only. */
  lemma {:induction false} WalkPeriodic(t: seq<Entry>, level: nat, x: nat, y: nat)
    requires IsTable(t, level) && x % Size(level + 1) == y % Size(level + 1)
    ensures Walk(t, level, x) == Walk(t, level, y)
    decreases level
  {
    var s := Size(level);
    LowPart(x, s);
    LowPart(y, s);
    var e := t[Index(x, level)];
    if e.Table? { WalkPeriodic(e.kids, level - 1, x, y); }
  }

  lemma LowPart(x: nat, s: nat)
    requires s > 0
    ensures (x % (ENTRIES * s)) / s == (x / s) % ENTRIES && (x % (ENTRIES * s)) % s == x % s
  {
    var q, r := x / s, x % s;
    DivMod(x, s);
    var h, l := q / ENTRIES, q % ENTRIES;
    Distribute(h * ENTRIES, l, s);
    Regroup(h, ENTRIES, s);
    MulMono(l, ENTRIES - 1, s);
    Distribute(ENTRIES - 1, 1, s);
    Quotient(x, ENTRIES * s, h, l * s + r);
    Quotient(l * s + r, s, l, r);
  }

  /** The address of the other half that uses the same tables. */
  lemma Mirror(va: nat, addr: nat) returns (m: nat)
    requires Canonical(va) && Canonical(addr)
    ensures SameBlock(5, m, addr) && m % Size(5) == va % Size(5)
    ensures (va < HALF <==> addr < HALF) ==> m == va
    ensures (va < HALF && addr >= HALF) ==> m < WORD - HALF
    ensures (va >= HALF && addr < HALF) ==> HALF <= m
  {
    SizeDividesWord(4);
    if va < HALF <==> addr < HALF {
      m := va;
    } else if va < HALF {
      m := va + 127 * Size(5);
    } else {
      m := va - 127 * Size(5);
    }
  }

  /** What a range update in the block of addr means for every canonical address. */
  lemma ForAllCanonical(now: seq<Entry>, was: seq<Entry>, addr: Word, end: Word, f: nat -> Option<nat>)
    requires IsTable(now, PGD) && IsTable(was, PGD) && CanonicalRange(addr, end)
    ensures Updated(PGD + 1, Table(now), Table(was), addr, Top(end), f) ==> TranslatesTo(now, was, addr, Top(end), f)
    ensures PartlyUpdated(PGD + 1, Table(now), Table(was), addr, Top(end), f) ==> PartlyTranslatesTo(now, was, addr, Top(end), f)
  {
    hide Size, Index;
    forall va: nat | Canonical(va)
      ensures Updated(PGD + 1, Table(now), Table(was), addr, Top(end), f) ==> At(now, was, addr, Top(end), f, va)
      ensures PartlyUpdated(PGD + 1, Table(now), Table(was), addr, Top(end), f) ==> PartlyAt(now, was, addr, Top(end), f, va)
    {
      var m := Mirror(va, addr);
      WalkPeriodic(now, PGD, va, m);
      WalkPeriodic(was, PGD, va, m);
      assert UpdatedAt(PGD + 1, Table(now), Table(was), addr, Top(end), f, m)
        || !UpdatedAt(PGD + 1, Table(now), Table(was), addr, Top(end), f, m);
      assert PartlyUpdatedAt(PGD + 1, Table(now), Table(was), addr, Top(end), f, m)
        || !PartlyUpdatedAt(PGD + 1, Table(now), Table(was), addr, Top(end), f, m);
    }
  }

  ghost predicate At(now: seq<Entry>, was: seq<Entry>, addr: nat, end: nat, f: nat -> Option<nat>, va: nat)
    requires IsTable(now, PGD) && IsTable(was, PGD)
  {
    Walk(now, PGD, va) == if addr <= va < end then f(va) else Walk(was, PGD, va)
  }

  ghost predicate PartlyAt(now: seq<Entry>, was: seq<Entry>, addr: nat, end: nat, f: nat -> Option<nat>, va: nat)
    requires IsTable(now, PGD) && IsTable(was, PGD)
  {
    Walk(now, PGD, va) == Walk(was, PGD, va) || (addr <= va < end && Walk(now, PGD, va) == f(va))
  }

  /** The flat view: the addresses of the range translate as f says, all others as before. */
  ghost predicate TranslatesTo(now: seq<Entry>, was: seq<Entry>, addr: nat, end: nat, f: nat -> Option<nat>)
    requires IsTable(now, PGD) && IsTable(was, PGD)
  {
    forall va: nat :: Canonical(va) ==> At(now, was, addr, end, f, va)
  }

  ghost predicate PartlyTranslatesTo(now: seq<Entry>, was: seq<Entry>, addr: nat, end: nat, f: nat -> Option<nat>)
    requires IsTable(now, PGD) && IsTable(was, PGD)
  {
    forall va: nat :: Canonical(va) ==> PartlyAt(now, was, addr, end, f, va)
  }
}
