/** __free_pgd_range and its helpers: dropping the tables of a range, within a floor and a ceiling. */
module PageFreeing {
  import opened Words
  import opened PageTables
  import opened RangeWalks
  import opened Wrappers

  /**
    The test the helpers end with: may the entry of the given level that covers addr be cleared?
    Both its ends must be inside [floor, ceiling), a ceiling of zero being the top.
   */
  predicate ClearTest(level: nat, addr: Word, end: Word, floor: Word, ceiling: Word) {
    var start := AlignDown(addr, Size(level));
    if start < floor then false else
    var c := AlignDown(ceiling, Size(level));
    if ceiling != 0 && c == 0 then false else
    Before(end) <= Before(c)
  }

  /** The part of [addr, end) in the block of va: where it starts. */
  function ChunkStart(level: nat, va: nat, addr: Word): nat {
    if addr < BlockStart(level, va) then BlockStart(level, va) else addr
  }

  /** The block of va has a part of the range in it. */
  predicate Touched(level: nat, va: nat, addr: Word, end: Word) {
    addr < BlockEnd(level, va) && BlockStart(level, va) < Top(end)
  }

  /**
    Which addresses of the block of addr lose their tables when the entry that covers it is
    handled for [addr, end). Of the pud entries below a p4d entry only the first one is handled.
   */
  predicate Freed(level: nat, va: nat, addr: Word, end: Word, floor: Word, ceiling: Word)
    decreases level
  {
    if level <= 1 then true else
    || ClearTest(level, addr, end, floor, ceiling)
    || (Touched(level - 1, va, addr, end)
        && (level == 3 ==> SameBlock(2, va, addr))
        && var lo := ChunkStart(level - 1, va, addr);
           lo < WORD && Freed(level - 1, va, lo, AddrEnd(level - 1, lo, end), floor, ceiling))
  }

  ghost predicate FreedAt(level: nat, now: Entry, was: Entry, addr: Word, end: Word, floor: Word, ceiling: Word, va: nat)
    requires IsEntry(now, level) && IsEntry(was, level)
  {
    WalkEntry(now, level, va) == if Freed(level, va, addr, end, floor, ceiling) then None else WalkEntry(was, level, va)
  }

  /** Handling an entry: exactly the freed addresses stop translating. */
  ghost predicate Handled(level: nat, now: Entry, was: Entry, addr: Word, end: Word, floor: Word, ceiling: Word)
    requires IsEntry(now, level) && IsEntry(was, level)
  {
    forall va: nat :: SameBlock(level, va, addr) ==> FreedAt(level, now, was, addr, end, floor, ceiling, va)
  }

  /** The blocks of a table below an entry, handled up to cut: freed if touched before cut, and as before otherwise. */
  predicate FreedBelow(level: nat, va: nat, addr: Word, cut: nat, end: Word, floor: Word, ceiling: Word) {
    Touched(level, va, addr, end) && ChunkStart(level, va, addr) < cut
    && var lo := ChunkStart(level, va, addr);
       lo < WORD && Freed(level, va, lo, AddrEnd(level, lo, end), floor, ceiling)
  }

  ghost predicate HandledAt(level: nat, kids: seq<Entry>, was: seq<Entry>, addr: Word, cut: nat, end: Word, floor: Word, ceiling: Word, va: nat)
    requires IsTable(kids, level) && IsTable(was, level)
  {
    Walk(kids, level, va) == if FreedBelow(level, va, addr, cut, end, floor, ceiling) then None else Walk(was, level, va)
  }

  ghost predicate HandledUpTo(level: nat, kids: seq<Entry>, was: seq<Entry>, addr: Word, cut: nat, end: Word, floor: Word, ceiling: Word)
    requires IsTable(kids, level) && IsTable(was, level)
  {
    forall va: nat :: SameBlock(level + 1, va, addr) ==> HandledAt(level, kids, was, addr, cut, end, floor, ceiling, va)
  }

  /** A range inside one entry, not necessarily page-aligned. */
  predicate Inside(level: nat, addr: Word, end: Word) {
    addr < Top(end) <= BlockEnd(level, addr)
  }

  /** One more block handled. */
  lemma HandleStep(level: nat, before: seq<Entry>, e: Entry, was: seq<Entry>, addr: Word, a: Word, end: Word, floor: Word, ceiling: Word)
    requires 1 <= level <= 4 && IsTable(before, level) && IsTable(was, level) && IsEntry(e, level)
    requires addr <= a < Top(end) && SameBlock(level + 1, a, addr) && (a == addr || a == BlockStart(level, a))
    requires HandledUpTo(level, before, was, addr, a, end, floor, ceiling)
    requires Handled(level, e, before[Index(a, level)], a, AddrEnd(level, a, end), floor, ceiling)
    ensures IsTable(before[Index(a, level) := e], level)
    ensures HandledUpTo(level, before[Index(a, level) := e], was, addr, Top(AddrEnd(level, a, end)), end, floor, ceiling)
  {
    hide Size, Index, AlignDown, AddrEnd, Freed, ClearTest;
    UpdateWalk(level, before, e, a, a);
    AddrEndIsMin(level, a, end);
    var now, up := before[Index(a, level) := e], level + 1;
    var next := Top(AddrEnd(level, a, end));
    forall va: nat | SameBlock(up, va, addr)
      ensures HandledAt(level, now, was, addr, next, end, floor, ceiling, va)
    {
      SameBlockTransitive(up, va, addr, a);
      UpdateWalk(level, before, e, a, va);
      BlockInterval(level, va, a);
      assert HandledAt(level, before, was, addr, a, end, floor, ceiling, va);
      assert SameBlock(level, va, a) ==> FreedAt(level, e, before[Index(a, level)], a, AddrEnd(level, a, end), floor, ceiling, va);
      ChunkOf(level, va, addr, a, end);
    }
  }

  /** Blocks before a are done before a, the block of a starts there, later blocks start later. */
  lemma ChunkOf(level: nat, va: nat, addr: Word, a: Word, end: Word)
    requires addr <= a < Top(end) && (a == addr || a == BlockStart(level, a))
    ensures SameBlock(level, va, a) ==> Touched(level, va, addr, end) && ChunkStart(level, va, addr) == a
    ensures !SameBlock(level, va, a) && Touched(level, va, addr, end) ==>
      (ChunkStart(level, va, addr) < a <==> ChunkStart(level, va, addr) < Min(BlockEnd(level, a), Top(end)))
  {
    hide Size, AlignDown;
    BlockInterval(level, a, va);
    BlockInterval(level, va, a);
    BlocksApart(level, va, a);
  }

  /** Two blocks are the same or do not meet. */
  lemma BlocksApart(level: nat, x: nat, y: nat)
    ensures BlockStart(level, x) <= x < BlockEnd(level, x)
    ensures SameBlock(level, x, y) ==> BlockStart(level, x) == BlockStart(level, y) && BlockEnd(level, x) == BlockEnd(level, y)
    ensures !SameBlock(level, x, y) ==> BlockEnd(level, x) <= BlockStart(level, y) || BlockEnd(level, y) <= BlockStart(level, x)
  {
    var s := Size(level);
    BlockEndQuotient(level, x);
    BlockEndQuotient(level, y);
    MulMono(x / s + 1, y / s, s);
    MulMono(y / s + 1, x / s, s);
  }

  lemma AbsentHandled(level: nat, addr: Word, end: Word, floor: Word, ceiling: Word)
    ensures Handled(level, Empty, Empty, addr, end, floor, ceiling)
  {
    hide Size, Index, AddrEnd, Freed;
  }

  lemma StartHandling(level: nat, kids: seq<Entry>, addr: Word, end: Word, floor: Word, ceiling: Word)
    requires IsTable(kids, level)
    ensures HandledUpTo(level, kids, kids, addr, addr, end, floor, ceiling)
  {
    hide Size, Index, AlignDown, AddrEnd, Freed;
  }

  /** All the blocks a helper is to handle are handled, and the entry itself is kept. */
  lemma EntryKept(level: nat, kids: seq<Entry>, was: seq<Entry>, addr: Word, cut: nat, end: Word, floor: Word, ceiling: Word)
    requires 2 <= level <= 4 && IsTable(kids, level - 1) && IsTable(was, level - 1) && addr < Top(end)
    requires !ClearTest(level, addr, end, floor, ceiling)
    requires cut == if level == 3 then Top(AddrEnd(2, addr, end)) else Top(end)
    requires HandledUpTo(level - 1, kids, was, addr, cut, end, floor, ceiling)
    ensures Handled(level, Table(kids), Table(was), addr, end, floor, ceiling)
  {
    hide Size, Index, AlignDown, AddrEnd, ClearTest;
    var down := level - 1;
    AddrEndIsMin(2, addr, end);
    forall va: nat | SameBlock(level, va, addr)
      ensures FreedAt(level, Table(kids), Table(was), addr, end, floor, ceiling, va)
    {
      assert HandledAt(down, kids, was, addr, cut, end, floor, ceiling, va);
      ChunkOf(2, va, addr, addr, end);
    }
  }

  lemma EntryCleared(level: nat, was: Entry, addr: Word, end: Word, floor: Word, ceiling: Word)
    requires IsEntry(was, level) && (level <= 1 || ClearTest(level, addr, end, floor, ceiling))
    ensures Handled(level, Empty, was, addr, end, floor, ceiling)
  {
    hide Size, Index, AddrEnd, ClearTest;
  }

  /**
    free_pte_range, free_pmd_range, free_pud_range and free_p4d_range, for an entry of level
    1, 2, 3 and 4. The loop of free_pud_range compares addr with next instead of end, so it
    stops after one pud entry.
   */
  method FreeEntry(e: Entry, level: nat, addr: Word, end: Word, floor: Word, ceiling: Word) returns (r: Entry)
    requires 1 <= level <= 4 && IsEntry(e, level) && e.Table? && Inside(level, addr, end)
    ensures IsEntry(r, level) && Handled(level, r, e, addr, end, floor, ceiling)
    decreases level
  {
    hide Size, Index, AlignDown, AddrEnd, Freed, ClearTest, IsTable, Handled, HandledUpTo, SameBlock, BlockEnd;
    if level == 1 {
      EntryCleared(level, e, addr, end, floor, ceiling);
      return Empty;
    }
    var kids := e.kids;
    var a, i := addr, Index(addr, level - 1);
    StartHandling(level - 1, kids, addr, end, floor, ceiling);
    SameBlockSelf(level, a);
    while true
      invariant addr <= a < Top(end) && i == Index(a, level - 1) && SameBlock(level, a, addr)
      invariant a == addr || (a == BlockStart(level - 1, a) && level != 3)
      invariant IsTable(kids, level - 1) && HandledUpTo(level - 1, kids, e.kids, addr, a, end, floor, ceiling)
      decreases Top(end) - a
    {
      var next := AddrEnd(level - 1, a, end);
      AddrEndIsMin(level - 1, a, end);
      TableLength(kids, level - 1);
      var sub := kids[i];
      if sub.Table? {
        sub := FreeEntry(sub, level - 1, a, next, floor, ceiling);
      } else {
        AbsentHandled(level - 1, a, next, floor, ceiling);
      }
      HandleStep(level - 1, kids, sub, e.kids, addr, a, end, floor, ceiling);
      kids := kids[i := sub];
      if next != end {
        StepOn(level - 1, addr, a, Top(end));
        BlockStartsAt(level - 1, a);
      }
      i := i + 1;
      a := next;
      if level == 3 { break; }
      if a == end { break; }
    }
    if ClearTest(level, addr, end, floor, ceiling) {
      EntryCleared(level, e, addr, end, floor, ceiling);
      return Empty;
    }
    EntryKept(level, kids, e.kids, addr, if level == 3 then Top(AddrEnd(2, addr, end)) else Top(end), end, floor, ceiling);
    return Table(kids);
  }

  lemma BlockStartsAt(level: nat, a: nat)
    ensures var b := BlockEnd(level, a); BlockStart(level, b) == b
  {
    BlockEndQuotient(level, a);
    Quotient(BlockEnd(level, a), Size(level), a / Size(level) + 1, 0);
  }

  // ---------------------------------------------------------------- the whole operation

  datatype Range = NoRange | Range(addr: Word, end: Word, ceiling: Word)

  /** The rounding __free_pgd_range starts with, in 64-bit arithmetic. */
  function Rounded(addr: Word, end: Word, floor: Word, ceiling: Word): Range {
    SizeDividesWord(1);
    var down := AlignDown(addr, Size(1));
    var a: Word := if down < floor then (down + Size(1)) % WORD else down;
    var c: Word := AlignDown(ceiling, Size(1));
    if (down < floor && a == 0) || (ceiling != 0 && c == 0) then NoRange else
    var e: Word := if Before(end) > Before(c) then (end + WORD - Size(1)) % WORD else end;
    if a > Before(e) then NoRange else Range(a, e, c)
  }

  /** The addresses whose tables the call drops. */
  predicate FreedByCall(va: nat, addr: Word, end: Word, floor: Word, ceiling: Word) {
    match Rounded(addr, end, floor, ceiling)
    case NoRange => false
    case Range(a, e, c) => FreedBelow(PGD, va, a, Top(e), e, floor, c)
  }

  lemma RoundedFits(addr: Word, end: Word, floor: Word, ceiling: Word)
    requires floor <= addr < Top(end) <= Top(ceiling) && CanonicalRange(addr, end)
    ensures Rounded(addr, end, floor, ceiling).Range? ==> Fits(Rounded(addr, end, floor, ceiling), addr, floor, ceiling)
  {
    hide *;
    var r := Rounded(addr, end, floor, ceiling);
    if r.Range? {
      RoundedParts(addr, end, floor, ceiling);
      RoundedStart(addr, floor, r.addr);
      RoundedEnd(end, ceiling, r.ceiling, r.end);
      BeforeIsLast(r.end);
      SameHalf(addr, r.addr, end, r.end);
      FitsParts(r, addr, floor, ceiling);
    }
  }

  lemma RoundedParts(addr: Word, end: Word, floor: Word, ceiling: Word)
    requires Rounded(addr, end, floor, ceiling).Range?
    ensures var r := Rounded(addr, end, floor, ceiling); var s := 0x20_0000; var down := AlignDown(addr, s);
      && r.addr == (if down < floor then (down + s) % WORD else down) && (down < floor ==> r.addr != 0)
      && (ceiling == 0 || AlignDown(ceiling, s) != 0) && r.ceiling == AlignDown(ceiling, s)
      && r.end == (if Before(end) > Before(r.ceiling) then (end + WORD - s) % WORD else end)
      && r.addr <= Before(r.end)
  {
    assert Size(1) == 0x20_0000 by { SizeDividesWord(1); }
    hide Size, AlignDown, Before;
  }

  lemma FitsParts(r: Range, addr: Word, floor: Word, ceiling: Word)
    requires r.Range? && CanonicalRange(r.addr, r.end) && (r.addr < HALF <==> addr < HALF)
    requires floor <= r.addr == AlignDown(r.addr, 0x20_0000)
    requires Top(r.end) <= Top(r.ceiling) <= Top(ceiling) && Top(r.ceiling) % 0x20_0000 == 0
    ensures Fits(r, addr, floor, ceiling)
  {
    assert Size(1) == 0x20_0000 by { SizeDividesWord(1); }
    hide Size, AlignDown, Before, Top;
  }

  /** The rounded range lies in the same half, at or above the floor, and below the rounded ceiling. */
  predicate Fits(r: Range, addr: Word, floor: Word, ceiling: Word)
    requires r.Range?
  {
    && CanonicalRange(r.addr, r.end) && (r.addr < HALF <==> addr < HALF)
    && floor <= r.addr == BlockStart(1, r.addr)
    && Top(r.end) <= Top(r.ceiling) <= Top(ceiling) && Top(r.ceiling) % Size(1) == 0
  }

  lemma RoundedStart(addr: Word, floor: Word, a: Word)
    requires floor <= addr
    requires var down := AlignDown(addr, 0x20_0000);
      a == (if down < floor then (down + 0x20_0000) % WORD else down) && (down < floor ==> a != 0)
    ensures floor <= a == AlignDown(a, 0x20_0000) && a % 0x20_0000 == 0 && (a > addr || a <= addr < a + 0x20_0000)
  {
  }

  lemma RoundedEnd(end: Word, ceiling: Word, c: Word, e: Word)
    requires Top(end) <= Top(ceiling) && c == AlignDown(ceiling, 0x20_0000) && (ceiling == 0 || c != 0)
    requires e == if Before(end) > Before(c) then (end + WORD - 0x20_0000) % WORD else end
    ensures Top(e) <= Top(c) <= Top(ceiling) && Top(c) % 0x20_0000 == 0 && Top(e) <= Top(end)
  {
    hide Before;
    BeforeIsLast(end);
    BeforeIsLast(c);
  }

  lemma SameHalf(addr: Word, a: Word, end: Word, e: Word)
    requires CanonicalRange(addr, end) && a < Top(e) <= Top(end) && (a > addr || a <= addr < a + 0x20_0000)
    requires a % 0x20_0000 == 0
    ensures CanonicalRange(a, e) && (a < HALF <==> addr < HALF)
  {
  }

  /** __free_pgd_range. */
  method FreePgdRange(pgd: seq<Entry>, addr: Word, end: Word, floor: Word, ceiling: Word) returns (r: seq<Entry>)
    requires IsTable(pgd, PGD) && floor <= addr < Top(end) <= Top(ceiling) && CanonicalRange(addr, end)
    ensures IsTable(r, PGD)
    ensures forall va: nat :: Canonical(va) ==>
      Walk(r, PGD, va) == if FreedByCall(va, addr, end, floor, ceiling) then None else Walk(pgd, PGD, va)
  {
    hide Size, Index, AlignDown, AddrEnd, Freed, ClearTest, IsTable, Handled, HandledUpTo, SameBlock, BlockEnd, Rounded, Walk;
    RoundedFits(addr, end, floor, ceiling);
    r := pgd;
    match Rounded(addr, end, floor, ceiling)
    case NoRange => return;
    case Range(lo, e, c) =>
      var a, i := lo, Index(lo, PGD);
      StartHandling(PGD, r, lo, e, floor, c);
      SameBlockSelf(PGD + 1, a);
      HalfInOneTable(lo, e);
      while true
        invariant lo <= a < Top(e) && i == Index(a, PGD) && SameBlock(PGD + 1, a, lo)
        invariant a == lo || a == BlockStart(PGD, a)
        invariant IsTable(r, PGD) && HandledUpTo(PGD, r, pgd, lo, a, e, floor, c)
        decreases Top(e) - a
      {
        var next := AddrEnd(PGD, a, e);
        AddrEndIsMin(PGD, a, e);
        TableLength(r, PGD);
        var sub := r[i];
        if sub.Table? {
          sub := FreeEntry(sub, PGD, a, next, floor, c);
        } else {
          AbsentHandled(PGD, a, next, floor, c);
        }
        HandleStep(PGD, r, sub, pgd, lo, a, e, floor, c);
        r := r[i := sub];
        if next != e {
          StepOn(PGD, lo, a, Top(e));
          BlockStartsAt(PGD, a);
        }
        i := i + 1;
        a := next;
        if a == e { break; }
      }
      forall va: nat | Canonical(va)
        ensures Walk(r, PGD, va) == if FreedBelow(PGD, va, lo, Top(e), e, floor, c) then None else Walk(pgd, PGD, va)
      {
        EveryHalf(r, pgd, lo, e, floor, c, va);
      }
  }

  lemma EveryHalf(r: seq<Entry>, pgd: seq<Entry>, lo: Word, e: Word, floor: Word, c: Word, va: nat)
    requires IsTable(r, PGD) && IsTable(pgd, PGD) && CanonicalRange(lo, e) && Canonical(va)
    requires HandledUpTo(PGD, r, pgd, lo, Top(e), e, floor, c)
    ensures HandledAt(PGD, r, pgd, lo, Top(e), e, floor, c, va)
  {
    hide Size, Index, AddrEnd, Freed, ClearTest;
    var m := Mirror(va, lo);
    WalkPeriodic(r, PGD, va, m);
    WalkPeriodic(pgd, PGD, va, m);
    assert HandledAt(PGD, r, pgd, lo, Top(e), e, floor, c, m);
    if m != va {
      OtherHalfUntouched(va, lo, e);
      OtherHalfUntouched(m, lo, e);
    }
  }

  /** Blocks of page global directory entries do not straddle the canonical halves. */
  lemma OtherHalfUntouched(va: nat, lo: Word, e: Word)
    requires CanonicalRange(lo, e)
    ensures lo < HALF && va >= HALF ==> !Touched(PGD, va, lo, e)
    ensures lo >= HALF && va < WORD - HALF ==> !Touched(PGD, va, lo, e)
  {
    SizeDividesWord(4);
  }

  // ---------------------------------------------------------------- what is freed

  lemma AlignedAbove(level: nat, a: nat, c: nat)
    requires c % Size(level) == 0 && a < c
    ensures BlockEnd(level, a) <= c
  {
    var s := Size(level);
    BlockEndQuotient(level, a);
    DivMod(c, s);
    DivMod(a, s);
    MulMono(c / s, a / s, s);
    MulMono(a / s + 1, c / s, s);
  }

  lemma ClearStaysInside(level: nat, va: nat, addr: Word, end: Word, floor: Word, ceiling: Word)
    requires level <= 4 && SameBlock(level, va, addr) && addr < Top(end) && ClearTest(level, addr, end, floor, ceiling)
    ensures floor <= va < Top(ceiling)
  {
    hide Size, Before;
    var c: Word := AlignDown(ceiling, Size(level));
    BlockInterval(level, va, addr);
    BeforeIsLast(end);
    BeforeIsLast(c);
    AlignDownAligned(ceiling, Size(level));
    SizeDividesWord(level);
    AlignedAbove(level, addr, Top(c));
  }

  lemma AlignDownAligned(a: nat, s: nat)
    requires s > 0
    ensures AlignDown(a, s) % s == 0
  {
    DivMod(a, s);
    Quotient(AlignDown(a, s), s, a / s, 0);
  }

  lemma {:induction false} FreedStaysInside(level: nat, va: nat, addr: Word, end: Word, floor: Word, ceiling: Word)
    requires 1 <= level <= 4 && SameBlock(level, va, addr) && addr < Top(end) <= Top(ceiling)
    requires floor <= BlockStart(1, addr) && Top(ceiling) % Size(1) == 0
    requires Freed(level, va, addr, end, floor, ceiling)
    ensures floor <= va < Top(ceiling)
    decreases level
  {
    hide Size, AlignDown, AddrEnd, ClearTest;
    if level == 1 {
      BlockInterval(1, va, addr);
      AlignedAbove(1, addr, Top(ceiling));
    } else if ClearTest(level, addr, end, floor, ceiling) {
      ClearStaysInside(level, va, addr, end, floor, ceiling);
    } else {
      var lo := ChunkStart(level - 1, va, addr);
      ChunkInside(level - 1, va, addr, end);
      FreedStaysInside(level - 1, va, lo, AddrEnd(level - 1, lo, end), floor, ceiling);
    }
  }

  lemma ChunkInside(level: nat, va: nat, addr: Word, end: Word)
    requires level <= 4 && Touched(level, va, addr, end) && addr < Top(end)
    ensures var lo := ChunkStart(level, va, addr);
      addr <= lo < Top(end) && SameBlock(level, va, lo) && BlockStart(1, addr) <= BlockStart(1, lo)
      && lo < WORD && lo < Top(AddrEnd(level, lo, end)) <= Top(end)
      && (addr <= va ==> lo <= va) && (va < Top(end) ==> va < Top(AddrEnd(level, lo, end)) || !SameBlock(level, va, lo))
  {
    hide Size, AddrEnd, AlignDown;
    var lo := ChunkStart(level, va, addr);
    BlocksApart(level, va, va);
    BlockInterval(level, lo, va);
    BlocksApart(level, lo, va);
    BlocksApart(1, lo, addr);
    BlocksApart(1, addr, addr);
    AddrEndIsMin(level, lo, end);
  }

  /** Floor and ceiling are respected: no address outside them loses its translation, tables freed or not. */
  lemma FreeingStaysInside(va: nat, addr: Word, end: Word, floor: Word, ceiling: Word)
    requires floor <= addr < Top(end) <= Top(ceiling) && CanonicalRange(addr, end)
    requires FreedByCall(va, addr, end, floor, ceiling)
    ensures floor <= va < Top(ceiling)
  {
    hide Size, AlignDown, AddrEnd, Freed, Rounded;
    RoundedFits(addr, end, floor, ceiling);
    var r := Rounded(addr, end, floor, ceiling);
    var lo := ChunkStart(PGD, va, r.addr);
    ChunkInside(PGD, va, r.addr, r.end);
    FreedStaysInside(PGD, va, lo, AddrEnd(PGD, lo, r.end), floor, r.ceiling);
  }

  /**
    What is freed of the range itself. Under each p4d entry the pud entry reached first always
    goes; an address behind another pud entry goes exactly when the p4d or the pgd entry above
    it passes the clear test.
   */
  lemma FreedExactly(va: nat, a: Word, e: Word, floor: Word, ceiling: Word)
    requires a <= va < Top(e)
    ensures var lo4 := ChunkStart(PGD, va, a); var e4 := if lo4 < WORD then AddrEnd(PGD, lo4, e) else 0;
      var lo3 := ChunkStart(3, va, lo4); var e3 := if lo3 < WORD then AddrEnd(3, lo3, e4) else 0;
      lo4 < WORD && lo3 < WORD
      && (FreedBelow(PGD, va, a, Top(e), e, floor, ceiling) <==>
            SameBlock(2, va, lo3) || ClearTest(3, lo3, e3, floor, ceiling) || ClearTest(PGD, lo4, e4, floor, ceiling))
  {
    hide Size, AlignDown, AddrEnd, ClearTest;
    InRangeTouched(PGD, va, a, e);
    var lo4 := ChunkStart(PGD, va, a);
    var e4 := AddrEnd(PGD, lo4, e);
    InRangeTouched(3, va, lo4, e4);
    var lo3 := ChunkStart(3, va, lo4);
    var e3 := AddrEnd(3, lo3, e4);
    InRangeTouched(2, va, lo3, e3);
    var lo2 := ChunkStart(2, va, lo3);
    InRangeTouched(1, va, lo2, AddrEnd(2, lo2, e3));
    assert Freed(1, va, ChunkStart(1, va, lo2), AddrEnd(1, ChunkStart(1, va, lo2), AddrEnd(2, lo2, e3)), floor, ceiling);
    assert Freed(2, va, lo2, AddrEnd(2, lo2, e3), floor, ceiling);
    assert Freed(3, va, lo3, e3, floor, ceiling) <==> ClearTest(3, lo3, e3, floor, ceiling) || SameBlock(2, va, lo3);
  }

  lemma InRangeTouched(level: nat, va: nat, addr: Word, end: Word)
    requires level <= 4 && addr <= va < Top(end)
    ensures Touched(level, va, addr, end)
    ensures var lo := ChunkStart(level, va, addr); lo < WORD && lo <= va < Top(AddrEnd(level, lo, end))
  {
    hide Size, AddrEnd, AlignDown;
    BlocksApart(level, va, va);
    ChunkInside(level, va, addr, end);
  }

  lemma ClearFails(level: nat, addr: Word, end: Word, ceiling: Word)
    requires 3 <= level <= 4 && addr < end <= ceiling < Size(level)
    ensures !ClearTest(level, addr, end, 0, ceiling)
  {
    hide Size, Before;
    Quotient(ceiling, Size(level), 0, ceiling);
  }

  /** So completeness fails: two pud entries freed with nothing around them to free, the second one stays. */
  lemma SecondPudSurvives()
    ensures var gb: Word := 0x4000_0000;
      !FreedByCall(gb, 0, 2 * gb, 0, 2 * gb) && FreedByCall(gb - 1, 0, 2 * gb, 0, 2 * gb)
  {
    var gb: Word := 0x4000_0000;
    TwoGigabytes();
    SurvivesUnless(gb, gb, 2 * gb);
    SurvivesUnless(gb - 1, gb, 2 * gb);
  }

  lemma TwoGigabytes()
    ensures Rounded(0, 0x8000_0000, 0, 0x8000_0000) == Range(0, 0x8000_0000, 0x8000_0000)
  {
    SizeDividesWord(1);
    hide Size;
  }

  lemma CallFreed(va: nat, end: Word)
    requires end == 0x8000_0000
    ensures FreedByCall(va, 0, end, 0, end) <==> FreedBelow(PGD, va, 0, Top(end), end, 0, end)
  {
    hide FreedBelow, Rounded, Top;
    TwoGigabytes();
  }

  lemma SecondGigabyte(va: nat, gb: nat)
    requires gb == 0x4000_0000 && va < 2 * gb
    ensures SameBlock(2, va, 0) <==> va < gb
  {
    SizeDividesWord(2);
    hide Size;
  }

  lemma SurvivesUnless(va: nat, gb: Word, end: Word)
    requires gb == 0x4000_0000 && end == 2 * gb && va < end
    ensures FreedByCall(va, 0, end, 0, end) <==> va < gb
  {
    assert Top(end) == end;
    assert end < Size(3) && end < Size(4) by { SizeDividesWord(4); }
    hide *;
    CallFreed(va, end);
    FreedExactly(va, 0, end, 0, end);
    FirstBlock(PGD, va, end);
    FirstBlock(3, va, end);
    ClearFails(3, 0, end, end);
    ClearFails(PGD, 0, end, end);
    SecondGigabyte(va, gb);
  }

  lemma FirstBlock(level: nat, va: nat, end: Word)
    requires va < end <= Size(level) && 3 <= level <= 4 && end < WORD
    ensures ChunkStart(level, va, 0) == 0 && AddrEnd(level, 0, end) == end
  {
    hide Size;
    Quotient(va, Size(level), 0, va);
    AddrEndIsMin(level, 0, end);
  }

  // ---------------------------------------------------------------- the top-level table

  /** How many entries the loop of __free_pgd_range goes through from address a on, one after the other. */
  function Visits(a: Word, e: Word): nat
    requires a < Top(e)
    decreases Top(e) - a
  {
    AddrEndIsMin(PGD, a, e);
    var next := AddrEnd(PGD, a, e);
    if next == e then 1 else 1 + Visits(next, e)
  }

  lemma {:induction false} VisitsCounted(a: Word, e: Word)
    requires a < Top(e)
    ensures Visits(a, e) == (Top(e) - 1) / Size(PGD) - a / Size(PGD) + 1
    decreases Top(e) - a
  {
    AddrEndIsMin(PGD, a, e);
    SizeDividesWord(4);
    hide Size, AddrEnd;
    var next := AddrEnd(PGD, a, e);
    if next != e { VisitsCounted(next, e); }
  }

  lemma InOneRow(x: nat, y: nat)
    requires x <= y
    ensures x % ENTRIES + (y - x + 1) <= ENTRIES <==> x / ENTRIES == y / ENTRIES
  {
  }

  /** The loop stays inside the top-level table if and only if the range it is left with lies in one 2^57 bytes. */
  lemma VisitsStayInTable(a: Word, e: Word)
    requires a < Top(e)
    ensures Index(a, PGD) + Visits(a, e) <= ENTRIES <==> SameBlock(PGD + 1, a, Top(e) - 1)
  {
    var s := Size(PGD);
    VisitsCounted(a, e);
    DivDiv(a, s);
    DivDiv(Top(e) - 1, s);
    DivMono(a, Top(e) - 1, s);
    InOneRow(a / s, (Top(e) - 1) / s);
    assert Size(PGD + 1) == ENTRIES * s;
    hide Size, Visits, Top;
  }

  lemma DivMono(a: nat, b: nat, s: nat)
    requires a <= b && s > 0
    ensures a / s <= b / s
  {
    DivMod(a, s);
    DivMod(b, s);
    if b / s < a / s { MulMono(b / s + 1, a / s, s); }
  }

  /** From the first entry to the top, which is what alloc_destroy_callback asks for, it leaves it: 65536 entries of a table of 512. */
  lemma DestroyVisits(a: Word, e: Word)
    requires a < Size(PGD) && Top(e) == WORD
    ensures Visits(a, e) == 0x1_0000 && Index(a, PGD) + Visits(a, e) > ENTRIES
  {
    hide Visits, Index, Top, Size;
    SizeDividesWord(4);
    VisitsCounted(a, e);
    WholeCount(a, Size(PGD));
  }

  lemma WholeCount(a: nat, s: nat)
    requires s == 0x1_0000_0000_0000 && a < s
    ensures (WORD - 1) / s - a / s + 1 == 0x1_0000
  {
  }

  /** Its arguments are all zero, and the rounding leaves them so. */
  lemma DestroyRounded()
    ensures Rounded(0, 0, 0, 0) == Range(0, 0, 0)
  {
    hide Size, AlignDown, Before;
  }
}
