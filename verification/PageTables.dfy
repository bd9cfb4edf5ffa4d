/** Five-level page tables as trees, and the address arithmetic of their walkers. */
module PageTables {
  import opened Words
  import opened Wrappers

  /** An entry of a table: empty, a page frame (level 0 only), or the table one level down. */
  datatype Entry = Empty | Page(pfn: nat) | Table(kids: seq<Entry>)

  const ENTRIES: nat := 512
  const PAGE_SIZE: nat := 4096

  /** Bytes covered by one entry of a table of the given level: pte, pmd, pud, p4d, pgd for levels 0 to 4. */
  function Size(level: nat): (s: nat)
    ensures s > 0
  {
    if level == 0 then PAGE_SIZE else ENTRIES * Size(level - 1)
  }

  function Index(va: nat, level: nat): (i: nat)
    ensures i < ENTRIES
  {
    (va / Size(level)) % ENTRIES
  }

  predicate IsTable(t: seq<Entry>, level: nat)
    decreases level, 1
  {
    |t| == ENTRIES && forall i :: 0 <= i < ENTRIES ==> IsEntry(t[i], level)
  }

  /** A well-formed entry of a table of the given level. */
  predicate IsEntry(e: Entry, level: nat)
    decreases level, 0
  {
    match e
    case Empty => true
    case Page(_) => level == 0
    case Table(kids) => level > 0 && IsTable(kids, level - 1)
  }

  /** The page frame an address translates to, the hardware's way. */
  function Walk(t: seq<Entry>, level: nat, va: nat): Option<nat>
    requires IsTable(t, level)
    decreases level, 1
  {
    WalkEntry(t[Index(va, level)], level, va)
  }

  function WalkEntry(e: Entry, level: nat, va: nat): Option<nat>
    requires IsEntry(e, level)
    decreases level, 0
  {
    match e
    case Empty => None
    case Page(pfn) => Some(pfn)
    case Table(kids) => Walk(kids, level - 1, va)
  }

  function EmptyTable(): seq<Entry> {
    seq(ENTRIES, i => Empty)
  }

  lemma EmptyTableWalks(level: nat, va: nat)
    ensures IsTable(EmptyTable(), level) && Walk(EmptyTable(), level, va) == None
  {
  }

  /** Addresses covered by the same entry of some table of the given level. */
  predicate SameBlock(level: nat, a: nat, b: nat) {
    a / Size(level) == b / Size(level)
  }

  // ---------------------------------------------------------------- 64-bit ends of blocks

  /** A range end of zero stands for the top of the address space. */
  function Top(end: Word): nat {
    if end == 0 then WORD else end
  }

  /** An address ANDed with a mask like PMD_MASK, size being a power of two. */
  function AlignDown(a: nat, size: nat): (r: nat)
    requires size > 0
    ensures r <= a < r + size
  {
    DivMod(a, size);
    MulMono(0, a / size, size);
    a - a % size
  }

  /** pgd_addr_end and its siblings, in 64-bit arithmetic. */
  function AddrEnd(level: nat, addr: Word, end: Word): Word {
    var sum := (addr + Size(level)) % WORD;
    var boundary := AlignDown(sum, Size(level));
    if Before(boundary) < Before(end) then boundary else end
  }

  /** The address minus one, wrapping around at zero. */
  function Before(a: Word): Word {
    (a + WORD - 1) % WORD
  }

  function BlockStart(level: nat, addr: nat): nat {
    AlignDown(addr, Size(level))
  }

  /** The first address past the block of addr. */
  function BlockEnd(level: nat, addr: nat): nat {
    BlockStart(level, addr) + Size(level)
  }

  lemma SizeDividesWord(level: nat)
    requires level <= 4
    ensures WORD % Size(level) == 0 && Size(level) <= WORD
    ensures Size(0) == 0x1000 && Size(1) == 0x20_0000 && Size(2) == 0x4000_0000
    ensures Size(3) == 0x80_0000_0000 && Size(4) == 0x1_0000_0000_0000 && Size(5) == 0x200_0000_0000_0000
  {
    assert Size(1) == 512 * Size(0) && Size(2) == 512 * Size(1) && Size(3) == 512 * Size(2);
    assert Size(4) == 512 * Size(3) && Size(5) == 512 * Size(4);
  }

  /** Wrap-around included, the end computed is the nearer of the block end and the range end. */
  lemma AddrEndIsMin(level: nat, addr: Word, end: Word)
    requires level <= 4 && addr < Top(end)
    ensures Top(AddrEnd(level, addr, end)) == Min(BlockEnd(level, addr), Top(end))
    ensures addr < BlockEnd(level, addr) <= WORD
  {
    hide *;
    var s := Size(level);
    assert s <= WORD && WORD % s == 0 by { SizeDividesWord(level); }
    NearerEnd(level, addr, end, s);
  }

  lemma NearerEnd(level: nat, addr: Word, end: Word, s: nat)
    requires s == Size(level) && s <= WORD && WORD % s == 0 && addr < Top(end)
    ensures Top(AddrEnd(level, addr, end)) == Min(BlockEnd(level, addr), Top(end))
    ensures addr < BlockEnd(level, addr) <= WORD
  {
    hide Size, AlignDown, Before;
    BoundaryWraps(addr, s);
    BeforeIsLast(AlignDown((addr + s) % WORD, s));
    BeforeIsLast(end);
  }

  lemma BeforeIsLast(a: Word)
    ensures Before(a) == Top(a) - 1
  {
  }

  lemma BoundaryWraps(addr: Word, s: nat)
    requires 0 < s <= WORD && WORD % s == 0
    ensures var b := AlignDown(addr, s) + s;
      addr < b <= WORD && AlignDown((addr + s) % WORD, s) == if b == WORD then 0 else b
  {
    if addr + s < WORD {
      assert (addr + s) % s == addr % s by { AddSize(addr, s); }
    } else {
      var d := addr + s - WORD;
      assert d % s == d by { Quotient(d, s, 0, d); }
      assert addr % s == d by { BeforeTop(addr, WORD, s); }
    }
  }

  lemma AddSize(a: nat, s: nat)
    requires s > 0
    ensures (a + s) % s == a % s
  {
    DivMod(a, s);
    Distribute(a / s, 1, s);
    Quotient(a + s, s, a / s + 1, a % s);
  }

  lemma BeforeTop(a: nat, top: nat, s: nat)
    requires 0 < s <= top && top % s == 0 && top - s <= a < top
    ensures a % s == a - (top - s)
  {
    DivMod(top, s);
    MulMono(top / s, 0, s);
    Distribute(top / s - 1, 1, s);
    Quotient(a, s, top / s - 1, a - (top - s));
  }

  // ---------------------------------------------------------------- division facts

  lemma DivMod(a: nat, s: nat)
    requires s > 0
    ensures a == (a / s) * s + a % s && 0 <= a % s < s
  {
    assert s * (a / s) == (a / s) * s;
  }

  lemma Distribute(a: int, b: int, s: int)
    ensures (a + b) * s == a * s + b * s
  {
  }

  lemma MulMono(a: nat, b: nat, s: nat)
    ensures a <= b ==> a * s <= b * s
  {
    if a <= b { Distribute(a, b - a, s); }
  }

  lemma Quotient(a: nat, s: nat, q: nat, r: nat)
    requires r < s && a == q * s + r
    ensures a / s == q && a % s == r
  {
    assert s * q == q * s;
    UniqueRemainder(a, s, q, r);
  }

  lemma DivDiv(a: nat, s: nat)
    requires s > 0
    ensures a / (ENTRIES * s) == (a / s) / ENTRIES
  {
    var q := a / s;
    DivMod(a, s);
    var h, l := q / ENTRIES, q % ENTRIES;
    assert q == h * ENTRIES + l;
    Distribute(h * ENTRIES, l, s);
    assert h * ENTRIES * s == h * (ENTRIES * s);
    MulMono(l, ENTRIES - 1, s);
    Distribute(ENTRIES - 1, 1, s);
    Quotient(a, ENTRIES * s, h, l * s + a % s);
  }

  // ---------------------------------------------------------------- blocks and indices

  /** Inside one table, the entry used and the block are the same thing. */
  lemma IndexIsBlock(level: nat, va: nat, a: nat)
    ensures SameBlock(level, va, a) ==> SameBlock(level + 1, va, a)
    ensures SameBlock(level + 1, va, a) ==> (Index(va, level) == Index(a, level) <==> SameBlock(level, va, a))
  {
    DivDiv(va, Size(level));
    DivDiv(a, Size(level));
  }

  /** Stepping to the next block steps to the next entry, unless the table ends. */
  lemma NextEntry(level: nat, a: nat)
    ensures var b := BlockEnd(level, a);
      b <= BlockEnd(level + 1, a) && b / Size(level) == a / Size(level) + 1 && b % Size(level) == 0
      && (b < BlockEnd(level + 1, a) ==> SameBlock(level + 1, b, a) && Index(b, level) == Index(a, level) + 1)
      && (b == BlockEnd(level + 1, a) ==> Index(a, level) == ENTRIES - 1)
  {
    var s := Size(level);
    var q := a / s;
    var h := q / ENTRIES;
    BlockEndQuotient(level, a);
    BlockEndQuotient(level + 1, a);
    var b := (q + 1) * s;
    DivDiv(a, s);
    DivDiv(b, s);
    Quotient(b, s, q + 1, 0);
    Regroup(h + 1, ENTRIES, s);
    MulStrict(q + 1, (h + 1) * ENTRIES, s);
  }

  lemma BlockEndQuotient(level: nat, a: nat)
    ensures BlockEnd(level, a) == (a / Size(level) + 1) * Size(level)
    ensures BlockStart(level, a) == a / Size(level) * Size(level)
  {
    DivMod(a, Size(level));
    Distribute(a / Size(level), 1, Size(level));
  }

  lemma MulStrict(a: nat, b: nat, s: nat)
    requires s > 0
    ensures a < b <==> a * s < b * s
    ensures a == b <==> a * s == b * s
  {
    if a < b {
      Distribute(a, b - a, s);
      MulAtLeast(s, b - a);
    } else if b < a {
      Distribute(b, a - b, s);
      MulAtLeast(s, a - b);
    }
  }

  lemma Regroup(a: int, b: int, c: int)
    ensures a * (b * c) == (a * b) * c
  {
  }

  /** A block is an interval. */
  lemma BlockInterval(level: nat, va: nat, a: nat)
    ensures SameBlock(level, va, a) <==> BlockStart(level, a) <= va < BlockEnd(level, a)
  {
    var s := Size(level);
    var q := a / s;
    BlockEndQuotient(level, a);
    DivMod(va, s);
    Distribute(q, 1, s);
    MulMono(q, va / s, s);
    MulMono(va / s + 1, q, s);
    Distribute(va / s, 1, s);
    MulMono(q + 1, va / s, s);
  }
}
