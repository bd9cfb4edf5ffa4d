/** The window of a slot as a machine's memory has it, and the pages of the arena behind it. */
module StackMemory {
  import opened Memory
  import opened PageTables
  import opened RangeWalks
  import opened Arena
  import opened ArenaTranslation
  import opened ArenaRuns
  import opened ArenaBytes
  import opened Wrappers

  /** The content of a page that holds the bytes from a on: 0 is all zeroes. */
  function PageValue(mem: Mem, a: nat): nat {
    FromBytes(Read(mem, a, PAGE_SIZE))
  }

  /** The pages of the window of slot id, in order. */
  function WindowPages(mem: Mem, id: nat): (r: seq<nat>)
    ensures |r| == PAGES && forall k :: 0 <= k < PAGES ==> r[k] == PageValue(mem, IdToAddr(id) + k * PAGE_SIZE)
  {
    seq(PAGES, k requires 0 <= k < PAGES => PageValue(mem, IdToAddr(id) + k * PAGE_SIZE))
  }

  /** The byte at an address of allocator h's address space, read through its page tables. */
  ghost function ByteThrough(s: State, h: nat, va: nat): Option<nat>
    requires h in s.allocs && s.allocs[h].mm in s.spaces && IsTable(s.spaces[s.allocs[h].mm], PGD)
  {
    match Walk(s.spaces[s.allocs[h].mm], PGD, va)
    case None => None
    case Some(p) => if p in s.content then Some(ByteAt(s.content[p], va % PAGE_SIZE)) else None
  }

  /** The page tables show in the window of the slot what the machine's memory has there. */
  ghost predicate Backed(mem: Mem, s: State, h: nat, id: nat) {
    && h in s.allocs && s.allocs[h].mm in s.spaces && IsTable(s.spaces[s.allocs[h].mm], PGD)
    && forall va: nat :: InWindow(id, va) ==> ByteThrough(s, h, va) == Some(Get(mem, va))
  }

  lemma PageByte(mem: Mem, a: nat, off: nat)
    requires off < PAGE_SIZE
    ensures ByteAt(PageValue(mem, a), off) == Get(mem, a + off)
  {
    var bs := Read(mem, a, PAGE_SIZE);
    BytesOfFromBytes(bs);
    assert Bytes(FromBytes(bs), PAGE_SIZE)[off] == bs[off];
  }

  lemma PlaceOnPage(id: nat, va: nat)
    requires InWindow(id, va)
    ensures 0 <= PageOf(id, va) < PAGES && va == IdToAddr(id) + PageOf(id, va) * PAGE_SIZE + va % PAGE_SIZE
  {
  }

  lemma ListPage(s: State, h: nat, id: nat, va: nat)
    requires HasStack(s, h, id) && s.allocs[h].slots[id].list in s.lists && InWindow(id, va)
    ensures 0 <= PageOf(id, va) < PAGES && Target(s, h, id, va) in s.content
    ensures s.content[Target(s, h, id, va)] == StackBytes(s, h, id)[PageOf(id, va)]
  {
    PlaceOnPage(id, va);
  }

  /** Every address of the window is on the page of the slot's list with its number. */
  lemma WindowPage(s: State, h: nat, id: nat, va: nat)
    requires WindowsOk(s) && HasStack(s, h, id) && InWindow(id, va)
    ensures s.allocs[h].mm in s.spaces && IsTable(s.spaces[s.allocs[h].mm], PGD) && 0 <= PageOf(id, va) < PAGES
    ensures ByteThrough(s, h, va) == Some(ByteAt(StackBytes(s, h, id)[PageOf(id, va)], va % PAGE_SIZE))
  {
    WalkHits(s, h, id, va);
    ListPage(s, h, id, va);
    assert s.allocs[h].mm in s.spaces && IsTable(s.spaces[s.allocs[h].mm], PGD) by { hide WindowsOk, IsTable; }
    hide WindowsOk, Walk, IsTable, ByteAt, Target, InWindow, PageOf, HasStack, StackBytes;
  }

  lemma StackByte(s: State, h: nat, id: nat, va: nat, mem: Mem)
    requires WindowsOk(s) && HasStack(s, h, id) && InWindow(id, va) && StackBytes(s, h, id) == WindowPages(mem, id)
    ensures h in s.allocs && s.allocs[h].mm in s.spaces && IsTable(s.spaces[s.allocs[h].mm], PGD)
    ensures ByteThrough(s, h, va) == Some(Get(mem, va))
  {
    var k := PageOf(id, va);
    PlaceOnPage(id, va);
    PageByte(mem, IdToAddr(id) + k * PAGE_SIZE, va % PAGE_SIZE);
    WindowPage(s, h, id, va);
    hide WindowsOk, ByteThrough, IsTable, ByteAt, PageValue, Get, InWindow, PageOf, IdToAddr, StackBytes;
  }

  lemma PagesBack(s: State, h: nat, id: nat, mem: Mem)
    requires WindowsOk(s) && HasStack(s, h, id) && StackBytes(s, h, id) == WindowPages(mem, id)
    ensures Backed(mem, s, h, id)
  {
    hide WindowsOk, HasStack, StackBytes, ByteThrough, IsTable;
    StackByte(s, h, id, IdToAddr(id), mem);
    forall va: nat | InWindow(id, va) ensures ByteThrough(s, h, va) == Some(Get(mem, va)) {
      StackByte(s, h, id, va, mem);
    }
  }

  lemma InvariantWindows(s: State)
    requires Invariant(s)
    ensures WindowsOk(s)
  {
    hide WindowsOk;
  }

  /**
    A thread's memory and its slot, over any run of the arena that does not free the slot: if the
    thread's own stores in it are what has changed in its window, then the page tables show the
    window as the thread has left it, whatever the other threads did.
   */
  lemma RunBacks(before: seq<Action>, steps: seq<Action>, h: nat, id: nat, mem: Mem, mem': Mem)
    requires CanRun(Initial(), before) && CanRun(Run(Initial(), before), steps)
    requires var s := Run(Initial(), before);
      && h in s.allocs && id in s.allocs[h].slots && s.allocs[h].slots[id].Live? && NeverFreed(s, steps, h, id)
      && HasStack(s, h, id) && StackBytes(s, h, id) == WindowPages(mem, id)
    requires AllStored(WindowPages(mem, id), steps, h, id) == WindowPages(mem', id)
    ensures var s := Run(Initial(), before); var d := Run(s, steps);
      Backed(mem, s, h, id) && Backed(mem', d, h, id) && HasStack(d, h, id) && StackBytes(d, h, id) == WindowPages(mem', id)
  {
    InitiallyInvariant();
    var s := Run(Initial(), before);
    hide *;
    InvariantHolds(Initial(), before);
    InvariantHolds(s, steps);
    InvariantWindows(s);
    InvariantWindows(Run(s, steps));
    StackIsOwnStores(before, steps, h, id);
    PagesBack(s, h, id, mem);
    PagesBack(Run(s, steps), h, id, mem');
  }

  /** The page tables show a word at an address, least significant byte first. */
  ghost predicate ShowsWord(s: State, h: nat, a: nat, w: nat) {
    && h in s.allocs && s.allocs[h].mm in s.spaces && IsTable(s.spaces[s.allocs[h].mm], PGD)
    && forall b: nat :: b < 8 ==> ByteThrough(s, h, a + b) == Some(ByteAt(w, b))
  }

  lemma BackedWord(mem: Mem, s: State, h: nat, id: nat, a: nat)
    requires Backed(mem, s, h, id) && InWindow(id, a) && InWindow(id, a + 7)
    ensures ShowsWord(s, h, a, ReadWord(mem, a))
  {
    hide ByteThrough, IsTable;
    var bs := Read(mem, a, 8);
    BytesOfFromBytes(bs);
    forall b: nat | b < 8 ensures ByteThrough(s, h, a + b) == Some(ByteAt(ReadWord(mem, a), b)) {
      assert Bytes(FromBytes(bs), 8)[b] == bs[b];
    }
  }
}
