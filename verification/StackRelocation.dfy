/**
  relocate_stack: moving the initial process stack of the System V ABI (AMD64 supplement, sections
  3.4.1 and 3.4.3) to a new region, and adding the distance to every pointer into it.
 */
module StackRelocation {
  import opened Words
  import opened Memory

  const STACK_SIZE: nat := 0x80_0000
  const AT_BASE: Word := 7
  const AT_PLATFORM: Word := 15
  const AT_RANDOM: Word := 25
  const AT_EXECFN: Word := 31

  datatype Aux = Aux(kind: Word, value: Word)

  /** What a process finds on its stack: arguments, environment, auxiliary vector. */
  datatype Image = Image(argv: seq<Word>, envp: seq<Word>, auxv: seq<Aux>)

  /** The kinds whose value the code takes for a pointer into the stack. */
  predicate Patched(kind: Word) {
    kind == AT_BASE || kind == AT_PLATFORM || kind == AT_RANDOM || kind == AT_EXECFN
  }

  // ---------------------------------------------------------------- the layout

  predicate WordIs(m: Mem, a: nat, w: Word) {
    ReadWord(m, a) == w
  }

  predicate Entry(m: Mem, a: nat, i: nat, w: Word) {
    WordIs(m, a + 8 * i, w)
  }

  /** A null-terminated vector of pointers. */
  predicate Vector(m: Mem, a: nat, ps: seq<Word>) {
    Entry(m, a, |ps|, 0) && forall i :: 0 <= i < |ps| ==> ps[i] != 0 && Entry(m, a, i, ps[i])
  }

  predicate AuxIs(m: Mem, a: nat, x: Aux) {
    x.kind != 0 && WordIs(m, a, x.kind) && WordIs(m, a + 8, x.value)
  }

  predicate AuxEntry(m: Mem, a: nat, i: nat, x: Aux) {
    AuxIs(m, a + 16 * i, x)
  }

  predicate Auxv(m: Mem, a: nat, xs: seq<Aux>) {
    WordIs(m, a + 16 * |xs|, 0) && forall i :: 0 <= i < |xs| ==> AuxEntry(m, a, i, xs[i])
  }

  function EnvpAt(rsp: nat, im: Image): nat {
    rsp + 8 + 8 * (|im.argv| + 1)
  }

  function AuxvAt(rsp: nat, im: Image): nat {
    EnvpAt(rsp, im) + 8 * (|im.envp| + 1)
  }

  /** The end of the vectors: the information block starts here. */
  function InfoAt(rsp: nat, im: Image): nat {
    AuxvAt(rsp, im) + 16 * (|im.auxv| + 1)
  }

  predicate Shows(m: Mem, rsp: nat, im: Image) {
    Vector(m, rsp + 8, im.argv) && Vector(m, EnvpAt(rsp, im), im.envp) && Auxv(m, AuxvAt(rsp, im), im.auxv)
  }

  /** The length of the string at a is n. */
  predicate NulAt(m: Mem, a: nat, n: nat) {
    Get(m, a + n) == 0 && forall x :: a <= x < a + n ==> Get(m, x) != 0
  }

  predicate StringAt(m: Mem, a: nat, s: seq<byte>) {
    NulAt(m, a, |s|) && forall i :: 0 <= i < |s| ==> Get(m, a + i) == s[i]
  }

  /** Pointers the scan looks at, and those of them that point to strings. */
  predicate Points(im: Image, p: Word) {
    p in im.argv || p in im.envp || exists i :: 0 <= i < |im.auxv| && Patched(im.auxv[i].kind) && im.auxv[i].value == p
  }

  predicate PointsToString(im: Image, p: Word) {
    || p in im.argv || p in im.envp
    || exists i :: 0 <= i < |im.auxv| && (im.auxv[i].kind == AT_PLATFORM || im.auxv[i].kind == AT_EXECFN) && im.auxv[i].value == p
  }

  // ---------------------------------------------------------------- the scan

  /** The highest pointer so far, and whether it is the one to the AT_RANDOM bytes. */
  datatype High = High(m: Word, random: bool)

  function Highest(start: Word, ps: seq<Word>): Word {
    if ps == [] then start else
      var h, p := Highest(start, ps[..|ps| - 1]), ps[|ps| - 1];
      if p <= h then h else p
  }

  function HighestAux(start: High, xs: seq<Aux>): High {
    if xs == [] then start else
      var h, x := HighestAux(start, xs[..|xs| - 1]), xs[|xs| - 1];
      if Patched(x.kind) && x.value > h.m then High(x.value, x.kind == AT_RANDOM) else h
  }

  function Scanned(im: Image): High {
    HighestAux(High(Highest(Highest(0, im.argv), im.envp), false), im.auxv)
  }

  lemma {:induction false} HighestIs(start: Word, ps: seq<Word>)
    ensures var h := Highest(start, ps); h >= start && (h == start || h in ps) && forall p :: p in ps ==> p <= h
  {
    if ps != [] {
      HighestIs(start, ps[..|ps| - 1]);
      assert ps == ps[..|ps| - 1] + [ps[|ps| - 1]];
    }
  }

  lemma {:induction false} HighestAuxIs(start: High, xs: seq<Aux>)
    ensures var h := HighestAux(start, xs);
      && h.m >= start.m && (forall i :: 0 <= i < |xs| && Patched(xs[i].kind) ==> xs[i].value <= h.m)
      && (h == start || exists i :: 0 <= i < |xs| && Patched(xs[i].kind) && h == High(xs[i].value, xs[i].kind == AT_RANDOM))
  {
    if xs != [] {
      var most, x := xs[..|xs| - 1], xs[|xs| - 1];
      HighestAuxIs(start, most);
      var h := HighestAux(start, xs);
      if h != start && h == HighestAux(start, most) {
        var i :| 0 <= i < |most| && Patched(most[i].kind) && h == High(most[i].value, most[i].kind == AT_RANDOM);
        assert Patched(xs[i].kind) && h == High(xs[i].value, xs[i].kind == AT_RANDOM);
      }
    }
  }

  /** The scan finds the highest of all the pointers; the flag says it is the AT_RANDOM one and no string starts as high. */
  lemma ScannedIsHighest(im: Image)
    ensures var h := Scanned(im);
      && (forall p: Word :: Points(im, p) ==> p <= h.m)
      && (h.m > 0 ==> Points(im, h.m))
      && (h.m > 0 && !h.random && (forall i :: 0 <= i < |im.auxv| ==> im.auxv[i].kind != AT_BASE) ==> PointsToString(im, h.m))
  {
    HighestIs(0, im.argv);
    HighestIs(Highest(0, im.argv), im.envp);
    HighestAuxIs(High(Highest(Highest(0, im.argv), im.envp), false), im.auxv);
  }

  // ---------------------------------------------------------------- bytes, words and moving them

  /** The bytes of [a, a + n) in one memory are those of [b, b + n) in another. */
  ghost predicate SameBytes(m: Mem, a: nat, m': Mem, b: nat, n: nat) {
    forall k: nat :: k < n ==> SameByte(m, a, m', b, k)
  }

  predicate SameByte(m: Mem, a: nat, m': Mem, b: nat, k: nat) {
    Get(m, a + k) == Get(m', b + k)
  }

  lemma SameWord(m: Mem, a: nat, m': Mem, b: nat, n: nat, d: nat)
    requires SameBytes(m, a, m', b, n) && d + 8 <= n
    ensures ReadWord(m, a + d) == ReadWord(m', b + d)
  {
    var now, was := Read(m', b + d, 8), Read(m, a + d, 8);
    forall k | 0 <= k < 8 ensures now[k] == was[k] {
      assert SameByte(m, a, m', b, d + k);
    }
    assert now == was;
  }

  /** Copied bytes show the same image at the new place. */
  lemma ImageMoves(m: Mem, rsp: nat, m': Mem, dest: nat, n: nat, im: Image)
    requires SameBytes(m, rsp, m', dest, n) && Shows(m, rsp, im) && InfoAt(rsp, im) - rsp <= n
    ensures Shows(m', dest, im) && ReadWord(m', dest) == ReadWord(m, rsp)
  {
    hide ReadWord, SameBytes;
    VectorMoves(m, rsp, m', dest, n, 8, im.argv);
    VectorMoves(m, rsp, m', dest, n, EnvpAt(rsp, im) - rsp, im.envp);
    AuxvMoves(m, rsp, m', dest, n, AuxvAt(rsp, im) - rsp, im.auxv);
    SameWord(m, rsp, m', dest, n, 0);
  }

  lemma VectorMoves(m: Mem, a: nat, m': Mem, b: nat, n: nat, d: nat, ps: seq<Word>)
    requires SameBytes(m, a, m', b, n) && Vector(m, a + d, ps) && d + 8 * (|ps| + 1) <= n
    ensures Vector(m', b + d, ps)
  {
    hide ReadWord, SameBytes;
    SameWord(m, a, m', b, n, d + 8 * |ps|);
    forall i | 0 <= i < |ps| ensures Entry(m', b + d, i, ps[i]) {
      SameWord(m, a, m', b, n, d + 8 * i);
    }
  }

  lemma AuxvMoves(m: Mem, a: nat, m': Mem, b: nat, n: nat, d: nat, xs: seq<Aux>)
    requires SameBytes(m, a, m', b, n) && Auxv(m, a + d, xs) && d + 16 * (|xs| + 1) <= n
    ensures Auxv(m', b + d, xs)
  {
    hide ReadWord, SameBytes;
    SameWord(m, a, m', b, n, d + 16 * |xs|);
    forall i | 0 <= i < |xs| ensures AuxEntry(m', b + d, i, xs[i]) {
      SameWord(m, a, m', b, n, d + 16 * i);
      SameWord(m, a, m', b, n, d + 16 * i + 8);
      assert AuxEntry(m, a + d, i, xs[i]);
    }
  }

  /** A string between the bounds of the copy reads the same at its new place. */
  lemma StringMoves(m: Mem, m': Mem, p: nat, q: nat, s: seq<byte>)
    requires SameBytes(m, p, m', q, |s| + 1) && StringAt(m, p, s)
    ensures StringAt(m', q, s)
  {
    forall x | q <= x < q + |s| ensures Get(m', x) != 0 && Get(m', x) == s[x - q] {
      assert SameByte(m, p, m', q, x - q);
      assert Get(m, p + (x - q)) == s[x - q];
    }
    assert SameByte(m, p, m', q, |s|);
  }

  // ---------------------------------------------------------------- what relocation makes of an image

  function Shift(ps: seq<Word>, delta: Word): (r: seq<Word>)
    ensures |r| == |ps| && forall i :: 0 <= i < |ps| ==> r[i] == Sum(ps[i], delta)
  {
    seq(|ps|, i requires 0 <= i < |ps| => Sum(ps[i], delta))
  }

  function ShiftOne(x: Aux, delta: Word): Aux {
    if Patched(x.kind) then Aux(x.kind, Sum(x.value, delta)) else x
  }

  function ShiftAux(xs: seq<Aux>, delta: Word): (r: seq<Aux>)
    ensures |r| == |xs| && forall i :: 0 <= i < |xs| ==> r[i] == ShiftOne(xs[i], delta)
  {
    seq(|xs|, i requires 0 <= i < |xs| => ShiftOne(xs[i], delta))
  }

  function Moved(im: Image, delta: Word): Image {
    Image(Shift(im.argv, delta), Shift(im.envp, delta), ShiftAux(im.auxv, delta))
  }

  /** The memory of the process and the loops over it. */
  class Process {
    var mem: Mem

    constructor (m: Mem)
      ensures mem == m
    {
      mem := m;
    }

    /** _scan_argv and _scan_envp. */
    method ScanVector(r8: nat, rdi: Word, ghost ps: seq<Word>) returns (next: nat, high: Word)
      requires Vector(mem, r8, ps)
      ensures next == r8 + 8 * (|ps| + 1) && high == Highest(rdi, ps)
    {
      hide ReadWord;
      next, high := r8, rdi;
      ghost var i := 0;
      while true
        invariant i <= |ps| && next == r8 + 8 * i && high == Highest(rdi, ps[..i])
        decreases |ps| - i
      {
        assert Entry(mem, r8, i, if i < |ps| then ps[i] else 0);
        var r9 := ReadWord(mem, next);
        if r9 == 0 { break; }
        if r9 > high { high := r9; }
        next := next + 8;
        assert ps[..i + 1][..i] == ps[..i];
        i := i + 1;
      }
      assert ps[..i] == ps;
      next := next + 8;
    }

    /** _scan_auxv. */
    method ScanAuxv(r8: nat, rdi: Word, ghost xs: seq<Aux>) returns (next: nat, high: Word, random: bool)
      requires Auxv(mem, r8, xs)
      ensures next == r8 + 16 * (|xs| + 1) && High(high, random) == HighestAux(High(rdi, false), xs)
    {
      hide ReadWord;
      next, high, random := r8, rdi, false;
      ghost var i := 0;
      while true
        invariant i <= |xs| && next == r8 + 16 * i && High(high, random) == HighestAux(High(rdi, false), xs[..i])
        decreases |xs| - i
      {
        assert if i < |xs| then AuxEntry(mem, r8, i, xs[i]) else WordIs(mem, r8 + 16 * i, 0);
        var r9 := ReadWord(mem, next);
        if r9 == 0 { break; }
        if r9 == AT_BASE || r9 == AT_PLATFORM || r9 == AT_RANDOM || r9 == AT_EXECFN {
          var r10 := ReadWord(mem, next + 8);
          if r10 > high { high, random := r10, r9 == AT_RANDOM; }
        }
        next := next + 16;
        assert xs[..i + 1][..i] == xs[..i];
        i := i + 1;
      }
      assert xs[..i] == xs;
      next := next + 16;
    }

    /** repne scasb for a zero byte: just past the end of the string. */
    method PastString(rdi: nat, ghost n: nat) returns (r: nat)
      requires NulAt(mem, rdi, n)
      ensures r == rdi + n + 1
    {
      r := rdi;
      while Get(mem, r) != 0
        invariant rdi <= r <= rdi + n
        decreases rdi + n - r
      {
        r := r + 1;
      }
      r := r + 1;
    }

    /** rep movsb, forwards, between ranges that do not meet. */
    method Copy(rsi: nat, rdi: nat, rcx: nat)
      requires rsi + rcx <= rdi || rdi + rcx <= rsi
      modifies this
      ensures SameBytes(old(mem), rsi, mem, rdi, rcx)
      ensures forall x: nat :: !(rdi <= x < rdi + rcx) ==> Get(mem, x) == Get(old(mem), x)
    {
      var k := 0;
      while k < rcx
        invariant k <= rcx && SameBytes(old(mem), rsi, mem, rdi, k)
        invariant forall x: nat :: !(rdi <= x < rdi + k) ==> Get(mem, x) == Get(old(mem), x)
      {
        ghost var was := mem;
        mem := Put(mem, rdi + k, Get(mem, rsi + k));
        k := k + 1;
        forall j: nat | j < k ensures SameByte(old(mem), rsi, mem, rdi, j) {
          assert j < k - 1 ==> SameByte(old(mem), rsi, was, rdi, j);
        }
      }
    }

    /** _patch_argv and _patch_envp. */
    method PatchVector(r10: nat, r9: Word, ghost ps: seq<Word>) returns (next: nat)
      requires Vector(mem, r10, ps) && forall i :: 0 <= i < |ps| ==> Sum(ps[i], r9) != 0
      modifies this
      ensures Vector(mem, r10, Shift(ps, r9)) && next == r10 + 8 * (|ps| + 1)
      ensures forall x: nat :: !(r10 <= x < r10 + 8 * |ps|) ==> Get(mem, x) == Get(old(mem), x)
    {
      hide ReadWord, WriteWord;
      next := r10;
      ghost var i := 0;
      while true
        invariant i <= |ps| && next == r10 + 8 * i && Entry(mem, r10, |ps|, 0)
        invariant forall j :: i <= j < |ps| ==> Entry(mem, r10, j, ps[j])
        invariant forall j :: 0 <= j < i ==> Entry(mem, r10, j, Sum(ps[j], r9))
        invariant forall x: nat :: !(r10 <= x < r10 + 8 * |ps|) ==> Get(mem, x) == Get(old(mem), x)
        decreases |ps| - i
      {
        assert Entry(mem, r10, i, if i < |ps| then ps[i] else 0);
        var r11 := ReadWord(mem, next);
        if r11 == 0 { break; }
        PatchOne(mem, r10, i, |ps|, Sum(r11, r9));
        mem := WriteWord(mem, next, Sum(r11, r9));
        next := next + 8;
        i := i + 1;
      }
      next := next + 8;
    }

    /** _patch_auxv. */
    method PatchAuxv(r10: nat, r9: Word, ghost xs: seq<Aux>)
      requires Auxv(mem, r10, xs)
      modifies this
      ensures Auxv(mem, r10, ShiftAux(xs, r9))
      ensures forall x: nat :: !(r10 <= x < r10 + 16 * |xs|) ==> Get(mem, x) == Get(old(mem), x)
    {
      hide ReadWord, WriteWord;
      var next := r10;
      ghost var i := 0;
      while true
        invariant i <= |xs| && next == r10 + 16 * i && WordIs(mem, r10 + 16 * |xs|, 0)
        invariant forall j :: i <= j < |xs| ==> AuxEntry(mem, r10, j, xs[j])
        invariant forall j :: 0 <= j < i ==> AuxEntry(mem, r10, j, ShiftOne(xs[j], r9))
        invariant forall x: nat :: !(r10 <= x < r10 + 16 * |xs|) ==> Get(mem, x) == Get(old(mem), x)
        decreases |xs| - i
      {
        assert if i < |xs| then AuxEntry(mem, r10, i, xs[i]) else WordIs(mem, r10 + 16 * i, 0);
        var r11 := ReadWord(mem, next);
        if r11 == 0 { break; }
        if r11 == AT_BASE || r11 == AT_PLATFORM || r11 == AT_RANDOM || r11 == AT_EXECFN {
          var value := Sum(ReadWord(mem, next + 8), r9);
          PatchOneAux(mem, r10, i, |xs|, xs[i].kind, value);
          mem := WriteWord(mem, next + 8, value);
        }
        next := next + 16;
        i := i + 1;
      }
    }

    /** The scan of all three vectors, and the end of what the highest pointer points to. */
    method FindEnd(rsp: Word, ghost im: Image, ghost n: nat) returns (end: nat)
      requires LaidOut(mem, rsp, im, n)
      ensures end + 1 == rsp + CopySize(rsp, im, n)
    {
      hide ReadWord, Vector, Auxv, NulAt;
      CopyCovers(mem, rsp, im, n);
      var r8, rdi := ScanVector(rsp + 8, 0, im.argv);
      r8, rdi := ScanVector(r8, rdi, im.envp);
      var random;
      r8, rdi, random := ScanAuxv(r8, rdi, im.auxv);
      assert High(rdi, random) == Scanned(im);
      if random {
        end := rdi + 16;
      } else {
        end := PastString(rdi, n);
      }
    }

    /** The three patch loops. */
    method PatchAll(rax: Word, r9: Word, ghost im: Image)
      requires Shows(mem, rax, im) && NonNull(im, r9)
      modifies this
      ensures Shows(mem, rax, Moved(im, r9)) && SameOutside(old(mem), mem, rax + 8, InfoAt(rax, im))
    {
      hide Vector, Auxv;
      var r10 := PatchVector(rax + 8, r9, im.argv);
      var argvEnd := rax + 8 + 8 * |im.argv|;
      VectorStays(old(mem), mem, rax + 8, argvEnd, EnvpAt(rax, im), im.envp);
      AuxvStays(old(mem), mem, rax + 8, argvEnd, AuxvAt(rax, im), im.auxv);
      ghost var first := mem;
      r10 := PatchVector(r10, r9, im.envp);
      VectorStays(first, mem, EnvpAt(rax, im), AuxvAt(rax, im) - 8, rax + 8, Shift(im.argv, r9));
      AuxvStays(first, mem, EnvpAt(rax, im), AuxvAt(rax, im) - 8, AuxvAt(rax, im), im.auxv);
      ghost var second := mem;
      PatchAuxv(r10, r9, im.auxv);
      VectorStays(second, mem, AuxvAt(rax, im), InfoAt(rax, im), rax + 8, Shift(im.argv, r9));
      VectorStays(second, mem, AuxvAt(rax, im), InfoAt(rax, im), EnvpAt(rax, im), Shift(im.envp, r9));
    }

    /**
      relocate_stack up to the switch of stacks: the image found at the new stack pointer is the
      old one with the distance added to its pointers, every string that ends inside the copy reads
      the same at its new address, all of it is inside the region, and nothing else is touched.
     */
    method RelocateStack(rsp: Word, base: Word, ghost im: Image, ghost n: nat) returns (rax: Word)
      requires LaidOut(mem, rsp, im, n) && Fits(rsp, base, CopySize(rsp, im, n))
      modifies this
      ensures rax % 16 == 0 && base <= rax && rax + CopySize(rsp, im, n) <= base + STACK_SIZE
      ensures Shows(mem, rax, Moved(im, Distance(rsp, rax))) && ReadWord(mem, rax) == ReadWord(old(mem), rsp)
      ensures forall p: Word, s: seq<byte> ::
        PointsToString(im, p) && StringAt(old(mem), p, s) && InfoAt(rsp, im) <= p && InsideCopy(rsp, im, n, p + |s|) ==>
          StringAt(mem, Sum(p, Distance(rsp, rax)), s)
      ensures forall x: nat :: InfoAt(rsp, im) <= x < rsp + CopySize(rsp, im, n) ==> Get(mem, x - rsp + rax) == Get(old(mem), x)
      ensures forall x: nat :: !(rax <= x < rax + CopySize(rsp, im, n)) ==> Get(mem, x) == Get(old(mem), x)
    {
      hide ReadWord, Shows, NulAt, StringAt, Scanned, CopySize, Points, PointsToString, Moved, InfoAt;
      CopyCovers(mem, rsp, im, n);
      InfoShift(rsp, base, im);
      var end := FindEnd(rsp, im, n);
      var rcx := end - rsp + 1;
      rax := base + STACK_SIZE - rcx;
      rax := rax - rax % 16;
      Copy(rsp, rax, rcx);
      ghost var copied := mem;
      InfoShift(rsp, rax, im);
      ImageMoves(old(mem), rsp, mem, rax, rcx, im);
      var r9 := Distance(rsp, rax);
      PointersMove(rsp, rax, im);
      PatchAll(rax, r9, im);
      WordStays(copied, mem, rax, rax + 8);
      InfoMoved(old(mem), copied, mem, rsp, rax, im, rcx);
      StringsMoved(old(mem), mem, rsp, rax, im, n);
    }
  }

  predicate NonNull(im: Image, delta: Word) {
    && (forall i :: 0 <= i < |im.argv| ==> Sum(im.argv[i], delta) != 0)
    && (forall i :: 0 <= i < |im.envp| ==> Sum(im.envp[i], delta) != 0)
  }

  lemma InfoShift(rsp: nat, rax: nat, im: Image)
    ensures InfoAt(rsp, im) - rsp == InfoAt(rax, im) - rax >= 8
  {
  }

  lemma PatchOneAux(m: Mem, a: nat, i: nat, n: nat, kind: Word, w: Word)
    requires i < n
    ensures var m' := WriteWord(m, a + 16 * i + 8, w);
      && (WordIs(m, a + 16 * i, kind) && kind != 0 ==> AuxEntry(m', a, i, Aux(kind, w)))
      && (forall j: nat, x: Aux :: j < n && j != i && AuxEntry(m, a, j, x) ==> AuxEntry(m', a, j, x))
      && (WordIs(m, a + 16 * n, 0) ==> WordIs(m', a + 16 * n, 0))
      && (forall x: nat :: !(a <= x < a + 16 * n) ==> Get(m', x) == Get(m, x))
  {
    hide ReadWord;
    var at := a + 16 * i + 8;
    ReadWritten(m, at, w);
    WordElsewhere(m, at, w, a + 16 * i);
    WordElsewhere(m, at, w, a + 16 * n);
    forall j: nat, x: Aux | j < n && j != i && AuxEntry(m, a, j, x)
      ensures AuxEntry(WriteWord(m, at, w), a, j, x)
    {
      WordElsewhere(m, at, w, a + 16 * j);
      WordElsewhere(m, at, w, a + 16 * j + 8);
    }
  }

  // ---------------------------------------------------------------- what is asked of the stack and the region

  /** The bytes copied: up to the last one of what the highest pointer points to, and one more. */
  function CopySize(rsp: nat, im: Image, n: nat): nat {
    var h := Scanned(im);
    var end := if h.random then h.m + 16 else h.m + n + 1;
    if rsp <= end then end - rsp + 1 else 0
  }

  /**
    An initial stack: vectors first, then what they point to; the highest pointer is above the
    vectors, and n the length of the string there unless it is the AT_RANDOM one.
   */
  ghost predicate LaidOut(m: Mem, rsp: Word, im: Image, n: nat) {
    var h := Scanned(im);
    && Shows(m, rsp, im) && InfoAt(rsp, im) <= h.m
    && (forall p: Word :: p in im.argv || p in im.envp ==> InfoAt(rsp, im) <= p)
    && (!h.random ==> NulAt(m, h.m, n))
    && rsp + CopySize(rsp, im, n) <= LIMIT
  }

  /** The new region: page-aligned, in user space, apart from what is copied, and large enough. */
  predicate Fits(rsp: Word, base: Word, size: nat) {
    && base % 16 == 0 && base + STACK_SIZE <= LIMIT && size <= STACK_SIZE
    && (base + STACK_SIZE <= rsp || rsp + size <= base)
  }

  /** The distance between the stacks, modulo 2^64. */
  function Distance(rsp: Word, rax: Word): Word {
    if rsp <= rax then rax - rsp else rax + WORD - rsp
  }

  lemma PlusDistance(p: Word, rsp: Word, rax: Word)
    requires rsp <= p && p - rsp + rax < WORD
    ensures Sum(p, Distance(rsp, rax)) == p - rsp + rax
  {
  }

  lemma PointersMove(rsp: Word, rax: Word, im: Image)
    requires forall p: Word :: p in im.argv || p in im.envp ==> rsp < p <= LIMIT
    requires rax < LIMIT
    ensures NonNull(im, Distance(rsp, rax))
  {
    forall i | 0 <= i < |im.argv| ensures Sum(im.argv[i], Distance(rsp, rax)) != 0 {
      assert im.argv[i] in im.argv;
    }
    forall i | 0 <= i < |im.envp| ensures Sum(im.envp[i], Distance(rsp, rax)) != 0 {
      assert im.envp[i] in im.envp;
    }
  }

  /** The copy takes in the vectors and every pointer. */
  lemma CopyCovers(m: Mem, rsp: Word, im: Image, n: nat)
    requires LaidOut(m, rsp, im, n)
    ensures InfoAt(rsp, im) < rsp + CopySize(rsp, im, n)
    ensures forall p: Word :: Points(im, p) ==> p < rsp + CopySize(rsp, im, n)
    ensures forall p: Word :: p in im.argv || p in im.envp ==> rsp < p <= LIMIT
    ensures rsp + CopySize(rsp, im, n) == 1 + if Scanned(im).random then Scanned(im).m + 16 else Scanned(im).m + n + 1
  {
    hide Shows, NulAt, Scanned;
    ScannedIsHighest(im);
    forall p: Word | p in im.argv || p in im.envp ensures rsp < p <= LIMIT {
      assert Points(im, p);
    }
  }

  /** A string pointed to ends inside the copy, except if the AT_RANDOM bytes lie highest and it goes on past them. */
  lemma StringsCovered(m: Mem, rsp: Word, im: Image, n: nat, p: Word, k: nat)
    requires LaidOut(m, rsp, im, n) && PointsToString(im, p) && NulAt(m, p, k)
    ensures InsideCopy(rsp, im, n, p + k) <==> !Scanned(im).random || p + k <= Scanned(im).m + 16
  {
    hide Shows, Scanned;
    ScannedIsHighest(im);
    CopyCovers(m, rsp, im, n);
    StringPoints(im, p);
    var h := Scanned(im);
    if !h.random { NulFirst(m, p, k, h.m + n); }
  }

  /** The byte at x is copied, or lies below the copy. */
  predicate InsideCopy(rsp: Word, im: Image, n: nat, x: nat) {
    x < rsp + CopySize(rsp, im, n)
  }

  lemma NulFirst(m: Mem, p: nat, k: nat, q: nat)
    requires NulAt(m, p, k) && p <= q && Get(m, q) == 0
    ensures p + k <= q
  {
  }

  lemma StringPoints(im: Image, p: Word)
    ensures PointsToString(im, p) ==> Points(im, p)
  {
  }

  function WriteWords(m: Mem, a: nat, ws: seq<Word>): Mem {
    if ws == [] then m else WriteWord(WriteWords(m, a, ws[..|ws| - 1]), a + 8 * (|ws| - 1), ws[|ws| - 1])
  }

  predicate WordsAt(m: Mem, a: nat, ws: seq<Word>) {
    forall i :: 0 <= i < |ws| ==> WordIs(m, a + 8 * i, ws[i])
  }

  lemma {:induction false} WordsWritten(m: Mem, a: nat, ws: seq<Word>)
    ensures WordsAt(WriteWords(m, a, ws), a, ws)
    ensures forall x: nat :: a + 8 * |ws| <= x ==> Get(WriteWords(m, a, ws), x) == Get(m, x)
  {
    hide ReadWord;
    if ws != [] {
      var most := WriteWords(m, a, ws[..|ws| - 1]);
      WordsWritten(m, a, ws[..|ws| - 1]);
      forall i | 0 <= i < |ws| ensures WordIs(WriteWords(m, a, ws), a + 8 * i, ws[i]) {
        if i == |ws| - 1 {
          ReadWritten(most, a + 8 * i, ws[i]);
        } else {
          WordElsewhere(most, a + 8 * (|ws| - 1), ws[|ws| - 1], a + 8 * i);
          assert WordIs(most, a + 8 * i, ws[..|ws| - 1][i]);
        }
      }
    }
  }

  lemma WordAt(m: Mem, a: nat, ws: seq<Word>, i: nat, at: nat)
    requires WordsAt(m, a, ws) && i < |ws| && at == a + 8 * i
    ensures WordIs(m, at, ws[i])
  {
    hide WordIs;
  }

  lemma WordsBelow(m: Mem, a: nat, ws: seq<Word>, p: nat, bs: seq<byte>)
    requires WordsAt(m, a, ws) && a + 8 * |ws| <= p
    ensures WordsAt(Memory.Write(m, p, bs), a, ws)
  {
    hide ReadWord, Memory.Write;
    forall i | 0 <= i < |ws| ensures WordIs(Memory.Write(m, p, bs), a + 8 * i, ws[i]) {
      WordAt(m, a, ws, i, a + 8 * i);
      ReadElsewhere(m, p, bs, a + 8 * i);
    }
  }

  /** The words of a stack with the name of the program at p, the AT_RANDOM bytes at r, and no arguments or environment. */
  function NameAndRandom(p: Word, r: Word): seq<Word> {
    [0, 0, AT_EXECFN, p, AT_RANDOM, r, 0]
  }

  lemma NameAndRandomShown(m: Mem, rsp: Word, p: Word, r: Word) returns (im: Image)
    requires WordsAt(m, rsp + 8, NameAndRandom(p, r))
    ensures im == Image([], [], [Aux(AT_EXECFN, p), Aux(AT_RANDOM, r)]) && Shows(m, rsp, im)
  {
    im := Image([], [], [Aux(AT_EXECFN, p), Aux(AT_RANDOM, r)]);
    var ws := NameAndRandom(p, r);
    hide WordIs, WordsAt;
    WordAt(m, rsp + 8, ws, 0, rsp + 8);
    WordAt(m, rsp + 8, ws, 1, rsp + 16);
    WordAt(m, rsp + 8, ws, 2, rsp + 24);
    WordAt(m, rsp + 8, ws, 3, rsp + 32);
    WordAt(m, rsp + 8, ws, 4, rsp + 40);
    WordAt(m, rsp + 8, ws, 5, rsp + 48);
    WordAt(m, rsp + 8, ws, 6, rsp + 56);
  }

  lemma RandomHighest(p: Word, r: Word)
    requires 0 < p < r
    ensures Scanned(Image([], [], [Aux(AT_EXECFN, p), Aux(AT_RANDOM, r)])) == High(r, true)
  {
    var xs := [Aux(AT_EXECFN, p), Aux(AT_RANDOM, r)];
    assert xs[..1] == [xs[0]] && xs[..1][..0] == [];
    assert HighestAux(High(0, false), xs[..1]) == High(p, false);
  }

  lemma StringWritten(m: Mem, p: nat, n: nat)
    requires Get(m, p + n) == 0
    ensures NulAt(Memory.Write(m, p, seq(n, i => 97)), p, n)
  {
  }

  /** A stack on which a string is cut: the name of the program goes on past the AT_RANDOM bytes, which lie highest. */
  lemma StringCut(rsp: Word) returns (m: Mem, im: Image, p: Word, k: nat)
    requires rsp + 0x1000 <= LIMIT
    ensures LaidOut(m, rsp, im, 0) && PointsToString(im, p) && NulAt(m, p, k) && !InsideCopy(rsp, im, 0, p + k)
  {
    p, k := rsp + 72, 18;
    var ws := NameAndRandom(p, p + 1);
    var words := WriteWords(map[], rsp + 8, ws);
    WordsWritten(map[], rsp + 8, ws);
    m := Memory.Write(words, p, seq(k, i => 97));
    StringWritten(words, p, k);
    WordsBelow(words, rsp + 8, ws, p, seq(k, i => 97));
    im := NameAndRandomShown(m, rsp, p, p + 1);
    RandomHighest(p, p + 1);
    hide Shows, Scanned, WordIs, WordsAt, NulAt, Memory.Write, WriteWords, ReadWord;
    assert im.auxv[0] == Aux(AT_EXECFN, p);
  }

  /** Memory the same outside a range keeps the vectors and words outside it. */
  ghost predicate SameOutside(m: Mem, m': Mem, lo: nat, hi: nat) {
    forall x: nat :: !(lo <= x < hi) ==> Get(m', x) == Get(m, x)
  }

  lemma OutsideBytes(m: Mem, m': Mem, lo: nat, hi: nat, a: nat, n: nat)
    requires SameOutside(m, m', lo, hi) && (a + n <= lo || hi <= a)
    ensures SameBytes(m, a, m', a, n)
  {
  }

  lemma VectorStays(m: Mem, m': Mem, lo: nat, hi: nat, a: nat, ps: seq<Word>)
    requires SameOutside(m, m', lo, hi) && (a + 8 * (|ps| + 1) <= lo || hi <= a) && Vector(m, a, ps)
    ensures Vector(m', a, ps)
  {
    hide Vector, SameBytes, SameOutside;
    OutsideBytes(m, m', lo, hi, a, 8 * (|ps| + 1));
    VectorMoves(m, a, m', a, 8 * (|ps| + 1), 0, ps);
  }

  lemma AuxvStays(m: Mem, m': Mem, lo: nat, hi: nat, a: nat, xs: seq<Aux>)
    requires SameOutside(m, m', lo, hi) && (a + 16 * (|xs| + 1) <= lo || hi <= a) && Auxv(m, a, xs)
    ensures Auxv(m', a, xs)
  {
    hide Auxv, SameBytes, SameOutside;
    OutsideBytes(m, m', lo, hi, a, 16 * (|xs| + 1));
    AuxvMoves(m, a, m', a, 16 * (|xs| + 1), 0, xs);
  }

  lemma WordStays(m: Mem, m': Mem, a: nat, lo: nat)
    requires (forall x: nat :: x < lo ==> Get(m', x) == Get(m, x)) && a + 8 <= lo
    ensures ReadWord(m', a) == ReadWord(m, a)
  {
    assert Read(m', a, 8) == Read(m, a, 8);
  }

  lemma InfoMoved(m: Mem, copied: Mem, m': Mem, rsp: Word, rax: Word, im: Image, size: nat)
    requires SameBytes(m, rsp, copied, rax, size) && SameOutside(copied, m', rax + 8, InfoAt(rax, im))
    ensures forall x: nat :: InfoAt(rsp, im) <= x < rsp + size ==> Get(m', x - rsp + rax) == Get(m, x)
  {
    forall x: nat | InfoAt(rsp, im) <= x < rsp + size
      ensures Get(m', x - rsp + rax) == Get(m, x)
    {
      assert SameByte(m, rsp, copied, rax, x - rsp);
    }
  }

  lemma StringsMoved(m: Mem, m': Mem, rsp: Word, rax: Word, im: Image, n: nat)
    requires LaidOut(m, rsp, im, n) && rax + CopySize(rsp, im, n) <= LIMIT
    requires forall x: nat :: InfoAt(rsp, im) <= x < rsp + CopySize(rsp, im, n) ==> Get(m', x - rsp + rax) == Get(m, x)
    ensures forall p: Word, s: seq<byte> ::
      PointsToString(im, p) && StringAt(m, p, s) && InfoAt(rsp, im) <= p && InsideCopy(rsp, im, n, p + |s|) ==>
        StringAt(m', Sum(p, Distance(rsp, rax)), s)
  {
    hide PointsToString, LaidOut, CopySize, InfoAt;
    forall p: Word, s: seq<byte> | PointsToString(im, p) && StringAt(m, p, s) && InfoAt(rsp, im) <= p && InsideCopy(rsp, im, n, p + |s|)
      ensures StringAt(m', Sum(p, Distance(rsp, rax)), s)
    {
      InfoAbove(rsp, im);
      PlusDistance(p, rsp, rax);
      var q := p - rsp + rax;
      forall k: nat | k < |s| + 1 ensures SameByte(m, p, m', q, k) {
        assert Get(m', (p + k) - rsp + rax) == Get(m, p + k);
      }
      StringMoves(m, m', p, q, s);
    }
  }

  lemma InfoAbove(rsp: nat, im: Image)
    ensures rsp < InfoAt(rsp, im)
  {
  }

  /** Writing one word of a vector leaves the others and all else alone. */
  lemma PatchOne(m: Mem, a: nat, i: nat, n: nat, w: Word)
    requires i < n
    ensures var m' := WriteWord(m, a + 8 * i, w);
      && Entry(m', a, i, w)
      && (forall j: nat, v: Word :: j <= n && j != i && Entry(m, a, j, v) ==> Entry(m', a, j, v))
      && (forall x: nat :: !(a <= x < a + 8 * n) ==> Get(m', x) == Get(m, x))
  {
    hide ReadWord;
    ReadWritten(m, a + 8 * i, w);
    forall j: nat, v: Word | j <= n && j != i && Entry(m, a, j, v)
      ensures Entry(WriteWord(m, a + 8 * i, w), a, j, v)
    {
      WordElsewhere(m, a + 8 * i, w, a + 8 * j);
    }
  }
}
