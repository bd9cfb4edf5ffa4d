/** setup_memory: the gaps of the address space, the window chosen in one of them, and the reservation of the others. */
module Mapping {
  const BASE: nat := 0x7000_0000_0000
  const CEIL: nat := 0x7fff_ffff_ffff
  const PAGE: nat := 4096

  datatype Area = Area(lo: nat, hi: nat)

  predicate In(a: Area, x: nat) {
    a.lo <= x < a.hi
  }

  predicate InSome(areas: seq<Area>, x: nat) {
    exists i :: 0 <= i < |areas| && In(areas[i], x)
  }

  /** The lines of /proc/self/maps: non-empty, by address; they may overlap. */
  predicate MapsOk(maps: seq<Area>) {
    && (forall i :: 0 <= i < |maps| ==> 0 < maps[i].lo < maps[i].hi)
    && (forall i, j :: 0 <= i < j < |maps| ==> maps[i].lo <= maps[j].lo)
  }

  predicate PageAligned(maps: seq<Area>) {
    forall i :: 0 <= i < |maps| ==> maps[i].lo % PAGE == 0 && maps[i].hi % PAGE == 0
  }

  // ---------------------------------------------------------------- gaps

  /** A maximal stretch of [BASE, CEIL) without a mapping. */
  ghost predicate IsGap(maps: seq<Area>, g: Area) {
    && BASE <= g.lo < g.hi <= CEIL
    && (forall x: nat :: In(g, x) ==> !InSome(maps, x))
    && (g.lo == BASE || InSome(maps, g.lo - 1))
    && (g.hi == CEIL || InSome(maps, g.hi))
  }

  /** Highest first, with something between any two. */
  predicate Descending(list: seq<Area>) {
    forall i, j :: 0 <= i < j < |list| ==> list[j].hi < list[i].lo
  }

  /** The list holds the gaps below prev, and no more. */
  ghost predicate GapsBelow(maps: seq<Area>, list: seq<Area>, prev: nat) {
    && Descending(list)
    && (forall i :: 0 <= i < |list| ==> IsGap(maps, list[i]) && list[i].hi < prev)
    && (forall x: nat :: BASE <= x < prev && x < CEIL && !InSome(maps, x) ==> InSome(list, x))
  }

  /** All the gaps, in descending order. */
  ghost predicate AllGaps(maps: seq<Area>, list: seq<Area>) {
    && Descending(list)
    && (forall i :: 0 <= i < |list| ==> IsGap(maps, list[i]))
    && (forall x: nat :: BASE <= x < CEIL && !InSome(maps, x) ==> InSome(list, x))
  }

  /** prev_hi: the end of the mappings seen so far. */
  ghost predicate EndOf(maps: seq<Area>, n: nat, prev: nat) {
    && n <= |maps| && prev >= BASE
    && (prev == BASE || exists k :: 0 <= k < n && maps[k].hi == prev)
    && (forall k :: 0 <= k < n && maps[k].lo <= CEIL ==> maps[k].hi <= prev)
  }

  lemma GapFree(maps: seq<Area>, n: nat, prev: nat, hi: nat, k: nat, x: nat)
    requires MapsOk(maps) && EndOf(maps, n, prev) && k < |maps| && prev <= x < hi <= CEIL
    requires EndsAt(maps, n, hi)
    ensures !In(maps[k], x)
  {
  }

  /** The line that comes next, or the end of the space. */
  predicate EndsAt(maps: seq<Area>, n: nat, hi: nat) {
    if n < |maps| then hi == maps[n].lo else hi == CEIL
  }

  lemma NewGap(maps: seq<Area>, n: nat, prev: nat, hi: nat)
    requires MapsOk(maps) && EndOf(maps, n, prev) && prev < hi <= CEIL && EndsAt(maps, n, hi)
    ensures IsGap(maps, Area(prev, hi))
  {
    var g := Area(prev, hi);
    if prev != BASE {
      var k :| 0 <= k < n && maps[k].hi == prev;
      assert In(maps[k], prev - 1);
    }
    if hi != CEIL { assert In(maps[n], hi); }
    hide EndOf, MapsOk;
    forall x: nat | In(g, x) ensures !InSome(maps, x) {
      forall k | 0 <= k < |maps| ensures !In(maps[k], x) {
        GapFree(maps, n, prev, hi, k, x);
      }
    }
  }

  /** The list with the new gap in front. */
  lemma GapsWith(maps: seq<Area>, list: seq<Area>, prev: nat, hi: nat)
    requires GapsBelow(maps, list, prev) && prev < hi
    ensures var now := [Area(prev, hi)] + list;
      Descending(now) && forall x: nat :: BASE <= x < hi && x < CEIL && !InSome(maps, x) ==> InSome(now, x)
  {
    var now := [Area(prev, hi)] + list;
    hide IsGap;
    forall x: nat | BASE <= x < hi && x < CEIL && !InSome(maps, x) ensures InSome(now, x) {
      if x < prev {
        var i :| 0 <= i < |list| && In(list[i], x);
        assert In(now[i + 1], x);
      } else {
        assert In(now[0], x);
      }
    }
  }

  predicate AlignedGaps(list: seq<Area>) {
    forall i :: 0 <= i < |list| ==> Rounded(list[i].lo) && (Rounded(list[i].hi) || list[i].hi == CEIL)
  }

  predicate Rounded(a: nat) {
    a % 16 == 0
  }

  lemma LineAligned(maps: seq<Area>, list: seq<Area>, n: nat, prev: nat)
    requires PageAligned(maps) && n < |maps| && AlignedGaps(list) && Rounded(prev)
    ensures AlignedGaps([Area(prev, maps[n].lo)] + list) && Rounded(maps[n].hi)
  {
    PageRounded(maps[n].lo);
    PageRounded(maps[n].hi);
    assert maps[n].lo % PAGE == 0 && maps[n].hi % PAGE == 0;
    hide PageAligned, Rounded;
  }

  lemma PageRounded(a: nat)
    ensures a % PAGE == 0 ==> Rounded(a)
  {
  }

  lemma LastAligned(list: seq<Area>, prev: nat)
    requires AlignedGaps(list) && Rounded(prev)
    ensures AlignedGaps([Area(prev, CEIL)] + list)
  {
    hide Rounded;
  }

  lemma NoLines(maps: seq<Area>)
    ensures EndOf(maps, 0, BASE) && GapsBelow(maps, [], BASE) && AlignedGaps([]) && Rounded(BASE)
  {
  }

  lemma AfterLine(maps: seq<Area>, list: seq<Area>, n: nat, prev: nat)
    requires MapsOk(maps) && n < |maps| && EndOf(maps, n, prev) && GapsBelow(maps, list, prev)
    ensures var m := maps[n]; var next := if m.lo <= CEIL && m.hi > prev then m.hi else prev;
      var now := if m.lo <= CEIL && m.lo > prev then [Area(prev, m.lo)] + list else list;
      EndOf(maps, n + 1, next) && GapsBelow(maps, now, next)
  {
    var m := maps[n];
    EndAfter(maps, n, prev);
    assert 0 < m.lo < m.hi;
    hide EndOf, GapsBelow, MapsOk;
    if m.lo <= CEIL {
      if m.lo > prev {
        NewGap(maps, n, prev, m.lo);
        GapsGrow(maps, list, n, prev);
      } else {
        GapsStay(maps, list, n, prev);
      }
    }
  }

  lemma EndAfter(maps: seq<Area>, n: nat, prev: nat)
    requires n < |maps| && EndOf(maps, n, prev)
    ensures var m := maps[n]; EndOf(maps, n + 1, if m.lo <= CEIL && m.hi > prev then m.hi else prev)
  {
  }

  /** The line covers what is from its start to its end. */
  lemma GapsStay(maps: seq<Area>, list: seq<Area>, n: nat, prev: nat)
    requires n < |maps| && maps[n].lo <= prev && GapsBelow(maps, list, prev)
    ensures GapsBelow(maps, list, if maps[n].hi > prev then maps[n].hi else prev)
  {
    CoveredBy(maps, n);
    hide IsGap, Descending;
  }

  lemma GapsGrow(maps: seq<Area>, list: seq<Area>, n: nat, prev: nat)
    requires n < |maps| && prev < maps[n].lo < maps[n].hi && GapsBelow(maps, list, prev) && IsGap(maps, Area(prev, maps[n].lo))
    ensures GapsBelow(maps, [Area(prev, maps[n].lo)] + list, maps[n].hi)
  {
    CoveredBy(maps, n);
    GapsWith(maps, list, prev, maps[n].lo);
    hide IsGap, Descending;
  }

  lemma AfterLast(maps: seq<Area>, list: seq<Area>, prev: nat)
    requires MapsOk(maps) && EndOf(maps, |maps|, prev) && GapsBelow(maps, list, prev)
    ensures AllGaps(maps, if prev < CEIL then [Area(prev, CEIL)] + list else list)
  {
    if prev < CEIL {
      NewGap(maps, |maps|, prev, CEIL);
      GapsWith(maps, list, prev, CEIL);
    }
    hide IsGap, Descending, InSome, MapsOk, EndOf;
  }

  // ---------------------------------------------------------------- the window

  function Down16(a: nat): nat {
    a - a % 16
  }

  /** The highest gap with room for min bytes. */
  predicate IsChosen(list: seq<Area>, min: nat, i: nat) {
    i < |list| && list[i].hi - list[i].lo >= min && forall j :: 0 <= j < i ==> list[j].hi - list[j].lo < min
  }

  /** The two ends as the code computes them. */
  function WindowLo(g: Area, min: nat): nat
    requires min <= g.hi
  {
    Down16(if g.hi - g.lo > min then g.hi - min else g.lo)
  }

  function WindowHi(g: Area): nat {
    Down16(g.hi)
  }

  lemma Down16Is(a: nat, b: nat)
    ensures Down16(a) % 16 == 0 && Down16(a) <= a
    ensures a % 16 == 0 && a <= b ==> a <= Down16(b)
    ensures a <= b ==> Down16(a) <= Down16(b)
  {
  }

  lemma Down16Less(a: nat, b: nat)
    requires b <= a && b % 16 == 0
    ensures Down16(a - b) == Down16(a) - b
  {
  }

  /** The window is aligned and inside the gap, and for a multiple of 16 exactly as large as asked for. */
  lemma WindowFits(g: Area, min: nat)
    requires g.lo <= g.hi && min <= g.hi - g.lo && g.lo % 16 == 0 && (g.hi % 16 == 0 || g.hi == CEIL)
    ensures WindowLo(g, min) % 16 == 0 && WindowHi(g) % 16 == 0
    ensures g.lo <= WindowLo(g, min) <= WindowHi(g) <= g.hi
    ensures min % 16 == 0 ==> WindowHi(g) - WindowLo(g, min) == min
  {
    var lo := g.hi - min;
    if min % 16 == 0 { Down16Less(g.hi, min); }
    hide Down16;
    Down16Is(g.lo, lo);
    Down16Is(lo, g.hi);
    Down16Is(g.hi, g.hi);
  }

  /** For other sizes the rounding of the two ends leaves too little exactly in the top gap, whose end is not aligned. */
  lemma WindowLargeEnough(g: Area, min: nat)
    requires g.lo <= g.hi && min <= g.hi - g.lo && g.lo % 16 == 0 && (g.hi % 16 == 0 || g.hi == CEIL)
    ensures WindowHi(g) - WindowLo(g, min) >= min <==> min % 16 == 0 || g.hi != CEIL
  {
  }

  /** No mapping is in the last min bytes below the top. */
  ghost predicate TopFree(maps: seq<Area>, min: nat) {
    min <= CEIL - BASE && forall x: nat :: CEIL - min <= x < CEIL ==> !InSome(maps, x)
  }

  /** The gap chosen is the top one exactly if there is room at the top. */
  lemma TopChosen(maps: seq<Area>, list: seq<Area>, min: nat, i: nat)
    requires AllGaps(maps, list) && IsChosen(list, min, i) && min > 0
    ensures list[i].hi == CEIL <==> TopFree(maps, min)
  {
    assert IsGap(maps, list[i]);
    if list[i].hi == CEIL {
      assert forall x: nat :: CEIL - min <= x < CEIL ==> In(list[i], x);
    }
    if TopFree(maps, min) {
      assert !InSome(maps, CEIL - 1) && InSome(list, CEIL - 1);
      var j :| 0 <= j < |list| && In(list[j], CEIL - 1);
      assert IsGap(maps, list[j]);
      assert list[j].lo <= CEIL - min;
    }
  }

  /** For example, eight bytes asked for at the top of the space: the window is empty. */
  lemma EmptyWindow()
    ensures var g := Area(BASE, CEIL); WindowHi(g) - WindowLo(g, 8) == 0
  {
  }

  lemma WindowOf(maps: seq<Area>, list: seq<Area>, min: nat, i: nat)
    requires AllGaps(maps, list) && AlignedGaps(list) && IsChosen(list, min, i)
    ensures Descending(list) && min <= list[i].hi
    ensures var lo, hi := WindowLo(list[i], min), WindowHi(list[i]);
      && lo % 16 == 0 && hi % 16 == 0 && list[i].lo <= lo <= hi <= list[i].hi
      && (min % 16 == 0 ==> hi - lo == min) && (hi - lo >= min <==> min % 16 == 0 || !TopFree(maps, min))
  {
    GapIs(maps, list, i);
    WindowFits(list[i], min);
    WindowLargeEnough(list[i], min);
    if min > 0 { TopChosen(maps, list, min, i); }
    hide AllGaps, AlignedGaps, TopFree, WindowLo, WindowHi;
  }

  class Setup {
    var list: seq<Area>        // head first
    var reserved: seq<Area>    // fixed mappings made

    constructor ()
      ensures list == [] && reserved == []
    {
      list := [];
      reserved := [];
    }

    /** insert_ma. */
    method InsertMa(lo: nat, hi: nat)
      modifies this`list
      ensures list == [Area(lo, hi)] + old(list)
    {
      list := [Area(lo, hi)] + list;
    }

    /** The scan of the mappings. */
    method FindGaps(maps: seq<Area>)
      requires MapsOk(maps) && PageAligned(maps) && list == []
      modifies this`list
      ensures AllGaps(maps, list) && AlignedGaps(list)
    {
      hide EndOf, GapsBelow, AllGaps, MapsOk, PageAligned, AlignedGaps, Rounded;
      var prev: nat := BASE;
      var n: nat := 0;
      NoLines(maps);
      while n < |maps|
        invariant n <= |maps| && EndOf(maps, n, prev) && GapsBelow(maps, list, prev) && AlignedGaps(list) && Rounded(prev)
      {
        AfterLine(maps, list, n, prev);
        LineAligned(maps, list, n, prev);
        var m := maps[n];
        if m.lo <= CEIL {
          if m.lo > prev {
            InsertMa(prev, m.lo);
          }
          if m.hi > prev {
            prev := m.hi;
          }
        }
        n := n + 1;
      }
      AfterLast(maps, list, prev);
      LastAligned(list, prev);
      if prev < CEIL {
        InsertMa(prev, CEIL);
      }
    }

    /** reserve_all; works says which fixed mappings the system grants. */
    method ReserveAll(lo: nat, hi: nat, works: Area -> bool) returns (ok: bool)
      requires reserved == []
      modifies this`reserved
      ensures ok <==> forall i :: 0 <= i < |list| && Outside(list[i], lo, hi) ==> works(list[i])
      ensures ok ==> forall a :: a in reserved <==> a in list && Outside(a, lo, hi)
      ensures forall a :: a in reserved ==> a in list && Outside(a, lo, hi)
    {
      var i := 0;
      while i < |list|
        invariant i <= |list|
        invariant forall a :: a in reserved <==> a in list[..i] && Outside(a, lo, hi)
        invariant forall j :: 0 <= j < i && Outside(list[j], lo, hi) ==> works(list[j])
      {
        var p := list[i];
        if p.lo >= hi || p.hi <= lo {
          if !works(p) {
            return false;
          }
          reserved := reserved + [p];
        }
        i := i + 1;
      }
      ok := true;
    }

    /**
      setup_memory: the window is at the top of the highest gap with room for min bytes, exactly
      that large for a multiple of 16, and the fixed mappings made are all the other gaps, so
      neither the window nor an existing mapping is overlaid.
     */
    method SetupMemory(maps: seq<Area>, min: nat, works: Area -> bool) returns (found: bool, targetLo: nat, targetHi: nat)
      requires MapsOk(maps) && PageAligned(maps) && list == [] && reserved == []
      modifies this
      ensures AllGaps(maps, list)
      ensures found ==> exists i :: IsChosen(list, min, i) && Takes(list, reserved, i, targetLo, targetHi)
      ensures found ==> targetLo % 16 == 0 && targetHi % 16 == 0 && (min % 16 == 0 ==> targetHi == targetLo + min)
      ensures found ==> (targetHi - targetLo >= min <==> min % 16 == 0 || !TopFree(maps, min))
      ensures found ==> forall x: nat :: targetLo <= x < targetHi ==> !InSome(maps, x) && !InSome(reserved, x)
      ensures !found ==> (forall i :: 0 <= i < |list| ==> list[i].hi - list[i].lo < min) || exists a :: a in list && !works(a)
      ensures forall x: nat :: InSome(reserved, x) ==> !InSome(maps, x)
    {
      hide AllGaps, IsGap, Descending, Takes, TopFree;
      FindGaps(maps);
      found, targetLo, targetHi := false, 0, 0;
      var i := 0;
      while i < |list|
        invariant i <= |list| && forall j :: 0 <= j < i ==> list[j].hi - list[j].lo < min
      {
        if list[i].hi - list[i].lo >= min {
          targetLo, targetHi, found := list[i].lo, list[i].hi, true;
          break;
        }
        i := i + 1;
      }
      if found {
        GapIs(maps, list, i);
        if targetHi - targetLo > min {
          targetLo := targetHi - min;
        }
        targetLo := Down16(targetLo);
        targetHi := Down16(targetHi);
        assert targetLo == WindowLo(list[i], min) && targetHi == WindowHi(list[i]);
        WindowOf(maps, list, min, i);
        hide WindowLo, WindowHi, Down16, Outside, IsChosen, MapsOk, PageAligned, InSome, AlignedGaps;
        found := ReserveAll(targetLo, targetHi, works);
        OthersOutside(list, i, targetLo, targetHi);
        ReservedApart(maps, list, reserved, i, targetLo, targetHi);
        if found { Taken(list, reserved, i, targetLo, targetHi); }
      }
    }
  }

  predicate Outside(a: Area, lo: nat, hi: nat) {
    a.lo >= hi || a.hi <= lo
  }

  /** The window is in gap i; the other gaps are reserved, and gap i is not unless the window is empty. */
  predicate Takes(list: seq<Area>, reserved: seq<Area>, i: nat, lo: nat, hi: nat) {
    && i < |list| && list[i].lo <= lo <= hi <= list[i].hi
    && (forall a :: a in reserved ==> a in list && (lo < hi ==> a != list[i]))
    && (forall j :: 0 <= j < |list| && j != i ==> list[j] in reserved)
  }

  lemma GapIs(maps: seq<Area>, list: seq<Area>, i: nat)
    requires AllGaps(maps, list) && AlignedGaps(list) && i < |list|
    ensures list[i].lo < list[i].hi && list[i].lo % 16 == 0 && (list[i].hi % 16 == 0 || list[i].hi == CEIL) && Descending(list)
  {
    assert IsGap(maps, list[i]);
  }

  lemma Taken(list: seq<Area>, reserved: seq<Area>, i: nat, lo: nat, hi: nat)
    requires i < |list| && list[i].lo <= lo <= hi <= list[i].hi && (lo < hi ==> !Outside(list[i], lo, hi))
    requires forall j :: 0 <= j < |list| && j != i ==> Outside(list[j], lo, hi)
    requires forall a :: a in reserved <==> a in list && Outside(a, lo, hi)
    ensures Takes(list, reserved, i, lo, hi)
  {
  }

  /** What mapping n covers is in no gap still to be found. */
  lemma CoveredBy(maps: seq<Area>, n: nat)
    requires n < |maps|
    ensures forall x: nat :: maps[n].lo <= x < maps[n].hi ==> InSome(maps, x)
  {
    forall x: nat | maps[n].lo <= x < maps[n].hi ensures InSome(maps, x) {
      assert In(maps[n], x);
    }
  }

  lemma OthersOutside(list: seq<Area>, i: nat, lo: nat, hi: nat)
    requires Descending(list) && i < |list| && list[i].lo <= lo <= hi <= list[i].hi
    ensures (lo < hi ==> !Outside(list[i], lo, hi)) && forall j :: 0 <= j < |list| && j != i ==> Outside(list[j], lo, hi)
  {
  }

  lemma ReservedApart(maps: seq<Area>, list: seq<Area>, reserved: seq<Area>, i: nat, lo: nat, hi: nat)
    requires AllGaps(maps, list) && i < |list| && list[i].lo <= lo <= hi <= list[i].hi
    requires forall a :: a in reserved ==> a in list && Outside(a, lo, hi)
    ensures forall x: nat :: InSome(reserved, x) ==> !InSome(maps, x)
    ensures forall x: nat :: lo <= x < hi ==> !InSome(maps, x) && !InSome(reserved, x)
  {
    forall x: nat | InSome(reserved, x) ensures !InSome(maps, x) && !(lo <= x < hi) {
      var k :| 0 <= k < |reserved| && In(reserved[k], x);
      assert reserved[k] in reserved;
      var j :| 0 <= j < |list| && list[j] == reserved[k];
      assert IsGap(maps, list[j]);
    }
    forall x: nat | lo <= x < hi ensures !InSome(maps, x) {
      assert IsGap(maps, list[i]) && In(list[i], x);
    }
  }
}
