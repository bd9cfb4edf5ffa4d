/** Byte-addressed memory and little-endian 64-bit words in it. */
module Memory {
  import opened Words

  type byte = b: nat | b < 256

  /** Bytes never written read as zero; zero bytes are not stored, so equal contents are equal maps. */
  type Mem = m: map<nat, byte> | forall a :: a in m ==> m[a] != 0

  function Get(m: Mem, a: nat): byte {
    if a in m then m[a] else 0
  }

  function Put(m: Mem, a: nat, b: byte): (r: Mem)
    ensures forall x: nat :: Get(r, x) == if x == a then b else Get(m, x)
  {
    if b == 0 then m - {a} else m[a := b]
  }

  function Read(m: Mem, a: nat, n: nat): (r: seq<byte>)
    ensures |r| == n && forall i :: 0 <= i < n ==> r[i] == Get(m, a + i)
  {
    var f: nat -> byte := (i: nat) => Get(m, a + i);
    seq<byte>(n, f)
  }

  function Write(m: Mem, a: nat, bs: seq<byte>): (r: Mem)
    ensures forall x: nat :: Get(r, x) == if a <= x < a + |bs| then bs[x - a] else Get(m, x)
    decreases |bs|
  {
    if bs == [] then m else Write(Put(m, a, bs[0]), a + 1, bs[1..])
  }

  lemma Extensional(m1: Mem, m2: Mem)
    requires forall a: nat :: Get(m1, a) == Get(m2, a)
    ensures m1 == m2
  {
    forall a | a in m1 || a in m2
      ensures a in m1 && a in m2 && m1[a] == m2[a]
    {
      assert Get(m1, a) == Get(m2, a);
    }
  }

  function ByteAt(w: nat, i: nat): byte {
    if i == 0 then w % 256 else ByteAt(w / 256, i - 1)
  }

  /** The n low bytes of w, least significant first. */
  function Bytes(w: nat, n: nat): (r: seq<byte>)
    ensures |r| == n && forall i :: 0 <= i < n ==> r[i] == ByteAt(w, i)
  {
    var f: nat -> byte := (i: nat) => ByteAt(w, i);
    seq<byte>(n, f)
  }

  lemma BytesStep(w: nat, n: nat)
    requires n > 0
    ensures Bytes(w, n) == [w % 256] + Bytes(w / 256, n - 1)
  {
  }

  function FromBytes(bs: seq<byte>): nat {
    if bs == [] then 0 else bs[0] + 256 * FromBytes(bs[1..])
  }

  function Pow256(n: nat): nat {
    if n == 0 then 1 else 256 * Pow256(n - 1)
  }

  lemma {:induction false} FromBytesBound(bs: seq<byte>)
    ensures FromBytes(bs) < Pow256(|bs|)
  {
    if bs != [] { FromBytesBound(bs[1..]); }
  }

  lemma {:induction false} BytesRoundTrip(w: nat, n: nat)
    requires w < Pow256(n)
    ensures FromBytes(Bytes(w, n)) == w
  {
    if n > 0 {
      BytesRoundTrip(w / 256, n - 1);
      BytesStep(w, n);
      assert Bytes(w, n)[1..] == Bytes(w / 256, n - 1);
    }
  }

  lemma {:induction false} BytesOfFromBytes(bs: seq<byte>)
    ensures Bytes(FromBytes(bs), |bs|) == bs
  {
    if bs != [] {
      BytesOfFromBytes(bs[1..]);
      BytesStep(FromBytes(bs), |bs|);
      assert FromBytes(bs) % 256 == bs[0] && FromBytes(bs) / 256 == FromBytes(bs[1..]);
    }
  }

  lemma Pow256Word()
    ensures Pow256(8) == WORD
  {
    assert Pow256(4) == 0x1_0000_0000;
    assert Pow256(8) == 256 * Pow256(7) && Pow256(7) == 256 * Pow256(6) && Pow256(6) == 256 * Pow256(5);
  }

  function ReadWord(m: Mem, a: nat): Word {
    FromBytesBound(Read(m, a, 8));
    Pow256Word();
    FromBytes(Read(m, a, 8))
  }

  function WriteWord(m: Mem, a: nat, w: Word): Mem {
    Write(m, a, Bytes(w, 8))
  }

  /** Reading back a written word. */
  lemma ReadWritten(m: Mem, a: nat, w: Word)
    ensures ReadWord(WriteWord(m, a, w), a) == w
  {
    Pow256Word();
    BytesRoundTrip(w, 8);
    assert Read(WriteWord(m, a, w), a, 8) == Bytes(w, 8);
  }

  /** A write elsewhere leaves a word alone. */
  lemma ReadElsewhere(m: Mem, a: nat, bs: seq<byte>, b: nat)
    requires b + 8 <= a || a + |bs| <= b
    ensures ReadWord(Write(m, a, bs), b) == ReadWord(m, b)
  {
    assert Read(Write(m, a, bs), b, 8) == Read(m, b, 8);
  }

  lemma WordElsewhere(m: Mem, a: nat, w: Word, b: nat)
    requires b + 8 <= a || a + 8 <= b
    ensures ReadWord(WriteWord(m, a, w), b) == ReadWord(m, b)
  {
    ReadElsewhere(m, a, Bytes(w, 8), b);
  }

  /** Writing the word already there changes nothing. */
  lemma WriteSame(m: Mem, a: nat)
    ensures WriteWord(m, a, ReadWord(m, a)) == m
  {
    var bs := Read(m, a, 8);
    BytesOfFromBytes(bs);
    Extensional(WriteWord(m, a, ReadWord(m, a)), m);
  }
}
