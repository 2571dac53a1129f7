/** The 32-bit key hash that serialised documents are read back by. */
module KeyHash {

  type Byte = n: nat | n < 256
  type Word = n: nat | n < 0x1_0000_0000

  /** The program computes with `char`, whose sign the platform decides: a negative one is
      widened with ones. */
  datatype CharKind = SignedChar | UnsignedChar

  function Widen(c: Byte, kind: CharKind): Word {
    if kind.SignedChar? && c >= 128 then c + 0xffff_ff00 else c
  }

  /** Bitwise exclusive or of the lowest `bits` bits. */
  function Xor(a: nat, b: nat, bits: nat): nat {
    if bits == 0 then 0 else 2 * Xor(a / 2, b / 2, bits - 1) + (a + b) % 2
  }

  function Xor32(a: Word, b: Word): Word {
    XorFits(a, b, 32);
    assert Pow2(32) == 0x1_0000_0000 by { Pow2Of32(); }
    Xor(a, b, 32)
  }

  /** Unsigned multiplication wraps. */
  function Multiply(hash: Word): Word {
    (hash * 16777619) % 0x1_0000_0000
  }

  const OffsetBasis: Word := 2166136261

  function Step(hash: Word, c: Byte, kind: CharKind): Word {
    Multiply(Xor32(hash, Widen(c, kind)))
  }

  function Pow2(n: nat): nat {
    if n == 0 then 1 else 2 * Pow2(n - 1)
  }

  lemma Pow2Of32()
    ensures Pow2(32) == 0x1_0000_0000
  {
    assert Pow2(4) == 16 && Pow2(8) == 256 && Pow2(12) == 4096 && Pow2(16) == 65536;
    assert Pow2(20) == 1048576 && Pow2(24) == 16777216 && Pow2(28) == 268435456;
  }

  lemma {:induction false} XorFits(a: nat, b: nat, bits: nat)
    ensures Xor(a, b, bits) < Pow2(bits)
  {
    if bits > 0 {
      XorFits(a / 2, b / 2, bits - 1);
    }
  }

  /** The bytes of a C string, up to the first NUL. */
  function Cut(s: seq<Byte>): (r: seq<Byte>)
    ensures 0 !in r && r <= s
    ensures |r| == |s| || s[|r|] == 0
  {
    if s == [] || s[0] == 0 then [] else [s[0]] + Cut(s[1..])
  }

  function HashFrom(hash: Word, s: seq<Byte>, kind: CharKind): Word
    decreases |s|
  {
    if s == [] then hash else HashFrom(Step(hash, s[0], kind), s[1..], kind)
  }

  /** The hash of a key: of its bytes up to the first NUL. */
  function HashOf(s: seq<Byte>, kind: CharKind): Word {
    HashFrom(OffsetBasis, Cut(s), kind)
  }

  /** `memory` is what `str` points into; a C string has a NUL. */
  method HashOfCString(memory: seq<Byte>, kind: CharKind) returns (hash: Word)
    requires 0 in memory
    ensures hash == HashOf(memory, kind)
  {
    hash := OffsetBasis;
    var str := 0;
    while memory[str] != 0
      invariant 0 <= str < |memory| && 0 in memory[str..]
      invariant HashFrom(hash, Cut(memory[str..]), kind) == HashOf(memory, kind)
      decreases |memory| - str
    {
      ghost var left := memory[str..];
      assert left[1..] == memory[str + 1..] && Cut(left) == [left[0]] + Cut(left[1..]);
      hash := Step(hash, memory[str], kind);
      str := str + 1;
    }
  }

  // ---------------------------------------------------------------- separation

  lemma RemainderOf(z: int, n: nat, m: nat)
    requires n < m
    ensures (z * m + n) % m == n
  {
    var q := (z * m + n) / m;
    assert (q - z) * m == n - (z * m + n) % m;
    if q != z {
      Multiple(q - z, m);
      assert false;
    }
  }

  lemma Multiple(d: int, m: nat)
    requires d != 0
    ensures d * m >= m || d * m <= 0 - m
  {
  }

  /** The multiplier is odd, so it has an inverse modulo two to the 32. */
  lemma MultiplyHasInverse(x: Word)
    ensures (Multiply(x) * 899433627) % 0x1_0000_0000 == x
  {
    var q := (x * 16777619) / 0x1_0000_0000;
    assert Multiply(x) == x * 16777619 - q * 0x1_0000_0000;
    assert Multiply(x) * 899433627 == (3513497 * x - q * 899433627) * 0x1_0000_0000 + x;
    RemainderOf(3513497 * x - q * 899433627, x, 0x1_0000_0000);
  }

  lemma MultiplyIsInjective(x: Word, y: Word)
    ensures Multiply(x) == Multiply(y) <==> x == y
  {
    MultiplyHasInverse(x);
    MultiplyHasInverse(y);
    hide Multiply;
  }

  lemma {:induction false} XorIsInjective(a: nat, b: nat, x: nat, bits: nat)
    requires a < Pow2(bits) && b < Pow2(bits)
    ensures Xor(a, x, bits) == Xor(b, x, bits) <==> a == b
  {
    if bits > 0 {
      XorIsInjective(a / 2, b / 2, x / 2, bits - 1);
      LowestBit(Xor(a / 2, x / 2, bits - 1), Xor(b / 2, x / 2, bits - 1), a, b, x);
    }
  }

  lemma LowestBit(u: nat, v: nat, a: nat, b: nat, x: nat)
    ensures 2 * u + (a + x) % 2 == 2 * v + (b + x) % 2 <==> u == v && a % 2 == b % 2
    ensures a == b <==> a / 2 == b / 2 && a % 2 == b % 2
  {
  }

  lemma {:induction false} XorCommutes(a: nat, x: nat, bits: nat)
    ensures Xor(a, x, bits) == Xor(x, a, bits)
  {
    if bits > 0 {
      XorCommutes(a / 2, x / 2, bits - 1);
    }
  }

  lemma Xor32IsInjective(a: Word, b: Word, x: Word)
    ensures Xor32(a, x) == Xor32(b, x) <==> a == b
    ensures Xor32(a, x) == Xor32(x, a)
  {
    hide Xor;
    hide Pow2;
    Pow2Of32();
    XorIsInjective(a, b, x, 32);
    XorCommutes(a, x, 32);
  }

  /** One step loses nothing of the running hash, and nothing of the byte. */
  lemma StepIsInjective(g: Word, h: Word, c: Byte, d: Byte, kind: CharKind)
    ensures Step(g, c, kind) == Step(h, c, kind) <==> g == h
    ensures Step(g, c, kind) == Step(g, d, kind) <==> c == d
  {
    hide Multiply;
    hide Xor32;
    var x, y := Widen(c, kind), Widen(d, kind);
    MultiplyIsInjective(Xor32(g, x), Xor32(h, x));
    MultiplyIsInjective(Xor32(g, x), Xor32(g, y));
    Xor32IsInjective(g, h, x);
    Xor32IsInjective(x, y, g);
    Xor32IsInjective(y, x, g);
  }

  /** A common suffix keeps different running hashes different. */
  lemma {:induction false} SuffixIsInjective(g: Word, h: Word, s: seq<Byte>, kind: CharKind)
    ensures HashFrom(g, s, kind) == HashFrom(h, s, kind) <==> g == h
    decreases |s|
  {
    if s != [] {
      StepIsInjective(g, h, s[0], s[0], kind);
      SuffixIsInjective(Step(g, s[0], kind), Step(h, s[0], kind), s[1..], kind);
    }
  }

  lemma {:induction false} HashConcat(h: Word, a: seq<Byte>, b: seq<Byte>, kind: CharKind)
    ensures HashFrom(h, a + b, kind) == HashFrom(HashFrom(h, a, kind), b, kind)
    decreases |a|
  {
    if a == [] {
      assert a + b == b;
    } else {
      HashConcat(Step(h, a[0], kind), a[1..], b, kind);
      assert (a + b)[1..] == a[1..] + b;
    }
  }

  lemma {:induction false} CutIsWhole(s: seq<Byte>)
    requires 0 !in s
    ensures Cut(s) == s
  {
    if s != [] {
      CutIsWhole(s[1..]);
    }
  }

  /** Two keys with a common suffix have the same hash exactly if what is before it has. */
  lemma CommonSuffix(a: seq<Byte>, b: seq<Byte>, suffix: seq<Byte>, kind: CharKind)
    requires 0 !in a && 0 !in b && 0 !in suffix
    ensures HashOf(a + suffix, kind) == HashOf(b + suffix, kind) <==> HashOf(a, kind) == HashOf(b, kind)
  {
    CutIsWhole(a + suffix);
    CutIsWhole(b + suffix);
    CutIsWhole(a);
    CutIsWhole(b);
    HashConcat(OffsetBasis, a, suffix, kind);
    HashConcat(OffsetBasis, b, suffix, kind);
    SuffixIsInjective(HashFrom(OffsetBasis, a, kind), HashFrom(OffsetBasis, b, kind), suffix, kind);
  }

  /** Key separation: keys of equal length that differ in exactly one byte never share a
      hash, whatever the sign of `char`. */
  lemma OneByteApart(a: seq<Byte>, b: seq<Byte>, k: nat, kind: CharKind)
    requires 0 !in a && 0 !in b && |a| == |b| && k < |a| && a[k] != b[k]
    requires forall j :: 0 <= j < |a| && j != k ==> a[j] == b[j]
    ensures HashOf(a, kind) != HashOf(b, kind)
  {
    var front, tail := a[..k], a[k + 1..];
    assert a == front + [a[k]] + tail && b == front + [b[k]] + tail;
    CommonSuffix(front + [a[k]], front + [b[k]], tail, kind);
    CutIsWhole(front + [a[k]]);
    CutIsWhole(front + [b[k]]);
    HashConcat(OffsetBasis, front, [a[k]], kind);
    HashConcat(OffsetBasis, front, [b[k]], kind);
    var g := HashFrom(OffsetBasis, front, kind);
    assert HashFrom(g, [a[k]], kind) == Step(g, a[k], kind) && HashFrom(g, [b[k]], kind) == Step(g, b[k], kind);
    StepIsInjective(g, g, a[k], b[k], kind);
  }

  /** What follows a NUL does not matter. */
  lemma HashStopsAtNul(s: seq<Byte>, kind: CharKind)
    ensures HashOf(Cut(s), kind) == HashOf(s, kind)
  {
    CutIsWhole(Cut(s));
  }

  // ---------------------------------------------------------------- what the hash is

  /** Bit `i` of `a`. */
  function Bit(a: nat, i: nat): nat {
    if i == 0 then a % 2 else Bit(a / 2, i - 1)
  }

  lemma {:induction false} XorBits(a: nat, b: nat, bits: nat, i: nat)
    requires i < bits
    ensures Bit(Xor(a, b, bits), i) == (Bit(a, i) + Bit(b, i)) % 2
  {
    var upper := Xor(a / 2, b / 2, bits - 1);
    Halves(upper, (a + b) % 2);
    assert Xor(a, b, bits) == 2 * upper + (a + b) % 2;
    if i > 0 {
      XorBits(a / 2, b / 2, bits - 1, i - 1);
    } else {
      Parity(a, b);
    }
  }

  lemma Halves(upper: nat, bit: nat)
    requires bit < 2
    ensures (2 * upper + bit) / 2 == upper && (2 * upper + bit) % 2 == bit
  {
  }

  lemma Parity(a: nat, b: nat)
    ensures (a + b) % 2 == (a % 2 + b % 2) % 2
  {
  }

  /** The empty key has the offset basis of 32-bit FNV-1a, and so has what starts with a NUL. */
  lemma EmptyKey(s: seq<Byte>, kind: CharKind)
    ensures HashOf([], kind) == 2166136261 && HashOf([0] + s, kind) == 2166136261
  {
    assert Cut([0] + s) == [];
  }

  /** One more byte: `x` is the hash so far with the byte, widened as a negative `char` is if
      it is one, exclusive-ored into it bit by bit; then comes the multiplication. With the
      hash of the empty key this says what the hash of every key is. */
  lemma OneMoreByte(s: seq<Byte>, c: Byte, kind: CharKind) returns (x: Word)
    requires 0 !in s && c != 0
    ensures forall i :: 0 <= i < 32 ==>
              var widened := if kind.SignedChar? && c >= 128 then 4294967296 - (256 - c) else c;
              Bit(x, i) == (Bit(HashOf(s, kind), i) + Bit(widened, i)) % 2
    ensures HashOf(s + [c], kind) == x * 16777619 % 4294967296
  {
    x := Xor32(HashOf(s, kind), Widen(c, kind));
    forall i | 0 <= i < 32
      ensures Bit(x, i) == (Bit(HashOf(s, kind), i) + Bit(Widen(c, kind), i)) % 2
    {
      XorBits(HashOf(s, kind), Widen(c, kind), 32, i);
    }
    hide Xor;
    CutIsWhole(s);
    CutIsWhole(s + [c]);
    HashConcat(OffsetBasis, s, [c], kind);
    assert HashFrom(HashOf(s, kind), [c], kind) == Step(HashOf(s, kind), c, kind);
  }
}
