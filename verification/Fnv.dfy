/** The key of the client cache: 32-bit FNV-1, written out over the naturals so that the wrap-around is explicit. */
module Fnv {
  const WORD := 0x1_0000_0000

  type Byte = b: nat | b < 256
  type Word = w: nat | w < WORD

  const OFFSET: Word := 2166136261

  function Pow2(n: nat): (p: nat)
    ensures p > 0
  {
    if n == 0 then 1 else 2 * Pow2(n - 1)
  }

  /** Exclusive or, bit by bit from the lowest. */
  function Xor(a: nat, b: nat): nat {
    if a == 0 && b == 0 then 0 else (a + b) % 2 + 2 * Xor(a / 2, b / 2)
  }

  lemma {:induction false} XorBound(a: nat, b: nat, n: nat)
    requires a < Pow2(n) && b < Pow2(n)
    ensures Xor(a, b) < Pow2(n)
  {
    if n > 0 { XorBound(a / 2, b / 2, n - 1); }
  }

  lemma Halved(bit: nat, rest: nat)
    requires bit < 2
    ensures (bit + 2 * rest) % 2 == bit && (bit + 2 * rest) / 2 == rest
  {
  }

  lemma XorBits(a: nat, b: nat)
    ensures Xor(a, b) % 2 == (a + b) % 2 && Xor(a, b) / 2 == Xor(a / 2, b / 2)
  {
    if a == 0 && b == 0 { return; }
    Halved((a + b) % 2, Xor(a / 2, b / 2));
  }

  lemma {:induction false} XorUndone(a: nat, b: nat)
    ensures Xor(Xor(a, b), b) == a
  {
    if a != 0 || b != 0 {
      var x := Xor(a, b);
      XorUndone(a / 2, b / 2);
      XorBits(a, b);
      XorBits(x, b);
      ParityUndone(a, b, x);
      SameHalves(Xor(x, b), a);
    }
  }

  lemma ParityUndone(a: nat, b: nat, x: nat)
    requires x % 2 == (a + b) % 2
    ensures (x + b) % 2 == a % 2
  {
  }

  lemma SameHalves(a: nat, b: nat)
    requires a / 2 == b / 2 && a % 2 == b % 2
    ensures a == b
  {
  }

  lemma {:induction false} XorCommutes(a: nat, b: nat)
    ensures Xor(a, b) == Xor(b, a)
  {
    if a != 0 || b != 0 { XorCommutes(a / 2, b / 2); }
  }

  function Scale(h: Word): Word { h * 16777619 % WORD }

  function Unscale(h: Word): Word { h * 899433627 % WORD }

  /** The FNV prime is invertible modulo 2^32. */
  lemma ScaleUndone(h: Word)
    ensures Unscale(Scale(h)) == h
  {
    var q := h * 16777619 / WORD;
    assert 16777619 * 899433627 == 3513497 * WORD + 1;
    assert Scale(h) * 899433627 == h + (h * 3513497 - q * 899433627) * WORD;
  }

  /** One FNV-1 step: multiply by the 32-bit FNV prime, then exclusive-or the byte in. */
  function Mix(h: Word, b: Byte): Word {
    assert Xor(Scale(h), b) < WORD by {
      assert Pow2(8) == 256 && Pow2(16) == 0x1_0000 && Pow2(24) == 0x100_0000 && Pow2(32) == 0x1_0000_0000;
      XorBound(Scale(h), b, 32);
    }
    Xor(Scale(h), b)
  }

  function Hash(h: Word, data: seq<Byte>): Word
    decreases |data|
  {
    if data == [] then h else Hash(Mix(h, data[0]), data[1..])
  }

  /** The stateful hash: bytes written one after the other. */
  class Hash32 {
    var sum: Word

    constructor ()
      ensures sum == OFFSET
    {
      sum := OFFSET;
    }

    method Write(data: seq<Byte>)
      modifies this
      ensures sum == Hash(old(sum), data)
    {
      var i := 0;
      while i < |data|
        invariant 0 <= i <= |data|
        invariant Hash(old(sum), data) == Hash(sum, data[i..])
      {
        sum := Mix(sum, data[i]);
        i := i + 1;
      }
    }
  }

  /** Writing in pieces is the same as writing the concatenation. */
  lemma {:induction false} HashConcat(h: Word, a: seq<Byte>, b: seq<Byte>)
    ensures Hash(h, a + b) == Hash(Hash(h, a), b)
    decreases |a|
  {
    if a == [] {
      assert a + b == b;
    } else {
      assert (a + b)[0] == a[0] && (a + b)[1..] == a[1..] + b;
      HashConcat(Mix(h, a[0]), a[1..], b);
    }
  }

  /** Each step is injective in the state and in the byte. */
  lemma MixInjective(h: Word, h': Word, b: Byte, b': Byte)
    requires h == h' || b == b'
    requires Mix(h, b) == Mix(h', b')
    ensures h == h' && b == b'
  {
    var p, p' := Scale(h), Scale(h');
    XorUndone(p, b);
    XorUndone(p', b');
    XorCommutes(p, b);
    XorCommutes(p', b');
    XorUndone(b, p);
    XorUndone(b', p');
    ScaleUndone(h);
    ScaleUndone(h');
  }

  lemma {:induction false} HashInjectiveInState(h: Word, h': Word, data: seq<Byte>)
    requires h != h'
    ensures Hash(h, data) != Hash(h', data)
    decreases |data|
  {
    if data != [] {
      if Mix(h, data[0]) == Mix(h', data[0]) { MixInjective(h, h', data[0], data[0]); }
      HashInjectiveInState(Mix(h, data[0]), Mix(h', data[0]), data[1..]);
    }
  }

  /** Changing one byte anywhere always changes the sum. */
  lemma OneByteMatters(h: Word, before: seq<Byte>, b: Byte, b': Byte, after: seq<Byte>)
    requires b != b'
    ensures Hash(h, before + [b] + after) != Hash(h, before + [b'] + after)
  {
    var s := Hash(h, before);
    HashConcat(h, before + [b], after);
    HashConcat(h, before + [b'], after);
    HashConcat(h, before, [b]);
    HashConcat(h, before, [b']);
    assert Hash(s, [b]) == Mix(s, b) && Hash(s, [b']) == Mix(s, b');
    if Mix(s, b) == Mix(s, b') { MixInjective(s, s, b, b'); }
    HashInjectiveInState(Mix(s, b), Mix(s, b'), after);
  }

  /** Every bit of the exclusive or is the sum of the two bits, without carry. */
  lemma {:induction false} XorAtBit(a: nat, b: nat, i: nat)
    ensures BitAt(Xor(a, b), i) == (BitAt(a, i) + BitAt(b, i)) % 2
    decreases i
  {
    XorBits(a, b);
    if i > 0 { XorAtBit(a / 2, b / 2, i - 1); } else { ParityOfSum(a, b); }
  }

  function BitAt(a: nat, i: nat): nat {
    if i == 0 then a % 2 else BitAt(a / 2, i - 1)
  }

  lemma ParityOfSum(a: nat, b: nat)
    ensures (a + b) % 2 == (a % 2 + b % 2) % 2
  {
  }

  /** A bit is what is left of dividing by a power of two. */
  lemma {:induction false} BitIsQuotient(a: nat, i: nat)
    ensures BitAt(a, i) == a / Pow2(i) % 2
    decreases i
  {
    if i > 0 {
      BitIsQuotient(a / 2, i - 1);
      Halving(a, Pow2(i - 1));
    }
  }

  lemma Halving(a: nat, p: nat)
    requires p > 0
    ensures a / (2 * p) == a / 2 / p
  {
    var q := a / 2 / p;
    var r := a / 2 - q * p;
    assert 0 <= r < p && a / 2 == q * p + r;
    var bit := a % 2;
    assert a == q * (2 * p) + (2 * r + bit) by { assert a == 2 * (a / 2) + bit; }
    Quotient(a, 2 * p, q, 2 * r + bit);
  }

  lemma Quotient(a: nat, d: nat, q: nat, r: nat)
    requires d > 0 && r < d && a == q * d + r
    ensures a / d == q
  {
    var k := a / d;
    if k < q { Monotone(k + 1, q, d); }
    if q < k { Monotone(q + 1, k, d); }
  }

  lemma Monotone(x: nat, y: nat, d: nat)
    requires x <= y
    ensures x * d <= y * d
  {
  }

  /** The published sums of the empty text and of the text "a" under 32-bit FNV-1. */
  lemma KnownSums()
    ensures Hash(OFFSET, []) == 0x811c9dc5
    ensures Hash(OFFSET, [97]) == 0x050c5d7e
  {
    assert 0x811c9dc5 * 16777619 % WORD == 0x050c5d1f;
    assert Scale(OFFSET) == 0x050c5d1f;
    XorZero(661690);
    assert Xor(1323380, 1) == 1323381;
    assert Xor(2646760, 3) == 2646763;
    assert Xor(5293521, 6) == 5293527;
    assert Xor(10587043, 12) == 10587055;
    assert Xor(21174087, 24) == 21174111;
    assert Xor(42348175, 48) == 42348223;
    assert Xor(84696351, 97) == 84696446;
    assert Hash(OFFSET, [97]) == Hash(Mix(OFFSET, 97), []);
  }

  lemma {:induction false} XorZero(a: nat)
    ensures Xor(a, 0) == a
  {
    if a != 0 { XorZero(a / 2); }
  }
}
