/** The ring's hash: FNV-1a over the bytes of the key, then a finalizer that mixes the bits.
    64-bit words are naturals below 2^64; multiplication wraps around. */
module Hashing {
  const WORD: nat := 0x1_0000_0000_0000_0000
  const OFFSET: nat := 0xcbf29ce484222325
  const PRIME: nat := 0x100000001b3
  const MIX1: nat := 0xff51afd7ed558ccd
  const MIX2: nat := 0xc4ceb9fe1a85ec53

  // The inverses of the three multipliers modulo 2^64.
  const PRIME_INVERSE: nat := 0xce965057aff6957b
  const MIX1_INVERSE: nat := 0x4f74430c22a54005
  const MIX2_INVERSE: nat := 0x9cb4b2f8129337db

  /** Bitwise exclusive or. */
  function Xor(a: nat, b: nat): nat {
    if a == 0 && b == 0 then 0 else 2 * Xor(a / 2, b / 2) + (a + b) % 2
  }

  function ShiftRight(a: nat, k: nat): nat {
    if k == 0 then a else ShiftRight(a / 2, k - 1)
  }

  /** Wrapping multiplication. */
  function Times(x: nat, factor: nat): nat {
    x * factor % WORD
  }

  function FnvStep(hash: nat, byte: nat): nat {
    Times(Xor(hash, byte), PRIME)
  }

  function Fnv(hash: nat, bytes: seq<nat>): nat
    decreases bytes
  {
    if bytes == [] then hash else Fnv(FnvStep(hash, bytes[0]), bytes[1..])
  }

  function XorShift(x: nat): nat {
    Xor(x, ShiftRight(x, 33))
  }

  function Finalize(hash: nat): nat {
    XorShift(Times(XorShift(Times(XorShift(hash), MIX1)), MIX2))
  }

  function HashBytes(bytes: seq<nat>): nat {
    Finalize(Fnv(OFFSET, bytes))
  }

  predicate IsBytes(bytes: seq<nat>) {
    forall k | 0 <= k < |bytes| :: bytes[k] < 256
  }

  // ---- Exclusive or ----

  lemma XorHalves(a: nat, b: nat)
    ensures Xor(a, b) / 2 == Xor(a / 2, b / 2) && Xor(a, b) % 2 == (a + b) % 2
  {
    if a == 0 && b == 0 {
      assert Xor(0, 0) == 0;
    }
  }

  lemma {:induction false} XorZero(a: nat)
    ensures Xor(a, 0) == a
  {
    if a != 0 {
      XorZero(a / 2);
    }
  }

  lemma {:induction false} XorUndoes(a: nat, b: nat)
    ensures Xor(Xor(a, b), b) == a
  {
    if a != 0 || b != 0 {
      var x := Xor(a, b);
      XorUndoes(a / 2, b / 2);
      XorHalves(a, b);
      XorHalves(x, b);
      assert (x + b) % 2 == a % 2 by { SumParity(x, a, b); }
    }
  }

  lemma SumParity(x: nat, a: nat, b: nat)
    requires x % 2 == (a + b) % 2
    ensures (x + b) % 2 == a % 2
  {
  }

  lemma {:induction false} XorCommutes(a: nat, b: nat)
    ensures Xor(a, b) == Xor(b, a)
  {
    if a != 0 || b != 0 {
      XorCommutes(a / 2, b / 2);
    }
  }

  /** Different second operands give different results. */
  lemma XorInjective(a: nat, b: nat, c: nat)
    requires Xor(a, b) == Xor(a, c)
    ensures b == c
  {
    XorCommutes(a, b);
    XorCommutes(a, c);
    XorUndoes(b, a);
    XorUndoes(c, a);
  }

  function Pow2(k: nat): (p: nat)
    ensures p >= 1
  {
    if k == 0 then 1 else 2 * Pow2(k - 1)
  }

  lemma {:induction false} XorBound(a: nat, b: nat, k: nat)
    requires a < Pow2(k) && b < Pow2(k)
    ensures Xor(a, b) < Pow2(k)
  {
    if k > 0 && (a != 0 || b != 0) {
      XorBound(a / 2, b / 2, k - 1);
    }
  }

  lemma {:induction false} ShiftShrinks(a: nat, j: nat)
    ensures ShiftRight(a, j) <= a
  {
    if j > 0 {
      ShiftShrinks(a / 2, j - 1);
    }
  }

  lemma {:induction false} ShiftTwice(a: nat, j: nat, k: nat)
    ensures ShiftRight(ShiftRight(a, j), k) == ShiftRight(a, j + k)
  {
    if j > 0 {
      ShiftTwice(a / 2, j - 1, k);
    }
  }

  lemma {:induction false} ShiftOut(a: nat, j: nat, k: nat)
    requires a < Pow2(j) && j <= k
    ensures ShiftRight(a, k) == 0
  {
    if k > 0 {
      ShiftOut(a / 2, if j > 0 then j - 1 else 0, k - 1);
    }
  }

  /** Shifting both operands shifts the result. */
  lemma {:induction false} XorShiftsThrough(a: nat, b: nat, k: nat)
    ensures ShiftRight(Xor(a, b), k) == Xor(ShiftRight(a, k), ShiftRight(b, k))
  {
    if k > 0 {
      XorHalves(a, b);
      XorShiftsThrough(a / 2, b / 2, k - 1);
    }
  }

  lemma WordIsPow2()
    ensures Pow2(64) == WORD
  {
    assert Pow2(8) == 0x100;
    assert Pow2(16) == 0x10000;
    assert Pow2(24) == 0x1000000;
    assert Pow2(32) == 0x1_0000_0000;
    assert Pow2(40) == 0x100_0000_0000;
    assert Pow2(48) == 0x1_0000_0000_0000;
    assert Pow2(56) == 0x100_0000_0000_0000;
  }

  /** The xor-shift undoes itself: a 64-bit word shifted by 33 twice is 0. */
  lemma XorShiftUndoes(x: nat)
    requires x < WORD
    ensures XorShift(x) < WORD && XorShift(XorShift(x)) == x
  {
    WordIsPow2();
    var high := ShiftRight(x, 33);
    ShiftShrinks(x, 33);
    XorBound(x, high, 64);
    XorShiftsThrough(x, high, 33);
    ShiftTwice(x, 33, 33);
    ShiftOut(x, 64, 66);
    XorZero(high);
    XorUndoes(x, high);
  }

  // ---- Multiplication ----

  lemma ModWord(t: int, x: nat)
    requires x < WORD
    ensures (t * WORD + x) % WORD == x
  {
  }

  /** The multipliers are odd, so multiplying by the inverse undoes them. */
  lemma TimesPrimeUndoes(x: nat)
    requires x < WORD
    ensures Times(Times(x, PRIME), PRIME_INVERSE) == x
  {
    var q, r := x * PRIME / WORD, x * PRIME % WORD;
    assert PRIME * PRIME_INVERSE == 887285111055 * WORD + 1;
    assert r * PRIME_INVERSE == (x * 887285111055 - q * PRIME_INVERSE) * WORD + x;
    ModWord(x * 887285111055 - q * PRIME_INVERSE, x);
  }

  lemma TimesMix1Undoes(x: nat)
    requires x < WORD
    ensures Times(Times(x, MIX1), MIX1_INVERSE) == x
  {
    var q, r := x * MIX1 / WORD, x * MIX1 % WORD;
    assert MIX1 * MIX1_INVERSE == 5710046619856821070 * WORD + 1;
    assert r * MIX1_INVERSE == (x * 5710046619856821070 - q * MIX1_INVERSE) * WORD + x;
    ModWord(x * 5710046619856821070 - q * MIX1_INVERSE, x);
  }

  lemma TimesMix2Undoes(x: nat)
    requires x < WORD
    ensures Times(Times(x, MIX2), MIX2_INVERSE) == x
  {
    var q, r := x * MIX2 / WORD, x * MIX2 % WORD;
    assert MIX2 * MIX2_INVERSE == 8680939279959119233 * WORD + 1;
    assert r * MIX2_INVERSE == (x * 8680939279959119233 - q * MIX2_INVERSE) * WORD + x;
    ModWord(x * 8680939279959119233 - q * MIX2_INVERSE, x);
  }

  // ---- The hash ----

  /** What undoes the finalizer. */
  function Unfinalize(hash: nat): nat {
    XorShift(Times(XorShift(Times(XorShift(hash), MIX2_INVERSE)), MIX1_INVERSE))
  }

  /** The finalizer is a bijection on 64-bit words. */
  lemma FinalizeUndoes(x: nat)
    requires x < WORD
    ensures Finalize(x) < WORD && Unfinalize(Finalize(x)) == x
  {
    XorShiftUndoes(x);
    var a := XorShift(x);
    TimesMix1Undoes(a);
    var b := Times(a, MIX1);
    XorShiftUndoes(b);
    var c := XorShift(b);
    TimesMix2Undoes(c);
    XorShiftUndoes(Times(c, MIX2));
  }

  lemma FinalizeOnto(y: nat)
    requires y < WORD
    ensures Unfinalize(y) < WORD && Finalize(Unfinalize(y)) == y
  {
    XorShiftUndoes(y);
    var a := XorShift(y);
    var b := Times(a, MIX2_INVERSE);
    TimesCommutes(a, MIX2, MIX2_INVERSE);
    TimesMix2Undoes(a);
    XorShiftUndoes(b);
    var c := XorShift(b);
    var d := Times(c, MIX1_INVERSE);
    TimesCommutes(c, MIX1, MIX1_INVERSE);
    TimesMix1Undoes(c);
    XorShiftUndoes(d);
  }

  lemma TimesCommutes(x: nat, m: nat, n: nat)
    ensures Times(Times(x, m), n) == Times(Times(x, n), m)
  {
    TimesTwice(x, m, n);
    TimesTwice(x, n, m);
    assert x * m * n == x * n * m;
  }

  lemma TimesTwice(x: nat, m: nat, n: nat)
    ensures Times(Times(x, m), n) == x * m * n % WORD
  {
    var q, r := x * m / WORD, x * m % WORD;
    assert x * m == q * WORD + r;
    assert x * m * n == (q * n) * WORD + r * n;
    AddWords(q * n, r * n);
  }

  lemma AddWords(t: int, x: int)
    ensures (t * WORD + x) % WORD == x % WORD
  {
  }

  lemma FnvStepInjective(h: nat, h': nat, byte: nat)
    requires h < WORD && h' < WORD && byte < 256
    requires FnvStep(h, byte) == FnvStep(h', byte)
    ensures h == h'
  {
    XorWithin(h, byte);
    XorWithin(h', byte);
    TimesPrimeUndoes(Xor(h, byte));
    TimesPrimeUndoes(Xor(h', byte));
    XorUndoes(h, byte);
    XorUndoes(h', byte);
  }

  lemma XorWithin(h: nat, byte: nat)
    requires h < WORD && byte < 256
    ensures Xor(h, byte) < WORD
  {
    WordIsPow2();
    XorBound(h, byte, 64);
  }

  /** From two different states the same bytes lead to two different states. */
  lemma {:induction false} FnvInjective(h: nat, h': nat, bytes: seq<nat>)
    requires h < WORD && h' < WORD && h != h' && IsBytes(bytes)
    ensures Fnv(h, bytes) != Fnv(h', bytes)
    ensures Fnv(h, bytes) < WORD && Fnv(h', bytes) < WORD
    decreases bytes
  {
    if bytes != [] {
      if FnvStep(h, bytes[0]) == FnvStep(h', bytes[0]) {
        FnvStepInjective(h, h', bytes[0]);
      }
      FnvInjective(FnvStep(h, bytes[0]), FnvStep(h', bytes[0]), bytes[1..]);
    }
  }

  lemma {:induction false} FnvWithin(h: nat, bytes: seq<nat>)
    requires h < WORD
    ensures Fnv(h, bytes) < WORD
    decreases bytes
  {
    if bytes != [] {
      FnvWithin(FnvStep(h, bytes[0]), bytes[1..]);
    }
  }

  lemma {:induction false} FnvConcat(h: nat, a: seq<nat>, b: seq<nat>)
    ensures Fnv(h, a + b) == Fnv(Fnv(h, a), b)
    decreases a
  {
    if a == [] {
      assert a + b == b;
    } else {
      assert (a + b)[1..] == a[1..] + b;
      FnvConcat(FnvStep(h, a[0]), a[1..], b);
    }
  }

  lemma HashWithin(bytes: seq<nat>)
    ensures HashBytes(bytes) < WORD
  {
    FnvWithin(OFFSET, bytes);
    FinalizeUndoes(Fnv(OFFSET, bytes));
  }

  lemma DifferentBytes(h: nat, x: nat, y: nat)
    requires h < WORD && x < 256 && y < 256 && x != y
    ensures FnvStep(h, x) != FnvStep(h, y)
  {
    XorWithin(h, x);
    XorWithin(h, y);
    TimesPrimeUndoes(Xor(h, x));
    TimesPrimeUndoes(Xor(h, y));
    if Xor(h, x) == Xor(h, y) {
      XorInjective(h, x, y);
    }
  }

  /** Two keys of equal length that differ in exactly one byte never hash to the same
      position. */
  lemma HashSeparates(key: seq<nat>, i: nat, byte: nat)
    requires IsBytes(key) && i < |key| && byte < 256 && byte != key[i]
    ensures HashBytes(key[i := byte]) != HashBytes(key)
  {
    var front, back := key[..i], key[i + 1..];
    var h := Fnv(OFFSET, front);
    FnvWithin(OFFSET, front);
    assert key == front + [key[i]] + back && key[i := byte] == front + [byte] + back;
    FnvAround(front, key[i], back);
    FnvAround(front, byte, back);
    DifferentBytes(h, key[i], byte);
    FnvInjective(FnvStep(h, key[i]), FnvStep(h, byte), back);
    FinalizeUndoes(Fnv(OFFSET, key));
    FinalizeUndoes(Fnv(OFFSET, key[i := byte]));
  }

  lemma FnvAround(front: seq<nat>, x: nat, back: seq<nat>)
    ensures Fnv(OFFSET, front + [x] + back) == Fnv(FnvStep(Fnv(OFFSET, front), x), back)
  {
    FnvConcat(OFFSET, front + [x], back);
    FnvConcat(OFFSET, front, [x]);
    assert [x][1..] == [];
  }

  // ---- Strings ----

  /** The UTF-8 bytes of a character. */
  function CharBytes(c: char): (bytes: seq<nat>)
    ensures IsBytes(bytes)
  {
    var n := c as nat;
    if n < 0x80 then [n]
    else if n < 0x800 then [0xC0 + n / 0x40, 0x80 + n % 0x40]
    else if n < 0x10000 then [0xE0 + n / 0x1000, 0x80 + n / 0x40 % 0x40, 0x80 + n % 0x40]
    else [0xF0 + n / 0x40000, 0x80 + n / 0x1000 % 0x40, 0x80 + n / 0x40 % 0x40, 0x80 + n % 0x40]
  }

  function StringBytes(s: string): (bytes: seq<nat>)
    ensures IsBytes(bytes)
  {
    if s == "" then [] else CharBytes(s[0]) + StringBytes(s[1..])
  }

  /** The position of a key on the ring. */
  function Hash(key: string): nat {
    HashBytes(StringBytes(key))
  }

  /** The hash as the loop that computes it. */
  method ComputeHash(key: string) returns (hash: nat)
    ensures hash == Hash(key) && hash < WORD
  {
    var bytes := StringBytes(key);
    hash := OFFSET;
    for k := 0 to |bytes|
      invariant Fnv(hash, bytes[k..]) == Fnv(OFFSET, bytes)
    {
      assert bytes[k..][1..] == bytes[k + 1..];
      hash := Xor(hash, bytes[k]);
      hash := Times(hash, PRIME);
    }
    HashWithin(bytes);
    hash := Xor(hash, ShiftRight(hash, 33));
    hash := Times(hash, MIX1);
    hash := Xor(hash, ShiftRight(hash, 33));
    hash := Times(hash, MIX2);
    hash := Xor(hash, ShiftRight(hash, 33));
  }

  // ---- Keys as strings ----

  lemma {:induction false} StringBytesConcat(a: string, b: string)
    ensures StringBytes(a + b) == StringBytes(a) + StringBytes(b)
  {
    if a == "" {
      assert a + b == b;
    } else {
      assert (a + b)[1..] == a[1..] + b;
      StringBytesConcat(a[1..], b);
    }
  }

  /** How many bytes a character takes, told by its first byte. */
  function LeadLength(lead: nat): nat {
    if lead < 0x80 then 1 else if lead < 0xE0 then 2 else if lead < 0xF0 then 3 else 4
  }

  /** The character the first bytes stand for. */
  function FirstCode(bytes: seq<nat>): int
    requires bytes != [] && LeadLength(bytes[0]) <= |bytes|
  {
    var b := seq(|bytes|, k requires 0 <= k < |bytes| => bytes[k] as int);
    match LeadLength(bytes[0])
    case 1 => b[0]
    case 2 => (b[0] - 0xC0) * 0x40 + (b[1] - 0x80)
    case 3 => (b[0] - 0xE0) * 0x1000 + (b[1] - 0x80) * 0x40 + (b[2] - 0x80)
    case _ => (b[0] - 0xF0) * 0x40000 + (b[1] - 0x80) * 0x1000 + (b[2] - 0x80) * 0x40 + (b[3] - 0x80)
  }

  /** A number in base 64 with a leading digit. */
  lemma Base64(n: nat)
    ensures n == (n / 0x40) * 0x40 + n % 0x40
    ensures n / 0x40 == (n / 0x1000) * 0x40 + n / 0x40 % 0x40
    ensures n / 0x1000 == (n / 0x40000) * 0x40 + n / 0x1000 % 0x40
  {
  }

  /** The bytes of a character, followed by anything, read back as that character. */
  lemma CharReadsBack(c: char, rest: seq<nat>)
    ensures var bytes := CharBytes(c) + rest;
            && bytes != [] && LeadLength(bytes[0]) == |CharBytes(c)| <= |bytes| && FirstCode(bytes) == c as int
  {
    Base64(c as nat);
    assert c as int < 0x110000;
    assert (CharBytes(c) + rest)[..|CharBytes(c)|] == CharBytes(c);
  }

  /** Different keys are different byte sequences. */
  lemma {:induction false} StringBytesInjective(a: string, b: string)
    requires StringBytes(a) == StringBytes(b)
    ensures a == b
  {
    if a != "" {
      CharReadsBack(a[0], StringBytes(a[1..]));
    }
    if b != "" {
      CharReadsBack(b[0], StringBytes(b[1..]));
    }
    if a != "" && b != "" {
      assert a[0] as int == b[0] as int;
      assert StringBytes(a)[|CharBytes(a[0])|..] == StringBytes(a[1..]);
      assert StringBytes(b)[|CharBytes(b[0])|..] == StringBytes(b[1..]);
      StringBytesInjective(a[1..], b[1..]);
    }
  }

  /** Two characters whose encodings have the same length and differ in one byte. */
  predicate OneByteApart(x: char, y: char, k: nat) {
    k < |CharBytes(x)| == |CharBytes(y)| && CharBytes(x)[k] != CharBytes(y)[k]
    && CharBytes(y) == CharBytes(x)[k := CharBytes(y)[k]]
  }

  /** Two keys that differ in one such character never get the same position. */
  lemma HashSeparatesKeys(front: string, x: char, y: char, back: string, k: nat)
    requires OneByteApart(x, y, k)
    ensures Hash(front + [x] + back) != Hash(front + [y] + back)
  {
    KeyBytes(front, x, back);
    KeyBytes(front, y, back);
    HashSeparatesSlices(StringBytes(front), CharBytes(x), CharBytes(y), StringBytes(back), k);
  }

  lemma HashSeparatesSlices(front: seq<nat>, a: seq<nat>, b: seq<nat>, back: seq<nat>, k: nat)
    requires IsBytes(front) && IsBytes(a) && IsBytes(b) && IsBytes(back)
    requires k < |a| == |b| && a[k] != b[k] && b == a[k := b[k]]
    ensures HashBytes(front + a + back) != HashBytes(front + b + back)
  {
    var key := front + a + back;
    assert front + b + back == key[|front| + k := b[k]];
    HashSeparates(key, |front| + k, b[k]);
  }

  lemma OneCharBytes(x: char)
    ensures StringBytes([x]) == CharBytes(x)
  {
    assert [x][1..] == "";
    assert CharBytes(x) + [] == CharBytes(x);
  }

  lemma KeyBytes(front: string, x: char, back: string)
    ensures StringBytes(front + [x] + back) == StringBytes(front) + CharBytes(x) + StringBytes(back)
  {
    StringBytesConcat(front + [x], back);
    StringBytesConcat(front, [x]);
    OneCharBytes(x);
  }

  /** A zero byte multiplies; from the offset this gives the published FNV-1a value of one. */
  lemma ZeroByteHash(h: nat)
    ensures Fnv(h, [0]) == Times(h, PRIME)
    ensures Times(OFFSET, PRIME) == 0xaf63bd4c8601b7df
  {
    XorZero(h);
    assert [0][1..] == [];
    assert Fnv(h, [0]) == Fnv(FnvStep(h, 0), []);
  }
}
