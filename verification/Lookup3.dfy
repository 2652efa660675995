/**
 The hash function of src/lib/lookup3.cc:87-331, as values: three 32-bit words that are
 added to block by block and mixed. `Lookup3Paths` has the three loops that compute it.
 */
module Lookup3 {

  type Octets = seq<bv8>
  datatype Triple = Triple(a: bv32, b: bv32, c: bv32)

  function Rot(x: bv32, k: nat): bv32
    requires 0 < k < 32
  {
    (x << k) | (x >> (32 - k))
  }

  // ---- Mixing ----

  // Arithmetic modulo 2^32, by name, so that proofs can treat it by its laws.

  function Plus(x: bv32, y: bv32): bv32 { x + y }
  function Minus(x: bv32, y: bv32): bv32 { x - y }
  function Xor(x: bv32, y: bv32): bv32 { x ^ y }

  lemma PlusThenMinus(x: bv32, y: bv32)
    ensures Minus(Plus(x, y), y) == x
  {
    assert Minus(Plus(x, y), y) == Minus(x + y, y);
    assert Minus(x + y, y) == (x + y) - y;
  }

  lemma MinusThenPlus(x: bv32, y: bv32)
    ensures Plus(Minus(x, y), y) == x
  {
    assert Plus(Minus(x, y), y) == Plus(x - y, y);
    assert Plus(x - y, y) == (x - y) + y;
  }

  lemma PlusMinus(x: bv32, y: bv32)
    ensures Minus(Plus(x, y), y) == x
    ensures Plus(Minus(x, y), y) == x
  {
    hide Plus, Minus;
    PlusThenMinus(x, y);
    MinusThenPlus(x, y);
  }

  lemma XorTwice(x: bv32, y: bv32)
    ensures Xor(Xor(x, y), y) == x
  {
  }

  /** One line of `mix`, with the roles of the words turned by one: a -= c; a ^= rot(c, k); c += b. */
  function MixLine(t: Triple, k: nat): Triple
    requires 0 < k < 32
  {
    Triple(t.b, Plus(t.c, t.b), Xor(Minus(t.a, t.c), Rot(t.c, k)))
  }

  function UnmixLine(t: Triple, k: nat): Triple
    requires 0 < k < 32
  {
    var c := Minus(t.b, t.a);
    Triple(Plus(Xor(t.c, Rot(c, k)), c), t.a, c)
  }

  function Mix(t: Triple): Triple {
    MixLine(MixLine(MixLine(MixLine(MixLine(MixLine(t, 4), 6), 8), 16), 19), 4)
  }

  function Unmix(t: Triple): Triple {
    UnmixLine(UnmixLine(UnmixLine(UnmixLine(UnmixLine(UnmixLine(t, 4), 19), 16), 8), 6), 4)
  }

  lemma UnmixMixLine(t: Triple, k: nat)
    requires 0 < k < 32
    ensures UnmixLine(MixLine(t, k), k) == t
  {
    hide Rot, Plus, Minus, Xor;
    PlusMinus(t.c, t.b);
    PlusMinus(t.a, t.c);
    XorTwice(Minus(t.a, t.c), Rot(t.c, k));
  }

  /** `mix` can be undone, so it never merges two states. */
  lemma UnmixMix(t: Triple)
    ensures Unmix(Mix(t)) == t
  {
    var t1 := MixLine(t, 4);
    var t2 := MixLine(t1, 6);
    var t3 := MixLine(t2, 8);
    var t4 := MixLine(t3, 16);
    var t5 := MixLine(t4, 19);
    UnmixMixLine(t, 4);
    UnmixMixLine(t1, 6);
    UnmixMixLine(t2, 8);
    UnmixMixLine(t3, 16);
    UnmixMixLine(t4, 19);
    UnmixMixLine(t5, 4);
    hide MixLine, UnmixLine;
  }

  /** One line of `final`, turned: c ^= b; c -= rot(b, k). */
  function FinalLine(t: Triple, k: nat): Triple
    requires 0 < k < 32
  {
    Triple(t.b, Minus(Xor(t.c, t.b), Rot(t.b, k)), t.a)
  }

  function UnfinalLine(t: Triple, k: nat): Triple
    requires 0 < k < 32
  {
    Triple(t.c, t.a, Xor(Plus(t.b, Rot(t.a, k)), t.a))
  }

  /** Seven lines turn the roles by seven, that is by one; the last turn is undone. */
  function Final(t: Triple): Triple {
    var u := FinalLine(FinalLine(FinalLine(FinalLine(FinalLine(FinalLine(FinalLine(t, 14), 11), 25), 16), 4), 14), 24);
    Triple(u.c, u.a, u.b)
  }

  function Unfinal(t: Triple): Triple {
    var u := Triple(t.b, t.c, t.a);
    UnfinalLine(UnfinalLine(UnfinalLine(UnfinalLine(UnfinalLine(UnfinalLine(UnfinalLine(u, 24), 14), 4), 16), 25), 11), 14)
  }

  lemma UnfinalFinalLine(t: Triple, k: nat)
    requires 0 < k < 32
    ensures UnfinalLine(FinalLine(t, k), k) == t
  {
    hide Rot, Plus, Minus, Xor;
    XorTwice(t.c, t.b);
    PlusMinus(Xor(t.c, t.b), Rot(t.b, k));
  }

  /** `final` can be undone too. */
  lemma UnfinalFinal(t: Triple)
    ensures Unfinal(Final(t)) == t
  {
    var t1 := FinalLine(t, 14);
    var t2 := FinalLine(t1, 11);
    var t3 := FinalLine(t2, 25);
    var t4 := FinalLine(t3, 16);
    var t5 := FinalLine(t4, 4);
    var t6 := FinalLine(t5, 14);
    UnfinalFinalLine(t, 14);
    UnfinalFinalLine(t1, 11);
    UnfinalFinalLine(t2, 25);
    UnfinalFinalLine(t3, 16);
    UnfinalFinalLine(t4, 4);
    UnfinalFinalLine(t5, 14);
    UnfinalFinalLine(t6, 24);
    hide FinalLine, UnfinalLine;
  }

  // ---- Blocks ----

  /** Four bytes, little end first. */
  function Word(b0: bv8, b1: bv8, b2: bv8, b3: bv8): bv32 {
    (b0 as bv32) | ((b1 as bv32) << 8) | ((b2 as bv32) << 16) | ((b3 as bv32) << 24)
  }

  function WordAt(s: Octets, i: nat): bv32
    requires i + 4 <= |s|
  {
    Word(s[i], s[i + 1], s[i + 2], s[i + 3])
  }

  function Words(block: Octets): Triple
    requires |block| == 12
  {
    Triple(WordAt(block, 0), WordAt(block, 4), WordAt(block, 8))
  }

  /** The last block, filled up with zeros. */
  function Padded(rest: Octets): (block: Octets)
    requires |rest| <= 12
    ensures |block| == 12
  {
    seq(12, i requires 0 <= i < 12 => if i < |rest| then rest[i] else 0)
  }

  function Add(t: Triple, w: Triple): Triple {
    Triple(Plus(t.a, w.a), Plus(t.b, w.b), Plus(t.c, w.c))
  }

  /** The state after all of `key`: full blocks are mixed in, a rest of 1 to 12 bytes is padded and finished. */
  function Absorb(t: Triple, key: Octets): Triple
    decreases |key|
  {
    if |key| > 12 then Absorb(Mix(Add(t, Words(key[..12]))), key[12..])
    else if key == [] then t
    else Final(Add(t, Words(Padded(key))))
  }

  function Start(length: nat, initval: bv32): Triple {
    var x := 0xdeadbeef + ((length % 0x1_0000_0000) as bv32) + initval;
    Triple(x, x, x)
  }

  function Hash(key: Octets, initval: bv32): bv32 {
    Absorb(Start(|key|, initval), key).c
  }

  // ---- No two keys that differ in one block end in the same state ----

  lemma MixInjective(t: Triple, u: Triple)
    requires t != u
    ensures Mix(t) != Mix(u)
  {
    UnmixMix(t);
    UnmixMix(u);
    hide Mix, Unmix;
  }

  lemma FinalInjective(t: Triple, u: Triple)
    requires t != u
    ensures Final(t) != Final(u)
  {
    UnfinalFinal(t);
    UnfinalFinal(u);
    hide Final, Unfinal;
  }

  lemma PlusInjective(x: bv32, y: bv32, w: bv32)
    ensures x != y ==> Plus(x, w) != Plus(y, w)
    ensures x != y ==> Plus(w, x) != Plus(w, y)
  {
    PlusMinus(x, w);
    PlusMinus(y, w);
    Commutes(x, w);
    Commutes(y, w);
    hide Plus, Minus;
  }

  lemma Commutes(x: bv32, y: bv32)
    ensures Plus(x, y) == Plus(y, x)
  {
  }

  lemma AddInjective(t: Triple, u: Triple, w: Triple)
    ensures t != u ==> Add(t, w) != Add(u, w)
    ensures t != u ==> Add(w, t) != Add(w, u)
  {
    PlusInjective(t.a, u.a, w.a);
    PlusInjective(t.b, u.b, w.b);
    PlusInjective(t.c, u.c, w.c);
    hide Plus;
  }

  lemma WordInjective(b0: bv8, b1: bv8, b2: bv8, b3: bv8, d0: bv8, d1: bv8, d2: bv8, d3: bv8)
    requires Word(b0, b1, b2, b3) == Word(d0, d1, d2, d3)
    ensures b0 == d0 && b1 == d1 && b2 == d2 && b3 == d3
  {
  }

  lemma WordsDetermine(s: Octets, t: Octets)
    requires |s| == |t| == 12 && Words(s) == Words(t)
    ensures s == t
  {
    WordInjective(s[0], s[1], s[2], s[3], t[0], t[1], t[2], t[3]);
    WordInjective(s[4], s[5], s[6], s[7], t[4], t[5], t[6], t[7]);
    WordInjective(s[8], s[9], s[10], s[11], t[8], t[9], t[10], t[11]);
  }

  lemma WordsInjective(s: Octets, t: Octets)
    requires |s| == |t| == 12 && s != t
    ensures Words(s) != Words(t)
  {
    hide Words;
    if Words(s) == Words(t) { WordsDetermine(s, t); }
  }

  /** The same bytes keep different states different. */
  lemma {:induction false} AbsorbInjective(t: Triple, u: Triple, key: Octets)
    requires t != u
    ensures Absorb(t, key) != Absorb(u, key)
    decreases |key|
  {
    hide Mix, Final, Add, Words;
    if |key| > 12 {
      var w := Words(key[..12]);
      AddInjective(t, u, w);
      MixInjective(Add(t, w), Add(u, w));
      AbsorbInjective(Mix(Add(t, w)), Mix(Add(u, w)), key[12..]);
    } else if key != [] {
      var w := Words(Padded(key));
      AddInjective(t, u, w);
      FinalInjective(Add(t, w), Add(u, w));
    }
  }

  /** Keys of equal length that differ, but only within block `i`. */
  ghost predicate OneBlockDiffers(k: Octets, l: Octets, i: nat) {
    && |k| == |l| && k != l && 12 * i <= |k|
    && k[..12 * i] == l[..12 * i]
    && (12 * i + 12 <= |k| ==> k[12 * i + 12..] == l[12 * i + 12..])
  }

  lemma PaddedDiffer(k: Octets, l: Octets)
    requires |k| == |l| <= 12 && k != l
    ensures Padded(k) != Padded(l)
  {
    if Padded(k) == Padded(l) {
      forall i | 0 <= i < |k| ensures k[i] == l[i] {
        assert Padded(k)[i] == k[i] && Padded(l)[i] == l[i];
      }
    }
  }

  lemma FirstBlockDiffers(t: Triple, k: Octets, l: Octets)
    requires OneBlockDiffers(k, l, 0)
    ensures Absorb(t, k) != Absorb(t, l)
  {
    hide Mix, Final, Add, Words;
    if |k| > 12 {
      assert k == k[..12] + k[12..] && l == l[..12] + l[12..];
      var v, w := Words(k[..12]), Words(l[..12]);
      WordsInjective(k[..12], l[..12]);
      AddInjective(v, w, t);
      MixInjective(Add(t, v), Add(t, w));
      AbsorbInjective(Mix(Add(t, v)), Mix(Add(t, w)), k[12..]);
    } else {
      PaddedDiffer(k, l);
      var v, w := Words(Padded(k)), Words(Padded(l));
      WordsInjective(Padded(k), Padded(l));
      AddInjective(v, w, t);
      FinalInjective(Add(t, v), Add(t, w));
    }
  }

  lemma LaterBlock(k: Octets, l: Octets, i: nat)
    requires i > 0 && OneBlockDiffers(k, l, i)
    ensures |k| > 12 && k[..12] == l[..12] && OneBlockDiffers(k[12..], l[12..], i - 1)
  {
    assert k[..12] == k[..12 * i][..12] && l[..12] == l[..12 * i][..12];
    assert k == k[..12] + k[12..] && l == l[..12] + l[12..];
    assert k[12..][..12 * (i - 1)] == k[..12 * i][12..] && l[12..][..12 * (i - 1)] == l[..12 * i][12..];
    var n := 12 * i;
    assert k == k[..n] + k[n..] && l == l[..n] + l[n..];
    if 12 * i + 12 <= |k| {
      assert k[12..][12 * (i - 1) + 12..] == k[12 * i + 12..] && l[12..][12 * (i - 1) + 12..] == l[12 * i + 12..];
    }
  }

  /** Two keys of equal length that differ in exactly one 12-byte block never end with the same three words. */
  lemma {:induction false} OneBlockNeverCollides(t: Triple, k: Octets, l: Octets, i: nat)
    requires OneBlockDiffers(k, l, i)
    ensures Absorb(t, k) != Absorb(t, l)
    decreases i
  {
    if i == 0 {
      FirstBlockDiffers(t, k, l);
    } else {
      hide Mix, Final, Add, Words, OneBlockDiffers;
      LaterBlock(k, l, i);
      assert |k| == |l| by { SameLength(k, l, i); }
      OneBlockNeverCollides(Mix(Add(t, Words(k[..12]))), k[12..], l[12..], i - 1);
    }
  }

  lemma SameLength(k: Octets, l: Octets, i: nat)
    requires OneBlockDiffers(k, l, i)
    ensures |k| == |l|
  {
  }

  // ---- Known answers ----

  /** "Four score and seven years ago", block by block. */
  const FOUR: Octets := [70, 111, 117, 114, 32, 115, 99, 111, 114, 101, 32, 97]
  const SEVEN: Octets := [110, 100, 32, 115, 101, 118, 101, 110, 32, 121, 101, 97]
  const AGO: Octets := [114, 115, 32, 97, 103, 111]

  const S0 := Triple(0xdeadbf0d, 0xdeadbf0d, 0xdeadbf0d)
  const S1 := Triple(0xf859ad7a, 0x4bc57ae, 0x40dddd7e)
  const S2 := Triple(0x336aded2, 0x59f2642, 0xbd02ebd5)

  lemma FirstBlock()
    ensures Mix(Triple(0x51232e53, 0x4e11322d, 0x3fce247f)) == S1
  {
    hide MixLine;
    FirstBlockBegins();
    FirstBlockEnds();
  }

  lemma FirstBlockBegins()
    ensures MixLine(MixLine(MixLine(Triple(0x51232e53, 0x4e11322d, 0x3fce247f), 4), 6), 8) == Triple(0x7b96a4d3, 0x892112d0, 0xa3915a2)
  {
  }

  lemma FirstBlockEnds()
    ensures MixLine(MixLine(MixLine(Triple(0x7b96a4d3, 0x892112d0, 0xa3915a2), 16), 19), 4) == S1
  {
  }

  lemma SecondBlock()
    ensures Mix(Triple(0x6b7a11e8, 0x7321ce13, 0xa243569e)) == S2
  {
    hide MixLine;
    SecondBlockBegins();
    SecondBlockEnds();
  }

  lemma SecondBlockBegins()
    ensures MixLine(MixLine(MixLine(Triple(0x6b7a11e8, 0x7321ce13, 0xa243569e), 4), 6), 8) == Triple(0x268f751, 0xc9524a99, 0xa72899af)
  {
  }

  lemma SecondBlockEnds()
    ensures MixLine(MixLine(MixLine(Triple(0x268f751, 0xc9524a99, 0xa72899af), 16), 19), 4) == S2
  {
  }

  lemma LastBlock()
    ensures Final(Triple(0x948b5244, 0x59f95a9, 0xbd02ebd5)).c == 0x17770551
  {
  }

  lemma BlocksAdd()
    ensures Add(S0, Words(FOUR)) == Triple(0x51232e53, 0x4e11322d, 0x3fce247f)
    ensures Add(S1, Words(SEVEN)) == Triple(0x6b7a11e8, 0x7321ce13, 0xa243569e)
    ensures Add(S2, Words(Padded(AGO))) == Triple(0x948b5244, 0x59f95a9, 0xbd02ebd5)
  {
  }

  lemma AbsorbBlock(t: Triple, block: Octets, rest: Octets)
    requires |block| == 12 && rest != []
    ensures Absorb(t, block + rest) == Absorb(Mix(Add(t, Words(block))), rest)
  {
    assert (block + rest)[..12] == block && (block + rest)[12..] == rest;
    hide Mix, Final, Add, Words, Padded;
  }

  lemma StartOfThirty()
    ensures Start(30, 0) == S0
  {
    var length: nat := 30;
    assert length % 0x1_0000_0000 == 30;
    var n := (length % 0x1_0000_0000) as bv32;
    assert n == 30 as bv32 == 0x1e;
    assert 0xdeadbeef + n + 0 == 0xdeadbf0d;
    assert Start(length, 0) == Triple(0xdeadbeef + n + 0, 0xdeadbeef + n + 0, 0xdeadbeef + n + 0);
  }

  /** The published answers of the hash: of the empty key, and of one of thirty bytes. */
  lemma KnownAnswers(initval: bv32)
    ensures Hash([], initval) == 0xdeadbeef + initval
    ensures Hash(FOUR + (SEVEN + AGO), 0) == 0x17770551
  {
    HashOfNothing(initval);
    HashOfThirty();
  }

  lemma HashOfNothing(initval: bv32)
    ensures Hash([], initval) == 0xdeadbeef + initval
  {
  }

  lemma HashOfThirty()
    ensures Hash(FOUR + (SEVEN + AGO), 0) == 0x17770551
  {
    hide Start, Mix, Final, Add, Words, Padded;
    StartOfThirty();
    BlocksAdd();
    AbsorbBlock(S0, FOUR, SEVEN + AGO);
    FirstBlock();
    AbsorbBlock(S1, SEVEN, AGO);
    SecondBlock();
    LastBlock();
  }
}
