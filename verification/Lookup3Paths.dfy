/**
 hashlittle (src/lib/lookup3.cc:171-331): the same hash by 32-bit reads, by 16-bit reads
 and byte by byte. Which one runs depends on the alignment of the key in memory, so all
 three have to be the function of the key's bytes that `Lookup3` defines.
 */
module Lookup3Paths {
  import opened Lookup3

  /** An aligned 16-bit read. */
  function Half(b0: bv8, b1: bv8): bv32 {
    (b0 as bv32) | ((b1 as bv32) << 8)
  }

  // ---- Words from their parts ----

  lemma Associates(x: bv32, y: bv32, z: bv32)
    ensures Plus(Plus(x, y), z) == Plus(x, Plus(y, z))
  {
    assert Plus(Plus(x, y), z) == Plus(x + y, z) == (x + y) + z;
    assert Plus(x, Plus(y, z)) == Plus(x, y + z) == x + (y + z);
  }

  lemma PlusZero(x: bv32)
    ensures Plus(x, 0) == x
  {
  }

  lemma SumOfBytes(b0: bv8, b1: bv8, b2: bv8, b3: bv8)
    ensures Plus(Plus(Plus(b0 as bv32, (b1 as bv32) << 8), (b2 as bv32) << 16), (b3 as bv32) << 24) == Word(b0, b1, b2, b3)
  {
    assert Plus(b0 as bv32, (b1 as bv32) << 8) == (b0 as bv32) + ((b1 as bv32) << 8);
    assert Plus((b0 as bv32) + ((b1 as bv32) << 8), (b2 as bv32) << 16) ==
           (b0 as bv32) + ((b1 as bv32) << 8) + ((b2 as bv32) << 16);
    assert Plus((b0 as bv32) + ((b1 as bv32) << 8) + ((b2 as bv32) << 16), (b3 as bv32) << 24) ==
           (b0 as bv32) + ((b1 as bv32) << 8) + ((b2 as bv32) << 16) + ((b3 as bv32) << 24);
    BytesAddUp(b0, b1, b2, b3);
  }

  lemma BytesAddUp(b0: bv8, b1: bv8, b2: bv8, b3: bv8)
    ensures (b0 as bv32) + ((b1 as bv32) << 8) + ((b2 as bv32) << 16) + ((b3 as bv32) << 24) == Word(b0, b1, b2, b3)
  {
  }

  lemma SumOfHalves(b0: bv8, b1: bv8, b2: bv8, b3: bv8)
    ensures Plus(Half(b0, b1), Half(b2, b3) << 16) == Word(b0, b1, b2, b3)
  {
    HalvesAddUp(b0, b1, b2, b3);
    assert Plus(Half(b0, b1), Half(b2, b3) << 16) ==
           ((b0 as bv32) | ((b1 as bv32) << 8)) + (((b2 as bv32) | ((b3 as bv32) << 8)) << 16);
  }

  lemma HalvesAddUp(b0: bv8, b1: bv8, b2: bv8, b3: bv8)
    ensures ((b0 as bv32) | ((b1 as bv32) << 8)) + (((b2 as bv32) | ((b3 as bv32) << 8)) << 16) == Word(b0, b1, b2, b3)
  {
  }

  // The bytes past the end that an aligned read picks up are masked off.

  lemma Mask3(b0: bv8, b1: bv8, b2: bv8, b3: bv8)
    ensures Word(b0, b1, b2, b3) & 0xffffff == Word(b0, b1, b2, 0)
  {
  }

  lemma Mask2(b0: bv8, b1: bv8, b2: bv8, b3: bv8)
    ensures Word(b0, b1, b2, b3) & 0xffff == Word(b0, b1, 0, 0)
  {
  }

  lemma Mask1(b0: bv8, b1: bv8, b2: bv8, b3: bv8)
    ensures Word(b0, b1, b2, b3) & 0xff == Word(b0, 0, 0, 0)
  {
  }

  /** Bytes added one by one, low byte first or high byte first. */
  lemma BytesUp(x: bv32, b0: bv8, b1: bv8, b2: bv8, b3: bv8)
    ensures Plus(Plus(Plus(Plus(x, b0 as bv32), (b1 as bv32) << 8), (b2 as bv32) << 16), (b3 as bv32) << 24) ==
      Plus(x, Word(b0, b1, b2, b3))
  {
    SumOfBytes(b0, b1, b2, b3);
    Chain(x, b0 as bv32, (b1 as bv32) << 8, (b2 as bv32) << 16, (b3 as bv32) << 24);
  }

  lemma BytesDown(x: bv32, b0: bv8, b1: bv8, b2: bv8, b3: bv8)
    ensures Plus(Plus(Plus(Plus(x, (b3 as bv32) << 24), (b2 as bv32) << 16), (b1 as bv32) << 8), b0 as bv32) ==
      Plus(x, Word(b0, b1, b2, b3))
  {
    var x0, x1, x2, x3 := b0 as bv32, (b1 as bv32) << 8, (b2 as bv32) << 16, (b3 as bv32) << 24;
    SumOfBytes(b0, b1, b2, b3);
    hide Plus, Word;
    Chain(x, x3, x2, x1, x0);
    Reverse(x0, x1, x2, x3);
  }

  lemma Chain(x: bv32, a: bv32, b: bv32, c: bv32, d: bv32)
    ensures Plus(Plus(Plus(Plus(x, a), b), c), d) == Plus(x, Plus(Plus(Plus(a, b), c), d))
  {
    hide Plus;
    Associates(x, a, b);
    Associates(x, Plus(a, b), c);
    Associates(x, Plus(Plus(a, b), c), d);
  }

  lemma Reverse(a: bv32, b: bv32, c: bv32, d: bv32)
    ensures Plus(Plus(Plus(d, c), b), a) == Plus(Plus(Plus(a, b), c), d)
  {
    hide Plus;
    Commutes(d, c);
    Commutes(Plus(c, d), b);
    Associates(b, c, d);
    Commutes(Plus(Plus(b, c), d), a);
    Associates(a, Plus(b, c), d);
    Associates(a, b, c);
  }

  // ---- The macros ----

  method MixWords(a0: bv32, b0: bv32, c0: bv32) returns (a: bv32, b: bv32, c: bv32)
    ensures Triple(a, b, c) == Mix(Triple(a0, b0, c0))
  {
    hide Plus, Minus, Xor, Rot;
    a, b, c := a0, b0, c0;
    a := Minus(a, c); a := Xor(a, Rot(c, 4)); c := Plus(c, b);
    b := Minus(b, a); b := Xor(b, Rot(a, 6)); a := Plus(a, c);
    c := Minus(c, b); c := Xor(c, Rot(b, 8)); b := Plus(b, a);
    a := Minus(a, c); a := Xor(a, Rot(c, 16)); c := Plus(c, b);
    b := Minus(b, a); b := Xor(b, Rot(a, 19)); a := Plus(a, c);
    c := Minus(c, b); c := Xor(c, Rot(b, 4)); b := Plus(b, a);
  }

  method FinalWords(a0: bv32, b0: bv32, c0: bv32) returns (a: bv32, b: bv32, c: bv32)
    ensures Triple(a, b, c) == Final(Triple(a0, b0, c0))
  {
    hide Plus, Minus, Xor, Rot;
    a, b, c := a0, b0, c0;
    c := Xor(c, b); c := Minus(c, Rot(b, 14));
    a := Xor(a, c); a := Minus(a, Rot(c, 11));
    b := Xor(b, a); b := Minus(b, Rot(a, 25));
    c := Xor(c, b); c := Minus(c, Rot(b, 16));
    a := Xor(a, c); a := Minus(a, Rot(c, 4));
    b := Xor(b, a); b := Minus(b, Rot(a, 14));
    c := Xor(c, b); c := Minus(c, Rot(b, 24));
  }

  // ---- Byte by byte ----

  lemma NoByte(x: bv32)
    ensures Plus(x, (0 as bv8) as bv32) == x
    ensures Plus(x, ((0 as bv8) as bv32) << 8) == x
    ensures Plus(x, ((0 as bv8) as bv32) << 16) == x
    ensures Plus(x, ((0 as bv8) as bv32) << 24) == x
  {
  }

  /** The fall-through switch: from the last byte down, whatever is there is added. */
  method AddDown(x: bv32, rest: Octets, j: nat) returns (r: bv32)
    requires 1 <= |rest| <= 12 && j <= 8
    ensures r == Plus(x, WordAt(Padded(rest), j))
  {
    hide Plus, Word;
    var p := Padded(rest);
    r := x;
    NoByte(r);
    if |rest| >= j + 4 { r := Plus(r, (rest[j + 3] as bv32) << 24); }
    ghost var r3 := r;
    assert r3 == Plus(x, (p[j + 3] as bv32) << 24);
    NoByte(r);
    if |rest| >= j + 3 { r := Plus(r, (rest[j + 2] as bv32) << 16); }
    ghost var r2 := r;
    assert r2 == Plus(r3, (p[j + 2] as bv32) << 16);
    NoByte(r);
    if |rest| >= j + 2 { r := Plus(r, (rest[j + 1] as bv32) << 8); }
    ghost var r1 := r;
    assert r1 == Plus(r2, (p[j + 1] as bv32) << 8);
    NoByte(r);
    if |rest| >= j + 1 { r := Plus(r, rest[j] as bv32); }
    assert r == Plus(r1, p[j] as bv32);
    BytesDown(x, p[j], p[j + 1], p[j + 2], p[j + 3]);
  }

  method AddBytes(x: bv32, key: Octets, i: nat) returns (r: bv32)
    requires i + 4 <= |key|
    ensures r == Plus(x, WordAt(key, i))
  {
    BytesUp(x, key[i], key[i + 1], key[i + 2], key[i + 3]);
    hide Plus, Word;
    r := Plus(x, key[i] as bv32);
    r := Plus(r, (key[i + 1] as bv32) << 8);
    r := Plus(r, (key[i + 2] as bv32) << 16);
    r := Plus(r, (key[i + 3] as bv32) << 24);
  }

  // ---- The loop and the end that the three paths share ----

  /** Every path keeps this: what is left, from where it is, gives what the whole key gives. */
  ghost predicate Reached(key: Octets, initval: bv32, k: nat, t: Triple) {
    k <= |key| && Absorb(Start(|key|, initval), key) == Absorb(t, key[k..])
  }

  lemma AtStart(key: Octets, initval: bv32)
    ensures Reached(key, initval, 0, Start(|key|, initval))
  {
    hide Absorb, Start;
    assert key[0..] == key;
  }

  lemma NextBlock(key: Octets, initval: bv32, k: nat, t: Triple)
    requires Reached(key, initval, k, t) && |key| - k > 12
    ensures Reached(key, initval, k + 12, Mix(Add(t, Words(key[k..k + 12]))))
  {
    hide Start, Mix, Add, Words, Final, Padded;
    assert key[k..][..12] == key[k..k + 12] && key[k..][12..] == key[k + 12..];
  }

  lemma LastBlock(key: Octets, initval: bv32, k: nat, t: Triple)
    requires Reached(key, initval, k, t) && 0 < |key| - k <= 12
    ensures Hash(key, initval) == Final(Add(t, Words(Padded(key[k..])))).c
  {
    hide Start, Mix, Add, Words, Final, Padded;
  }

  lemma NoBlock(key: Octets, initval: bv32, t: Triple)
    requires Reached(key, initval, |key|, t)
    ensures Hash(key, initval) == t.c
  {
    hide Start, Mix, Add, Words, Final, Padded;
  }

  lemma BlockWords(key: Octets, k: nat)
    requires k + 12 <= |key|
    ensures Words(key[k..k + 12]) == Triple(WordAt(key, k), WordAt(key, k + 4), WordAt(key, k + 8))
  {
    hide Word;
  }

  method HashBytes(key: Octets, initval: bv32) returns (h: bv32)
    ensures h == Hash(key, initval)
  {
    hide Mix, Final, Plus, Word, Words, WordAt, Start, Padded, Absorb, Hash, Reached;
    var start := Start(|key|, initval);
    var a, b, c := start.a, start.b, start.c;
    var k: nat, length := 0, |key|;
    AtStart(key, initval);
    while length > 12
      invariant k + length == |key| && length >= 0
      invariant Reached(key, initval, k, Triple(a, b, c))
    {
      NextBlock(key, initval, k, Triple(a, b, c));
      BlockWords(key, k);
      a := AddBytes(a, key, k);
      b := AddBytes(b, key, k + 4);
      c := AddBytes(c, key, k + 8);
      a, b, c := MixWords(a, b, c);
      length := length - 12;
      k := k + 12;
    }
    if length == 0 {
      NoBlock(key, initval, Triple(a, b, c));
      return c;
    }
    LastBlock(key, initval, k, Triple(a, b, c));
    a, b, c := FinishBytes(a, b, c, key[k..]);
    h := c;
  }

  method FinishBytes(a0: bv32, b0: bv32, c0: bv32, rest: Octets) returns (a: bv32, b: bv32, c: bv32)
    requires 1 <= |rest| <= 12
    ensures Triple(a, b, c) == Final(Add(Triple(a0, b0, c0), Words(Padded(rest))))
  {
    hide Mix, Final, Plus, Word, WordAt, Padded;
    c := AddDown(c0, rest, 8);
    b := AddDown(b0, rest, 4);
    a := AddDown(a0, rest, 0);
    a, b, c := FinalWords(a, b, c);
  }

  // ---- By 32-bit reads ----

  /** One word of the last block: the bytes past the end are read and masked off. */
  method AddMasked(x: bv32, mem: Octets, length: nat, k: nat, j: nat) returns (r: bv32)
    requires k < length <= k + 12 && j <= 8 && length <= |mem|
    requires k + j < length ==> k + j + 4 <= |mem|
    ensures r == Plus(x, WordAt(Padded(mem[k..length]), j))
  {
    hide Plus, Word;
    ghost var p, rest := Padded(mem[k..length]), mem[k..length];
    var i := k + j;
    assert forall n | 0 <= n < length - k :: rest[n] == mem[k + n];
    assert forall n | 0 <= n < 12 :: p[n] == if n < length - k then mem[k + n] else 0;
    if i + 4 <= length {
      r := Plus(x, WordAt(mem, i));
    } else if i + 3 == length {
      Mask3(mem[i], mem[i + 1], mem[i + 2], mem[i + 3]);
      r := Plus(x, WordAt(mem, i) & 0xffffff);
    } else if i + 2 == length {
      Mask2(mem[i], mem[i + 1], mem[i + 2], mem[i + 3]);
      r := Plus(x, WordAt(mem, i) & 0xffff);
    } else if i + 1 == length {
      Mask1(mem[i], mem[i + 1], mem[i + 2], mem[i + 3]);
      r := Plus(x, WordAt(mem, i) & 0xff);
    } else {
      NothingThere(x);
      r := x;
    }
  }

  lemma NothingThere(x: bv32)
    ensures Plus(x, Word(0, 0, 0, 0)) == x
  {
    assert Word(0, 0, 0, 0) == 0;
    PlusZero(x);
  }

  /** `mem` starts at the key, which is aligned to 4, and goes on to the next word boundary after its end. */
  method HashWords(mem: Octets, length: nat, initval: bv32) returns (h: bv32)
    requires (length + 3) / 4 * 4 <= |mem|
    ensures h == Hash(mem[..length], initval)
  {
    hide Mix, Final, Plus, Word, Words, WordAt, Start, Padded, Absorb, Hash, Reached;
    ghost var key := mem[..length];
    var start := Start(length, initval);
    var a, b, c := start.a, start.b, start.c;
    var k: nat, left := 0, length;
    AtStart(key, initval);
    while left > 12
      invariant k + left == length && left >= 0 && k % 4 == 0
      invariant Reached(key, initval, k, Triple(a, b, c))
    {
      NextBlock(key, initval, k, Triple(a, b, c));
      BlockWords(mem, k);
      assert mem[k..k + 12] == key[k..k + 12];
      a := Plus(a, WordAt(mem, k));
      b := Plus(b, WordAt(mem, k + 4));
      c := Plus(c, WordAt(mem, k + 8));
      a, b, c := MixWords(a, b, c);
      left := left - 12;
      k := k + 12;
    }
    if left == 0 {
      NoBlock(key, initval, Triple(a, b, c));
      return c;
    }
    LastBlock(key, initval, k, Triple(a, b, c));
    assert key[k..] == mem[k..length];
    a, b, c := FinishWords(a, b, c, mem, length, k);
    h := c;
  }

  method FinishWords(a0: bv32, b0: bv32, c0: bv32, mem: Octets, length: nat, k: nat)
    returns (a: bv32, b: bv32, c: bv32)
    requires k < length <= k + 12 && k % 4 == 0 && (length + 3) / 4 * 4 <= |mem|
    ensures Triple(a, b, c) == Final(Add(Triple(a0, b0, c0), Words(Padded(mem[k..length]))))
  {
    hide Mix, Final, Plus, Word, WordAt, Padded;
    c := AddMasked(c0, mem, length, k, 8);
    b := AddMasked(b0, mem, length, k, 4);
    a := AddMasked(a0, mem, length, k, 0);
    a, b, c := FinalWords(a, b, c);
  }

  // ---- By 16-bit reads ----

  /** Two halves at once, of a full word. */
  method AddHalves(x: bv32, key: Octets, i: nat) returns (r: bv32)
    requires i + 4 <= |key|
    ensures r == Plus(x, WordAt(key, i))
  {
    hide Plus, Word, Half;
    SumOfHalves(key[i], key[i + 1], key[i + 2], key[i + 3]);
    r := Plus(x, Plus(Half(key[i], key[i + 1]), Half(key[i + 2], key[i + 3]) << 16));
  }

  lemma ThreeBytes(x: bv32, b0: bv8, b1: bv8, b2: bv8)
    ensures Plus(Plus(x, (b2 as bv32) << 16), Half(b0, b1)) == Plus(x, Word(b0, b1, b2, 0))
  {
    SumOfHalves(b0, b1, b2, 0);
    HighHalf(b2);
    hide Plus, Word, Half;
    Commutes(Half(b0, b1), (b2 as bv32) << 16);
    Associates(x, (b2 as bv32) << 16, Half(b0, b1));
  }

  lemma HighHalf(b: bv8)
    ensures Half(b, 0) << 16 == (b as bv32) << 16
  {
  }

  lemma FewBytes(b0: bv8, b1: bv8)
    ensures Word(b0, b1, 0, 0) == Half(b0, b1) && Word(b0, 0, 0, 0) == b0 as bv32
  {
  }

  /** One word of the last block: its third byte by itself, its first two as a half. */
  method AddRest(x: bv32, rest: Octets, j: nat) returns (r: bv32)
    requires 1 <= |rest| <= 12 && j <= 8
    ensures r == Plus(x, WordAt(Padded(rest), j))
  {
    hide Plus, Word, Half;
    if j + 4 <= |rest| {
      r := AddHalves(x, rest, j);
    } else if j + 3 == |rest| {
      ThreeBytes(x, rest[j], rest[j + 1], rest[j + 2]);
      r := Plus(x, (rest[j + 2] as bv32) << 16);
      r := Plus(r, Half(rest[j], rest[j + 1]));
    } else if j + 2 == |rest| {
      FewBytes(rest[j], rest[j + 1]);
      r := Plus(x, Half(rest[j], rest[j + 1]));
    } else if j + 1 == |rest| {
      FewBytes(rest[j], 0);
      r := Plus(x, rest[j] as bv32);
    } else {
      NothingThere(x);
      r := x;
    }
  }

  method HashHalves(key: Octets, initval: bv32) returns (h: bv32)
    ensures h == Hash(key, initval)
  {
    hide Mix, Final, Plus, Word, Words, WordAt, Start, Padded, Absorb, Hash, Reached;
    var start := Start(|key|, initval);
    var a, b, c := start.a, start.b, start.c;
    var k: nat, length := 0, |key|;
    AtStart(key, initval);
    while length > 12
      invariant k + length == |key| && length >= 0
      invariant Reached(key, initval, k, Triple(a, b, c))
    {
      NextBlock(key, initval, k, Triple(a, b, c));
      BlockWords(key, k);
      a := AddHalves(a, key, k);
      b := AddHalves(b, key, k + 4);
      c := AddHalves(c, key, k + 8);
      a, b, c := MixWords(a, b, c);
      length := length - 12;
      k := k + 12;
    }
    if length == 0 {
      NoBlock(key, initval, Triple(a, b, c));
      return c;
    }
    LastBlock(key, initval, k, Triple(a, b, c));
    a, b, c := FinishHalves(a, b, c, key[k..]);
    h := c;
  }

  method FinishHalves(a0: bv32, b0: bv32, c0: bv32, rest: Octets) returns (a: bv32, b: bv32, c: bv32)
    requires 1 <= |rest| <= 12
    ensures Triple(a, b, c) == Final(Add(Triple(a0, b0, c0), Words(Padded(rest))))
  {
    hide Mix, Final, Plus, Word, WordAt, Padded;
    c := AddRest(c0, rest, 8);
    b := AddRest(b0, rest, 4);
    a := AddRest(a0, rest, 0);
    a, b, c := FinalWords(a, b, c);
  }

  /** Where the key lies decides how it is read, and never what comes out. */
  method HashLittle(mem: Octets, length: nat, address: nat, littleEndian: bool, initval: bv32) returns (h: bv32)
    requires length <= |mem|
    requires littleEndian && address % 4 == 0 ==> (length + 3) / 4 * 4 <= |mem|
    ensures h == Hash(mem[..length], initval)
  {
    if littleEndian && address % 4 == 0 {
      h := HashWords(mem, length, initval);
    } else if littleEndian && address % 2 == 0 {
      h := HashHalves(mem[..length], initval);
    } else {
      h := HashBytes(mem[..length], initval);
    }
  }
}
