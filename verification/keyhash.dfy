/** Hash and equality of header keys: the two functors that serializer.hpp gives to the concurrent maps.

    Only the key and the salt take part. `std::size_t` is 64 bits wide, so every
    sum wraps modulo 2^64.
 */
module KeyHash {
  import opened Wire

  /** What the maps of the broker and of the launcher are indexed by. */
  datatype TopicKey = TopicKey(key: Key, salt: Quad)

  function KeyOf(h: Header): TopicKey {
    TopicKey(h.key, h.salt)
  }

  /** `packet_header_key_compare`: compares tuples of references to the two arrays. */
  predicate KeyCompare(a: Header, b: Header) {
    a.key == b.key && a.salt == b.salt
  }

  const WORD: nat := 0x1_0000_0000_0000_0000
  const GOLDEN: nat := 0x9e3779b9
  const SEED: Word := 0x1b873593

  type Word = n: nat | n < WORD

  /** Bitwise exclusive or. */
  function Xor(a: nat, b: nat): nat {
    if a == 0 && b == 0 then 0 else (a + b) % 2 + 2 * Xor(a / 2, b / 2)
  }

  function Power2(k: nat): nat {
    if k == 0 then 1 else 2 * Power2(k - 1)
  }

  lemma {:induction false} XorBound(a: nat, b: nat, k: nat)
    requires a < Power2(k) && b < Power2(k)
    ensures Xor(a, b) < Power2(k)
  {
    if k > 0 && (a != 0 || b != 0) {
      XorBound(a / 2, b / 2, k - 1);
    }
  }

  lemma {:induction false} LowBit(r: nat, x: nat)
    requires r < 2
    ensures (r + 2 * x) % 2 == r && (r + 2 * x) / 2 == x
  {
  }

  lemma {:induction false} XorBits(a: nat, b: nat)
    ensures Xor(a, b) % 2 == (a + b) % 2 && Xor(a, b) / 2 == Xor(a / 2, b / 2)
  {
    LowBit((a + b) % 2, Xor(a / 2, b / 2));
  }

  lemma {:induction false} ParityCancels(seed: nat, a: nat, b: nat)
    requires (seed + a) % 2 == (seed + b) % 2
    ensures a % 2 == b % 2
  {
  }

  lemma {:induction false} XorInjective(seed: nat, a: nat, b: nat)
    requires Xor(seed, a) == Xor(seed, b)
    ensures a == b
    decreases seed + a + b
  {
    XorBits(seed, a);
    XorBits(seed, b);
    ParityCancels(seed, a, b);
    if seed / 2 + a / 2 + b / 2 < seed + a + b {
      XorInjective(seed / 2, a / 2, b / 2);
      assert a == 2 * (a / 2) + a % 2 && b == 2 * (b / 2) + b % 2;
    }
  }

  /** Bit `k` of a number, counted from the least significant one. */
  function Bit(a: nat, k: nat): nat {
    if k == 0 then a % 2 else Bit(a / 2, k - 1)
  }

  /** Exclusive or, bit by bit. */
  lemma {:induction false} XorBit(a: nat, b: nat, k: nat)
    ensures Bit(Xor(a, b), k) == (Bit(a, k) + Bit(b, k)) % 2
  {
    XorBits(a, b);
    hide Xor;
    if k > 0 {
      XorBit(a / 2, b / 2, k - 1);
    }
  }

  lemma {:induction false} EightMoreBits(k: nat)
    ensures Power2(k + 8) == 256 * Power2(k)
  {
    assert Power2(k + 2) == 4 * Power2(k);
    assert Power2(k + 4) == 4 * Power2(k + 2);
    assert Power2(k + 6) == 4 * Power2(k + 4);
  }

  lemma {:induction false} WordIsPower()
    ensures WORD == Power2(64)
  {
    EightMoreBits(0);
    EightMoreBits(8);
    EightMoreBits(16);
    EightMoreBits(24);
    EightMoreBits(32);
    EightMoreBits(40);
    EightMoreBits(48);
    EightMoreBits(56);
  }

  /** `hash_combine`: shifting by 6 and 2 is multiplying by 64 and dividing by 4. */
  function Combine(seed: Word, b: byte): Word {
    var sum := (b + GOLDEN + seed * 64 + seed / 4) % WORD;
    WordIsPower();
    XorBound(seed, sum, 64);
    Xor(seed, sum)
  }

  /** Left fold of `hash_combine` over a byte range. */
  function Fold(seed: Word, s: seq<byte>): Word
    decreases |s|
  {
    if s == [] then seed else Fold(Combine(seed, s[0]), s[1..])
  }

  /** `packet_header_key_hash`. */
  function Hash(h: Header): Word {
    Fold(Fold(SEED, h.key), h.salt)
  }

  /** `hash_range`, which updates the seed through a reference. */
  method HashRange(seed: Word, s: seq<byte>) returns (out: Word)
    ensures out == Fold(seed, s)
  {
    out := seed;
    for i := 0 to |s|
      invariant Fold(out, s[i..]) == Fold(seed, s)
    {
      assert s[i..][1..] == s[i + 1..];
      out := Combine(out, s[i]);
    }
    assert s[|s|..] == [];
  }

  lemma {:induction false} FoldAppend(seed: Word, a: seq<byte>, b: seq<byte>)
    ensures Fold(seed, a + b) == Fold(Fold(seed, a), b)
    decreases |a|
  {
    if a == [] {
      assert a + b == b;
    } else {
      FoldAppend(Combine(seed, a[0]), a[1..], b);
      assert (a + b)[1..] == a[1..] + b;
    }
  }

  /** Hashing the key and then the salt is one fold over their concatenation, and so depends on the
      topic key alone: headers that compare equal hash equally, whatever their other fields. */
  lemma {:induction false} HashIsOneFold(h: Header, o: Header)
    ensures Hash(h) == Fold(SEED, h.key + h.salt)
    ensures KeyCompare(h, o) <==> KeyOf(h) == KeyOf(o)
    ensures KeyCompare(h, o) ==> Hash(h) == Hash(o)
  {
    FoldAppend(SEED, h.key, h.salt);
  }

  /** One step, bit by bit of 64: the seed against the sum of the byte, 0x9e3779b9, the seed shifted left by six and
      the seed shifted right by two. */
  lemma {:induction false} CombineBits(seed: Word, b: byte, k: nat)
    ensures var sum := (b + 0x9e3779b9 + seed * 64 + seed / 4) % 0x1_0000_0000_0000_0000;
      Bit(Combine(seed, b), k) == (Bit(seed, k) + Bit(sum, k)) % 2
  {
    hide Xor, Bit;
    XorBit(seed, (b + GOLDEN + seed * 64 + seed / 4) % WORD, k);
  }

  /** The fold goes from the first byte to the last, starting from the seed 0x1b873593. */
  lemma {:induction false} HashSteps(h: Header, seed: Word, s: seq<byte>, b: byte)
    ensures Hash(h) == Fold(0x1b873593, h.key + h.salt)
    ensures Fold(seed, []) == seed && Fold(seed, s + [b]) == Combine(Fold(seed, s), b)
  {
    FoldAppend(seed, s, [b]);
    FoldAppend(SEED, h.key, h.salt);
    assert [b][1..] == [];
    hide Combine;
  }

  lemma {:induction false} CombineInjective(seed: Word, a: byte, b: byte)
    requires Combine(seed, a) == Combine(seed, b)
    ensures a == b
  {
    var rest := GOLDEN + seed * 64 + seed / 4;
    var x, y := (a + rest) % WORD, (b + rest) % WORD;
    assert a + rest == a + GOLDEN + seed * 64 + seed / 4 && b + rest == b + GOLDEN + seed * 64 + seed / 4;
    assert Combine(seed, a) == Xor(seed, x) && Combine(seed, b) == Xor(seed, y);
    XorInjective(seed, x, y);
    ShiftedBytesDiffer(a, b, rest);
  }

  lemma {:induction false} ShiftedBytesDiffer(a: byte, b: byte, rest: nat)
    requires (a + rest) % WORD == (b + rest) % WORD
    ensures a == b
  {
    var p, q := (a + rest) / WORD, (b + rest) / WORD;
    assert a - b == WORD * (p - q);
  }

  /** Headers that differ only in the last byte of the salt never collide. */
  lemma {:induction false} LastSaltByteNeverCollides(a: Header, b: Header)
    requires a.key == b.key && a.salt[..3] == b.salt[..3]
    ensures Hash(a) == Hash(b) <==> a.salt[3] == b.salt[3]
  {
    var prefix := a.key + a.salt[..3];
    var seed := Fold(SEED, prefix);
    forall h | h == a || h == b
      ensures Hash(h) == Combine(seed, h.salt[3])
    {
      HashIsOneFold(h, h);
      assert h.key + h.salt == prefix + [h.salt[3]];
      FoldAppend(SEED, prefix, [h.salt[3]]);
    }
    if Hash(a) == Hash(b) {
      CombineInjective(seed, a.salt[3], b.salt[3]);
    }
  }
}
