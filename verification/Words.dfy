/** Bytes, words and the C integer idioms the emulator relies on. */
module Words {
  type byte = x: int | 0 <= x < 256
  type word = x: int | 0 <= x < 65536

  /** Storing an int into an `unsigned char`. */
  function Byte(x: int): byte { x % 256 }

  /** Storing an int into an `unsigned short`, or passing it as a `uint16_t` address. */
  function Word(x: int): word { x % 65536 }

  function Hi(w: word): byte { w / 256 }

  function Lo(w: word): byte { w % 256 }

  function Pair(hi: byte, lo: byte): word { hi * 256 + lo }

  /** The `(signed char)` cast. */
  function Signed(b: byte): int { if b < 128 then b else b - 256 }

  /** `n & weight` is nonzero, for a weight that is a power of two. Euclidean division makes this
      the two's complement bit for negative `n` too. */
  predicate Bit(n: int, weight: int)
    requires weight > 0
  {
    (n / weight) % 2 == 1
  }

  /** The bit of weight `weight` in `a ^ b ^ z`: the parity of the three bits. */
  predicate XorBit(a: int, b: int, z: int, weight: int)
    requires weight > 0
  {
    Bit(a, weight) != (Bit(b, weight) != Bit(z, weight))
  }

  /** Even parity of the low eight bits. */
  predicate EvenParity(b: byte) {
    (Bit(b, 1) != (Bit(b, 2) != (Bit(b, 4) != Bit(b, 8))))
    == (Bit(b, 16) != (Bit(b, 32) != (Bit(b, 64) != Bit(b, 128))))
  }

  /** Reducing modulo 65536 before or after adding an offset makes no difference. */
  lemma WordAbsorbs(a: int, k: int)
    ensures Word(Word(a) + k) == Word(a + k)
  {
  }

  lemma WordId(a: int)
    ensures Word(Word(a)) == Word(a)
  {
  }

  lemma PairParts(hi: byte, lo: byte)
    ensures Hi(Pair(hi, lo)) == hi && Lo(Pair(hi, lo)) == lo
  {
  }

  lemma SmallMultiple(d: int, e: int)
    requires d > 0 && -d < d * e < d
    ensures e == 0
  {
  }
}
