/** Byte and word helpers of the interpreter: the masked-pattern test used by the
    decoder, single-bit tests, 16-bit joining and splitting, and population count.
    Bytes are `bv8` (Rust `u8`), so `+` and `-` on them wrap modulo 256 exactly
    as `wrapping_add`/`wrapping_sub` do; words are integers below 2^16 whose
    wrap-around is written out where the source wraps. */
module Bytes {

  /** `bitmatch`: the bits of `bits` selected by `mask` agree with those of `pattern`. */
  predicate Bitmatch(bits: bv8, pattern: bv8, mask: bv8) {
    bits & mask == pattern & mask
  }

  /** A bit position within a byte, 0 (least significant) to 7. */
  type BitIndex = n: bv8 | n < 8

  /** `bittest`: bit `n` of `x`. */
  predicate Bittest(x: bv8, n: BitIndex) {
    (x >> n) & 1 == 1
  }

  /** Bit `n` of `x` as a number, 0 or 1. */
  function BitValue(x: bv8, n: BitIndex): (v: nat)
    ensures v <= 1
    ensures v == 1 <==> Bittest(x, n)
  {
    if Bittest(x, n) then 1 else 0
  }

  /** `count_ones` on a byte. */
  function PopCount(x: bv8): (n: nat)
    ensures n <= 8
    ensures n == 0 <==> x == 0
  {
    BitValue(x, 0) + BitValue(x, 1) + BitValue(x, 2) + BitValue(x, 3)
      + BitValue(x, 4) + BitValue(x, 5) + BitValue(x, 6) + BitValue(x, 7)
  }

  /** Even parity: an even number of set bits. */
  predicate EvenParity(x: bv8) {
    PopCount(x) % 2 == 0
  }

  /** A 16-bit word (Rust `u16`): addresses, the program counter, the stack
      register SP and register-pair values. */
  type Word = w: int | 0 <= w < 0x10000

  /** `get_u16(hi, lo)`: the word whose high byte is `hi` and whose low byte is `lo`. */
  function GetU16(hi: bv8, lo: bv8): Word {
    hi as int * 256 + lo as int
  }

  /** Shifting `hi` into the high byte of a 16-bit value and or-ing in `lo`
      gives `get_u16(hi, lo)`. */
  lemma JoinIsGetU16(hi: bv8, lo: bv8)
    ensures (((hi as bv16) << 8) | lo as bv16) as int == GetU16(hi, lo)
  {
    assert ((hi as bv16) << 8) | lo as bv16 == (hi as bv16) * 256 + lo as bv16;
  }

  /** `((hi as u16) << 8) | lo as u16`, the way the register-pair address
      getters join two registers: it is `get_u16(hi, lo)`. */
  function JoinBytes(hi: bv8, lo: bv8): (w: Word)
    ensures w == GetU16(hi, lo)
  {
    var joined := ((hi as bv16) << 8) | lo as bv16;
    JoinIsGetU16(hi, lo);
    joined as int
  }

  /** The high byte of `get_u16(hi, lo)` is `hi`, and its low byte is `lo`. */
  lemma GetU16Bytes(hi: bv8, lo: bv8)
    ensures GetU16(hi, lo) / 256 == hi as int && GetU16(hi, lo) % 256 == lo as int
  {
  }

  /** `split_u16(w)`: the pair (high byte, low byte) of `w`. */
  function SplitU16(w: Word): (r: (bv8, bv8))
    ensures GetU16(r.0, r.1) == w
  {
    ByteRoundTrip(w / 256);
    ByteRoundTrip(w % 256);
    ((w / 256) as bv8, (w % 256) as bv8)
  }

  /** Converting a number below 256 to a byte and back loses nothing. */
  lemma ByteRoundTrip(k: int)
    requires 0 <= k < 256
    ensures (k as bv8) as int == k
  {
    if k < 16 {} else if k < 32 {} else if k < 64 {} else if k < 128 {} else {}
  }

  /** With the full mask, `bitmatch` is plain byte equality. This is how the
      exact-byte arms for XCHG, XTHL and SPHL are written. */
  lemma BitmatchFullMask(bits: bv8, pattern: bv8)
    ensures Bitmatch(bits, pattern, 0xFF) <==> bits == pattern
  {
  }

  /** Bits outside the mask do not influence `bitmatch`. */
  lemma BitmatchIgnoresUnmasked(bits: bv8, bits': bv8, pattern: bv8, mask: bv8)
    requires bits & mask == bits' & mask
    ensures Bitmatch(bits, pattern, mask) == Bitmatch(bits', pattern, mask)
  {
  }

  /** Every pattern matches itself, whatever the mask. */
  lemma BitmatchSelf(pattern: bv8, mask: bv8)
    ensures Bitmatch(pattern, pattern, mask)
  {
  }

  /** Bit `n` is either outside `mask` or the same in `bits` and in `pattern`. */
  predicate AgreeAt(bits: bv8, pattern: bv8, mask: bv8, n: BitIndex) {
    Bittest(mask, n) ==> (Bittest(bits, n) <==> Bittest(pattern, n))
  }

  /** `bitmatch` holds iff `bits` and `pattern` agree on every bit set in `mask`. */
  lemma {:induction false} BitmatchBitwise(bits: bv8, pattern: bv8, mask: bv8)
    ensures Bitmatch(bits, pattern, mask) <==> forall n: BitIndex :: AgreeAt(bits, pattern, mask, n)
  {
    if Bitmatch(bits, pattern, mask) {
      forall n: BitIndex ensures AgreeAt(bits, pattern, mask, n) {
        if n == 0 {} else if n == 1 {} else if n == 2 {} else if n == 3 {}
        else if n == 4 {} else if n == 5 {} else if n == 6 {} else {}
      }
    } else {
      assert !(AgreeAt(bits, pattern, mask, 0) && AgreeAt(bits, pattern, mask, 1)
        && AgreeAt(bits, pattern, mask, 2) && AgreeAt(bits, pattern, mask, 3)
        && AgreeAt(bits, pattern, mask, 4) && AgreeAt(bits, pattern, mask, 5)
        && AgreeAt(bits, pattern, mask, 6) && AgreeAt(bits, pattern, mask, 7));
    }
  }

  /** Splitting a joined word gives back its two bytes. */
  lemma SplitGetU16(hi: bv8, lo: bv8)
    ensures SplitU16(GetU16(hi, lo)) == (hi, lo)
  {
    var r := SplitU16(GetU16(hi, lo));
    GetU16Bytes(hi, lo);
    ByteIntInjective(r.0, hi);
    ByteIntInjective(r.1, lo);
  }

  lemma ByteIntInjective(x: bv8, y: bv8)
    requires x as int == y as int
    ensures x == y
  {
    assert (x as int) as bv8 == x;
    assert (y as int) as bv8 == y;
  }

  /** Rotating left by one moves bit 7 round into bit 0. */
  lemma RotateLeftOne(x: bv8)
    ensures x.RotateLeft(1) == (x << 1) | (if Bittest(x, 7) then 1 else 0)
  {
  }

  /** Rotating right by one moves bit 0 round into bit 7. */
  lemma RotateRightOne(x: bv8)
    ensures x.RotateRight(1) == if Bittest(x, 0) then 0x80 | (x >> 1) else x >> 1
  {
  }

  /** `wrapping_add(1)` on a word. */
  function WordInc(w: Word): (r: Word)
    ensures r == if w == 0xFFFF then 0 else w + 1
  {
    (w + 1) % 0x10000
  }

  /** `wrapping_sub(1)` on a word. */
  function WordDec(w: Word): (r: Word)
    ensures r == if w == 0 then 0xFFFF else w - 1
  {
    (w - 1) % 0x10000
  }

  /** Wrapping increment and decrement undo each other. */
  lemma WordIncDecInverse(w: Word)
    ensures WordDec(WordInc(w)) == w && WordInc(WordDec(w)) == w
  {
  }
}
