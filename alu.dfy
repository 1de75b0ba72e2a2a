/** The ALU and flag rules: 8-bit add and subtract with their status bits, and
    the byte-level effect of the executor's flag helpers `get_flag`,
    `set_flag`, `set_flags` and `set_logical_flag` on the flag register. */
module Alu {
  import opened Bytes

  datatype Option<T> = None | Some(value: T)

  /** Positions of the status bits in the flag register. */
  const CarryBit: BitIndex := 0
  const ParityBit: BitIndex := 2
  const AuxCarryBit: BitIndex := 4
  const ZeroBit: BitIndex := 6
  const SignBit: BitIndex := 7

  /** The tuple `(result, carry, parity, auxiliary carry, zero, sign)`. */
  datatype AluResult = AluResult(res: bv8, carry: bool, parity: bool, aux: bool, zero: bool, sign: bool)

  /** Zero, sign and parity as every flagged operation derives them from its result. */
  predicate DescribesResult(r: AluResult) {
    && (r.zero <==> r.res == 0)
    && (r.sign <==> Bittest(r.res, 7))
    && (r.parity <==> EvenParity(r.res))
  }

  /** `flagged_add(x, y)`: the wrapped sum and its status bits; carry is the
      ninth bit of the exact sum. The auxiliary carry follows the low-nibble
      rule of the 8080 manual. */
  function FlaggedAdd(x: bv8, y: bv8): (r: AluResult)
    ensures r.res == x + y
    ensures r.carry <==> x as int + y as int > 255
    ensures DescribesResult(r)
  {
    var sum := x as bv16 + y as bv16;
    var res := (sum & 0xFF) as bv8;
    AluResult(res, sum > 0xFF, EvenParity(res), (x & 0xF) + (y & 0xF) > 0xF, res == 0, Bittest(res, 7))
  }

  /** `flagged_sub(x, y)`: the wrapped difference and its status bits; carry is
      the borrow out of bit 7. The auxiliary carry is the low-nibble borrow. */
  function FlaggedSub(x: bv8, y: bv8): (r: AluResult)
    ensures r.res == x - y
    ensures r.carry <==> x < y
    ensures DescribesResult(r)
  {
    var diff := x as bv16 - y as bv16;
    var res := (diff & 0xFF) as bv8;
    AluResult(res, diff > 0xFF, EvenParity(res), (x & 0xF) < (y & 0xF), res == 0, Bittest(res, 7))
  }

  /** Subtracting a value from itself gives zero with Zero and Parity set and
      Carry and Sign clear. */
  lemma FlaggedSubSelf(x: bv8)
    ensures FlaggedSub(x, x).res == 0
    ensures FlaggedSub(x, x).zero && FlaggedSub(x, x).parity
    ensures !FlaggedSub(x, x).carry && !FlaggedSub(x, x).sign
  {
  }

  /** `get_flag`: whether bit `bit` of the flag register is set. */
  predicate FlagBit(f: bv8, bit: BitIndex) {
    (f & (1 << bit)) >> bit == 1
  }

  /** `self.flag &= mask`, the merge both flag setters use. */
  function KeepOnly(f: bv8, bit: BitIndex): bv8 {
    f & (1 << bit)
  }

  /** `set_flag(bit, v)`: `flag &= (v as u8) << bit`. The merge can only clear
      bits: afterwards no bit other than `bit` is set, `bit` is set only if it
      was set before and `v` holds, and `v == false` clears the register. */
  function SetFlagValue(f: bv8, bit: BitIndex, v: bool): (r: bv8)
    ensures r & f == r
    ensures !v ==> r == 0
    ensures FlagBit(r, bit) <==> v && FlagBit(f, bit)
    ensures forall i: BitIndex | i != bit :: !FlagBit(r, i)
  {
    var one: bv8 := if v then 1 else 0;
    f & (one << bit)
  }

  /** Whether the `set_flags` argument `o` for flag `bit` lets bit `i`
      survive: a `Some(true)` request keeps only its own bit. */
  predicate Allows(o: Option<bool>, bit: BitIndex, i: BitIndex) {
    o == Some(true) ==> i == bit
  }

  /** Applies one `set_flags` argument: only `Some(true)` changes the register. */
  function MergeOne(f: bv8, o: Option<bool>, bit: BitIndex): (r: bv8)
    ensures forall i: BitIndex :: FlagBit(r, i) <==> FlagBit(f, i) && Allows(o, bit, i)
  {
    if o == Some(true) then KeepOnly(f, bit) else f
  }

  /** How many of the five `set_flags` arguments are `Some(true)`. */
  function TrueCount(carry: Option<bool>, parity: Option<bool>, aux: Option<bool>,
                     zero: Option<bool>, sign: Option<bool>): nat
  {
    (if carry == Some(true) then 1 else 0) + (if parity == Some(true) then 1 else 0)
      + (if aux == Some(true) then 1 else 0) + (if zero == Some(true) then 1 else 0)
      + (if sign == Some(true) then 1 else 0)
  }

  /** `set_flags(carry, parity, aux, zero, sign)`: every `Some(true)` argument
      ANDs the register with its own bit, in the order carry, parity, aux,
      zero, sign. So bits are only ever cleared: a bit survives exactly when
      it was set and every request names it. With no request the register is
      unchanged, with one it keeps at most that bit, and two or more requests
      clear it entirely. */
  function MergeFlags(f: bv8, carry: Option<bool>, parity: Option<bool>, aux: Option<bool>,
                      zero: Option<bool>, sign: Option<bool>): (r: bv8)
    ensures forall i: BitIndex :: FlagBit(r, i) <==>
      && FlagBit(f, i) && Allows(carry, CarryBit, i) && Allows(parity, ParityBit, i)
      && Allows(aux, AuxCarryBit, i) && Allows(zero, ZeroBit, i) && Allows(sign, SignBit, i)
    ensures r & f == r
    ensures TrueCount(carry, parity, aux, zero, sign) == 0 ==> r == f
    ensures TrueCount(carry, parity, aux, zero, sign) >= 2 ==> r == 0
  {
    var f1 := MergeOne(f, carry, CarryBit);
    var f2 := MergeOne(f1, parity, ParityBit);
    var f3 := MergeOne(f2, aux, AuxCarryBit);
    var f4 := MergeOne(f3, zero, ZeroBit);
    MergeOne(f4, sign, SignBit)
  }

  /** `set_logical_flag` after a logical operation left `acc` in the
      accumulator. Its first step clears Carry with `set_flag(CARRY_BIT, false)`,
      which zeroes the register, so the result is always 0 whatever the
      accumulator; in particular the `> 0x80` sign test has no effect. */
  function LogicalFlags(f: bv8, acc: bv8): (r: bv8)
    ensures r == 0
  {
    var f1 := SetFlagValue(f, CarryBit, false);
    var f2 := SetFlagValue(f1, ParityBit, EvenParity(acc));
    var f3 := SetFlagValue(f2, AuxCarryBit, false);
    var f4 := SetFlagValue(f3, ZeroBit, acc == 0);
    SetFlagValue(f4, SignBit, acc > 0x80)
  }

  /** ADC's and SBB's operand: `src.wrapping_add(c)` with `c` the carry as 0 or 1. */
  function PlusCarry(v: bv8, cy: bool): bv8 {
    v + (if cy then 1 else 0)
  }

  /** CMC's `flag ^= 1 << CARRY_BIT`. */
  function ToggleCarry(f: bv8): bv8 {
    f ^ (1 << CarryBit)
  }

  /** STC's `flag |= 1 << CARRY_BIT`. */
  function RaiseCarry(f: bv8): bv8 {
    f | (1 << CarryBit)
  }

  /** `(x << 1) | u8::from(b)`: shift left, `b` entering bit 0. */
  function ShiftInLow(x: bv8, b: bool): bv8 {
    (x << 1) | (if b then 1 else 0)
  }

  /** `if b { 0x80 | (x >> 1) } else { x >> 1 }`: shift right, `b` entering bit 7. */
  function ShiftInHigh(x: bv8, b: bool): bv8 {
    if b then 0x80 | (x >> 1) else x >> 1
  }

  /** The high-nibble test of DAA: the carry it computes from the
      accumulator and the old carry. */
  predicate DaaCarry(x: bv8, cy: bool) {
    cy || x >> 4 > 9 || (x >> 4 >= 9 && x & 0x0F > 9)
  }

  /** Toggling bit 0 (CMC) flips Carry and keeps every other bit. */
  lemma ComplementCarry(f: bv8)
    ensures FlagBit(ToggleCarry(f), CarryBit) <==> !FlagBit(f, CarryBit)
    ensures forall i: BitIndex | i != CarryBit :: FlagBit(ToggleCarry(f), i) == FlagBit(f, i)
  {
    forall i: BitIndex | i != CarryBit ensures FlagBit(ToggleCarry(f), i) == FlagBit(f, i) {
      if i == 1 {} else if i == 2 {} else if i == 3 {} else if i == 4 {}
      else if i == 5 {} else if i == 6 {} else {}
    }
  }

  /** Setting bit 0 (STC) sets Carry and keeps every other bit. */
  lemma SetCarry(f: bv8)
    ensures FlagBit(RaiseCarry(f), CarryBit)
    ensures forall i: BitIndex | i != CarryBit :: FlagBit(RaiseCarry(f), i) == FlagBit(f, i)
  {
    forall i: BitIndex | i != CarryBit ensures FlagBit(RaiseCarry(f), i) == FlagBit(f, i) {
      if i == 1 {} else if i == 2 {} else if i == 3 {} else if i == 4 {}
      else if i == 5 {} else if i == 6 {} else {}
    }
  }

  /** A single `Some(true)` request to `set_flags` keeps only that flag's bit
      of the register, as INR and DCR show when only one of their four
      results is true. */
  lemma MergeFlagsSingle(f: bv8)
    ensures MergeFlags(f, Some(true), None, None, None, None) == f & 0x01
    ensures MergeFlags(f, None, Some(true), None, None, None) == f & 0x04
    ensures MergeFlags(f, None, None, Some(true), None, None) == f & 0x10
    ensures MergeFlags(f, None, None, None, Some(true), None) == f & 0x40
    ensures MergeFlags(f, None, None, None, None, Some(true)) == f & 0x80
  {
  }

  /** `get_flag(bit)` is exactly bit `bit` of the register. */
  lemma FlagBitIsBittest(f: bv8, bit: BitIndex)
    ensures FlagBit(f, bit) <==> Bittest(f, bit)
  {
    if bit == 0 {} else if bit == 1 {} else if bit == 2 {} else if bit == 3 {}
    else if bit == 4 {} else if bit == 5 {} else if bit == 6 {} else {}
  }
}
