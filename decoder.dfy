/** The opcode map the interpreter's decoder implements, written as the 8080
    opcode table is usually drawn: by quadrant (bits 7-6), then by the fields
    `y` (bits 5-3), `p` (bits 5-4), `q` (bit 3) and `z` (bits 2-0). The
    machine's `Fetch` is the decoder's ordered chain of exact-byte and masked
    tests and is proved to agree with this map on every byte. */
module Decoder {
  import opened Bytes
  import opened Instructions

  /** Bits 5-3 of an opcode. */
  function FieldY(op: bv8): (y: bv8)
    ensures y < 8
  {
    (op >> 3) & 7
  }

  /** Bits 2-0 of an opcode. */
  function FieldZ(op: bv8): (z: bv8)
    ensures z < 8
  {
    op & 7
  }

  /** The decoder hands `idx2rp` the unshifted pair bit of LDAX/STAX, which is
      16 for the DE forms 0x12 (STAX D) and 0x1A (LDAX D); `idx2rp` has no
      pair for 16, so those two bytes cannot be decoded. */
  predicate Decodable(op: bv8) {
    op != 0x12 && op != 0x1A
  }

  /** The byte values that match no arm of the decoder: 00yyy000 except NOP,
      the RST bytes 11yyy111, and 0xCB, 0xD9, 0xDD, 0xED, 0xFD. */
  const UnknownBytes: set<bv8> :=
    {0x08, 0x10, 0x18, 0x20, 0x28, 0x30, 0x38,
     0xCB, 0xD9, 0xDD, 0xED, 0xFD,
     0xC7, 0xCF, 0xD7, 0xDF, 0xE7, 0xEF, 0xF7, 0xFF}

  /** The accumulator operations of quadrant 2, selected by `y`. */
  function AluReg(y: bv8, r: Src): (ins: Instruction)
    requires y < 8
  {
    if y == 0 then ADD(r) else if y == 1 then ADC(r) else if y == 2 then SUB(r)
    else if y == 3 then SBB(r) else if y == 4 then ANA(r) else if y == 5 then XRA(r)
    else if y == 6 then ORA(r) else CMP(r)
  }

  /** The immediate accumulator operations 11yyy110. */
  function AluImm(y: bv8, data: bv8): (ins: Instruction)
    requires y < 8
  {
    if y == 0 then ADI(data) else if y == 1 then ACI(data) else if y == 2 then SUI(data)
    else if y == 3 then SBI(data) else if y == 4 then ANI(data) else if y == 5 then XRI(data)
    else if y == 6 then ORI(data) else CPI(data)
  }

  /** Conditional returns 11yyy000, in condition order NZ, Z, NC, C, PO, PE, P, M. */
  function ReturnOn(y: bv8): (ins: Instruction)
    requires y < 8
  {
    if y == 0 then RNZ else if y == 1 then RZ else if y == 2 then RNC else if y == 3 then RC
    else if y == 4 then RPO else if y == 5 then RPE else if y == 6 then RP else RM
  }

  /** Conditional jumps 11yyy010. */
  function JumpOn(y: bv8, lo: bv8, hi: bv8): (ins: Instruction)
    requires y < 8
  {
    if y == 0 then JNZ(lo, hi) else if y == 1 then JZ(lo, hi) else if y == 2 then JNC(lo, hi)
    else if y == 3 then JC(lo, hi) else if y == 4 then JPO(lo, hi) else if y == 5 then JPE(lo, hi)
    else if y == 6 then JP(lo, hi) else JM(lo, hi)
  }

  /** Conditional calls 11yyy100. */
  function CallOn(y: bv8, lo: bv8, hi: bv8): (ins: Instruction)
    requires y < 8
  {
    if y == 0 then CNZ(lo, hi) else if y == 1 then CZ(lo, hi) else if y == 2 then CNC(lo, hi)
    else if y == 3 then CC(lo, hi) else if y == 4 then CPO(lo, hi) else if y == 5 then CPE(lo, hi)
    else if y == 6 then CP(lo, hi) else CM(lo, hi)
  }

  /** Quadrant 0 (00yyyzzz): moves of immediates and pairs, increments,
      rotates and the accumulator/carry specials. MVI takes its register from
      bits 5-4 (`y >> 1`), as the decoder shifts that field by 4. */
  function DecodeQuadrant0(op: bv8, lo: bv8, hi: bv8): (r: Result<Instruction>)
    requires op < 0x40 && Decodable(op)
  {
    var y, z := FieldY(op), FieldZ(op);
    var p, q := y >> 1, y & 1;
    if z == 0 then
      if y == 0 then Ok(NOP) else Err(UnknownOpcode(op))
    else if z == 1 then
      if q == 0 then Ok(LXI(Idx2Rp(p), lo, hi)) else Ok(DAD(Idx2Rp(p)))
    else if z == 2 then
      if p == 0 then (if q == 0 then Ok(SATX(BC)) else Ok(LDAX(BC)))
      else if p == 2 then (if q == 0 then Ok(SHLD(lo, hi)) else Ok(LHLD(lo, hi)))
      else if p == 3 then (if q == 0 then Ok(STA(lo, hi)) else Ok(LDA(lo, hi)))
      else assert false; Err(UnknownOpcode(op))
    else if z == 3 then
      if q == 0 then Ok(INX(Idx2Rp(p))) else Ok(DCX(Idx2Rp(p)))
    else if z == 4 then Ok(INR(Idx2Src(y)))
    else if z == 5 then Ok(DCR(Idx2Src(y)))
    else if z == 6 then Ok(MVI(Idx2Src(y >> 1), lo))
    else
      if y == 0 then Ok(RLC) else if y == 1 then Ok(RRC) else if y == 2 then Ok(RAL)
      else if y == 3 then Ok(RAR) else if y == 4 then Ok(DAA) else if y == 5 then Ok(CMA)
      else if y == 6 then Ok(STC) else Ok(CMC)
  }

  /** Quadrant 3 (11yyyzzz): returns, jumps, calls, stack operations, the
      immediate accumulator operations and the exact-byte specials. */
  function DecodeQuadrant3(op: bv8, lo: bv8, hi: bv8): (r: Result<Instruction>)
    requires op >= 0xC0
  {
    var y, z := FieldY(op), FieldZ(op);
    var p, q := y >> 1, y & 1;
    if z == 0 then Ok(ReturnOn(y))
    else if z == 1 then
      if q == 0 then Ok(POP(Idx2Rp(p)))
      else if p == 0 then Ok(RET) else if p == 1 then Err(UnknownOpcode(op))
      else if p == 2 then Ok(PCHL) else Ok(SPHL)
    else if z == 2 then Ok(JumpOn(y, lo, hi))
    else if z == 3 then
      if y == 0 then Ok(JMP(lo, hi)) else if y == 1 then Err(UnknownOpcode(op))
      else if y == 2 then Ok(OUT(lo)) else if y == 3 then Ok(IN(lo))
      else if y == 4 then Ok(XTHL) else if y == 5 then Ok(XCHG)
      else if y == 6 then Ok(DI) else Ok(EI)
    else if z == 4 then Ok(CallOn(y, lo, hi))
    else if z == 5 then
      if q == 0 then Ok(PUSH(Idx2Rp(p)))
      else if p == 0 then Ok(CALL(lo, hi)) else Err(UnknownOpcode(op))
    else if z == 6 then Ok(AluImm(y, lo))
    else Err(UnknownOpcode(op))
  }

  /** The instruction, or the unknown-opcode error, that the decoder produces
      for opcode `op` followed by the bytes `lo` and `hi`. An error always
      reports the offending opcode. */
  function Decode(op: bv8, lo: bv8, hi: bv8): (r: Result<Instruction>)
    requires Decodable(op)
    ensures r.Err? ==> r.error == UnknownOpcode(op)
  {
    if op < 0x40 then DecodeQuadrant0(op, lo, hi)
    else if op < 0x80 then Ok(MOV(Idx2Src(FieldY(op)), Idx2Src(FieldZ(op))))
    else if op < 0xC0 then Ok(AluReg(FieldY(op), Idx2Src(FieldZ(op))))
    else DecodeQuadrant3(op, lo, hi)
  }

  /** How many bytes the decoder consumes for opcode `op`: 2 for MVI
      (00rrr110), the immediate accumulator operations (11yyy110), OUT and IN;
      3 for LXI (00pp0001), SHLD/LHLD/STA/LDA (001xx010), JMP, the conditional
      jumps (11ccc010) and calls (11ccc100), and CALL; 1 for every other byte,
      the unknown ones included. */
  function DecodedLength(op: bv8): (n: nat)
    ensures 1 <= n <= 3
  {
    if op & 0xC7 == 0x06 || op & 0xC7 == 0xC6 || op == 0xD3 || op == 0xDB then 2
    else if op & 0xCF == 0x01 || op & 0xE7 == 0x22 || op == 0xC3
         || op & 0xC7 == 0xC2 || op & 0xC7 == 0xC4 || op == 0xCD then 3
    else 1
  }

  /** A decoding result carries, as its operands, the first `n - 1` of the
      bytes `lo`, `hi` that follow the opcode. */
  predicate Consumes(r: Result<Instruction>, n: nat, lo: bv8, hi: bv8)
    requires 1 <= n <= 3
  {
    r.Ok? ==> Operands(r.value) == [lo, hi][..n - 1]
  }

  /** Every byte 0x40-0x7F is a MOV whose destination is bits 5-3 and whose
      source is bits 2-0. */
  lemma DecodeMov(op: bv8, lo: bv8, hi: bv8)
    requires 0x40 <= op < 0x80
    ensures Decode(op, lo, hi) == Ok(MOV(Idx2Src((op & 0x38) >> 3), Idx2Src(op & 7)))
  {
  }

  /** The MOV test precedes the HLT test, so 0x76 is MOV M,M and no byte
      decodes to HLT. */
  lemma HaltNeverDecoded(op: bv8, lo: bv8, hi: bv8)
    requires Decodable(op)
    ensures Decode(0x76, lo, hi) == Ok(MOV(Mem, Mem))
    ensures Decode(op, lo, hi) != Ok(HLT)
  {
    if op < 0x40 {
      Quadrant0NoHalt(op, lo, hi);
    } else if op >= 0xC0 {
      Quadrant3NoHalt(op, lo, hi);
    }
  }

  lemma Quadrant0NoHalt(op: bv8, lo: bv8, hi: bv8)
    requires op < 0x40 && Decodable(op)
    ensures DecodeQuadrant0(op, lo, hi) != Ok(HLT)
  {
  }

  lemma Quadrant3NoHalt(op: bv8, lo: bv8, hi: bv8)
    requires op >= 0xC0
    ensures DecodeQuadrant3(op, lo, hi) != Ok(HLT)
  {
  }

  /** Decoding fails exactly on the twenty unknown bytes. */
  lemma DecodeErrIff(op: bv8, lo: bv8, hi: bv8)
    requires Decodable(op)
    ensures Decode(op, lo, hi).Err? <==> op in UnknownBytes
  {
    if op < 0x40 {
      Quadrant0ErrIff(op, lo, hi);
    } else if op >= 0xC0 {
      Quadrant3ErrIff(op, lo, hi);
    }
  }

  lemma Quadrant0ErrIff(op: bv8, lo: bv8, hi: bv8)
    requires op < 0x40 && Decodable(op)
    ensures DecodeQuadrant0(op, lo, hi).Err? <==> op in UnknownBytes
  {
  }

  lemma Quadrant3ErrIff(op: bv8, lo: bv8, hi: bv8)
    requires op >= 0xC0
    ensures DecodeQuadrant3(op, lo, hi).Err? <==> op in UnknownBytes
  {
  }

  /** The register accumulator operations and the returns carry no operand. */
  lemma AluRegOperands(y: bv8, r: Src)
    requires y < 8
    ensures Operands(AluReg(y, r)) == []
  {
  }

  lemma ReturnOnOperands(y: bv8)
    requires y < 8
    ensures Operands(ReturnOn(y)) == []
  {
  }

  /** The immediate accumulator operations carry their data byte. */
  lemma AluImmOperands(y: bv8, data: bv8)
    requires y < 8
    ensures Operands(AluImm(y, data)) == [data]
  {
  }

  /** Conditional jumps and calls carry their low and high address bytes. */
  lemma JumpOnOperands(y: bv8, lo: bv8, hi: bv8)
    requires y < 8
    ensures Operands(JumpOn(y, lo, hi)) == [lo, hi]
  {
  }

  lemma CallOnOperands(y: bv8, lo: bv8, hi: bv8)
    requires y < 8
    ensures Operands(CallOn(y, lo, hi)) == [lo, hi]
  {
  }

  /** Quadrant 0 attaches to each instruction the bytes it consumes. */
  lemma Quadrant0Operands(op: bv8, lo: bv8, hi: bv8)
    requires op < 0x40 && Decodable(op)
    ensures Consumes(DecodeQuadrant0(op, lo, hi), DecodedLength(op), lo, hi)
  {
    var z := FieldZ(op);
    if z == 0 {} else if z == 1 {} else if z == 2 {} else if z == 3 {}
    else if z == 4 {} else if z == 5 {} else if z == 6 {} else {}
  }

  lemma Quadrant3ConsumesLow(op: bv8, lo: bv8, hi: bv8)
    requires op >= 0xC0 && FieldZ(op) < 2
    ensures Consumes(DecodeQuadrant3(op, lo, hi), DecodedLength(op), lo, hi)
  {
    ReturnOnOperands(FieldY(op));
  }

  lemma Quadrant3ConsumesJump(op: bv8, lo: bv8, hi: bv8)
    requires op >= 0xC0 && FieldZ(op) == 2
    ensures Consumes(DecodeQuadrant3(op, lo, hi), DecodedLength(op), lo, hi)
  {
    JumpOnOperands(FieldY(op), lo, hi);
  }

  /** JMP, the unknown 0xCB, OUT and IN. */
  lemma Quadrant3ConsumesIo(op: bv8, lo: bv8, hi: bv8)
    requires op >= 0xC0 && FieldZ(op) == 3 && FieldY(op) < 4
    ensures Consumes(DecodeQuadrant3(op, lo, hi), DecodedLength(op), lo, hi)
  {
    assert op == 0xC3 || op == 0xCB || op == 0xD3 || op == 0xDB;
  }

  /** XTHL, XCHG, DI and EI. */
  lemma Quadrant3ConsumesExchange(op: bv8, lo: bv8, hi: bv8)
    requires op >= 0xC0 && FieldZ(op) == 3 && FieldY(op) >= 4
    ensures Consumes(DecodeQuadrant3(op, lo, hi), DecodedLength(op), lo, hi)
  {
    assert op == 0xE3 || op == 0xEB || op == 0xF3 || op == 0xFB;
  }

  lemma Quadrant3ConsumesCall(op: bv8, lo: bv8, hi: bv8)
    requires op >= 0xC0 && FieldZ(op) == 4
    ensures Consumes(DecodeQuadrant3(op, lo, hi), DecodedLength(op), lo, hi)
  {
    CallOnOperands(FieldY(op), lo, hi);
  }

  lemma Quadrant3ConsumesHigh(op: bv8, lo: bv8, hi: bv8)
    requires op >= 0xC0 && FieldZ(op) >= 5
    ensures Consumes(DecodeQuadrant3(op, lo, hi), DecodedLength(op), lo, hi)
  {
    AluImmOperands(FieldY(op), lo);
  }

  /** Quadrant 3 attaches to each instruction the bytes it consumes. */
  lemma Quadrant3Operands(op: bv8, lo: bv8, hi: bv8)
    requires op >= 0xC0
    ensures Consumes(DecodeQuadrant3(op, lo, hi), DecodedLength(op), lo, hi)
  {
    var z := FieldZ(op);
    if z < 2 {
      Quadrant3ConsumesLow(op, lo, hi);
    } else if z == 2 {
      Quadrant3ConsumesJump(op, lo, hi);
    } else if z == 3 && FieldY(op) < 4 {
      Quadrant3ConsumesIo(op, lo, hi);
    } else if z == 3 {
      Quadrant3ConsumesExchange(op, lo, hi);
    } else if z == 4 {
      Quadrant3ConsumesCall(op, lo, hi);
    } else {
      Quadrant3ConsumesHigh(op, lo, hi);
    }
  }

  /** Each decoded instruction is `DecodedLength(op)` bytes long and its
      operands are the bytes that follow the opcode, the low byte first. */
  lemma DecodeOperands(op: bv8, lo: bv8, hi: bv8)
    requires Decodable(op) && Decode(op, lo, hi).Ok?
    ensures Operands(Decode(op, lo, hi).value) == [lo, hi][..DecodedLength(op) - 1]
    ensures InstrLength(Decode(op, lo, hi).value) == DecodedLength(op)
  {
    if op < 0x40 {
      Quadrant0Operands(op, lo, hi);
    } else if op < 0xC0 {
      AluRegOperands(FieldY(op), Idx2Src(FieldZ(op)));
    } else {
      Quadrant3Operands(op, lo, hi);
    }
  }

  /** Bytes beyond the decoded length do not influence the decoding. */
  lemma DecodeIgnoresUnusedBytes(op: bv8, lo: bv8, hi: bv8, lo': bv8, hi': bv8)
    requires Decodable(op)
    requires DecodedLength(op) >= 2 ==> lo == lo'
    requires DecodedLength(op) == 3 ==> hi == hi'
    ensures Decode(op, lo, hi) == Decode(op, lo', hi')
  {
  }

  /** MVI takes its register from bits 5-3 shifted by 4, a bare `u8` where
      the instruction declares a `Src`, converted here with `idx2src`:
      0x3E (MVI A) loads E, and 0x06 (MVI B) and 0x0E (MVI C) both load B. */
  lemma MviRegisterField(op: bv8, lo: bv8, hi: bv8)
    requires op & 0xC7 == 0x06
    ensures Decode(op, lo, hi) == Ok(MVI(Idx2Src((op & 0x38) >> 4), lo))
    ensures Decode(0x3E, lo, hi) == Ok(MVI(E, lo))
    ensures Decode(0x06, lo, hi) == Decode(0x0E, lo, hi) == Ok(MVI(B, lo))
  {
  }

  /** LXI's two-bit pair field is a bare `u8` where the instruction declares
      a `RegPair`; the model converts it with `idx2rp`, so 0x31 (LXI SP on
      the 8080) loads PSW and no LXI ever loads SP. */
  lemma LxiPairField(op: bv8, lo: bv8, hi: bv8)
    requires op & 0xCF == 0x01
    ensures Decode(op, lo, hi) == Ok(LXI(Idx2Rp((op & 0x30) >> 4), lo, hi))
    ensures Decode(op, lo, hi).value.rp != SP
    ensures Decode(0x31, lo, hi) == Ok(LXI(PSW, lo, hi))
  {
  }
}
