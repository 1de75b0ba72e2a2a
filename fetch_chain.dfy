/** The decoder as `fetch` writes it: one ordered chain of exact-byte and
    masked (`bitmatch`) tests, the first that holds deciding the instruction.
    It is proved to agree with the opcode map of module Decoder on every
    decodable byte, which is how the properties proved about the map carry
    over to `fetch`. */
module FetchChain {
  import opened Bytes
  import opened Instructions
  import opened Decoder

  /** `(first_byte & 0b00111000) >> 3`: bits 5-3, as the register arms
      extract them. */
  function Bits53(op: bv8): (i: bv8)
    ensures i < 8
  {
    (op & 0x38) >> 3
  }

  /** `(first_byte & 0b00110000) >> 4`: bits 5-4, the pair field. */
  function Bits54(op: bv8): (i: bv8)
    ensures i < 4
  {
    (op & 0x30) >> 4
  }

  /** The arms of `fetch` in source order, for the opcode `op` and the bytes
      `lo`, `hi` the arms with operands read after it. MOV precedes the
      exact HLT byte, and MVI takes its register from `(op & 0x38) >> 4`. */
  function FetchArms(op: bv8, lo: bv8, hi: bv8): Result<Instruction>
    requires Decodable(op)
  {
    if op == 0x00 then Ok(NOP)
    else if op == 0x3F then Ok(CMC)
    else if op == 0x37 then Ok(STC)
    else if Bitmatch(op, 0x04, 0xC7) then Ok(INR(Idx2Src(Bits53(op))))
    else if Bitmatch(op, 0x05, 0xC7) then Ok(DCR(Idx2Src(Bits53(op))))
    else if op == 0x2F then Ok(CMA)
    else if op == 0x27 then Ok(DAA)
    else if Bitmatch(op, 0x40, 0xC0) then Ok(MOV(Idx2Src(Bits53(op)), Idx2Src(op & 0x07)))
    else if Bitmatch(op, 0x02, 0xE7) then
      var pair := Idx2Rp(op & 0x10);
      if Bittest(op, 3) then Ok(LDAX(pair)) else Ok(SATX(pair))
    else if Bitmatch(op, 0x80, 0xC0) then Ok(AluReg(Bits53(op), Idx2Src(op & 0x07)))
    else if op == 0x07 then Ok(RLC)
    else if op == 0x0F then Ok(RRC)
    else if op == 0x17 then Ok(RAL)
    else if op == 0x1F then Ok(RAR)
    else if Bitmatch(op, 0xC5, 0xCF) then Ok(PUSH(Idx2Rp(Bits54(op))))
    else if Bitmatch(op, 0xC1, 0xCF) then Ok(POP(Idx2Rp(Bits54(op))))
    else if Bitmatch(op, 0x09, 0xCF) then Ok(DAD(Idx2Rp(Bits54(op))))
    else if Bitmatch(op, 0x03, 0xCF) then Ok(INX(Idx2Rp(Bits54(op))))
    else if Bitmatch(op, 0x0B, 0xCF) then Ok(DCX(Idx2Rp(Bits54(op))))
    else if Bitmatch(op, 0xEB, 0xFF) then Ok(XCHG)
    else if Bitmatch(op, 0xE3, 0xFF) then Ok(XTHL)
    else if Bitmatch(op, 0xF9, 0xFF) then Ok(SPHL)
    else if Bitmatch(op, 0x01, 0xCF) then Ok(LXI(Idx2Rp(Bits54(op)), lo, hi))
    else if Bitmatch(op, 0x06, 0xC7) then Ok(MVI(Idx2Src((op & 0x38) >> 4), lo))
    else FetchDataArms(op, lo, hi)
  }

  /** The next arms: immediate operands, direct addresses, PCHL and the jumps. */
  function FetchDataArms(op: bv8, lo: bv8, hi: bv8): Result<Instruction> {
    if op == 0xC6 then Ok(ADI(lo))
    else if op == 0xCE then Ok(ACI(lo))
    else if op == 0xD6 then Ok(SUI(lo))
    else if op == 0xDE then Ok(SBI(lo))
    else if op == 0xE6 then Ok(ANI(lo))
    else if op == 0xEE then Ok(XRI(lo))
    else if op == 0xF6 then Ok(ORI(lo))
    else if op == 0xFE then Ok(CPI(lo))
    else if op == 0x32 then Ok(STA(lo, hi))
    else if op == 0x3A then Ok(LDA(lo, hi))
    else if op == 0x22 then Ok(SHLD(lo, hi))
    else if op == 0x2A then Ok(LHLD(lo, hi))
    else if op == 0xE9 then Ok(PCHL)
    else if op == 0xC3 then Ok(JMP(lo, hi))
    else if op == 0xDA then Ok(JC(lo, hi))
    else if op == 0xD2 then Ok(JNC(lo, hi))
    else if op == 0xCA then Ok(JZ(lo, hi))
    else if op == 0xC2 then Ok(JNZ(lo, hi))
    else if op == 0xFA then Ok(JM(lo, hi))
    else if op == 0xF2 then Ok(JP(lo, hi))
    else if op == 0xEA then Ok(JPE(lo, hi))
    else if op == 0xE2 then Ok(JPO(lo, hi))
    else FetchControlArms(op, lo, hi)
  }

  /** The last arms: calls, returns, EI and DI, IN and OUT, HLT, and the
      unknown bytes. */
  function FetchControlArms(op: bv8, lo: bv8, hi: bv8): Result<Instruction> {
    if op == 0xCD then Ok(CALL(lo, hi))
    else if op == 0xDC then Ok(CC(lo, hi))
    else if op == 0xD4 then Ok(CNC(lo, hi))
    else if op == 0xCC then Ok(CZ(lo, hi))
    else if op == 0xC4 then Ok(CNZ(lo, hi))
    else if op == 0xFC then Ok(CM(lo, hi))
    else if op == 0xF4 then Ok(CP(lo, hi))
    else if op == 0xEC then Ok(CPE(lo, hi))
    else if op == 0xE4 then Ok(CPO(lo, hi))
    else if op == 0xC9 then Ok(RET)
    else if op == 0xD8 then Ok(RC)
    else if op == 0xD0 then Ok(RNC)
    else if op == 0xC8 then Ok(RZ)
    else if op == 0xC0 then Ok(RNZ)
    else if op == 0xF8 then Ok(RM)
    else if op == 0xF0 then Ok(RP)
    else if op == 0xE8 then Ok(RPE)
    else if op == 0xE0 then Ok(RPO)
    else if op == 0xFB then Ok(EI)
    else if op == 0xF3 then Ok(DI)
    else if op == 0xDB then Ok(IN(lo))
    else if op == 0xD3 then Ok(OUT(lo))
    else if op == 0x76 then Ok(HLT)
    else Err(UnknownOpcode(op))
  }

  /** The chain and the opcode map agree on every decodable byte. */
  lemma FetchArmsIsDecode(op: bv8, lo: bv8, hi: bv8)
    requires Decodable(op)
    ensures FetchArms(op, lo, hi) == Decode(op, lo, hi)
  {
    var z := op & 7;
    if op < 0x40 {
      if z < 2 {
        ChainAgreesQuadrant0Low(op, lo, hi);
      } else if z < 4 {
        ChainAgreesQuadrant0Mid(op, lo, hi);
      } else {
        ChainAgreesQuadrant0High(op, lo, hi);
      }
    } else if op < 0x80 {
      ChainAgreesQuadrant1(op, lo, hi);
    } else if op < 0xC0 {
      ChainAgreesQuadrant2(op, lo, hi);
    } else if z == 0 {
      ChainAgreesQuadrant3Z0(op, lo, hi);
    } else if z == 1 {
      ChainAgreesQuadrant3Z1(op, lo, hi);
    } else if z == 2 {
      ChainAgreesQuadrant3Z2(op, lo, hi);
    } else if z == 3 {
      ChainAgreesQuadrant3Z3(op, lo, hi);
    } else if z == 4 {
      ChainAgreesQuadrant3Z4(op, lo, hi);
    } else if z == 5 {
      ChainAgreesQuadrant3Z5(op, lo, hi);
    } else if z == 6 {
      ChainAgreesQuadrant3Z6(op, lo, hi);
    } else {
      ChainAgreesQuadrant3Z7(op, lo, hi);
    }
  }

  lemma ChainAgreesQuadrant0Low(op: bv8, lo: bv8, hi: bv8)
    requires op < 0x40 && Decodable(op) && op & 7 < 2
    ensures FetchArms(op, lo, hi) == Decode(op, lo, hi)
  {
  }

  lemma ChainAgreesQuadrant0Mid(op: bv8, lo: bv8, hi: bv8)
    requires op < 0x40 && Decodable(op) && 2 <= op & 7 < 4
    ensures FetchArms(op, lo, hi) == Decode(op, lo, hi)
  {
  }

  lemma ChainAgreesQuadrant0High(op: bv8, lo: bv8, hi: bv8)
    requires op < 0x40 && Decodable(op) && 4 <= op & 7
    ensures FetchArms(op, lo, hi) == Decode(op, lo, hi)
  {
  }

  lemma ChainAgreesQuadrant1(op: bv8, lo: bv8, hi: bv8)
    requires 0x40 <= op < 0x80
    ensures FetchArms(op, lo, hi) == Decode(op, lo, hi)
  {
  }

  lemma ChainAgreesQuadrant2(op: bv8, lo: bv8, hi: bv8)
    requires 0x80 <= op < 0xC0
    ensures FetchArms(op, lo, hi) == Decode(op, lo, hi)
  {
  }

  lemma ChainAgreesQuadrant3Z0(op: bv8, lo: bv8, hi: bv8)
    requires 0xC0 <= op && op & 7 == 0
    ensures FetchArms(op, lo, hi) == Decode(op, lo, hi)
  {
    if op < 0xE0 {
      ChainAgreesQuadrant3Z0Low(op, lo, hi);
    } else {
      ChainAgreesQuadrant3Z0High(op, lo, hi);
    }
  }

  lemma ChainAgreesQuadrant3Z0Low(op: bv8, lo: bv8, hi: bv8)
    requires 0xC0 <= op < 0xE0 && op & 7 == 0
    ensures FetchArms(op, lo, hi) == Decode(op, lo, hi)
  {
    if op == 0xC0 {
    } else if op == 0xC8 {
    } else if op == 0xD0 {
    } else {
      assert op == 0xD8;
    }
  }

  lemma ChainAgreesQuadrant3Z0High(op: bv8, lo: bv8, hi: bv8)
    requires 0xE0 <= op && op & 7 == 0
    ensures FetchArms(op, lo, hi) == Decode(op, lo, hi)
  {
    if op == 0xE0 {
    } else if op == 0xE8 {
    } else if op == 0xF0 {
    } else {
      assert op == 0xF8;
    }
  }

  lemma ChainAgreesQuadrant3Z1(op: bv8, lo: bv8, hi: bv8)
    requires 0xC0 <= op && op & 7 == 1
    ensures FetchArms(op, lo, hi) == Decode(op, lo, hi)
  {
  }

  lemma ChainAgreesQuadrant3Z2(op: bv8, lo: bv8, hi: bv8)
    requires 0xC0 <= op && op & 7 == 2
    ensures FetchArms(op, lo, hi) == Decode(op, lo, hi)
  {
    if op < 0xE0 {
      ChainAgreesQuadrant3Z2Low(op, lo, hi);
    } else {
      ChainAgreesQuadrant3Z2High(op, lo, hi);
    }
  }

  lemma ChainAgreesQuadrant3Z2Low(op: bv8, lo: bv8, hi: bv8)
    requires 0xC0 <= op < 0xE0 && op & 7 == 2
    ensures FetchArms(op, lo, hi) == Decode(op, lo, hi)
  {
    if op == 0xC2 {
    } else if op == 0xCA {
    } else if op == 0xD2 {
    } else {
      assert op == 0xDA;
    }
  }

  lemma ChainAgreesQuadrant3Z2High(op: bv8, lo: bv8, hi: bv8)
    requires 0xE0 <= op && op & 7 == 2
    ensures FetchArms(op, lo, hi) == Decode(op, lo, hi)
  {
    if op == 0xE2 {
    } else if op == 0xEA {
    } else if op == 0xF2 {
    } else {
      assert op == 0xFA;
    }
  }

  lemma ChainAgreesQuadrant3Z3(op: bv8, lo: bv8, hi: bv8)
    requires 0xC0 <= op && op & 7 == 3
    ensures FetchArms(op, lo, hi) == Decode(op, lo, hi)
  {
  }

  lemma ChainAgreesQuadrant3Z4(op: bv8, lo: bv8, hi: bv8)
    requires 0xC0 <= op && op & 7 == 4
    ensures FetchArms(op, lo, hi) == Decode(op, lo, hi)
  {
    if op < 0xE0 {
      ChainAgreesQuadrant3Z4Low(op, lo, hi);
    } else {
      ChainAgreesQuadrant3Z4High(op, lo, hi);
    }
  }

  lemma ChainAgreesQuadrant3Z4Low(op: bv8, lo: bv8, hi: bv8)
    requires 0xC0 <= op < 0xE0 && op & 7 == 4
    ensures FetchArms(op, lo, hi) == Decode(op, lo, hi)
  {
    if op == 0xC4 {
    } else if op == 0xCC {
    } else if op == 0xD4 {
    } else {
      assert op == 0xDC;
    }
  }

  lemma ChainAgreesQuadrant3Z4High(op: bv8, lo: bv8, hi: bv8)
    requires 0xE0 <= op && op & 7 == 4
    ensures FetchArms(op, lo, hi) == Decode(op, lo, hi)
  {
    if op == 0xE4 {
    } else if op == 0xEC {
    } else if op == 0xF4 {
    } else {
      assert op == 0xFC;
    }
  }

  lemma ChainAgreesQuadrant3Z5(op: bv8, lo: bv8, hi: bv8)
    requires 0xC0 <= op && op & 7 == 5
    ensures FetchArms(op, lo, hi) == Decode(op, lo, hi)
  {
  }

  lemma ChainAgreesQuadrant3Z6(op: bv8, lo: bv8, hi: bv8)
    requires 0xC0 <= op && op & 7 == 6
    ensures FetchArms(op, lo, hi) == Decode(op, lo, hi)
  {
  }

  lemma ChainAgreesQuadrant3Z7(op: bv8, lo: bv8, hi: bv8)
    requires 0xC0 <= op && op & 7 == 7
    ensures FetchArms(op, lo, hi) == Decode(op, lo, hi)
  {
  }

  /** An opcode the chain rejects is one byte long: no operand was read. */
  lemma FetchErrIsOneByte(op: bv8, lo: bv8, hi: bv8)
    requires Decodable(op) && FetchArms(op, lo, hi).Err?
    ensures DecodedLength(op) == 1
  {
    FetchArmsIsDecode(op, lo, hi);
    DecodeErrIff(op, lo, hi);
  }
}
