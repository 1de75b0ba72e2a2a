/** The decoded-instruction vocabulary shared by the decoder and the executor,
    the register-field maps `idx2src` and `idx2rp`, and the error/result types. */
module Instructions {

  /** An 8-bit operand: a register or the byte at the address held in HL. */
  datatype Src = B | C | D | E | H | L | A | Mem

  /** A register pair. SP names the stack register; the executor never handles it. */
  datatype RegPair = BC | DE | HL | PSW | SP

  /** A decoded instruction. 16-bit operands travel as two bytes, low byte first;
      SATX is the source's spelling of STAX. */
  datatype Instruction =
    // carry bit instructions
    | CMC | STC
    // single register instructions
    | INR(r: Src) | DCR(r: Src) | CMA | DAA
    | NOP
    // data transfer instructions
    | MOV(dst: Src, src: Src) | SATX(rp: RegPair) | LDAX(rp: RegPair)
    // register or memory to accumulator instructions
    | ADD(r: Src) | ADC(r: Src) | SUB(r: Src) | SBB(r: Src)
    | ANA(r: Src) | XRA(r: Src) | ORA(r: Src) | CMP(r: Src)
    // rotate accumulator instructions
    | RLC | RRC | RAL | RAR
    // register pair instructions
    | PUSH(rp: RegPair) | POP(rp: RegPair) | DAD(rp: RegPair) | INX(rp: RegPair)
    | DCX(rp: RegPair) | XCHG | XTHL | SPHL
    // immediate instructions
    | LXI(rp: RegPair, lo: bv8, hi: bv8) | MVI(r: Src, data: bv8)
    | ADI(data: bv8) | ACI(data: bv8) | SUI(data: bv8) | SBI(data: bv8)
    | ANI(data: bv8) | XRI(data: bv8) | ORI(data: bv8) | CPI(data: bv8)
    | STA(lo: bv8, hi: bv8) | LDA(lo: bv8, hi: bv8) | SHLD(lo: bv8, hi: bv8) | LHLD(lo: bv8, hi: bv8)
    // jump instructions
    | PCHL
    | JMP(lo: bv8, hi: bv8) | JC(lo: bv8, hi: bv8) | JNC(lo: bv8, hi: bv8) | JZ(lo: bv8, hi: bv8)
    | JNZ(lo: bv8, hi: bv8) | JM(lo: bv8, hi: bv8) | JP(lo: bv8, hi: bv8) | JPE(lo: bv8, hi: bv8)
    | JPO(lo: bv8, hi: bv8)
    // call subroutine instructions
    | CALL(lo: bv8, hi: bv8) | CC(lo: bv8, hi: bv8) | CNC(lo: bv8, hi: bv8) | CZ(lo: bv8, hi: bv8)
    | CNZ(lo: bv8, hi: bv8) | CM(lo: bv8, hi: bv8) | CP(lo: bv8, hi: bv8) | CPE(lo: bv8, hi: bv8)
    | CPO(lo: bv8, hi: bv8)
    // return from subroutine instructions
    | RET | RC | RNC | RZ | RNZ | RM | RP | RPE | RPO
    // restart and interrupt enable instructions
    | RST(n: bv8) | EI | DI
    // input/output instructions
    | IN(port: bv8) | OUT(port: bv8)
    // halt
    | HLT

  /** The two errors the interpreter can report. */
  datatype Error = UnknownOpcode(opcode: bv8) | PcOutofRange

  datatype Result<T> = Ok(value: T) | Err(error: Error)

  /** `idx2src`: the 8080 register encoding B, C, D, E, H, L, M, A
      (M, index 6, is the byte at HL). */
  function Idx2Src(i: bv8): (s: Src)
    requires i < 8
    ensures s == Mem <==> i == 6
    ensures s == A <==> i == 7
  {
    if i == 0 then B
    else if i == 1 then C
    else if i == 2 then D
    else if i == 3 then E
    else if i == 4 then H
    else if i == 5 then L
    else if i == 6 then Mem
    else A
  }

  /** `idx2rp`: pair index 0, 1, 2 is BC, DE, HL; index 3 is taken to be PSW,
      the only fourth pair the executor handles. */
  function Idx2Rp(i: bv8): (rp: RegPair)
    requires i < 4
    ensures rp != SP
  {
    if i == 0 then BC
    else if i == 1 then DE
    else if i == 2 then HL
    else PSW
  }

  /** The operand bytes an instruction carries, in the order they follow the
      opcode in memory: the data byte, or the low byte then the high byte. */
  function Operands(ins: Instruction): (bs: seq<bv8>)
    ensures |bs| <= 2
  {
    match ins
    case MVI(_, data) => [data]
    case ADI(data) => [data]
    case ACI(data) => [data]
    case SUI(data) => [data]
    case SBI(data) => [data]
    case ANI(data) => [data]
    case XRI(data) => [data]
    case ORI(data) => [data]
    case CPI(data) => [data]
    case IN(port) => [port]
    case OUT(port) => [port]
    case LXI(_, lo, hi) => [lo, hi]
    case STA(lo, hi) => [lo, hi]
    case LDA(lo, hi) => [lo, hi]
    case SHLD(lo, hi) => [lo, hi]
    case LHLD(lo, hi) => [lo, hi]
    case JMP(lo, hi) => [lo, hi]
    case JC(lo, hi) => [lo, hi]
    case JNC(lo, hi) => [lo, hi]
    case JZ(lo, hi) => [lo, hi]
    case JNZ(lo, hi) => [lo, hi]
    case JM(lo, hi) => [lo, hi]
    case JP(lo, hi) => [lo, hi]
    case JPE(lo, hi) => [lo, hi]
    case JPO(lo, hi) => [lo, hi]
    case CALL(lo, hi) => [lo, hi]
    case CC(lo, hi) => [lo, hi]
    case CNC(lo, hi) => [lo, hi]
    case CZ(lo, hi) => [lo, hi]
    case CNZ(lo, hi) => [lo, hi]
    case CM(lo, hi) => [lo, hi]
    case CP(lo, hi) => [lo, hi]
    case CPE(lo, hi) => [lo, hi]
    case CPO(lo, hi) => [lo, hi]
    case _ => []
  }

  /** The number of bytes an instruction occupies in memory: the opcode and
      its operand bytes. */
  function InstrLength(ins: Instruction): (n: nat)
    ensures 1 <= n <= 3
  {
    |Operands(ins)| + 1
  }

  /** The register field that encodes an operand: the inverse of `Idx2Src`. */
  function SrcIndex(s: Src): (i: bv8)
    ensures i < 8 && Idx2Src(i) == s
  {
    match s
    case B => 0
    case C => 1
    case D => 2
    case E => 3
    case H => 4
    case L => 5
    case Mem => 6
    case A => 7
  }

  /** Distinct register fields name distinct operands, so with `SrcIndex` the
      eight field values and the eight operands correspond one to one. */
  lemma Idx2SrcInjective(i: bv8, j: bv8)
    requires i < 8 && j < 8 && Idx2Src(i) == Idx2Src(j)
    ensures i == j
  {
  }
}
