/** The machine as a value: a snapshot of the register file, the flag byte,
    the stack and program counters and the 64K memory, with the effect of
    fetching, executing and running stated as functions on snapshots. The
    mutable `Cpu` in module Machine is proved to follow these functions. */
module Semantics {
  import opened Bytes
  import opened Instructions
  import opened Alu
  import opened Memory
  import opened Decoder

  /** The fields of `Cpu`, with the memory of its `Dram` as a sequence. */
  datatype State = State(a: bv8, b: bv8, c: bv8, d: bv8, e: bv8, h: bv8, l: bv8,
                         sp: Word, pc: Word, flag: bv8, inte: bool, mem: Image)

  /** `get_flag(bit)`. */
  predicate Flag(s: State, bit: BitIndex) {
    FlagBit(s.flag, bit)
  }

  /** The carry as the number 0 or 1, as ADC and SBB add it. */
  function CarryValue(s: State): (c: bv8)
    ensures c == 1 <==> Flag(s, CarryBit)
    ensures c < 2
  {
    if Flag(s, CarryBit) then 1 else 0
  }

  /** `get_hl_addr`, `get_bc_addr`, `get_de_addr`: the high register is the
      high byte. */
  function HlAddr(s: State): Word { GetU16(s.h, s.l) }
  function BcAddr(s: State): Word { GetU16(s.b, s.c) }
  function DeAddr(s: State): Word { GetU16(s.d, s.e) }

  /** The (high, low) registers of a pair; PSW is the accumulator over the
      flag byte. */
  function PairBytes(s: State, rp: RegPair): (bv8, bv8)
    requires rp != SP
  {
    match rp
    case BC => (s.b, s.c)
    case DE => (s.d, s.e)
    case HL => (s.h, s.l)
    case PSW => (s.a, s.flag)
  }

  /** `get_rp_val`: the 16-bit value of a pair. */
  function RpVal(s: State, rp: RegPair): (w: Word)
    requires rp != SP
    ensures w == GetU16(PairBytes(s, rp).0, PairBytes(s, rp).1)
  {
    match rp
    case BC => GetU16(s.b, s.c)
    case DE => GetU16(s.d, s.e)
    case HL => GetU16(s.h, s.l)
    case PSW => GetU16(s.a, s.flag)
  }

  /** A pair's two registers set to `hi` and `lo`, nothing else changed. */
  function SetPairBytes(s: State, rp: RegPair, hi: bv8, lo: bv8): (t: State)
    requires rp != SP
    ensures PairBytes(t, rp) == (hi, lo)
    ensures t.mem == s.mem && t.sp == s.sp && t.pc == s.pc
  {
    match rp
    case BC => s.(b := hi, c := lo)
    case DE => s.(d := hi, e := lo)
    case HL => s.(h := hi, l := lo)
    case PSW => s.(a := hi, flag := lo)
  }

  /** `(hi, lo) = split_u16(w)` into a pair. */
  function SetPair(s: State, rp: RegPair, w: Word): (t: State)
    requires rp != SP
    ensures RpVal(t, rp) == w
    ensures t.mem == s.mem && t.sp == s.sp && t.pc == s.pc
  {
    var (hi, lo) := SplitU16(w);
    SetPairBytes(s, rp, hi, lo)
  }

  /** Reading the operand `get_src(src)` refers to. */
  function Read(s: State, src: Src): bv8
  {
    match src
    case B => s.b
    case C => s.c
    case D => s.d
    case E => s.e
    case H => s.h
    case L => s.l
    case A => s.a
    case Mem => s.mem[HlAddr(s)]
  }

  /** Writing `v` through `get_src(src)`. */
  function Write(s: State, src: Src, v: bv8): (t: State)
    ensures Read(t, src) == v
    ensures t.flag == s.flag && t.sp == s.sp && t.pc == s.pc && t.inte == s.inte
    ensures t.mem == if src == Mem then s.mem[HlAddr(s) := v] else s.mem
  {
    match src
    case B => s.(b := v)
    case C => s.(c := v)
    case D => s.(d := v)
    case E => s.(e := v)
    case H => s.(h := v)
    case L => s.(l := v)
    case A => s.(a := v)
    case Mem => s.(mem := s.mem[HlAddr(s) := v])
  }

  /** `set_flags(Some(carry), Some(parity), Some(aux), Some(zero), Some(sign))`
      with the status bits of an ALU result. */
  function AluFlags(f: bv8, r: AluResult): bv8 {
    MergeFlags(f, Some(r.carry), Some(r.parity), Some(r.aux), Some(r.zero), Some(r.sign))
  }

  /** The same for INR and DCR, which pass `None` for the carry. */
  function IncDecFlags(f: bv8, r: AluResult): bv8 {
    MergeFlags(f, None, Some(r.parity), Some(r.aux), Some(r.zero), Some(r.sign))
  }

  /** The accumulator and flags after an arithmetic operation. */
  function WithAlu(s: State, r: AluResult): State {
    s.(a := r.res, flag := AluFlags(s.flag, r))
  }

  /** The accumulator and flags after a logical operation: the flag byte
      always ends up zero, since `set_logical_flag` first clears it and then
      only ANDs further masks into it. */
  function WithLogical(s: State, acc: bv8): (t: State)
    ensures t == s.(a := acc, flag := 0)
  {
    s.(a := acc, flag := LogicalFlags(s.flag, acc))
  }

  /** The conditions under which `fetch` does not panic: the opcode must have
      pair bit 0 when it is an LDAX/STAX byte, and the program counter must not
      overflow while the opcode and its operand bytes are read. */
  predicate CanFetch(s: State)
  {
    CanFetchAt(s.pc, s.mem[s.pc])
  }

  /** The same test for the opcode `op` found at `pc`. */
  predicate CanFetchAt(pc: Word, op: bv8) {
    Decodable(op) && pc + DecodedLength(op) <= 0xFFFF
  }

  /** `fetch`: decode the bytes at `pc` and advance `pc` past them. Bytes the
      opcode does not consume are passed to the decoder as 0; they never
      influence the result (`DecodeIgnoresUnusedBytes`). */
  function FetchSpec(s: State): (State, Result<Instruction>)
    requires CanFetch(s)
  {
    var op := s.mem[s.pc];
    var n := DecodedLength(op);
    var lo := if n >= 2 then s.mem[s.pc + 1] else 0;
    var hi := if n == 3 then s.mem[s.pc + 2] else 0;
    (s.(pc := s.pc + n), Decode(op, lo, hi))
  }

  /** The conditions under which `excecute` neither panics nor reaches an
      `unreachable!()` or a pair its matches omit. */
  predicate CanExecute(sp: Word, ins: Instruction) {
    match ins
    case SATX(rp) => rp == BC || rp == DE
    case LDAX(rp) => rp == BC || rp == DE
    case PUSH(rp) => rp != SP && sp >= 2
    case POP(rp) => rp != SP && sp <= 0xFFFD
    case DAD(rp) => rp != SP
    case INX(rp) => rp != SP
    case DCX(rp) => rp != SP
    case XTHL => sp < 0xFFFF
    case SPHL => sp < 0xFFFF
    case _ => true
  }

  /** CMC toggles the carry bit and only it. */
  function ExecCmc(s: State): (t: State)
    ensures FlagBit(t.flag, CarryBit) <==> !Flag(s, CarryBit)
    ensures forall i: BitIndex | i != CarryBit :: FlagBit(t.flag, i) == Flag(s, i)
    ensures t == s.(flag := t.flag)
  {
    ComplementCarry(s.flag);
    s.(flag := ToggleCarry(s.flag))
  }

  /** STC sets the carry bit and only it. */
  function ExecStc(s: State): (t: State)
    ensures FlagBit(t.flag, CarryBit)
    ensures forall i: BitIndex | i != CarryBit :: FlagBit(t.flag, i) == Flag(s, i)
    ensures t == s.(flag := t.flag)
  {
    SetCarry(s.flag);
    s.(flag := RaiseCarry(s.flag))
  }

  /** MOV: the source operand written to the destination. */
  function ExecMov(s: State, dst: Src, src: Src): (t: State)
  {
    Write(s, dst, Read(s, src))
  }

  lemma WriteKeepsOther(s: State, dst: Src, v: bv8, o: Src)
    requires o != dst && o != Mem
    ensures Read(Write(s, dst, v), o) == Read(s, o)
  {
  }

  /** Writing one operand leaves the registers that are not it alone. */
  lemma WriteKeepsOthers(s: State, dst: Src, v: bv8)
    ensures forall o | o != dst && o != Mem :: Read(Write(s, dst, v), o) == Read(s, o)
  {
    forall o | o != dst && o != Mem {
      WriteKeepsOther(s, dst, v, o);
    }
  }

  /** Writing an operand's old value back over a write to it, with the flag
      register changed in between, leaves only the flag change. */
  lemma WriteBack(s: State, src: Src, v: bv8, f: bv8)
    ensures Write(Write(s, src, v).(flag := f), src, Read(s, src)) == s.(flag := f)
  {
    if src == Mem {
      assert Write(s, src, v).(flag := f).mem[HlAddr(s) := Read(s, src)] == s.mem;
    }
  }

  /** ADD and ADC: A receives the wrapped sum, with the carry added for ADC;
      only A and the flags change. */
  function ExecAdd(s: State, r: Src): (t: State)
    ensures t.a == s.a + Read(s, r)
    ensures t == s.(a := t.a, flag := t.flag)
  {
    WithAlu(s, FlaggedAdd(s.a, Read(s, r)))
  }

  function ExecAdc(s: State, r: Src): (t: State)
    ensures t.a == s.a + Read(s, r) + CarryValue(s)
    ensures t == s.(a := t.a, flag := t.flag)
  {
    AddCarryAssociates(s.a, Read(s, r), CarryValue(s));
    WithAlu(s, FlaggedAdd(s.a, PlusCarry(Read(s, r), Flag(s, CarryBit))))
  }

  /** SUB and SBB: A receives the wrapped difference, with the carry also
      subtracted for SBB; only A and the flags change. */
  function ExecSub(s: State, r: Src): (t: State)
    ensures t.a == s.a - Read(s, r)
    ensures t == s.(a := t.a, flag := t.flag)
  {
    WithAlu(s, FlaggedSub(s.a, Read(s, r)))
  }

  function ExecSbb(s: State, r: Src): (t: State)
    ensures t.a == s.a - Read(s, r) - CarryValue(s)
    ensures t == s.(a := t.a, flag := t.flag)
  {
    AddCarryAssociates(s.a, Read(s, r), CarryValue(s));
    WithAlu(s, FlaggedSub(s.a, PlusCarry(Read(s, r), Flag(s, CarryBit))))
  }

  /** Adding or subtracting the operand with the carry folded in is adding
      or subtracting them one after the other. */
  lemma AddCarryAssociates(x: bv8, y: bv8, c: bv8)
    ensures x + (y + c) == x + y + c && x - (y + c) == x - y - c
  {
  }

  /** CMP: the flags SUB would produce, and nothing else changed. */
  function ExecCmp(s: State, r: Src): (t: State)
    ensures t.flag == ExecSub(s, r).flag
    ensures t == s.(flag := t.flag)
  {
    s.(flag := AluFlags(s.flag, FlaggedSub(s.a, Read(s, r))))
  }

  /** INR and DCR: the operand stepped by one, written back through
      `get_src`; the carry is not requested, and the flag register only
      loses bits. Nothing else changes. */
  function ExecInr(s: State, r: Src): (t: State)
    ensures Read(t, r) == Read(s, r) + 1
    ensures t.sp == s.sp && t.pc == s.pc
    ensures t == Write(s, r, Read(s, r) + 1).(flag := t.flag)
    ensures t.flag & s.flag == t.flag
  {
    var f := FlaggedAdd(Read(s, r), 1);
    var t := Write(s, r, f.res);
    t.(flag := IncDecFlags(t.flag, f))
  }

  function ExecDcr(s: State, r: Src): (t: State)
    ensures Read(t, r) == Read(s, r) - 1
    ensures t.sp == s.sp && t.pc == s.pc
    ensures t == Write(s, r, Read(s, r) - 1).(flag := t.flag)
    ensures t.flag & s.flag == t.flag
  {
    var f := FlaggedSub(Read(s, r), 1);
    var t := Write(s, r, f.res);
    t.(flag := IncDecFlags(t.flag, f))
  }

  /** DAA as written: the decimal correction is computed and discarded, the
      accumulator receives `flagged_add(A, A)` and the carry is then merged
      with the computed decimal carry. */
  function ExecDaa(s: State): (t: State)
    ensures t.a == s.a + s.a
    ensures t == s.(a := t.a, flag := t.flag)
  {
    var t := WithAlu(s, FlaggedAdd(s.a, s.a));
    t.(flag := SetFlagValue(t.flag, CarryBit, DaaCarry(s.a, Flag(s, CarryBit))))
  }

  /** STAX and LDAX through BC or DE. */
  function ExecStax(s: State, rp: RegPair): (t: State)
    requires (rp == BC || rp == DE)
  {
    s.(mem := s.mem[if rp == BC then BcAddr(s) else DeAddr(s) := s.a])
  }

  function ExecLdax(s: State, rp: RegPair): (t: State)
    requires (rp == BC || rp == DE)
    ensures t == s.(a := t.a)
  {
    s.(a := s.mem[if rp == BC then BcAddr(s) else DeAddr(s)])
  }

  /** The four accumulator rotates. */
  function ExecRlc(s: State): (t: State)
    ensures t == s.(a := t.a, flag := t.flag)
  {
    var c := Bittest(s.a, 7);
    s.(a := ShiftInLow(s.a, c), flag := SetFlagValue(s.flag, CarryBit, c))
  }

  function ExecRrc(s: State): (t: State)
    ensures t == s.(a := t.a, flag := t.flag)
  {
    var c := Bittest(s.a, 0);
    s.(a := ShiftInHigh(s.a, c), flag := SetFlagValue(s.flag, CarryBit, c))
  }

  /** RAL shifts the old carry into bit 0. */
  function ExecRal(s: State): (t: State)
    ensures t.a == (s.a << 1) | CarryValue(s)
    ensures t == s.(a := t.a, flag := t.flag)
  {
    var hb := Bittest(s.a, 7);
    s.(flag := SetFlagValue(s.flag, CarryBit, hb), a := ShiftInLow(s.a, Flag(s, CarryBit)))
  }

  /** RAR shifts the old carry into bit 7. */
  function ExecRar(s: State): (t: State)
    ensures t.a == (s.a >> 1) | (CarryValue(s) << 7)
    ensures t == s.(a := t.a, flag := t.flag)
  {
    var lb := Bittest(s.a, 0);
    s.(flag := SetFlagValue(s.flag, CarryBit, lb),
       a := ShiftInHigh(s.a, Flag(s, CarryBit)))
  }

  /** PUSH: `sp` drops by 2, the high register goes to `sp + 1` and the low one
      to `sp`. */
  function ExecPush(s: State, rp: RegPair): (t: State)
    requires rp != SP && s.sp >= 2
  {
    var sp := s.sp - 2;
    var (b1, b2) := PairBytes(s, rp);
    s.(sp := sp, mem := s.mem[sp + 1 := b1][sp := b2])
  }

  /** POP: the high register from `sp + 1`, the low one from `sp`, then `sp`
      rises by 2. */
  function ExecPop(s: State, rp: RegPair): (t: State)
    requires rp != SP && s.sp <= 0xFFFD
  {
    var hi, lo := s.mem[s.sp + 1], s.mem[s.sp];
    SetPairBytes(s, rp, hi, lo).(sp := s.sp + 2)
  }

  /** DAD as written: only the carry of the 16-bit sum is merged into the
      flags; the sum itself is dropped. */
  function ExecDad(s: State, rp: RegPair): (t: State)
    requires rp != SP
    ensures t == s.(flag := t.flag)
  {
    s.(flag := SetFlagValue(s.flag, CarryBit, RpVal(s, rp) + HlAddr(s) > 0xFFFF))
  }

  /** INX and DCX: the pair stepped by one, wrapping around 16 bits. */
  function ExecInx(s: State, rp: RegPair): (t: State)
    requires rp != SP
    ensures t.mem == s.mem
  {
    SetPair(s, rp, WordInc(RpVal(s, rp)))
  }

  function ExecDcx(s: State, rp: RegPair): (t: State)
    requires rp != SP
    ensures t.mem == s.mem
  {
    SetPair(s, rp, WordDec(RpVal(s, rp)))
  }

  /** XCHG as written: the second parallel assignment reads the already
      updated D, so L receives the old H. */
  function ExecXchg(s: State): (t: State)
    ensures t.mem == s.mem
  {
    var s1 := s.(d := s.h, h := s.d);
    s1.(e := s1.l, l := s1.d)
  }

  /** XTHL: HL takes the word at `sp`, and the old HL is stored there. */
  function ExecXthl(s: State): (t: State)
    requires s.sp < 0xFFFF
  {
    var (hi, lo) := SplitU16(WordAt(s.mem, s.sp));
    s.(h := hi, l := lo, mem := StoreWord(s.mem, s.sp, GetU16(s.h, s.l)))
  }

  /** SPHL as written: HL is stored as a word at `sp`; `sp` is not loaded. */
  function ExecSphl(s: State): (t: State)
    requires s.sp < 0xFFFF
  {
    s.(mem := StoreWord(s.mem, s.sp, HlAddr(s)))
  }

  /** `excecute`: the state after one instruction, arm by arm. Every
      instruction without an arm of its own leaves the state unchanged. */
  function Exec(s: State, ins: Instruction): (t: State)
    requires CanExecute(s.sp, ins)
  {
    match ins
    case NOP => s
    case CMC => ExecCmc(s)
    case STC => ExecStc(s)
    case INR(r) => ExecInr(s, r)
    case DCR(r) => ExecDcr(s, r)
    case CMA => s.(a := !s.a)
    case DAA => ExecDaa(s)
    case MOV(dst, src) => ExecMov(s, dst, src)
    case SATX(rp) => ExecStax(s, rp)
    case LDAX(rp) => ExecLdax(s, rp)
    case ADD(r) => ExecAdd(s, r)
    case ADC(r) => ExecAdc(s, r)
    case SUB(r) => ExecSub(s, r)
    case SBB(r) => ExecSbb(s, r)
    case ANA(r) => WithLogical(s, s.a & Read(s, r))
    case XRA(r) => WithLogical(s, s.a ^ Read(s, r))
    case ORA(r) => WithLogical(s, s.a | Read(s, r))
    case CMP(r) => ExecCmp(s, r)
    case RLC => ExecRlc(s)
    case RRC => ExecRrc(s)
    case RAL => ExecRal(s)
    case RAR => ExecRar(s)
    case PUSH(rp) => ExecPush(s, rp)
    case POP(rp) => ExecPop(s, rp)
    case DAD(rp) => ExecDad(s, rp)
    case INX(rp) => ExecInx(s, rp)
    case DCX(rp) => ExecDcx(s, rp)
    case XCHG => ExecXchg(s)
    case XTHL => ExecXthl(s)
    case SPHL => ExecSphl(s)
    case _ => s
  }

  // `Exec` on a given instruction is that instruction's arm. Stating each
  // arm once keeps callers from unfolding the whole of `Exec`.
  lemma ExecNopArm(s: State)
    ensures Exec(s, NOP) == s
  {
  }

  lemma ExecCmcArm(s: State)
    ensures Exec(s, CMC) == ExecCmc(s)
  {
  }

  lemma ExecStcArm(s: State)
    ensures Exec(s, STC) == ExecStc(s)
  {
  }

  lemma ExecInrArm(s: State, r: Src)
    ensures Exec(s, INR(r)) == ExecInr(s, r)
  {
  }

  lemma ExecDcrArm(s: State, r: Src)
    ensures Exec(s, DCR(r)) == ExecDcr(s, r)
  {
  }

  lemma ExecCmaArm(s: State)
    ensures Exec(s, CMA) == s.(a := !s.a)
  {
  }

  lemma ExecDaaArm(s: State)
    ensures Exec(s, DAA) == ExecDaa(s)
  {
  }

  lemma ExecMovArm(s: State, dst: Src, src: Src)
    ensures Exec(s, MOV(dst, src)) == ExecMov(s, dst, src)
  {
  }

  lemma ExecStaxArm(s: State, rp: RegPair)
    requires rp == BC || rp == DE
    ensures Exec(s, SATX(rp)) == ExecStax(s, rp)
  {
  }

  lemma ExecLdaxArm(s: State, rp: RegPair)
    requires rp == BC || rp == DE
    ensures Exec(s, LDAX(rp)) == ExecLdax(s, rp)
  {
  }

  lemma ExecAddArm(s: State, r: Src)
    ensures Exec(s, ADD(r)) == ExecAdd(s, r)
  {
  }

  lemma ExecAdcArm(s: State, r: Src)
    ensures Exec(s, ADC(r)) == ExecAdc(s, r)
  {
  }

  lemma ExecSubArm(s: State, r: Src)
    ensures Exec(s, SUB(r)) == ExecSub(s, r)
  {
  }

  lemma ExecSbbArm(s: State, r: Src)
    ensures Exec(s, SBB(r)) == ExecSbb(s, r)
  {
  }

  lemma ExecAnaArm(s: State, r: Src)
    ensures Exec(s, ANA(r)) == WithLogical(s, s.a & Read(s, r))
  {
  }

  lemma ExecXraArm(s: State, r: Src)
    ensures Exec(s, XRA(r)) == WithLogical(s, s.a ^ Read(s, r))
  {
  }

  lemma ExecOraArm(s: State, r: Src)
    ensures Exec(s, ORA(r)) == WithLogical(s, s.a | Read(s, r))
  {
  }

  lemma ExecCmpArm(s: State, r: Src)
    ensures Exec(s, CMP(r)) == ExecCmp(s, r)
  {
  }

  lemma ExecRlcArm(s: State)
    ensures Exec(s, RLC) == ExecRlc(s)
  {
  }

  lemma ExecRrcArm(s: State)
    ensures Exec(s, RRC) == ExecRrc(s)
  {
  }

  lemma ExecRalArm(s: State)
    ensures Exec(s, RAL) == ExecRal(s)
  {
  }

  lemma ExecRarArm(s: State)
    ensures Exec(s, RAR) == ExecRar(s)
  {
  }

  lemma ExecPushArm(s: State, rp: RegPair)
    requires rp != SP && s.sp >= 2
    ensures Exec(s, PUSH(rp)) == ExecPush(s, rp)
  {
  }

  lemma ExecPopArm(s: State, rp: RegPair)
    requires rp != SP && s.sp <= 0xFFFD
    ensures Exec(s, POP(rp)) == ExecPop(s, rp)
  {
  }

  lemma ExecDadArm(s: State, rp: RegPair)
    requires rp != SP
    ensures Exec(s, DAD(rp)) == ExecDad(s, rp)
  {
  }

  lemma ExecInxArm(s: State, rp: RegPair)
    requires rp != SP
    ensures Exec(s, INX(rp)) == ExecInx(s, rp)
  {
  }

  lemma ExecDcxArm(s: State, rp: RegPair)
    requires rp != SP
    ensures Exec(s, DCX(rp)) == ExecDcx(s, rp)
  {
  }

  lemma ExecXchgArm(s: State)
    ensures Exec(s, XCHG) == ExecXchg(s)
  {
  }

  lemma ExecXthlArm(s: State)
    requires s.sp < 0xFFFF
    ensures Exec(s, XTHL) == ExecXthl(s)
  {
  }

  lemma ExecSphlArm(s: State)
    requires s.sp < 0xFFFF
    ensures Exec(s, SPHL) == ExecSphl(s)
  {
  }

  /** How a bounded run ends: `run` returned, a debug-mode check panicked, or
      the step budget ran out first. */
  datatype RunOutcome = Returned(result: Result<()>) | Panicked | OutOfFuel

  /** One pass of `run`'s loop: the exit test on `pc`, `fetch` and
      `excecute`. The result says how the run stops, if it does. */
  function StepSpec(s: State): (State, Option<RunOutcome>)
  {
    if s.pc >= RamSize then (s, Some(Returned(Ok(()))))
    else if !CanFetch(s) then (s, Some(Panicked))
    else
      var (t, r) := FetchSpec(s);
      if r.Err? then (t, Some(Returned(Err(r.error))))
      else if !CanExecute(t.sp, r.value) then (t, Some(Panicked))
      else (Exec(t, r.value), None)
  }

  /** At most `fuel` passes of a loop whose body is `step`: the loop ends
      at the first pass that says so, or when the budget is used up. */
  function Loop(step: State -> (State, Option<RunOutcome>), s: State, fuel: nat): (State, RunOutcome)
    decreases fuel
  {
    if fuel == 0 then (s, OutOfFuel)
    else
      var (t, stop) := step(s);
      if stop.Some? then (t, stop.value) else Loop(step, t, fuel - 1)
  }

  /** `run`, for at most `fuel` passes of its loop. */
  function RunSpec(s: State, fuel: nat): (State, RunOutcome)
  {
    Loop(StepSpec, s, fuel)
  }

  /** One pass keeps the end of the loop fixed: the loop ends there if the
      pass stops, and otherwise ends where the rest of it, from the new
      state, ends. */
  lemma LoopStep(step: State -> (State, Option<RunOutcome>), s: State, t: State,
                 stop: Option<RunOutcome>, fuel: nat, goal: (State, RunOutcome))
    requires fuel > 0 && (t, stop) == step(s) && Loop(step, s, fuel) == goal
    ensures stop.Some? ==> goal == (t, stop.value)
    ensures stop.None? ==> Loop(step, t, fuel - 1) == goal
  {
  }

  /** A loop that ends before its budget is used up ends the same way with
      any larger budget. */
  lemma {:induction false} LoopFuelMonotone(step: State -> (State, Option<RunOutcome>), s: State,
                                             fuel: nat, more: nat)
    requires Loop(step, s, fuel).1 != OutOfFuel
    ensures Loop(step, s, fuel + more) == Loop(step, s, fuel)
    decreases fuel
  {
    var (t, stop) := step(s);
    if stop.None? {
      LoopFuelMonotone(step, t, fuel - 1, more);
    }
  }

  /** A loop ends out of budget or the way one of its passes says to stop,
      so an outcome no pass produces is never the loop's. */
  lemma {:induction false} LoopOutcome(step: State -> (State, Option<RunOutcome>), s: State, fuel: nat,
                                        ok: RunOutcome -> bool)
    requires forall x :: step(x).1.Some? ==> ok(step(x).1.value)
    ensures Loop(step, s, fuel).1 == OutOfFuel || ok(Loop(step, s, fuel).1)
    decreases fuel
  {
    if fuel > 0 {
      var (t, stop) := step(s);
      if stop.None? {
        LoopOutcome(step, t, fuel - 1, ok);
      }
    }
  }
}
