/** The interpreter itself: the `Cpu` whose fields `fetch`, `excecute` and
    `run` update in place. Each method is proved to have exactly the effect
    the functions of module Semantics give its abstract state `Abs()`, so
    the properties proved about those functions hold of the methods. */
module Machine {
  import opened Bytes
  import opened Instructions
  import opened Alu
  import opened Memory
  import opened Decoder
  import opened FetchChain
  import opened Semantics

  /** The `&mut u8` that `get_src` hands out: one of the seven registers, or
      a cell of the memory. */
  datatype Slot = Register(r: Src) | Cell(p: Ptr)

  /** A snapshot with `v` written through `slot`. */
  ghost function Stored(s: State, slot: Slot, v: bv8): State
  {
    match slot
    case Register(r) => Write(s, r, v)
    case Cell(p) => if p.index < RamSize then s.(mem := s.mem[p.index := v]) else s
  }

  class Cpu {
    var a: bv8
    var b: bv8
    var c: bv8
    var d: bv8
    var e: bv8
    var h: bv8
    var l: bv8
    var sp: Word
    var pc: Word
    const ram: Dram
    var flag: bv8
    var inte: bool

    ghost predicate Valid()
      reads this, ram
    {
      ram.Valid()
    }

    /** The fields as a snapshot. */
    ghost function Abs(): (s: State)
      requires Valid()
      reads this, ram, ram.memory
    {
      State(a, b, c, d, e, h, l, sp, pc, flag, inte, ram.memory[..])
    }

    /** `Cpu::new`: all registers 0, `sp` the truncation of 65536 to 16 bits
        (so 0), `pc` 0x40 above the restart vectors, the flag byte 2,
        interrupts disabled and the memory all zeros. */
    constructor ()
      ensures Valid() && fresh(ram) && fresh(ram.memory)
      ensures Abs() == State(0, 0, 0, 0, 0, 0, 0, 0, 0x40, 2, false, seq(RamSize, _ => 0))
    {
      a, b, c, d, e, h, l := 0, 0, 0, 0, 0, 0, 0;
      sp := RamSize % 0x10000;
      pc := 0x40;
      ram := new Dram();
      flag := 2;
      inte := false;
      new;
      assert ram.memory[..] == seq(RamSize, _ => 0);
    }

    /** `get_flag(bit)`: bit `bit` of the flag register. */
    function GetFlag(bit: BitIndex): (r: bool)
      reads this
      ensures r == FlagBit(flag, bit)
      ensures r <==> Bittest(flag, bit)
    {
      FlagBitIsBittest(flag, bit);
      (flag & (1 << bit)) >> bit == 1
    }

    /** `get_hl_addr`, `get_bc_addr`, `get_de_addr`: the high register
        shifted into the high byte, or-ed with the low register. */
    function GetHlAddr(): (w: Word)
      reads this
      ensures w == GetU16(h, l)
    {
      JoinBytes(h, l)
    }

    function GetBcAddr(): (w: Word)
      reads this
      ensures w == GetU16(b, c)
    {
      JoinBytes(b, c)
    }

    function GetDeAddr(): (w: Word)
      reads this
      ensures w == GetU16(d, e)
    {
      JoinBytes(d, e)
    }

    /** `get_rp_val`: the word a register pair holds. */
    function GetRpVal(rp: RegPair): (w: Word)
      requires Valid() && rp != SP
      reads this, ram, ram.memory
      ensures w == RpVal(Abs(), rp)
    {
      match rp
      case BC => GetU16(b, c)
      case DE => GetU16(d, e)
      case HL => GetU16(h, l)
      case PSW => GetU16(a, flag)
    }

    /** A slot that belongs to this machine: a register other than `Mem`, or
        a cell of its own memory. */
    ghost predicate Refers(slot: Slot)
      reads this, ram
    {
      match slot
      case Register(r) => r != Mem
      case Cell(p) => p.cells == ram.memory && p.index < RamSize
    }

    /** `*slot`. */
    function Load(slot: Slot): bv8
      requires Valid() && Refers(slot)
      reads this, ram, ram.memory
    {
      if slot.Cell? then Deref(slot.p)
      else match slot.r
        case B => b
        case C => c
        case D => d
        case E => e
        case H => h
        case L => l
        case A => a
        case Mem => 0
    }

    /** `*slot = v`. */
    method Store(slot: Slot, v: bv8)
      requires Valid() && Refers(slot)
      modifies this, ram.memory
      ensures Valid() && Abs() == Stored(old(Abs()), slot, v)
    {
      match slot
      case Register(r) =>
        match r {
          case B => b := v;
          case C => c := v;
          case D => d := v;
          case E => e := v;
          case H => h := v;
          case L => l := v;
          case A => a := v;
          case Mem => assert false;
        }
      case Cell(p) => Assign(p, v);
    }

    /** `get_src`: the register `src` names, or for `Mem` the cell HL
        addresses. Reading through it reads the operand `src`, and writing
        through it writes that operand. */
    function GetSrc(src: Src): (slot: Slot)
      requires Valid()
      reads this, ram, ram.memory
      ensures Refers(slot)
      ensures Load(slot) == Read(Abs(), src)
      ensures forall v :: Stored(Abs(), slot, v) == Write(Abs(), src, v)
    {
      if src == Mem then Cell(ram.GetPtr(GetHlAddr())) else Register(src)
    }

    /** `set_flag(bit, v)`. */
    method SetFlag(bit: BitIndex, v: bool)
      modifies this`flag
      ensures flag == SetFlagValue(old(flag), bit, v)
    {
      var one: bv8 := if v then 1 else 0;
      flag := flag & (one << bit);
    }

    /** One argument of `set_flags`: `Some(true)` ANDs the register with the
        mask of `bit`, anything else leaves it alone. */
    method MergeFlag(o: Option<bool>, bit: BitIndex)
      modifies this`flag
      ensures flag == MergeOne(old(flag), o, bit)
    {
      if o == Some(true) { flag := flag & (1 << bit); }
    }

    /** `set_flags(carry, parity, aux, zero, sign)`: each `Some(true)` ANDs the
        register with its own bit. */
    method SetFlags(carry: Option<bool>, parity: Option<bool>, aux: Option<bool>,
                    zero: Option<bool>, sign: Option<bool>)
      modifies this`flag
      ensures flag == MergeFlags(old(flag), carry, parity, aux, zero, sign)
    {
      MergeFlag(carry, CarryBit);
      MergeFlag(parity, ParityBit);
      MergeFlag(aux, AuxCarryBit);
      MergeFlag(zero, ZeroBit);
      MergeFlag(sign, SignBit);
    }

    /** `set_logical_flag`: the five `set_flag` calls after a logical
        operation, from the accumulator. The register ends up 0. */
    method SetLogicalFlag()
      modifies this`flag
      ensures flag == LogicalFlags(old(flag), a) && flag == 0
    {
      SetFlag(CarryBit, false);
      SetFlag(ParityBit, PopCount(a) % 2 == 0);
      SetFlag(AuxCarryBit, false);
      SetFlag(ZeroBit, a == 0);
      SetFlag(SignBit, a > 0x80);
    }

    /** `next_byte`: the byte at `pc`, then `pc` advanced; `pc` must not
        overflow. */
    method NextByte() returns (byte: bv8)
      requires Valid() && pc < 0xFFFF
      modifies this`pc
      ensures pc == old(pc) + 1 && byte == ram.memory[old(pc)]
    {
      pc := pc + 1;
      byte := ram.LoadByte(pc - 1);
    }

    /** `fetch`: the opcode at `pc` and the operand bytes its arm asks for,
        decoded by the ordered chain of exact bytes and bit patterns. */
    method Fetch() returns (r: Result<Instruction>)
      requires Valid() && CanFetch(Abs())
      modifies this`pc
      ensures Valid() && (Abs(), r) == FetchSpec(old(Abs()))
    {
      ghost var s0 := Abs();
      var first := ram.LoadByte(pc);
      pc := pc + 1;
      r := FetchHead(first);
      ghost var n := DecodedLength(first);
      ghost var lo := if n >= 2 then s0.mem[s0.pc + 1] else 0;
      ghost var hi := if n == 3 then s0.mem[s0.pc + 2] else 0;
      if r.Err? {
        FetchErrIsOneByte(first, ReadSince(s0.pc + 1, 0), ReadSince(s0.pc + 1, 1));
      }
      assert pc == s0.pc + n;
      assert ReadSince(s0.pc + 1, 0) == lo && ReadSince(s0.pc + 1, 1) == hi;
      FetchArmsIsDecode(first, lo, hi);
    }

    /** The bytes a fetch arm read after `from` as its operands: byte `i`
        after the opcode if `pc` has been advanced over it, and 0 otherwise. */
    ghost function ReadSince(from: Word, i: nat): bv8
      requires Valid()
      reads this, ram, ram.memory
    {
      if from + i < pc then ram.memory[from + i] else 0
    }

    /** The arms of `fetch` from NOP to MVI, after `pc` was advanced past the
        opcode `first`. */
    method FetchHead(first: bv8) returns (r: Result<Instruction>)
      requires Valid() && Decodable(first) && 1 <= pc && pc + DecodedLength(first) <= 0x10000
      modifies this`pc
      ensures old(pc) <= pc <= old(pc) + 2
      ensures pc == old(pc) + (if r.Err? then 0 else DecodedLength(first) - 1)
      ensures r == FetchArms(first, ReadSince(old(pc), 0), ReadSince(old(pc), 1))
    {
      if first == 0x00 { r := Ok(NOP); }
      else if first == 0x3F { r := Ok(CMC); }
      else if first == 0x37 { r := Ok(STC); }
      else if Bitmatch(first, 0x04, 0xC7) { r := Ok(INR(Idx2Src((first & 0x38) >> 3))); }
      else if Bitmatch(first, 0x05, 0xC7) { r := Ok(DCR(Idx2Src((first & 0x38) >> 3))); }
      else if first == 0x2F { r := Ok(CMA); }
      else if first == 0x27 { r := Ok(DAA); }
      else if Bitmatch(first, 0x40, 0xC0) {
        var dst := Idx2Src((first & 0x38) >> 3);
        var src := Idx2Src(first & 0x07);
        r := Ok(MOV(dst, src));
      } else if Bitmatch(first, 0x02, 0xE7) {
        var pair := Idx2Rp(first & 0x10);
        if Bittest(first, 3) { r := Ok(LDAX(pair)); } else { r := Ok(SATX(pair)); }
      } else if Bitmatch(first, 0x80, 0xC0) {
        var op := (first & 0x38) >> 3;
        var reg := Idx2Src(first & 0x07);
        r := Ok(AluReg(op, reg));
      }
      else if first == 0x07 { r := Ok(RLC); }
      else if first == 0x0F { r := Ok(RRC); }
      else if first == 0x17 { r := Ok(RAL); }
      else if first == 0x1F { r := Ok(RAR); }
      else if Bitmatch(first, 0xC5, 0xCF) { r := Ok(PUSH(Idx2Rp((first & 0x30) >> 4))); }
      else if Bitmatch(first, 0xC1, 0xCF) { r := Ok(POP(Idx2Rp((first & 0x30) >> 4))); }
      else if Bitmatch(first, 0x09, 0xCF) { r := Ok(DAD(Idx2Rp((first & 0x30) >> 4))); }
      else if Bitmatch(first, 0x03, 0xCF) { r := Ok(INX(Idx2Rp((first & 0x30) >> 4))); }
      else if Bitmatch(first, 0x0B, 0xCF) { r := Ok(DCX(Idx2Rp((first & 0x30) >> 4))); }
      else if Bitmatch(first, 0xEB, 0xFF) { r := Ok(XCHG); }
      else if Bitmatch(first, 0xE3, 0xFF) { r := Ok(XTHL); }
      else if Bitmatch(first, 0xF9, 0xFF) { r := Ok(SPHL); }
      else if Bitmatch(first, 0x01, 0xCF) {
        var lo := NextByte();
        var hi := NextByte();
        r := Ok(LXI(Idx2Rp((first & 0x30) >> 4), lo, hi));
      } else if Bitmatch(first, 0x06, 0xC7) {
        var data := NextByte();
        r := Ok(MVI(Idx2Src((first & 0x38) >> 4), data));
      }
      else {
        r := FetchData(first);
      }
    }

    /** The arms of `fetch` from ADI to JPO, after `pc` was advanced past the
        opcode `first`. */
    method FetchData(first: bv8) returns (r: Result<Instruction>)
      requires Valid() && 1 <= pc && pc + DecodedLength(first) <= 0x10000
      modifies this`pc
      ensures old(pc) <= pc <= old(pc) + 2
      ensures pc == old(pc) + (if r.Err? then 0 else DecodedLength(first) - 1)
      ensures r == FetchDataArms(first, ReadSince(old(pc), 0), ReadSince(old(pc), 1))
    {
      if first == 0xC6 {
        var data := NextByte();
        r := Ok(ADI(data));
      }
      else if first == 0xCE {
        var data := NextByte();
        r := Ok(ACI(data));
      }
      else if first == 0xD6 {
        var data := NextByte();
        r := Ok(SUI(data));
      }
      else if first == 0xDE {
        var data := NextByte();
        r := Ok(SBI(data));
      }
      else if first == 0xE6 {
        var data := NextByte();
        r := Ok(ANI(data));
      }
      else if first == 0xEE {
        var data := NextByte();
        r := Ok(XRI(data));
      }
      else if first == 0xF6 {
        var data := NextByte();
        r := Ok(ORI(data));
      }
      else if first == 0xFE {
        var data := NextByte();
        r := Ok(CPI(data));
      }
      else if first == 0x32 {
        var lo := NextByte();
        var hi := NextByte();
        r := Ok(STA(lo, hi));
      }
      else if first == 0x3A {
        var lo := NextByte();
        var hi := NextByte();
        r := Ok(LDA(lo, hi));
      }
      else if first == 0x22 {
        var lo := NextByte();
        var hi := NextByte();
        r := Ok(SHLD(lo, hi));
      }
      else if first == 0x2A {
        var lo := NextByte();
        var hi := NextByte();
        r := Ok(LHLD(lo, hi));
      }
      else if first == 0xE9 { r := Ok(PCHL); }
      else if first == 0xC3 {
        var lo := NextByte();
        var hi := NextByte();
        r := Ok(JMP(lo, hi));
      }
      else if first == 0xDA {
        var lo := NextByte();
        var hi := NextByte();
        r := Ok(JC(lo, hi));
      }
      else if first == 0xD2 {
        var lo := NextByte();
        var hi := NextByte();
        r := Ok(JNC(lo, hi));
      }
      else if first == 0xCA {
        var lo := NextByte();
        var hi := NextByte();
        r := Ok(JZ(lo, hi));
      }
      else if first == 0xC2 {
        var lo := NextByte();
        var hi := NextByte();
        r := Ok(JNZ(lo, hi));
      }
      else if first == 0xFA {
        var lo := NextByte();
        var hi := NextByte();
        r := Ok(JM(lo, hi));
      }
      else if first == 0xF2 {
        var lo := NextByte();
        var hi := NextByte();
        r := Ok(JP(lo, hi));
      }
      else if first == 0xEA {
        var lo := NextByte();
        var hi := NextByte();
        r := Ok(JPE(lo, hi));
      }
      else if first == 0xE2 {
        var lo := NextByte();
        var hi := NextByte();
        r := Ok(JPO(lo, hi));
      }
      else {
        r := FetchControl(first);
      }
    }

    /** The arms of `fetch` from CALL to the final unknown-opcode error. */
    method FetchControl(first: bv8) returns (r: Result<Instruction>)
      requires Valid() && 1 <= pc && pc + DecodedLength(first) <= 0x10000
      modifies this`pc
      ensures old(pc) <= pc <= old(pc) + 2
      ensures pc == old(pc) + (if r.Err? then 0 else DecodedLength(first) - 1)
      ensures r == FetchControlArms(first, ReadSince(old(pc), 0), ReadSince(old(pc), 1))
    {
      if first == 0xCD {
        var lo := NextByte();
        var hi := NextByte();
        r := Ok(CALL(lo, hi));
      }
      else if first == 0xDC {
        var lo := NextByte();
        var hi := NextByte();
        r := Ok(CC(lo, hi));
      }
      else if first == 0xD4 {
        var lo := NextByte();
        var hi := NextByte();
        r := Ok(CNC(lo, hi));
      }
      else if first == 0xCC {
        var lo := NextByte();
        var hi := NextByte();
        r := Ok(CZ(lo, hi));
      }
      else if first == 0xC4 {
        var lo := NextByte();
        var hi := NextByte();
        r := Ok(CNZ(lo, hi));
      }
      else if first == 0xFC {
        var lo := NextByte();
        var hi := NextByte();
        r := Ok(CM(lo, hi));
      }
      else if first == 0xF4 {
        var lo := NextByte();
        var hi := NextByte();
        r := Ok(CP(lo, hi));
      }
      else if first == 0xEC {
        var lo := NextByte();
        var hi := NextByte();
        r := Ok(CPE(lo, hi));
      }
      else if first == 0xE4 {
        var lo := NextByte();
        var hi := NextByte();
        r := Ok(CPO(lo, hi));
      }
      else if first == 0xC9 { r := Ok(RET); }
      else if first == 0xD8 { r := Ok(RC); }
      else if first == 0xD0 { r := Ok(RNC); }
      else if first == 0xC8 { r := Ok(RZ); }
      else if first == 0xC0 { r := Ok(RNZ); }
      else if first == 0xF8 { r := Ok(RM); }
      else if first == 0xF0 { r := Ok(RP); }
      else if first == 0xE8 { r := Ok(RPE); }
      else if first == 0xE0 { r := Ok(RPO); }
      else if first == 0xFB { r := Ok(EI); }
      else if first == 0xF3 { r := Ok(DI); }
      else if first == 0xDB {
        var port := NextByte();
        r := Ok(IN(port));
      }
      else if first == 0xD3 {
        var port := NextByte();
        r := Ok(OUT(port));
      }
      else if first == 0x76 { r := Ok(HLT); }
      else { r := Err(UnknownOpcode(first)); }
    }

    /** The (high, low) registers of a pair as `push` reads them. */
    function PairRegs(rp: RegPair): (r: (bv8, bv8))
      requires Valid() && rp != SP
      reads this, ram, ram.memory
      ensures r == PairBytes(Abs(), rp)
    {
      match rp
      case BC => (b, c)
      case DE => (d, e)
      case HL => (h, l)
      case PSW => (a, flag)
    }

    /** `(hi, lo)` assigned to the registers of a pair, as `pop`, `inx` and
        `dcx` do. */
    method SetPairRegs(rp: RegPair, hi: bv8, lo: bv8)
      requires Valid() && rp != SP
      modifies this
      ensures Valid() && Abs() == SetPairBytes(old(Abs()), rp, hi, lo)
    {
      match rp {
        case BC => b, c := hi, lo;
        case DE => d, e := hi, lo;
        case HL => h, l := hi, lo;
        case PSW => a, flag := hi, lo;
      }
    }

    /** `*self.get_src(src)`: the operand `src` names. */
    function ReadSrc(src: Src): (v: bv8)
      requires Valid()
      reads this, ram, ram.memory
      ensures v == Read(Abs(), src)
    {
      Load(GetSrc(src))
    }

    /** CMC and STC: `flag ^= 1 << CARRY_BIT` and `flag |= 1 << CARRY_BIT`. */
    method Cmc()
      requires Valid()
      modifies this`flag
      ensures Valid() && Abs() == Exec(old(Abs()), CMC)
    {
      ExecCmcArm(Abs());
      flag := ToggleCarry(flag);
    }

    method Stc()
      requires Valid()
      modifies this`flag
      ensures Valid() && Abs() == Exec(old(Abs()), STC)
    {
      ExecStcArm(Abs());
      flag := RaiseCarry(flag);
    }

    /** INR: the operand through `flagged_add(_, 1)`, the status bits other
        than the carry merged. */
    method Inr(src: Src)
      requires Valid()
      modifies this, ram.memory
      ensures Valid() && Abs() == Exec(old(Abs()), INR(src))
    {
      ExecInrArm(Abs(), src);
      var slot := GetSrc(src);
      var f := FlaggedAdd(Load(slot), 1);
      Store(slot, f.res);
      SetFlags(None, Some(f.parity), Some(f.aux), Some(f.zero), Some(f.sign));
    }

    /** DCR: the operand through `flagged_sub(_, 1)`, likewise. */
    method Dcr(src: Src)
      requires Valid()
      modifies this, ram.memory
      ensures Valid() && Abs() == Exec(old(Abs()), DCR(src))
    {
      ExecDcrArm(Abs(), src);
      var slot := GetSrc(src);
      var f := FlaggedSub(Load(slot), 1);
      Store(slot, f.res);
      SetFlags(None, Some(f.parity), Some(f.aux), Some(f.zero), Some(f.sign));
    }

    /** CMA: `a = !a`. */
    method Cma()
      requires Valid()
      modifies this`a
      ensures Valid() && Abs() == Exec(old(Abs()), CMA)
    {
      ExecCmaArm(Abs());
      a := !a;
    }

    /** The two nibble tests of DAA on the accumulator `x`: the correction
        `adj` they build and the carry `c` they decide. */
    static method DaaTests(x: bv8, cy: bool, ac: bool) returns (adj: bv8, c: bool)
      ensures c == DaaCarry(x, cy)
    {
      adj := 0;
      c := cy;
      var lsb := x & 0x0F;
      var msb := x >> 4;
      if lsb > 9 || ac {
        adj := adj + 0x06;
      }
      if msb > 9 || cy || (msb >= 9 && lsb > 9) {
        adj := adj + 0x60;
        c := true;
      }
    }

    /** DAA as written: the correction is computed and never applied; A
        receives `flagged_add(A, A)` and the decimal carry is merged into the
        flags afterwards. */
    method Daa()
      requires Valid()
      modifies this`a, this`flag
      ensures Valid() && Abs() == Exec(old(Abs()), DAA)
    {
      ExecDaaArm(Abs());
      var _, carry := DaaTests(a, GetFlag(CarryBit), GetFlag(AuxCarryBit));
      var f := FlaggedAdd(a, a);
      a := f.res;
      SetFlags(Some(f.carry), Some(f.parity), Some(f.aux), Some(f.zero), Some(f.sign));
      SetFlag(CarryBit, carry);
    }

    /** MOV: the source operand read, then written through the destination. */
    method Mov(dst: Src, src: Src)
      requires Valid()
      modifies this, ram.memory
      ensures Valid() && Abs() == Exec(old(Abs()), MOV(dst, src))
    {
      ExecMovArm(Abs(), dst, src);
      var v := ReadSrc(src);
      Store(GetSrc(dst), v);
    }

    /** STAX and LDAX through BC or DE. */
    method Stax(rp: RegPair)
      requires Valid() && (rp == BC || rp == DE)
      modifies ram.memory
      ensures Valid() && Abs() == Exec(old(Abs()), SATX(rp))
    {
      ExecStaxArm(Abs(), rp);
      match rp {
        case BC => ram.SaveByte(GetBcAddr(), a);
        case DE => ram.SaveByte(GetDeAddr(), a);
      }
    }

    method Ldax(rp: RegPair)
      requires Valid() && (rp == BC || rp == DE)
      modifies this`a
      ensures Valid() && Abs() == Exec(old(Abs()), LDAX(rp))
    {
      ExecLdaxArm(Abs(), rp);
      match rp {
        case BC => a := ram.LoadByte(GetBcAddr());
        case DE => a := ram.LoadByte(GetDeAddr());
      }
    }

    /** ADD, ADC, SUB and SBB: `flagged_add` or `flagged_sub` of A and the
        operand, with the carry added to the operand (wrapping) for ADC and
        SBB; the result into A and all five status bits to `set_flags`. */
    method Add(src: Src)
      requires Valid()
      modifies this`a, this`flag
      ensures Valid() && Abs() == Exec(old(Abs()), ADD(src))
    {
      ExecAddArm(Abs(), src);
      var f := FlaggedAdd(a, ReadSrc(src));
      a := f.res;
      SetFlags(Some(f.carry), Some(f.parity), Some(f.aux), Some(f.zero), Some(f.sign));
    }

    method Adc(src: Src)
      requires Valid()
      modifies this`a, this`flag
      ensures Valid() && Abs() == Exec(old(Abs()), ADC(src))
    {
      ExecAdcArm(Abs(), src);
      var cy := GetFlag(CarryBit);
      var f := FlaggedAdd(a, PlusCarry(ReadSrc(src), cy));
      a := f.res;
      SetFlags(Some(f.carry), Some(f.parity), Some(f.aux), Some(f.zero), Some(f.sign));
    }

    method Sub(src: Src)
      requires Valid()
      modifies this`a, this`flag
      ensures Valid() && Abs() == Exec(old(Abs()), SUB(src))
    {
      ExecSubArm(Abs(), src);
      var f := FlaggedSub(a, ReadSrc(src));
      a := f.res;
      SetFlags(Some(f.carry), Some(f.parity), Some(f.aux), Some(f.zero), Some(f.sign));
    }

    method Sbb(src: Src)
      requires Valid()
      modifies this`a, this`flag
      ensures Valid() && Abs() == Exec(old(Abs()), SBB(src))
    {
      ExecSbbArm(Abs(), src);
      var cy := GetFlag(CarryBit);
      var f := FlaggedSub(a, PlusCarry(ReadSrc(src), cy));
      a := f.res;
      SetFlags(Some(f.carry), Some(f.parity), Some(f.aux), Some(f.zero), Some(f.sign));
    }

    /** ANA, XRA and ORA: the bitwise operation into A, then
        `set_logical_flag`. */
    method Ana(src: Src)
      requires Valid()
      modifies this`a, this`flag
      ensures Valid() && Abs() == Exec(old(Abs()), ANA(src))
    {
      ExecAnaArm(Abs(), src);
      a := a & ReadSrc(src);
      SetLogicalFlag();
    }

    method Xra(src: Src)
      requires Valid()
      modifies this`a, this`flag
      ensures Valid() && Abs() == Exec(old(Abs()), XRA(src))
    {
      ExecXraArm(Abs(), src);
      a := a ^ ReadSrc(src);
      SetLogicalFlag();
    }

    method Ora(src: Src)
      requires Valid()
      modifies this`a, this`flag
      ensures Valid() && Abs() == Exec(old(Abs()), ORA(src))
    {
      ExecOraArm(Abs(), src);
      a := a | ReadSrc(src);
      SetLogicalFlag();
    }

    /** CMP: SUB's status bits, with A put back afterwards. */
    method Cmp(src: Src)
      requires Valid()
      modifies this`a, this`flag
      ensures Valid() && Abs() == Exec(old(Abs()), CMP(src))
    {
      ExecCmpArm(Abs(), src);
      var saved := a;
      var f := FlaggedSub(a, ReadSrc(src));
      SetFlags(Some(f.carry), Some(f.parity), Some(f.aux), Some(f.zero), Some(f.sign));
      a := saved;
    }

    /** RLC and RRC: the bit rotated out becomes the carry and re-enters at
        the other end. */
    method Rlc()
      requires Valid()
      modifies this`a, this`flag
      ensures Valid() && Abs() == Exec(old(Abs()), RLC)
    {
      ExecRlcArm(Abs());
      var cy := Bittest(a, 7);
      a := ShiftInLow(a, cy);
      SetFlag(CarryBit, cy);
    }

    method Rrc()
      requires Valid()
      modifies this`a, this`flag
      ensures Valid() && Abs() == Exec(old(Abs()), RRC)
    {
      ExecRrcArm(Abs());
      var cy := Bittest(a, 0);
      a := ShiftInHigh(a, cy);
      SetFlag(CarryBit, cy);
    }

    /** RAL and RAR: the bit shifted out is merged as the carry, and the old
        carry enters at the other end. */
    method Ral()
      requires Valid()
      modifies this`a, this`flag
      ensures Valid() && Abs() == Exec(old(Abs()), RAL)
    {
      ExecRalArm(Abs());
      var hb := Bittest(a, 7);
      var cy := GetFlag(CarryBit);
      SetFlag(CarryBit, hb);
      a := ShiftInLow(a, cy);
    }

    method Rar()
      requires Valid()
      modifies this`a, this`flag
      ensures Valid() && Abs() == Exec(old(Abs()), RAR)
    {
      ExecRarArm(Abs());
      var lb := Bittest(a, 0);
      var cy := GetFlag(CarryBit);
      SetFlag(CarryBit, lb);
      a := ShiftInHigh(a, cy);
    }

    /** PUSH: `sp` lowered by 2, then the high register stored at `sp + 1`
        and the low one at `sp`. */
    method Push(rp: RegPair)
      requires Valid() && rp != SP && sp >= 2
      modifies this`sp, ram.memory
      ensures Valid() && Abs() == Exec(old(Abs()), PUSH(rp))
    {
      ExecPushArm(Abs(), rp);
      sp := sp - 2;
      var (b1, b2) := PairRegs(rp);
      ram.SaveByte(sp + 1, b1);
      ram.SaveByte(sp, b2);
    }

    /** POP: the high register from `sp + 1`, the low one from `sp`, then
        `sp` raised by 2. */
    method Pop(rp: RegPair)
      requires Valid() && rp != SP && sp <= 0xFFFD
      modifies this
      ensures Valid() && Abs() == Exec(old(Abs()), POP(rp))
    {
      ExecPopArm(Abs(), rp);
      var hi := ram.LoadByte(sp + 1);
      var lo := ram.LoadByte(sp);
      SetPairRegs(rp, hi, lo);
      sp := sp + 2;
    }

    /** DAD as written: the carry of the 16-bit sum is merged into the
        flags and the sum is dropped. */
    method Dad(rp: RegPair)
      requires Valid() && rp != SP
      modifies this`flag
      ensures Valid() && Abs() == Exec(old(Abs()), DAD(rp))
    {
      ExecDadArm(Abs(), rp);
      var sum := GetRpVal(rp) + GetHlAddr();
      SetFlag(CarryBit, sum > 0xFFFF);
    }

    /** INX and DCX: `get_rp_val` stepped with 16-bit wrap-around and split
        back into the pair. */
    method Inx(rp: RegPair)
      requires Valid() && rp != SP
      modifies this
      ensures Valid() && Abs() == Exec(old(Abs()), INX(rp))
    {
      ExecInxArm(Abs(), rp);
      var (hi, lo) := SplitU16(WordInc(GetRpVal(rp)));
      SetPairRegs(rp, hi, lo);
    }

    method Dcx(rp: RegPair)
      requires Valid() && rp != SP
      modifies this
      ensures Valid() && Abs() == Exec(old(Abs()), DCX(rp))
    {
      ExecDcxArm(Abs(), rp);
      var (hi, lo) := SplitU16(WordDec(GetRpVal(rp)));
      SetPairRegs(rp, hi, lo);
    }

    /** XCHG as written: two parallel assignments, the second reading the D
        the first has just written. */
    method Xchg()
      requires Valid()
      modifies this`d, this`e, this`h, this`l
      ensures Valid() && Abs() == Exec(old(Abs()), XCHG)
    {
      ExecXchgArm(Abs());
      d, h := h, d;
      e, l := l, d;
    }

    /** XTHL: HL loaded from the word at `sp`, the old HL saved there. */
    method Xthl()
      requires Valid() && sp < 0xFFFF
      modifies this`h, this`l, ram.memory
      ensures Valid() && Abs() == Exec(old(Abs()), XTHL)
    {
      ExecXthlArm(Abs());
      var (h0, l0) := (h, l);
      var (hi, lo) := SplitU16(ram.LoadWord(sp));
      h, l := hi, lo;
      ram.SaveWord(sp, GetU16(h0, l0));
    }

    /** SPHL as written: HL saved as a word at `sp`. */
    method Sphl()
      requires Valid() && sp < 0xFFFF
      modifies ram.memory
      ensures Valid() && Abs() == Exec(old(Abs()), SPHL)
    {
      ExecSphlArm(Abs());
      ram.SaveWord(sp, GetU16(h, l));
    }

    /** `excecute`: the arm for `ins`, the arms selected one constructor at a
        time; every instruction without an arm changes nothing. The result is
        always `Ok`. */
    method Excecute(ins: Instruction) returns (r: Result<()>)
      requires Valid() && CanExecute(sp, ins)
      modifies this, ram.memory
      ensures Valid() && Abs() == Exec(old(Abs()), ins) && r == Ok(())
    {
      if ins.NOP? {
        ExecNopArm(Abs());
      } else if ins.CMC? {
        Cmc();
      } else if ins.STC? {
        Stc();
      } else if ins.INR? {
        Inr(ins.r);
      } else if ins.DCR? {
        Dcr(ins.r);
      } else if ins.CMA? {
        Cma();
      } else if ins.DAA? {
        Daa();
      } else if ins.MOV? {
        Mov(ins.dst, ins.src);
      } else if ins.SATX? {
        Stax(ins.rp);
      } else if ins.LDAX? {
        Ldax(ins.rp);
      } else if ins.ADD? {
        Add(ins.r);
      } else if ins.ADC? {
        Adc(ins.r);
      } else if ins.SUB? {
        Sub(ins.r);
      } else if ins.SBB? {
        Sbb(ins.r);
      } else if ins.ANA? {
        Ana(ins.r);
      } else if ins.XRA? {
        Xra(ins.r);
      } else if ins.ORA? {
        Ora(ins.r);
      } else if ins.CMP? {
        Cmp(ins.r);
      } else {
        ExecuteRotateOrPair(ins);
      }
      r := Ok(());
    }

    /** The arms of `excecute` from RLC on: the rotates, the register-pair
        arms, and the default arm for every instruction without an arm of its
        own. */
    method ExecuteRotateOrPair(ins: Instruction)
      requires Valid() && CanExecute(sp, ins)
      requires !(ins.NOP? || ins.CMC? || ins.STC? || ins.INR? || ins.DCR? || ins.CMA? || ins.DAA?)
      requires !(ins.MOV? || ins.SATX? || ins.LDAX? || ins.ADD? || ins.ADC? || ins.SUB? || ins.SBB?)
      requires !(ins.ANA? || ins.XRA? || ins.ORA? || ins.CMP?)
      modifies this, ram.memory
      ensures Valid() && Abs() == Exec(old(Abs()), ins)
    {
      if ins.RLC? {
        Rlc();
      } else if ins.RRC? {
        Rrc();
      } else if ins.RAL? {
        Ral();
      } else if ins.RAR? {
        Rar();
      } else if ins.PUSH? {
        Push(ins.rp);
      } else if ins.POP? {
        Pop(ins.rp);
      } else if ins.DAD? {
        Dad(ins.rp);
      } else if ins.INX? {
        Inx(ins.rp);
      } else if ins.DCX? {
        Dcx(ins.rp);
      } else if ins.XCHG? {
        Xchg();
      } else if ins.XTHL? {
        Xthl();
      } else if ins.SPHL? {
        Sphl();
      }
    }

    /** One pass of `run`'s loop: stop with `Ok` when `pc` is past the
        memory (it never is, since `pc` is 16 bits wide), with the error when
        `fetch` fails, or where a debug-mode check would panic; otherwise
        fetch and execute one instruction. */
    method Step() returns (stop: Option<RunOutcome>)
      requires Valid()
      modifies this, ram.memory
      ensures Valid() && (Abs(), stop) == StepSpec(old(Abs()))
    {
      if pc >= RamSize {
        return Some(Returned(Ok(())));
      }
      var op := ram.LoadByte(pc);
      if !CanFetchAt(pc, op) {
        return Some(Panicked);
      }
      var r := Fetch();
      if r.Err? {
        return Some(Returned(Err(r.error)));
      }
      if !CanExecute(sp, r.value) {
        return Some(Panicked);
      }
      var _ := Excecute(r.value);
      stop := None;
    }

    /** `run`, for at most `fuel` passes of its loop. */
    method Run(fuel: nat) returns (outcome: RunOutcome)
      requires Valid()
      modifies this, ram.memory
      ensures Valid() && (Abs(), outcome) == RunSpec(old(Abs()), fuel)
    {
      var left := fuel;
      ghost var goal := RunSpec(Abs(), fuel);
      while left > 0
        invariant Valid()
        invariant RunSpec(Abs(), left) == goal
        decreases left
      {
        ghost var s := Abs();
        var stop := Step();
        LoopStep(StepSpec, s, Abs(), stop, left, goal);
        if stop.Some? {
          return stop.value;
        }
        left := left - 1;
      }
      return OutOfFuel;
    }
  }
}
