/** What one instruction does to the machine, stated about `Exec`, `FetchSpec`
    and `RunSpec`: stack round trips, pair arithmetic, exchanges, register
    and memory frames, accumulator results, how the flag byte evolves, and
    where the code as written departs from the 8080 manual. */
module Laws {
  import opened Bytes
  import opened Instructions
  import opened Alu
  import opened Memory
  import opened Decoder
  import opened Semantics

  // ---------------------------------------------------------------- pairs

  /** Writing a pair's own value back changes nothing. */
  lemma SetPairOwnValue(s: State, rp: RegPair)
    requires rp != SP
    ensures SetPair(s, rp, RpVal(s, rp)) == s
  {
    SplitGetU16(PairBytes(s, rp).0, PairBytes(s, rp).1);
  }

  /** A second write to a pair overrides the first. */
  lemma SetPairTwice(s: State, rp: RegPair, v: Word, w: Word)
    requires rp != SP
    ensures SetPair(SetPair(s, rp, v), rp, w) == SetPair(s, rp, w)
  {
  }

  /** Writing a pair leaves every other pair as it was. */
  lemma SetPairFrame(s: State, rp: RegPair, w: Word, q: RegPair)
    requires rp != SP && q != SP && q != rp
    ensures PairBytes(SetPair(s, rp, w), q) == PairBytes(s, q)
  {
  }

  /** INX steps the pair up by one with 16-bit wrap-around; memory, `sp` and
      `pc` are unchanged, and so is every other pair. */
  lemma InxStep(s: State, rp: RegPair, q: RegPair)
    requires rp != SP && q != SP && q != rp
    ensures RpVal(Exec(s, INX(rp)), rp) == WordInc(RpVal(s, rp))
    ensures Exec(s, INX(rp)).mem == s.mem && Exec(s, INX(rp)).sp == s.sp
    ensures Exec(s, INX(rp)).pc == s.pc
    ensures PairBytes(Exec(s, INX(rp)), q) == PairBytes(s, q)
  {
    ExecInxArm(s, rp);
    SetPairFrame(s, rp, WordInc(RpVal(s, rp)), q);
  }

  /** DCX steps the pair down in the same way. */
  lemma DcxStep(s: State, rp: RegPair, q: RegPair)
    requires rp != SP && q != SP && q != rp
    ensures RpVal(Exec(s, DCX(rp)), rp) == WordDec(RpVal(s, rp))
    ensures Exec(s, DCX(rp)).mem == s.mem && Exec(s, DCX(rp)).sp == s.sp
    ensures Exec(s, DCX(rp)).pc == s.pc
    ensures PairBytes(Exec(s, DCX(rp)), q) == PairBytes(s, q)
  {
    ExecDcxArm(s, rp);
    SetPairFrame(s, rp, WordDec(RpVal(s, rp)), q);
  }

  /** The INX and DCX arms undo each other. */
  lemma InxDcxArmsInverse(s: State, rp: RegPair)
    requires rp != SP
    ensures ExecDcx(ExecInx(s, rp), rp) == s && ExecInx(ExecDcx(s, rp), rp) == s
  {
    var v := RpVal(s, rp);
    WordIncDecInverse(v);
    SetPairTwice(s, rp, WordInc(v), v);
    SetPairTwice(s, rp, WordDec(v), v);
    SetPairOwnValue(s, rp);
  }

  /** INX followed by DCX of the same pair restores the state. */
  lemma InxDcxInverse(s: State, rp: RegPair)
    requires rp != SP
    ensures Exec(Exec(s, INX(rp)), DCX(rp)) == s
  {
    ExecInxArm(s, rp);
    ExecDcxArm(ExecInx(s, rp), rp);
    InxDcxArmsInverse(s, rp);
  }

  /** DCX followed by INX of the same pair restores the state. */
  lemma DcxInxInverse(s: State, rp: RegPair)
    requires rp != SP
    ensures Exec(Exec(s, DCX(rp)), INX(rp)) == s
  {
    ExecDcxArm(s, rp);
    ExecInxArm(ExecDcx(s, rp), rp);
    InxDcxArmsInverse(s, rp);
  }

  // ---------------------------------------------------------------- stack

  /** PUSH lowers `sp` by two and leaves the pair's value there as a
      little-endian word (high register at `sp + 1`, low register at `sp`);
      every other byte and every register is untouched. */
  lemma PushLayout(s: State, rp: RegPair)
    requires rp != SP && s.sp >= 2
    ensures Exec(s, PUSH(rp)).sp == s.sp - 2
    ensures WordAt(Exec(s, PUSH(rp)).mem, s.sp - 2) == RpVal(s, rp)
    ensures forall i | 0 <= i < RamSize && i != s.sp - 2 && i != s.sp - 1 ::
              Exec(s, PUSH(rp)).mem[i] == s.mem[i]
    ensures Exec(s, PUSH(rp)).(sp := s.sp, mem := s.mem) == s
  {
    ExecPushArm(s, rp);
  }

  /** POP loads the pair from the word at `sp` and raises `sp` by two, with
      memory unchanged. */
  lemma PopLoads(s: State, rp: RegPair)
    requires rp != SP && s.sp <= 0xFFFD
    ensures RpVal(Exec(s, POP(rp)), rp) == WordAt(s.mem, s.sp)
    ensures Exec(s, POP(rp)).sp == s.sp + 2 && Exec(s, POP(rp)).mem == s.mem
  {
    ExecPopArm(s, rp);
  }

  /** The POP arm reads back what the PUSH arm wrote. */
  lemma PushPopArms(s: State, rp: RegPair)
    requires rp != SP && s.sp >= 2
    ensures ExecPop(ExecPush(s, rp), rp) == s.(mem := ExecPush(s, rp).mem)
  {
  }

  /** PUSH followed by POP of the same pair restores every register and `sp`;
      only the two stack bytes written by PUSH remain in memory. */
  lemma PushPopRoundTrip(s: State, rp: RegPair)
    requires rp != SP && s.sp >= 2
    ensures CanExecute(Exec(s, PUSH(rp)).sp, POP(rp))
    ensures Exec(Exec(s, PUSH(rp)), POP(rp)) == s.(mem := Exec(s, PUSH(rp)).mem)
  {
    ExecPushArm(s, rp);
    ExecPopArm(ExecPush(s, rp), rp);
    PushPopArms(s, rp);
  }

  // ------------------------------------------------------------ exchanges

  /** The XTHL arm exchanges L with the byte at `sp` and H with the byte at
      `sp + 1`. */
  lemma XthlArmSwaps(s: State)
    requires s.sp < 0xFFFF
    ensures ExecXthl(s).l == s.mem[s.sp] && ExecXthl(s).h == s.mem[s.sp + 1]
    ensures ExecXthl(s).mem == s.mem[s.sp := s.l][s.sp + 1 := s.h]
    ensures ExecXthl(s).(h := s.h, l := s.l, mem := s.mem) == s
  {
    SplitGetU16(s.mem[s.sp + 1], s.mem[s.sp]);
    SplitGetU16(s.h, s.l);
  }

  /** XTHL exchanges L with the byte at `sp` and H with the byte at `sp + 1`,
      and changes nothing else. */
  lemma XthlSwaps(s: State)
    requires s.sp < 0xFFFF
    ensures Exec(s, XTHL).l == s.mem[s.sp] && Exec(s, XTHL).h == s.mem[s.sp + 1]
    ensures Exec(s, XTHL).mem == s.mem[s.sp := s.l][s.sp + 1 := s.h]
    ensures Exec(s, XTHL).(h := s.h, l := s.l, mem := s.mem) == s
  {
    ExecXthlArm(s);
    XthlArmSwaps(s);
  }

  /** XTHL is its own inverse. */
  lemma XthlInvolution(s: State)
    requires s.sp < 0xFFFF
    ensures Exec(Exec(s, XTHL), XTHL) == s
  {
    ExecXthlArm(s);
    var t := ExecXthl(s);
    ExecXthlArm(t);
    XthlArmSwaps(s);
    XthlArmSwaps(t);
    assert ExecXthl(t).mem == s.mem;
  }

  /** XCHG as written: H and D are exchanged, E receives L, and L receives the
      old H (the already updated D) instead of the old E. */
  lemma XchgAsWritten(s: State)
    ensures Exec(s, XCHG).h == s.d && Exec(s, XCHG).d == s.h
    ensures Exec(s, XCHG).e == s.l && Exec(s, XCHG).l == s.h
    ensures Exec(s, XCHG).(d := s.d, e := s.e, h := s.h, l := s.l) == s
  {
  }

  /** SPHL as written: HL is stored as a word at `sp`, and `sp` keeps its
      value. */
  lemma SphlAsWritten(s: State)
    requires s.sp < 0xFFFF
    ensures Exec(s, SPHL).sp == s.sp
    ensures WordAt(Exec(s, SPHL).mem, s.sp) == HlAddr(s)
    ensures Exec(s, SPHL).(mem := s.mem) == s
  {
  }

  // ------------------------------------------------------ data transfers

  /** MOV stores the source operand into the destination operand and leaves
      every register other than the destination as it was. */
  lemma MovEffect(s: State, dst: Src, src: Src, o: Src)
    requires o != dst && o != Mem
    ensures Read(Exec(s, MOV(dst, src)), dst) == Read(s, src)
    ensures Read(Exec(s, MOV(dst, src)), o) == Read(s, o)
  {
    WriteKeepsOther(s, dst, Read(s, src), o);
  }

  /** MOV keeps the flags, `sp` and `pc`, and changes memory only when the
      destination is the byte at HL. */
  lemma MovFrame(s: State, dst: Src, src: Src)
    ensures Exec(s, MOV(dst, src)).flag == s.flag
    ensures Exec(s, MOV(dst, src)).sp == s.sp && Exec(s, MOV(dst, src)).pc == s.pc
    ensures Exec(s, MOV(dst, src)).mem ==
              if dst == Mem then s.mem[HlAddr(s) := Read(s, src)] else s.mem
  {
    ExecMovArm(s, dst, src);
  }

  /** STAX stores A at BC or DE; LDAX loads A from there. */
  lemma StaxLdax(s: State, rp: RegPair)
    requires (rp == BC || rp == DE)
    ensures Exec(s, SATX(rp)).mem == s.mem[GetU16(PairBytes(s, rp).0, PairBytes(s, rp).1) := s.a]
    ensures Exec(s, LDAX(rp)).a == s.mem[RpVal(s, rp)]
    ensures Exec(s, LDAX(rp)).(a := s.a) == s && Exec(s, SATX(rp)).(mem := s.mem) == s
  {
  }

  // --------------------------------------------------------- accumulator

  /** RLC rotates A left by one bit; the carry afterwards is set only if it
      was set before and bit 7 was one, and the other flags are cleared. */
  lemma RlcRotates(s: State)
    ensures Exec(s, RLC).a == s.a.RotateLeft(1)
    ensures FlagBit(Exec(s, RLC).flag, CarryBit) <==> Flag(s, CarryBit) && Bittest(s.a, 7)
    ensures forall i: BitIndex | i != CarryBit :: !FlagBit(Exec(s, RLC).flag, i)
    ensures Exec(s, RLC) == s.(a := Exec(s, RLC).a, flag := Exec(s, RLC).flag)
  {
    RotateLeftOne(s.a);
  }

  /** RRC rotates A right by one bit, with the carry treated as for RLC. */
  lemma RrcRotates(s: State)
    ensures Exec(s, RRC).a == s.a.RotateRight(1)
    ensures FlagBit(Exec(s, RRC).flag, CarryBit) <==> Flag(s, CarryBit) && Bittest(s.a, 0)
    ensures forall i: BitIndex | i != CarryBit :: !FlagBit(Exec(s, RRC).flag, i)
    ensures Exec(s, RRC) == s.(a := Exec(s, RRC).a, flag := Exec(s, RRC).flag)
  {
    RotateRightOne(s.a);
  }

  /** RAL and RAR merge the bit shifted out into the carry: it stays set only
      if it was set and that bit is one, and the other flags are cleared. */
  lemma RalRarCarry(s: State)
    ensures FlagBit(Exec(s, RAL).flag, CarryBit) <==> Flag(s, CarryBit) && Bittest(s.a, 7)
    ensures FlagBit(Exec(s, RAR).flag, CarryBit) <==> Flag(s, CarryBit) && Bittest(s.a, 0)
    ensures forall i: BitIndex | i != CarryBit :: !FlagBit(Exec(s, RAL).flag, i)
    ensures forall i: BitIndex | i != CarryBit :: !FlagBit(Exec(s, RAR).flag, i)
  {
  }

  /** RAL shifts the old carry into bit 0 and RAR into bit 7, so A after RAL
      then RAR is A again when the carry was set and A's bit 7 was one (the
      only case in which the `&=` merge keeps the carry). */
  lemma RalRarShift(s: State)
    ensures Exec(s, RAL).a == (s.a << 1) | CarryValue(s)
    ensures Exec(s, RAR).a == (s.a >> 1) | (CarryValue(s) << 7)
    ensures Flag(s, CarryBit) && Bittest(s.a, 7) ==> Exec(Exec(s, RAL), RAR).a == s.a
  {
    ExecRalArm(s);
    ExecRarArm(s);
    if Flag(s, CarryBit) && Bittest(s.a, 7) {
      var t := ExecRal(s);
      assert Flag(t, CarryBit);
      ExecRarArm(t);
      assert t.a == (s.a << 1) | 1;
    }
  }

  // ------------------------------------------------------------- INR, DCR

  /** INR and DCR write the stepped operand back through `get_src` and change
      nothing else but the flags, which only lose bits; DCR after INR on the
      same operand restores everything except the flag register. */
  lemma InrDcrUndo(s: State, r: Src)
    ensures Exec(s, INR(r)) == Write(s, r, Read(s, r) + 1).(flag := Exec(s, INR(r)).flag)
    ensures Exec(s, DCR(r)) == Write(s, r, Read(s, r) - 1).(flag := Exec(s, DCR(r)).flag)
    ensures Exec(Exec(s, INR(r)), DCR(r)) == s.(flag := Exec(Exec(s, INR(r)), DCR(r)).flag)
    ensures Exec(Exec(s, INR(r)), DCR(r)).flag & s.flag == Exec(Exec(s, INR(r)), DCR(r)).flag
  {
    ExecInrArm(s, r);
    ExecDcrArm(s, r);
    var t := ExecInr(s, r);
    ExecDcrArm(t, r);
    WriteBack(s, r, Read(s, r) + 1, t.flag);
    assert Read(t, r) - 1 == Read(s, r);
  }

  // --------------------------------------------------------------- flags

  /** SUB A leaves A = 0 and, since both Zero and Parity are requested, a
      zero flag byte: not even the Zero flag the result calls for is set. */
  lemma SubSelfClearsFlags(s: State)
    ensures Exec(s, SUB(A)).a == 0
    ensures Exec(s, SUB(A)).flag == 0
  {
    FlaggedSubSelf(s.a);
  }

  // ------------------------------------------------- arms the code skips

  /** The instructions `excecute` has no arm for. */
  predicate Unhandled(ins: Instruction) {
    !(ins.NOP? || ins.CMC? || ins.STC? || ins.INR? || ins.DCR? || ins.CMA? || ins.DAA?
      || ins.MOV? || ins.SATX? || ins.LDAX? || ins.ADD? || ins.ADC? || ins.SUB? || ins.SBB?
      || ins.ANA? || ins.XRA? || ins.ORA? || ins.CMP? || ins.RLC? || ins.RRC? || ins.RAL?
      || ins.RAR? || ins.PUSH? || ins.POP? || ins.DAD? || ins.INX? || ins.DCX? || ins.XCHG?
      || ins.XTHL? || ins.SPHL?)
  }

  /** Immediates, direct loads and stores, jumps, calls, returns, RST, EI, DI,
      IN, OUT and HLT change nothing at all, not even `pc` beyond the fetch. */
  lemma UnhandledChangesNothing(s: State, ins: Instruction)
    requires Unhandled(ins)
    ensures CanExecute(s.sp, ins) && Exec(s, ins) == s
  {
  }

  /** DAD as written: the sum is dropped, so every register, HL in
      particular, keeps its value; the carry stays set only if the 16-bit sum
      overflows, and every other flag is cleared. */
  lemma DadAsWritten(s: State, rp: RegPair)
    requires rp != SP
    ensures Exec(s, DAD(rp)) == s.(flag := Exec(s, DAD(rp)).flag)
    ensures FlagBit(Exec(s, DAD(rp)).flag, CarryBit) <==>
              Flag(s, CarryBit) && RpVal(s, rp) + HlAddr(s) > 0xFFFF
    ensures forall i: BitIndex | i != CarryBit :: !FlagBit(Exec(s, DAD(rp)).flag, i)
  {
  }

  /** DAA as written doubles the accumulator: 0x9B becomes 0x36, not the
      decimal-adjusted 0x01. */
  lemma DaaAsWritten(s: State)
    requires s.a == 0x9B
    ensures Exec(s, DAA).a == 0x36
  {
  }

  // ---------------------------------------------------------------- fetch

  /** The unknown bytes are one byte long. */
  lemma UnknownIsOneByte(op: bv8)
    requires op in UnknownBytes
    ensures DecodedLength(op) == 1
  {
  }

  /** `fetch` changes only `pc`. When it decodes an instruction it advances
      `pc` by the instruction's length, and the instruction's operands are the
      bytes after the opcode in memory, low byte first. */
  lemma FetchAdvances(s: State)
    requires CanFetch(s) && FetchSpec(s).1.Ok?
    ensures FetchSpec(s).0 == s.(pc := FetchSpec(s).0.pc)
    ensures FetchSpec(s).0.pc == s.pc + InstrLength(FetchSpec(s).1.value)
    ensures Operands(FetchSpec(s).1.value) == s.mem[s.pc + 1 .. FetchSpec(s).0.pc]
  {
    var op := s.mem[s.pc];
    var n := DecodedLength(op);
    var lo := if n >= 2 then s.mem[s.pc + 1] else 0;
    var hi := if n == 3 then s.mem[s.pc + 2] else 0;
    assert FetchSpec(s) == (s.(pc := s.pc + n), Decode(op, lo, hi));
    DecodeOperands(op, lo, hi);
    FollowingBytes(s.mem, s.pc, n);
  }

  /** The `n - 1` bytes after `pc`, as `fetch` passes them to the decoder
      with 0 for the ones the opcode does not use. */
  lemma FollowingBytes(mem: Image, pc: Word, n: nat)
    requires 1 <= n <= 3 && pc + n <= 0xFFFF
    ensures mem[pc + 1 .. pc + n] ==
            [if n >= 2 then mem[pc + 1] else 0, if n == 3 then mem[pc + 2] else 0][..n - 1]
  {
    if n == 1 {
    } else if n == 2 {
    } else {
    }
  }

  /** A byte that decodes to no instruction makes `fetch` return
      `UnknownOpcode` of that byte, with `pc` advanced by exactly one and
      nothing else changed. */
  lemma FetchUnknown(s: State)
    requires CanFetch(s) && s.mem[s.pc] in UnknownBytes
    ensures FetchSpec(s).1 == Err(UnknownOpcode(s.mem[s.pc]))
    ensures FetchSpec(s).0 == s.(pc := s.pc + 1)
  {
    var op := s.mem[s.pc];
    DecodeErrIff(op, 0, 0);
    UnknownIsOneByte(op);
  }

  // ------------------------------------------------------------------ run

  /** A pass of `run`'s loop stops with `Ok` only when `pc` is past the
      memory, which a 16-bit `pc` never is; it returns an error only when
      `fetch` meets an unknown opcode. */
  lemma StepStops(s: State)
    ensures StepSpec(s).1 != Some(Returned(Ok(())))
    ensures StepSpec(s).1.Some? && StepSpec(s).1.value.Returned? ==>
              StepSpec(s).1.value.result.Err? && StepSpec(s).1.value.result.error.UnknownOpcode?
  {
  }

  /** `run` never returns `Ok`: its exit test cannot hold for a 16-bit `pc`.
      When it returns, it returns an unknown-opcode error. */
  lemma RunNeverReturnsOk(s: State, fuel: nat)
    ensures RunSpec(s, fuel).1 != Returned(Ok(()))
    ensures RunSpec(s, fuel).1.Returned? ==>
              RunSpec(s, fuel).1.result.Err? && RunSpec(s, fuel).1.result.error.UnknownOpcode?
  {
    forall x ensures StepSpec(x).1.Some? ==> ReturnsError(StepSpec(x).1.value) {
      StepStops(x);
    }
    LoopOutcome(StepSpec, s, fuel, ReturnsError);
  }

  /** The outcome is not `Ok`, and a returned error is an unknown opcode. */
  predicate ReturnsError(o: RunOutcome) {
    o != Returned(Ok(())) && (o.Returned? ==> o.result.Err? && o.result.error.UnknownOpcode?)
  }

  /** A run that ends before its budget is used up ends the same way with any
      larger budget. */
  lemma RunFuelMonotone(s: State, fuel: nat, more: nat)
    requires RunSpec(s, fuel).1 != OutOfFuel
    ensures RunSpec(s, fuel + more) == RunSpec(s, fuel)
  {
    LoopFuelMonotone(StepSpec, s, fuel, more);
  }

  // ------------------------------------------------------------- examples

  /** The opcodes of the examples below decode as the 8080 manual says. */
  lemma ExampleOpcodes()
    ensures Decode(0x77, 0, 0) == Ok(MOV(Mem, A)) && Decode(0xD5, 0, 0) == Ok(PUSH(DE))
    ensures Decode(0x13, 0, 0) == Ok(INX(DE)) && Decode(0x2B, 0, 0) == Ok(DCX(HL))
    ensures Decode(0xE1, 0, 0) == Ok(POP(HL)) && Decode(0xE3, 0, 0) == Ok(XTHL)
  {
  }

  /** MOV M,A: with A = 0xFF and HL = 0x2BE9 the byte at 0x2BE9
      becomes 0xFF. */
  lemma ExampleMovMemA(s: State)
    requires s.a == 0xFF && s.h == 0x2B && s.l == 0xE9
    ensures Exec(s, MOV(Mem, A)).mem[0x2BE9] == 0xFF
  {
  }

  /** PUSH D: with DE = 0x8F9D and SP = 0x3A2C, 0x8F lands at 0x3A2B,
      0x9D at 0x3A2A, and SP becomes 0x3A2A. */
  lemma ExamplePushD(s: State)
    requires s.d == 0x8F && s.e == 0x9D && s.sp == 0x3A2C
    ensures Exec(s, PUSH(DE)).mem[0x3A2B] == 0x8F && Exec(s, PUSH(DE)).mem[0x3A2A] == 0x9D
    ensures Exec(s, PUSH(DE)).sp == 0x3A2A
  {
  }

  /** INX D: DE = 0x38FF becomes 0x3900. */
  lemma ExampleInxD(s: State)
    requires s.d == 0x38 && s.e == 0xFF
    ensures Exec(s, INX(DE)).d == 0x39 && Exec(s, INX(DE)).e == 0x00
  {
    var t := Exec(s, INX(DE));
    InxStep(s, DE, BC);
    GetU16Bytes(t.d, t.e);
    ByteIntInjective(t.d, 0x39);
    ByteIntInjective(t.e, 0x00);
  }

  /** DCX H: HL = 0x9800 becomes 0x97FF. */
  lemma ExampleDcxH(s: State)
    requires s.h == 0x98 && s.l == 0x00
    ensures Exec(s, DCX(HL)).h == 0x97 && Exec(s, DCX(HL)).l == 0xFF
  {
    var t := Exec(s, DCX(HL));
    DcxStep(s, HL, BC);
    GetU16Bytes(t.h, t.l);
    ByteIntInjective(t.h, 0x97);
    ByteIntInjective(t.l, 0xFF);
  }

  /** POP H: with 0x3D at SP = 0x1239 and 0x93 above it, L becomes 0x3D, H
      becomes 0x93 and SP becomes 0x123B. */
  lemma ExamplePopH(s: State)
    requires s.sp == 0x1239 && s.mem[0x1239] == 0x3D && s.mem[0x123A] == 0x93
    ensures Exec(s, POP(HL)).l == 0x3D && Exec(s, POP(HL)).h == 0x93
    ensures Exec(s, POP(HL)).sp == 0x123B
  {
    ExecPopArm(s, HL);
  }

  /** XTHL: with SP = 0x10AD, HL = 0x0B3C and the bytes 0xF0, 0x0D at SP,
      HL becomes 0x0DF0 and the bytes at SP become 0x3C, 0x0B. */
  lemma ExampleXthl(s: State)
    requires s.sp == 0x10AD && s.h == 0x0B && s.l == 0x3C
    requires s.mem[0x10AD] == 0xF0 && s.mem[0x10AE] == 0x0D
    ensures Exec(s, XTHL).h == 0x0D && Exec(s, XTHL).l == 0xF0
    ensures Exec(s, XTHL).mem[0x10AD] == 0x3C && Exec(s, XTHL).mem[0x10AE] == 0x0B
  {
    XthlSwaps(s);
  }
}
