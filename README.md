# i8080-emu interpreter core, modelled in Dafny

This project models the core of the `i8080-emu` Intel 8080 interpreter in Dafny.
Its CPU holds seven 8-bit registers, a flag byte, the stack register SP and the program counter PC, together with a 64 KiB `Dram`.
`run` repeats two steps:
- `fetch` decodes the opcode at `pc` into an `Instruction`, with its operand bytes, and advances `pc`;
- `excecute` applies the instruction to the registers, the flags and memory.

The model follows the code as written, including where it departs from the 8080 as documented (see "Where the code departs from the 8080" below).

Modules, one concern each:
- `Bytes` (bytes.dfy): `bitmatch`, bit tests, and joining and splitting 16-bit words. Includes the wrapping increment and decrement.
- `Alu` (alu.dfy): the adder and subtracter with their five flags, and the flag-register helpers `set_flag`, `set_flags` and `set_logical_flag`.
- `Instructions` (instruction.dfy): the `Instruction`, `Src`, `RegPair` and `Error` enums, and the register index maps.
- `Memory` (dram.dfy): the `Dram` class over a 65536-byte array, with its byte and little-endian word accessors.
- `Decoder` (decoder.dfy): a reference opcode map, organised by the opcode's bit fields. It says which instruction every byte decodes to and how many bytes it consumes.
- `FetchChain` (fetch_chain.dfy): the ordered `bitmatch` chain of `fetch` as a function, proved equal to the reference map.
- `Semantics` (semantics.dfy): the machine as a value (`State`), with the effect of every instruction (`Exec`), of `fetch` (`FetchSpec`) and of the run loop (`RunSpec`) written as functions.
- `Laws` (laws.dfy): properties of those functions, such as round trips, inverses, frames, the literal effect of the defective arms, and the run loop's outcome.
- `Machine` (cpu.dfy): the `Cpu` class, whose methods update its fields and its `Dram` in place. Each method is proved to take the abstract state `Abs()` exactly as the corresponding function in `Semantics` does.

`cpu.rs` calls the helpers `flagged_add`, `flagged_sub`, `get_u16`, `split_u16`, `idx2src`, `idx2rp` and `bittest`, but their definitions are not part of this model. They are modelled from how they are used:
- `flagged_add` / `flagged_sub` return the wrapped result, a carry out of bit 7 (a borrow for subtraction), even parity, an auxiliary carry out of bit 3 (a borrow for subtraction), zero, and sign as bit 7 of the result.
- `get_u16(hi, lo)` is `hi * 256 + lo`, and `split_u16` is its inverse.
- `idx2src` uses the 8080 register order B, C, D, E, H, L, M, A.
- `idx2rp` maps 0..3 to BC, DE, HL, PSW; SP is never produced.
- `bittest(x, n)` tests bit `n`.

## Model

| member | source | states |
|---|---|---|
| Bytes.BitmatchBitwise | src/utils.rs:3-5 | `bitmatch(bits, pattern, mask)` holds exactly when `bits` and `pattern` agree on every bit that `mask` selects |
| Bytes.BitmatchFullMask | src/utils.rs:3-5 | with mask 0xFF, `bitmatch` is byte equality, which the exact-opcode arms of `fetch` rely on |
| Bytes.BitmatchIgnoresUnmasked | src/utils.rs:3-5 | bits outside the mask never change the answer, so one arm covers every register or pair encoded in those bits |
| Bytes.BitmatchSelf | src/utils.rs:3-5 | every pattern matches itself under any mask, so every arm's own pattern reaches that arm unless an earlier arm takes it |
| Bytes.PopCount | src/cpu.rs:429-435 | the `count_ones` of a byte is at most 8, and zero exactly for the zero byte |
| Bytes.JoinBytes | src/cpu.rs:454-464 | joining a high and a low register byte gives `hi * 256 + lo`, the address the pair getters return |
| Bytes.JoinIsGetU16 | src/cpu.rs:454-464 | the bit-vector form `(hi << 8) \| lo` and the arithmetic form of a register pair denote the same word |
| Bytes.GetU16Bytes | src/cpu.rs:466-473 | the high byte of a joined pair is the word divided by 256, and the low byte is the remainder |
| Bytes.SplitU16 | src/cpu.rs:376-398 | splitting a word into (high, low) bytes and joining them again gives back the word |
| Bytes.SplitGetU16 | src/cpu.rs:403-407 | joining two bytes and splitting the result gives back the same two bytes |
| Bytes.RotateLeftOne | src/cpu.rs:332-336 | RLC's shift-and-or `(a << 1) \| u8::from(c)`, with `c` bit 7 of A, is a one-bit left rotation: bit 7 comes back in at bit 0 |
| Bytes.RotateRightOne | src/cpu.rs:337-341 | RRC's conditional `0x80 \| (a >> 1)`, taken when bit 0 of A is set, is a one-bit right rotation: bit 0 comes back in at bit 7 |
| Bytes.WordInc | src/cpu.rs:381-389 | INX's `wrapping_add(1)` on a 16-bit pair gives the next word, and 0xFFFF wraps to 0 |
| Bytes.WordDec | src/cpu.rs:390-398 | DCX's `wrapping_sub(1)` gives the previous word, and 0 wraps to 0xFFFF |
| Bytes.WordIncDecInverse | src/cpu.rs:381-398 | the wrapping increment and decrement of a pair undo each other in both orders |
| Alu.FlaggedAdd | src/cpu.rs:288-293 | the adder's result is the sum modulo 256, carry is set exactly when the true sum exceeds 255, and zero, sign and parity describe the result |
| Alu.FlaggedSub | src/cpu.rs:301-306 | the subtracter's result is the difference modulo 256, carry (borrow) is set exactly when the minuend is smaller, and zero, sign and parity describe the result |
| Alu.FlaggedSubSelf | src/cpu.rs:301-306 | subtracting a byte from itself gives 0 with zero and parity set and carry and sign clear |
| Alu.SetFlagValue | src/cpu.rs:445-448 | `set_flag` only ever clears bits: every other bit ends clear, and the chosen bit stays set only when the value is true and the bit was already set |
| Alu.MergeFlags | src/cpu.rs:437-443 | `set_flags` never sets a bit: a bit survives exactly when it was set and every `Some(true)` argument names it. So the byte is unchanged with no request, keeps at most the requested bit with one, and is cleared with two or more |
| Alu.MergeOne | src/cpu.rs:438-442 | one `Some(true)` argument of `set_flags` keeps only its own bit; `None` and `Some(false)` keep every bit |
| Alu.MergeFlagsSingle | src/cpu.rs:437-443 | a single request keeps exactly that flag's bit of the old byte (`f & 0x01`, `0x04`, `0x10`, `0x40`, `0x80`) |
| Alu.LogicalFlags | src/cpu.rs:429-435 | `set_logical_flag` always leaves the flag byte at 0 |
| Alu.ComplementCarry | src/cpu.rs:231 | CMC flips the carry bit and no other bit |
| Alu.SetCarry | src/cpu.rs:232 | STC sets the carry bit and no other bit changes |
| Alu.FlagBitIsBittest | src/cpu.rs:450-452 | `get_flag(bit)` is `bittest` of the flag byte at that bit |
| Instructions.Idx2Src | src/instruction.rs:57-60 | register field 6 names memory (`Mem`) and field 7 names the accumulator, and no other index names either |
| Instructions.SrcIndex | src/instruction.rs:57-60 | every operand has a 3-bit field that `idx2src` maps back to it |
| Instructions.Idx2SrcInjective | src/instruction.rs:57-60 | two different register fields never name the same operand |
| Instructions.Idx2Rp | src/instruction.rs:62-65 | a 2-bit pair field never names SP |
| Instructions.Operands | src/instruction.rs:2-55 | an instruction carries at most two operand bytes |
| Instructions.InstrLength | src/instruction.rs:2-55 | an instruction occupies one to three bytes |
| Memory.Dram.constructor | src/dram.rs:11-15 | a new `Dram` holds 65536 zero bytes in fresh storage |
| Memory.Dram.GetPtr | src/dram.rs:17-19 | `get_ptr(addr)` refers to cell `addr` of this memory's own storage |
| Memory.Dram.GetPtrIsLoadByteCell | src/dram.rs:17-23 | reading through `get_ptr(addr)` gives `load_byte(addr)` |
| Memory.Assign | src/dram.rs:17-19 | writing through a cell reference changes the one cell it refers to and nothing else |
| Memory.Dram.LoadWord | src/dram.rs:25-27 | `load_word` reads a little-endian word: the byte at `addr + 1` is the high byte |
| Memory.Dram.SaveByte | src/dram.rs:29-31 | `save_byte` changes exactly the cell at `addr` |
| Memory.Dram.SaveWord | src/dram.rs:33-36 | `save_word` leaves memory exactly as `StoreWord` describes it |
| Memory.WordAt | src/dram.rs:25-27 | the little-endian word at `addr` on a memory image |
| Memory.StoreWord | src/dram.rs:33-36 | after storing a word, the two cells at `addr` and `addr + 1` hold its low and high bytes and every other cell is unchanged |
| Memory.StoreWordThenWordAt | src/dram.rs:25-36 | `load_word` after `save_word` at the same address returns the stored word |
| Decoder.Decode | src/cpu.rs:222 | a byte no arm matches is reported as `UnknownOpcode` with that byte |
| Decoder.DecodedLength | src/cpu.rs:80-222 | every opcode occupies one, two or three bytes |
| Decoder.DecodeMov | src/cpu.rs:94-98 | every byte 0x40..0x7F is a MOV whose destination is bits 5-3 and whose source is bits 2-0 |
| Decoder.HaltNeverDecoded | src/cpu.rs:220 | 0x76 decodes as `MOV M,M` because the MOV arm comes first, so no byte ever decodes to HLT |
| Decoder.DecodeErrIff | src/cpu.rs:222 | decoding fails exactly for the 20 bytes that no arm matches |
| Decoder.DecodeOperands | src/cpu.rs:157-218 | a decoded instruction carries exactly the operand bytes the opcode consumes, and its length is the opcode's length |
| Decoder.DecodeIgnoresUnusedBytes | src/cpu.rs:157-218 | bytes beyond the opcode's length never affect what it decodes to |
| Decoder.MviRegisterField | src/cpu.rs:163-167 | MVI's register field is bits 5-3 shifted right by 4, a bare `u8` in the source that the model converts with `idx2src`: 0x3E (MVI A) loads E, and 0x06 and 0x0E both load B |
| Decoder.LxiPairField | src/cpu.rs:157-162 | LXI's pair is the 2-bit field `(op & 0x30) >> 4`, which the source puts into `LXI` as a bare `u8` and the model converts with `idx2rp`; so no LXI loads SP, and 0x31 loads PSW |
| FetchChain.FetchArmsIsDecode | src/cpu.rs:80-222 | the ordered `bitmatch` chain of `fetch` yields the instruction, or the error, that the reference opcode map gives |
| FetchChain.FetchErrIsOneByte | src/cpu.rs:222 | when the chain reports an unknown opcode, that opcode counts as one byte |
| Semantics.CarryValue | src/cpu.rs:294-300 | the carry as the number ADC and SBB add: 1 exactly when the carry flag is set, otherwise 0 |
| Semantics.RpVal | src/cpu.rs:466-473 | `get_rp_val` joins the pair's high and low registers |
| Semantics.SetPairBytes | src/cpu.rs:384-387 | assigning two bytes to a pair leaves them readable from that pair and leaves memory, SP and PC unchanged |
| Semantics.SetPair | src/cpu.rs:384-387 | assigning the split of a word to a pair leaves that word as the pair's value and leaves memory, SP and PC unchanged |
| Semantics.Write | src/cpu.rs:415-426 | writing through `get_src` gives the operand its new value, changes memory only at HL when the operand is M, and leaves flags, SP, PC and the interrupt flag unchanged |
| Semantics.WriteKeepsOthers | src/cpu.rs:415-426 | writing one operand leaves every other register unchanged |
| Semantics.WithLogical | src/cpu.rs:314-325 | ANA, XRA and ORA store their result in A and leave the flag byte at 0, changing nothing else |
| Semantics.ExecCmc | src/cpu.rs:231 | CMC flips the carry bit, keeps every other flag bit, and changes nothing else |
| Semantics.ExecStc | src/cpu.rs:232 | STC sets the carry bit, keeps every other flag bit, and changes nothing else |
| Semantics.ExecAdd | src/cpu.rs:288-293 | ADD adds the operand to A modulo 256 and changes only A and the flags |
| Semantics.ExecAdc | src/cpu.rs:294-300 | ADC adds the operand and the carry to A modulo 256 and changes only A and the flags |
| Semantics.ExecSub | src/cpu.rs:301-306 | SUB subtracts the operand from A modulo 256 and changes only A and the flags |
| Semantics.ExecSbb | src/cpu.rs:307-313 | SBB subtracts the operand and the carry from A modulo 256 and changes only A and the flags |
| Semantics.AddCarryAssociates | src/cpu.rs:294-313 | adding the carry to the operand first (`src.wrapping_add(c)`) gives the same byte as adding both to A |
| Semantics.ExecCmp | src/cpu.rs:326-331 | CMP sets the flags exactly as SUB would and changes nothing else, and A keeps its value |
| Semantics.ExecInr | src/cpu.rs:233-238 | INR writes its operand plus one (modulo 256) back through `get_src` and changes nothing else but the flag byte, which only loses bits |
| Semantics.ExecDcr | src/cpu.rs:239-244 | DCR writes its operand minus one (modulo 256) back through `get_src` and changes nothing else but the flag byte, which only loses bits |
| Semantics.ExecDaa | src/cpu.rs:246-268 | DAA as written stores A + A and changes only A and the flags |
| Semantics.ExecLdax | src/cpu.rs:281-287 | LDAX changes A and nothing else |
| Semantics.ExecRlc | src/cpu.rs:332-336 | RLC changes only A and the flags |
| Semantics.ExecRrc | src/cpu.rs:337-341 | RRC changes only A and the flags |
| Semantics.ExecRal | src/cpu.rs:342-347 | RAL shifts A left, brings the old carry into bit 0, and changes only A and the flags |
| Semantics.ExecRar | src/cpu.rs:348-353 | RAR shifts A right, brings the carry into bit 7, and changes only A and the flags |
| Semantics.ExecDad | src/cpu.rs:376-380 | DAD as written discards the sum and changes only the flags |
| Semantics.ExecInx | src/cpu.rs:381-389 | INX leaves memory unchanged |
| Semantics.ExecDcx | src/cpu.rs:390-398 | DCX leaves memory unchanged |
| Semantics.ExecXchg | src/cpu.rs:399-402 | XCHG leaves memory unchanged |
| Semantics.LoopStep | src/cpu.rs:61-69 | one pass of the run loop either ends the run with the pass's outcome, or leaves a run with one pass fewer from the new state, and the final result is the same either way |
| Semantics.LoopFuelMonotone | src/cpu.rs:61-69 | once a run ends within its budget, a larger budget gives the same final state and outcome |
| Semantics.LoopOutcome | src/cpu.rs:61-69 | if every pass that stops the loop stops it with an outcome of some kind, the run ends with that kind or by running out of budget |
| Laws.SetPairOwnValue | src/cpu.rs:381-398 | writing a pair's own value back to it changes nothing |
| Laws.SetPairTwice | src/cpu.rs:381-398 | the second of two writes to the same pair wins |
| Laws.SetPairFrame | src/cpu.rs:381-398 | writing one pair leaves every other pair's bytes unchanged |
| Laws.InxStep | src/cpu.rs:381-389 | INX makes the pair's value its wrapping successor and leaves memory, SP, PC and every other pair unchanged |
| Laws.DcxStep | src/cpu.rs:390-398 | DCX makes the pair's value its wrapping predecessor and leaves memory, SP, PC and every other pair unchanged |
| Laws.InxDcxArmsInverse | src/cpu.rs:381-398 | the INX and DCX arms undo each other in both orders |
| Laws.InxDcxInverse | src/cpu.rs:381-398 | executing INX and then DCX on the same pair restores the whole machine state |
| Laws.DcxInxInverse | src/cpu.rs:381-398 | executing DCX and then INX on the same pair restores the whole machine state |
| Laws.PushLayout | src/cpu.rs:354-364 | PUSH lowers SP by 2 and stores the pair's value as the little-endian word at the new SP. It changes no other memory cell, register or flag |
| Laws.PopLoads | src/cpu.rs:365-375 | POP loads the pair from the little-endian word at SP, raises SP by 2, and leaves memory unchanged |
| Laws.PushPopArms | src/cpu.rs:354-375 | the POP arm after the PUSH arm restores every register and SP; only the two stack cells written by PUSH differ |
| Laws.PushPopRoundTrip | src/cpu.rs:354-375 | POP can always follow PUSH, and PUSH then POP of the same pair restores the whole state except the two stack cells that PUSH wrote |
| Laws.XthlArmSwaps | src/cpu.rs:403-407 | the XTHL arm exchanges L with the byte at SP and H with the byte above it, and changes nothing else |
| Laws.XthlSwaps | src/cpu.rs:403-407 | executing XTHL exchanges L with the byte at SP and H with the byte above it, and changes nothing else |
| Laws.XthlInvolution | src/cpu.rs:403-407 | executing XTHL twice restores the whole machine state |
| Laws.XchgAsWritten | src/cpu.rs:399-402 | XCHG as written swaps D and H and moves the old L into E, but gives L the old H, so the old E is lost; nothing else changes |
| Laws.SphlAsWritten | src/cpu.rs:408 | SPHL as written leaves SP unchanged and instead writes HL as the word at SP in memory |
| Laws.MovEffect | src/cpu.rs:269-273 | MOV gives the destination the source's old value and leaves every other register unchanged |
| Laws.MovFrame | src/cpu.rs:269-273 | MOV keeps the flags, SP and PC, and changes memory only at HL when the destination is M |
| Laws.StaxLdax | src/cpu.rs:274-287 | STAX writes A to the cell the pair addresses and changes nothing else; LDAX loads A from that cell and changes nothing else |
| Laws.RlcRotates | src/cpu.rs:332-336 | RLC rotates A left; because flags are merged with `&=`, carry ends set only if it was set and bit 7 was set, and every other flag bit ends clear |
| Laws.RrcRotates | src/cpu.rs:337-341 | RRC rotates A right; carry ends set only if it was set and bit 0 was set, and every other flag bit ends clear |
| Laws.RalRarCarry | src/cpu.rs:342-353 | after RAL (RAR) the carry is set only if it was set and A's bit 7 (bit 0) was set, and every other flag bit ends clear |
| Laws.RalRarShift | src/cpu.rs:342-353 | RAL brings the old carry into bit 0 and RAR into bit 7; when the carry and bit 7 were set, RAL then RAR gives back A |
| Laws.InrDcrUndo | src/cpu.rs:233-244 | INR and DCR change only their operand (through `get_src`) and the flag byte, and DCR after INR on the same operand restores the whole state except the flags, which only lose bits |
| Semantics.WriteBack | src/cpu.rs:415-426 | writing an operand's old value back over a write to it restores the state, whatever happened to the flag byte in between |
| Laws.SubSelfClearsFlags | src/cpu.rs:301-306 | SUB A leaves A at 0, and because two flags are true the merged flag byte ends at 0 |
| Laws.UnhandledChangesNothing | src/cpu.rs:409 | every instruction without an `excecute` arm (HLT, EI, DI, IN, OUT, STA, LDA, SHLD, LHLD, PCHL, RST, jumps, calls, returns and the immediate forms) leaves the whole state unchanged |
| Laws.DadAsWritten | src/cpu.rs:376-380 | DAD as written keeps HL and every register, sets carry only if it was set and the 16-bit sum overflows, and clears every other flag bit |
| Laws.DaaAsWritten | src/cpu.rs:246-268 | DAA as written turns A = 0x9B into 0x36 (A + A), not the decimal adjustment |
| Laws.UnknownIsOneByte | src/cpu.rs:222 | every byte that matches no arm counts as a one-byte opcode |
| Laws.FetchAdvances | src/cpu.rs:74-224 | a successful fetch changes only PC, advances it by the instruction's length, and the instruction's operands are exactly the bytes skipped after the opcode |
| Laws.FetchUnknown | src/cpu.rs:77-78 | an unknown opcode is reported with its byte, and PC has already moved past it by one |
| Laws.StepStops | src/cpu.rs:61-69 | a pass of the loop never returns `Ok`, and any error it returns is `UnknownOpcode` |
| Laws.RunNeverReturnsOk | src/cpu.rs:61-69 | `run` never returns `Ok`: when it returns, the error is always `UnknownOpcode` |
| Laws.RunFuelMonotone | src/cpu.rs:61-69 | once a run ends, more passes of the loop change neither its final state nor its outcome |
| Laws.ExampleOpcodes | src/test_instr.rs:51-61 | 0x77, 0xD5, 0x13, 0x2B, 0xE1 and 0xE3 decode to MOV M,A, PUSH D, INX D, DCX H, POP H and XTHL |
| Laws.ExampleMovMemA | src/test_instr.rs:51-61 | MOV M,A with A = 0xFF and HL = 0x2BE9 stores 0xFF at 0x2BE9 |
| Laws.ExamplePushD | src/test_instr.rs:330-342 | PUSH D with DE = 0x8F9D and SP = 0x3A2C stores 0x8F at 0x3A2B and 0x9D at 0x3A2A, and SP becomes 0x3A2A |
| Laws.ExampleInxD | src/test_instr.rs:418-428 | INX D turns DE = 0x38FF into 0x3900 |
| Laws.ExampleDcxH | src/test_instr.rs:440-450 | DCX H turns HL = 0x9800 into 0x97FF |
| Laws.ExamplePopH | src/test_instr.rs:360-372 | POP H with 0x3D, 0x93 at SP = 0x1239 gives L = 0x3D, H = 0x93 and SP = 0x123B |
| Laws.ExampleXthl | src/test_instr.rs:468-483 | XTHL with SP = 0x10AD, HL = 0x0B3C and bytes 0xF0, 0x0D at SP gives HL = 0x0DF0 and bytes 0x3C, 0x0B |
| Bytes.Bitmatch | src/utils.rs:3-5 | `bitmatch`: the masked bits of the byte equal the masked bits of the pattern |
| Bytes.Bittest | src/cpu.rs:332-353 | `bittest(x, n)`: bit `n` of `x` is one |
| Bytes.EvenParity | src/cpu.rs:431 | the parity flag's value: an even number of one bits |
| Bytes.GetU16 | src/cpu.rs:466-473 | `get_u16(hi, lo)`: the 16-bit word with `hi` as its high byte |
| Alu.FlagBit | src/cpu.rs:450-452 | `get_flag`: `(flag & (1 << bit)) >> bit == 1` |
| Alu.KeepOnly | src/cpu.rs:438-442 | the `flag &= 1 << bit` step of `set_flags` |
| Alu.Allows | src/cpu.rs:438-442 | whether a `set_flags` argument lets a bit survive: only a `Some(true)` request for another bit clears it |
| Alu.TrueCount | src/cpu.rs:437-443 | the number of `Some(true)` arguments to `set_flags` |
| Alu.PlusCarry | src/cpu.rs:294-313 | ADC's and SBB's operand `src.wrapping_add(c)`, with `c` the carry as 0 or 1 |
| Alu.ToggleCarry | src/cpu.rs:231 | CMC's `flag ^= 1 << CARRY_BIT` |
| Alu.RaiseCarry | src/cpu.rs:232 | STC's `flag \|= 1 << CARRY_BIT` |
| Alu.ShiftInLow | src/cpu.rs:332-347 | RLC's and RAL's new A: shifted left with the given bit in bit 0 |
| Alu.ShiftInHigh | src/cpu.rs:337-353 | RRC's and RAR's new A: shifted right with the given bit in bit 7 |
| Alu.DaaCarry | src/cpu.rs:257-260 | the carry DAA computes: the old carry, a high nibble above 9, or a high nibble of 9 with a low nibble above 9 |
| Memory.Deref | src/dram.rs:17-19 | reading the cell a `get_ptr` reference points to |
| Memory.Dram.LoadByte | src/dram.rs:21-23 | `load_byte(addr)`: the byte stored at `addr` |
| Decoder.Decodable | src/cpu.rs:99-106 | the opcode is not LDAX D or STAX D, whose unshifted pair bit 16 `idx2rp` cannot map |
| FetchChain.FetchArms | src/cpu.rs:80-167 | the first arms of `fetch`'s ordered `bitmatch` chain (NOP through MVI), in source order, falling through to the rest |
| FetchChain.FetchDataArms | src/cpu.rs:169-192 | the immediate-ALU, direct-address, PCHL and jump arms of the chain, in source order |
| FetchChain.FetchControlArms | src/cpu.rs:194-222 | the call, return, EI/DI, IN/OUT and HLT arms, ending in `UnknownOpcode` |
| Semantics.Read | src/cpu.rs:415-426 | the value `*get_src(src)` reads: a register, or the byte at HL for M |
| Semantics.HlAddr | src/cpu.rs:454-456 | `get_hl_addr` on a state |
| Semantics.BcAddr | src/cpu.rs:458-460 | `get_bc_addr` on a state |
| Semantics.DeAddr | src/cpu.rs:462-464 | `get_de_addr` on a state |
| Semantics.PairBytes | src/cpu.rs:466-473 | the high and low registers of a pair, with PSW as A and the flag byte |
| Semantics.AluFlags | src/cpu.rs:288-313 | `set_flags` with all five results of an ALU operation |
| Semantics.IncDecFlags | src/cpu.rs:233-244 | `set_flags` with every result but the carry, as INR and DCR call it |
| Semantics.WithAlu | src/cpu.rs:288-313 | A receives an ALU result and the flags are merged from it |
| Semantics.ExecMov | src/cpu.rs:269-273 | MOV reads the source through `get_src` and writes it to the destination |
| Semantics.ExecStax | src/cpu.rs:274-280 | STAX stores A at the address in BC or DE |
| Semantics.ExecPush | src/cpu.rs:354-364 | PUSH lowers SP by 2 and saves the high byte at SP + 1 and the low byte at SP |
| Semantics.ExecPop | src/cpu.rs:365-375 | POP loads the high byte from SP + 1 and the low byte from SP, then raises SP by 2 |
| Semantics.ExecXthl | src/cpu.rs:403-407 | XTHL loads HL from the word at SP and saves the old HL there |
| Semantics.ExecSphl | src/cpu.rs:408 | SPHL as written saves HL as the word at SP |
| Semantics.Exec | src/cpu.rs:226-413 | `excecute`: the effect of every instruction on the machine state, with no effect for those without an arm |
| Semantics.CanFetch | src/cpu.rs:74-224 | `fetch` does not panic: the opcode is decodable and PC does not overflow while its bytes are read |
| Semantics.CanFetchAt | src/cpu.rs:475-478 | every byte read advances PC with `+= 1`, which must stay within 16 bits |
| Semantics.FetchSpec | src/cpu.rs:74-224 | `fetch`: decode the opcode at PC with its operand bytes and advance PC past them |
| Semantics.CanExecute | src/cpu.rs:354-408 | `excecute` stays within what the source defines: LDAX/STAX name BC or DE (their `unreachable!()` arms), the pair is not SP (the PUSH, POP, INX, DCX and `get_rp_val` matches have no SP arm), and SP stays in range for PUSH, POP, XTHL and SPHL |
| Semantics.StepSpec | src/cpu.rs:62-68 | one pass of `run`'s loop: the exit test, `fetch` and `excecute`, with how the run stops if it does |
| Semantics.Loop | src/cpu.rs:61-69 | at most `fuel` passes of a loop body, ending at the first pass that stops the loop |
| Semantics.RunSpec | src/cpu.rs:61-69 | `run` with a budget of `fuel` passes |
| Machine.Cpu.Valid | src/cpu.rs:20-36 | the `Cpu`'s `Dram` holds 65536 bytes |
| Machine.Cpu.Abs | src/cpu.rs:20-36 | the `Cpu`'s fields and memory as a `State` |
| Machine.Cpu.Load | src/cpu.rs:415-426 | reading through the reference `get_src` returns the register or the memory cell the operand refers to |
| Machine.Cpu.constructor | src/cpu.rs:40-55 | `new` starts with every register 0, SP 0, PC 0x40, flag byte 2, interrupts off and all memory zero |
| Machine.Cpu.GetFlag | src/cpu.rs:450-452 | `get_flag(bit)` holds exactly when that bit of the flag byte is set |
| Machine.Cpu.GetHlAddr | src/cpu.rs:454-456 | HL as an address: H is the high byte |
| Machine.Cpu.GetBcAddr | src/cpu.rs:458-460 | BC as an address: B is the high byte |
| Machine.Cpu.GetDeAddr | src/cpu.rs:462-464 | DE as an address: D is the high byte |
| Machine.Cpu.GetRpVal | src/cpu.rs:466-473 | `get_rp_val` is the joined value of the named pair in the abstract state |
| Machine.Cpu.GetSrc | src/cpu.rs:415-426 | `get_src` returns a reference whose value is the operand's, and writing through it has the effect `Write` describes |
| Machine.Cpu.Store | src/cpu.rs:415-426 | writing through an operand reference changes exactly that register, or that memory cell |
| Machine.Cpu.ReadSrc | src/cpu.rs:415-426 | reading an operand through `get_src` gives its value in the abstract state |
| Machine.Cpu.SetFlag | src/cpu.rs:445-448 | `set_flag` leaves the flag byte as `SetFlagValue` describes: bits are only ever cleared |
| Machine.Cpu.MergeFlag | src/cpu.rs:437-443 | one optional flag of `set_flags` is merged with `&=` when present |
| Machine.Cpu.SetFlags | src/cpu.rs:437-443 | `set_flags` leaves the flag byte as `MergeFlags` describes |
| Machine.Cpu.SetLogicalFlag | src/cpu.rs:429-435 | `set_logical_flag` leaves the flag byte at 0 |
| Machine.Cpu.NextByte | src/cpu.rs:475-478 | `next_byte` returns the byte at PC and advances PC by one |
| Machine.Cpu.Fetch | src/cpu.rs:74-224 | `fetch` leaves the machine, and returns the instruction or error, exactly as `FetchSpec` describes |
| Machine.Cpu.FetchHead | src/cpu.rs:80-167 | the arms of `fetch` from NOP through MVI consume the opcode's operand bytes and return what the ordered chain gives |
| Machine.Cpu.FetchData | src/cpu.rs:169-192 | the immediate-ALU, direct-address, PCHL and jump arms consume the opcode's operand bytes and return what the ordered chain gives |
| Machine.Cpu.FetchControl | src/cpu.rs:194-222 | the call, return, EI/DI, IN/OUT and HLT arms consume the opcode's operand bytes and return what the ordered chain gives |
| Machine.Cpu.PairRegs | src/cpu.rs:466-473 | the high and low registers of a pair |
| Machine.Cpu.SetPairRegs | src/cpu.rs:384-387 | assigning a pair's two registers changes them and nothing else |
| Machine.Cpu.Cmc | src/cpu.rs:231 | CMC in place, as `Exec` describes |
| Machine.Cpu.Stc | src/cpu.rs:232 | STC in place, as `Exec` describes |
| Machine.Cpu.Inr | src/cpu.rs:233-238 | INR in place, as `Exec` describes |
| Machine.Cpu.Dcr | src/cpu.rs:239-244 | DCR in place, as `Exec` describes |
| Machine.Cpu.Cma | src/cpu.rs:245 | CMA complements A in place |
| Machine.Cpu.DaaTests | src/cpu.rs:246-262 | the adjustment tests of DAA compute the new carry from A's two nibbles and the old carry |
| Machine.Cpu.Daa | src/cpu.rs:246-268 | DAA in place, as `Exec` describes |
| Machine.Cpu.Mov | src/cpu.rs:269-273 | MOV in place, as `Exec` describes |
| Machine.Cpu.Stax | src/cpu.rs:274-280 | STAX in place, as `Exec` describes |
| Machine.Cpu.Ldax | src/cpu.rs:281-287 | LDAX in place, as `Exec` describes |
| Machine.Cpu.Add | src/cpu.rs:288-293 | ADD in place, as `Exec` describes |
| Machine.Cpu.Adc | src/cpu.rs:294-300 | ADC in place, as `Exec` describes |
| Machine.Cpu.Sub | src/cpu.rs:301-306 | SUB in place, as `Exec` describes |
| Machine.Cpu.Sbb | src/cpu.rs:307-313 | SBB in place, as `Exec` describes |
| Machine.Cpu.Ana | src/cpu.rs:314-317 | ANA in place, as `Exec` describes |
| Machine.Cpu.Xra | src/cpu.rs:318-321 | XRA in place, as `Exec` describes |
| Machine.Cpu.Ora | src/cpu.rs:322-325 | ORA in place, as `Exec` describes |
| Machine.Cpu.Cmp | src/cpu.rs:326-331 | CMP in place, as `Exec` describes |
| Machine.Cpu.Rlc | src/cpu.rs:332-336 | RLC in place, as `Exec` describes |
| Machine.Cpu.Rrc | src/cpu.rs:337-341 | RRC in place, as `Exec` describes |
| Machine.Cpu.Ral | src/cpu.rs:342-347 | RAL in place, as `Exec` describes |
| Machine.Cpu.Rar | src/cpu.rs:348-353 | RAR in place, as `Exec` describes |
| Machine.Cpu.Push | src/cpu.rs:354-364 | PUSH in place on the registers and the `Dram`, as `Exec` describes |
| Machine.Cpu.Pop | src/cpu.rs:365-375 | POP in place, as `Exec` describes |
| Machine.Cpu.Dad | src/cpu.rs:376-380 | DAD in place, as `Exec` describes |
| Machine.Cpu.Inx | src/cpu.rs:381-389 | INX in place, as `Exec` describes |
| Machine.Cpu.Dcx | src/cpu.rs:390-398 | DCX in place, as `Exec` describes |
| Machine.Cpu.Xchg | src/cpu.rs:399-402 | XCHG in place, as `Exec` describes |
| Machine.Cpu.Xthl | src/cpu.rs:403-407 | XTHL in place on the registers and the `Dram`, as `Exec` describes |
| Machine.Cpu.Sphl | src/cpu.rs:408 | SPHL in place on the `Dram`, as `Exec` describes |
| Machine.Cpu.Excecute | src/cpu.rs:226-413 | `excecute` applies any instruction in place exactly as `Exec` describes, and always returns `Ok` |
| Machine.Cpu.ExecuteRotateOrPair | src/cpu.rs:332-411 | the rotate, stack, pair and default arms of `excecute`, as `Exec` describes |
| Machine.Cpu.Step | src/cpu.rs:61-69 | one pass of `run`'s loop (exit test, `fetch`, `excecute`) leaves the machine and its outcome as `StepSpec` describes |
| Machine.Cpu.Run | src/cpu.rs:61-69 | `run`, bounded by a budget of passes, ends in the state and with the outcome that `RunSpec` gives |

## Where the code departs from the 8080

The model follows the code. Each departure below is stated as a lemma about the literal behaviour:
- **Flags are merged with `&=`.** `set_flag` and `set_flags` can only clear flag bits (`Alu.SetFlagValue`, `Alu.MergeFlags`), and `set_logical_flag` leaves the byte at 0 (`Alu.LogicalFlags`). So the carry after a rotate is set only if it was already set (`Laws.RlcRotates`), and SUB A leaves every flag clear (`Laws.SubSelfClearsFlags`).
- **Sign test.** `set_logical_flag` computes the sign as `a > 0x80`, which would not count 0x80 as negative. It has no effect, because the flag byte ends at 0 whatever the sign (`Alu.LogicalFlags`).
- **DAA** stores `A + A` instead of the decimal adjustment: 0x9B gives 0x36, not 0x01 (`Laws.DaaAsWritten`).
- **DAD** computes the sum but stores only its carry; HL is unchanged (`Laws.DadAsWritten`).
- **XCHG** gives L the old H (its second assignment reads D after the swap), so the old E is lost (`Laws.XchgAsWritten`).
- **SPHL** writes HL into memory at SP instead of loading SP (`Laws.SphlAsWritten`).
- **MVI** takes its register field from bits 5-3 shifted by 4. The source puts that bare `u8` into `MVI` without calling `idx2src`; the model converts it with `idx2src`, so 0x3E loads E (`Decoder.MviRegisterField`).
- **LXI** takes its 2-bit pair field `(op & 0x30) >> 4` and puts that bare `u8` into `LXI` without calling `idx2rp`. The model converts it with `idx2rp`, which yields PSW for 3, so 0x31 (LXI SP) loads PSW and no LXI ever loads SP (`Decoder.LxiPairField`).
- **LDAX/STAX** pass the unshifted pair bit (0 or 16) to `idx2rp`, so the D forms have no pair (see "Left out").
- **HLT** (0x76) is reached by the MOV arm first and decodes as MOV M,M (`Decoder.HaltNeverDecoded`). `excecute` has no HLT arm either: HLT would fall into its `_ => ()` default.
- **Unhandled instructions.** HLT, EI, DI, IN, OUT, STA, LDA, SHLD, LHLD, PCHL, RST, the immediate forms, jumps, calls and returns have no arm in `excecute` and change nothing (`Laws.UnhandledChangesNothing`).
- **Unknown opcodes.** An unknown opcode is reported after PC has already moved past it (`Laws.FetchUnknown`).
- **`run` never returns `Ok`.** Its exit test `pc >= RAM_SIZE` can never hold for a 16-bit PC, so it never returns `Ok` and never reports `PcOutofRange`. It returns only the first `UnknownOpcode` (`Laws.RunNeverReturnsOk`).

## Left out

- `load` (src/cpu.rs:57-59) is `todo!()` and is not modelled. main.rs, device.rs, clock_cycles.rs and the `Display` implementation of `Error` are outside the interpreter core.
- Interrupts: `inte` is carried in the state but nothing in the core reads or writes it after `new`.
- The auxiliary-carry rule of `flagged_add` / `flagged_sub` (whose definitions are not part of this model) is taken to be the carry (borrow) out of bit 3. No lemma depends on it.
- `idx2rp(3)` is taken to be PSW, because the definition of `idx2rp` is not part of this model. Apart from its never being SP, only `Decoder.LxiPairField` (0x31 loads PSW) depends on which pair it is.
- `fetch` / `excecute` on LDAX D and STAX D (0x1A, 0x12): the decoder passes 16 to `idx2rp`, which has no pair for it. `Fetch` and `Step` exclude these bytes through `Decodable`, and `Step` reports them as `Panicked`.
- `excecute` on an instruction naming the SP pair (INX SP, DCX SP, DAD SP, PUSH/POP with SP): the matches of PUSH (src/cpu.rs:356-361), POP (366-371), INX (383-388), DCX (392-397) and `get_rp_val` (467-472, used by DAD) have no SP arm and no default, so as written they are non-exhaustive and do not compile. The model settles this by having `Excecute` require `CanExecute`, and `Step` reports such an instruction as `Panicked`. No decoded instruction names SP.
- Decoder.Decode: src/cpu.rs:160-161 and 164-166 put a bare `u8` where `LXI`'s `RegPair` and `MVI`'s `Src` are declared (src/instruction.rs:28), which does not type-check as written. The model converts the field with `idx2rp` / `idx2src`, as the neighbouring arms do.
- Debug-mode overflow panics (PC running past 0xFFFF while fetching; SP wrapping in PUSH and POP) are preconditions of the methods, and `Step` reports them as `Panicked`. Release-mode wrap-around of PC and of SP in PUSH and POP is not modelled.
- XTHL and SPHL at SP = 0xFFFF: `save_word` writes memory index `addr + 1` = 65536 (src/dram.rs:35), which is out of bounds and panics in every build; XTHL's `load_word` already overflows `addr + 1` in debug builds (src/dram.rs:26). Nothing wraps. `CanExecute` requires SP < 0xFFFF for both, and `Step` reports such an instruction as `Panicked`.
- Machine.Cpu.Run: `run` loops without bound. The model runs at most `fuel` passes and reports `OutOfFuel` when they are used up; `Laws.RunFuelMonotone` shows that the bound never changes a run that ends.
- A mutable reference into memory (`get_ptr`, `get_src` on M) is modelled as the pair of the backing array and an index (`Memory.Ptr`); Rust's aliasing rules are not modelled.
- Cycle counts and wall-clock pacing are not modelled.
- Machine.Cpu.FetchHead, Machine.Cpu.FetchData, Machine.Cpu.FetchControl: these are the three parts of `fetch`'s single ordered chain, split into three methods only to keep each proof small. Together with `FetchChain.FetchArmsIsDecode` they state the whole chain.
