# Advantage emulator: verified models

Models, in Dafny 4.11, of the parts of a NorthStar Advantage emulator whose behaviour spans many
steps: the Z80 interpreter over banked memory, the floppy disk controller, the keyboard behind its
command port, the speaker's event timeline, and the decoder of escaped strings. `dafny verify
dfyconfig.toml` checks all of it.

## The Z80

`Machine` is the reference: one instruction a step, a repeating instruction one iteration a step, pc
kept in 16 bits and R in seven. `Instructions` and `Alu` say what each instruction does, with the
emulator's own xor formulas for the flags; `BankedMemory` is the memory they work on. `Z80Emulator`
holds the emulator as it is written: a loop over unreduced ints, prefixes fetched one by one, and the
repeating instructions as fused inner loops (`Fused`) that a cycle budget may cut and that rewind pc
by two. `Emulate` is proved to stop exactly where the reference machine is after as many steps as the
budget pays for, and `Slicing` that the way a run is cut into budgets only moves the point where it
stops, never back; `Endings` says exactly which budgets are ever used up. The devices behind the
ports are an arbitrary state with an input and an output function, so a log of the port accesses is
one such state: I/O order is covered.

`Opcodes`, `LoadOpcodes`, `AluOpcodes` and `GeneralOpcodes` say what single steps do, from the opcode
bytes in memory to the state and the cycles, in terms of the registers by name; `AluMeaning` says what
the flags mean. `BlockMeaning`, `PortMeaning`, `Chained`, `Stack`, `Nesting` and `Calls` say what
programs use the instructions for, and `BlockSlices` carries the copies and searches to the emulator,
cut into any slices.

Some things are not as one would expect, and are proved as they are:

- LDIR entered with BC = 0 is right. The counter goes negative, but of 65536 consecutive addresses two
  are those of the opcode, and the test for self-overwriting ends the loop there (`NotPast65536`).
- CPIR entered with BC = 0 is wrong when the budget lasts beyond 65535 iterations and nothing matches:
  the counter passes -65535 and the search goes on (`SearchFaithfulIff` has the exact condition). INIR
  and OTIR entered with B = 0 index the flag table with a negative number (`PortTableIndex`).
- The fused loops look for their own opcode by its 16-bit address only. When a second address reaches
  the same cell, LDIR and INIR can overwrite themselves unnoticed; they are right for all registers
  and budgets exactly when there is none (`LoadFaithfulIff`, `InputFaithfulIff`). OTIR does not look at
  all, and can map its own page away; it is right whatever memory holds exactly when its port does not
  remap a slot of its opcode (`OutputFaithfulIff`).
- Memory filled with DD and FD bytes hangs the emulator (`HangsIffAllPrefixes`), and memory filled with
  DI and EI makes it run for ever on any positive budget. No other run goes on for ever (`FinishesIff`).

`Trap` names the situations in which a fused loop and the reference machine differ. `Emulate` asks for
runs without one, and `FixedStepIsNoTrap` gives a check on a single step that excludes them.

Where comments in the source and its code differ the model follows the code: a DD CB or FD CB opcode
whose last three bits name a register runs the register form and leaves pc on the displacement byte.

## The other parts

`Floppy` is the controller as a function of its state, one operation at a time, over the layout of
`DiskLayout` and the checksum of `Crc8`; `FloppyDevice` is the same with fields updated in place.
`FloppyRotation` and `FloppySession` have the properties of whole runs: the sector clock in closed
form, and the round trip of a sector through a write session, a turn of the disk and a read session.
The hold times are those of the code, 25 and 1000, not those its comments mention.

`Mmu` is the memory management unit and the RAM with arrays updated in place, proved against
`BankedMemory`. `Keyboard` has the queue, the command port, and the protocol by which the guest takes
keys out of the queue in halves. `Timeline` has the growable array and the sorted insertion of
`speaker_toggle`, with times as real numbers. `Escape` has the decoder in place, the decoder by
recursion, and the grammar that both accept.

## Model

| member | source | states |
|---|---|---|
| Alu.FlagsRoundTrip | src/nsae/z80emu/z80emu.c:537-550 | splitting F into its eight flags after PUSH AF and POP AF loses nothing: every flag set survives the byte |
| Alu.FlagsByteRoundTrip | src/nsae/z80emu/z80emu.c:545-550 | every byte popped into F is pushed back unchanged |
| Alu.Add8Sum | src/nsae/z80emu/macros.h:171-203 | after ADD or ADC, A and C together are the nine-bit sum; N is clear |
| Alu.Add8Half | src/nsae/z80emu/macros.h:171-203 | H from the xor formula is the carry out of bit 3 |
| Alu.Add8Overflow | src/nsae/z80emu/macros.h:171-203 | V from the overflow table is set exactly when the signed sum leaves -128..127 |
| Alu.Sub8Difference | src/nsae/z80emu/macros.h:205-239 | after SUB or SBC, A less 256 times C is the exact difference; N is set |
| Alu.Sub8Half | src/nsae/z80emu/macros.h:205-239 | H is the borrow from bit 4 |
| Alu.Sub8Overflow | src/nsae/z80emu/macros.h:205-239 | V is set exactly when the signed difference leaves -128..127 |
| Alu.OverflowIndexInTable | src/nsae/z80emu/macros.h:171-203 | the unmasked overflow-table index of ADD and ADC has no bit beyond the two of the table |
| Alu.OverflowIndexInTable16 | src/nsae/z80emu/z80emu.c:1337-1366 | nor has that of ADC HL |
| Alu.AdcHlMeaning | src/nsae/z80emu/z80emu.c:1337-1366 | ADC HL is 17-bit addition with carry, and V is its signed overflow |
| Alu.SbcHlMeaning | src/nsae/z80emu/z80emu.c:1368-1399 | SBC HL is 16-bit subtraction with C as borrow, and V is its signed overflow |
| Opcodes.StepAt | src/nsae/z80emu/z80emu.c:289-301 | the step at an opcode behind any prefix: its effect, the next address, four cycles a fetch besides its own |
| Opcodes.ConditionIs | src/nsae/z80emu/z80emu.c:37-61 | the condition tables: bits 5-3 name Z, C, P/V or S of F as a byte, clear or set |
| Opcodes.JumpIf | src/nsae/z80emu/z80emu.c:2032-2057 | opcodes C2h to FAh: the operand word exactly if the condition on the bytes of F holds, or on past it |
| Opcodes.CallIf | src/nsae/z80emu/z80emu.c:2151-2178 | CALL cc: the jump and the push exactly if the condition holds |
| Opcodes.ReturnIf | src/nsae/z80emu/z80emu.c:2187-2197 | RET cc: the word on the stack, popped, exactly if the condition holds |
| Opcodes.JumpRelative | src/nsae/z80emu/z80emu.c:2059-2070 | JR by the signed displacement counted from after it |
| Opcodes.JumpRelativeIf | src/nsae/z80emu/z80emu.c:2072-2098 | JR NZ, Z, NC, C |
| Opcodes.CountDown | src/nsae/z80emu/z80emu.c:2107-2133 | DJNZ: B one down modulo 256, the jump unless it reaches zero |
| Opcodes.JumpAlways | src/nsae/z80emu/z80emu.c:2019-2030 | JP, and JP (HL) to the register itself, IX or IY behind a prefix |
| Opcodes.CallAlways | src/nsae/z80emu/z80emu.c:2137-2185 | CALL and RET, from their opcode bytes |
| Opcodes.Restart | src/nsae/z80emu/z80emu.c:2229-2236 | RST p calls 8 p |
| LoadOpcodes.LoadRegister | src/nsae/z80emu/z80emu.c:305-310 | LD r,r': the named register takes the value of the other, H and L those of IX or IY behind a prefix; everything else kept |
| LoadOpcodes.LoadImmediate | src/nsae/z80emu/z80emu.c:312-317 | LD r,n |
| LoadOpcodes.LoadPointed | src/nsae/z80emu/z80emu.c:319-338 | LD r,(HL) and LD r,(IX+d) with signed d, H and L the plain ones |
| LoadOpcodes.StorePointed | src/nsae/z80emu/z80emu.c:340-359 | LD (HL),r and LD (IX+d),r |
| LoadOpcodes.StoreImmediate | src/nsae/z80emu/z80emu.c:361-385 | LD (HL),n, and LD (IX+d),n with d first |
| LoadOpcodes.LoadA | src/nsae/z80emu/z80emu.c:387-409 | LD A,(BC), (DE), (nn) |
| LoadOpcodes.StoreA | src/nsae/z80emu/z80emu.c:411-433 | LD (BC), (DE), (nn),A |
| LoadOpcodes.LoadPair | src/nsae/z80emu/z80emu.c:482-487 | LD rr,nn |
| LoadOpcodes.LoadHLDirect | src/nsae/z80emu/z80emu.c:489-497 | LD HL,(nn), IX and IY behind a prefix |
| LoadOpcodes.StoreHLDirect | src/nsae/z80emu/z80emu.c:509-517 | LD (nn),HL |
| LoadOpcodes.LoadSP | src/nsae/z80emu/z80emu.c:529-535 | LD SP,HL |
| LoadOpcodes.ExchangePairs | src/nsae/z80emu/z80emu.c:554-559 | EX DE,HL, which no prefix changes |
| LoadOpcodes.ExchangeAF | src/nsae/z80emu/z80emu.c:561-566 | EX AF,AF' |
| LoadOpcodes.ExchangeAll | src/nsae/z80emu/z80emu.c:568-575 | EXX |
| LoadOpcodes.ExchangeTop | src/nsae/z80emu/z80emu.c:577-588 | EX (SP),HL |
| AluOpcodes.AluRegister | src/nsae/z80emu/z80emu.c:809-1003 | the eight operations on a register: A and F, nothing else |
| AluOpcodes.AluImmediate | src/nsae/z80emu/z80emu.c:816-1013 | the same on the byte after the opcode |
| AluOpcodes.AluPointed | src/nsae/z80emu/z80emu.c:826-1023 | the same on (HL) or (IX+d) |
| AluOpcodes.CompareImmediate | src/nsae/z80emu/z80emu.c:1005-1013 | after CP n a jump on Z is taken exactly if A is n, one on C exactly if A is less; all registers kept |
| AluOpcodes.IncrementRegister | src/nsae/z80emu/z80emu.c:1025-1030 | INC r |
| AluOpcodes.DecrementRegister | src/nsae/z80emu/z80emu.c:1061-1066 | DEC r |
| AluOpcodes.IncrementPointed | src/nsae/z80emu/z80emu.c:1032-1059 | INC (HL) and INC (IX+d) |
| AluOpcodes.DecrementPointed | src/nsae/z80emu/z80emu.c:1068-1095 | DEC (HL) and DEC (IX+d) |
| AluOpcodes.CountPair | src/nsae/z80emu/z80emu.c:1401-1427 | INC rr and DEC rr modulo 65536, no flags |
| AluOpcodes.AddPair | src/nsae/z80emu/z80emu.c:1308-1335 | ADD HL,rr and ADD IX,rr |
| AluOpcodes.AddPairCarry | src/nsae/z80emu/z80emu.c:1337-1366 | ADC HL,rr |
| AluOpcodes.SubtractPairCarry | src/nsae/z80emu/z80emu.c:1368-1399 | SBC HL,rr |
| AluOpcodes.InputA | src/nsae/z80emu/z80emu.c:2240-2251 | IN A,(n): what the devices give on port n |
| AluOpcodes.OutputA | src/nsae/z80emu/z80emu.c:2389-2400 | OUT (n),A: the devices get A on port n, and a mapping port maps its page |
| AluOpcodes.RotateRegister | src/nsae/z80emu/z80emu.c:1501-1808 | RLC r to SRL r |
| AluOpcodes.TestBit | src/nsae/z80emu/z80emu.c:1871-1890 | BIT b,r: Z exactly if the bit is clear, everything else documented kept |
| AluOpcodes.ChangeBit | src/nsae/z80emu/z80emu.c:1931-1979 | SET b,r and RES b,r: that bit and no other |
| GeneralOpcodes.DecimalAdjust | src/nsae/z80emu/z80emu.c:1099-1129 | DAA |
| GeneralOpcodes.Complement | src/nsae/z80emu/z80emu.c:1131-1146 | CPL |
| GeneralOpcodes.SetCarry | src/nsae/z80emu/z80emu.c:1189-1203 | SCF |
| GeneralOpcodes.ComplementCarry | src/nsae/z80emu/z80emu.c:1169-1187 | CCF, the old carry going to H |
| GeneralOpcodes.NegateA | src/nsae/z80emu/z80emu.c:1148-1167 | NEG |
| GeneralOpcodes.DisableInterrupts | src/nsae/z80emu/z80emu.c:1235-1262 | DI clears both flip-flops and gives four cycles back |
| GeneralOpcodes.EnableInterrupts | src/nsae/z80emu/z80emu.c:1264-1282 | EI sets them |
| GeneralOpcodes.Halt | src/nsae/z80emu/z80emu.c:1211-1233 | HALT stops the run and changes nothing |
| GeneralOpcodes.NoOperation | src/nsae/z80emu/z80emu.c:1205-1209 | NOP |
| GeneralOpcodes.RotateA | src/nsae/z80emu/z80emu.c:1431-1497 | RLCA, RRCA, RLA, RRA: value and carry of the rotate, S, Z and P/V kept |
| GeneralOpcodes.InputRegister | src/nsae/z80emu/z80emu.c:2253-2274 | IN r,(C) with the flags of the byte |
| GeneralOpcodes.OutputRegister | src/nsae/z80emu/z80emu.c:2402-2415 | OUT (C),r, zero for encoding 6 |
| GeneralOpcodes.LoadPairDirect | src/nsae/z80emu/z80emu.c:499-507 | LD rr,(nn) |
| GeneralOpcodes.StorePairDirect | src/nsae/z80emu/z80emu.c:519-527 | LD (nn),rr |
| GeneralOpcodes.SingleIsIteration | src/nsae/z80emu/z80emu.c:590-619 | LDI, CPI, INI, OUTI and the downward forms do what one iteration of the repeating form does |
| AluMeaning.ApplySignZero | src/nsae/z80emu/macros.h:171-254 | Z exactly for a zero result and S exactly for a negative one, for all operations but CP |
| AluMeaning.ApplySum | src/nsae/z80emu/macros.h:171-203 | ADD and ADC: A with C is the sum, V its signed overflow, H the half carry, N clear |
| AluMeaning.ApplyDifference | src/nsae/z80emu/macros.h:205-239 | SUB and SBC: A with C is the difference, V its signed overflow, H the half borrow, N set |
| AluMeaning.CompareMeaning | src/nsae/z80emu/macros.h:256-272 | CP keeps A; Z exactly if equal, C exactly if less, S, V and H of the difference |
| AluMeaning.ApplyLogic | src/nsae/z80emu/macros.h:241-254 | AND, OR, XOR bit by bit; parity in P/V, C and N clear, H set by AND only |
| AluMeaning.IncrementMeaning | src/nsae/z80emu/macros.h:274-288 | INC modulo 256, V at 127, Z and S of the result, C kept |
| AluMeaning.DecrementMeaning | src/nsae/z80emu/macros.h:290-304 | DEC modulo 256, V at 128, Z and S of the result, C kept |
| AluMeaning.NegateMeaning | src/nsae/z80emu/z80emu.c:1148-1167 | NEG: the negative modulo 256 with all flags |
| AluMeaning.DaaSignZero | src/nsae/z80emu/z80emu.c:1099-1129 | Z, S and parity of the result of DAA |
| AluMeaning.ShiftLeft | src/nsae/z80emu/macros.h:308-378 | RLC, RL, SLA, SLL: nine bits through C |
| AluMeaning.ShiftRight | src/nsae/z80emu/macros.h:308-378 | RRC, RR, SRL, SRA: nine bits through C |
| AluMeaning.RotateFlags | src/nsae/z80emu/macros.h:308-378 | Z, S and parity of the result, H and N clear |
| AluMeaning.WordSignZero | src/nsae/z80emu/z80emu.c:1337-1399 | Z and S of the whole word after ADC HL and SBC HL |
| AluMeaning.AddHlMeaning | src/nsae/z80emu/z80emu.c:1308-1335 | ADD HL: the sum with C, H from bit 11, S, Z and V kept |
| Chained.AdcChainSum | src/nsae/z80emu/macros.h:188-203 | ADC over any number of byte pairs adds the whole little-endian numbers; the last C is the carry out |
| Chained.AdcChainOverflow | src/nsae/z80emu/macros.h:188-203 | the last V of an ADC chain is the signed overflow of the whole numbers |
| Chained.SbcChainDifference | src/nsae/z80emu/macros.h:223-239 | SBC over any number of byte pairs subtracts the whole numbers; the last C is the borrow |
| Chained.SbcChainOverflow | src/nsae/z80emu/macros.h:223-239 | the last V of an SBC chain is the signed overflow of the whole numbers |
| Chained.AdcHlIsTwoAdcs | src/nsae/z80emu/z80emu.c:1337-1366 | ADC HL agrees with two chained byte additions in value, C and V |
| Chained.SbcHlIsTwoSbcs | src/nsae/z80emu/z80emu.c:1368-1399 | SBC HL agrees with two chained byte subtractions in value, C and V |
| Chained.AdcDaa | src/nsae/z80emu/z80emu.c:1099-1129 | ADC then DAA on packed-decimal bytes gives two decimal digits and the decimal carry |
| Chained.SbcDaa | src/nsae/z80emu/z80emu.c:1099-1129 | SBC then DAA on packed-decimal bytes gives two decimal digits and the decimal borrow |
| Chained.AdcDaaChainSum | src/nsae/z80emu/z80emu.c:1099-1129 | ADC and DAA over packed-decimal numbers of any length is decimal addition with C as carry |
| Chained.SbcDaaChainDifference | src/nsae/z80emu/z80emu.c:1099-1129 | SBC and DAA over packed-decimal numbers of any length is the ten's-complement difference with C as borrow |
| BankedMemory.PageTable | src/nsae/adv.c:44-53 | base and size of all sixteen pages |
| BankedMemory.MappedRead | src/nsae/adv.c:535-544 | after a write to a mapping port its slot reads from the page that data bits 7 and 2-0 name, every other slot as before |
| BankedMemory.BankSafety | src/nsae/mmu.c:52-76 | whatever pages are mapped, every 16-bit address decodes below the end of the RAM |
| BankedMemory.ReadAfterWrite | src/nsae/mmu.c:78-102 | a byte written shows at exactly the addresses that decode to the same cell below the PROM; all other addresses keep theirs |
| BankedMemory.DistinctFullPagesAreSole | src/nsae/adv.c:44-53 | with four different full pages mapped every address is writable and none is aliased |
| Mmu.Ram.constructor | src/nsae/ram.c:15-45 | a new RAM is blank but for the PROM at its base; too large a PROM is not loaded |
| Mmu.Ram.Write | src/nsae/ram.c:151-168 | a store below the PROM changes that cell only; one at or above it is refused with code 1 and changes nothing |
| Mmu.Mmu.constructor | src/nsae/adv.c:42-58 | power-on leaves the page map of the Advantage and pages 8, 9, C, 0 in the slots |
| Mmu.Mmu.InitPage | src/nsae/mmu.c:30-38 | sets mask and base of one page and no other |
| Mmu.Mmu.LoadPage | src/nsae/mmu.c:40-50 | maps one slot and leaves RAM and the other slots |
| Mmu.Mmu.DecodeAddress | src/nsae/mmu.c:52-76 | slot, mask and base arithmetic on the arrays is the decoding of the value model, and is in range |
| Mmu.Mmu.ReadByte | src/nsae/mmu.c:78-89 | reads the byte of the value model |
| Mmu.Mmu.WriteByte | src/nsae/mmu.c:91-102 | the memory afterwards is the value model after the same write, PROM stores dropped |
| Machine.UnreducedRefines | src/nsae/z80emu/z80emu.c:264-300 | a step on unreduced pc and R has the same outcome as on pc modulo 65536 and R modulo 128: fetches past FFFFh, signed jumps, pushed return addresses and R agree |
| Machine.EndlessIffAllPrefixes | src/nsae/z80emu/z80emu.c:2527-2591 | no instruction is ever decoded exactly when every visible byte is DD or FD |
| Machine.HangsIffAllPrefixes | src/nsae/z80emu/z80emu.c:2527-2591 | the emulator is stuck in prefix fetching exactly when every visible byte is DD or FD |
| Machine.StepsAdd | src/nsae/z80emu/z80emu.c:2624-2641 | a trajectory and its cycle cost split at any point |
| Machine.FinishesUnique | src/nsae/z80emu/z80emu.c:2629-2633 | a budget stops a run after one number of steps only |
| Keeping.ExecKeeps | src/nsae/z80emu/z80emu.c:301-2495 | every instruction leaves the PROM; only output instructions change the page map; only LD R,A changes bit 7 of R; only DI and EI give cycles back |
| Slicing.StepKeeps | src/nsae/z80emu/z80emu.c:2635-2641 | the same of every step of the machine, and pc and R stay in range |
| Slicing.PromForever | src/nsae/ram.c:159-163 | no run of any program changes the PROM |
| Fused.PassAgrees | src/nsae/z80emu/z80emu.c:621-708 | one pass of a fused loop and one LDI, CPI, INI or OUTI have the same registers, flags, memory and devices, and the loop is over exactly when the repeating instruction is |
| Fused.NotPast65536 | src/nsae/z80emu/z80emu.c:629-699 | the int counter never runs past -65534, so it still stands for a 16-bit one: a zero BC makes LDIR meet its own opcode first |
| Fused.CounterStays | src/nsae/z80emu/z80emu.c:629-699 | what is known of the counter at the top of the loop is kept by every pass that goes round again |
| Fused.AlignedNext | src/nsae/z80emu/z80emu.c:633-699 | going round again is a reference step that fetches the same instruction again, with the cycles left equal |
| Fused.ExitMatches | src/nsae/z80emu/z80emu.c:677-706 | leaving the loop, finished or cut, is a reference step: pc rewound by two exactly when unfinished |
| Fused.EnterAligned | src/nsae/z80emu/z80emu.c:621-633 | the loop starts in step with the reference machine unless a zero counter is one it gets wrong |
| Fused.FusedRefines | src/nsae/z80emu/z80emu.c:2307-2387 | a whole fused loop, cut by any budget or by its own opcode, leaves exactly what that many single iterations leave: registers, flags, R, memory, devices, next address and cycles |
| Z80Emulator.RunWraps | src/nsae/z80emu/z80emu.c:2635-2641 | a run is the same from a state and from its reduced form |
| Z80Emulator.AfterUnbroken | src/nsae/z80emu/z80emu.c:2629-2633 | after a stretch of plain steps the rest of the run is the run from there |
| Z80Emulator.SafeBeyond | src/nsae/z80emu/z80emu.c:2629-2633 | a run free of traps to its end has no later step to go wrong |
| Z80Emulator.FusedSteps | src/nsae/z80emu/z80emu.c:590-805 | inside a run, a fused loop amounts to a positive number of its steps, the last ones exactly when the budget is then spent |
| Z80Emulator.Z80.constructor | src/nsae/z80emu/z80emu.c:264-273 | the machine starts in the given state |
| Z80Emulator.Z80.Reset | src/nsae/z80emu/z80emu.c:96-104 | power-on values of AF, SP, I, pc, the interrupt flip-flops and mode; every other register is kept |
| Z80Emulator.Z80.SkipPrefixes | src/nsae/z80emu/z80emu.c:2527-2591 | any number of DD and FD bytes is skipped, the last one decides the index register, four cycles and one R count each |
| Z80Emulator.Z80.FetchInstruction | src/nsae/z80emu/z80emu.c:2499-2602 | the opcode fetches with CB, ED, DD CB and FD CB yield the decoded instruction of the reference machine |
| Z80Emulator.Z80.RunBlock | src/nsae/z80emu/z80emu.c:621-805 | the in-place loop on int locals computes the fused loop that `FusedRefines` is about |
| Z80Emulator.Z80.Emulate | src/nsae/z80emu/z80emu.c:246-300 | after a call the machine is exactly where the reference machine is when the budget is used up, for every program, and the cycles returned are its cycles, rounded up by HALT |
| Slicing.RunSlices | src/nsae/z80emu/z80emu.c:246-258 | any sequence of budgets leaves the machine on the one trajectory at the sum of the steps, and returns the sum of the cycles reported |
| Slicing.SmallerBudget | src/nsae/z80emu/z80emu.c:2629-2633 | a smaller budget stops the same run, no later |
| Slicing.AfterSmaller | src/nsae/z80emu/z80emu.c:2629-2633 | when it stops earlier, the larger budget has at most the difference left there and goes on from there |
| Slicing.CutIsNeverBehind | src/nsae/z80emu/z80emu.c:246-300 | a budget cut into any slices takes the run at least as far as the budget in one piece, on the same trajectory: DI, EI and HALT only move the stop further along it |
| Slicing.Continued | src/nsae/z80emu/z80emu.c:2629-2633 | a run that its budget ends, continued with a further budget, is one run with a budget of both or more |
| Slicing.CutIsOneCall | src/nsae/z80emu/z80emu.c:246-300 | a run cut into slices stops where one call with a budget no smaller stops, unless a HALT ends a slice before the last |
| Slicing.ReportsBudget | src/nsae/z80emu/z80emu.c:1225-1231 | a call returns at least its budget, and exactly the cycles spent unless it ends in a HALT |
| Slicing.ReturnsTotal | src/nsae/z80emu/z80emu.c:2640 | however a budget is cut, the calls together return at least its cycles |
| Endings.LeftNeverRises | src/nsae/z80emu/z80emu.c:1235-1282 | no step raises what is left of the budget, and only an unprefixed DI or EI keeps it; that moves pc by one and leaves memory |
| Endings.InterruptFloodNeverFinishes | src/nsae/z80emu/z80emu.c:1257-1277 | memory that shows DI and EI only extends every positive budget for ever |
| Endings.FinishesIff | src/nsae/z80emu/z80emu.c:2622-2633 | a positive budget is used up if and only if the run does not come, before that, to memory showing DD and FD only, or DI and EI only |
| Endings.NothingLeft | src/nsae/z80emu/z80emu.c:2629-2633 | a budget of nothing ends after one step if and only if memory does not show DD and FD only |
| BlockMeaning.MovedMeaning | src/nsae/z80emu/z80emu.c:633-699 | byte i of the destination is byte Origin(k, i) of the source, k being the distance modulo 65536; nothing else changes |
| BlockMeaning.OriginIsModulo | src/nsae/z80emu/z80emu.c:633-699 | Origin(k, i) is i modulo k: the first k bytes repeat |
| BlockMeaning.LoadRun | src/nsae/z80emu/z80emu.c:621-708 | the registers, flags, memory and cycles after any number of LDIR or LDDR iterations, wrap-around included |
| BlockMeaning.LoadMeaning | src/nsae/z80emu/z80emu.c:621-708 | a whole LDIR or LDDR: the copied bytes, everything else kept, BC zero, DE and HL advanced, P/V clear, 21 BC - 5 cycles besides any prefixes |
| BlockMeaning.LoadIsMemmove | src/nsae/z80emu/z80emu.c:621-708 | it is a memmove when the destination is not ahead within the length |
| BlockMeaning.LoadReplicates | src/nsae/z80emu/z80emu.c:621-708 | with the destination k ahead the first k bytes of the source repeat with period k |
| BlockMeaning.LoadIsSafe | src/nsae/z80emu/z80emu.c:621-708 | such a copy meets no trap, so it may be cut at any of its iterations |
| BlockMeaning.SearchRun | src/nsae/z80emu/z80emu.c:741-805 | registers, flags and cycles after any number of CPIR or CPDR iterations without a match |
| BlockMeaning.SearchEnds | src/nsae/z80emu/z80emu.c:741-805 | there is a first match or the count runs out |
| BlockMeaning.SearchMeaning | src/nsae/z80emu/z80emu.c:741-805 | a whole CPIR or CPDR stops just past the first byte equal to A or after BC bytes; Z exactly if found, P/V exactly if BC is not zero, C and memory kept |
| BlockSlices.CopyInSlices | src/nsae/z80emu/z80emu.c:621-708 | the emulator itself, over any slices that together make the iterations: a whole LDIR or LDDR with the same bytes, registers and 21 BC - 5 cycles in all, besides any prefixes |
| BlockSlices.LoadSchedule | src/nsae/z80emu/z80emu.c:621-708 | every way of cutting such a copy is free of traps |
| BlockSlices.SearchIsSafe | src/nsae/z80emu/z80emu.c:741-805 | a search meets no trap before its end, except at its start with BC zero |
| BlockSlices.SearchSchedule | src/nsae/z80emu/z80emu.c:741-805 | every way of cutting such a search is free of traps |
| BlockSlices.SearchInSlices | src/nsae/z80emu/z80emu.c:741-805 | the emulator itself, over any slices: a whole CPIR or CPDR with the same stop, BC, flags, memory and cycles in all |
| PortMeaning.SendRun | src/nsae/z80emu/z80emu.c:2438-2495 | registers, flags, devices and cycles after any number of OTIR or OTDR iterations |
| PortMeaning.SendMeaning | src/nsae/z80emu/z80emu.c:2454-2493 | a whole OTIR or OTDR on a port that maps no page: the B bytes from HL on go to port C in order and nothing else reaches the devices; memory and C kept, B zero, HL past the bytes, Z set |
| PortMeaning.SendIsSafe | src/nsae/z80emu/z80emu.c:2438-2495 | such a transfer meets no trap |
| PortMeaning.FillRun | src/nsae/z80emu/z80emu.c:2307-2387 | registers, flags, memory, devices and cycles after any number of INIR or INDR iterations |
| PortMeaning.FillMeaning | src/nsae/z80emu/z80emu.c:2307-2387 | a whole INIR or INDR: byte i read from port C is at the i-th address from HL on, no other address changes; C kept, B zero, HL past the bytes, Z set |
| PortMeaning.FillIsSafe | src/nsae/z80emu/z80emu.c:2307-2387 | such a transfer meets no trap |
| FusedLimits.BlockRefines | src/nsae/z80emu/z80emu.c:590-805 | a block instruction whose opcode nothing else can change (no alias for LDIR and INIR; for OTIR no port that remaps a slot of the opcode), entered with a counter the code gets right, is at most 65536 reference iterations under any budget |
| FusedLimits.SearchFaithfulIff | src/nsae/z80emu/z80emu.c:741-805 | CPIR and CPDR are right if and only if not all of these hold: BC is zero, the budget lasts for more than 65535 iterations, and none of the first 65535 bytes matches |
| FusedLimits.LoadFaithfulIff | src/nsae/z80emu/z80emu.c:629-699 | LDIR and LDDR are right for all registers and budgets, BC zero included, if and only if no other address reaches the cells of their own opcode |
| FusedLimits.AliasBreaksLoad | src/nsae/z80emu/z80emu.c:629-699 | with such an alias, a two-byte copy and a long budget show the difference |
| FusedLimits.InputFaithfulIff | src/nsae/z80emu/z80emu.c:2307-2387 | INIR and INDR are right for all devices, budgets and registers with B not zero if and only if no other address reaches the cells of their own opcode |
| FusedLimits.AliasBreaksInput | src/nsae/z80emu/z80emu.c:2307-2387 | with such an alias, two bytes from a device that chooses them show the difference |
| FusedLimits.OutputFaithfulIff | src/nsae/z80emu/z80emu.c:2438-2495 | OTIR and OTDR with B not zero are right for all devices, budgets, memory contents and other registers if and only if their port does not remap a slot that holds a byte of their opcode |
| FusedLimits.RemapBreaksOutput | src/nsae/z80emu/z80emu.c:2438-2495 | OTIR that maps its own opcode away makes its second output all the same, where the reference machine does something else |
| FusedLimits.AmbushState | src/nsae/z80emu/z80emu.c:2438-2495 | for every port that remaps a slot of the opcode there are memory contents under the same page map that do so |
| FusedLimits.PortTableIndex | src/nsae/z80emu/z80emu.c:2307-2387 | INIR, INDR, OTIR and OTDR index the flag table inside its bounds if and only if B is not zero |
| FusedLimits.FixedStepIsNoTrap | src/nsae/z80emu/z80emu.c:590-805 | the check on one step that keeps `Emulate` on the reference trajectory |
| FusedLimits.DistinctPagesProtect | src/nsae/adv.c:535-544 | four different full pages leave no alias of any opcode |
| Stack.PopUndoesPushIff | src/nsae/z80emu/macros.h:146-156 | POP gives back every pushed word if and only if the two stack bytes are writable and different cells |
| Stack.PushAllHolds | src/nsae/z80emu/macros.h:146-150 | pushing any number of words onto distinct writable cells keeps all of them, SP modulo 65536 |
| Stack.PopAllReads | src/nsae/z80emu/macros.h:152-156 | n POPs return the n words from SP upward and move SP by 2n |
| Stack.StackIsLifo | src/nsae/z80emu/macros.h:146-156 | any number of pushed words come back in reverse order with SP and all other registers as before |
| Stack.ReturnsToCaller | src/nsae/z80emu/z80emu.c:2137-2185 | RET after CALL goes to just after the CALL if SP and the two bytes are as the CALL left them, which `Nesting.CallReturns` proves of balanced bodies |
| Nesting.NestingIsTransparent | src/nsae/z80emu/macros.h:146-156 | nested pushes and pops to any depth, with other work in between: every word comes back, SP is as before, registers, devices and all memory but the cells below SP within the depth are as the work alone leaves them |
| Nesting.BareKeeps | src/nsae/z80emu/macros.h:146-156 | without other work the registers and devices are as before, and so is that memory |
| Nesting.CallReturns | src/nsae/z80emu/z80emu.c:2137-2185 | a CALL, a balanced body with calls of its own, and RET: execution goes on just after the CALL with SP as before it |
| Calls.EndIsSteps | src/nsae/z80emu/z80emu.c:275-300 | a stretch of pushes, pops and other steps is that many steps of the machine |
| Calls.CallStep | src/nsae/z80emu/z80emu.c:2137-2149 | CALL pushes the address after its operand and jumps to the operand |
| Calls.RetStep | src/nsae/z80emu/z80emu.c:2180-2185 | RET goes to the word it pops and leaves memory |
| Calls.RstStep | src/nsae/z80emu/z80emu.c:2229-2236 | RST pushes the address after it |
| Calls.PushStep | src/nsae/z80emu/z80emu.c:537-543 | PUSH pushes its register, AF among them |
| Calls.PopStep | src/nsae/z80emu/z80emu.c:545-550 | POP loads the word it finds into its register |
| Calls.ProperRestores | src/nsae/z80emu/macros.h:146-156 | over any stretch of steps, nested to any depth, in which the steps other than pushes and pops leave SP, the stack bytes in use and the mapping of the stack: every pop finds its word, SP ends where it began and the bytes in use are as they were; port access, page mapping elsewhere and stores below SP are allowed |
| Calls.CallRunReturns | src/nsae/z80emu/z80emu.c:2137-2185 | from a CALL through any such stretch to a RET, the machine goes on just after the CALL with SP as before it |
| Crc8.CalcCrc8 | src/nsae/fdc.c:455-472 | the in-place loop computes the fold |
| Crc8.CrcIsSpread | src/nsae/fdc.c:455-472 | the checksum of any buffer is the xor of its bytes, each rotated left by its distance from the end |
| Crc8.CrcConcat | src/nsae/fdc.c:455-472 | the checksum of a concatenation from those of its parts |
| Crc8.CrcXor | src/nsae/fdc.c:455-472 | the checksum is linear over xor |
| Crc8.CrcParity | src/nsae/fdc.c:455-472 | the parity of the checksum is the parity of all bits |
| Crc8.OneByteDetected | src/nsae/fdc.c:455-472 | buffers of one length that differ in exactly one byte have different checksums |
| Crc8.OddErrorDetected | src/nsae/fdc.c:455-472 | buffers of one length that differ in an odd number of bits have different checksums |
| DiskLayout.OffsetInjective | src/nsae/fdc.c:428-444 | for any geometry, two places have one offset only if side, track, sector and byte agree |
| DiskLayout.OffsetInImage | src/nsae/fdc.c:428-444 | every place lies inside the image |
| DiskLayout.OffsetOnto | src/nsae/fdc.c:428-444 | every byte of the image is the byte of a place, which is computed |
| DiskLayout.FastNames | src/nsae/fdc.c:376-387 | the shift form holds the sector in bits 3-0, the side in bit 4 and the track modulo 4 in bits 7-6 |
| DiskLayout.Sync2Agree | src/nsae/fdc.c:350-387 | the shift form of sync 2 equals the rotated form for every track, sector and side |
| Floppy.Sync2Names | src/nsae/fdc.c:390-425 | sync 2 names track, sector and side of the place under the head |
| Floppy.Sync2IsNative | src/nsae/fdc.c:390-425 | it is the byte that the boot loader forms of them |
| Floppy.ControlSelects | src/nsae/fdc.c:153-175 | bits 1 and 6 of the control byte are the drive and the side from then on |
| FloppyRotation.MotorTurns | src/nsae/fdc.c:260-266 | the motor command makes the disk turn, and it goes on turning |
| Floppy.DoKeepsInv | src/nsae/fdc.c:153-317 | every guest operation and clock tick keeps index, preamble, sync and the hold counter within their bounds |
| Floppy.RunKeepsInv | src/nsae/fdc.c:474-610 | the same for every run |
| Floppy.RunConcat | src/nsae/fdc.c:474-610 | a run splits anywhere, in state and in the bytes read |
| Floppy.NumberedKept | src/nsae/fdc.c:306-330 | an operation that keeps the drive selected keeps the number shown right, and every sector mark makes it right |
| Floppy.NumberedRun | src/nsae/fdc.c:306-330 | over any run that keeps the drive selected the number shown names the sector before the one under the head, 15 coming before 0 |
| Floppy.InitHolds | src/nsae/fdc.c:19-31 | the bounds and the number shown are right at power on |
| Floppy.WriteStaysInSector | src/nsae/fdc.c:527-610 | a write changes an image only as the next data byte of a frame, and only at its place in the sector under the head |
| Floppy.ImagesKept | src/nsae/fdc.c:153-317 | no operation touches the drive that is not selected; only data writes touch an image |
| Floppy.StepsOnRisingEdge | src/nsae/fdc.c:153-175 | the head moves exactly when the pulse bit rises, on the drive selected before |
| Floppy.StepsOneWay | src/nsae/fdc.c:153-175 | any run that keeps the drive and the direction, with clock ticks and other accesses anywhere: as many steps as rising edges of the pulse bit, stopping at tracks 0 and 34, and an exact track-zero flag after any step |
| Floppy.StepsInward | src/nsae/fdc.c:276-303 | inward, m rising edges lead from track t to max(0, t - m), with the track-zero flag exact, for any such run |
| FloppyRotation.OneUpdate | src/nsae/fdc.c:212-235 | a tick moves the phase on by one and the sector on at the wrap, and keeps the disks |
| FloppyRotation.Rotation | src/nsae/fdc.c:212-235 | n ticks from any state that keeps the bounds, motor on: the clock has period 1027, the sector advances once a wrap modulo 10, the disks are kept |
| FloppyRotation.EverySectorComes | src/nsae/fdc.c:306-317 | every sector comes under the head within 10270 ticks |
| FloppyRotation.MotorOff | src/nsae/fdc.c:229-234 | with the motor off and time left to the next edge a tick does nothing |
| FloppySession.WriteProgress | src/nsae/fdc.c:527-610 | the controller in the middle of a write session, for any interleaving of bytes and ticks short of the next mark |
| FloppySession.WriteSession | src/nsae/fdc.c:527-610 | a whole frame lays its 512 bytes over the sector, ends the transfer and moves to the next sector |
| FloppySession.ReadProgress | src/nsae/fdc.c:474-525 | the bytes read so far and the controller in the middle of a read session |
| FloppySession.ReadSession | src/nsae/fdc.c:333-347 | a read session returns fb, a byte that names sector, side and track modulo 4, the 512 bytes and their checksum, and keeps both disks |
| FloppySession.SectorRoundTrip | src/nsae/fdc.c:474-610 | write a sector, let the disk turn round, read it back: fb, a byte that names sector, side and track modulo 4, the same 512 bytes and their checksum, and every other byte of both disks as before |
| FloppySession.WholeSession | src/nsae/fdc.c:474-610 | the round trip as one run of operations, its output being those 515 bytes |
| FloppyDevice.Fdc.Obey | src/nsae/adv.c:511-533 | one operation in place, with the byte it reads |
| FloppyDevice.Fdc.Serve | src/nsae/adv.c:511-533 | any run of operations in place, so that the run properties hold of the controller object |
| FloppyDevice.Fdc.constructor | src/nsae/fdc.c:19-31 | power-on state |
| FloppyDevice.Fdc.SetRead | src/nsae/fdc.c:237-247 | sets read mode and clears the transfer counters |
| FloppyDevice.Fdc.SetWrite | src/nsae/fdc.c:249-258 | sets write mode and clears the transfer counters |
| FloppyDevice.Fdc.StartMotor | src/nsae/fdc.c:260-266 | turns the motor on and nothing else |
| FloppyDevice.Fdc.NextSector | src/nsae/fdc.c:306-317 | shows the old sector, 15 for 9, and advances the selected drive modulo 10 |
| FloppyDevice.Fdc.MarkLow | src/nsae/fdc.c:178-194 | the leading edge of a mark as one state change |
| FloppyDevice.Fdc.MarkHigh | src/nsae/fdc.c:196-209 | the trailing edge of a mark |
| FloppyDevice.Fdc.Tick | src/nsae/fdc.c:212-235 | one call of the update, by hold counter, mark and motor |
| FloppyDevice.Fdc.StepHead | src/nsae/fdc.c:276-303 | steps the selected drive within 0..34 and sets the track-zero flag |
| FloppyDevice.Fdc.LoadDriveControl | src/nsae/fdc.c:153-175 | direction and side first, the step on the rising edge, the drive selection last |
| FloppyDevice.Fdc.GetSector | src/nsae/fdc.c:320-331 | with power, and a sector mark seen since the drive was selected, the sector under the head is the one after the number (15 comes before 0); without power the number is 14, which comes before no sector |
| FloppyDevice.Fdc.ReadSync1 | src/nsae/fdc.c:333-348 | returns fb and expects sync 2 next |
| FloppyDevice.Fdc.SectorCrc | src/nsae/fdc.c:446-472 | the checksum of the 512 bytes from an offset of the selected disk |
| FloppyDevice.Fdc.Read | src/nsae/fdc.c:474-525 | sync 2, data or checksum by the state of the transfer, in place |
| FloppyDevice.Fdc.Write | src/nsae/fdc.c:527-610 | preamble, sync, data and checksum bytes by the state of the transfer, in place |
| Keyboard.PushedQueue | src/nsae/kb.c:35-55 | a push appends, or with seven keys queued changes nothing in the queue |
| Keyboard.PoppedQueue | src/nsae/kb.c:57-78 | a pop drops the first key, if any |
| Keyboard.CommandQueue | src/nsae/adv.c:308-384 | a control-register write: bit 4 clear empties the queue, command 2 pops, all others keep it; the acknowledge bit flips every time |
| Keyboard.Answers | src/nsae/adv.c:308-357 | the low half of status register 2 after each command: the sector as the disk turns, halves of the key, the mask as it was, nothing |
| Keyboard.AnswersOfLocks | src/nsae/adv.c:347-378 | the switch just turned: cursor lock, non-maskable interrupt by 6 and then 7, capitals lock by 7 alone |
| Keyboard.HappenKeeps | src/nsae/adv.c:308-384 | every key press and every step of the guest driver keeps the handshake invariant |
| Keyboard.RunKeeps | src/nsae/adv.c:480-508 | so does every run |
| Keyboard.Handshake | src/nsae/kb.c:24-112 | for any interleaving from power on, the bytes assembled and the queue are the accepted keys in order; data flag exactly if the queue is not empty; overflow exactly if a key met a full queue since the last reset; acknowledge is the parity of the commands |
| Keyboard.StatusShows | src/nsae/adv.c:147-163 | what the guest reads after any run from power on: the data flag exactly if the queue is not empty and an even number of commands 3 was issued; overflow masked likewise; the acknowledge bit |
| Keyboard.KeyFetched | src/nsae/adv.c:326-334 | a driver that takes its turns with the mask on, keys being pressed at any time, comes to be idle with exactly the key it was owed |
| Keyboard.DriverProgress | src/nsae/adv.c:147-179 | from power on, a nonempty queue and an idle driver: looking, asking and reading both halves gives the first key of the queue |
| Keyboard.KeyboardDevice.constructor | src/nsae/kb.c:14-22 | an empty queue and clear flags |
| Keyboard.KeyboardDevice.Reset | src/nsae/kb.c:24-33 | empties the queue and clears flags and locks; the bytes in the buffer stay |
| Keyboard.KeyboardDevice.Push | src/nsae/kb.c:35-55 | appends in the buffer or sets overflow |
| Keyboard.KeyboardDevice.Pop | src/nsae/kb.c:57-78 | returns the first byte, stale or not, and moves the rest down |
| Keyboard.KeyboardDevice.GetLsb | src/nsae/kb.c:80-95 | the low half of the first byte, the queue kept |
| Keyboard.KeyboardDevice.GetMsb | src/nsae/kb.c:97-112 | the high half of the first byte, which is popped |
| Keyboard.ControlPort.constructor | src/nsae/adv.c:66-80 | power-on state of the ports |
| Keyboard.ControlPort.Obey | src/nsae/adv.c:308-378 | one command, in place |
| Keyboard.ControlPort.Write | src/nsae/adv.c:480-508 | reset on bit 4 clear, then the command, then the register and the acknowledge bit |
| Keyboard.ControlPort.Read | src/nsae/adv.c:147-179 | status register 2, its low half following the disk after the show-sector commands |
| Keyboard.ControlPort.Serve | src/nsae/adv.c:308-384 | one key or one access of the driver, in place |
| Keyboard.ControlPort.ServeAll | src/nsae/adv.c:480-508 | any interleaving from power on and then a look at the status, in place: an idle driver has assembled the accepted keys but for those queued, and the status shows queued keys and overflow exactly while the mask is on |
| Timeline.DArray.constructor | src/darray/darray.c:11-42 | an empty array |
| Timeline.DArray.Resize | src/darray/darray.c:11-42 | keeps the elements and makes the allocation larger than the new count |
| Timeline.DArray.PopFront | src/darray/darray.c:44-68 | drops the first n elements, or all |
| Timeline.DArray.Insert | src/darray/darray.c:71-93 | sequence insertion of a gap, the one-too-long move staying inside the allocation |
| Timeline.Difference | src/nsae/speaker.c:71-90 | the borrow loop ends, keeps the total time and, for times within a frame, has a negative frame exactly when the first time is earlier |
| Timeline.OrdersAgree | src/nsae/speaker.c:92-103 | the comparison of frames, then cycles, is the order of the timeline |
| Timeline.Speaker.constructor | src/nsae/speaker.c:125-134 | an empty timeline |
| Timeline.Speaker.Place | src/nsae/speaker.c:252-261 | the backward search stops right after the last earlier event |
| Timeline.Speaker.Put | src/nsae/speaker.c:263-267 | the new event stands between the two halves |
| Timeline.Speaker.Toggle | src/nsae/speaker.c:236-271 | drops exactly the events played, adds exactly the new one in its place, keeps a sorted timeline sorted; without a stream nothing changes |
| Timeline.InsertSorted | src/nsae/speaker.c:252-267 | an event put in its place leaves the timeline sorted |
| Timeline.SlotUnique | src/nsae/speaker.c:252-261 | that place is unique |
| Escape.DecodesIffSpelled | src/nsaectl/nsaectl.c:455-533 | a text decodes to v if and only if it is spelled by escape tokens of those values, each number taking all its digits; it is malformed if and only if no tokens spell it |
| Escape.DecodePhrase | src/nsaectl/nsaectl.c:455-533 | every spelling decodes to the values of its tokens, numbers of any length modulo 256 |
| Escape.Parse | src/nsaectl/nsaectl.c:455-533 | the tokens of a text that decodes |
| Escape.DecodeUndoesPrinting | src/nsaectl/nsaectl.c:477-511 | decoding undoes printing every byte as a backslash, an x and two hexadecimal digits |
| Escape.LettersStandFor | src/nsaectl/nsaectl.c:463-475 | the codes of the eleven one-letter escapes |
| Escape.DigitsStandFor | src/nsaectl/nsaectl.c:477-529 | the values of hexadecimal digits of either case and of octal digits |
| Escape.StrLen | src/nsaectl/nsaectl.c:448-449 | the number of bytes before the terminator |
| Escape.Numeric | src/nsaectl/nsaectl.c:477-531 | one numeric escape in place: all its digits, modulo 256, or malformed without any |
| Escape.DerefString | src/nsaectl/nsaectl.c:437-538 | for every terminated text the buffer of length + 1 holds the decoded bytes and a terminator, or null is returned exactly for malformed text; nothing past the terminator is read |

## Left out

- Z80Emulator.Z80.Emulate: assumes that the run ends and meets no `Trap`. `Endings.FinishesIff` says exactly which runs end, and `FusedLimits` when there is a trap; where a run goes after one is not stated, and what the C program does with a negative table index is not modelled.
- Nesting.NestingIsTransparent: the work in between does not map pages; `Calls.ProperRestores` allows it.
- Nesting.CallReturns: the same; `Calls.CallRunReturns` is the statement over steps of the machine.
- Z80Emulator.Z80.RunBlock: one loop for the four kinds of repeating instruction, which the source writes out four times.
- Opcodes.StepAt: rotates and bit operations on memory and on indexed operands, RLD and RRD, LD with I and R, IM and RETN have no statement from their opcode bytes, only the function that the emulator is proved to follow.
- The in-place form of the single instructions: each is a function from registers, memory and devices to new ones, and only the fetch and the repeating instructions are loops on locals. Aliasing of the register table with the register file is therefore not captured.
- Mmu.Mmu.DecodeAddress: the page mask is a remainder by mask + 1, which is the same for masks of the form 2^k - 1, the only ones the machine sets.
- Timeline.Difference: real arithmetic; rounding of `float` cycles is not modelled.
- Timeline.DArray.Resize: allocation always succeeds, and sizes do not overflow.
- Timeline.DArray.PopFront: the copy is a simultaneous move, although the source calls `memcpy` on areas that may overlap.
- Keyboard.KeyboardDevice.Pop: the same for the shift of the buffer.
- FloppyDevice.Fdc.Read: the byte fetched before the index check, and thrown away when the index is at its end, is not fetched here.
- FloppyDevice.Fdc.constructor: both disks are loaded from the start; waiting for a disk, ejecting, saving and the write-protect and precompensation fields are not modelled.
- Escape.Numeric: the source has its loop twice, for bases 16 and 8.
- `number_cycles` and `elapsed_cycles` are unbounded; their 64-bit overflow, and the truncation of the returned count to an `int`, are not modelled. Loop counters and pc as `int` do not overflow within one call of fewer than 2^31 steps.
- Breakpoints, watchpoints, the pause flag and the `status` field: none set, so no call stops for them.
- `Z80Interrupt` and `Z80NonMaskableInterrupt`: nothing calls them.
- The port decoding of `adv_in` and `adv_out` except the page registers and the control and status registers: the CPU sees an arbitrary device state, and the controller a sequence of operations.
- The copy of the cycle counter made for the devices on output, and the clock tick that reading a status register causes: ticks are operations of their own.
- The flag and opcode tables as data: the model computes their entries.
- Serial board, display, window, audio output, timers, sockets, logging, debugger and the loading and saving of files.
