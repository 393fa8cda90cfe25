# NCP-8, verified

NCP-8 is an eight-bit machine whose behaviour is written down more than once: a sequential
reference machine, a circuit of masked tensor operations that evaluates every instruction in
parallel, and a batched kernel that runs many machines as rows of flat buffers. Around them
stand bank groups (machines that reach each other's DATA pages), state records and a debugger,
an assembler with its disassembler, a linking loader and a symbol-table file format.

This project models that code in Dafny and proves that the paths agree and that the promises
made around them hold.

How it is laid out:

- `Bits`, `Isa`: bit operations on integers and words, with the law of each; the decode tables, the
  cause table and what makes a configuration legal.
- `Reference`: the machine as a function on values - `Fetch`, `Exec`, `Step`, `Tick`,
  `RunToStop`. It is the specification the objects and circuits below are proved against, and
  the lemmas of `Sites`, `Invariants`, `Control`, `Locality` and `LongAdd` are about it.
- `Arithmetic`: what the arithmetic instructions compute, in signed integers and bits.
- `Machine`: the reference machine as the object it is, mutated in place, with rollback.
- `Sites`: the fault sites and their precedence. `Invariants`, `Control`: what every tick and
  every nested run keeps. `Locality`, `Banks`, `Groups`: machines over a set of pages;
  `Accesses`, `Orders`: a bank access cell by cell, and when the order of the members matters.
- `Tensor`: the tensor circuit. `Decode`, `Kernel`, `Batches`, `Cuts`: the batched kernel, its
  launches and its cut into groups.
- `Records`, `Debugger`: checkpoints, and the debugger's two pages.
- `Forms`, `Assembler`, `Encodings`, `Sources`, `Expressions`, `Linker`, `SymbolText`: text to image
  and back. `Effects`: what a written line does to the machine. `Precedence`: what an expression is
  worth, by named operators. `Images`: what a finished load holds, and when there is one.
- `LongAdd`, `Programs`: the long addition, from its source text to a theorem about integers.

Checking the whole project: `dafny verify dfyconfig.toml`, or with the limits it is kept under,
`dafny verify --resource-limit 2000000 --verification-time-limit 0 *.dfy`.

Main results, in the order of the table: the machine's in-place step is the atomic value step;
fault precedence; the tensor circuit refines the reference, per tick and per run; the kernel's
shadow tick refines it, row by row and group by group, up to a whole batch run; a group tick
does not depend on the order of the members exactly when the group is in harmony, and protected
or running pages stay; every state of every run stays in bounds; traps and calls come back; a
run may be cut by a record; the debugged run is the plain run exactly while no bank access tells
its two pages apart; long addition adds; every written line, assembled, fetched and executed,
does what its operands name; a finished load holds the value of every line at its address;
assembly and disassembly, printing and parsing, exporting and reading are inverse, over written
lines as well; linking is placing by hand.

Places where the code does not do what a reader may expect are stated with an input, and with the
exact condition under which it does:

- a group tick is said not to depend on the order the members are stepped in; it does when two
  members store different bytes at one cell of a third member's quiescent page, or one changes a
  cell there that the other loads (`Orders.OrderExact`, `Orders.OrdersDiffer`);
- a trap depth past its limit is compared for equality only and leaves its width
  (`Records.NextStateLegal`, `Records.DepthPastLimitEscapes`);
- a record whose PC stands behind a full image publishes and installs but cannot be resumed
  (`Records.DebuggerResumesInsideCode`, `Records.DebuggerRefusesFallThrough`);
- a debugged machine reads and writes another page through selector 0 than through HL and DE
  (`Debugger.SplitTickFollows`, `Debugger.ResumedRunParts`);
- a line the forms accept may still be refused, and a name nothing defines may still assemble
  (`Sources.TextIsItems`, `Sources.SecondSignRefused`, `Sources.HiddenNumberAssembles`).

## Model

| member | source | states |
|---|---|---|
| `Machine.NCP8.constructor` | golden_sim.py:88-171 | A legal load boots at its entry with zeroed registers, SP at the end of DATA, the image padded with zeros and the initial data under the seeded vector page; the machine is alone on its own page. |
| `Machine.SeedBytes` | isa_table.py:390-397 | The vector page holds every vector, low byte first, at twice its index. |
| `Machine.BootVectors` | golden_sim.py:769-773 | For every legal block, with a declared table or without, the vector EXT reads of a booted machine is the block's, for all sixteen. |
| `Machine.TableTraps` | golden_sim.py:769-803 | While the table holds the vectors, an EXT goes as it would without a table, on any page and in any state. |
| `Machine.BootTraps` | isa_table.py:390-397 | A machine booted with the table takes its first EXT as one booted without it: the same state, and the same page off the table. |
| `Machine.NCP8.InstallBanks` | golden_sim.py:289-318 | A bank set is taken exactly when its count, the own page at the own index and the lengths of the lists fit, and then whole; a refusal changes nothing. |
| `Machine.NCP8.BankPage` | golden_sim.py:320-332 | A selector is refused as out of range, refused as busy, or names a page; the verdict is the one of the value model. |
| `Machine.NCP8.BankRegion` | golden_sim.py:383-392 | A bank store is checked against the regions of the owner of the page it lands in. |
| `Machine.NCP8.RegionHit` | golden_sim.py:356-361 | True exactly when some declared region covers the address. |
| `Machine.NCP8.StackRegion` | golden_sim.py:378-381 | Refuses exactly when one of the `n` cells under the stack pointer is protected. |
| `Machine.NCP8.StackRoom` | golden_sim.py:426-429 | Refuses exactly when `n` cells would pass SPLIM or the end of DATA. |
| `Machine.NCP8.StackHave` | golden_sim.py:431-434 | Refuses exactly when fewer than `n` cells are left above the stack pointer. |
| `Machine.NCP8.PcTarget` | golden_sim.py:406-413 | Refuses exactly the targets outside the image. |
| `Machine.NCP8.Emit` | golden_sim.py:436-440 | One byte more on the output, or OUT_CAP on a full one with nothing changed. |
| `Machine.NCP8.Take` | golden_sim.py:399-404 | The next `n` bytes with PC moved behind them, or FETCH_OOB with PC where it was. |
| `Machine.NCP8.FetchRow` | golden_sim.py:485-500 | Fetch and decode in place: the row and the operand bytes, or the refusal of the value model. |
| `Machine.NCP8.ExecArith` | golden_sim.py:567-596 | The eight additive operations in place: register, carry, zero, sign and overflow end where the value model says. |
| `Machine.NCP8.ExecLogic` | golden_sim.py:599-617 | Bitwise operations, products, quotients and remainders in place; a zero divisor raises and changes nothing. |
| `Machine.NCP8.ExecUnary` | golden_sim.py:624-637 | Negation, rotations, shifts and TST in place. |
| `Machine.NCP8.ExecPointer` | golden_sim.py:638-712 | Pointer loads, sums and moves in place; a stack pointer outside DATA raises and changes nothing. |
| `Machine.NCP8.ExecBranch` | golden_sim.py:519-558 | Jumps in place; a taken target outside the image raises and changes nothing. |
| `Machine.NCP8.ExecStack` | golden_sim.py:654-669 | Calls, returns, pushes and pops in place, on the page itself; every refusal leaves registers and pages as they were. |
| `Machine.NCP8.ExecMemory` | golden_sim.py:670-730 | Byte and word loads and stores, LDX/STX, LDC and STC in place, with every check before the first write. |
| `Machine.NCP8.ExecStream` | golden_sim.py:508-513 | OUT, OUTM, OUTDE and IN in place. |
| `Machine.NCP8.ExecBank` | golden_sim.py:734-764 | LDM, STM, LDMW and STMW on the selected page, in place. |
| `Machine.NCP8.EnterTrap` | golden_sim.py:769-803 | EXT in place: its checks in their order, then the four-byte frame, the target and the depth. |
| `Machine.NCP8.LeaveTrap` | golden_sim.py:804-832 | TRAPRET in place: depth, room, tag and target checked before PC, flags, depth and stack pointer are restored. |
| `Machine.NCP8.Execute` | golden_sim.py:501-908 | The dispatch over all selectors ends where the value model does; a raise has changed nothing but PC. |
| `Machine.NCP8.StepInner` | golden_sim.py:476-908 | A stopped machine and a spent budget first, then fetch and dispatch; on a raise everything but PC stands as it did. |
| `Machine.NCP8.Refuse` | golden_sim.py:455-474 | What a fault leaves: PC restored, status, cause and address written, nothing else. |
| `Machine.NCP8.Step` | golden_sim.py:455-474 | One tick in place, over the machine and all its pages, is the tick of the value model: atomic on every path, raised exactly when it stops the machine in error. |
| `Machine.NCP8.Run` | golden_sim.py:910-913 | Stepping ends, with a stopped machine, where the value model's run to its stop ends. |
| `Bits.WordIsShiftOr` | golden_sim.py:423-424 | Two bytes joined with a shift and an or are the word the model calls `Word`. |
| `Bits.SignExtensionsAgree` | circuit_torch.py:254 | Sign extension by comparing and by subtracting the top bit is the same number for every byte. |
| `Bits.MaskIsRemainder` | circuit_triton.py:1151-1163 | Masking an address with a power of two less one is the remainder. |
| `Bits.OrDisjoint` | golden_sim.py:687-689 | An or of bits that do not meet is a sum. |
| `Bits.AndBits` | golden_sim.py:599-601 | For all numbers and every place: a bit of an and is set exactly when both operands have it. |
| `Bits.OrBits` | golden_sim.py:602-604 | A bit of an or is set exactly when either operand has it. |
| `Bits.XorBits` | golden_sim.py:605-607 | A bit of an exclusive or is set exactly when one operand has it. |
| `Bits.BitsDetermine` | golden_sim.py:599-607 | Numbers with the same bits are the same number, so the three laws leave one operator each. |
| `Arithmetic.AddOverflows` | golden_sim.py:54-56 | The overflow of a sum is up exactly when the signed sum, carry included, leaves -128..127. |
| `Arithmetic.SubOverflows` | golden_sim.py:58-60 | The same for a signed difference and its borrow. |
| `Arithmetic.SumMeans` | golden_sim.py:567-596 | ADD, ADC, ADDI and ADCI in integers: carry and register together are the sum; Z, S and V mean zero, negative and signed overflow; nothing else changes. |
| `Arithmetic.DifferenceMeans` | golden_sim.py:567-596 | SUB, SBB and SUBI in integers: register less borrow is the difference, and the flags likewise. |
| `Arithmetic.CompareMeans` | golden_sim.py:618-623 | CMP writes flags alone: Z is equality, C the unsigned order, S against V the signed order. |
| `Arithmetic.LogicMeans` | golden_sim.py:599-607 | AND, OR and XOR bit by bit: the register's bit is the operands' bits joined; Z describes it; C, S and V stay. |
| `Arithmetic.ProductMeans` | golden_sim.py:608-611 | MUL and MULH of the same registers are the two bytes of the product, and MUL's carry says that the upper one is not zero. |
| `Arithmetic.ProductAdds` | golden_sim.py:608-611 | The product is repeated addition. |
| `Arithmetic.QuotientMeans` | golden_sim.py:612-617 | DIV and MOD recover the dividend with a remainder below the divisor; a zero divisor faults both. |
| `Arithmetic.RotationMeans` | golden_sim.py:632-637 | ROL and ROR move the nine bits of register and carry by one place and lose none. |
| `Arithmetic.ShiftMeans` | golden_sim.py:864-869 | SHL and SHR lose one bit, into the carry. |
| `Arithmetic.NegationMeans` | golden_sim.py:624-631 | NEG adds up to zero with what it negates, NOT to all ones; TST only looks. |
| `Arithmetic.MoveMeans` | golden_sim.py:559-598 | The moves leave every flag; GETF packs the four with their weights. |
| `Reference.FlagsByteIsSum` | isa_table.py:703-709 | The packed flags byte is the weighted sum of the four flags. |
| `Reference.StackCoveredCells` | golden_sim.py:378-381 | The stack check is the disjunction over the pushed cells. |
| `Reference.AluAnswer` | golden_sim.py:567-637 | Only a division by zero faults in the arithmetic group; otherwise the unit's answer is applied. |
| `Reference.StepFramed` | golden_sim.py:476-908 | A committed step keeps the shape of the pages and touches no field a step may not touch. |
| `Reference.TickCases` | golden_sim.py:455-492 | The four ways a tick goes, each with its whole new state; a raised cause is never OK. |
| `Reference.TickSpendsFuel` | golden_sim.py:910-913 | A running machine's tick advances the counter by exactly one or stops the machine, so every run ends. |
| `Reference.StoppedTick` | golden_sim.py:478-479 | A stopped machine does not move, over a tick and over a run. |
| `Sites.FetchRanked` | golden_sim.py:485-500 | The fetch checks raise the first fetch site of the order. |
| `Sites.FaultPrecedence` | isa_table.py:239-260 | For every state, configuration and bank set: the sequential checks of the reference raise exactly the cause of the first site, in the declared order, whose condition holds at tick entry, and commit exactly when none holds. |
| `Sites.FirstInOrder` | isa_table.py:239-260 | The same against the order as a list: the raised cause belongs to a firing site with no firing site before it. |
| `Sites.OrderIsComplete` | isa_table.py:239-262 | Every site has its place in the order. |
| `Sites.FirstCauseIsFirstUp` | circuit_torch.py:35-49 | The first site that fires is the first signal that is up in the vector of all twenty. |
| `Tensor.EncoderPicksFirst` | circuit_torch.py:46-49 | Counting the signals before each one and summing masked codes names the first raised signal, for vectors of any length. |
| `Tensor.CauseIsFirst` | circuit_torch.py:35-49 | The encoder over the twenty signals answers the code of the first one up, 0 when all are down. |
| `Tensor.OneHotTotal` | circuit_torch.py:219-224 | A one-hot selection over a table is the table's entry. |
| `Tensor.RotatedRight` | circuit_torch.py:294 | The rotated byte needs no mask. |
| `Tensor.AluAnswers` | circuit_torch.py:260-296 | The parallel arithmetic wires answer what the reference's unit answers, for every operand and flag. |
| `Tensor.AluMatches` | circuit_torch.py:328-444 | Register, carry, zero, sign and overflow rows of the arithmetic group are the reference's commit. |
| `Tensor.PointerMatches` | circuit_torch.py:355-392 | The HL, DE, MB and SP rows are the reference's pointer moves. |
| `Tensor.BranchMatches` | circuit_torch.py:446-468 | The PC rows are the reference's jumps. |
| `Tensor.StackMatches` | circuit_torch.py:381-387 | The rows and store ports of calls, returns, pushes and pops are the reference's. |
| `Tensor.MemoryMatches` | circuit_torch.py:526-546 | The rows and store ports of loads and stores are the reference's. |
| `Tensor.StreamMatches` | circuit_torch.py:475-481 | The rows of input and output are the reference's. |
| `Tensor.BankMatches` | circuit_torch.py:321-325 | With one page held, the rows of the bank group are the reference's. |
| `Tensor.TrapMatches` | circuit_torch.py:548-551 | The four store ports of the frame, the vector and the restored flags are the reference's EXT and TRAPRET. |
| `Tensor.ExecMatches` | circuit_torch.py:328-551 | Every family at once: the selected rows are the reference's commit. |
| `Tensor.PcAgrees` | circuit_torch.py:562-575 | The program-counter signal is up exactly when the instruction would leave the image. |
| `Tensor.PaddingHitsNothing` | circuit_torch.py:553-557 | Padding the region table with empty spans protects nothing more. |
| `Tensor.RegionAgrees` | circuit_torch.py:553-557 | The region signal is up exactly when a store port hits a protected cell, with the machine's own page selected. |
| `Tensor.SummedIsFired` | circuit_torch.py:581-605 | Each signal summed over the one-hot rows, the region signal from the summed ports, is the selected row's signal, all twenty at once. |
| `Tensor.FiredFirst` | circuit_torch.py:581-605 | The first of the twenty signals, all computed before anything is decided, is the first site of the sequential order. |
| `Tensor.TorchCircuit.constructor` | circuit_torch.py:75-186 | A circuit load represents the state the reference boots in. |
| `Tensor.TorchCircuit.PassAgrees` | circuit_torch.py:196-612 | One pass over the rows: the cause the encoder names is the cause the reference raises, and when it names none the selected rows are the reference's commit. |
| `Tensor.TorchCircuit.WritePorts` | circuit_torch.py:617-645 | The four masked stores put the commit into DATA, or leave it. |
| `Tensor.TorchCircuit.WriteStreams` | circuit_torch.py:647-660 | The masked CODE store with its log and the masked output append. |
| `Tensor.TorchCircuit.WriteStatus` | circuit_torch.py:662-671 | Status and the fault fields after a commit, a fault, an overrun and a stopped tick. |
| `Tensor.TorchCircuit.WriteScalars` | circuit_torch.py:673-685 | The masked registers, flags and pointers. |
| `Tensor.TorchCircuit.Step` | circuit_torch.py:196-685 | One tick of the tensor circuit, computed in parallel and masked at the end, represents the reference's tick for every legal state and configuration - commits, faults, overruns and stopped ticks alike. |
| `Tensor.TorchCircuit.Run` | circuit_torch.py:801-804 | A whole run of the circuit ends where the reference's run ends. |
| `Decode.DecFirstAgrees` | circuit_triton.py:148-180 | The kernel's range decode of a first byte is the decode table, for all code points but the prefix. |
| `Decode.DecEscAgrees` | circuit_triton.py:337-373 | The kernel's range decode of a subcode is the decode table, for all 256. |
| `Kernel.CfgRowPairs` | circuit_triton.py:100-109 | The configuration row ends with the padded regions. |
| `Kernel.SelectorStaysInGroup` | circuit_triton.py:1193 | A selector below HELD names a row of the same group: no group reaches into another, the ragged last one included. |
| `Kernel.RefusalIsVerdict` | circuit_triton.py:390-398 | The kernel's bank refusal is the reference's verdict. |
| `Kernel.BankPage` | circuit_triton.py:806-808 | The page offset computed from the own row lands on the selected member's page. |
| `Kernel.BankRegions` | circuit_triton.py:1120-1125 | With stores pending on the selected page, the region check reads the configuration row of that page's owner. |
| `Kernel.VectorAgrees` | circuit_triton.py:883-900 | The vector read through the DATA table or the configuration row is the reference's. |
| `Kernel.CountBranch` | circuit_triton.py:485-496 | The shadow of HALT, NOP, INC, DEC, CLC: what commits, or the cause named, is the reference's. |
| `Kernel.EmitBranch` | circuit_triton.py:497-508 | The shadow of OUTM, OUTDE: what commits, or the cause named, is the reference's. |
| `Kernel.ReturnBranch` | circuit_triton.py:509-516 | The shadow of RET: what commits, or the cause named, is the reference's. |
| `Kernel.JumpBranch` | circuit_triton.py:517-537 | The shadow of the absolute jumps: what commits, or the cause named, is the reference's. |
| `Kernel.CallBranch` | circuit_triton.py:538-553 | The shadow of CALL: what commits, or the cause named, is the reference's. |
| `Kernel.LoadWordBranch` | circuit_triton.py:554-564 | The shadow of LDI HL/DE: what commits, or the cause named, is the reference's. |
| `Kernel.IndexBranch` | circuit_triton.py:565-575 | The shadow of ADDI HL/DE: what commits, or the cause named, is the reference's. |
| `Kernel.JumpHlBranch` | circuit_triton.py:576-578 | The shadow of JPHL: what commits, or the cause named, is the reference's. |
| `Kernel.SelfBranch` | circuit_triton.py:579-590 | The shadow of GETPC, GETSP, GETF: register and flags are the reference unit's answer. |
| `Kernel.LogicBranch` | circuit_triton.py:591-611 | The shadow of AND, OR, XOR, MUL: register and flags are the reference unit's answer. |
| `Kernel.ArithBranch` | circuit_triton.py:612-637 | The shadow of ADD to MOV: register and flags are the reference unit's answer. |
| `Kernel.ImmediateBranch` | circuit_triton.py:638-658 | The shadow of the immediate group: register and flags are the reference unit's answer. |
| `Kernel.ShiftBranch` | circuit_triton.py:659-670 | The shadow of SHL, SHR, TST: register and flags are the reference unit's answer. |
| `Kernel.DjnzBranch` | circuit_triton.py:671-681 | The shadow of DJNZ: what commits, or the cause named, is the reference's. |
| `Kernel.LoadBranch` | circuit_triton.py:682-703 | The shadow of MOV r, [HL] and [DE]: what commits, or the cause named, is the reference's. |
| `Kernel.StoreBranch` | circuit_triton.py:704-709 | The shadow of MOV [HL], r and [DE], r: what commits, or the cause named, is the reference's. |
| `Kernel.PushBranch` | circuit_triton.py:710-716 | The shadow of PUSH: what commits, or the cause named, is the reference's. |
| `Kernel.PopBranch` | circuit_triton.py:717-722 | The shadow of POP: what commits, or the cause named, is the reference's. |
| `Kernel.PortBranch` | circuit_triton.py:723-730 | The shadow of OUT, IN: what commits, or the cause named, is the reference's. |
| `Kernel.DivideBranch` | circuit_triton.py:733-746 | The shadow of DIV, MOD: what commits, or the cause named, is the reference's. |
| `Kernel.CompareBranch` | circuit_triton.py:747-754 | The shadow of CMP: register and flags are the reference unit's answer. |
| `Kernel.UnaryBranch` | circuit_triton.py:755-781 | The shadow of NOT, NEG, ROL, ROR: register and flags are the reference unit's answer. |
| `Kernel.PairBranch` | circuit_triton.py:782-795 | The shadow of the pair operations: what commits, or the cause named, is the reference's. |
| `Kernel.BankByteBranch` | circuit_triton.py:796-814 | The shadow of LDM, STM: what commits, or the cause named, is the reference's. |
| `Kernel.BankLoadBranch` | circuit_triton.py:815-838 | The shadow of LDMW: what commits, or the cause named, is the reference's. |
| `Kernel.BankStoreBranch` | circuit_triton.py:839-862 | The shadow of STMW: what commits, or the cause named, is the reference's. |
| `Kernel.RelativeBranch` | circuit_triton.py:863-882 | The shadow of JS, JNS, VS, VC: what commits, or the cause named, is the reference's. |
| `Kernel.ExtBranch` | circuit_triton.py:883-924 | The shadow of EXT: what commits, or the cause named, is the reference's. |
| `Kernel.TrapReturnBranch` | circuit_triton.py:925-951 | The shadow of TRAPRET: what commits, or the cause named, is the reference's. |
| `Kernel.CallHlBranch` | circuit_triton.py:952-965 | The shadow of CALL HL: what commits, or the cause named, is the reference's. |
| `Kernel.CodeBranch` | circuit_triton.py:966-989 | The shadow of STC, LDC: what commits, or the cause named, is the reference's. |
| `Kernel.MovePointerBranch` | circuit_triton.py:990-1010 | The shadow of MOVW: what commits, or the cause named, is the reference's. |
| `Kernel.PushWordBranch` | circuit_triton.py:1011-1023 | The shadow of PUSHW: what commits, or the cause named, is the reference's. |
| `Kernel.PopWordBranch` | circuit_triton.py:1024-1034 | The shadow of POPW: what commits, or the cause named, is the reference's. |
| `Kernel.StoreWordBranch` | circuit_triton.py:1035-1048 | The shadow of STW: what commits, or the cause named, is the reference's. |
| `Kernel.LoadPairBranch` | circuit_triton.py:1049-1063 | The shadow of LDW: what commits, or the cause named, is the reference's. |
| `Kernel.FrameBranch` | circuit_triton.py:1064-1076 | The shadow of LDX, STX: what commits, or the cause named, is the reference's. |
| `Kernel.AddSpBranch` | circuit_triton.py:1077-1086 | The shadow of ADD SP: what commits, or the cause named, is the reference's. |
| `Kernel.HighProductBranch` | circuit_triton.py:1087-1092 | The shadow of MULH: register and flags are the reference unit's answer. |
| `Kernel.Compute` | circuit_triton.py:416-1125 | The whole shadow of one tick, from the fetch to the late checks: what would commit, or the cause that withholds it, is what the reference decides for every legal state, bank set and configuration. |
| `Batches.Batch.LoadRow` | circuit_triton.py:416-467 | A state row loads as the machine it stands for. |
| `Batches.Batch.StoreRow` | circuit_triton.py:1139-1150 | A clean tick's state row is the committed machine's. |
| `Batches.Batch.StoreStreams` | circuit_triton.py:1151-1163 | The pending output and CODE bytes land where they belong, masked addresses included. |
| `Batches.Batch.StorePages` | circuit_triton.py:1154-1163 | The pending DATA stores, in the order they are issued, are the commit on the group's pages. |
| `Batches.Batch.TickRow` | circuit_triton.py:1126-1167 | A stopped row stores nothing, a spent budget the status, a cause the three fault fields, and only a clean tick commits. |
| `Batches.Batch.Tick` | circuit_triton.py:416-1167 | One row's tick over the flat buffers of the whole batch is the reference's tick of its machine over its group's pages; no other row's state, CODE or output moves. |
| `Batches.Batch.Resident` | circuit_triton.py:1194-1200 | The resident loop is as many ticks of the row, all against the copied statuses, ending stopped or at the step limit. |
| `Batches.Batch.CopyStatuses` | circuit_triton.py:1413-1415 | The statuses handed to a launch are the rows' statuses at that moment. |
| `Batches.Batch.Launch` | circuit_triton.py:1412-1421 | A one-tick launch over any number of rows and groups, its programs in any order: each group in harmony ends at its own group tick, the last, shorter group included. |
| `Batches.Batch.Run` | circuit_triton.py:1398-1405 | The whole run, one-tick launches until no row runs (or one launch to the end without groups): every row has stopped, and every group in harmony at every boundary stands where its own run ends. |
| `Batches.Batch.AnyRow` | circuit_triton.py:1401 | The loop goes on exactly while some row runs. |
| `Cuts.GroupsApart` | circuit_triton.py:1193 | Two rows share a group or their groups do not meet. |
| `Cuts.CutOfSteps` | circuit_triton.py:1178-1200 | Whatever order the rows are taken in, each group goes through exactly its own members' turns. |
| `Cuts.LocalPermutation` | circuit_triton.py:1416 | An order of all the rows orders all the members of every group. |
| `Cuts.LaunchTicksGroups` | circuit_triton.py:1412-1421 | On values: a launch leaves each group at its members' turns and, when it is in harmony, at its own group tick. |
| `Cuts.LaunchExact` | circuit_triton.py:1412-1421 | Exactly then: every order of a launch leaves a group at its own group tick if and only if the group is in harmony. |
| `Cuts.LaunchShortens` | circuit_triton.py:1400-1403 | A launch uses up ticks of every running row, so the launches end, in harmony or not. |
| `Cuts.LaunchesAreGroupTicks` | circuit_triton.py:1400-1403 | Launches, each against the statuses of its own moment, are the ticks of a group in harmony. |
| `Cuts.LaunchesEndGroups` | circuit_triton.py:1398-1405 | Launching until nothing runs leaves every group in harmony where its own run would end. |
| `Cuts.StatusesIdle` | circuit_triton.py:390-398 | Alone in its group a machine is never told anything by the statuses. |
| `Cuts.SoloRun` | circuit_triton.py:1404-1405 | A group of one row runs as the lone machine does. |
| `Accesses.BankCommits` | golden_sim.py:734-764 | What each of the six bank accesses does once its selector is accepted, in one statement: refused outside the page, refused on a protected cell, a store of its bytes, or a load of them. |
| `Accesses.AccessWrites` | golden_sim.py:734-764 | After a tick a cell holds the stored byte when the committed store spans it on the selected page, and what it held before everywhere else. |
| `Accesses.AccessReads` | golden_sim.py:734-764 | Over two sets of pages a tick leaves the same machine exactly when the cells its committed load spans hold the same bytes in both. |
| `Orders.OrderIndependence` | banks.py:127-141 | A group in harmony has the same tick - states and pages - for any two orders of its members. Harmony is read off the boundary, cell by cell: where two members reach one page that is neither's own, a cell both store gets one byte from both, and a cell one stores and the other loads is stored with the byte it holds. |
| `Orders.TurnsInOrder` | banks.py:127-141 | In a group tick each member steps over the pages as the members of smaller index left them, and nobody moves it again. |
| `Orders.LastStoreStands` | banks.py:127-141 | Of all that store one cell of another's page, the member of the largest index is seen. |
| `Orders.OrderMatters` | banks.py:127-141 | Two members not at peace in that sense give two orders of the whole group that end differently. |
| `Orders.OrderExact` | banks.py:4-8 | All orders of the members agree if and only if the group is in harmony: the exact condition for the independence the module promises. |
| `Orders.OrdersDiffer` | banks.py:4-8 | A reachable group that breaks the promise: two running members store different bytes at one cell of a halted member's page. |
| `Banks.VerdictsSettledAtBoundary` | banks.py:129-131 | Whether a bank access is refused, and how, is settled by the statuses sampled at the boundary. |
| `Banks.OthersLeaveRunningPage` | golden_sim.py:320-332 | A running owner's page is changed by nobody else's step. |
| `Banks.ProtectedByteStays` | golden_sim.py:383-397 | Nobody's step changes a byte the owner of its page protected. |
| `Banks.ProtectedMemory` | isa_table.py:398-431 | Over whole runs of a group no protected byte ever changes, whichever machine attempts it. |
| `Banks.MemberOutcome` | banks.py:127-141 | A running member at no bank access ends its tick where the lone machine does, wherever it stands in the order. |
| `Banks.NonInterference` | banks.py:143-151 | Over whole runs, a member that comes to no bank access passes through exactly its lone machine's states, on its lone machine's page until it stops. |
| `Banks.GroupStops` | banks.py:143-151 | Every group stops within the longest budget left, plus one, ticks. |
| `Banks.QuietGroupStays` | banks.py:108-109 | A quiescent group stays where it is. |
| `Banks.MembersStayReachable` | isa_table.py:641-662 | Every state every member reaches stays inside the bounds of the state table. |
| `Banks.CodeLog` | golden_sim.py:713-730 | Over whole runs the log of each member counts its committed STC writes and keeps the first address, and CODE outside the window never changes. |
| `Locality.ExecLocal` | golden_sim.py:501-908 | An instruction that is no bank access sees and changes its own page only. |
| `Locality.TickLocal` | golden_sim.py:455-474 | A tick without a bank access is the lone machine's tick. |
| `Locality.TickFocused` | golden_sim.py:734-764 | A tick depends on one page only, and changes that page only. |
| `Groups.BankGroup.Form` | banks.py:43-72 | A group is formed exactly of 1 to 65535 different machines, each loaded for the group's size; a refusal changes no machine. |
| `Groups.BankGroup.constructor` | banks.py:65-72 | Forming a group hands every member the pages, its index, the statuses and the regions, and moves no machine. |
| `Groups.BankGroup.Announce` | banks.py:129-131 | Every member is told the sampled statuses; nothing else changes. |
| `Groups.BankGroup.Turn` | banks.py:133-137 | A member's turn is its step over the pages as the earlier members left them; it raises exactly when it stops in error. |
| `Groups.BankGroup.Step` | banks.py:127-141 | One group tick in place, statuses sampled before any member has stepped, ends where the value model's group tick does; it tells exactly who stopped in error and with which cause, and in strict mode throws the first of them. |
| `Groups.BankGroup.AllQuiescent` | banks.py:108-109 | True exactly when nobody runs. |
| `Groups.BankGroup.Run` | banks.py:143-151 | Stepping ends quiescent or at the limit, after at most the longest budget left plus one ticks, at the state that many group ticks reach. |
| `Invariants.StepKept` | golden_sim.py:476-908 | Any committed step keeps PC inside the image or behind it, the streams, the CODE window, the page shape and the depth rule. |
| `Invariants.TickLogsStc` | golden_sim.py:713-730 | The log goes up by exactly the committed STC and keeps the first address; nothing else writes CODE. |
| `Invariants.ExtCommits` | golden_sim.py:769-803 | EXT commits exactly under its own guards, named one by one, and then adds one to the depth. |
| `Invariants.TickCountsDepth` | golden_sim.py:769-803 | Over all ticks, the depth goes up exactly when an EXT meets its guards. |
| `Invariants.BootIsReachable` | golden_sim.py:88-171 | A load satisfies the state invariant. |
| `Invariants.TickStaysReachable` | golden_sim.py:455-474 | A tick keeps it. |
| `Invariants.EveryStateReachable` | isa_table.py:641-662 | From any load, after any number of ticks: PC, depth, streams, tick, log and fault fields stay inside their declared bounds. |
| `Invariants.StatesFitCells` | circuit_torch.py:143-156 | With a budget and an input below 2^31, no state of any run needs more than the circuits' 32-bit cells. |
| `Invariants.EmptyImageBootsOutside` | golden_sim.py:110-117 | An empty image boots at an entry behind its end and never gets further. |
| `Control.TrapReturns` | golden_sim.py:804-832 | TRAPRET after EXT, whatever ran between, restores PC, stack pointer, depth and all four flags exactly when the return address lies in the image. |
| `Control.CallReturns` | golden_sim.py:514-518 | RET after CALL or CALL HL, under the same condition. |
| `Control.PopReturns` | golden_sim.py:890-900 | POP after PUSH gives the byte back and always commits. |
| `Control.PopWordReturns` | golden_sim.py:654-669 | POPW after PUSHW gives the word back and always commits. |
| `Control.BalancedReturns` | golden_sim.py:442-453 | Every balanced run, of any shape and depth, ends at the stack pointer and the trap depth it started from. |
| `Control.FramesStand` | golden_sim.py:442-453 | A balanced, careful run leaves every cell at and above its stack pointer as it was. |
| `Control.HandlerComesBack` | golden_sim.py:769-832 | A balanced, careful handler returns behind its EXT exactly when that address is in the image, flags and all. |
| `Control.SubroutineReturns` | golden_sim.py:530-535 | A balanced, careful subroutine returns behind its call under the same condition. |
| `Records.InstalledIsRecorded` | golden_sim.py:249-273 | A record installs as exactly the state it was taken from. |
| `Records.InstallsIff` | isa_table.py:802-855 | A record installs exactly when it is the record of some state of the machine's own load, and the state it installs is that one. |
| `Records.InstalledLoad` | isa_table.py:802-855 | An accepted record is over the machine's streams and block with its cursor and output in bounds, and a run from it is a run of the recorded load. |
| `Records.ReachablePublishes` | isa_table.py:857-866 | Every reachable state publishes; the record installs exactly while the STC log fits its width. |
| `Records.NextStateLegal` | isa_table.py:641-662 | From any accepted record, reachable or not, the next state is accepted exactly when the tick neither enters a trap at depth 255 nor logs an STC on a full counter. |
| `Records.DepthPastLimitEscapes` | golden_sim.py:778-787 | A depth past its limit is not refused: a legal record whose next state no record accepts. |
| `Records.DepthWithinLimitStays` | golden_sim.py:778-787 | A depth within the limit never escapes. |
| `Records.CheckpointResume` | golden_sim.py:249-273 | For every budget and every cut: the record publishes, installs exactly while the STC log fits its 32 bits, and a run cut there is the uncut run. |
| `Records.RecordState` | golden_sim.py:245-247 | Publishing reads the machine and checks the record, or refuses. |
| `Records.InstallState` | golden_sim.py:249-273 | Installing accepts exactly the legal records of the same load and copies the state and the page; a refusal changes nothing. |
| `Records.Trajectory` | golden_sim.py:910-913 | Stepping until a stop or a limit ends where that many ticks of the value model do. |
| `Records.Continue` | golden_sim.py:245-273 | A checkpoint moved into another machine of the same load: accepted exactly while the STC log fits, and the second machine then ends where the first would have. |
| `Records.DebuggerResumesInsideCode` | debug.py:402-418 | Of a reachable state the debugger resumes exactly when PC names a CODE byte and the STC log fits: the address behind a full image is refused. |
| `Records.DebuggerRefusesFallThrough` | debug.py:402-418 | That address is reached: NOP in the last byte of a full image falls through to a running state whose record publishes and installs, and which the debugger refuses. |
| `Debugger.SplitTickFollows` | debug.py:121-122 | With DATA replaced by a traced copy, a tick is the plain machine's tick exactly when it commits no own-page bank access or that access finds (or puts) the bytes the traced page already holds. |
| `Debugger.SplitPages` | debug.py:121-122 | A bank access of the debugged machine works on the page behind bank 0 alone, and any other tick on the traced page alone. |
| `Debugger.ResumedPagesAlike` | debug.py:402-418 | The two pages of a resumed machine start alike exactly when the recorded page still holds the vectors its table was seeded with. |
| `Debugger.SplitRunFollows` | debug.py:121-122 | While no tick tells the two pages apart, the debugged run is the plain run. |
| `Debugger.UnbankedRunFollows` | debug.py:121-122 | In particular while no committed LDM, STM, LDMW or STMW reaches the own page; the page behind bank 0 is then untouched. |
| `Debugger.ResumedRunIsRun` | debug.py:402-418 | A checkpoint resumed in the debugger and run on stands where the uninterrupted machine does, for every budget, as long as the STC log fits and no committed bank access reaches the own page. |
| `Debugger.ResumedRunParts` | debug.py:121-122 | The input that parts them: STM to a cell holding another byte, one tick after the boot record. |
| `Debugger.RunTrajectory` | debug.py:366-386 | The recorded run takes the debugged machine's ticks until it stops or the step limit. |
| `Debugger.BankAlone` | golden_sim.py:320-332 | On a lone machine a bank access commits exactly for selector 0, an address inside the page and, for a store, unprotected cells. |
| `Programs.SourceAssembles` | programs.py:13-39 | The listing, label by label, assembles to the program bytes. |
| `Programs.LayOut` | programs.py:41-47 | The page holds the length and the two numbers, low byte first. |
| `Programs.RunProgram` | programs.py:48-49 | Booting the program over a page and running it is the value model's run to its stop. |
| `Programs.RunLongAdd` | programs.py:41-52 | For all numbers of up to 255 bytes the machine halts and what is read off its output is their sum. |
| `LongAdd.Round` | programs.py:21-28 | One round of the loop adds one column with its carry. |
| `LongAdd.AddAll` | programs.py:21-28 | The loop leaves the digits of the sum and the carry, for every length. |
| `LongAdd.EmitAll` | programs.py:35-38 | The output loop sends every digit. |
| `LongAdd.LongAddIsAddition` | programs.py:13-39 | For every length of 1 to 255 bytes and all operands the run halts without a fault and the emitted bytes denote the sum. |
| `LongAdd.LongAddOfIntegers` | programs.py:41-52 | The same as a claim about integers. |
| `Forms.FormsExclusive` | isa_forms.py:41-117 | No two accepted shapes of a mnemonic can take the same operands. |
| `Forms.MatchIsUnique` | isa_forms.py:201-205 | Some shape takes the operands exactly when the line matches, and it matches that shape. |
| `Forms.FrontEndsAgree` | loader.py:269-282 | What the assembler accepts the loader accepts, as the same shape. |
| `Forms.ByteRanges` | isa_forms.py:179-181 | A byte immediate is accepted exactly from 0 to 255. |
| `Forms.DistanceRanges` | isa_forms.py:182-184 | A relative distance is accepted exactly from -128 to 127. |
| `Forms.FrameRanges` | isa_forms.py:164-173 | A displacement is accepted exactly when the number with its sign lies in -128..127. |
| `Forms.WordRanges` | isa_forms.py:174-178 | A word is accepted exactly from 0 to 65535, or as a name. |
| `Forms.NamesAccepted` | isa_forms.py:174-187 | A word's place takes names beside its numbers and no other text; a byte's takes numbers alone. |
| `Forms.LooseValues` | isa_forms.py:190-199 | The loader puts any text into a value's place. |
| `Forms.LooseWords` | isa_forms.py:190-199 | It puts anything but a reserved name into a word's place. |
| `Effects.FormDoes` | golden_sim.py:1042-1136 | For every accepted line of every mnemonic: its encoding, executed, does what its operands name - loads from, stores to or moves exactly the registers, pointers and cells it is written with; the selector appears nowhere in that. |
| `Effects.LineFetches` | golden_sim.py:1138-1152 | The bytes of an assembled line, fetched, give its registers and its operand value, signs and byte order included. |
| `Effects.LineDoes` | golden_sim.py:1211-1274 | So a machine that stands at the bytes of a line does what the line says. |
| `Effects.SourceDoes` | golden_sim.py:1250-1274 | And a machine that stands at a line of an assembled source does what that line says, every label in it worth the address of what follows the label. |
| `Effects.ShownIsFetched` | disasm.py:183-208 | At every address the disassembler shows what the machine would fetch there: the same selector, registers, operand and next address, or the reason there is nothing to run. |
| `Encodings.FormsFit` | golden_sim.py:1158-1185 | Every accepted shape has an encoding with as many register fields as it has register operands and as many operand bytes as its kinds are wide. |
| `Encodings.EncodingsListed` | golden_sim.py:1160-1164 | Every encoding is that of an accepted shape. |
| `Sources.MeaningAccepted` | golden_sim.py:1229-1246 | A line that resolves means an instruction of the encoder: its register fields, its operand width and its range. |
| `Sources.TextIsItems` | golden_sim.py:1211-1274 | The two passes over written lines - forms matched, labels looked up by text, a label spelled like a number included - accept exactly the sources whose lines all mean instructions, and emit what those assemble to. |
| `Sources.ByteLabelRefused` | golden_sim.py:968-1017 | A source with a byte operand spelled like one of its labels is refused, wherever the label stands. |
| `Sources.EveryInsSpelled` | golden_sim.py:1158-1164 | Every instruction the encoder accepts has a spelling that matches a form and means it. |
| `Sources.TextReproduces` | disasm.py:99-150 | The disassembly of any assigned, canonical image, printed as lines, matches the forms and assembles to the image. |
| `Sources.SecondSignRefused` | golden_sim.py:1001-1021 | A line the forms accept and the encoder refuses: a displacement with a second sign. |
| `Sources.HiddenNumberAssembles` | golden_sim.py:941-969 | A name nothing defines that is assembled all the same: `_10` reads as 10. |
| `Sources.Assemble` | golden_sim.py:1211-1274 | The two loops compute the assembled image or the refusal. |
| `Assembler.PassesAgree` | golden_sim.py:1238-1264 | An instruction is as long in the first pass, labels unknown, as in the second. |
| `Assembler.CodeSelects` | golden_sim.py:1042-1136 | The code bytes of every accepted shape select the decode row of that shape: encoding and decode tables are inverse. |
| `Assembler.SingleFits` | disasm.py:183-208 | Every assigned single-byte code point re-encodes to itself. |
| `Assembler.EscapeFits` | disasm.py:183-208 | Every assigned subcode re-encodes to itself. |
| `Assembler.EncodedDecodes` | golden_sim.py:1138-1152 | Decoding what was encoded gives the instruction back, wherever it stands. |
| `Assembler.DecodedEncodes` | disasm.py:183-208 | Encoding what was decoded gives the bytes back, exactly for the canonical ones. |
| `Assembler.FirstPassPlaces` | golden_sim.py:1255-1261 | Every label has one value, the extent of what stands before it. |
| `Assembler.LabelsAreOffsets` | golden_sim.py:1255-1271 | A label's value is the offset of the byte emitted next behind it. |
| `Assembler.DisassemblyRecovers` | disasm.py:99-150 | Disassembling an assembled program recovers its instructions in order, labels looked up, none marked. |
| `Assembler.ReassemblyReproduces` | disasm.py:99-150 | Re-assembling the disassembly of any assigned, canonical image reproduces the image. |
| `Assembler.Walk` | disasm.py:99-150 | The disassembler's loop lists the rows, with a count or without. |
| `Expressions.ParseGrows` | loader.py:177-181 | What an expression is worth does not change when more symbols become known. |
| `Expressions.ReadsPrint` | loader.py:92-160 | At every precedence level the print of a tree, its own parentheses included, reads back as its value and stops behind it. |
| `Expressions.ParsePrint` | loader.py:72-76 | Parsing a print yields the tree's value and consumes every token; it fails exactly when the tree has no value. |
| `Expressions.AcceptedIsPrint` | loader.py:72-184 | The accepted token strings, redundant parentheses included, are exactly the prints of the trees with a value, each accepted as that value. |
| `Expressions.ExprParser.Binary` | loader.py:92-151 | The six precedence methods: one loop over the operators of a level, folding to the left. |
| `Expressions.ExprParser.Prefix` | loader.py:153-160 | The unary operators. |
| `Expressions.ExprParser.Atom` | loader.py:162-184 | Numbers, names, calls and parentheses. |
| `Expressions.ExprParser.Run` | loader.py:72-76 | The cursor parser answers what the grammar says, trailing tokens refused. |
| `Precedence.TighterFirst` | loader.py:92-151 | For operators named one by one in six levels: of two operators between literals, names or brackets, the one of the tighter level is applied first, on either side. |
| `Precedence.LeftFirst` | loader.py:92-151 | Two operators of one level are applied from the left. |
| `Precedence.SignFirst` | loader.py:153-160 | A unary operator is applied before any binary one. |
| `Precedence.SumsAndDifferences` | loader.py:123-131 | Addition counts up, and subtraction undoes it. |
| `Precedence.ProductsAreSums` | loader.py:133-137 | Multiplication is repeated addition. |
| `Precedence.QuotientsRecover` | loader.py:133-151 | `//` and `%` recover the dividend with a remainder of the divisor's sign; a zero divisor and `/` are refused. |
| `Precedence.BitwiseOperators` | loader.py:92-108 | The three bitwise operators and the complement bit by bit, for either sign. |
| `Precedence.ShiftOperators` | loader.py:110-121 | A shift moves every bit by the distance, for either sign; a negative distance is refused. |
| `Precedence.BitsOfDetermine` | loader.py:92-121 | Integers of either sign with the same bits are equal. |
| `Precedence.Functions` | loader.py:39 | `low` and `high` are the two bytes of a word, `abs` the distance from zero, and there is no other. |
| `Linker.PassesMeet` | loader.py:670-719 | The emit pass stands where the place pass stood at every line, `.org` lines included. |
| `Linker.PutAllIff` | loader.py:533-545 | Placing succeeds exactly when the blocks stay inside CODE, off each other and off what was placed. |
| `Linker.ImageHolds` | loader.py:721-748 | A finished image holds every placed block where it was placed and zeros elsewhere; its length and extent are as declared. |
| `Linker.PowCovers` | loader.py:514-517 | The default length covers the content and is less than twice it. |
| `Images.BytesStand` | loader.py:679-685 | In a finished link the byte at the address of each `.byte` cell is the value of its expression. |
| `Images.WordsStand` | loader.py:686-693 | The word at the address of each `.word` cell, low byte first, is the value of its expression. |
| `Images.StringsStand` | loader.py:694-698 | A string stands byte for byte at its address. |
| `Images.LinesStand` | loader.py:699-719 | At the address of every instruction line the disassembler reads back its selector, its registers and the value of its operand, under the sign it was written with. |
| `Images.LinesFollow` | loader.py:623-668 | A unit starts at 0, a line stands behind the bytes of the line in front of it or where the `.org` says, and a label is the address it stands at. |
| `Images.ConstantsStand` | loader.py:631-638 | A constant of a finished link is worth what its expression is worth under the link's symbols. |
| `Images.EntryStands` | loader.py:813-822 | A load starts at the address it was told, at the value of the name it was told, and untold at `main` or at 0. |
| `Images.EntryAtLabel` | loader.py:813-822 | In particular at the line labelled so. |
| `Images.PlacedAccepted` | loader.py:623-668 | A unit is placed exactly when every value is known where it stands, every `.org` stays inside CODE and no name is defined twice. |
| `Images.UnitAccepted` | loader.py:670-719 | A unit is emitted exactly when each line's values lie in the range of their place and no label stands where eight bits are wanted. |
| `Images.FinishAccepted` | loader.py:721-748 | A load is finished exactly when its length covers its content and stays inside CODE and its entry lies inside the content. |
| `Images.LinkAccepted` | loader.py:866-917 | A link is accepted exactly when its units can be placed, every line can be emitted, the blocks stay apart and inside CODE, and the load can be finished. |
| `Images.AgreesIff` | loader.py:899-909 | Tables may be merged exactly when their union keeps both, with no name of two kinds. |
| `Linker.AssemblyHolds` | loader.py:851-864 | A finished assembly is its blocks: placed, apart, zero elsewhere, entry inside the content. |
| `Linker.LinkHolds` | loader.py:866-917 | A finished link is the blocks of all its units, under the merged symbols. |
| `Linker.LinkStands` | loader.py:866-917 | In a finished link each line stands where its unit's place pass put it, and every label's merged value is that address. |
| `Linker.PlaceUnitsFacts` | loader.py:887-911 | After the place phase every unit's symbols are in the merged table, of one kind each, consistent with what was visible to it. |
| `Linker.LinkIsAssembly` | loader.py:866-917 | Units with disjoint names, each of which starts at 0 or puts nothing in front of its first `.org`, link exactly as their concatenation assembles: image, symbols, extent, entry, and refusals. |
| `Linker.SharedNameByHand` | loader.py:899-909 | With a name two units share, even as one constant, the concatenation is always refused: the two agree exactly when the link is refused too. |
| `Linker.LabelMoves` | loader.py:623-640 | With a label in front of the first `.org` of a unit that does not start at 0, the link and the concatenation never agree on a load. |
| `Linker.LinkOne` | loader.py:866-917 | One unit links as it assembles. |
| `Linker.StartsCollide` | loader.py:670-673 | Two units that both put a byte in front of their first `.org` cannot be linked, wherever in the link they stand. |
| `Linker.HandPlaces` | loader.py:851-864 | Such units may still assemble one behind the other. |
| `Linker.SymbolTable.Add` | loader.py:193-200 | A name is defined once; a second definition changes nothing. |
| `Linker.SymbolTable.PlaceLine` | loader.py:623-668 | One line of the place pass. |
| `Linker.SymbolTable.PlacePass` | loader.py:623-668 | The place pass over one unit, symbols and addresses. |
| `Linker.SymbolTable.Merge` | loader.py:899-909 | Merging accepts exactly tables that agree on every shared name, and then holds both. |
| `Linker.Placer.Place` | loader.py:533-545 | A block is placed byte by byte or refused. |
| `Linker.Placer.PlaceCells` | loader.py:679-692 | The cells of one `.byte` or `.word`, evaluated and placed one at a time. |
| `Linker.Placer.EmitLine` | loader.py:670-719 | What one line places. |
| `Linker.Placer.EmitPass` | loader.py:670-719 | The emit pass over one unit. |
| `Linker.Finish` | loader.py:721-748 | The image is written cell by cell into a zeroed buffer; length and entry are checked. |
| `Linker.Assemble` | loader.py:851-864 | The load of one source. |
| `Linker.Link` | loader.py:866-917 | The load of several units. |
| `SymbolText.ValueRoundTrip` | symtab_export.py:39-41 | A value of either sign reads back from its hexadecimal text, which holds no white space. |
| `SymbolText.RecordRoundTrip` | symtab_export.py:39-41 | A record reads back from its line. |
| `SymbolText.ReadExported` | symtab_export.py:43-88 | A table's file reads back as the table: names, values and kinds. |
| `SymbolText.ExportSettles` | symtab_export.py:58-88 | Any accepted file, however spaced and ordered, settles after one export. |
| `SymbolText.ExportCanonical` | symtab_export.py:34-56 | The file depends on the table alone, not on the order it was filled in. |
| `SymbolText.ListedInOrder` | symtab_export.py:34-37 | Of two listed names the earlier one, at the first place where they differ, has the smaller code point or ends. |
| `SymbolText.BelowIsPrecedes` | symtab_export.py:37 | The order names are sorted by is that one, for all strings. |
| `SymbolText.HexPlaces` | symtab_export.py:39-41 | The digits of a value stand in place-value order, the most significant first and not zero. |
| `SymbolText.RecordAccepted` | symtab_export.py:70-87 | A line is a record exactly when it is three words, however spaced: a valid name, a kind and a readable value. |
| `SymbolText.LinesAccepted` | symtab_export.py:58-88 | A file is read exactly when every line is a record of a name of its own, and the table then holds each of them. |
| `SymbolText.ExportInjective` | symtab_export.py:43-56 | No two tables have the same file. |
| `SymbolText.Export` | symtab_export.py:43-56 | The file is written record by record in name order. |
| `SymbolText.ReadText` | symtab_export.py:58-88 | Reading accepts exactly the well-formed files and builds their table. |

## Left out

- Tensor.TorchCircuit.Run: the same bound as its step.
- Tensor.TorchCircuit.Step: the tensors are integers without a width; the source keeps them as
  32-bit integers. Budgets and inputs at or above 2^31 are not modelled; below them every state
  cell fits (`Invariants.StatesFitCells`), but the widths of intermediate values are not stated.
- Kernel.Compute: state cells and budgets are integers without a width; the source keeps them as
  32-bit integers, with the same bound at 2^31.
- Kernel.Compute: it works on row values; the pointer arithmetic that finds a row's CODE, OUTBUF and
  INPUTS, and the per-branch repetition of the operand bound, are stated once in front of the chain.
- Batches.Batch.Resident: a launch of several ticks over groups reuses one status snapshot; that
  is stated per row, and no group theorem is claimed for it. Programs of a launch run one after
  another in any order; instruction-level interleaving of GPU threads is not modelled.
- Batches.Batch.Launch: the group theorem is for groups in harmony; in any other the source's
  result depends on the order of the programs (`Cuts.LaunchExact`), and so does the model's.
- Machine.NCP8.InstallBanks: ill-typed arguments are not modelled, and pages are distinct arrays of
  DATA's length, as machines make them.
- Machine.NCP8.Step: trace lines, message texts and the refusal of unknown cause codes are not
  modelled; nor are the external instruction feed and the replaceable decode tables of the circuits.
- Expressions.ParsePrint: a negative left shift is refused like every other refusal; in the source
  it leaves the parser as Python's own error instead of the loader's.
- Expressions.ExprParser.Run: the same.
- Expressions.AcceptedIsPrint: lexing is not modelled; token strings come as the lexer leaves them.
- Linker.Assemble: lines come parsed; comment stripping, string escapes, the `vectors`, `window`,
  `vtab` and `regions` declarations and the report text are not modelled.
- Linker.LinkIsAssembly: units with a shared name, or with a label in front of the first `.org`
  away from 0, are settled by `Linker.SharedNameByHand` and `Linker.LabelMoves`; for unlabelled
  content there, agreement is a coincidence of bytes (`.org 5`, `.byte 1`, `.org 3` and then a unit
  `.byte 0`) and no condition is stated. `Linker.StartsCollide` covers two such units.
- Linker.Finish: the `vectors`, `window`, `vtab` and `regions` declarations are not checked.
- Linker.Link: the same, and the report is not written.
- Sources.Assemble: operands come classified, with their text; the regular expressions that split
  a line and classify an operand, the decode templates' text and the messages are not modelled.
- SymbolText.ReadText: which characters outside ASCII count as letters of a name is a parameter.
- Forms.MatchIsUnique: operands come classified; the regular expressions that classify them are
  not modelled.
- Debugger.SplitTickFollows: on values; frames, watchpoints and breakpoints are not modelled.
- Debugger.RunTrajectory: on values; the recorded frames and the reason of the stop are not modelled.
- Records.InstallState: a record is typed data; missing, extra and ill-typed components are not
  modelled.
- The profiler, the record library, the mini interpreter, the self-reading cases and the other
  example programs: they add members of the same kind, or are about presentation.
- Images in an engine's memory, device placement and kernel compilation.
