# A verified model of a five-stage RISC-V core

The repository describes an in-order RISC-V core: fetch with branch prediction and compressed instructions,
decode, execute, memory and write-back, connected by queues and kept coherent by a scoreboard, a bypass network
and two epoch bits. This project models the pipeline as a state machine whose steps are the hardware rules, one
rule at a time, in any order, and proves that it implements the architecture. Beside it stand the core's register
arrays and queues updated in place, the array multiplier, the base ALU, and the machine that puts cache lines and
IO on the bus.

## How it is built

* `Types`, `Isa`: words, tags, decoded instructions; the one-instruction-at-a-time machine. Decoder, functional
  units and CSR file are functions of the record `Arch`, so every statement holds for all of them.
* `Epochs`, `Fetch`, `FetchRun`: flush generations; stages 0 and 1 with the realigner; runs of both.
* `Scoreboard`, `Bypass`, `Pipeline`: locks and rename ids; operand selection; all rules of the pipeline.
* `Spine`, `Invariant`, `FrontProofs`, `OperandProofs`, `IssueProofs`, `BackProofs`, `MicroTraps`: everything on
  the current path, from the oldest instruction in flight to the next one to leave stage 1, is read as one
  speculative run of the architecture in which results that are not settled yet are unknown; each rule keeps that.
* `Refinement`, `Progress`, `CsrOrder`: runs and the main theorems; progress against every environment; the order
  of decoding and completion around CSR accesses.
* `Reference`, `Architecture`, `IssueRules`, `SystemRules`, `AnswerLog`: what instructions mean, written out once more
  without the definitions that the pipeline and the one-instruction-at-a-time machine share: what an instruction
  does, what it waits for, sends and where it goes, CSR accesses against returns, and the log against what memory,
  IO and interrupt lines did.
* `SameCycle`, `FlushedDecode`: rules that fire in one cycle with a flush, against the same rules one by one.
* `Programs`, `StaleMicrotrap`, `PsimdHazard`, `PsimdRuns`: short programs in real encodings, the runs that show a
  finding, and the exact conditions.
* `RegisterFiles`, `Fifos`, `FetchUnit`, `DecodeUnit`, `Core`, `Simulation`: the same machine as objects with
  arrays, one queue per functional unit and one copy of the epochs per stage; every method is proved to do exactly
  one step of the state machine.
* `Bits`, `Multiplier`, `BaseAlu`: bit vectors of any width, least significant bit first.
* `LineBus`, `CoreBus`, `BusTraffic`, `WriteResponses`, `IoLanes`: evictions, line reads and IO on one bus master;
  what is on the channels against what the steps of a run asked for; line reads against the responses to line
  writes; the byte lanes of IO writes.

History variables (`born`, `cursor`, `serial`, `npc`, `heard`, `issued`, `apc`, `log`, `requests`, `counts`, `acks`,
`done`, `given`, `taken`) record what happened; no decision reads them. `requests` holds everything sent to the data
memory. `log` holds, for every completed instruction, its pc, the operands it used, the answer the memory gave it
(`heard`) or the interrupt it took, and the value it committed.

## Assumptions

* The predictor: a "taken" answer is a hit, is about a control instruction that starts in the word it was asked for,
  has the right length, and, for a conditional branch, gives the branch's own target (`Fetch.Consistent`,
  `Fetch.Trusted`). The execute stage compares the direction of a branch and never its target.
* The decoder (`Isa.WellFormed`): register numbers are in range; an instruction with a constant second operand
  names x0 there, except FENCE and FENCE.I, which keep inst[24:20] and do not use the operand
  (src/decoder.bsv:241-282); branches and stores (src/decoder.bsv:290-297) and the legal encodings of xRET have x0
  as destination; SYSTEM instructions ask for a re-run of their follower, branches and jumps do not
  (src/decoder.bsv:754-756). Offsets of branches and JAL are even, and trap and return addresses are even.
* mul/div, pbox and the data memory answer in order; memory and IO answers are inputs of the step that receives
  them, so every latency and every answer is covered. An entry that the data memory has parked without IO is a store
  or an atomic.
* The memory on the bus answers line writes in order and after their last beat, as AXI4 demands of one id.
* No access is faulty in fetch, misa.C is 1, and the machine is RV64 with `no_wawstalls`.

## Findings

* `rl_pbox` (src/stage3.bsv:939-971) forwards the third operand of PSIMD instructions but does not wait for it.
  `PsimdHazard.StaleThirdOperand` is a run of `addi x2,x0,7; mul x1,x2,x2; smalbb x1,x0,x0` that accumulates on the
  old x1. `PsimdRuns.IssueIsSafeExactly` says exactly when an issue is harmless: when the operand is available, or
  the instruction it should wait for is stale, or is settled to write the old value again; otherwise some run behind
  it records what the architecture does not.
* The comment at src/ccore.bsv:328-337 says that a read of a line being written waits for the write response. The
  code clears `wr_write_req` with the last data beat (src/ccore.bsv:423-428), so the property is false:
  `WriteResponses.ReadOvertakesResponse` and `WriteResponses.DelayedReadOvertakes` are runs, for every geometry and
  every line, in which the read is sent with the response outstanding. `WriteResponses.ReadOvertakesExactly` and
  `WriteResponses.RunRespectsExactly` say exactly when it holds: when no line with all its beats out and its response
  outstanding is the line that is read. During the burst the guard on `wr_write_req` keeps the read back
  (`WriteResponses.BurstExcluded`).
* The conflict test shifts addresses by `dwords + dblocks` bits, not by their logarithms. It is coarser than needed
  and, for powers of two, never misses a conflict (`LineBus.LineInRegion`).
* `ma_clear_stall` acts only during a stall (src/stage2.bsv:576-581). A flush from execute never finds a micro-trap
  pending (`StaleMicrotrap.ExecuteFlushLeavesNone`). A flush from write-back leaves one behind exactly when the last
  instruction decode accepted asked for the re-run (`StaleMicrotrap.WriteBackFlushLeaves`); in
  `StaleMicrotrap.FlagSurvives` a faulting load does so with a CSR access decoded behind it, and the first instruction
  of the trap handler is run again. The theorems include such runs.

## Model

| member | source | states |
|---|---|---|
| Refinement.PipelineRefinesIsa | src/stage3.bsv:398-885 | on every run, for all rule orders, latencies and depths: the completed instructions, with operands and committed values, are exactly those of the one-instruction-at-a-time machine, whose registers and CSRs are the core's |
| Architecture.CompletesExactly | src/stage5.bsv:167-464 | an architecture written as a relation, type by type, with literal codes and arithmetic, allows exactly what the one-instruction-at-a-time machine does and records |
| Architecture.LogCompletes | src/stage3.bsv:398-885 | on every run, each record of the log and the state after it are what that relation allows from the state before it: the operands x[rs1] and x[rs2], the value written, the next pc, the trap |
| AnswerLog.LogIsHeard | src/stage4.bsv:183-261 | on every run, the contribution of the outside world in each record is the interrupt offered when the instruction was decoded, the answer to its own request, or the answer to its own IO operation |
| AnswerLog.StepKeeps | src/stage4.bsv:183-261 | every rule keeps, for every instruction in flight, payload and noted answer in agreement |
| IssueRules.IssuedOperands | src/stage3.bsv:625-667 | in every reached state in which an issue fires, by instruction type: rs1, and rs2 where it is a register, are those of the youngest writer in flight or of the register file; for stores and atomics too |
| IssueRules.MemoryRequest | src/stage3.bsv:625-740 | the data memory is asked for rs1 + imm with rs2 as data, exactly if that is a multiple of the size; otherwise a trap with cause 4 for loads and 6 for all others |
| IssueRules.RedirectGoesTo | src/stage3.bsv:759-791 | a redirect sends the fetch, for JALR to rs1 + imm with bit 0 cleared, for JAL and a taken branch to pc + imm, for a branch not taken to pc + 2 or pc + 4, all modulo 2^64 |
| IssueRules.NoRedirectMeans | src/stage3.bsv:782-791 | no redirect if and only if the branch went the predicted way, or the instruction behind the jump is the one at its target |
| SystemRules.SystemRetires | src/stage5.bsv:233-305 | in every reached state a live SYSTEM instruction at the head with funct3 = 0 flushes to the saved pc and writes no register, and with any other funct3 writes the CSR value read and does not flush |
| SystemRules.MretReturns | src/stage5.bsv:240-248 | a reached run of the encoding 0x30200073 goes on at mepc and not at pc + 4 |
| Refinement.RunKeeps | src/riscv.bsv:291-332 | every run of allowed rules keeps the invariant of the pipeline and that of the micro-traps |
| Refinement.GenerationsInOrder | src/riscv.bsv:320-332 | between fetch and execute there are at most three generations, in fetch order; tags agree exactly when no flush lies between, and with the current epochs exactly for items of the current generation |
| Refinement.LockedExactly | src/scoreboard.bsv:45-73 | a register is locked if and only if an instruction in flight writes it, under the id of the youngest such instruction |
| Refinement.OlderNeverUnlocks | src/scoreboard.bsv:64-73 | committing or dropping an older writer leaves the lock of a younger writer untouched |
| Refinement.IdsNeverClash | src/scoreboard.bsv:49-52 | the rename ids of all instructions in flight are pairwise distinct although the counter wraps |
| Refinement.IdWidthFits | configure/configure.py:222-229 | ceil(log2(s34 + s45)) bits are enough ids for any queue sizes, and one bit less is not |
| Refinement.OperandIsYoungest | src/stage3.bsv:417-439 | in every reached state, an available operand of the decoded instruction is the result of the youngest instruction in flight that writes the register, which is live, or the content of the register file if there is none, or the constant |
| Refinement.EmptyMeansUnlocked | src/scoreboard.bsv:64-73 | with nothing in flight every lock is open |
| Refinement.OneRerunFollows | src/stage2.bsv:395-406 | after a CSR access, xRET or fence at most one more instruction of the epoch leaves decode: its micro-trap, with cause 3 after SYSTEM instructions, 1 after FENCE.I and 2 after FENCE; decode is stalled, and the micro-trap itself asks for no other one |
| Refinement.NoQueueOverflows | src/pipe_ifcs.bsv:572-576 | in every reached state no queue of the pipeline holds more than its depth |
| Refinement.StalledExactly | src/stage2.bsv:405-406 | in every reached state decode is stalled if and only if the last instruction it has accepted is a live exception, interrupt or micro-trap |
| Refinement.DecodedAfterCsr | src/stage5.bsv:233-305 | in the state a CSR access, xRET or fence leaves behind, everything live behind it is a micro-trap |
| CsrOrder.DecodedBehindCsr | src/stage2.bsv:395-406 | on every run: an instruction recorded behind a CSR access, xRET or fence was decoded when that one had already been recorded |
| CsrOrder.StepKeeps | src/stage2.bsv:395-406 | every rule keeps this for the instructions recorded, in flight and decoded |
| StaleMicrotrap.ExecuteFlushLeavesNone | src/stage2.bsv:576-581 | an issue that redirects never finds, and never leaves, a pending micro-trap |
| StaleMicrotrap.WriteBackFlushLeaves | src/stage2.bsv:576-581 | a flush from write-back leaves a pending micro-trap if and only if it is pending without a stall, that is, if and only if the last instruction decode accepted asked for it |
| StaleMicrotrap.FlagSurvives | src/stage2.bsv:576-581 | a reached run in which a faulting load retires with a CSR access decoded behind it, and the first instruction of the handler becomes the micro-trap |
| MicroTraps.RerunRestarts | src/stage5.bsv:178-192 | taking a micro-trap changes no register, CSR or log; the fetch restarts at the trap's own pc, with a cache fence exactly for cause 1, that of a FENCE.I |
| MicroTraps.StepKeeps | src/decoder.bsv:817-821 | every rule keeps the discipline of micro-traps: a marking instruction is followed by nothing but its own re-run, and a re-run is pending behind no control instruction |
| Progress.NeverStuck | src/stage3.bsv:589-614 | from every reachable state, and whatever memory, IO, predictor and interrupts answer, a run of allowed rules completes exactly one more instruction |
| Progress.PickNearer | src/stage3.bsv:589-614 | in every state, for all answers of the environment, one of the rules may fire and either completes an instruction or lowers a well-founded measure |
| IssueProofs.IssueKeepsExactly | src/stage3.bsv:939-946 | an issue keeps the invariant if and only if the third operand meets its condition: available, or its writer stale, or settled to write the old value again |
| OperandProofs.OpdExact | src/stage3.bsv:458-476 | the third operand is the right value if and only if that condition holds |
| PsimdHazard.StaleThirdOperand | src/stage3.bsv:939-955 | a reachable run of three real instructions in which rl_pbox uses the old register and the log is not the architecture's |
| PsimdRuns.IssueIsSafeExactly | src/stage3.bsv:939-946 | from every reached state: all runs behind an issue record what the architecture records if and only if the third operand meets its condition |
| PsimdRuns.WrongRun | src/stage3.bsv:939-955 | where the condition fails, a run behind the issue whose log is not the architecture's |
| OperandProofs.OperandIsFresh | src/stage2.bsv:519-560 | an available operand is the register of the speculative run: bypassed, or the operand register kept fresh by commits |
| OperandProofs.UnavailableIsStale | src/bypass.bsv:38-43 | an operand that is not available has a writer in flight, and what would be delivered is the old content of the register file |
| IssueProofs.IssueKeeps | src/stage3.bsv:752-885 | issue, locking and the redirect of a misprediction keep the invariant |
| IssueProofs.PredictionHeld | src/stage3.bsv:782-791 | a prediction that passes the check of the execute stage has led the fetch to the pc the instruction goes to |
| BackProofs.CollectKeeps | src/stage4.bsv:116-358 | merging a result into write-back order keeps the invariant |
| BackProofs.RetireKeeps | src/stage5.bsv:167-464 | commit, drop, trap, return, and completion of memory operations keep the invariant and extend the log rightly |
| FrontProofs.GenKeeps | src/stage0.bsv:160-235 | sending a word keeps the invariant |
| FrontProofs.ProcessKeeps | src/stage1.bsv:208-381 | realigning a word keeps the invariant |
| FrontProofs.DecodeKeeps | src/stage2.bsv:270-477 | decode, operand fetch, interrupts, the stall and the micro-trap machine keep the invariant |
| FrontProofs.DropKeeps | src/stage3.bsv:505-508 | dropping a stale instruction keeps the invariant |
| Epochs.TagCompareIsExact | src/stage3.bsv:359 | comparing two epoch bits accepts exactly the items fetched since the last flush, and at most two flushes separate the oldest item from now |
| Epochs.GenerationsDistinct | src/riscv.bsv:320-332 | items come in fetch order and different generations carry different epochs |
| Epochs.TagsBothFlush | src/riscv.bsv:320-332 | after a flush from execute and one from write-back, in either order, both bits are toggled and no item keeps a current tag |
| SameCycle.IssueAndRetire | src/riscv.bsv:291-332 | an issue and a retirement one after the other leave what both leave in one cycle, where the pc of write-back is selected over that of execute and each stage toggles its own epoch |
| SameCycle.WriteBackWins | src/riscv.bsv:291-302 | when both flush in one cycle of a reached state, the fetch goes on at the pc of write-back, with its fence, and nothing older is live |
| FlushedDecode.BesideExecuteFlush | src/stage2.bsv:395-406 | decode may fire in the cycle in which execute redirects: its instruction is stale, stall and mark are masked, and every run from there records what the architecture does |
| FlushedDecode.BesideWriteBackFlush | src/stage2.bsv:395-406 | the same in the cycle of a flush from write-back |
| FlushedDecode.BesideBothFlushes | src/stage2.bsv:395-406 | the same in the cycle of both |
| Scoreboard.LockKeeps | src/scoreboard.bsv:45-62 | locking keeps: locked exactly by the youngest holder, under its id |
| Scoreboard.ReleaseKeeps | src/scoreboard.bsv:64-73 | releasing the oldest holder keeps it, and so does not releasing a writer of x0 |
| Scoreboard.IdsDistinct | src/scoreboard.bsv:49-52 | ids of holders are distinct while there are no more holders than ids |
| Bypass.FnBypass | src/bypass.bsv:29-46 | the loop over the choice bits selects the youngest source that hits, and reports availability |
| Fetch.ProcessFollows | src/stage1.bsv:230-338 | one firing of stage 1 sends the pending instruction of the path, with its own bits and length, or nothing, and moves the pending pc to the predicted one |
| Fetch.GenKeeps | src/stage0.bsv:160-235 | stage 0 asks for the next word of the path, including the delayed redirect of a 32-bit branch that straddles two words |
| Fetch.FlushRestarts | src/stage0.bsv:257-275 | a flush leaves a clean path from the new pc when no item carries the new epochs |
| FetchRun.SendsThePath | src/stage0.bsv:160-235 | for any predictor that respects instruction boundaries, what stages 0 and 1 send is the predicted path, for every interleaving |
| FetchRun.RedirectRestarts | src/stage0.bsv:257-275 | a redirect restarts the unit whatever state it interrupts |
| FetchRun.RedirectParses | src/stage1.bsv:230-338 | without taken predictions, what stage 1 sends after a redirect is the recursive parse of the parcels from the new pc |
| FetchRun.RequestsFollow | src/stage0.bsv:172-196 | three requests in a row: the word of the pc, then the predicted one if the prediction is above 1 and a hit, or the next in memory; a taken prediction about a straddling instruction is followed one word later |
| FetchRun.TakenExactly | src/stage1.bsv:239-338 | what leaves stage 1 is marked taken if and only if the prediction for the word in which it starts is above 1 and about the parcel at which it starts |
| FetchUnit.Stage01.GenNextPc | src/stage0.bsv:160-235 | the rule, in place, does the step of the model |
| FetchUnit.Stage01.ProcessInstruction | src/stage1.bsv:208-381 | the realigner, in place, does the step of the model |
| FetchUnit.Stage01.ProcessCarried | src/stage1.bsv:239-274 | a carried parcel is completed by the next word, or sent alone without consuming the word |
| FetchUnit.Stage01.ProcessDiscard | src/stage1.bsv:276-303 | a path that starts in an upper parcel |
| FetchUnit.Stage01.ProcessAligned | src/stage1.bsv:305-338 | an instruction that starts in a lower parcel, and what is carried over |
| FetchUnit.Stage01.UpdateEpoch | src/stage0.bsv:246-252 | both stages toggle the same epoch |
| FetchUnit.Stage01.MaFlush | src/stage0.bsv:257-275 | pc, fence flag and delayed redirect after a flush |
| FetchUnit.Stage01.Redirect | src/riscv.bsv:291-332 | flush and epoch toggles of stages 0 and 1 keep their copies equal and do the step of the model |
| DecodeUnit.Stage2.DecoderFunc | src/decoder.bsv:817-831 | the micro-trap overrides the instruction, otherwise an interrupt does |
| DecodeUnit.Stage2.DecodeAndOpfetch | src/stage2.bsv:270-477 | stage 2, in place, does the step of the model |
| DecodeUnit.Stage2.CommitRd | src/stage2.bsv:519-560 | a commit updates the register file and exactly the operand registers that name the register |
| DecodeUnit.Stage2.Flushed | src/stage2.bsv:565-581 | epochs toggle; stall and micro-trap are cleared only during a stall |
| RegisterFiles.LockBoard.LockRd | src/scoreboard.bsv:45-62 | the array of entries and the counter after a lock, for every register |
| RegisterFiles.LockBoard.ReleaseRd | src/scoreboard.bsv:64-73 | the array of entries after a release: opened only by the id it carries |
| RegisterFiles.RegisterFile.CommitRd | src/registerfile.bsv:137-149 | one register is written and x0 stays zero |
| RegisterFiles.RegisterFile.ReadRs | src/registerfile.bsv:77-87 | the value read |
| RegisterFiles.RegisterFile.constructor | src/registerfile.bsv:56-69 | all registers are zero after the initialization loop |
| Fifos.ProjectAt | src/stage4.bsv:116-165 | the share of an instruction in a unit queue stands behind the shares of the older ones: none is lost, doubled or swapped |
| Fifos.ProjectBound | src/pipe_ifcs.bsv:572-576 | no unit queue is longer than the order queue, so room in that one is room in all |
| Fifos.Split34Snoc | src/pipe_ifcs.bsv:571-617 | enqueueing one instruction keeps every queue between stages 3 and 4 the projection of the order queue |
| Fifos.Split34Pop | src/stage4.bsv:116-165 | the head of the order queue and the head of its unit's queue belong to the oldest instruction |
| Fifos.Split45Snoc | src/pipe_ifcs.bsv:619-664 | the same on the way to write-back, including units remapped by fn_fu2cu |
| Fifos.Split45Pop | src/stage5.bsv:167-464 | the head of the order queue and the head of its unit's queue belong to the oldest instruction |
| Fifos.BypassIsOffer | src/pipe_ifcs.bsv:584-594 | the bypass made from the head of the base queue is the oldest result in that buffer |
| Core.Riscv.constructor | src/riscv.bsv:304-314 | after reset the core is in the initial state of the machine |
| Core.Riscv.RaiseFlush | src/riscv.bsv:291-332 | all copies of the epochs toggle together, the fetch restarts and the stall ends |
| Core.Riscv.GenNextPc | src/stage0.bsv:160-235 | within the whole core, does the step of stage 0 |
| Core.Riscv.ProcessInstruction | src/stage1.bsv:208-381 | within the whole core, does the step of stage 1 and enqueues what it sends |
| Core.Riscv.DecodeAndOpfetch | src/stage2.bsv:270-477 | within the whole core, does the step of stage 2 |
| Core.Riscv.DropInstr | src/stage3.bsv:505-508 | does the drop step |
| Core.Riscv.PerformFwding | src/stage3.bsv:398-496 | the wires carry the forwarded value and its availability |
| Core.Riscv.SystemInstr | src/stage3.bsv:513-543 | fires exactly when op1 is available, and then does the issue step |
| Core.Riscv.TrapFromPrev | src/stage3.bsv:547-570 | always fires and does the issue step |
| Core.Riscv.ExeBaseArith | src/stage3.bsv:575-615 | fires exactly when both operands are available, and then does the issue step |
| Core.Riscv.ExeBaseMemory | src/stage3.bsv:625-740 | fires exactly when op1 and op2 are available and does the issue step; the data memory then receives exactly the request for op1 + imm with op2 as data, or nothing if that is misaligned |
| Core.Riscv.ExeBaseControl | src/stage3.bsv:752-885 | fires exactly when op1 and op2 are available and does the issue step; when it toggles the epoch, the fetch continues where the instruction goes with the forwarded operands |
| Core.Riscv.Resolve | src/stage3.bsv:759-791 | the pc: op1 + imm without bit 0 for JALR, pc + imm for JAL and taken branches, the next instruction otherwise; a misprediction if and only if the branch went the other way or the jump is not followed by its target |
| Core.Riscv.MemoryPayload | src/stage3.bsv:627-634 | an address that is no multiple of the size becomes a trap with cause 4 for loads and 6 otherwise, any other one a memory operation |
| Core.Riscv.Enter | src/stage3.bsv:589-606 | the destination is locked under the id the instruction carries, and order entry and payload enter together |
| Core.Riscv.Mbox | src/stage3.bsv:898-930 | the same for mul/div |
| Core.Riscv.Pbox | src/stage3.bsv:939-971 | fires when op1 and op2 are available, whatever the third operand |
| Core.Riscv.FwdOut | src/stage4.bsv:116-165 | moves the oldest result on and does the collect step |
| Core.Riscv.HandleMemory | src/stage4.bsv:183-261 | an answer of another epoch changes nothing; any other one is a fault, a parked operation or data, and does the collect step |
| Core.Riscv.CaptureUnit | src/stage4.bsv:270-292 | the answer of a multi-cycle unit becomes a base result; does the collect step |
| Core.Riscv.WritebackTrap | src/stage5.bsv:167-227 | does the retire step for traps and micro-traps |
| Core.Riscv.WritebackSystem | src/stage5.bsv:233-305 | a firing without the CSR response changes nothing but the wait; the one with it, an xRET, or a drop does the retire step; with funct3 = 0 nothing is requested, no register changes and the fetch goes to the saved pc, with any other funct3 the access is requested exactly once and does not flush |
| Core.Riscv.AwaitCsr | src/stage5.bsv:249-262 | the request is made by the first firing only, and the wait ends with the response |
| Core.Riscv.WritebackBaseout | src/stage5.bsv:310-344 | does the retire step for base results |
| Core.Riscv.WritebackMemop | src/stage5.bsv:354-464 | an IO operation is initiated by the first firing, exactly once, and does the retire step with its response; stores and atomics do it at once |
| Core.Riscv.AwaitIo | src/stage5.bsv:397-402 | the firing that initiates never ends the operation, and the wait ends with the response |
| Core.Riscv.CommitHead | src/stage5.bsv:310-320 | register file, operand registers, lock and log after a commit |
| Core.Riscv.ReleaseHead | src/stage5.bsv:333-343 | a dropped instruction only opens its own lock |
| Core.Riscv.TakeTrap | src/stage5.bsv:197-214 | CSRs updated, fetch redirected to the vector, all copies of wEpoch toggled |
| Core.Riscv.ReturnFromTrap | src/stage5.bsv:240-248 | CSRs updated, fetch redirected to the saved pc |
| Core.Riscv.Fire | src/riscv.bsv:291-332 | any rule, in place, does exactly one step of the machine and keeps queues and epoch copies right |
| Simulation.Simulate | src/stage5.bsv:310-344 | after any run the core's register file and CSRs are the architecture's after the instructions completed |
| Multiplier.UsMult | design_vision_synthesis/usmultiplier/usmultiplier.bsv:23-67 | for all widths: the exact product of unsigned operands, and the product of signed operands modulo 2^(n+m) |
| Multiplier.PartialProducts | design_vision_synthesis/usmultiplier/usmultiplier.bsv:34-37 | the nested loops form the rows with the complemented border |
| Multiplier.Reduce | design_vision_synthesis/usmultiplier/usmultiplier.bsv:48-60 | finished bits, open row and carries together keep the sum of the rows and the constant |
| Multiplier.InitialCarries | design_vision_synthesis/usmultiplier/usmultiplier.bsv:41-46 | the constant, for equal and for different widths |
| Multiplier.FinalValue | design_vision_synthesis/usmultiplier/usmultiplier.bsv:62-65 | the last addition and the finished bits are the sum of rows and constants modulo 2^(n+m) |
| Multiplier.CarrySave | design_vision_synthesis/usmultiplier/usmultiplier.bsv:7-20 | one row of full adders keeps the weighted sum |
| Multiplier.GenCarry | design_vision_synthesis/usmultiplier/usmultiplier.bsv:7-13 | every carry bit is the majority of its column |
| Multiplier.GenSum | design_vision_synthesis/usmultiplier/usmultiplier.bsv:14-20 | every sum bit is the parity of its column |
| Multiplier.UnsignedRows | design_vision_synthesis/usmultiplier/usmultiplier.bsv:34-37 | unsigned rows add up to the product |
| Multiplier.SignedTotal | design_vision_synthesis/usmultiplier/usmultiplier.bsv:34-46 | signed rows add up to the product plus 2^(n+m-1) - 2^(n-1) - 2^(m-1) |
| Multiplier.FirstCarriesVal | design_vision_synthesis/usmultiplier/usmultiplier.bsv:41-46 | the constant entered as first carries is worth 2^(n-1) + 2^(m-1), also when both widths agree |
| BaseAlu.BranchUnitsAgree | src/base_alu.bsv:29-59 | at every width and for all six codes the adder-based and the comparator-based branch units agree, and are the comparison of numbers |
| BaseAlu.AddCorrect | src/base_alu.bsv:65-69 | the one adder adds, and subtracts, modulo 2^n |
| BaseAlu.CompareCorrect | src/base_alu.bsv:75-82 | set-less-than, signed and unsigned |
| BaseAlu.ShiftsCorrect | src/base_alu.bsv:94-112 | the one right shifter with bit reversal computes the left, the logical right and the arithmetic right shift |
| BaseAlu.WordShiftsCorrect | src/base_alu.bsv:94-112 | word shifts followed by the sign extension of stage 3 are the shifts of the lower word |
| BaseAlu.AluAddSub | src/base_alu.bsv:133-147 | results of the add and subtract codes, with pc as first operand where asked for |
| BaseAlu.AluLogic | src/base_alu.bsv:120-126 | codes 6, 7 and 4: every bit of the result is the or, the and, the exclusive or of the two bits |
| BaseAlu.BranchCodes | src/base_alu.bsv:29-59 | codes 2, 3, 12, 13, 14 and 15: equal, not equal, and the signed and unsigned comparisons |
| BaseAlu.AluSetLess | src/base_alu.bsv:133-147 | results of the set-less-than codes |
| BaseAlu.AluShifts | src/base_alu.bsv:133-147 | SLL, SRL and SRA as numbers: times, or divided by, the power of two, the amount taken modulo the width |
| BaseAlu.AluShiftsWord | src/stage3.bsv:576-582 | SLLW, SRLW and SRAW: the shifts of the lower word, sign-extended |
| BaseAlu.AluAddSubWord | src/stage3.bsv:576-582 | ADDW and SUBW: the sign-extended sum and difference of the lower words |
| LineBus.WritesAreWhole | src/ccore.bsv:381-437 | the write channel carries whole writes one after the other, and the beats so far of the line in progress; addresses in the same order |
| LineBus.LinesInOrder | src/ccore.bsv:381-437 | every line the cache gives back goes out exactly once and in order |
| LineBus.BurstIsTheLine | src/ccore.bsv:409-437 | a burst has exactly dblocks beats, one more than its length field says, all strobes set, wlast only on the last, and put together they are the line |
| LineBus.CountersFit | src/ccore.bsv:150-154 | the eight bits of the burst counter and the bits of the shift register are enough in every reachable state |
| LineBus.ReadsInOrder | src/ccore.bsv:338-364 | every line read taken from the cache is sent exactly once and in order, but for one that waits |
| LineBus.NoReadDuringItsWrite | src/ccore.bsv:338-364 | no line read is sent while a burst to its line is in progress |
| BusTraffic.HistoriesAreSteps | src/ccore.bsv:338-446 | on every run: lines given, line reads and responses, computed from the steps alone, are those written out and waiting, sent and waiting, and received |
| BusTraffic.LineBeatsAreSteps | src/ccore.bsv:381-437 | on every run: line beat i * dblocks + j on the channel is part j of the i-th line the steps have given back, with all strobes set and wlast on the last part alone |
| BusTraffic.LineAddrsAreSteps | src/ccore.bsv:381-403 | on every run: the i-th line write address is that of the i-th line of the steps, with length dblocks - 1 |
| BusTraffic.IoReadsAreSteps | src/ccore.bsv:254-262 | on every run: the id-1 read addresses are, one by one, those of the IO reads of the steps |
| BusTraffic.IoWritesAreSteps | src/ccore.bsv:238-271 | on every run: the id-1 write addresses and beats are, one by one, those of the IO writes of the steps; on RV32 and RV64 each aligned one enables its own bytes, which carry its own data |
| BusTraffic.PutAsideExactly | src/ccore.bsv:344-349 | a line read is put aside if and only if a burst to its region is in progress |
| WriteResponses.ReadOvertakesExactly | src/ccore.bsv:328-364 | on every run, a line read that goes out respects the documented order if and only if no line with all its beats out and its response outstanding is its line |
| WriteResponses.RunRespectsExactly | src/ccore.bsv:328-337 | a whole run respects the documented order if and only if every line write is answered before the cache reads the line again |
| WriteResponses.BurstExcluded | src/ccore.bsv:344-349 | during a burst no read of its line is sent |
| WriteResponses.ReadOvertakesResponse | src/ccore.bsv:423-428 | for every geometry and line: a run in which the read is sent after the last beat with the response outstanding |
| WriteResponses.DelayedReadOvertakes | src/ccore.bsv:359-364 | the same for a read that was kept back during the burst |
| WriteResponses.SentIsSent | src/ccore.bsv:338-364 | the reads named in these statements are exactly those that reach the read address channel |
| LineBus.LineInRegion | src/ccore.bsv:345 | for power-of-two sizes addresses of one line agree after the shift by dwords + dblocks |
| CoreBus.BusMaster.HandleReadRequest | src/ccore.bsv:338-355 | the rule, in place, does the step of the model |
| CoreBus.BusMaster.HandleDelayedRead | src/ccore.bsv:359-364 | the rule, in place, does the step of the model |
| CoreBus.BusMaster.HandleWriteRequest | src/ccore.bsv:381-403 | the rule, in place, does the step of the model |
| CoreBus.BusMaster.BurstWriteData | src/ccore.bsv:409-437 | the rule, in place, does the step of the model |
| CoreBus.BusMaster.InitiateIo | src/ccore.bsv:234-273 | does the step of the model; a read sends its own address, a write its own address and one beat whose enabled lanes are its bytes and carry its data |
| CoreBus.BusMaster.DuplicateData | src/ccore.bsv:239-245 | the low bytes are repeated over the beat |
| CoreBus.BusMaster.WriteStrobe | src/ccore.bsv:247-252 | as many ones as bytes, shifted to the byte offset |
| CoreBus.BusMaster.HandleWriteResp | src/ccore.bsv:441-446 | the response is passed on, and changes nothing else |
| IoLanes.IoWriteLanes | src/ccore.bsv:238-252 | for every aligned IO write the enabled lanes are its bytes, and each carries the right byte of the data |
| CoreBus.BusMaster.constructor | src/ccore.bsv:150-154 | the registers after reset |

## Left out

- Cycles: rules are modelled one after the other, in any order. For cycles with a flush `SameCycle` and `FlushedDecode` relate both; for the others the queues and wires decouple the rules, which is not proved.
- Caches, TLBs, page-table walker, csrbox, predictor tables, mbox, fbox and the pbox datapath: they appear as functions or as answers from outside.
- Floating point, hypervisor, supervisor, debug, triggers, performance counters and the commit log dump: extra branches and no harder property.
- Fetch faults and misa.C = 0: stage 1 does not carry the trap flag of a discarded word (src/stage1.bsv:284-288).
- minstret, and what the CSR file and the IO device do between request and response.
- In the state machine a retirement is one step, at the end of the operation; the firings in which write-back waits are in `Core` alone.
- WFI: an instruction like any other; the wait itself is not modelled.
- rs1 of immediate CSR accesses: the decoder's record carries what the CSR file needs.
- Register writes of xRET: its destination is x0, so the commit of rl_writeback_system changes nothing.
- Readiness of the functional units and of the cache: an issue may take place at any time, which includes every delay.
- Refinement.PipelineRefinesIsa: runs in which a PSIMD instruction issues with a wrong third operand are excluded, because the property is false for them; PsimdRuns.IssueIsSafeExactly says exactly when.
- fn_decompress, the individual fn_decode functions, dadda_8, bwMult and multiplier_by4: not part of this model.
- The size, burst type, protection and user fields of the bus channels; read data and IO responses on the bus: they are passed on to the data memory subsystem unchanged.
- P extension: only the accumulation of smalbb is given, for one program; elsewhere the PSIMD unit is any function of its operands.
