/** Which flush can leave a pending micro-trap behind: never one from execute, and one from write-back exactly when
    the instruction decoded last asked for the re-run and its follower has not been decoded. */
module StaleMicrotrap {
  import opened Types
  import opened Isa
  import opened Pipeline
  import opened Invariant
  import opened MicroTraps
  import opened Refinement
  import opened Programs
  import Fetch
  import Scoreboard
  import SameCycle

  /** A redirecting instruction is the last one that decode has accepted, and it asks for no re-run. */
  lemma ExecuteFlushLeavesNone(isa: Arch, cfg: Config, reset: State, resetpc: Pc, steps: seq<Step>, s: State)
    requires Reached(isa, cfg, reset, resetpc, steps, s) && CanIssue(cfg, s) && Redirects(isa, s)
    ensures !s.rerun && !Issue(isa, cfg, s).rerun
  {
    ReachedOk(isa, cfg, reset, resetpc, steps, s);
  }

  /** With a live instruction in flight, a re-run is pending without a stall exactly when the last instruction
      that decode has accepted asked for it. */
  lemma PendingExactly(s: State)
    requires OrderOk(s) && StallOk(s) && MicroOk(s) && Busy(s)
    ensures s.rerun && !s.stall <==> LastAsked(s)
  {
  }

  /** After a flush from write-back the micro-trap is still pending exactly when the last instruction that decode
      has accepted asked for it. */
  lemma WriteBackFlushLeaves(isa: Arch, cfg: Config, reset: State, resetpc: Pc, steps: seq<Step>, s: State, io: IoResp)
    requires Reached(isa, cfg, reset, resetpc, steps, s) && s.x45 != [] && SameCycle.Raised(isa, s, io).Some?
    ensures Retire(isa, s, io).rerun <==> s.rerun && !s.stall
    ensures Retire(isa, s, io).rerun <==> LastAsked(s)
  {
    ReachedOk(isa, cfg, reset, resetpc, steps, s);
    LiveHead(s);
    PendingExactly(s);
    RetiredFlag(isa, s, io);
  }

  lemma RetiredFlag(isa: Arch, s: State, io: IoResp)
    requires s.x45 != [] && SameCycle.Raised(isa, s, io).Some?
    ensures Retire(isa, s, io).rerun <==> s.rerun && !s.stall
  {
    SameCycle.RetireIsCycle(isa, s, io);
  }

  // ---------- a run ----------

  /** A load whose access faults, a CSR access behind it, and the trap handler. */
  const PROGRAM: seq<nat> := [LW_X1, CSRR_X2, ADDI_X2]

  const ARCH: Arch := Machine(PROGRAM, 8)

  const LW: Instr := Instr(MEMORY, 1, 0, 0, IntegerRF, 0, Load, false, 2)
  const CSRR: Instr := Instr(SYSTEM_INSTR, 2, 0, 0, IntegerRF, 0x340, Load, true, 2)
  const ADDI: Instr := Instr(ALU, 2, 0, 0, Constant(7), 7, Load, false, 0)

  lemma Decodings()
    ensures Decode32(LW_X1) == LW && Decode32(CSRR_X2) == CSRR && Decode32(ADDI_X2) == ADDI
  {
  }

  const S1: State := Fetched(RESET, 0, LW_X1).(
    s12 := [], s23 := Some(Dec(TokAt(0, LW_X1, CUR), LW, Normal, LW_X1)), opd := Operand(1, 0, true),
    rerunCause := SFENCE_RERUN)

  const LOAD: Entry := Entry(0, LW, Normal, 0, 0, 0, 0, 0, false, 4, Memory, None)

  const S2: State := S1.(s23 := None, x34 := [LOAD], issued := 1,
                         board := Scoreboard.Board(OPEN[1 := Scoreboard.SBEntry(true, 0)], 1))

  /** The CSR access is decoded: its follower is going to be re-run. */
  const S3: State := Fetched(S2, 4, CSRR_X2).(
    s12 := [], s23 := Some(Dec(TokAt(4, CSRR_X2, CUR), CSRR, Normal, CSRR_X2)), opd := Operand(2, 0, true),
    rerun := true, rerunCause := CSR_RERUN)

  const FAULT: MemResp := RespFault(5, 0)

  const S4: State := S3.(x34 := [], x45 := [LOAD.(out := Trap(5, 0, false), heard := Some(MemFault(5, 0)))])

  const HANDLER: Tag := Tag(false, true, 1)

  /** The load has trapped; the CSR access is stale, and the micro-trap is still pending. */
  const S5: State := S4.(
    f := Fetch.Flush(S4.f, FromWriteBack, 8, false), x45 := [], apc := 8,
    board := Scoreboard.Board(OPEN[1 := Scoreboard.SBEntry(false, 0)], 1),
    log := [Commit(0, MemFault(5, 0), 0, 0, 0, None)])

  const S6: State := S5.(s23 := None)

  /** The first instruction of the handler is run again on behalf of a CSR access that never happened. */
  const S7: State := Fetched(S6, 8, ADDI_X2).(
    s12 := [], s23 := Some(Dec(TokAt(8, ADDI_X2, HANDLER), AsTrap(ADDI, CSR_RERUN), Rerun, 0)),
    op2 := Operand(0, 7, false), opd := Operand(2, 0, true), stall := true, rerun := false, rerunCause := SFENCE_RERUN)

  lemma DecodeLoad()
    ensures Decode(ARCH, Fetched(RESET, 0, LW_X1), None) == S1
  {
    Decodings();
  }

  lemma DecodeCsr()
    ensures Decode(ARCH, Fetched(S2, 4, CSRR_X2), None) == S3
  {
    Decodings();
  }

  lemma DecodeHandler()
    ensures Decode(ARCH, Fetched(S6, 8, ADDI_X2), None) == S7
  {
    Decodings();
  }

  lemma IssueLoad()
    ensures Allowed(ARCH, CFG, S1, StepIssue) && Issue(ARCH, CFG, S1) == S2
  {
  }

  lemma CollectFault()
    ensures CanCollect(CFG, S3, FAULT) && Collect(ARCH, S3, FAULT) == S4
  {
  }

  lemma RetireLoad()
    ensures Retire(ARCH, S4, IoData(0)) == S5 && SameCycle.Raised(ARCH, S4, IoData(0)).Some?
  {
  }

  lemma DropCsr()
    ensures CanDrop(S5) && Drop(S5) == S6
  {
  }

  const TO_FAULT: seq<Step> := FETCH + ([StepIssue] + (FETCH + [StepCollect(FAULT)]))

  lemma FaultComes()
    ensures Leads(ARCH, CFG, S3, [StepCollect(FAULT)], S4)
  {
    CollectFault();
    LeadsStep(ARCH, CFG, S3, StepCollect(FAULT), S4, [], S4);
  }

  lemma CsrThenFault()
    ensures Leads(ARCH, CFG, S2, FETCH + [StepCollect(FAULT)], S4)
  {
    FaultComes();
    DecodeCsr();
    FetchThen(PROGRAM, 8, S2, 4, S3, [StepCollect(FAULT)], S4);
  }

  lemma LoadIssues()
    ensures Leads(ARCH, CFG, S1, [StepIssue] + (FETCH + [StepCollect(FAULT)]), S4)
  {
    CsrThenFault();
    IssueLoad();
    LeadsStep(ARCH, CFG, S1, StepIssue, S2, FETCH + [StepCollect(FAULT)], S4);
  }

  lemma FaultReached()
    ensures Reached(ARCH, CFG, RESET, 0, TO_FAULT, S4)
  {
    LoadIssues();
    DecodeLoad();
    FetchThen(PROGRAM, 8, RESET, 0, S1, [StepIssue] + (FETCH + [StepCollect(FAULT)]), S4);
    ResetOk(PROGRAM, 8);
  }

  const TO_HANDLER: seq<Step> := [StepRetire(IoData(0))] + ([StepDrop] + (FETCH + []))

  lemma HandlerDecoded()
    ensures Leads(ARCH, CFG, S6, FETCH + [], S7)
  {
    DecodeHandler();
    FetchThen(PROGRAM, 8, S6, 8, S7, [], S7);
  }

  lemma HandlerReached()
    ensures Leads(ARCH, CFG, S4, TO_HANDLER, S7)
  {
    HandlerDecoded();
    DropCsr();
    LeadsStep(ARCH, CFG, S5, StepDrop, S6, FETCH + [], S7);
    RetireLoad();
    LeadsStep(ARCH, CFG, S4, StepRetire(IoData(0)), S5, [StepDrop] + (FETCH + []), S7);
  }

  /** A reached run in which a faulting load retires while a CSR access is decoded behind it: the flush leaves the
      micro-trap pending, and the first instruction of the trap handler, which nothing asked to be run again, is
      turned into it. */
  lemma FlagSurvives()
    ensures Reached(ARCH, CFG, RESET, 0, TO_FAULT, S4) && S4.rerun && !S4.stall
    ensures Retire(ARCH, S4, IoData(0)).f.cur != S4.f.cur && Retire(ARCH, S4, IoData(0)).rerun
    ensures Leads(ARCH, CFG, S4, TO_HANDLER, S7) && S7.apc == 8
    ensures S7.s23.value.tok.pc == 8 && S7.s23.value.how.Rerun? && S7.s23.value.ins.funct == CSR_RERUN
  {
    FaultReached();
    RetireLoad();
    HandlerReached();
  }
}
