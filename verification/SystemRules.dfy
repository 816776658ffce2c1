/** CSR accesses and returns from traps, told apart by funct3 alone. */
module SystemRules {
  import opened Types
  import opened Isa
  import opened Pipeline
  import opened Spine
  import opened Invariant
  import opened Refinement
  import opened Programs
  import Scoreboard
  import BackProofs

  /** A return goes to the saved pc with a flush and writes no register. */
  predicate Returned(isa: Arch, s: State, ins: Instr, s': State) {
    && s'.f.pc == s'.apc == isa.retPc(ins, s.csr) && s'.csr == isa.retCsr(ins, s.csr)
    && s'.f.cur.w == !s.f.cur.w && s'.f.cur.e == s.f.cur.e && !s'.f.fence
    && s'.regs == s.regs
  }

  /** A CSR access writes the value read, and does not flush. */
  predicate Accessed(isa: Arch, s: State, ins: Instr, op1: Word, s': State) {
    && s'.f == s.f && s'.csr == isa.csrWrite(ins, s.csr, op1)
    && |s'.regs| == |s.regs|
    && forall r :: 0 <= r < |s.regs| ==>
         s'.regs[r] == if r == ins.rd && r != 0 then isa.csrRead(ins, s.csr, op1) else s.regs[r]
  }

  lemma SystemHead(isa: Arch, cfg: Config, s: State)
    requires ShapeOk(cfg, s) && OrderOk(s) && SpineOk(isa, s) && s.x45 != []
    requires s.x45[0].w == s.f.cur.w && s.x45[0].ins.itype == SYSTEM_INSTR
    ensures var e := s.x45[0];
      e.out.System? && e.ins.rs1 < |s.regs| && e.op1 == s.regs[e.ins.rs1] && e.ins.rd < |s.regs|
  {
    BackProofs.HeadIsNext(isa, cfg, s);
  }

  lemma ServedByFunct(isa: Arch, s: State)
    requires s.x45 != [] && s.x45[0].ins.itype == SYSTEM_INSTR
    ensures var (e, s') := (s.x45[0], RetireSystem(isa, s));
      if e.ins.funct % 8 == 0 then Returned(isa, s, e.ins, s') else Accessed(isa, s, e.ins, e.op1, s')
  {
  }

  /** In every reached state in which a live SYSTEM instruction retires: with funct3 = 0 it returns from a trap, with
      any other funct3 it accesses the CSRs with the architectural rs1. */
  lemma SystemRetires(isa: Arch, cfg: Config, reset: State, resetpc: Pc, steps: seq<Step>, s: State, io: IoResp)
    requires Reached(isa, cfg, reset, resetpc, steps, s) && s.x45 != []
    requires s.x45[0].w == s.f.cur.w && s.x45[0].ins.itype == SYSTEM_INSTR
    ensures var (e, s') := (s.x45[0], Retire(isa, s, io));
      && e.ins.rs1 < |s.regs| && e.op1 == s.regs[e.ins.rs1]
      && if e.ins.funct % 8 == 0 then Returned(isa, s, e.ins, s') else Accessed(isa, s, e.ins, e.op1, s')
  {
    ReachedOk(isa, cfg, reset, resetpc, steps, s);
    SystemHead(isa, cfg, s);
    ServedByFunct(isa, s);
  }

  // ---------- a return from a trap ----------

  const PROGRAM: seq<nat> := [MRET]

  const ARCH: Arch := Machine(PROGRAM, 8)

  const RETURN: Instr := Instr(SYSTEM_INSTR, 0, 0, 0, IntegerRF, 0x302, Load, true, 0)

  lemma Decodes()
    ensures Decode32(MRET) == RETURN
  {
  }

  const S1: State := Fetched(RESET, 0, MRET).(
    s12 := [], s23 := Some(Dec(TokAt(0, MRET, CUR), RETURN, Normal, 0)), rerun := true, rerunCause := CSR_RERUN)

  const E: Entry := Entry(0, RETURN, Normal, 0, 0, 0, 0, 0, false, 4, System, None)

  const S2: State := S1.(s23 := None, x34 := [E], issued := 1, board := Scoreboard.Board(OPEN, 1))

  const S3: State := S2.(x34 := [], x45 := [E])

  lemma DecodeReturn()
    ensures Decode(ARCH, Fetched(RESET, 0, MRET), None) == S1
  {
    Decodes();
  }

  lemma IssueReturn()
    ensures Allowed(ARCH, CFG, S1, StepIssue) && Issue(ARCH, CFG, S1) == S2
  {
  }

  lemma CollectReturn()
    ensures CanCollect(CFG, S2, RespData(0)) && Collect(ARCH, S2, RespData(0)) == S3
  {
  }

  lemma ReturnReached()
    ensures Reached(ARCH, CFG, RESET, 0, FETCH + ([StepIssue] + ([StepCollect(RespData(0))] + [])), S3)
  {
    CollectReturn();
    LeadsStep(ARCH, CFG, S2, StepCollect(RespData(0)), S3, [], S3);
    IssueReturn();
    LeadsStep(ARCH, CFG, S1, StepIssue, S2, [StepCollect(RespData(0))] + [], S3);
    DecodeReturn();
    FetchThen(PROGRAM, 8, RESET, 0, S1, [StepIssue] + ([StepCollect(RespData(0))] + []), S3);
    ResetOk(PROGRAM, 8);
  }

  /** mret at pc 0: the fetch goes on at mepc, and not behind the instruction. */
  lemma MretReturns()
    ensures Reached(ARCH, CFG, RESET, 0, FETCH + ([StepIssue] + ([StepCollect(RespData(0))] + [])), S3)
    ensures var s' := Retire(ARCH, S3, IoData(0));
      && s'.f.pc == s'.apc == MEPC && MEPC != 4 && s'.f.cur == Tag(false, true, 1)
      && s'.regs == ZEROS && s'.log == [Commit(0, Plain, 0, 0, 0, None)]
  {
    ReturnReached();
  }
}
