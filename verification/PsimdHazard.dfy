/** The third operand of a PSIMD instruction is not interlocked: a run that uses a stale register. */
module PsimdHazard {
  import opened Types
  import opened Isa
  import opened Pipeline
  import opened Spine
  import opened Invariant
  import opened Refinement
  import opened Programs
  import Scoreboard
  import Bypass
  import IssueProofs

  /** x2 is set to 7 and x1 to 7 * 7, and then 0 * 0 is accumulated on x1. */
  const PROGRAM: seq<nat> := [ADDI_X2, MUL_X1, SMALBB_X1]

  const ARCH: Arch := Machine(PROGRAM, 0)

  const ADDI: Instr := Instr(ALU, 2, 0, 0, Constant(7), 7, Load, false, 0)
  const MUL: Instr := Instr(MULDIV, 1, 2, 2, IntegerRF, 0x22, Load, false, 0)
  const SMALBB: Instr := Instr(PSIMD, 1, 0, 0, IntegerRF, -0x780, Load, false, 1)

  lemma DecodesAddi()
    ensures Decode32(ADDI_X2) == ADDI
  {
  }

  lemma DecodesMul()
    ensures Decode32(MUL_X1) == MUL
  {
  }

  lemma DecodesSmalbb()
    ensures Decode32(SMALBB_X1) == SMALBB
  {
    assert Opcode(SMALBB_X1) == 0x77 && Funct3(SMALBB_X1) == 1 && Funct7(SMALBB_X1) == 0x44;
    assert Rd(SMALBB_X1) == 1 && Rs1(SMALBB_X1) == 0 && Rs2(SMALBB_X1) == 0;
    assert SMALBB_X1 / 0x10_0000 == 0x880;
  }

  /** x2 and x1 are locked, then x1 under the next id, then x1 alone, then none. */
  const LOCKS0: seq<Scoreboard.SBEntry> := OPEN[2 := Scoreboard.SBEntry(true, 0)][1 := Scoreboard.SBEntry(true, 1)]
  const LOCKS1: seq<Scoreboard.SBEntry> := OPEN[2 := Scoreboard.SBEntry(true, 0)][1 := Scoreboard.SBEntry(true, 2)]
  const LOCKS2: seq<Scoreboard.SBEntry> := OPEN[2 := Scoreboard.SBEntry(false, 0)][1 := Scoreboard.SBEntry(true, 2)]
  const LOCKS3: seq<Scoreboard.SBEntry> := OPEN[2 := Scoreboard.SBEntry(false, 0)][1 := Scoreboard.SBEntry(false, 2)]

  const S1: State := Fetched(RESET, 0, ADDI_X2).(
    s12 := [], s23 := Some(Dec(TokAt(0, ADDI_X2, CUR), ADDI, Normal, 0)),
    op2 := Operand(0, 7, false), opd := Operand(2, 0, true), rerunCause := SFENCE_RERUN)

  const E0: Entry := Entry(0, ADDI, Normal, 0, 7, 0, 0, 0, false, 4, Base(7), None)

  const S2: State := S1.(s23 := None, x34 := [E0], issued := 1,
                         board := Scoreboard.Board(OPEN[2 := Scoreboard.SBEntry(true, 0)], 1))

  const S3: State := Fetched(S2, 4, MUL_X1).(
    s12 := [], s23 := Some(Dec(TokAt(4, MUL_X1, CUR), MUL, Normal, 0)),
    op1 := Operand(2, 0, true), op2 := Operand(2, 0, true), opd := Operand(1, 0, true))

  /** Both operands come over the bypass. */
  const E1: Entry := Entry(4, MUL, Normal, 7, 7, 0, 1, 1, false, 8, MulDiv, None)

  const S4: State := S3.(s23 := None, x34 := [E0, E1], issued := 2,
                         board := Scoreboard.Board(LOCKS0, 2))

  /** The product is not there when the PSIMD instruction is ready to issue. */
  const S5: State := Fetched(S4, 8, SMALBB_X1).(
    s12 := [], s23 := Some(Dec(TokAt(8, SMALBB_X1, CUR), SMALBB, Normal, 0)),
    op1 := ZERO, op2 := ZERO, opd := Operand(1, 0, true))

  const E2: Entry := Entry(8, SMALBB, Normal, 0, 0, 0, 2, 2, false, 12, Psimd, None)

  const S6: State := S5.(s23 := None, x34 := [E0, E1, E2], issued := 3,
                         board := Scoreboard.Board(LOCKS1, 3))

  const S7: State := S6.(x34 := [E1, E2], x45 := [E0])
  const S8: State := S7.(x34 := [E2], x45 := [E0, E1.(out := Base(49))])
  const S9: State := S8.(x34 := [], x45 := [E0, E1.(out := Base(49)), E2.(out := Base(0))])

  const C0: Commit := Commit(0, Plain, 0, 7, 0, Some(7))
  const C1: Commit := Commit(4, Plain, 7, 7, 0, Some(49))
  const C2: Commit := Commit(8, Plain, 0, 0, 0, Some(0))

  const S10: State := S9.(x45 := [E1.(out := Base(49)), E2.(out := Base(0))], regs := ZEROS[2 := 7], apc := 4,
                          board := Scoreboard.Board(LOCKS2, 3), log := [C0])

  const S11: State := S10.(x45 := [E2.(out := Base(0))], regs := ZEROS[2 := 7][1 := 49], opd := Operand(1, 49, true),
                           apc := 8, log := [C0, C1])

  const S12: State := S11.(x45 := [], regs := ZEROS[2 := 7][1 := 49][1 := 0], opd := Operand(1, 0, true), apc := 12,
                           board := Scoreboard.Board(LOCKS3, 3), log := [C0, C1, C2])

  // ---------- to the issue ----------

  lemma DecodeAddi()
    ensures Decode(ARCH, Fetched(RESET, 0, ADDI_X2), None) == S1
  {
    DecodesAddi();
  }

  lemma IssueAddi()
    ensures Allowed(ARCH, CFG, S1, StepIssue) && Issue(ARCH, CFG, S1) == S2
  {
  }

  lemma DecodeMul()
    ensures Decode(ARCH, Fetched(S2, 4, MUL_X1), None) == S3
  {
    DecodesMul();
  }

  lemma MulOperand(o: Operand)
    requires o.addr == 2
    ensures Forward(S3, o) == (true, 7)
  {
  }

  lemma IssueMul()
    ensures Allowed(ARCH, CFG, S3, StepIssue) && Issue(ARCH, CFG, S3) == S4
  {
    MulOperand(S3.op1);
    MulOperand(S3.op2);
    assert [E0] + [E1] == [E0, E1];
  }

  lemma DecodeSmalbb()
    ensures Decode(ARCH, Fetched(S4, 8, SMALBB_X1), None) == S5
  {
    DecodesSmalbb();
  }

  const BEFORE: seq<Step> := FETCH + ([StepIssue] + (FETCH + ([StepIssue] + (FETCH + []))))

  lemma SmalbbFetched()
    ensures Leads(ARCH, CFG, S4, FETCH + [], S5)
  {
    DecodeSmalbb();
    FetchThen(PROGRAM, 0, S4, 8, S5, [], S5);
  }

  lemma MulIssues()
    ensures Leads(ARCH, CFG, S3, [StepIssue] + (FETCH + []), S5)
  {
    SmalbbFetched();
    IssueMul();
    LeadsStep(ARCH, CFG, S3, StepIssue, S4, FETCH + [], S5);
  }

  lemma MulFetched()
    ensures Leads(ARCH, CFG, S2, FETCH + ([StepIssue] + (FETCH + [])), S5)
  {
    MulIssues();
    DecodeMul();
    FetchThen(PROGRAM, 0, S2, 4, S3, [StepIssue] + (FETCH + []), S5);
  }

  lemma AddiIssues()
    ensures Leads(ARCH, CFG, S1, [StepIssue] + (FETCH + ([StepIssue] + (FETCH + []))), S5)
  {
    MulFetched();
    IssueAddi();
    LeadsStep(ARCH, CFG, S1, StepIssue, S2, FETCH + ([StepIssue] + (FETCH + [])), S5);
  }

  lemma IssueReached()
    ensures Reached(ARCH, CFG, RESET, 0, BEFORE, S5)
  {
    AddiIssues();
    DecodeAddi();
    FetchThen(PROGRAM, 0, RESET, 0, S1, [StepIssue] + (FETCH + ([StepIssue] + (FETCH + []))), S5);
    ResetOk(PROGRAM, 0);
  }

  // ---------- the issue ----------

  lemma Heads()
    ensures HeadBase([E0, E1]) == Some(E0) && Offer(S5.x34) == Bypass.FwdType(true, 2, 7, false, 0)
    ensures Forward(S5, S5.opd) == (false, 0) && Forward(S5, ZERO) == (true, 0)
  {
  }

  /** rl_pbox fires although x1 is locked, and takes the old x1. */
  lemma IssueSmalbb()
    ensures Fires(ARCH, CFG, S5, StepIssue) && Issue(ARCH, CFG, S5) == S6 && !Available(S5, S5.opd)
  {
    Heads();
    assert [E0, E1] + [E2] == [E0, E1, E2];
  }

  lemma YoungestIsMul()
    ensures Scoreboard.Youngest(Holders([E0, E1]), 1) == 1
  {
  }

  lemma NotDoomed()
    ensures !AtIssue(ARCH, S5).doomed
  {
    assert InFlight(S5) == [E0] + [E1];
    ScanSnoc(ARCH, false, Arrived(S5), [E0], E1);
    assert [] + [E0] == [E0];
    ScanSnoc(ARCH, false, Arrived(S5), [], E0);
  }

  lemma WrongOperand()
    ensures !IssueProofs.OpdRight(ARCH, S5)
  {
    IssueSmalbb();
    NotDoomed();
    YoungestIsMul();
    assert InFlight(S5) == [E0, E1];
  }

  // ---------- to the wrong record ----------

  const DATA: MemResp := RespData(0)
  const IO: IoResp := IoData(0)

  lemma CollectAddi()
    ensures CanCollect(CFG, S6, DATA) && Collect(ARCH, S6, DATA) == S7
  {
  }

  lemma CollectMul()
    ensures CanCollect(CFG, S7, DATA) && Collect(ARCH, S7, DATA) == S8
  {
  }

  lemma CollectSmalbb()
    ensures CanCollect(CFG, S8, DATA) && Collect(ARCH, S8, DATA) == S9
  {
  }

  lemma RetireAddi()
    ensures Retire(ARCH, S9, IO) == S10
  {
  }

  lemma RetireMul()
    ensures Retire(ARCH, S10, IO) == S11
  {
  }

  lemma RetireSmalbb()
    ensures Retire(ARCH, S11, IO) == S12
  {
  }

  const AFTER: seq<Step> :=
    [StepCollect(DATA)] + ([StepCollect(DATA)] + ([StepCollect(DATA)] + RETIRES))

  const RETIRES: seq<Step> := [StepRetire(IO)] + ([StepRetire(IO)] + ([StepRetire(IO)] + []))

  lemma AllRetire()
    ensures Leads(ARCH, CFG, S9, RETIRES, S12)
  {
    RetireSmalbb();
    LeadsStep(ARCH, CFG, S11, StepRetire(IO), S12, [], S12);
    RetireMul();
    LeadsStep(ARCH, CFG, S10, StepRetire(IO), S11, [StepRetire(IO)] + [], S12);
    RetireAddi();
    LeadsStep(ARCH, CFG, S9, StepRetire(IO), S10, [StepRetire(IO)] + ([StepRetire(IO)] + []), S12);
  }

  lemma AllComplete()
    ensures Leads(ARCH, CFG, S6, AFTER, S12)
  {
    AllRetire();
    CollectSmalbb();
    LeadsStep(ARCH, CFG, S8, StepCollect(DATA), S9, RETIRES, S12);
    CollectMul();
    LeadsStep(ARCH, CFG, S7, StepCollect(DATA), S8, [StepCollect(DATA)] + RETIRES, S12);
    CollectAddi();
    LeadsStep(ARCH, CFG, S6, StepCollect(DATA), S7, [StepCollect(DATA)] + ([StepCollect(DATA)] + RETIRES), S12);
  }

  const FIRST: Hart := Hart(0, ZEROS, 0)

  const SECOND: Hart := Hart(4, ZEROS[2 := 7], 0)

  const THIRD: Hart := Hart(8, ZEROS[2 := 7][1 := 49], 0)

  lemma ExecuteAddi()
    ensures Execute(ARCH, FIRST, Plain) == SECOND
  {
    InstructionAt(PROGRAM, 0, 0);
    DecodesAddi();
  }

  lemma ExecuteMul()
    ensures Execute(ARCH, SECOND, Plain) == THIRD
  {
    InstructionAt(PROGRAM, 0, 4);
    DecodesMul();
  }

  /** The architecture accumulates on 49. */
  lemma ObserveSmalbb()
    ensures Observe(ARCH, THIRD, Plain).opd == 49
  {
    InstructionAt(PROGRAM, 0, 8);
    DecodesSmalbb();
  }

  lemma TwoInstructions(log: seq<Commit>)
    requires |log| == 2 && log[0].env == Plain && log[1].env == Plain
    ensures RunTo(ARCH, FIRST, log) == THIRD
  {
    assert log[..1][..0] == [];
    assert RunTo(ARCH, FIRST, log[..1]) == Execute(ARCH, FIRST, Plain);
    ExecuteAddi();
    ExecuteMul();
  }

  lemma WrongRecord(log: seq<Commit>)
    requires |log| == 3 && log[0].env == log[1].env == log[2].env == Plain && log[2].opd == 0
    ensures !Records(ARCH, FIRST, log)
  {
    TwoInstructions(log[..2]);
    ObserveSmalbb();
  }

  lemma WrongLog()
    ensures !Records(ARCH, FirstHart(RESET, 0), S12.log)
  {
    WrongRecord(S12.log);
  }

  /** A run that completes a PSIMD instruction with a stale third operand, every rule firing when it may: the
      state before its issue is reached, the condition on the third operand fails there, and the record of the
      run says that x1 was 0 where the architecture has 49. */
  lemma StaleThirdOperand()
    ensures Reached(ARCH, CFG, RESET, 0, BEFORE, S5)
    ensures Fires(ARCH, CFG, S5, StepIssue) && !IssueProofs.OpdRight(ARCH, S5)
    ensures Leads(ARCH, CFG, Issue(ARCH, CFG, S5), AFTER, S12)
    ensures S12.log[2].opd == 0 && !Records(ARCH, FirstHart(RESET, 0), S12.log)
  {
    IssueReached();
    IssueSmalbb();
    WrongOperand();
    AllComplete();
    WrongLog();
  }
}
