/** The architecture once more, as a relation between the state before and after one instruction, written out per
    instruction type.  It names none of the functions that the pipeline and the one-instruction-at-a-time machine
    share. */
module Architecture {
  import opened Types
  import opened Isa
  import opened Pipeline
  import opened Refinement
  import opened Reference

  /** The trap goes to its vector, and no register changes. */
  predicate Trapped(isa: Arch, s: Hart, cause: nat, tval: Word, s': Hart) {
    && s'.pc == isa.trapPc(s.csr, cause, s.pc, tval) && s'.csr == isa.trapCsr(s.csr, cause, s.pc, tval)
    && s'.regs == s.regs
  }

  /** Register rd, unless it is x0, holds v; all others are as they were. */
  predicate Wrote(s: Hart, rd: nat, v: Word, s': Hart) {
    && |s'.regs| == |s.regs|
    && forall r :: 0 <= r < |s.regs| ==> s'.regs[r] == if r == rd && r != 0 then v else s.regs[r]
  }

  /** What the record of an instruction that does not trap says. */
  predicate Noted(c: Commit, op1: Word, op2: Word, opd: Word, rd: nat, v: Word) {
    c.op1 == op1 && c.op2 == op2 && c.opd == opd && c.wrote == if rd == 0 then None else Some(v)
  }

  predicate NotedNothing(c: Commit, op1: Word, op2: Word, opd: Word) {
    c.op1 == op1 && c.op2 == op2 && c.opd == opd && c.wrote.None?
  }

  /** A load, store, atomic or fence.  Fences use no second operand. */
  predicate MemoryCompletes(isa: Arch, s: Hart, ins: Instr, env: Env, a: Word, b: Word, next: Pc, s': Hart, c: Commit) {
    var addr := (a + ins.imm) % WORD_MOD;
    var data := if ins.access == Fence || ins.access == FenceI then 0 else b;
    if addr % AccessBytes(ins.funct) != 0 then
      && env.Plain? && Trapped(isa, s, if ins.access == Load then 4 else 6, addr, s') && NotedNothing(c, a, data, 0)
    else
      match env
      case MemFault(cause, at) => Trapped(isa, s, cause, at, s') && NotedNothing(c, a, data, 0)
      case MemData(v) => s'.pc == next && s'.csr == s.csr && Wrote(s, ins.rd, v, s') && Noted(c, a, data, 0, ins.rd, v)
      case MemDone => ins.access == Store && s' == s.(pc := next) && NotedNothing(c, a, data, 0)
      case _ => false
  }

  /** Branches and jumps; offsets of branches and JAL are even. */
  predicate ControlCompletes(isa: Arch, s: Hart, ins: Instr, a: Word, b: Word, next: Pc, s': Hart, c: Commit) {
    && s'.csr == s.csr
    && match ins.itype
       case BRANCH =>
         && s'.regs == s.regs && NotedNothing(c, a, b, 0)
         && if isa.taken(ins, a, b) then Even((s.pc + ins.imm) % WORD_MOD, s'.pc) else s'.pc == next
       case JAL =>
         && Wrote(s, ins.rd, next, s') && Noted(c, a, b, 0, ins.rd, next)
         && Even((s.pc + ins.imm) % WORD_MOD, s'.pc)
       case JALR =>
         && Wrote(s, ins.rd, next, s') && Noted(c, a, b, 0, ins.rd, next)
         && Even((a + ins.imm) % WORD_MOD, s'.pc)
       case _ => false
  }

  /** funct3 is 0 for the xRET family, and anything else for a CSR access. */
  predicate SystemCompletes(isa: Arch, s: Hart, ins: Instr, a: Word, next: Pc, s': Hart, c: Commit) {
    if ins.funct % 8 == 0 then
      && s' == Hart(isa.retPc(ins, s.csr), s.regs, isa.retCsr(ins, s.csr)) && NotedNothing(c, a, 0, 0)
    else
      && s'.pc == next && s'.csr == isa.csrWrite(ins, s.csr, a)
      && Wrote(s, ins.rd, isa.csrRead(ins, s.csr, a), s')
      && Noted(c, a, 0, 0, ins.rd, isa.csrRead(ins, s.csr, a))
  }

  /** A result of the ALU, of mul/div or of the PSIMD unit. */
  predicate ResultCompletes(s: Hart, rd: nat, v: Word, next: Pc, s': Hart) {
    s'.pc == next && s'.csr == s.csr && Wrote(s, rd, v, s')
  }

  predicate InstrCompletes(isa: Arch, s: Hart, bits: int, ins: Instr, env: Env, next: Pc, s': Hart, c: Commit)
    requires ins.rs1 < |s.regs| && ins.rs2 < |s.regs| && ins.rd < |s.regs|
  {
    var (a, d) := (s.regs[ins.rs1], s.regs[ins.rd]);
    var b := match ins.src2 case Constant(v) => v case IntegerRF => s.regs[ins.rs2];
    match ins.itype
    case TRAP =>
      env.Plain? && Trapped(isa, s, ins.funct, isa.tval(bits, s.pc, ins.funct), s') && NotedNothing(c, 0, 0, 0)
    case ALU =>
      var v := isa.alu(ins, s.pc, a, b);
      env.Plain? && ResultCompletes(s, ins.rd, v, next, s') && Noted(c, a, b, 0, ins.rd, v)
    case MULDIV =>
      var v := isa.muldiv(ins, a, b);
      env.Plain? && ResultCompletes(s, ins.rd, v, next, s') && Noted(c, a, b, 0, ins.rd, v)
    case PSIMD =>
      var v := isa.psimd(ins, a, b, d);
      env.Plain? && ResultCompletes(s, ins.rd, v, next, s') && Noted(c, a, b, d, ins.rd, v)
    case SYSTEM_INSTR => env.Plain? && SystemCompletes(isa, s, ins, a, next, s', c)
    case MEMORY => MemoryCompletes(isa, s, ins, env, a, b, next, s', c)
    case BRANCH => env.Plain? && ControlCompletes(isa, s, ins, a, b, next, s', c)
    case JAL => env.Plain? && ControlCompletes(isa, s, ins, a, b, next, s', c)
    case JALR => env.Plain? && ControlCompletes(isa, s, ins, a, b, next, s', c)
  }

  /** From s, and with the contribution env of the outside world, one instruction leads to s' and is recorded as c.
      A parcel that ends in 11 starts a 32-bit instruction (RISC-V Unprivileged ISA 20191213, section 1.5). */
  predicate Completes(isa: Arch, s: Hart, env: Env, s': Hart, c: Commit) {
    var low: int := isa.imem(s.pc);
    var wide := low % 4 == 3;
    var bits := if wide then low + 0x1_0000 * isa.imem((s.pc + 2) % WORD_MOD) else low;
    var next: Pc := if wide then (s.pc + 4) % WORD_MOD else (s.pc + 2) % WORD_MOD;
    var ins := isa.decode(bits, s.csr);
    && c.pc == s.pc && c.env == env
    && ins.rs1 < |s.regs| && ins.rs2 < |s.regs| && ins.rd < |s.regs|
    && if env.Interrupt? then
         && isa.interruptible(s.csr, env.cause) && NotedNothing(c, 0, 0, 0)
         && Trapped(isa, s, env.cause, isa.tval(bits, s.pc, env.cause), s')
       else InstrCompletes(isa, s, bits, ins, env, next, s', c)
  }

  // ---------- it is the machine of the refinement ----------

  lemma FetchedAt(isa: Arch, p: Pc)
    ensures var low := isa.imem(p);
      if low % 4 == 3 then
        && FetchBits(isa, p) == low + 0x1_0000 * isa.imem((p + 2) % WORD_MOD)
        && Following(isa, p) == (p + 4) % WORD_MOD
      else FetchBits(isa, p) == low && Following(isa, p) == (p + 2) % WORD_MOD
  {
  }

  lemma MisalignedIs(ins: Instr, addr: Word)
    ensures Misaligned(ins, addr) <==> addr % AccessBytes(ins.funct) != 0
  {
  }

  lemma MemoryAgrees(isa: Arch, s: Hart, env: Env)
    requires var ins := DecodeAt(isa, s.pc, s.csr);
      ins.itype.MEMORY? && ins.rs1 < |s.regs| && ins.rs2 < |s.regs| && ins.rd < |s.regs|
    requires Permits(isa, s, env) && !env.Interrupt?
    ensures var ins := DecodeAt(isa, s.pc, s.csr);
      MemoryCompletes(isa, s, ins, env, s.regs[ins.rs1], Second(ins, s.regs), Following(isa, s.pc),
        Execute(isa, s, env), Observe(isa, s, env))
  {
    var ins := DecodeAt(isa, s.pc, s.csr);
    MisalignedIs(ins, EffectiveAddress(ins, s.regs[ins.rs1]));
  }

  lemma ControlAgrees(isa: Arch, s: Hart)
    requires var ins := DecodeAt(isa, s.pc, s.csr);
      && (ins.itype.BRANCH? || ins.itype.JAL? || ins.itype.JALR?) && (ins.itype.BRANCH? ==> ins.rd == 0)
      && ins.rs1 < |s.regs| && ins.rs2 < |s.regs| && ins.rd < |s.regs|
    ensures var ins := DecodeAt(isa, s.pc, s.csr);
      ControlCompletes(isa, s, ins, s.regs[ins.rs1], Second(ins, s.regs), Following(isa, s.pc),
        Execute(isa, s, Plain), Observe(isa, s, Plain))
  {
  }

  /** Whatever the one-instruction-at-a-time machine does is what the relation says. */
  lemma ExecuteCompletes(isa: Arch, nregs: nat, s: Hart, env: Env)
    requires WellFormed(isa, nregs) && |s.regs| == nregs && Permits(isa, s, env)
    ensures Completes(isa, s, env, Execute(isa, s, env), Observe(isa, s, env))
  {
    FetchedAt(isa, s.pc);
    var ins := DecodeAt(isa, s.pc, s.csr);
    assert DecodeOk(ins, nregs);
    if !env.Interrupt? {
      if ins.itype.MEMORY? {
        MemoryAgrees(isa, s, env);
      } else if ins.itype.BRANCH? || ins.itype.JAL? || ins.itype.JALR? {
        ControlAgrees(isa, s);
      }
    }
  }

  lemma SameRegs(s: Hart, rd: nat, v: Word, s': Hart)
    requires Wrote(s, rd, v, s') && rd < |s.regs|
    ensures s'.regs == Write(s.regs, rd, v)
  {
  }

  lemma MemoryOnly(isa: Arch, s: Hart, env: Env, s': Hart, c: Commit)
    requires var ins := DecodeAt(isa, s.pc, s.csr);
      && ins.itype.MEMORY? && ins.rs1 < |s.regs| && ins.rs2 < |s.regs| && ins.rd < |s.regs|
      && MemoryCompletes(isa, s, ins, env, s.regs[ins.rs1], Second(ins, s.regs), Following(isa, s.pc), s', c)
    requires c.pc == s.pc && c.env == env && !env.Interrupt?
    ensures Permits(isa, s, env) && s' == Execute(isa, s, env) && c == Observe(isa, s, env)
  {
    var ins := DecodeAt(isa, s.pc, s.csr);
    MisalignedIs(ins, EffectiveAddress(ins, s.regs[ins.rs1]));
    if env.MemData? && Wrote(s, ins.rd, env.value, s') {
      SameRegs(s, ins.rd, env.value, s');
    }
  }

  lemma ControlOnly(isa: Arch, s: Hart, s': Hart, c: Commit)
    requires var ins := DecodeAt(isa, s.pc, s.csr);
      && (ins.itype.BRANCH? || ins.itype.JAL? || ins.itype.JALR?) && (ins.itype.BRANCH? ==> ins.rd == 0)
      && ins.rs1 < |s.regs| && ins.rs2 < |s.regs| && ins.rd < |s.regs|
      && ControlCompletes(isa, s, ins, s.regs[ins.rs1], Second(ins, s.regs), Following(isa, s.pc), s', c)
    requires c.pc == s.pc && c.env == Plain
    ensures s' == Execute(isa, s, Plain) && c == Observe(isa, s, Plain)
  {
    var ins := DecodeAt(isa, s.pc, s.csr);
    if !ins.itype.BRANCH? {
      SameRegs(s, ins.rd, Following(isa, s.pc), s');
    }
  }

  lemma OthersOnly(isa: Arch, nregs: nat, s: Hart, s': Hart, c: Commit)
    requires WellFormed(isa, nregs) && |s.regs| == nregs && Completes(isa, s, Plain, s', c)
    requires var ins := DecodeAt(isa, s.pc, s.csr); !ins.itype.MEMORY? && !IsControl(ins)
    ensures s' == Execute(isa, s, Plain) && c == Observe(isa, s, Plain)
  {
    FetchedAt(isa, s.pc);
    var ins := DecodeAt(isa, s.pc, s.csr);
    assert DecodeOk(ins, nregs);
    if !ins.itype.TRAP? && !IsXRet(ins) {
      SameRegs(s, ins.rd, Result(isa, s, ins, Plain), s');
    }
  }

  lemma InterruptOnly(isa: Arch, s: Hart, env: Env, s': Hart, c: Commit)
    requires env.Interrupt? && Completes(isa, s, env, s', c)
    ensures Permits(isa, s, env) && s' == Execute(isa, s, env) && c == Observe(isa, s, env)
  {
    FetchedAt(isa, s.pc);
  }

  /** The relation allows nothing else. */
  lemma OnlyExecute(isa: Arch, nregs: nat, s: Hart, env: Env, s': Hart, c: Commit)
    requires WellFormed(isa, nregs) && |s.regs| == nregs && Completes(isa, s, env, s', c)
    ensures Permits(isa, s, env) && s' == Execute(isa, s, env) && c == Observe(isa, s, env)
  {
    FetchedAt(isa, s.pc);
    var ins := DecodeAt(isa, s.pc, s.csr);
    assert DecodeOk(ins, nregs);
    if env.Interrupt? {
      InterruptOnly(isa, s, env, s', c);
    } else if ins.itype.MEMORY? {
      MemoryOnly(isa, s, env, s', c);
    } else if IsControl(ins) {
      ControlOnly(isa, s, s', c);
    } else {
      OthersOnly(isa, nregs, s, s', c);
    }
  }

  /** The relation holds exactly of what the one-instruction-at-a-time machine does and records. */
  lemma CompletesExactly(isa: Arch, nregs: nat, s: Hart, env: Env, s': Hart, c: Commit)
    requires WellFormed(isa, nregs) && |s.regs| == nregs
    ensures Completes(isa, s, env, s', c)
      <==> Permits(isa, s, env) && s' == Execute(isa, s, env) && c == Observe(isa, s, env)
  {
    if Completes(isa, s, env, s', c) {
      OnlyExecute(isa, nregs, s, env, s', c);
    } else if Permits(isa, s, env) {
      ExecuteCompletes(isa, nregs, s, env);
    }
  }

  // ---------- runs ----------

  lemma {:induction false} RunShape(isa: Arch, first: Hart, log: seq<Commit>)
    ensures |RunTo(isa, first, log).regs| == |first.regs|
    decreases |log|
  {
    if log == [] {
    } else {
      RunShape(isa, first, log[..|log| - 1]);
    }
  }

  lemma {:induction false} RecordAt(isa: Arch, first: Hart, log: seq<Commit>, i: nat)
    requires Records(isa, first, log) && i < |log|
    ensures var s := RunTo(isa, first, log[..i]);
      && Permits(isa, s, log[i].env) && log[i] == Observe(isa, s, log[i].env)
      && RunTo(isa, first, log[..i + 1]) == Execute(isa, s, log[i].env)
    decreases |log|
  {
    var n := |log| - 1;
    if i < n {
      assert log[..n][..i] == log[..i] && log[..n][..i + 1] == log[..i + 1];
      RecordAt(isa, first, log[..n], i);
    } else {
      assert log[..i + 1] == log && log[..i + 1][..i] == log[..i];
    }
  }

  /** On every run, each record of the log is what the relation says of the state the instructions before it have
      left, and the register file and the CSRs are those of the last state. */
  lemma LogCompletes(isa: Arch, cfg: Config, reset: State, resetpc: Pc, steps: seq<Step>, s: State, i: nat)
    requires Reached(isa, cfg, reset, resetpc, steps, s) && i < |s.log|
    ensures var first := FirstHart(reset, resetpc);
      && Completes(isa, RunTo(isa, first, s.log[..i]), s.log[i].env, RunTo(isa, first, s.log[..i + 1]), s.log[i])
      && RunTo(isa, first, s.log) == Hart(s.apc, s.regs, s.csr)
  {
    var first := FirstHart(reset, resetpc);
    PipelineRefinesIsa(isa, cfg, reset, resetpc, steps, s);
    RecordAt(isa, first, s.log, i);
    RunShape(isa, first, s.log[..i]);
    ExecuteCompletes(isa, cfg.nregs, RunTo(isa, first, s.log[..i]), s.log[i].env);
  }
}
