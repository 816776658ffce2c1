/** The one-instruction-at-a-time machine: the architecture the pipeline has to implement. */
module Isa {
  import opened Types

  /** The parts of the architecture that the pipeline treats as black boxes: the instruction memory,
      the decoder, the functional units and the CSR file. */
  datatype Arch = Arch(
    imem: Pc -> Half,
    decode: (int, Csr) -> Instr,
    interruptible: (Csr, nat) -> bool,
    tval: (int, Pc, nat) -> Word,
    alu: (Instr, Pc, Word, Word) -> Word,
    taken: (Instr, Word, Word) -> bool,
    muldiv: (Instr, Word, Word) -> Word,
    psimd: (Instr, Word, Word, Word) -> Word,
    csrRead: (Instr, Csr, Word) -> Word,
    csrWrite: (Instr, Csr, Word) -> Csr,
    retPc: (Instr, Csr) -> Pc,
    retCsr: (Instr, Csr) -> Csr,
    trapPc: (Csr, nat, Pc, Word) -> Pc,
    trapCsr: (Csr, nat, Pc, Word) -> Csr)

  /** The architectural state. */
  datatype Hart = Hart(pc: Pc, regs: seq<Word>, csr: Csr)

  /** What the outside world contributes to one instruction: nothing, an interrupt, or the answer of
      the data memory (a value, the acceptance of a store, a fault). */
  datatype Env = Plain | Interrupt(cause: nat) | MemData(value: Word) | MemDone | MemFault(cause: nat, addr: Word)

  /** The record kept for every instruction that completes or traps. */
  datatype Commit = Commit(pc: Pc, env: Env, op1: Word, op2: Word, opd: Word, wrote: Option<Word>)

  /** The instruction bits at p: one parcel, or two when the first one ends in 11
      (RISC-V Unprivileged ISA 20191213, section 1.5). */
  function FetchBits(isa: Arch, p: Pc): int {
    if Is32(isa.imem(p)) then isa.imem(p) + 0x1_0000 * isa.imem(Plus2(p)) else isa.imem(p)
  }

  function Following(isa: Arch, p: Pc): Pc {
    if Is32(isa.imem(p)) then Plus4(p) else Plus2(p)
  }

  function DecodeAt(isa: Arch, p: Pc, csr: Csr): Instr {
    isa.decode(FetchBits(isa, p), csr)
  }

  function Read(regs: seq<Word>, r: nat): Word { if r < |regs| then regs[r] else 0 }

  /** x0 stays zero. */
  function Write(regs: seq<Word>, r: nat, v: Word): seq<Word> {
    if 0 < r < |regs| then regs[r := v] else regs
  }

  function Second(ins: Instr, regs: seq<Word>): Word {
    if ins.src2.Constant? then ins.src2.value else Read(regs, ins.rs2)
  }

  function EffectiveAddress(ins: Instr, base: Word): Word { (base + ins.imm) % WORD_MOD }

  /** funct[1:0] is the log2 of the access size. */
  predicate Misaligned(ins: Instr, addr: Word) {
    || (ins.funct % 4 == 1 && addr % 2 != 0)
    || (ins.funct % 4 == 2 && addr % 4 != 0)
    || (ins.funct % 4 == 3 && addr % 8 != 0)
  }

  function MisalignedCause(ins: Instr): nat { if ins.access.Load? then 4 else 6 }

  /** Offsets of branches and JAL are even; JALR clears bit 0 of the sum. */
  function Target(ins: Instr, pc: Pc, op1: Word): Pc {
    var sum := ((if ins.itype.JALR? then op1 else pc) + ins.imm) % WORD_MOD;
    sum - sum % 2
  }

  predicate Jumps(isa: Arch, ins: Instr, op1: Word, op2: Word) {
    ins.itype.JAL? || ins.itype.JALR? || (ins.itype.BRANCH? && isa.taken(ins, op1, op2))
  }

  function NextPc(isa: Arch, ins: Instr, pc: Pc, op1: Word, op2: Word): Pc {
    if Jumps(isa, ins, op1, op2) then Target(ins, pc, op1) else Following(isa, pc)
  }

  function TakeTrap(isa: Arch, s: Hart, cause: nat, tval: Word): Hart {
    Hart(isa.trapPc(s.csr, cause, s.pc, tval), s.regs, isa.trapCsr(s.csr, cause, s.pc, tval))
  }

  function Faults(s: Hart, ins: Instr): bool {
    Misaligned(ins, EffectiveAddress(ins, Read(s.regs, ins.rs1)))
  }

  /** The contributions of the outside world that fit the instruction at s.pc. */
  predicate Permits(isa: Arch, s: Hart, env: Env) {
    var ins := DecodeAt(isa, s.pc, s.csr);
    match env
    case Interrupt(c) => isa.interruptible(s.csr, c)
    case Plain => !ins.itype.MEMORY? || Faults(s, ins)
    case MemDone => ins.itype.MEMORY? && !Faults(s, ins) && ins.access.Store?
    case MemData(_) => ins.itype.MEMORY? && !Faults(s, ins)
    case MemFault(_, _) => ins.itype.MEMORY? && !Faults(s, ins)
  }

  /** The value an instruction writes to its destination. */
  function Result(isa: Arch, s: Hart, ins: Instr, env: Env): Word {
    var a := Read(s.regs, ins.rs1);
    var b := Second(ins, s.regs);
    match ins.itype
    case ALU => isa.alu(ins, s.pc, a, b)
    case MULDIV => isa.muldiv(ins, a, b)
    case PSIMD => isa.psimd(ins, a, b, Read(s.regs, ins.rd))
    case SYSTEM_INSTR => isa.csrRead(ins, s.csr, a)
    case MEMORY => if env.MemData? then env.value else 0
    case BRANCH => 0
    case JAL => Following(isa, s.pc)
    case JALR => Following(isa, s.pc)
    case TRAP => 0
  }

  predicate Writes(ins: Instr, env: Env) {
    !ins.itype.TRAP? && !ins.itype.BRANCH? && !IsXRet(ins) && !env.MemDone?
  }

  /** One instruction. */
  function Execute(isa: Arch, s: Hart, env: Env): Hart {
    var bits := FetchBits(isa, s.pc);
    var ins := isa.decode(bits, s.csr);
    var a := Read(s.regs, ins.rs1);
    if env.Interrupt? then TakeTrap(isa, s, env.cause, isa.tval(bits, s.pc, env.cause))
    else if env.MemFault? then TakeTrap(isa, s, env.cause, env.addr)
    else if ins.itype.TRAP? then TakeTrap(isa, s, ins.funct, isa.tval(bits, s.pc, ins.funct))
    else if ins.itype.MEMORY? && Faults(s, ins) then
      TakeTrap(isa, s, MisalignedCause(ins), EffectiveAddress(ins, a))
    else if IsXRet(ins) then Hart(isa.retPc(ins, s.csr), s.regs, isa.retCsr(ins, s.csr))
    else
      Hart(NextPc(isa, ins, s.pc, a, Second(ins, s.regs)),
            if Writes(ins, env) then Write(s.regs, ins.rd, Result(isa, s, ins, env)) else s.regs,
            if ins.itype.SYSTEM_INSTR? then isa.csrWrite(ins, s.csr, a) else s.csr)
  }

  /** The record of one instruction, computed from the architectural state alone. */
  function Observe(isa: Arch, s: Hart, env: Env): Commit {
    var ins := DecodeAt(isa, s.pc, s.csr);
    var traps := env.Interrupt? || env.MemFault? || ins.itype.TRAP? || (ins.itype.MEMORY? && Faults(s, ins));
    Commit(s.pc, env,
           if env.Interrupt? || !NeedsOp1(ins) then 0 else Read(s.regs, ins.rs1),
           if env.Interrupt? || !NeedsOp2(ins) || IsFence(ins) then 0 else Second(ins, s.regs),
           if env.Interrupt? || !NeedsOpd(ins) then 0 else Read(s.regs, ins.rd),
           if !traps && Writes(ins, env) && ins.rd != 0 then Some(Result(isa, s, ins, env)) else None)
  }

  /** Where the machine is after the instructions recorded in `log`. */
  function RunTo(isa: Arch, first: Hart, log: seq<Commit>): Hart
    decreases |log|
  {
    if log == [] then first
    else Execute(isa, RunTo(isa, first, log[..|log| - 1]), log[|log| - 1].env)
  }

  /** `log` is exactly what the machine records when it starts in `first` and meets the answers of the
      outside world that `log` contains. */
  predicate Records(isa: Arch, first: Hart, log: seq<Commit>)
    decreases |log|
  {
    log == [] ||
    var n := |log| - 1;
    var s := RunTo(isa, first, log[..n]);
    Records(isa, first, log[..n]) && Permits(isa, s, log[n].env) && log[n] == Observe(isa, s, log[n].env)
  }

  lemma RecordsStep(isa: Arch, first: Hart, log: seq<Commit>, env: Env)
    requires Records(isa, first, log) && Permits(isa, RunTo(isa, first, log), env)
    ensures var more := log + [Observe(isa, RunTo(isa, first, log), env)];
      Records(isa, first, more) && RunTo(isa, first, more) == Execute(isa, RunTo(isa, first, log), env)
  {
    var more := log + [Observe(isa, RunTo(isa, first, log), env)];
    assert more[..|more| - 1] == log;
  }

  /** What the decoder guarantees about every instruction. */
  predicate DecodeOk(ins: Instr, nregs: nat) {
    && ins.rd < nregs && ins.rs1 < nregs && ins.rs2 < nregs
    && (NeedsOp2(ins) && ins.src2.Constant? ==> ins.rs2 == 0 || IsFence(ins))
    && (ins.itype.SYSTEM_INSTR? ==> ins.microtrap)
    && (IsControl(ins) ==> !ins.microtrap)
    && (IsXRet(ins) ==> ins.rd == 0)
    && (ins.itype.BRANCH? ==> ins.rd == 0)
    && (ins.itype.MEMORY? && ins.access.Store? ==> ins.rd == 0)
  }

  ghost predicate WellFormed(isa: Arch, nregs: nat) {
    forall bits, csr :: DecodeOk(isa.decode(bits, csr), nregs)
  }
}
