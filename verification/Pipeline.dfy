/** The five-stage pipeline as a state machine: every rule of the hardware is one atomic step, and a flush
    belongs to the step that raises it. */
module Pipeline {
  import opened Types
  import opened Isa
  import Fetch
  import Scoreboard
  import Bypass

  /** Queue depths, register count and the number of rename ids. */
  datatype Config = Config(nregs: nat, s01: nat, s12: nat, s34: nat, s45: nat, ids: nat)

  predicate ConfigOk(cfg: Config) {
    cfg.nregs > 0 && cfg.s01 > 0 && cfg.s12 > 0 && cfg.s34 > 0 && cfg.s45 > 0 && cfg.s34 + cfg.s45 <= cfg.ids
  }

  /** How decode obtained the instruction: as fetched, as a micro-trap, or as an interrupt. */
  datatype How = Normal | Rerun | Interrupted(cause: nat)

  /** The decoded instruction in front of the execute stage. */
  datatype Dec = Dec(tok: Fetch.Tok, ins: Instr, how: How, tval: Word)

  /** An operand register of the decode stage, kept fresh by commits when it holds a register. */
  datatype Operand = Operand(addr: nat, data: Word, isReg: bool)

  /** Which result queue an instruction is in, with its payload. */
  datatype Out = Base(value: Word) | Trap(cause: nat, tval: Word, rerun: bool) | System | Memory
               | MulDiv | Psimd | MemOp(io: bool, word: Word)

  /** An instruction between issue and write-back.  serial, npc and heard, what the data memory has answered,
      are history variables; so are the operands once the payload no longer needs them. */
  datatype Entry = Entry(pc: Pc, ins: Instr, how: How, op1: Word, op2: Word, opd: Word,
                         serial: nat, id: nat, w: bool, npc: Pc, out: Out, heard: Option<Env>)

  /** x34 and x45 are the instructions between stages 3-4 and 4-5, oldest first.  issued, apc and log are
      history variables: the number of issues, the next pc to complete, the completed instructions. */
  datatype State = State(
    f: Fetch.Unit, s12: seq<Fetch.Tok>, s23: Option<Dec>,
    op1: Operand, op2: Operand, opd: Operand,
    stall: bool, rerun: bool, rerunCause: nat,
    board: Scoreboard.Board, x34: seq<Entry>, x45: seq<Entry>,
    regs: seq<Word>, csr: Csr,
    issued: nat, apc: Pc, log: seq<Commit>)

  const FENCEI_RERUN: nat := 1
  const SFENCE_RERUN: nat := 2
  const CSR_RERUN: nat := 3

  predicate Live(s: State, t: Tag) { SameEpochs(t, s.f.cur) }

  /** A redirect: the fetch restarts and all epoch copies toggle.  The decode stage leaves its stall, and
      forgets a pending micro-trap only if it was stalled. */
  function FlushAll(s: State, who: Flusher, newpc: Pc, fence: bool): State {
    s.(f := Fetch.Flush(s.f, who, newpc, fence), stall := false, rerun := s.rerun && !s.stall)
  }

  // ---------- stages 0 and 1 ----------

  predicate CanGen(cfg: Config, s: State) { |s.f.queue| < cfg.s01 }

  function Gen(s: State, resp: Fetch.Prediction): State { s.(f := Fetch.GenNextPc(s.f, resp)) }

  predicate CanProcess(cfg: Config, s: State) { s.f.queue != [] && |s.s12| < cfg.s12 }

  function Process(isa: Arch, s: State): State
    requires s.f.queue != []
  {
    var (f, out) := Fetch.Process(isa, s.f);
    s.(f := f, s12 := if out.Some? then s.s12 + [out.value] else s.s12)
  }

  // ---------- stage 2 ----------

  predicate CanDecode(isa: Arch, s: State, irq: Option<nat>) {
    && s.s12 != [] && s.s23.None? && !s.stall
    && (irq.Some? ==> isa.interruptible(s.csr, irq.value))
  }

  function Decoded(isa: Arch, s: State, t: Fetch.Tok, irq: Option<nat>): Dec {
    var raw := isa.decode(t.bits, s.csr);
    var ins := if s.rerun then AsTrap(raw, s.rerunCause)
               else if irq.Some? then AsTrap(raw, irq.value) else raw;
    Dec(t, ins, if s.rerun then Rerun else if irq.Some? then Interrupted(irq.value) else Normal,
        isa.tval(t.bits, t.pc, ins.funct))
  }

  /** decode_and_opfetch: a stale instruction is dropped; a live one is decoded, its operands are read,
      a trap stalls the stage, and a CSR access or a fence marks the next instruction for a re-run. */
  function Decode(isa: Arch, s: State, irq: Option<nat>): State
    requires s.s12 != []
  {
    var t := s.s12[0];
    var s1 := s.(s12 := s.s12[1..]);
    if !Live(s, t.tag) then s1
    else
      var d := Decoded(isa, s, t, irq);
      s1.(s23 := Some(d),
          op1 := Operand(d.ins.rs1, Read(s.regs, d.ins.rs1), true),
          op2 := Operand(d.ins.rs2, Second(d.ins, s.regs), d.ins.src2.IntegerRF?),
          opd := Operand(d.ins.rd, Read(s.regs, d.ins.rd), true),
          stall := d.ins.itype.TRAP?,
          rerun := isa.decode(t.bits, s.csr).microtrap && !s.rerun,
          rerunCause := if d.ins.itype.SYSTEM_INSTR? then CSR_RERUN
                        else if d.ins.access.FenceI? then FENCEI_RERUN else SFENCE_RERUN)
  }

  // ---------- stage 3 ----------

  predicate CanDrop(s: State) { s.s23.Some? && !Live(s, s.s23.value.tok.tag) }

  /** rl_drop_instr */
  function Drop(s: State): State { s.(s23 := None) }

  /** The head of the base queue: the oldest entry with a result. */
  function HeadBase(x: seq<Entry>): Option<Entry>
    decreases |x|
  {
    if x == [] then None else if x[0].out.Base? then Some(x[0]) else HeadBase(x[1..])
  }

  /** rl_gen_bypass of the two inter-stage buffers. */
  function Offer(x: seq<Entry>): Bypass.FwdType {
    match HeadBase(x)
    case None => Bypass.FwdType(false, 0, 0, false, 0)
    case Some(e) =>
      var v := if e.out.Base? then e.out.value else 0;
      Bypass.FwdType(e.ins.rd != 0, e.ins.rd, v, e.w, e.id)
  }

  function Request(s: State, r: nat): Bypass.BypassReq {
    if r < |s.board.entries| then
      Bypass.BypassReq(r, s.f.cur.w, s.board.entries[r].lock, s.board.entries[r].id)
    else Bypass.BypassReq(r, s.f.cur.w, false, 0)
  }

  /** rl_perform_fwding for one operand. */
  function Forward(s: State, o: Operand): (bool, Word) {
    Bypass.Choose(Request(s, o.addr),
                  [Offer(s.x34), Offer(s.x45), Bypass.FwdType(true, o.addr, o.data, s.f.cur.w, 0)])
  }

  predicate Available(s: State, o: Operand) { Forward(s, o).0 }

  function Value(s: State, o: Operand): Word { Forward(s, o).1 }

  /** All conditions of the issue rules except the readiness of the functional units.  PSIMD waits for
      op1 and op2 only. */
  predicate CanIssue(cfg: Config, s: State) {
    && s.s23.Some? && Live(s, s.s23.value.tok.tag) && |s.x34| < cfg.s34
    && var ins := s.s23.value.ins;
    && (NeedsOp1(ins) ==> Available(s, s.op1))
    && (NeedsOp2(ins) ==> Available(s, s.op2))
    && (IsControl(ins) ==> s.s12 != [])
  }

  function Sequential(t: Fetch.Tok): Pc { if t.compressed then Plus2(t.pc) else Plus4(t.pc) }

  /** The direction a control instruction takes, and the pc it goes to. */
  function ResolvedPc(isa: Arch, d: Dec, a: Word, b: Word): Pc {
    if d.ins.itype.BRANCH? && !isa.taken(d.ins, a, b) then Sequential(d.tok) else Target(d.ins, d.tok.pc, a)
  }

  /** Branches compare the direction with the prediction; jumps compare the target with the pc of the
      next instruction in the pipe. */
  predicate Mispredicted(isa: Arch, d: Dec, a: Word, b: Word, following: Pc) {
    if d.ins.itype.BRANCH? then isa.taken(d.ins, a, b) != d.tok.taken
    else following != Target(d.ins, d.tok.pc, a)
  }

  /** What the issue rules enqueue for the instruction. */
  function OutOf(isa: Arch, d: Dec, a: Word, b: Word): Out {
    match d.ins.itype
    case TRAP => Trap(d.ins.funct, d.tval, d.how.Rerun?)
    case ALU => Base(isa.alu(d.ins, d.tok.pc, a, b))
    case MULDIV => MulDiv
    case PSIMD => Psimd
    case SYSTEM_INSTR => System
    case MEMORY =>
      var addr := EffectiveAddress(d.ins, a);
      if Misaligned(d.ins, addr) then Trap(MisalignedCause(d.ins), addr, false) else Memory
    case BRANCH => Base(Sequential(d.tok))
    case JAL => Base(Sequential(d.tok))
    case JALR => Base(Sequential(d.tok))
  }

  function Issued(isa: Arch, s: State): Entry
    requires s.s23.Some?
  {
    var d := s.s23.value;
    var (a, b, c) := (Value(s, s.op1), Value(s, s.op2), Value(s, s.opd));
    Entry(d.tok.pc, d.ins, d.how, a, b, c, s.issued, s.board.renameid, s.f.cur.w,
          if IsControl(d.ins) then ResolvedPc(isa, d, a, b) else Sequential(d.tok), OutOf(isa, d, a, b), None)
  }

  /** The issue before any redirect: the destination is locked, the instruction enters the result queues. */
  function Entered(isa: Arch, cfg: Config, s: State): State
    requires s.s23.Some? && cfg.ids > 0
  {
    s.(s23 := None, x34 := s.x34 + [Issued(isa, s)], issued := s.issued + 1,
       board := Scoreboard.Lock(s.board, s.s23.value.ins.rd, cfg.ids))
  }

  predicate Redirects(isa: Arch, s: State)
    requires s.s23.Some? && (IsControl(s.s23.value.ins) ==> s.s12 != [])
  {
    var (d, e) := (s.s23.value, Issued(isa, s));
    IsControl(d.ins) && Mispredicted(isa, d, e.op1, e.op2, s.s12[0].pc)
  }

  /** rl_system_instr, rl_trap_from_prev, rl_exe_base_arith, rl_exe_base_memory, rl_exe_base_control,
      rl_mbox and rl_pbox. */
  function Issue(isa: Arch, cfg: Config, s: State): State
    requires s.s23.Some? && cfg.ids > 0
    requires IsControl(s.s23.value.ins) ==> s.s12 != []
  {
    if Redirects(isa, s) then FlushAll(Entered(isa, cfg, s), FromExecute, Issued(isa, s).npc, false)
    else Entered(isa, cfg, s)
  }

  /** A request to the data memory; atomicOp is funct[0] in front of funct[6:3]. */
  datatype DMemRequest = DMemRequest(address: Word, epochs: bool, size: nat, fence: bool, access: Access,
                                     writedata: Word, atomicOp: nat)

  /** What an issue puts on wr_memory_request: a misaligned access stays inside. */
  function Requested(s: State): Option<DMemRequest>
    requires s.s23.Some?
  {
    var ins := s.s23.value.ins;
    var addr := EffectiveAddress(ins, Value(s, s.op1));
    if ins.itype.MEMORY? && !Misaligned(ins, addr) then
      Some(DMemRequest(addr, s.f.cur.w, ins.funct % 8, IsFence(ins), ins.access, Value(s, s.op2),
                       ins.funct % 2 * 16 + ins.funct / 8 % 16))
    else None
  }

  // ---------- stage 4 ----------

  /** The answer of the data memory subsystem to a request. */
  datatype MemResp = RespFault(cause: nat, addr: Word) | RespAlloc(io: bool, word: Word) | RespData(value: Word)

  /** Stores and atomics may be parked in the store buffer; other allocations are IO. */
  predicate CanCollect(cfg: Config, s: State, resp: MemResp) {
    && s.x34 != [] && |s.x45| < cfg.s45
    && (s.x34[0].out.Memory? && resp.RespAlloc? && !resp.io ==>
          s.x34[0].ins.access.Store? || s.x34[0].ins.access.Atomic?)
  }

  /** What a response means for the architecture: nothing yet when it only starts an IO operation. */
  function AnswerOf(resp: MemResp, access: Access): Option<Env> {
    match resp
    case RespFault(c, a) => Some(MemFault(c, a))
    case RespData(v) => Some(MemData(v))
    case RespAlloc(io, word) => if io then None else if access.Atomic? then Some(MemData(word)) else Some(MemDone)
  }

  /** rl_fwd_baseout, rl_fwd_systemout, rl_fwd_trapout, rl_handle_memory, rl_capture_muldiv and
      rl_capture_psimd. */
  function Collected(isa: Arch, e: Entry, resp: MemResp): Entry {
    match e.out
    case Memory =>
      var e1 := e.(heard := AnswerOf(resp, e.ins.access));
      (match resp
       case RespFault(c, a) => e1.(out := Trap(c, a, false))
       case RespAlloc(io, word) => e1.(out := MemOp(io, word))
       case RespData(v) => e1.(out := Base(v)))
    case MulDiv => e.(out := Base(isa.muldiv(e.ins, e.op1, e.op2)))
    case Psimd => e.(out := Base(isa.psimd(e.ins, e.op1, e.op2, e.opd)))
    case _ => e
  }

  function Collect(isa: Arch, s: State, resp: MemResp): State
    requires s.x34 != []
  {
    s.(x34 := s.x34[1..], x45 := s.x45 + [Collected(isa, s.x34[0], resp)])
  }

  // ---------- stage 5 ----------

  /** The answer to an IO operation initiated by the write-back stage. */
  datatype IoResp = IoFault(cause: nat, addr: Word) | IoData(value: Word)

  /** ma_commit_rd on an operand register. */
  function Refresh(o: Operand, rd: nat, v: Word): Operand {
    if o.addr == rd && rd != 0 && o.isReg then o.(data := v) else o
  }

  function Pop(s: State): State
    requires s.x45 != []
  {
    s.(x45 := s.x45[1..])
  }

  /** wr_commit with unlock_only. */
  function PopRelease(s: State): State
    requires s.x45 != []
  {
    var e := s.x45[0];
    s.(x45 := s.x45[1..], board := Scoreboard.Release(s.board, e.ins.rd, e.id))
  }

  function RecordOf(e: Entry, env: Env, wrote: Option<Word>): Commit {
    Commit(e.pc, env, if NeedsOp1(e.ins) then e.op1 else 0,
           if NeedsOp2(e.ins) && !IsFence(e.ins) then e.op2 else 0,
           if NeedsOpd(e.ins) then e.opd else 0, wrote)
  }

  /** wr_commit with data: the register file, the operand registers and the scoreboard are updated. */
  function WriteBack(s: State, env: Env, v: Word): State
    requires s.x45 != []
  {
    var e := s.x45[0];
    PopRelease(s).(regs := Write(s.regs, e.ins.rd, v),
                   op1 := Refresh(s.op1, e.ins.rd, v),
                   op2 := Refresh(s.op2, e.ins.rd, v),
                   opd := Refresh(s.opd, e.ins.rd, v),
                   apc := e.npc,
                   log := s.log + [RecordOf(e, env, if e.ins.rd != 0 then Some(v) else None)])
  }

  /** The contribution of the outside world to an instruction. */
  function EnvOf(e: Entry): Env {
    if e.how.Interrupted? then Interrupt(e.how.cause) else if e.heard.Some? then e.heard.value else Plain
  }

  function IoAnswer(io: IoResp): Env {
    match io
    case IoFault(c, a) => MemFault(c, a)
    case IoData(v) => MemData(v)
  }

  function TakeTrapAt(isa: Arch, s: State, e: Entry, env: Env, cause: nat, tval: Word): State {
    var newpc := isa.trapPc(s.csr, cause, e.pc, tval);
    FlushAll(s.(csr := isa.trapCsr(s.csr, cause, e.pc, tval), apc := newpc, log := s.log + [RecordOf(e, env, None)]),
             FromWriteBack, newpc, false)
  }

  /** rl_writeback_trap */
  function RetireTrap(isa: Arch, s: State): State
    requires s.x45 != [] && s.x45[0].out.Trap?
  {
    var e := s.x45[0];
    if e.out.rerun then FlushAll(PopRelease(s), FromWriteBack, e.pc, e.out.cause == FENCEI_RERUN)
    else TakeTrapAt(isa, PopRelease(s), e, EnvOf(e), e.out.cause, e.out.tval)
  }

  /** rl_writeback_system, at the end of a CSR access. */
  function RetireSystem(isa: Arch, s: State): State
    requires s.x45 != []
  {
    var e := s.x45[0];
    if IsXRet(e.ins) then
      var newpc := isa.retPc(e.ins, s.csr);
      FlushAll(PopRelease(s).(csr := isa.retCsr(e.ins, s.csr), apc := newpc,
                              log := s.log + [RecordOf(e, Plain, None)]),
               FromWriteBack, newpc, false)
    else
      WriteBack(s, Plain, isa.csrRead(e.ins, s.csr, e.op1)).(csr := isa.csrWrite(e.ins, s.csr, e.op1))
  }

  /** rl_writeback_memop, when the operation is over.  A cached store sends no commit at all. */
  function RetireMemOp(isa: Arch, s: State, io: IoResp): State
    requires s.x45 != [] && s.x45[0].out.MemOp?
  {
    var e := s.x45[0];
    if !e.out.io then
      if e.ins.access.Atomic? then WriteBack(s, EnvOf(e), e.out.word)
      else Pop(s).(apc := e.npc, log := s.log + [RecordOf(e, EnvOf(e), None)])
    else
      match io
      case IoFault(c, a) => TakeTrapAt(isa, PopRelease(s), e, IoAnswer(io), c, a)
      case IoData(v) => WriteBack(s, IoAnswer(io), v)
  }

  /** The write-back stage: commit when the epoch matches, otherwise only release. */
  function Retire(isa: Arch, s: State, io: IoResp): State
    requires s.x45 != []
  {
    var e := s.x45[0];
    if e.w != s.f.cur.w then PopRelease(s)
    else
      match e.out
      case Trap(_, _, _) => RetireTrap(isa, s)
      case Base(v) => WriteBack(s, EnvOf(e), v)
      case System => RetireSystem(isa, s)
      case MemOp(_, _) => RetireMemOp(isa, s, io)
      case _ => s
  }

  // ---------- steps ----------

  datatype Step = StepGen(resp: Fetch.Prediction) | StepProcess | StepDecode(irq: Option<nat>)
                | StepDrop | StepIssue | StepCollect(resp4: MemResp) | StepRetire(io: IoResp)

  predicate Can(isa: Arch, cfg: Config, s: State, step: Step) {
    match step
    case StepGen(_) => CanGen(cfg, s)
    case StepProcess => CanProcess(cfg, s)
    case StepDecode(irq) => CanDecode(isa, s, irq)
    case StepDrop => CanDrop(s)
    case StepIssue => CanIssue(cfg, s)
    case StepCollect(resp) => CanCollect(cfg, s, resp)
    case StepRetire(_) => s.x45 != []
  }

  function Next(isa: Arch, cfg: Config, s: State, step: Step): State
    requires ConfigOk(cfg) && Can(isa, cfg, s, step)
  {
    match step
    case StepGen(resp) => Gen(s, resp)
    case StepProcess => Process(isa, s)
    case StepDecode(irq) => Decode(isa, s, irq)
    case StepDrop => Drop(s)
    case StepIssue => Issue(isa, cfg, s)
    case StepCollect(resp) => Collect(isa, s, resp)
    case StepRetire(io) => Retire(isa, s, io)
  }

  /** Reset: the pipeline is empty and fetches from resetpc. */
  predicate Init(cfg: Config, s: State, resetpc: Pc) {
    && s.f.pc == resetpc && s.f.delayed.None? && s.f.queue == [] && !s.f.checkPrev
    && s.f.cur == Tag(false, false, 0) && s.f.cursor == Fetch.Cursor(resetpc, None, false)
    && s.s12 == [] && s.s23.None? && !s.stall && !s.rerun
    && |s.board.entries| == cfg.nregs && s.board.renameid == 0
    && (forall r :: 0 <= r < cfg.nregs ==> !s.board.entries[r].lock)
    && s.x34 == [] && s.x45 == []
    && |s.regs| == cfg.nregs && (forall r :: 0 <= r < cfg.nregs ==> s.regs[r] == 0)
    && s.issued == 0 && s.apc == resetpc && s.log == []
  }
}
