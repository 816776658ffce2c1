/** The core with all its registers and queues, updated in place.  Every rule is proved to do, on the
    abstract state, exactly one step of the pipeline machine. */
module Core {
  import opened Types
  import opened Isa
  import opened Pipeline
  import opened Fifos
  import opened RegisterFiles
  import opened FetchUnit
  import opened DecodeUnit
  import opened Reference
  import Fetch
  import Bypass
  import Scoreboard

  /** History: the number of issues, the next pc to complete, the completed instructions. */
  datatype History = History(issued: nat, apc: Pc, log: seq<Commit>)

  /** Decode touches nothing but its own registers and the two queues beside it. */
  lemma DecodeSets(isa: Arch, s: State, irq: Option<nat>)
    requires s.s12 != []
    ensures var t := Decode(isa, s, irq);
      t == s.(s12 := s.s12[1..], s23 := t.s23, op1 := t.op1, op2 := t.op2, opd := t.opd,
              stall := t.stall, rerun := t.rerun, rerunCause := t.rerunCause)
  {
  }

  /** The operands as the bypass network delivers them. */
  datatype Wires = Wires(avail1: bool, fwd1: Word, avail2: bool, fwd2: Word, availd: bool, fwdd: Word)

  function WiresOf(s: State): Wires {
    Wires(Forward(s, s.op1).0, Forward(s, s.op1).1, Forward(s, s.op2).0, Forward(s, s.op2).1,
          Forward(s, s.opd).0, Forward(s, s.opd).1)
  }

  /** The order entry of the instruction that issues. */
  lemma IssuedFuid(isa: Arch, s: State)
    requires s.s23.Some?
    ensures var (e, d) := (Issued(isa, s), s.s23.value);
      FuidOf(e) == Some(FUid(d.tok.pc, d.ins.rd, s.f.cur.w, UnitOf(e.out), s.board.renameid))
  {
  }

  /** How many CSR accesses and IO operations have been requested, and how many are over. */
  datatype Counts = Counts(csrReqs: nat, csrDone: nat, ioReqs: nat, ioDone: nat)

  /** rg_csr_wait and rg_ioop_init, which split an operation of the write-back stage over several firings. */
  class WaitRegs {
    var csrWait: bool
    var ioopInit: bool
    ghost var counts: Counts

    constructor ()
      ensures !csrWait && !ioopInit && counts == Counts(0, 0, 0, 0)
    {
      csrWait, ioopInit, counts := false, false, Counts(0, 0, 0, 0);
    }
  }

  /** wr_memory_request: what the core has asked the data memory for. */
  class DMemPort {
    var requests: seq<DMemRequest>

    constructor ()
      ensures requests == []
    {
      requests := [];
    }
  }

  function AnswerIn(response: Option<IoResp>): IoResp { if response.Some? then response.value else IoData(0) }

  /** A step of any other stage leaves the instruction at the head of write-back, and its epoch. */
  lemma HeadStays(isa: Arch, cfg: Config, s: State, step: Step)
    requires ConfigOk(cfg) && Can(isa, cfg, s, step) && !step.StepRetire? && s.x45 != []
    ensures var s' := Next(isa, cfg, s, step); s'.x45 != [] && s'.x45[0] == s.x45[0] && s'.f.cur.w == s.f.cur.w
  {
  }

  class Riscv {
    const isa: Arch
    const cfg: Config

    const front: Stage01
    const stage2: Stage2
    const sboard: LockBoard
    const wait: WaitRegs
    const dmem: DMemPort

    // the inter-stage buffers
    var isb12: seq<Fetch.Tok>
    var isb23: Option<Dec>
    var isb34: Isb34
    var isb45: Isb45

    // stages 3 and 5
    var epochs3: Epochs
    var epoch5: bool
    var csr: Csr

    // history
    ghost var x34: seq<Entry>
    ghost var x45: seq<Entry>
    ghost var hist: History

    /** All copies of the epochs agree. */
    ghost predicate EpochsAgree()
      reads this, front, stage2
    {
      front.Valid() && stage2.epochs == front.epochs0 && epochs3 == front.epochs0 && epoch5 == front.epochs0.w
    }

    /** Every queue of the two buffers is the projection of the instructions in flight onto it. */
    ghost predicate QueuesOk()
      reads this
    {
      Fits34(isb34, x34) && Fits45(isb45, x45)
    }

    /** An operation is waited for only while it is at the head of write-back and live, and each one is requested
        once, before it is over. */
    ghost predicate WaitsOk()
      reads this, wait
    {
      && (wait.csrWait ==> x45 != [] && x45[0].w == epoch5 && x45[0].out.System? && !IsXRet(x45[0].ins))
      && (wait.ioopInit ==> x45 != [] && x45[0].w == epoch5 && x45[0].out.MemOp? && x45[0].out.io)
      && wait.counts.csrReqs == wait.counts.csrDone + (if wait.csrWait then 1 else 0)
      && wait.counts.ioReqs == wait.counts.ioDone + (if wait.ioopInit then 1 else 0)
    }

    ghost predicate Valid()
      reads this, front, stage2
    {
      && EpochsAgree() && QueuesOk()
      && sboard.Valid() && sboard.ids == cfg.ids && front.isa == isa && stage2.isa == isa
    }

    ghost function Abs(): State
      reads this, front, stage2, stage2.registerfile.xrf, sboard, sboard.entries
    {
      State(front.Abs(), isb12, isb23, stage2.op1, stage2.op2, stage2.opd,
            stage2.stall, stage2.microtrap, stage2.microtrapCause,
            sboard.Abs(), x34, x45, stage2.registerfile.Abs(), csr, hist.issued, hist.apc, hist.log)
    }

    /** Reset. */
    constructor (isa: Arch, cfg: Config, resetpc: Pc, csr: Csr)
      requires ConfigOk(cfg)
      ensures Valid() && this.isa == isa && this.cfg == cfg && this.csr == csr
      ensures Init(cfg, Abs(), resetpc)
      ensures WaitsOk() && fresh(wait) && fresh(dmem) && dmem.requests == []
      ensures fresh(front) && fresh(stage2) && fresh(stage2.registerfile.xrf) && fresh(sboard) && fresh(sboard.entries)
    {
      this.isa, this.cfg, this.csr := isa, cfg, csr;
      front := new Stage01(isa, resetpc);
      stage2 := new Stage2(isa, cfg.nregs);
      sboard := new LockBoard(cfg.nregs, cfg.ids);
      wait := new WaitRegs();
      dmem := new DMemPort();
      isb12, isb23 := [], None;
      isb34 := Isb34([], [], [], [], [], [], []);
      isb45 := Isb45([], [], [], [], []);
      epochs3, epoch5 := Epochs(false, false), false;
      x34, x45, hist := [], [], History(0, resetpc, []);
    }

    // ---------- flushes ----------

    /** rl_flush_stage0, rl_update_eEpoch, rl_update_wEpoch and rl_clear_stall_in_decode_stage, with the
        toggle of the stage that raises the flush. */
    method RaiseFlush(who: Flusher, newpc: Pc, isFence: bool)
      requires Valid()
      modifies this`epochs3, this`epoch5, front, stage2
      ensures Valid() && Abs() == FlushAll(old(Abs()), who, newpc, isFence)
    {
      front.Redirect(who, newpc, isFence);
      stage2.Flushed(who);
      epochs3 := ToggleEpochs(epochs3, who);
      epoch5 := epochs3.w;
    }

    // ---------- stages 0 and 1 ----------

    method GenNextPc(resp: Fetch.Prediction)
      requires Valid() && CanGen(cfg, Abs())
      modifies front
      ensures Valid() && Abs() == Gen(old(Abs()), resp)
    {
      front.GenNextPc(resp);
    }

    method ProcessInstruction()
      requires Valid() && CanProcess(cfg, Abs())
      modifies this, front
      ensures Valid() && Abs() == Process(isa, old(Abs()))
    {
      var sent := front.ProcessInstruction();
      if sent.Some? {
        isb12 := isb12 + [sent.value];
      }
    }

    // ---------- stage 2 ----------

    /** decode_and_opfetch */
    method DecodeAndOpfetch(irq: Option<nat>)
      requires Valid() && CanDecode(isa, Abs(), irq)
      modifies this, stage2
      ensures Valid() && Abs() == Decode(isa, old(Abs()), irq)
    {
      ghost var s := Abs();
      DecodeSets(isa, s, irq);
      isb23 := stage2.DecodeAndOpfetch(isb12[0], irq, csr, s);
      isb12 := isb12[1..];
    }

    // ---------- stage 3 ----------

    /** rl_drop_instr */
    method DropInstr()
      requires Valid() && CanDrop(Abs())
      modifies this
      ensures Valid() && Abs() == Drop(old(Abs()))
    {
      isb23 := None;
    }

    /** rl_perform_fwding for one operand: the lock and the id come from the scoreboard, the values from the
        heads of the two base queues and from the operand register. */
    method PerformFwding(o: Operand) returns (available: bool, data: Word)
      requires Valid()
      ensures (available, data) == Forward(Abs(), o)
    {
      var entry := if o.addr < sboard.entries.Length then sboard.entries[o.addr] else Scoreboard.SBEntry(false, 0);
      var req := Bypass.BypassReq(o.addr, epochs3.w, entry.lock, entry.id);
      BypassIsOffer(x34);
      BypassIsOffer(x45);
      available, data := Bypass.FnBypass(req, [GenBypass(isb34.base), GenBypass(isb45.base),
                                               Bypass.FwdType(true, o.addr, o.data, epochs3.w, 0)]);
    }

    /** The wires driven by rl_perform_fwding. */
    method ForwardAll() returns (w: Wires)
      requires Valid()
      ensures w == WiresOf(Abs())
    {
      var avail1, fwd1 := PerformFwding(stage2.op1);
      var avail2, fwd2 := PerformFwding(stage2.op2);
      var availd, fwdd := PerformFwding(stage2.opd);
      w := Wires(avail1, fwd1, avail2, fwd2, availd, fwdd);
    }

    /** A live instruction of one of these types is in front of stage 3, the order queue has room, and the
        wires are driven. */
    ghost predicate Ready(w: Wires)
      reads this, front, stage2, stage2.registerfile.xrf, sboard, sboard.entries
    {
      && isb23.Some? && SameEpochs(isb23.value.tok.tag, front.Cur()) && |x34| < cfg.s34 && w == WiresOf(Abs())
      && (IsControl(isb23.value.ins) ==> isb12 != [])
    }

    method Enqueue34(fuid: FUid, payload: Payload, ghost e: Entry)
      requires Fits34(isb34, x34) && FuidOf(e) == Some(fuid) && PayloadOf(e) == payload && !e.out.MemOp?
      modifies this`isb34, this`x34
      ensures Fits34(isb34, x34) && x34 == old(x34) + [e]
    {
      Split34Snoc(x34, e);
      OpenSnoc(x34, e);
      isb34 := Enq34(isb34, fuid, payload);
      x34 := x34 + [e];
    }

    /** deq_rx and the enqueues towards stage 4 */
    method Leave23(fuid: FUid, payload: Payload, ghost e: Entry)
      requires Valid() && FuidOf(e) == Some(fuid) && PayloadOf(e) == payload && !e.out.MemOp?
      modifies this`isb23, this`isb34, this`x34, this`hist
      ensures Valid() && Abs() == old(Abs()).(s23 := None, x34 := old(x34) + [e], issued := old(hist.issued) + 1)
    {
      Enqueue34(fuid, payload, e);
      isb23, hist := None, hist.(issued := hist.issued + 1);
    }

    /** The common part of the issue rules: the destination is locked, and the instruction moves from the
        decode buffer to the order queue, its payload to the queue of its unit. */
    method Enter(kind: FuType, payload: Payload)
      requires Valid() && isb23.Some?
      requires UnitOf(Issued(isa, Abs()).out) == kind && PayloadOf(Issued(isa, Abs())) == payload
      modifies this`isb23, this`isb34, this`x34, this`hist, sboard, sboard.entries
      ensures Valid() && Abs() == Entered(isa, cfg, old(Abs()))
    {
      var d := isb23.value;
      ghost var e := Issued(isa, Abs());
      IssuedFuid(isa, Abs());
      var id := sboard.LockRd(d.ins.rd);
      Leave23(FUid(d.tok.pc, d.ins.rd, epochs3.w, kind, id), payload, e);
    }

    /** rl_system_instr */
    method SystemInstr(w: Wires) returns (fired: bool)
      requires Valid() && Ready(w) && isb23.value.ins.itype.SYSTEM_INSTR?
      modifies this, sboard, sboard.entries
      ensures Valid() && fired == CanIssue(cfg, old(Abs())) && fired == w.avail1
      ensures Abs() == if fired then Issue(isa, cfg, old(Abs())) else old(Abs())
    {
      fired := w.avail1;
      if !fired {
        return;
      }
      Enter(FuSystem, ForSystem(SystemOut(isb23.value.ins, w.fwd1)));
    }

    /** rl_trap_from_prev */
    method TrapFromPrev(w: Wires)
      requires Valid() && Ready(w) && isb23.value.ins.itype.TRAP?
      modifies this, sboard, sboard.entries
      ensures Valid() && CanIssue(cfg, old(Abs())) && Abs() == Issue(isa, cfg, old(Abs()))
    {
      var d := isb23.value;
      Enter(FuTrap, ForTrap(TrapOut(d.ins.funct, d.tval, d.how.Rerun?)));
    }

    /** rl_exe_base_arith */
    method ExeBaseArith(w: Wires) returns (fired: bool)
      requires Valid() && Ready(w) && isb23.value.ins.itype.ALU?
      modifies this, sboard, sboard.entries
      ensures Valid() && fired == CanIssue(cfg, old(Abs())) && fired == (w.avail1 && w.avail2)
      ensures Abs() == if fired then Issue(isa, cfg, old(Abs())) else old(Abs())
    {
      var d := isb23.value;
      fired := w.avail1 && w.avail2;
      if !fired {
        return;
      }
      Enter(FuBase, ForBase(isa.alu(d.ins, d.tok.pc, w.fwd1, w.fwd2)));
    }

    /** A misaligned address becomes a trap, any other one goes to the data memory. */
    method MemoryPayload(ins: Instr, base: Word) returns (kind: FuType, payload: Payload, address: Word)
      ensures address == (base + ins.imm) % WORD_MOD
      ensures
        if address % AccessBytes(ins.funct) != 0 then
          kind == FuTrap && payload == ForTrap(TrapOut(if ins.access == Load then 4 else 6, address, false))
        else kind == FuMemory && payload == ForMemory(MemoryOut(ins.access))
      ensures address == EffectiveAddress(ins, base) && (kind == FuTrap <==> Misaligned(ins, address))
      ensures kind == FuTrap ==> payload == ForTrap(TrapOut(MisalignedCause(ins), address, false))
    {
      address := (base + ins.imm) % WORD_MOD;
      var size := ins.funct % 4;
      if (size == 1 && address % 2 != 0) || (size == 2 && address % 4 != 0) || (size == 3 && address % 8 != 0) {
        kind, payload := FuTrap, ForTrap(TrapOut(if ins.access.Load? then 4 else 6, address, false));
      } else {
        kind, payload := FuMemory, ForMemory(MemoryOut(ins.access));
      }
    }

    /** The request of an aligned access, with the forwarded operands. */
    method MemoryRequest(ins: Instr, w: Wires, epochs: bool)
      returns (kind: FuType, payload: Payload, sent: Option<DMemRequest>)
      ensures var address: Word := (w.fwd1 + ins.imm) % WORD_MOD;
        && address == EffectiveAddress(ins, w.fwd1)
        && kind == (if Misaligned(ins, address) then FuTrap else FuMemory)
        && payload == (if Misaligned(ins, address) then ForTrap(TrapOut(MisalignedCause(ins), address, false))
                       else ForMemory(MemoryOut(ins.access)))
        && sent == AlignedRequest(ins, epochs, w.fwd1, w.fwd2)
    {
      var address;
      kind, payload, address := MemoryPayload(ins, w.fwd1);
      sent := if !kind.FuMemory? then None else
        Some(DMemRequest(address, epochs, ins.funct % 8, ins.access.Fence? || ins.access.FenceI?,
                         ins.access, w.fwd2, ins.funct % 2 * 16 + ins.funct / 8 % 16));
    }

    /** The access enters the order queue. */
    method EnterAccess(ins: Instr, fwd1: Word, kind: FuType, payload: Payload)
      requires Valid() && isb23.Some? && ins == isb23.value.ins && ins.itype.MEMORY?
      requires fwd1 == Value(Abs(), stage2.op1)
      requires var address := EffectiveAddress(ins, fwd1);
        && kind == (if Misaligned(ins, address) then FuTrap else FuMemory)
        && payload == (if Misaligned(ins, address) then ForTrap(TrapOut(MisalignedCause(ins), address, false))
                       else ForMemory(MemoryOut(ins.access)))
      modifies this`isb23, this`isb34, this`x34, this`hist, sboard, sboard.entries
      ensures Valid() && Abs() == Issue(isa, cfg, old(Abs()))
    {
      Enter(kind, payload);
    }

    /** The access enters the order queue, and leaves a request if it is aligned. */
    method EnterMemory(w: Wires) returns (sent: Option<DMemRequest>)
      requires Valid() && isb23.Some? && isb23.value.ins.itype.MEMORY? && w.fwd1 == Value(Abs(), stage2.op1)
      modifies this`isb23, this`isb34, this`x34, this`hist, sboard, sboard.entries
      ensures Valid() && Abs() == Issue(isa, cfg, old(Abs()))
      ensures sent == AlignedRequest(old(isb23).value.ins, epochs3.w, w.fwd1, w.fwd2)
    {
      var kind, payload;
      kind, payload, sent := MemoryRequest(isb23.value.ins, w, epochs3.w);
      EnterAccess(isb23.value.ins, w.fwd1, kind, payload);
    }

    /** rl_exe_base_memory: an aligned access is sent to the data memory with the forwarded operands. */
    method ExeBaseMemory(w: Wires) returns (fired: bool)
      requires Valid() && Ready(w) && isb23.value.ins.itype.MEMORY?
      modifies this, dmem, sboard, sboard.entries
      ensures Valid() && fired == CanIssue(cfg, old(Abs())) && fired == (w.avail1 && w.avail2)
      ensures Abs() == if fired then Issue(isa, cfg, old(Abs())) else old(Abs())
      ensures var sent := AlignedRequest(old(isb23).value.ins, old(epochs3.w), w.fwd1, w.fwd2);
        dmem.requests == old(dmem.requests) + if fired && sent.Some? then [sent.value] else []
    {
      fired := w.avail1 && w.avail2;
      if !fired {
        return;
      }
      var sent := EnterMemory(w);
      if sent.Some? {
        dmem.requests := dmem.requests + [sent.value];
      }
    }

    /** Direction, target and misprediction of a control instruction. */
    method Resolve(d: Dec, a: Word, b: Word) returns (redirectPc: Pc, redirection: bool)
      requires isb12 != [] && IsControl(d.ins)
      ensures redirectPc == ResolvedPc(isa, d, a, b) && redirection == Mispredicted(isa, d, a, b, isb12[0].pc)
      ensures GoesTo(isa, d, a, b, redirectPc)
      ensures !redirection <==> if d.ins.itype == BRANCH then isa.taken(d.ins, a, b) == d.tok.taken
                               else isb12[0].pc == redirectPc
    {
      var base := if d.ins.itype.JALR? then a else d.tok.pc;
      var sum := (base + d.ins.imm) % WORD_MOD;
      var jumpAddress := sum - sum % 2;
      var btaken := isa.taken(d.ins, a, b);
      redirectPc := jumpAddress;
      if d.ins.itype.BRANCH? && !btaken {
        redirectPc := if d.tok.compressed then Plus2(d.tok.pc) else Plus4(d.tok.pc);
      }
      redirection := (d.ins.itype.BRANCH? && btaken != d.tok.taken)
                     || (!d.ins.itype.BRANCH? && isb12[0].pc != jumpAddress);
    }

    /** The link value enters the order queue. */
    method EnterControl(d: Dec)
      requires Valid() && isb23 == Some(d) && IsControl(d.ins)
      modifies this`isb23, this`isb34, this`x34, this`hist, sboard, sboard.entries
      ensures Valid() && Abs() == Entered(isa, cfg, old(Abs()))
    {
      Enter(FuBase, ForBase(if d.tok.compressed then Plus2(d.tok.pc) else Plus4(d.tok.pc)));
    }

    /** A wrong prediction redirects the fetch to where the instruction goes. */
    method CorrectFetch(redirection: bool, redirectPc: Pc)
      requires Valid()
      modifies this`epochs3, this`epoch5, front, stage2
      ensures Valid()
      ensures Abs() == if redirection then FlushAll(old(Abs()), FromExecute, redirectPc, false) else old(Abs())
      ensures front.pc == if redirection then redirectPc else old(front.pc)
      ensures front.epochs0.e == (old(front.epochs0.e) != redirection)
    {
      if redirection {
        RaiseFlush(FromExecute, redirectPc, false);
      }
    }

    /** rl_exe_base_control: the link value is the result; a wrong prediction redirects the fetch. */
    method ExeBaseControl(w: Wires) returns (fired: bool)
      requires Valid() && Ready(w) && IsControl(isb23.value.ins)
      modifies this, front, stage2, sboard, sboard.entries
      ensures Valid() && fired == CanIssue(cfg, old(Abs())) && fired == (w.avail1 && w.avail2)
      ensures Abs() == if fired then Issue(isa, cfg, old(Abs())) else old(Abs())
      ensures front.epochs0.e != old(front.epochs0.e) ==>
        fired && GoesTo(isa, old(isb23).value, w.fwd1, w.fwd2, front.pc)
    {
      var d := isb23.value;
      fired := w.avail1 && w.avail2;
      if !fired {
        return;
      }
      var redirectPc, redirection := Resolve(d, w.fwd1, w.fwd2);
      EnterControl(d);
      CorrectFetch(redirection, redirectPc);
    }

    /** rl_mbox */
    method Mbox(w: Wires) returns (fired: bool)
      requires Valid() && Ready(w) && isb23.value.ins.itype.MULDIV?
      modifies this, sboard, sboard.entries
      ensures Valid() && fired == CanIssue(cfg, old(Abs())) && fired == (w.avail1 && w.avail2)
      ensures Abs() == if fired then Issue(isa, cfg, old(Abs())) else old(Abs())
    {
      fired := w.avail1 && w.avail2;
      if !fired {
        return;
      }
      Enter(FuMuldiv, ForMuldiv(MBoxIn(isb23.value.ins, w.fwd1, w.fwd2)));
    }

    /** rl_pbox: the third operand is forwarded, but its availability is not asked for. */
    method Pbox(w: Wires) returns (fired: bool)
      requires Valid() && Ready(w) && isb23.value.ins.itype.PSIMD?
      modifies this, sboard, sboard.entries
      ensures Valid() && fired == CanIssue(cfg, old(Abs())) && fired == (w.avail1 && w.avail2)
      ensures Abs() == if fired then Issue(isa, cfg, old(Abs())) else old(Abs())
    {
      fired := w.avail1 && w.avail2;
      if !fired {
        return;
      }
      Enter(FuPsimd, ForPsimd(PBoxIn(isb23.value.ins, w.fwd1, w.fwd2, w.fwdd)));
    }

    // ---------- stage 4 ----------

    /** The oldest instruction leaves the order queue and the queue of its unit. */
    method Dequeue34()
      requires Fits34(isb34, x34) && isb34.fuid != []
      modifies this`isb34, this`x34
      ensures old(x34) != [] && Fits34(isb34, x34) && x34 == old(x34)[1..]
    {
      Split34Pop(x34);
      var b := isb34.(fuid := isb34.fuid[1..]);
      match isb34.fuid[0].insttype {
        case FuBase => isb34 := b.(base := b.base[1..]);
        case FuTrap => isb34 := b.(trap := b.trap[1..]);
        case FuSystem => isb34 := b.(system := b.system[1..]);
        case FuMemory => isb34 := b.(memory := b.memory[1..]);
        case FuMuldiv => isb34 := b.(mbox := b.mbox[1..]);
        case FuPsimd => isb34 := b.(pbox := b.pbox[1..]);
      }
      x34 := x34[1..];
    }

    method Enqueue45(fuid: FUid, payload: Payload, ghost e: Entry)
      requires Fits45(isb45, x45) && FuidOf(e) == Some(fuid) && PayloadOf(e) == payload && Answered(e.out)
      modifies this`isb45, this`x45
      ensures Fits45(isb45, x45) && x45 == old(x45) + [e]
    {
      Split45Snoc(x45, e);
      ClosedSnoc(x45, e);
      isb45 := Enq45(isb45, fuid, payload);
      x45 := x45 + [e];
    }

    /** The common part of the rules of stage 4. */
    method Advance(fuid: FUid, payload: Payload, ghost resp: MemResp)
      requires Valid() && x34 != [] && isb34.fuid != []
      requires var e := Collected(isa, x34[0], resp); FuidOf(e) == Some(fuid) && PayloadOf(e) == payload
      requires Answered(Collected(isa, x34[0], resp).out)
      modifies this`isb34, this`isb45, this`x34, this`x45
      ensures Valid() && Abs() == Collect(isa, old(Abs()), resp)
    {
      ghost var e := Collected(isa, x34[0], resp);
      Dequeue34();
      Enqueue45(fuid, payload, e);
    }

    /** rl_fwd_baseout, rl_fwd_systemout and rl_fwd_trapout */
    method FwdOut(ghost resp: MemResp)
      requires Valid() && CanCollect(cfg, Abs(), resp)
      requires isb34.fuid != [] && (isb34.fuid[0].insttype.FuBase? || isb34.fuid[0].insttype.FuSystem?
            || isb34.fuid[0].insttype.FuTrap?)
      modifies this
      ensures Valid() && Abs() == Collect(isa, old(Abs()), resp)
    {
      Split34Pop(x34);
      var fuid := isb34.fuid[0];
      var payload := if fuid.insttype.FuBase? then ForBase(isb34.base[0].rdvalue)
                     else if fuid.insttype.FuSystem? then ForSystem(isb34.system[0]) else ForTrap(isb34.trap[0]);
      Advance(FnFu2Cu(fuid), payload, resp);
    }

    /** rl_handle_memory: an answer of another epoch is discarded; a fault becomes a trap, data is committed as a base
        result, and what the store or IO buffer has accepted is completed by the write-back stage. */
    method HandleMemory(resp: MemResp, epochs: bool) returns (taken: bool)
      requires Valid() && isb34.fuid != [] && isb34.fuid[0].insttype.FuMemory?
      requires epochs == isb34.fuid[0].epochs ==> CanCollect(cfg, Abs(), resp)
      modifies this
      ensures old(x34) != [] && taken == (epochs == old(x34)[0].w)
      ensures Valid() && Abs() == if taken then Collect(isa, old(Abs()), resp) else old(Abs())
    {
      Split34Pop(x34);
      var (fuid, memop) := (isb34.fuid[0], isb34.memory[0]);
      taken := epochs == fuid.epochs;
      if taken {
        match resp {
          case RespFault(cause, addr) => Advance(fuid.(insttype := FuTrap), ForTrap(TrapOut(cause, addr, false)), resp);
          case RespAlloc(io, word) => Advance(fuid.(insttype := FuMemory), ForMemop(WBMemop(memop.access, io, word)),
              resp);
          case RespData(value) => Advance(fuid.(insttype := FuBase), ForBase(value), resp);
        }
      }
    }

    /** rl_capture_muldiv and rl_capture_psimd: the answer of the unit is committed as a base result. */
    method CaptureUnit(ghost resp: MemResp)
      requires Valid() && CanCollect(cfg, Abs(), resp)
      requires isb34.fuid != [] && (isb34.fuid[0].insttype.FuMuldiv? || isb34.fuid[0].insttype.FuPsimd?)
      modifies this
      ensures Valid() && Abs() == Collect(isa, old(Abs()), resp)
    {
      Split34Pop(x34);
      var fuid := isb34.fuid[0];
      if fuid.insttype.FuMuldiv? {
        var m := isb34.mbox[0];
        Advance(FnFu2Cu(fuid), ForBase(isa.muldiv(m.ins, m.in1, m.in2)), resp);
      } else {
        var p := isb34.pbox[0];
        Advance(FnFu2Cu(fuid), ForBase(isa.psimd(p.ins, p.rs1, p.rs2, p.rd)), resp);
      }
    }

    // ---------- stage 5 ----------

    /** The oldest instruction leaves the order queue and the queue of its unit. */
    method Dequeue45()
      requires Fits45(isb45, x45) && isb45.fuid != []
      modifies this`isb45, this`x45
      ensures old(x45) != [] && Fits45(isb45, x45) && x45 == old(x45)[1..]
    {
      Split45Pop(x45);
      var b := isb45.(fuid := isb45.fuid[1..]);
      var unit := isb45.fuid[0].insttype;
      if unit.FuBase? {
        isb45 := b.(base := b.base[1..]);
      } else if unit.FuTrap? {
        isb45 := b.(trap := b.trap[1..]);
      } else if unit.FuSystem? {
        isb45 := b.(system := b.system[1..]);
      } else {
        isb45 := b.(memio := b.memio[1..]);
      }
      x45 := x45[1..];
    }

    /** The head leaves and wr_commit opens its lock. */
    method ReleaseHead()
      requires Valid() && x45 != [] && isb45.fuid != []
      modifies this`isb45, this`x45, sboard.entries
      ensures Valid() && Abs() == PopRelease(old(Abs()))
    {
      Split45Pop(x45);
      var fuid := isb45.fuid[0];
      Dequeue45();
      sboard.ReleaseRd(fuid.rd, fuid.id);
    }

    /** wr_commit reaches the register file and the operand registers. */
    method CommitData(rd: nat, data: Word)
      requires Valid()
      modifies stage2, stage2.registerfile.xrf
      ensures Valid() && var s := old(Abs());
        Abs() == s.(regs := Write(s.regs, rd, data), op1 := Refresh(s.op1, rd, data),
                    op2 := Refresh(s.op2, rd, data), opd := Refresh(s.opd, rd, data))
    {
      stage2.CommitRd(rd, data);
    }

    /** The head leaves and wr_commit carries a value to the register file and the operand registers. */
    method CommitHead(data: Word, ghost env: Env)
      requires Valid() && x45 != [] && isb45.fuid != []
      modifies this`isb45, this`x45, this`hist, stage2, stage2.registerfile.xrf, sboard.entries
      ensures Valid() && Abs() == WriteBack(old(Abs()), env, data)
    {
      Split45Pop(x45);
      var fuid := isb45.fuid[0];
      ghost var e := x45[0];
      ReleaseHead();
      CommitData(fuid.rd, data);
      hist := hist.(apc := e.npc, log := hist.log + [RecordOf(e, env, if e.ins.rd != 0 then Some(data) else None)]);
    }

    /** mav_upd_on_trap, and the redirect to the trap vector. */
    method TakeTrap(pc: Pc, cause: nat, tval: Word, ghost e: Entry, ghost env: Env)
      requires Valid() && pc == e.pc
      modifies this`csr, this`hist, this`epochs3, this`epoch5, front, stage2
      ensures Valid() && Abs() == TakeTrapAt(isa, old(Abs()), e, env, cause, tval)
    {
      var tvec := isa.trapPc(csr, cause, pc, tval);
      csr := isa.trapCsr(csr, cause, pc, tval);
      hist := hist.(apc := tvec, log := hist.log + [RecordOf(e, env, None)]);
      RaiseFlush(FromWriteBack, tvec, false);
    }

    /** rl_writeback_trap */
    method WritebackTrap(ghost io: IoResp)
      requires Valid() && x45 != [] && isb45.fuid != [] && isb45.fuid[0].insttype.FuTrap?
      modifies this, front, stage2, sboard.entries
      ensures Valid() && Abs() == Retire(isa, old(Abs()), io)
    {
      Split45Pop(x45);
      var (fuid, trapout) := (isb45.fuid[0], isb45.trap[0]);
      ghost var e := x45[0];
      ReleaseHead();
      if epoch5 == fuid.epochs {
        if trapout.isMicrotrap {
          RaiseFlush(FromWriteBack, fuid.pc, trapout.cause == FENCEI_RERUN);
        } else {
          TakeTrap(fuid.pc, trapout.cause, trapout.mtval, e, EnvOf(e));
        }
      }
    }

    /** The live case of rl_writeback_system, by funct3. */
    method ServeSystem(systemout: SystemOut, hit: bool) returns (done: bool)
      requires Valid() && x45 != [] && isb45.fuid != [] && systemout == SystemOut(x45[0].ins, x45[0].op1)
      modifies this, wait, front, stage2, stage2.registerfile.xrf, sboard.entries
      ensures Valid() && Abs() == if done then RetireSystem(isa, old(Abs())) else old(Abs())
      ensures var ins := old(x45)[0].ins;
        if ins.itype == SYSTEM_INSTR && ins.funct % 8 == 0 then
          && done && wait.counts == old(wait.counts) && wait.csrWait == old(wait.csrWait)
          && front.pc == isa.retPc(ins, old(csr)) && csr == isa.retCsr(ins, old(csr))
          && epoch5 == !old(epoch5) && stage2.registerfile.Abs() == old(stage2.registerfile.Abs())
        else
          && done == hit && wait.csrWait == !hit && epoch5 == old(epoch5)
          && wait.counts == old(wait.counts).(
               csrReqs := old(wait.counts.csrReqs) + (if old(wait.csrWait) then 0 else 1),
               csrDone := old(wait.counts.csrDone) + (if hit then 1 else 0))
          && csr == if hit then isa.csrWrite(ins, old(csr), systemout.rs1) else old(csr)
      ensures wait.ioopInit == old(wait.ioopInit)
    {
      done := true;
      if IsXRet(systemout.ins) {
        ReturnFromTrap(systemout.ins);
      } else {
        done := hit;
        AwaitCsr(hit);
        if done {
          FinishCsr(systemout);
        }
      }
    }

    /** rl_writeback_system: an xRET redirects; a CSR access is requested by the first firing, and commits the value
        read by the firing that meets the response. */
    method WritebackSystem(hit: bool, ghost io: IoResp) returns (done: bool)
      requires Valid() && WaitsOk() && x45 != [] && isb45.fuid != [] && isb45.fuid[0].insttype.FuSystem?
      modifies this, wait, front, stage2, stage2.registerfile.xrf, sboard.entries
      ensures Valid() && WaitsOk() && Abs() == if done then Retire(isa, old(Abs()), io) else old(Abs())
      ensures var e := old(x45)[0]; done == (hit || e.w != old(epoch5) || IsXRet(e.ins))
      ensures var e := old(x45)[0]; e.w == old(epoch5) && e.ins.itype == SYSTEM_INSTR ==>
        if e.ins.funct % 8 == 0 then
          && done && wait.counts == old(wait.counts) && wait.csrWait == old(wait.csrWait)
          && front.pc == isa.retPc(e.ins, old(csr)) && csr == isa.retCsr(e.ins, old(csr))
          && epoch5 == !old(epoch5) && stage2.registerfile.Abs() == old(stage2.registerfile.Abs())
        else
          && done == hit && epoch5 == old(epoch5)
          && wait.counts.csrReqs == old(wait.counts.csrReqs) + (if old(wait.csrWait) then 0 else 1)
          && csr == if hit then isa.csrWrite(e.ins, old(csr), e.op1) else old(csr)
    {
      Split45Pop(x45);
      var (fuid, systemout) := (isb45.fuid[0], isb45.system[0]);
      done := true;
      if epoch5 != fuid.epochs {
        ReleaseHead();
      } else {
        done := ServeSystem(systemout, hit);
      }
    }

    /** The end of a CSR access: the value read is committed. */
    method FinishCsr(systemout: SystemOut)
      requires Valid() && x45 != [] && isb45.fuid != [] && systemout == SystemOut(x45[0].ins, x45[0].op1)
      requires !IsXRet(x45[0].ins)
      modifies this, stage2, stage2.registerfile.xrf, sboard.entries
      ensures Valid() && epoch5 == old(epoch5) && Abs() == RetireSystem(isa, old(Abs()))
    {
      var data := isa.csrRead(systemout.ins, csr, systemout.rs1);
      CommitHead(data, Plain);
      csr := isa.csrWrite(systemout.ins, csr, systemout.rs1);
    }

    /** The request is made unless it has been made, and it is waited for unless the response is there. */
    method AwaitCsr(hit: bool)
      modifies wait
      ensures wait.csrWait == !hit && wait.ioopInit == old(wait.ioopInit)
      ensures wait.counts == var c := old(wait.counts);
        c.(csrReqs := c.csrReqs + (if old(wait.csrWait) then 0 else 1), csrDone := c.csrDone + (if hit then 1 else 0))
    {
      if !wait.csrWait {
        wait.counts := wait.counts.(csrReqs := wait.counts.csrReqs + 1);
      }
      wait.csrWait := !hit;
      if hit {
        wait.counts := wait.counts.(csrDone := wait.counts.csrDone + 1);
      }
    }

    /** mav_upd_on_ret, and the redirect to the saved pc; rd is x0. */
    method ReturnFromTrap(ins: Instr)
      requires Valid() && x45 != [] && isb45.fuid != [] && ins == x45[0].ins && IsXRet(ins)
      modifies this, front, stage2, sboard.entries
      ensures Valid() && Abs() == RetireSystem(isa, old(Abs()))
    {
      var epc := isa.retPc(ins, csr);
      ghost var e := x45[0];
      ReleaseHead();
      csr := isa.retCsr(ins, csr);
      hist := hist.(apc := epc, log := hist.log + [RecordOf(e, Plain, None)]);
      RaiseFlush(FromWriteBack, epc, false);
    }

    /** rl_writeback_baseout */
    method WritebackBaseout(ghost io: IoResp)
      requires Valid() && x45 != [] && isb45.fuid != [] && isb45.fuid[0].insttype.FuBase?
      modifies this, stage2, stage2.registerfile.xrf, sboard.entries
      ensures Valid() && Abs() == Retire(isa, old(Abs()), io)
    {
      Split45Pop(x45);
      var (fuid, baseout) := (isb45.fuid[0], isb45.base[0]);
      if epoch5 == fuid.epochs {
        CommitHead(baseout.rdvalue, EnvOf(x45[0]));
      } else {
        ReleaseHead();
      }
    }

    /** A cached store leaves without a commit: it has locked nothing but x0. */
    method StoreHead()
      requires Valid() && x45 != [] && isb45.fuid != []
      modifies this`isb45, this`x45, this`hist
      ensures Valid() && var (s, e) := (old(Abs()), old(x45)[0]);
        Abs() == Pop(s).(apc := e.npc, log := s.log + [RecordOf(e, EnvOf(e), None)])
    {
      ghost var e := x45[0];
      Dequeue45();
      hist := hist.(apc := e.npc, log := hist.log + [RecordOf(e, EnvOf(e), None)]);
    }

    /** The first firing initiates the IO operation; a later one that meets the response ends it. */
    method AwaitIo(response: bool) returns (over: bool)
      modifies wait
      ensures over == (old(wait.ioopInit) && response)
      ensures wait.ioopInit == !over && wait.csrWait == old(wait.csrWait)
      ensures wait.counts == var c := old(wait.counts);
        c.(ioReqs := c.ioReqs + (if old(wait.ioopInit) then 0 else 1), ioDone := c.ioDone + (if over then 1 else 0))
    {
      over := false;
      if !wait.ioopInit {
        wait.ioopInit := true;
        wait.counts := wait.counts.(ioReqs := wait.counts.ioReqs + 1);
      } else if response {
        wait.ioopInit := false;
        over := true;
        wait.counts := wait.counts.(ioDone := wait.counts.ioDone + 1);
      }
    }

    /** The end of an IO operation. */
    method FinishIo(io: IoResp)
      requires Valid() && x45 != [] && isb45.fuid != [] && isb45.fuid[0].insttype.FuMemory?
      requires x45[0].w == epoch5 && isb45.memio != [] && isb45.memio[0].io && x45[0].out.MemOp? && x45[0].out.io
      modifies this, front, stage2, stage2.registerfile.xrf, sboard.entries
      ensures Valid() && Abs() == Retire(isa, old(Abs()), io)
    {
      Split45Pop(x45);
      var fuid := isb45.fuid[0];
      match io {
        case IoFault(cause, addr) =>
          ghost var e := x45[0];
          ReleaseHead();
          TakeTrap(fuid.pc, cause, addr, e, IoAnswer(io));
        case IoData(value) => CommitHead(value, IoAnswer(io));
      }
    }

    /** rl_writeback_memop: a cached store or atomic is over at once; an IO operation is initiated first. */
    method WritebackMemop(response: Option<IoResp>) returns (done: bool)
      requires Valid() && WaitsOk() && x45 != [] && isb45.fuid != [] && isb45.fuid[0].insttype.FuMemory?
      modifies this, wait, front, stage2, stage2.registerfile.xrf, sboard.entries
      ensures Valid() && WaitsOk()
      ensures Abs() == if done then Retire(isa, old(Abs()), AnswerIn(response)) else old(Abs())
      ensures old(x45)[0].out.MemOp?
      ensures var e := old(x45)[0]; done == (e.w != old(epoch5) || !e.out.io || (old(wait.ioopInit) && response.Some?))
      ensures !done ==> wait.ioopInit
    {
      Split45Pop(x45);
      var (fuid, memop) := (isb45.fuid[0], isb45.memio[0]);
      done := true;
      if epoch5 != fuid.epochs {
        ReleaseHead();
      } else if !memop.io {
        if memop.access.Atomic? {
          CommitHead(memop.atomicData, EnvOf(x45[0]));
        } else {
          StoreHead();
        }
      } else {
        done := AwaitIo(response.Some?);
        if done {
          FinishIo(response.value);
        }
      }
    }

    // ---------- any rule ----------

    /** The issue rule for the type of the decoded instruction. */
    method IssueAny()
      requires Valid() && CanIssue(cfg, Abs())
      modifies this, dmem, front, stage2, sboard, sboard.entries
      ensures Valid() && Abs() == Issue(isa, cfg, old(Abs()))
    {
      var w := ForwardAll();
      var fired;
      match isb23.value.ins.itype {
        case SYSTEM_INSTR => fired := SystemInstr(w);
        case TRAP => TrapFromPrev(w);
        case ALU => fired := ExeBaseArith(w);
        case MEMORY => fired := ExeBaseMemory(w);
        case MULDIV => fired := Mbox(w);
        case PSIMD => fired := Pbox(w);
        case BRANCH => fired := ExeBaseControl(w);
        case JAL => fired := ExeBaseControl(w);
        case JALR => fired := ExeBaseControl(w);
      }
    }

    /** The rule of stage 4 for the unit at the head of the order queue. */
    method CollectAny(resp: MemResp)
      requires Valid() && CanCollect(cfg, Abs(), resp)
      modifies this
      ensures Valid() && Abs() == Collect(isa, old(Abs()), resp)
    {
      Split34Pop(x34);
      var unit := isb34.fuid[0].insttype;
      if unit.FuMemory? {
        var taken := HandleMemory(resp, isb34.fuid[0].epochs);
      } else if unit.FuMuldiv? || unit.FuPsimd? {
        CaptureUnit(resp);
      } else {
        FwdOut(resp);
      }
    }

    /** The rule of stage 5 for the unit at the head of the order queue, fired once. */
    method RetireAny(hit: bool, response: Option<IoResp>) returns (done: bool)
      requires Valid() && WaitsOk() && x45 != []
      modifies this, wait, front, stage2, stage2.registerfile.xrf, sboard.entries
      ensures Valid() && WaitsOk()
      ensures Abs() == if done then Retire(isa, old(Abs()), AnswerIn(response)) else old(Abs())
      ensures var e := old(x45)[0];
        e.w == old(epoch5) && e.out.System? && e.ins.itype == SYSTEM_INSTR && e.ins.funct % 8 == 0 ==>
          done && wait.counts == old(wait.counts) && front.pc == isa.retPc(e.ins, old(csr))
      ensures hit && response.Some? && old(wait.ioopInit) ==> done
      ensures hit && !done ==> wait.ioopInit
    {
      Split45Pop(x45);
      var unit := isb45.fuid[0].insttype;
      done := true;
      if unit.FuTrap? {
        WritebackTrap(AnswerIn(response));
      } else if unit.FuSystem? {
        done := WritebackSystem(hit, AnswerIn(response));
      } else if unit.FuBase? {
        WritebackBaseout(AnswerIn(response));
      } else {
        done := WritebackMemop(response);
      }
    }

    /** Write-back fires until the instruction has left: an IO operation is initiated, then ended. */
    method RetireFully(io: IoResp)
      requires Valid() && WaitsOk() && x45 != []
      modifies this, wait, front, stage2, stage2.registerfile.xrf, sboard.entries
      ensures Valid() && WaitsOk() && Abs() == Retire(isa, old(Abs()), io)
    {
      var done := RetireAny(true, Some(io));
      if !done {
        done := RetireAny(true, Some(io));
      }
    }

    /** One step of the machine. */
    method Fire(step: Step)
      requires ConfigOk(cfg) && Valid() && WaitsOk() && Can(isa, cfg, Abs(), step)
      modifies this, wait, dmem, front, stage2, stage2.registerfile.xrf, sboard, sboard.entries
      ensures Valid() && WaitsOk() && Abs() == Next(isa, cfg, old(Abs()), step)
    {
      if x45 != [] && !step.StepRetire? {
        HeadStays(isa, cfg, Abs(), step);
      }
      match step {
        case StepGen(resp) => GenNextPc(resp);
        case StepProcess => ProcessInstruction();
        case StepDecode(irq) => DecodeAndOpfetch(irq);
        case StepDrop => DropInstr();
        case StepIssue => IssueAny();
        case StepCollect(resp) => CollectAny(resp);
        case StepRetire(io) => RetireFully(io);
      }
    }
  }
}
