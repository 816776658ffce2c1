/** Stage 2 with its registers: the operand registers, the stall and the micro-trap machine. */
module DecodeUnit {
  import opened Types
  import opened Isa
  import opened Pipeline
  import opened RegisterFiles
  import opened FetchUnit
  import Fetch

  class Stage2 {
    const isa: Arch
    const registerfile: RegisterFile
    var epochs: Epochs
    var op1: Operand
    var op2: Operand
    var opd: Operand
    var stall: bool
    var microtrap: bool
    var microtrapCause: nat

    /** The registers of this stage are those of the pipeline state s. */
    ghost predicate Shows(s: State)
      reads this
    {
      && op1 == s.op1 && op2 == s.op2 && opd == s.opd
      && stall == s.stall && microtrap == s.rerun && microtrapCause == s.rerunCause
    }

    constructor (isa: Arch, nregs: nat)
      ensures this.isa == isa && fresh(registerfile) && fresh(registerfile.xrf) && registerfile.xrf.Length == nregs
      ensures forall r :: 0 <= r < nregs ==> registerfile.Abs()[r] == 0
      ensures epochs == Epochs(false, false) && !stall && !microtrap
    {
      this.isa := isa;
      registerfile := new RegisterFile(nregs);
      epochs := Epochs(false, false);
      op1, op2, opd := Operand(0, 0, true), Operand(0, 0, true), Operand(0, 0, true);
      stall, microtrap, microtrapCause := false, false, 0;
    }

    /** decoder_func: a pending micro-trap overrides the instruction, then an interrupt does. */
    method DecoderFunc(t: Fetch.Tok, irq: Option<nat>, csr: Csr) returns (d: Dec)
      ensures forall s: State :: s.rerun == microtrap && s.rerunCause == microtrapCause && s.csr == csr ==>
        d == Decoded(isa, s, t, irq)
    {
      var raw := isa.decode(t.bits, csr);
      var (ins, how) := (raw, Normal);
      if microtrap {
        ins, how := AsTrap(raw, microtrapCause), Rerun;
      } else if irq.Some? {
        ins, how := AsTrap(raw, irq.value), Interrupted(irq.value);
      }
      d := Dec(t, ins, how, isa.tval(t.bits, t.pc, ins.funct));
    }

    /** The operand registers are loaded from the register file, or with the constant. */
    method Opfetch(ins: Instr)
      modifies this`op1, this`op2, this`opd
      ensures op1 == Operand(ins.rs1, Read(registerfile.Abs(), ins.rs1), true)
      ensures op2 == Operand(ins.rs2, Second(ins, registerfile.Abs()), ins.src2.IntegerRF?)
      ensures opd == Operand(ins.rd, Read(registerfile.Abs(), ins.rd), true)
    {
      var rs1 := registerfile.ReadRs(ins.rs1);
      var rs2 := registerfile.ReadRs(ins.rs2);
      var rd := registerfile.ReadRs(ins.rd);
      op1 := Operand(ins.rs1, rs1, true);
      op2 := Operand(ins.rs2, if ins.src2.Constant? then ins.src2.value else rs2, ins.src2.IntegerRF?);
      opd := Operand(ins.rd, rd, true);
    }

    /** decode_and_opfetch: what it sends to stage 3, if anything.  s is the pipeline state it starts in. */
    method DecodeAndOpfetch(t: Fetch.Tok, irq: Option<nat>, csr: Csr, ghost s: State) returns (sent: Option<Dec>)
      requires Shows(s) && csr == s.csr && registerfile.Abs() == s.regs && epochs == Epochs(s.f.cur.e, s.f.cur.w)
      requires CanDecode(isa, s, irq) && t == s.s12[0]
      modifies this
      ensures Shows(Decode(isa, s, irq)) && sent == Decode(isa, s, irq).s23 && epochs == old(epochs)
    {
      sent := None;
      if Epochs(t.tag.e, t.tag.w) == epochs {
        var d := DecoderFunc(t, irq, csr);
        Opfetch(d.ins);
        microtrap := isa.decode(t.bits, csr).microtrap && !microtrap;
        microtrapCause := if d.ins.itype.SYSTEM_INSTR? then CSR_RERUN
                          else if d.ins.access.FenceI? then FENCEI_RERUN else SFENCE_RERUN;
        stall := d.ins.itype.TRAP?;
        sent := Some(d);
      }
    }

    /** ma_commit_rd on one operand register */
    static method RefreshOp(o: Operand, addr: nat, data: Word) returns (r: Operand)
      ensures r == Refresh(o, addr, data)
    {
      r := o;
      if o.addr == addr && o.addr != 0 && o.isReg {
        r := o.(data := data);
      }
    }

    /** ma_commit_rd: the register file is written, and the operands already fetched follow. */
    method CommitRd(addr: nat, data: Word)
      modifies this`op1, this`op2, this`opd, registerfile.xrf
      ensures registerfile.Abs() == Write(old(registerfile.Abs()), addr, data)
      ensures op1 == Refresh(old(op1), addr, data) && op2 == Refresh(old(op2), addr, data)
      ensures opd == Refresh(old(opd), addr, data)
    {
      registerfile.CommitRd(addr, data);
      op1 := RefreshOp(op1, addr, data);
      op2 := RefreshOp(op2, addr, data);
      opd := RefreshOp(opd, addr, data);
    }

    /** ma_update_eEpoch or ma_update_wEpoch, and ma_clear_stall, which acts only during a stall. */
    method Flushed(who: Flusher)
      modifies this`epochs, this`stall, this`microtrap
      ensures epochs == ToggleEpochs(old(epochs), who) && !stall && microtrap == (old(microtrap) && !old(stall))
    {
      epochs := ToggleEpochs(epochs, who);
      if stall {
        stall := false;
        microtrap := false;
      }
    }
  }
}
