/** What each issue rule waits for and what it sends, by instruction type. */
module IssueRules {
  import opened Types
  import opened Isa
  import opened Pipeline
  import opened OperandProofs
  import opened Refinement
  import opened Reference
  import Architecture

  /** No issue rule fires before its operands are there. */
  lemma IssueWaits(cfg: Config, s: State)
    requires CanIssue(cfg, s)
    ensures var itype := s.s23.value.ins.itype;
      && (TwoOperands(itype) ==> Available(s, s.op1) && Available(s, s.op2))
      && (itype == SYSTEM_INSTR ==> Available(s, s.op1))
  {
  }

  /** In every reached state in which an issue may fire, the operands it takes are those of the youngest writers in
      flight, or of the register file, or the constant of the instruction. */
  lemma IssuedOperands(isa: Arch, cfg: Config, reset: State, resetpc: Pc, steps: seq<Step>, s: State)
    requires Reached(isa, cfg, reset, resetpc, steps, s) && CanIssue(cfg, s)
    ensures var (ins, e) := (s.s23.value.ins, Issued(isa, s));
      && (ins.itype == SYSTEM_INSTR || TwoOperands(ins.itype) ==> Delivered(s, ins.rs1, e.op1))
      && (TwoOperands(ins.itype) && ins.src2 == IntegerRF ==> Delivered(s, ins.rs2, e.op2))
      && (TwoOperands(ins.itype) && ins.src2.Constant? && !(ins.itype == MEMORY && ins.access in {Fence, FenceI}) ==>
            e.op2 == ins.src2.value)
  {
    IssueWaits(cfg, s);
    OperandIsYoungest(isa, cfg, reset, resetpc, steps, s);
  }

  lemma RequestedIs(isa: Arch, s: State)
    requires s.s23.Some? && s.s23.value.ins.itype == MEMORY
    ensures var (ins, a, req) := (s.s23.value.ins, Value(s, s.op1), Requested(s));
      && req == AlignedRequest(ins, s.f.cur.w, a, Value(s, s.op2))
      && Issued(isa, s).out
           == if req.Some? then Memory else Trap(if ins.access == Load then 4 else 6, (a + ins.imm) % WORD_MOD, false)
  {
    Architecture.MisalignedIs(s.s23.value.ins, EffectiveAddress(s.s23.value.ins, Value(s, s.op1)));
  }

  /** A load, store, atomic or fence asks the data memory for the address rs1 + imm and hands it rs2, unless the
      address is not a multiple of the size of the access: then it is a trap with its cause and the address. */
  lemma MemoryRequest(isa: Arch, cfg: Config, reset: State, resetpc: Pc, steps: seq<Step>, s: State)
    requires Reached(isa, cfg, reset, resetpc, steps, s) && CanIssue(cfg, s) && s.s23.value.ins.itype == MEMORY
    ensures var (ins, e, req) := (s.s23.value.ins, Issued(isa, s), Requested(s));
      var addr: Word := (e.op1 + ins.imm) % WORD_MOD;
      && Delivered(s, ins.rs1, e.op1) && (ins.src2 == IntegerRF ==> Delivered(s, ins.rs2, e.op2))
      && req == AlignedRequest(ins, s.f.cur.w, e.op1, e.op2)
      && e.out == if req.Some? then Memory else Trap(if ins.access == Load then 4 else 6, addr, false)
  {
    IssuedOperands(isa, cfg, reset, resetpc, steps, s);
    RequestedIs(isa, s);
  }

  lemma ResolvedGoesTo(isa: Arch, d: Dec, a: Word, b: Word)
    requires IsControl(d.ins)
    ensures GoesTo(isa, d, a, b, ResolvedPc(isa, d, a, b))
  {
  }

  /** A redirect from execute sends the fetch to where the instruction goes with its delivered operands. */
  lemma RedirectGoesTo(isa: Arch, cfg: Config, reset: State, resetpc: Pc, steps: seq<Step>, s: State)
    requires Reached(isa, cfg, reset, resetpc, steps, s) && CanIssue(cfg, s) && Redirects(isa, s)
    ensures var (d, e, s') := (s.s23.value, Issued(isa, s), Issue(isa, cfg, s));
      && d.ins.itype in {BRANCH, JAL, JALR}
      && Delivered(s, d.ins.rs1, e.op1) && (d.ins.src2 == IntegerRF ==> Delivered(s, d.ins.rs2, e.op2))
      && GoesTo(isa, d, e.op1, e.op2, s'.f.pc)
      && s'.f.cur.e == !s.f.cur.e && s'.f.cur.w == s.f.cur.w
  {
    IssuedOperands(isa, cfg, reset, resetpc, steps, s);
    ResolvedGoesTo(isa, s.s23.value, Issued(isa, s).op1, Issued(isa, s).op2);
  }

  /** Without a redirect the prediction was right: a branch went the way that was predicted, and behind a jump the
      next instruction in the pipe is the one at its target. */
  lemma NoRedirectMeans(isa: Arch, s: State)
    requires s.s23.Some? && IsControl(s.s23.value.ins) && s.s12 != []
    ensures var (d, e) := (s.s23.value, Issued(isa, s));
      !Redirects(isa, s) <==>
        if d.ins.itype == BRANCH then isa.taken(d.ins, e.op1, e.op2) == d.tok.taken
        else GoesTo(isa, d, e.op1, e.op2, s.s12[0].pc)
  {
    ResolvedGoesTo(isa, s.s23.value, Issued(isa, s).op1, Issued(isa, s).op2);
  }
}
