/** Runs of the pipeline, and what holds in every state they reach. */
module Refinement {
  import opened Types
  import opened Bits
  import opened Isa
  import opened Epochs
  import opened Pipeline
  import opened Spine
  import opened Invariant
  import opened OperandProofs
  import opened MicroTraps
  import Fetch
  import Scoreboard
  import FrontProofs
  import IssueProofs
  import BackProofs

  /** A rule may fire, and the predictor respects instruction boundaries. */
  ghost predicate Fires(isa: Arch, cfg: Config, s: State, step: Step) {
    && Can(isa, cfg, s, step)
    && (step.StepGen? ==> s.f.fence || Fetch.Consistent(isa, Fetch.Tip(isa, s.f), step.resp))
  }

  /** In addition, the third operand of an issued PSIMD instruction is right. */
  ghost predicate Allowed(isa: Arch, cfg: Config, s: State, step: Step) {
    Fires(isa, cfg, s, step) && (step.StepIssue? ==> IssueProofs.OpdRight(isa, s))
  }

  /** The rules `steps`, fired one by one, lead from s to last. */
  ghost predicate Leads(isa: Arch, cfg: Config, s: State, steps: seq<Step>, last: State)
    requires ConfigOk(cfg)
    decreases |steps|
  {
    if steps == [] then s == last
    else Allowed(isa, cfg, s, steps[0]) && Leads(isa, cfg, Next(isa, cfg, s, steps[0]), steps[1..], last)
  }

  lemma LeadsStep(isa: Arch, cfg: Config, s: State, step: Step, next: State, rest: seq<Step>, last: State)
    requires ConfigOk(cfg) && Allowed(isa, cfg, s, step) && Next(isa, cfg, s, step) == next
    requires Leads(isa, cfg, next, rest, last)
    ensures Leads(isa, cfg, s, [step] + rest, last)
  {
    assert ([step] + rest)[1..] == rest;
  }

  lemma LeadsTail(isa: Arch, cfg: Config, s: State, steps: seq<Step>, last: State) returns (next: State)
    requires ConfigOk(cfg) && Leads(isa, cfg, s, steps, last) && steps != []
    ensures Allowed(isa, cfg, s, steps[0]) && next == Next(isa, cfg, s, steps[0])
    ensures Leads(isa, cfg, next, steps[1..], last)
  {
    next := Next(isa, cfg, s, steps[0]);
  }

  lemma Split<T>(xs: seq<T>, ys: seq<T>)
    requires xs != []
    ensures xs + ys == [xs[0]] + (xs[1..] + ys)
  {
  }

  lemma {:induction false} LeadsConcat(isa: Arch, cfg: Config, s: State, xs: seq<Step>, mid: State, ys: seq<Step>,
      last: State)
    requires ConfigOk(cfg) && Leads(isa, cfg, s, xs, mid) && Leads(isa, cfg, mid, ys, last)
    ensures Leads(isa, cfg, s, xs + ys, last)
    decreases |xs|
  {
    if xs == [] {
      assert xs + ys == ys;
    } else {
      var next := LeadsTail(isa, cfg, s, xs, mid);
      LeadsConcat(isa, cfg, next, xs[1..], mid, ys, last);
      LeadsStep(isa, cfg, s, xs[0], next, xs[1..] + ys, last);
      Split(xs, ys);
    }
  }

  /** s is reached from a reset state by some run. */
  ghost predicate Reached(isa: Arch, cfg: Config, reset: State, resetpc: Pc, steps: seq<Step>, s: State) {
    && ConfigOk(cfg) && WellFormed(isa, cfg.nregs) && Init(cfg, reset, resetpc)
    && Leads(isa, cfg, reset, steps, s)
  }

  /** The hart at reset. */
  function FirstHart(reset: State, resetpc: Pc): Hart { Hart(resetpc, reset.regs, reset.csr) }

  lemma StepKeepsInv(isa: Arch, cfg: Config, first: Hart, s: State, step: Step)
    requires Inv(isa, cfg, first, s) && Allowed(isa, cfg, s, step)
    ensures Inv(isa, cfg, first, Next(isa, cfg, s, step))
  {
    match step
    case StepGen(resp) => FrontProofs.GenKeeps(isa, cfg, first, s, resp);
    case StepProcess => FrontProofs.ProcessKeeps(isa, cfg, first, s);
    case StepDecode(irq) => FrontProofs.DecodeKeeps(isa, cfg, first, s, irq);
    case StepDrop => FrontProofs.DropKeeps(isa, cfg, first, s);
    case StepIssue => IssueProofs.IssueKeeps(isa, cfg, first, s);
    case StepCollect(resp) => BackProofs.CollectKeeps(isa, cfg, first, s, resp);
    case StepRetire(io) => BackProofs.RetireKeeps(isa, cfg, first, s, io);
  }

  lemma MicroStep(isa: Arch, cfg: Config, first: Hart, s: State, step: Step)
    requires Inv(isa, cfg, first, s) && MicroOk(s) && Can(isa, cfg, s, step)
    ensures MicroOk(Next(isa, cfg, s, step))
  {
    MicroTraps.StepKeeps(isa, cfg, s, step);
  }

  /** Every run keeps the invariant, whatever the order of the rules, the latencies and the depths. */
  lemma {:induction false} RunKeeps(isa: Arch, cfg: Config, first: Hart, s: State, steps: seq<Step>, last: State)
    requires Inv(isa, cfg, first, s) && MicroOk(s) && Leads(isa, cfg, s, steps, last)
    ensures Inv(isa, cfg, first, last) && MicroOk(last)
    decreases |steps|
  {
    if steps != [] {
      StepKeepsInv(isa, cfg, first, s, steps[0]);
      MicroStep(isa, cfg, first, s, steps[0]);
      RunKeeps(isa, cfg, first, Next(isa, cfg, s, steps[0]), steps[1..], last);
    }
  }

  /** Every run from s records what the one-instruction-at-a-time machine records. */
  ghost predicate Safe(isa: Arch, cfg: Config, first: Hart, s: State)
    requires ConfigOk(cfg)
  {
    forall steps, last :: Leads(isa, cfg, s, steps, last) ==> Records(isa, first, last.log)
  }

  lemma InvIsSafe(isa: Arch, cfg: Config, first: Hart, s: State)
    requires Inv(isa, cfg, first, s) && MicroOk(s)
    ensures Safe(isa, cfg, first, s)
  {
    forall steps, last | Leads(isa, cfg, s, steps, last)
      ensures Records(isa, first, last.log)
    {
      RunKeeps(isa, cfg, first, s, steps, last);
    }
  }

  lemma ReachedOk(isa: Arch, cfg: Config, reset: State, resetpc: Pc, steps: seq<Step>, s: State)
    requires Reached(isa, cfg, reset, resetpc, steps, s)
    ensures Inv(isa, cfg, FirstHart(reset, resetpc), s) && MicroOk(s)
  {
    InitEstablishes(isa, cfg, reset, resetpc);
    assert InFlight(reset) == [];
    RunKeeps(isa, cfg, FirstHart(reset, resetpc), reset, steps, s);
  }

  // ---------- refinement ----------

  /** The pipeline implements the one-instruction-at-a-time machine: on every run, the completed
      instructions, with the operands they used and the values they committed, are exactly those of that
      machine, and the register file and the CSRs are its register file and CSRs. */
  lemma PipelineRefinesIsa(isa: Arch, cfg: Config, reset: State, resetpc: Pc, steps: seq<Step>, s: State)
    requires Reached(isa, cfg, reset, resetpc, steps, s)
    ensures Records(isa, FirstHart(reset, resetpc), s.log)
    ensures RunTo(isa, FirstHart(reset, resetpc), s.log) == Hart(s.apc, s.regs, s.csr)
  {
    ReachedOk(isa, cfg, reset, resetpc, steps, s);
  }

  // ---------- epochs ----------

  /** Items between fetch and execute come from at most three generations, in fetch order, and two of them
      carry the same epochs exactly when no flush lies between them. */
  lemma GenerationsInOrder(isa: Arch, cfg: Config, reset: State, resetpc: Pc, steps: seq<Step>, s: State, i: nat,
      j: nat)
    requires Reached(isa, cfg, reset, resetpc, steps, s) && i <= j < |Tags(s)|
    ensures var (a, b) := (Tags(s)[i], Tags(s)[j]);
      && a.born <= b.born <= s.f.cur.born <= a.born + 2
      && (SameEpochs(a, b) <==> a.born == b.born)
      && (SameEpochs(a, s.f.cur) <==> a.born == s.f.cur.born)
  {
    ReachedOk(isa, cfg, reset, resetpc, steps, s);
    GenerationsDistinct(Tags(s), s.f.cur, Busy(s), i, j);
    TagCompareIsExact(Tags(s), s.f.cur, Busy(s), i);
    TagCompareIsExact(Tags(s), s.f.cur, Busy(s), j);
  }

  // ---------- scoreboard ----------

  /** A register is locked exactly when an instruction in flight has it as its destination, and the id in
      the scoreboard is then the id of the youngest such instruction. */
  lemma LockedExactly(isa: Arch, cfg: Config, reset: State, resetpc: Pc, steps: seq<Step>, s: State, r: nat)
    requires Reached(isa, cfg, reset, resetpc, steps, s) && 0 < r < cfg.nregs
    ensures |s.board.entries| == cfg.nregs
    ensures var fl := InFlight(s); var k := Scoreboard.Youngest(Holders(fl), r);
      if s.board.entries[r].lock then
        0 <= k < |fl| && fl[k].ins.rd == r && fl[k].id == s.board.entries[r].id
        && forall j :: k < j < |fl| ==> fl[j].ins.rd != r
      else forall j :: 0 <= j < |fl| ==> fl[j].ins.rd != r
  {
    ReachedOk(isa, cfg, reset, resetpc, steps, s);
    var hs := Holders(InFlight(s));
    assert Scoreboard.EntryOk(s.board.entries[r], hs, r, cfg.ids);
    Scoreboard.YoungestSpec(hs, r);
    var k := Scoreboard.Youngest(hs, r);
    if s.board.entries[r].lock {
      InFlightId(cfg, s, k);
    }
    forall j | k < j < |hs|
      ensures InFlight(s)[j].ins.rd != r
    {
      assert hs[j].rd != r;
    }
  }

  /** The rename ids of the instructions in flight are pairwise distinct, although the counter wraps. */
  lemma IdsNeverClash(isa: Arch, cfg: Config, reset: State, resetpc: Pc, steps: seq<Step>, s: State, i: nat, j: nat)
    requires Reached(isa, cfg, reset, resetpc, steps, s) && i < j < |InFlight(s)|
    ensures InFlight(s)[i].id != InFlight(s)[j].id
  {
    ReachedOk(isa, cfg, reset, resetpc, steps, s);
    InFlightId(cfg, s, i);
    InFlightId(cfg, s, j);
    Scoreboard.IdsDistinct(s.board, Holders(InFlight(s)), s.issued, cfg.ids, i, j);
  }

  /** The id width chosen at configuration time, ceil(log2(s34 + s45)) bits, gives enough ids, and one bit less
      would not. */
  lemma IdWidthFits(cfg: Config)
    requires cfg.nregs > 0 && cfg.s01 > 0 && cfg.s12 > 0 && cfg.s34 > 0 && cfg.s45 > 0
    requires cfg.ids == Pow2(CeilLog2(cfg.s34 + cfg.s45))
    ensures ConfigOk(cfg) && Pow2(CeilLog2(cfg.s34 + cfg.s45) - 1) < cfg.s34 + cfg.s45
  {
    CeilLog2Spec(cfg.s34 + cfg.s45);
  }

  /** With nothing in flight every lock is open. */
  lemma EmptyMeansUnlocked(cfg: Config, s: State, r: nat)
    requires BoardOk(cfg, s) && InFlight(s) == [] && r < |s.board.entries|
    ensures !s.board.entries[r].lock
  {
    assert Scoreboard.EntryOk(s.board.entries[r], Holders(InFlight(s)), r, cfg.ids);
    Scoreboard.YoungestSpec(Holders(InFlight(s)), r);
  }

  /** The retirement of the oldest instruction, committed or dropped, leaves the lock of a younger writer
      as it is. */
  lemma OlderNeverUnlocks(isa: Arch, cfg: Config, reset: State, resetpc: Pc, steps: seq<Step>, s: State, io: IoResp,
      k: nat)
    requires Reached(isa, cfg, reset, resetpc, steps, s) && s.x45 != [] && 0 < k < |InFlight(s)|
    requires var r := InFlight(s)[k].ins.rd; 0 < r < cfg.nregs
    ensures var r := InFlight(s)[k].ins.rd; var s' := Retire(isa, s, io);
      |s'.board.entries| == |s.board.entries| == cfg.nregs
      && s'.board.entries[r] == s.board.entries[r] && s.board.entries[r].lock
  {
    ReachedOk(isa, cfg, reset, resetpc, steps, s);
    ReleaseFrame(cfg, s, k);
    X45At(cfg, s.x45, 0);
    RetireBoard(isa, cfg, s, io);
  }

  lemma ReleaseFrame(cfg: Config, s: State, k: nat)
    requires ShapeOk(cfg, s) && BoardOk(cfg, s) && s.x45 != [] && 0 < k < |InFlight(s)|
    requires var r := InFlight(s)[k].ins.rd; 0 < r < cfg.nregs
    ensures var r := InFlight(s)[k].ins.rd; var b := Scoreboard.Release(s.board, s.x45[0].ins.rd, s.x45[0].id);
      |b.entries| == |s.board.entries| && b.entries[r] == s.board.entries[r] && s.board.entries[r].lock
  {
    var (fl, hs, r) := (InFlight(s), Holders(InFlight(s)), InFlight(s)[k].ins.rd);
    assert fl[0] == s.x45[0] && hs[k].rd == r;
    Scoreboard.YoungestSpec(hs, r);
    assert Scoreboard.EntryOk(s.board.entries[r], hs, r, cfg.ids);
    InFlightId(cfg, s, 0);
    Scoreboard.IdsDistinct(s.board, hs, s.issued, cfg.ids, 0, Scoreboard.Youngest(hs, r));
  }

  lemma RetireBoard(isa: Arch, cfg: Config, s: State, io: IoResp)
    requires s.x45 != [] && InX45(cfg, s.x45[0])
    ensures var b := Retire(isa, s, io).board;
      b == s.board || b == Scoreboard.Release(s.board, s.x45[0].ins.rd, s.x45[0].id)
  {
  }

  // ---------- operands ----------

  /** In every reached state, whenever an operand of the decoded instruction is available, the value used is the
      result of the youngest instruction in flight that writes the register, which is live; or the content of the
      register file when there is none; or the constant of the instruction. */
  lemma OperandIsYoungest(isa: Arch, cfg: Config, reset: State, resetpc: Pc, steps: seq<Step>, s: State)
    requires Reached(isa, cfg, reset, resetpc, steps, s) && s.s23.Some?
    ensures var ins := s.s23.value.ins;
      && (Available(s, s.op1) ==> Delivered(s, ins.rs1, Value(s, s.op1)))
      && (Available(s, s.op2) && ins.src2.IntegerRF? ==> Delivered(s, ins.rs2, Value(s, s.op2)))
      && (ins.src2.Constant? && NeedsOp2(ins) && !IsFence(ins) ==>
            Available(s, s.op2) && Value(s, s.op2) == ins.src2.value)
      && (Available(s, s.opd) ==> Delivered(s, ins.rd, Value(s, s.opd)))
  {
    ReachedOk(isa, cfg, reset, resetpc, steps, s);
    var ins := s.s23.value.ins;
    if Available(s, s.op1) {
      DeliversYoungest(cfg, s, s.op1, ins.rs1);
    }
    if ins.src2.Constant? {
      if ins.rs2 == 0 {
        ConstantIsKept(cfg, s, s.op2);
      }
    } else if Available(s, s.op2) {
      DeliversYoungest(cfg, s, s.op2, ins.rs2);
    }
    if Available(s, s.opd) {
      DeliversYoungest(cfg, s, s.opd, ins.rd);
    }
  }

  // ---------- queues ----------

  predicate QueuesFit(cfg: Config, s: State) {
    |s.f.queue| <= cfg.s01 && |s.s12| <= cfg.s12 && |s.x34| <= cfg.s34 && |s.x45| <= cfg.s45
  }

  predicate Shrinks(s: State, s': State) {
    |s'.x45| <= |s.x45| && s'.x34 == s.x34 && s'.s12 == s.s12 && s'.f.queue == s.f.queue
  }

  lemma TrapShrinks(isa: Arch, s: State)
    requires s.x45 != [] && s.x45[0].out.Trap?
    ensures Shrinks(s, RetireTrap(isa, s))
  {
  }

  lemma SystemShrinks(isa: Arch, s: State)
    requires s.x45 != []
    ensures Shrinks(s, RetireSystem(isa, s))
  {
  }

  lemma MemOpShrinks(isa: Arch, s: State, io: IoResp)
    requires s.x45 != [] && s.x45[0].out.MemOp?
    ensures Shrinks(s, RetireMemOp(isa, s, io))
  {
  }

  lemma RetireShrinks(isa: Arch, s: State, io: IoResp)
    requires s.x45 != []
    ensures Shrinks(s, Retire(isa, s, io))
  {
    if s.x45[0].w == s.f.cur.w {
      match s.x45[0].out
      case Trap(_, _, _) => TrapShrinks(isa, s);
      case System => SystemShrinks(isa, s);
      case MemOp(_, _) => MemOpShrinks(isa, s, io);
      case _ =>
    }
  }

  lemma StepFits(isa: Arch, cfg: Config, s: State, step: Step)
    requires ConfigOk(cfg) && Can(isa, cfg, s, step) && QueuesFit(cfg, s)
    ensures QueuesFit(cfg, Next(isa, cfg, s, step))
  {
    if step.StepRetire? {
      RetireShrinks(isa, s, step.io);
    }
  }

  lemma {:induction false} RunFits(isa: Arch, cfg: Config, s: State, steps: seq<Step>, last: State)
    requires ConfigOk(cfg) && QueuesFit(cfg, s) && Leads(isa, cfg, s, steps, last)
    ensures QueuesFit(cfg, last)
    decreases |steps|
  {
    if steps != [] {
      StepFits(isa, cfg, s, steps[0]);
      RunFits(isa, cfg, Next(isa, cfg, s, steps[0]), steps[1..], last);
    }
  }

  /** No queue ever holds more than its depth. */
  lemma NoQueueOverflows(isa: Arch, cfg: Config, reset: State, resetpc: Pc, steps: seq<Step>, s: State)
    requires Reached(isa, cfg, reset, resetpc, steps, s)
    ensures |s.f.queue| <= cfg.s01 && |s.s12| <= cfg.s12 && |s.x34| <= cfg.s34 && |s.x45| <= cfg.s45
  {
    RunFits(isa, cfg, reset, steps, s);
  }

  // ---------- CSR accesses ----------

  /** After a CSR access, an xRET or a fence has been decoded, at most one more instruction of its epoch has left
      decode: its micro-trap, which stalls decode until it is taken. */
  lemma OneRerunFollows(isa: Arch, cfg: Config, reset: State, resetpc: Pc, steps: seq<Step>, s: State, i: nat)
    requires Reached(isa, cfg, reset, resetpc, steps, s)
    requires i < |InFlight(s)| && LiveMark(InFlight(s)[i], s.f.cur.w)
    ensures var fl := InFlight(s);
      || (i == |fl| - 1 && Followed(s, fl[i].ins) && (DecLive(s) ==> s.stall && !s.rerun))
      || (&& i == |fl| - 2 && RerunAfter(fl[i + 1].ins, fl[i + 1].how, fl[i].ins)
          && s.stall && !s.rerun && !DecLive(s))
  {
    ReachedOk(isa, cfg, reset, resetpc, steps, s);
    AtMostOneFollows(s, i);
  }

  /** Decode is stalled exactly while the last instruction it has accepted is a live trap: an exception, an interrupt
      or a micro-trap. */
  lemma StalledExactly(isa: Arch, cfg: Config, reset: State, resetpc: Pc, steps: seq<Step>, s: State)
    requires Reached(isa, cfg, reset, resetpc, steps, s)
    ensures var fl := InFlight(s);
      s.stall <==>
        if DecLive(s) then s.s23.value.ins.itype == TRAP
        else fl != [] && fl[|fl| - 1].w == s.f.cur.w && fl[|fl| - 1].ins.itype == TRAP
  {
    ReachedOk(isa, cfg, reset, resetpc, steps, s);
  }

  /** When a CSR access has been performed, everything live behind it is a micro-trap: whatever completes after
      it is decoded after it. */
  lemma DecodedAfterCsr(isa: Arch, cfg: Config, reset: State, resetpc: Pc, steps: seq<Step>, s: State, io: IoResp,
      j: nat)
    requires Reached(isa, cfg, reset, resetpc, steps, s) && s.x45 != [] && LiveMark(s.x45[0], s.f.cur.w)
    ensures var s' := Retire(isa, s, io);
      && (j < |InFlight(s')| && InFlight(s')[j].w == s'.f.cur.w ==> InFlight(s')[j].how.Rerun?)
      && (DecLive(s') ==> DecRerun(s'))
  {
    ReachedOk(isa, cfg, reset, resetpc, steps, s);
    NothingDecodedTooEarly(isa, cfg, s, io, j);
  }
}
