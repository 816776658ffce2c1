/** A decode in the cycle of a flush: the instruction enters the buffer in front of stage 3 although it is stale, and
    the flush wires mask its stall and its mark. */
module FlushedDecode {
  import opened Types
  import opened Isa
  import opened Epochs
  import opened Pipeline
  import opened Spine
  import opened Invariant
  import opened MicroTraps
  import opened Refinement
  import Fetch
  import BackProofs
  import FrontProofs
  import IssueProofs
  import SameCycle
  import StaleMicrotrap

  /** decode_and_opfetch beside a flush that leads from s to t in the same cycle: the epochs compared and the CSRs
      are those of s, and the stall and the mark of the instruction are masked. */
  function LateDecode(isa: Arch, s: State, t: State, irq: Option<nat>): State
    requires s.s12 != [] && t.s12 == s.s12
  {
    var d := Decoded(isa, s, s.s12[0], irq);
    t.(s12 := t.s12[1..], s23 := Some(d),
       op1 := Operand(d.ins.rs1, Read(t.regs, d.ins.rs1), true),
       op2 := Operand(d.ins.rs2, Second(d.ins, t.regs), d.ins.src2.IntegerRF?),
       opd := Operand(d.ins.rd, Read(t.regs, d.ins.rd), true),
       stall := false, rerun := false,
       rerunCause := if d.ins.itype.SYSTEM_INSTR? then CSR_RERUN
                     else if d.ins.access.FenceI? then FENCEI_RERUN else SFENCE_RERUN)
  }

  /** The flush has made everything in front of stage 3 stale, and no re-run is needed any more. */
  predicate Flushed(s: State, t: State) {
    && t.s12 == s.s12 != [] && t.s23.None? && !t.stall && NoneCurrent(TokTags(t.s12), t.f.cur)
    && (t.rerun ==> AllEpoch(InFlight(t), !t.f.cur.w))
  }

  lemma LateShape(isa: Arch, cfg: Config, s: State, t: State, irq: Option<nat>)
    requires WellFormed(isa, cfg.nregs) && ShapeOk(cfg, t) && Flushed(s, t)
    ensures var c := LateDecode(isa, s, t, irq);
      && ShapeOk(cfg, c) && OperandsOk(c) && InFlight(c) == InFlight(t) && Tags(c) == Tags(t) && !DecLive(c)
      && (c.s23.value.how.Rerun? ==> c.s23.value.ins.itype.TRAP?)
  {
    var c := LateDecode(isa, s, t, irq);
    assert DecodeOk(isa.decode(s.s12[0].bits, s.csr), cfg.nregs);
    Assoc([s.s12[0].tag], TokTags(s.s12[1..]), Fetch.UnitTags(t.f));
    assert [] + (TokTags(t.s12) + Fetch.UnitTags(t.f)) == TokTags(t.s12) + Fetch.UnitTags(t.f);
  }

  lemma LateSpine(isa: Arch, s: State, t: State, irq: Option<nat>)
    requires SpineOk(isa, t) && Flushed(s, t) && !DecLive(LateDecode(isa, s, t, irq))
    ensures SpineOk(isa, LateDecode(isa, s, t, irq))
  {
    var c := LateDecode(isa, s, t, irq);
    assert InFlight(c) == InFlight(t);
    ScanToksStale(isa, t.f.cur, AtIssue(isa, t), t.s12);
    ScanToksStale(isa, t.f.cur, AtIssue(isa, t), c.s12);
    if t.rerun {
      ScanStale(isa, t.f.cur.w, Arrived(t), InFlight(t));
    }
  }

  lemma LateMicro(isa: Arch, s: State, t: State, irq: Option<nat>)
    requires MicroOk(t) && Flushed(s, t)
    requires var c := LateDecode(isa, s, t, irq);
      && InFlight(c) == InFlight(t) && !DecLive(c) && (c.s23.value.how.Rerun? ==> c.s23.value.ins.itype.TRAP?)
    ensures MicroOk(LateDecode(isa, s, t, irq))
  {
    var fl := InFlight(t);
    if fl != [] && t.rerun {
      AllEpochAt(fl, !t.f.cur.w, |fl| - 1);
    }
  }

  lemma LateRest(s: State, t: State, c: State)
    requires GenerationsOk(t) && StallOk(t) && OrderOk(t) && Flushed(s, t)
    requires InFlight(c) == InFlight(t) && Tags(c) == Tags(t) && c.f == t.f && !c.stall && !DecLive(c)
    ensures GenerationsOk(c) && StallOk(c) && OrderOk(c)
  {
  }

  lemma LateKeeps(isa: Arch, cfg: Config, first: Hart, s: State, t: State, irq: Option<nat>)
    requires Inv(isa, cfg, first, t) && MicroOk(t) && Flushed(s, t)
    ensures Inv(isa, cfg, first, LateDecode(isa, s, t, irq)) && MicroOk(LateDecode(isa, s, t, irq))
  {
    var c := LateDecode(isa, s, t, irq);
    LateShape(isa, cfg, s, t, irq);
    LateSpine(isa, s, t, irq);
    LateMicro(isa, s, t, irq);
    LateRest(s, t, c);
    FrontProofs.SameBackEnd(isa, cfg, first, t, c);
  }

  // ---------- the three kinds of cycles ----------

  lemma FrontIsStale(s: State, cur: Tag)
    requires NoneCurrent(Tags(s), cur)
    ensures NoneCurrent(TokTags(s.s12), cur)
  {
    NoneCurrentConcat(DecTags(s.s23), TokTags(s.s12) + Fetch.UnitTags(s.f), cur);
    NoneCurrentConcat(TokTags(s.s12), Fetch.UnitTags(s.f), cur);
  }

  lemma AfterRedirect(isa: Arch, cfg: Config, reset: State, resetpc: Pc, steps: seq<Step>, s: State)
    requires Reached(isa, cfg, reset, resetpc, steps, s) && CanIssue(cfg, s) && Redirects(isa, s)
    ensures var t := Issue(isa, cfg, s);
      Inv(isa, cfg, FirstHart(reset, resetpc), t) && MicroOk(t) && Flushed(s, t)
  {
    ReachedOk(isa, cfg, reset, resetpc, steps, s);
    SameCycle.RedirectKeepsInv(isa, cfg, reset, resetpc, steps, s);
    StepKeeps(isa, cfg, s, StepIssue);
    StaleMicrotrap.ExecuteFlushLeavesNone(isa, cfg, reset, resetpc, steps, s);
    IssueProofs.IssueTags(isa, cfg, s);
    FrontIsStale(Entered(isa, cfg, s), Issue(isa, cfg, s).f.cur);
  }

  lemma AfterWriteBackFlush(isa: Arch, cfg: Config, first: Hart, s: State, io: IoResp)
    requires Inv(isa, cfg, first, s) && MicroOk(s) && s.x45 != [] && SameCycle.Raised(isa, s, io).Some?
    ensures var t := Retire(isa, s, io);
      && Inv(isa, cfg, first, t) && MicroOk(t) && !t.stall
      && NoneCurrent(TokTags(t.s12), t.f.cur) && AllEpoch(InFlight(t), !t.f.cur.w)
      && t.s12 == s.s12 && t.s23 == s.s23
  {
    BackProofs.RetireKeeps(isa, cfg, first, s, io);
    StepKeeps(isa, cfg, s, StepRetire(io));
    SameCycle.RetireLands(isa, cfg, first, s, io);
    FrontIsStale(Retire(isa, s, io), Retire(isa, s, io).f.cur);
    FlushedFront(isa, cfg, first, s, io);
  }

  lemma FlushedFront(isa: Arch, cfg: Config, first: Hart, s: State, io: IoResp)
    requires Inv(isa, cfg, first, s) && s.x45 != [] && SameCycle.Raised(isa, s, io).Some?
    ensures var t := Retire(isa, s, io); !t.stall && t.s12 == s.s12 && t.s23 == s.s23
  {
    BackProofs.HeadIsNext(isa, cfg, s);
    SameCycle.RetireIsCycle(isa, s, io);
    SameCycle.RetiredFront(isa, s, io);
  }

  /** Decode fires in the cycle in which execute redirects: everything that follows is right. */
  lemma BesideExecuteFlush(isa: Arch, cfg: Config, reset: State, resetpc: Pc, steps: seq<Step>, s: State,
      irq: Option<nat>)
    requires Reached(isa, cfg, reset, resetpc, steps, s) && CanIssue(cfg, s) && Redirects(isa, s)
    ensures Safe(isa, cfg, FirstHart(reset, resetpc), LateDecode(isa, s, Issue(isa, cfg, s), irq))
  {
    var (first, t) := (FirstHart(reset, resetpc), Issue(isa, cfg, s));
    AfterRedirect(isa, cfg, reset, resetpc, steps, s);
    LateKeeps(isa, cfg, first, s, t, irq);
    InvIsSafe(isa, cfg, first, LateDecode(isa, s, t, irq));
  }

  /** Decode fires in the cycle in which write-back flushes. */
  lemma BesideWriteBackFlush(isa: Arch, cfg: Config, reset: State, resetpc: Pc, steps: seq<Step>, s: State,
      irq: Option<nat>, io: IoResp)
    requires Reached(isa, cfg, reset, resetpc, steps, s) && s.s12 != [] && s.s23.None?
    requires s.x45 != [] && SameCycle.Raised(isa, s, io).Some?
    ensures Safe(isa, cfg, FirstHart(reset, resetpc), LateDecode(isa, s, Retire(isa, s, io), irq))
  {
    var (first, t) := (FirstHart(reset, resetpc), Retire(isa, s, io));
    ReachedOk(isa, cfg, reset, resetpc, steps, s);
    AfterWriteBackFlush(isa, cfg, first, s, io);
    LateKeeps(isa, cfg, first, s, t, irq);
    InvIsSafe(isa, cfg, first, LateDecode(isa, s, t, irq));
  }

  /** Decode fires in the cycle in which both flush. */
  lemma BesideBothFlushes(isa: Arch, cfg: Config, reset: State, resetpc: Pc, steps: seq<Step>, s: State,
      irq: Option<nat>, io: IoResp)
    requires Reached(isa, cfg, reset, resetpc, steps, s) && CanIssue(cfg, s) && Redirects(isa, s)
    requires s.x45 != [] && SameCycle.Raised(isa, Issue(isa, cfg, s), io).Some?
    ensures Safe(isa, cfg, FirstHart(reset, resetpc), LateDecode(isa, s, Retire(isa, Issue(isa, cfg, s), io), irq))
  {
    var (first, t) := (FirstHart(reset, resetpc), Retire(isa, Issue(isa, cfg, s), io));
    AfterRedirect(isa, cfg, reset, resetpc, steps, s);
    AfterWriteBackFlush(isa, cfg, first, Issue(isa, cfg, s), io);
    LateKeeps(isa, cfg, first, s, t, irq);
    InvIsSafe(isa, cfg, first, LateDecode(isa, s, t, irq));
  }
}
