/** Micro-traps: behind a CSR access, an xRET or a fence at most one more instruction leaves decode, and it
    only makes the fetch start again at its own pc. */
module MicroTraps {
  import opened Types
  import opened Isa
  import opened Epochs
  import opened Pipeline
  import opened Spine
  import opened Invariant
  import Fetch
  import BackProofs

  /** The decoder asks for a re-run of whatever follows this instruction. */
  predicate Marks(ins: Instr, how: How) { how.Normal? && ins.microtrap }

  predicate Tame(ins: Instr, how: How) { how.Rerun? ==> ins.itype.TRAP? }

  predicate LiveMark(e: Entry, w: bool) { e.w == w && Marks(e.ins, e.how) }

  /** The cause under which the follower is re-run, as a number (src/trap.defines:54-56): 3 after a CSR access or an
      xRET; 1 after a FENCE.I, when the caches are flushed as well; 2 after a FENCE. */
  function CauseOf(ins: Instr): nat {
    if ins.itype == SYSTEM_INSTR then 3 else if ins.access == FenceI then 1 else 2
  }

  /** A micro-trap that the instruction `of` has asked for. */
  predicate RerunAfter(ins: Instr, how: How, of: Instr) { how.Rerun? && ins.funct == CauseOf(of) }

  /** In flight, a live marking instruction is followed by nothing but its re-run. */
  predicate MarksOk(fl: seq<Entry>, w: bool)
    decreases |fl|
  {
    fl == [] ||
    (&& Tame(fl[0].ins, fl[0].how)
     && (|fl| > 1 && LiveMark(fl[0], w) ==> RerunAfter(fl[1].ins, fl[1].how, fl[0].ins))
     && MarksOk(fl[1..], w))
  }

  predicate DecRerun(s: State) { s.s23.Some? && s.s23.value.how.Rerun? }

  /** The next instruction to be decoded is going to be re-run on behalf of `of`. */
  predicate Pending(s: State, of: Instr) { s.rerun && s.rerunCause == CauseOf(of) }

  /** So is the decoded instruction, or the next one. */
  predicate Followed(s: State, of: Instr) {
    if DecLive(s) then RerunAfter(s.s23.value.ins, s.s23.value.how, of) else Pending(s, of)
  }

  /** The instruction that decode accepted last and that is still live, if any, asked for the re-run. */
  predicate LastAsked(s: State) {
    var fl := InFlight(s);
    if DecLive(s) then Marks(s.s23.value.ins, s.s23.value.how) && !s.s23.value.ins.itype.TRAP?
    else fl != [] && fl[|fl| - 1].w == s.f.cur.w ==>
      Marks(fl[|fl| - 1].ins, fl[|fl| - 1].how) && !fl[|fl| - 1].ins.itype.TRAP?
  }

  /** The instruction that decode accepted last is still live, and it is a micro-trap: it asks for no other one. */
  predicate LastIsRerun(s: State) {
    var fl := InFlight(s);
    if DecLive(s) then DecRerun(s) else fl != [] && fl[|fl| - 1].w == s.f.cur.w && fl[|fl| - 1].how.Rerun?
  }

  predicate MicroOk(s: State) {
    var fl := InFlight(s);
    && MarksOk(fl, s.f.cur.w)
    && (s.s23.Some? ==> Tame(s.s23.value.ins, s.s23.value.how))
    && (DecLive(s) && Marks(s.s23.value.ins, s.s23.value.how) ==> Pending(s, s.s23.value.ins))
    && (DecLive(s) && IsControl(s.s23.value.ins) ==> !s.rerun)
    && (fl != [] && LiveMark(fl[|fl| - 1], s.f.cur.w) ==> Followed(s, fl[|fl| - 1].ins))
    && (s.rerun && !s.stall ==> LastAsked(s))
    && (s.rerun ==> !LastIsRerun(s))
  }

  lemma {:induction false} MarksSnoc(fl: seq<Entry>, w: bool, e: Entry)
    requires MarksOk(fl, w) && Tame(e.ins, e.how)
    requires fl != [] && LiveMark(fl[|fl| - 1], w) ==> RerunAfter(e.ins, e.how, fl[|fl| - 1].ins)
    ensures MarksOk(fl + [e], w)
    decreases |fl|
  {
    if fl == [] {
      assert fl + [e] == [e];
    } else {
      assert (fl + [e])[1..] == fl[1..] + [e];
      MarksSnoc(fl[1..], w, e);
    }
  }

  lemma {:induction false} MarksReplace(a: seq<Entry>, e: Entry, e': Entry, c: seq<Entry>, w: bool)
    requires e.w == e'.w && e.ins == e'.ins && e.how == e'.how
    requires MarksOk(a + ([e] + c), w)
    ensures MarksOk(a + ([e'] + c), w)
    decreases |a|
  {
    if a == [] {
      assert a + ([e] + c) == [e] + c && a + ([e'] + c) == [e'] + c;
      assert ([e] + c)[1..] == c && ([e'] + c)[1..] == c;
    } else {
      assert (a + ([e] + c))[1..] == a[1..] + ([e] + c);
      assert (a + ([e'] + c))[1..] == a[1..] + ([e'] + c);
      MarksReplace(a[1..], e, e', c, w);
    }
  }

  /** A change of epoch makes every mark stale. */
  lemma {:induction false} MarksStale(fl: seq<Entry>, w: bool)
    requires MarksOk(fl, w) && AllEpoch(fl, w)
    ensures MarksOk(fl, !w) && (fl != [] ==> fl[|fl| - 1].w == w)
    decreases |fl|
  {
    if fl != [] {
      MarksStale(fl[1..], w);
    }
  }

  lemma {:induction false} MarkAt(fl: seq<Entry>, w: bool, i: nat)
    requires MarksOk(fl, w) && i + 1 < |fl| && LiveMark(fl[i], w)
    ensures RerunAfter(fl[i + 1].ins, fl[i + 1].how, fl[i].ins) && fl[i + 1].ins.itype.TRAP?
    decreases |fl|
  {
    if i == 0 {
      assert MarksOk(fl[1..], w);
    } else {
      MarkAt(fl[1..], w, i - 1);
    }
  }

  lemma {:induction false} OrderedAt(fl: seq<Entry>, w: bool, i: nat, j: nat)
    requires Ordered(fl, w) && i <= j < |fl| && fl[i].w == w
    ensures fl[j].w == w
    decreases |fl|
  {
    if fl[0].w == w {
      AllEpochAt(fl, w, j);
    } else {
      OrderedAt(fl[1..], w, i - 1, j - 1);
    }
  }

  lemma {:induction false} TrapAt(fl: seq<Entry>, w: bool, i: nat)
    requires TrapsLast(fl, w) && i < |fl| && LiveTrap(fl[i], w)
    ensures i == |fl| - 1
    decreases |fl|
  {
    if i > 0 {
      TrapAt(fl[1..], w, i - 1);
    }
  }

  // ---------- every step ----------

  /** Steps that change neither the back end nor the decoded instruction. */
  lemma FrontKeeps(s: State, s': State)
    requires MicroOk(s) && s'.x34 == s.x34 && s'.x45 == s.x45 && s'.f.cur == s.f.cur && s'.rerun == s.rerun
          && s'.rerunCause == s.rerunCause && s'.stall == s.stall
    requires s'.s23 == s.s23 || (s'.s23.None? && !DecLive(s))
    ensures MicroOk(s')
  {
    assert InFlight(s') == InFlight(s);
  }

  /** What decode notes with the instruction it accepts. */
  lemma AcceptNotes(isa: Arch, cfg: Config, s: State, irq: Option<nat>)
    requires WellFormed(isa, cfg.nregs) && CanDecode(isa, s, irq) && Live(s, s.s12[0].tag)
    ensures var (d, s') := (Decoded(isa, s, s.s12[0], irq), Decode(isa, s, irq));
      && s'.s23 == Some(d) && Tame(d.ins, d.how) && (Marks(d.ins, d.how) ==> Pending(s', d.ins))
      && (IsControl(d.ins) || d.how.Rerun? ==> !s'.rerun)
      && (s'.rerun && !s'.stall ==> Marks(d.ins, d.how) && !d.ins.itype.TRAP?)
      && (s.rerun ==> d.how.Rerun? && d.ins.funct == s.rerunCause)
  {
    assert DecodeOk(isa.decode(s.s12[0].bits, s.csr), cfg.nregs);
  }

  lemma AcceptKeeps(s: State, s': State)
    requires MicroOk(s) && s.s23.None? && s'.s23.Some? && DecLive(s')
    requires s'.x34 == s.x34 && s'.x45 == s.x45 && s'.f.cur == s.f.cur
    requires var d := s'.s23.value;
      && Tame(d.ins, d.how) && (Marks(d.ins, d.how) ==> Pending(s', d.ins))
      && (IsControl(d.ins) || d.how.Rerun? ==> !s'.rerun)
      && (s'.rerun && !s'.stall ==> Marks(d.ins, d.how) && !d.ins.itype.TRAP?)
      && (s.rerun ==> d.how.Rerun? && d.ins.funct == s.rerunCause)
    ensures MicroOk(s')
  {
    assert InFlight(s') == InFlight(s);
  }

  lemma DecodeKeeps(isa: Arch, cfg: Config, s: State, irq: Option<nat>)
    requires WellFormed(isa, cfg.nregs) && MicroOk(s) && CanDecode(isa, s, irq)
    ensures MicroOk(Decode(isa, s, irq))
  {
    if Live(s, s.s12[0].tag) {
      AcceptNotes(isa, cfg, s, irq);
      AcceptKeeps(s, Decode(isa, s, irq));
    } else {
      FrontKeeps(s, Decode(isa, s, irq));
    }
  }

  /** An issue leaves the micro-trap machine alone: no redirect finds it at work. */
  lemma IssueNotes(isa: Arch, cfg: Config, s: State)
    requires MicroOk(s) && StallOk(s) && cfg.ids > 0 && CanIssue(cfg, s)
    ensures var s' := Issue(isa, cfg, s);
      && s'.x34 == s.x34 + [Issued(isa, s)] && s'.x45 == s.x45 && s'.s23.None? && s'.f.cur.w == s.f.cur.w
      && s'.rerun == s.rerun && s'.rerunCause == s.rerunCause && s'.stall == s.stall
  {
  }

  lemma EnterKeeps(s: State, s': State, e: Entry)
    requires MicroOk(s) && DecLive(s) && e.ins == s.s23.value.ins && e.how == s.s23.value.how && e.w == s.f.cur.w
    requires s'.x34 == s.x34 + [e] && s'.x45 == s.x45 && s'.s23.None? && s'.f.cur.w == s.f.cur.w
    requires s'.rerun == s.rerun && s'.rerunCause == s.rerunCause && s'.stall == s.stall
    ensures MicroOk(s')
  {
    Assoc(s.x45, s.x34, [e]);
    MarksSnoc(InFlight(s), s.f.cur.w, e);
  }

  lemma IssueKeeps(isa: Arch, cfg: Config, s: State)
    requires MicroOk(s) && StallOk(s) && cfg.ids > 0 && CanIssue(cfg, s)
    ensures MicroOk(Issue(isa, cfg, s))
  {
    IssueNotes(isa, cfg, s);
    EnterKeeps(s, Issue(isa, cfg, s), Issued(isa, s));
  }

  lemma CollectKeeps(isa: Arch, cfg: Config, s: State, resp: MemResp)
    requires MicroOk(s) && CanCollect(cfg, s, resp)
    ensures MicroOk(Collect(isa, s, resp))
  {
    var (a, e, e', c) := (s.x45, s.x34[0], Collected(isa, s.x34[0], resp), s.x34[1..]);
    BackProofs.CollectFlight(isa, s, resp);
    BackProofs.ReplaceLast(a, e, e', c);
    MarksReplace(a, e, e', c, s.f.cur.w);
  }

  /** What a retirement does to the instructions in flight and to decode: the oldest one leaves, and there
      may be a flush. */
  predicate Popped(s: State, s': State)
    requires s.x45 != []
  {
    && s'.x45 == s.x45[1..] && s'.x34 == s.x34 && s'.s23 == s.s23
    && (|| (s'.f == s.f && s'.rerun == s.rerun && s'.rerunCause == s.rerunCause && s'.stall == s.stall)
        || (s.x45[0].w == s.f.cur.w && s'.f.cur == Toggle(s.f.cur, FromWriteBack)))
  }

  lemma RetireTrapPops(isa: Arch, s: State)
    requires s.x45 != [] && s.x45[0].out.Trap? && s.x45[0].w == s.f.cur.w
    ensures Popped(s, RetireTrap(isa, s))
  {
  }

  lemma RetireSystemPops(isa: Arch, s: State)
    requires s.x45 != [] && s.x45[0].w == s.f.cur.w
    ensures Popped(s, RetireSystem(isa, s))
  {
  }

  lemma RetireMemOpPops(isa: Arch, s: State, io: IoResp)
    requires s.x45 != [] && s.x45[0].out.MemOp? && s.x45[0].w == s.f.cur.w
    ensures Popped(s, RetireMemOp(isa, s, io))
  {
  }

  lemma RetirePops(isa: Arch, cfg: Config, s: State, io: IoResp)
    requires s.x45 != [] && InX45(cfg, s.x45[0])
    ensures Popped(s, Retire(isa, s, io))
  {
    if s.x45[0].w == s.f.cur.w {
      match s.x45[0].out
      case Trap(_, _, _) => RetireTrapPops(isa, s);
      case System => RetireSystemPops(isa, s);
      case MemOp(_, _) => RetireMemOpPops(isa, s, io);
      case _ =>
    }
  }

  /** A flush from write-back leaves no live instruction behind it. */
  lemma FlushLeavesNothing(s: State, s': State)
    requires OrderOk(s) && GenerationsOk(s) && s.x45 != [] && s.x45[0].w == s.f.cur.w
    requires Popped(s, s') && s'.f.cur == Toggle(s.f.cur, FromWriteBack)
    ensures InFlight(s') == InFlight(s)[1..] && AllEpoch(InFlight(s'), !s'.f.cur.w) && !DecLive(s')
  {
    LiveHead(s);
    TagsWriteBackFlush(Tags(s), s.f.cur);
    NoneCurrentConcat(DecTags(s.s23), TokTags(s.s12) + Fetch.UnitTags(s.f), s'.f.cur);
    assert InFlight(s') == InFlight(s)[1..];
  }

  lemma PopKeeps(s: State, s': State)
    requires OrderOk(s) && GenerationsOk(s) && MicroOk(s) && s.x45 != [] && Popped(s, s')
    ensures MicroOk(s')
  {
    assert InFlight(s') == InFlight(s)[1..];
    if s'.f != s.f {
      FlushLeavesNothing(s, s');
      MarksStale(InFlight(s'), s.f.cur.w);
    }
  }

  lemma RetireKeeps(isa: Arch, cfg: Config, s: State, io: IoResp)
    requires ShapeOk(cfg, s) && OrderOk(s) && GenerationsOk(s) && MicroOk(s) && s.x45 != []
    ensures MicroOk(Retire(isa, s, io))
  {
    X45At(cfg, s.x45, 0);
    RetirePops(isa, cfg, s, io);
    PopKeeps(s, Retire(isa, s, io));
  }

  lemma StepKeeps(isa: Arch, cfg: Config, s: State, step: Step)
    requires ConfigOk(cfg) && WellFormed(isa, cfg.nregs) && Can(isa, cfg, s, step)
    requires ShapeOk(cfg, s) && OrderOk(s) && GenerationsOk(s) && StallOk(s) && MicroOk(s)
    ensures MicroOk(Next(isa, cfg, s, step))
  {
    match step
    case StepGen(resp) => FrontKeeps(s, Gen(s, resp));
    case StepProcess => FrontKeeps(s, Process(isa, s));
    case StepDecode(irq) => DecodeKeeps(isa, cfg, s, irq);
    case StepDrop => FrontKeeps(s, Drop(s));
    case StepIssue => IssueKeeps(isa, cfg, s);
    case StepCollect(resp) => CollectKeeps(isa, cfg, s, resp);
    case StepRetire(io) => RetireKeeps(isa, cfg, s, io);
  }

  // ---------- what it means ----------

  /** After an instruction that asks for a re-run, at most one more of its epoch has left decode; that one is
      a micro-trap, and decode is stalled until it has been taken. */
  lemma AtMostOneFollows(s: State, i: nat)
    requires OrderOk(s) && StallOk(s) && MicroOk(s)
    requires i < |InFlight(s)| && LiveMark(InFlight(s)[i], s.f.cur.w)
    ensures var fl := InFlight(s);
      || (i == |fl| - 1 && Followed(s, fl[i].ins) && (DecLive(s) ==> s.stall && !s.rerun))
      || (&& i == |fl| - 2 && RerunAfter(fl[i + 1].ins, fl[i + 1].how, fl[i].ins)
          && s.stall && !s.rerun && !DecLive(s))
  {
    var fl := InFlight(s);
    if i + 1 < |fl| {
      MarkAt(fl, s.f.cur.w, i);
      OrderedAt(fl, s.f.cur.w, i, i + 1);
      TrapAt(fl, s.f.cur.w, i + 1);
    }
  }

  /** Whatever leaves decode ahead of the completion of a CSR access is re-run: when the access has been
      performed, everything live behind it is a micro-trap. */
  lemma NothingDecodedTooEarly(isa: Arch, cfg: Config, s: State, io: IoResp, j: nat)
    requires ShapeOk(cfg, s) && OrderOk(s) && GenerationsOk(s) && StallOk(s) && MicroOk(s)
    requires s.x45 != [] && LiveMark(s.x45[0], s.f.cur.w)
    ensures var s' := Retire(isa, s, io);
      && (j < |InFlight(s')| && InFlight(s')[j].w == s'.f.cur.w ==> InFlight(s')[j].how.Rerun?)
      && (DecLive(s') ==> DecRerun(s'))
  {
    var s' := Retire(isa, s, io);
    X45At(cfg, s.x45, 0);
    RetirePops(isa, cfg, s, io);
    OnlyReruns(s, s', j);
  }

  lemma OnlyReruns(s: State, s': State, j: nat)
    requires OrderOk(s) && GenerationsOk(s) && StallOk(s) && MicroOk(s) && s.x45 != [] && Popped(s, s')
    requires LiveMark(s.x45[0], s.f.cur.w)
    ensures j < |InFlight(s')| && InFlight(s')[j].w == s'.f.cur.w ==> InFlight(s')[j].how.Rerun?
    ensures DecLive(s') ==> DecRerun(s')
  {
    assert InFlight(s)[0] == s.x45[0];
    assert InFlight(s') == InFlight(s)[1..];
    if s'.f != s.f {
      FlushLeavesNothing(s, s');
      if j < |InFlight(s')| {
        AllEpochAt(InFlight(s'), !s'.f.cur.w, j);
      }
    } else {
      AtMostOneFollows(s, 0);
    }
  }

  /** Taking a micro-trap changes nothing but the fetch, which starts again at the trap's own pc. */
  lemma RerunRestarts(isa: Arch, cfg: Config, first: Hart, s: State, io: IoResp)
    requires Inv(isa, cfg, first, s) && s.x45 != [] && s.x45[0].w == s.f.cur.w && s.x45[0].how.Rerun?
    ensures var s' := Retire(isa, s, io);
      && s'.regs == s.regs && s'.csr == s.csr && s'.log == s.log && s'.apc == s.apc == s.x45[0].pc
      && Fetch.Pending(s'.f) == s.x45[0].pc && s'.f.cur == Toggle(s.f.cur, FromWriteBack)
      && (s'.f.fence <==> s.x45[0].ins.funct == 1)
  {
    BackProofs.HeadIsNext(isa, cfg, s);
    BackProofs.FlushTags(isa, PopRelease(s), s.x45[0].pc, Retire(isa, s, io).f.fence);
  }
}
