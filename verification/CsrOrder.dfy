/** Decoding against completion: whatever completes behind a CSR access, an xRET or a fence has been decoded after
    it completed.  A monitor beside the pipeline notes, for every instruction, how many records there were when it
    was decoded. */
module CsrOrder {
  import opened Types
  import opened Isa
  import opened Pipeline
  import opened Spine
  import opened Invariant
  import opened MicroTraps
  import opened Refinement
  import BackProofs

  /** How many instructions had completed when the decoded instruction, each instruction in flight, and each
      instruction of the log was decoded.  No rule reads it. */
  datatype Ages = Ages(dec: nat, flight: seq<nat>, logged: seq<nat>)

  /** What a step from s to s' notes. */
  function Track(s: State, s': State, m: Ages, step: Step): Ages {
    match step
    case StepDecode(_) => if s'.s23.Some? then m.(dec := |s.log|) else m
    case StepIssue => m.(flight := m.flight + [m.dec])
    case StepRetire(_) =>
      if m.flight == [] then m
      else Ages(m.dec, m.flight[1..], if |s'.log| > |s.log| then m.logged + [m.flight[0]] else m.logged)
    case _ => m
  }

  /** The run leads to last, and the monitor to noted. */
  ghost predicate Tracks(isa: Arch, cfg: Config, s: State, m: Ages, steps: seq<Step>, last: State, noted: Ages)
    requires ConfigOk(cfg)
    decreases |steps|
  {
    if steps == [] then s == last && m == noted
    else
      && Allowed(isa, cfg, s, steps[0])
      && var s' := Next(isa, cfg, s, steps[0]);
      Tracks(isa, cfg, s', Track(s, s', m, steps[0]), steps[1..], last, noted)
  }

  // ---------- marked records ----------

  /** Record i was made by an instruction that asks for a re-run of its follower. */
  predicate MarkedAt(isa: Arch, first: Hart, log: seq<Commit>, i: nat)
    requires i < |log|
  {
    var s := RunTo(isa, first, log[..i]);
    !log[i].env.Interrupt? && DecodeAt(isa, s.pc, s.csr).microtrap
  }

  /** The length of the log up to the last marked record. */
  function Barrier(isa: Arch, first: Hart, log: seq<Commit>): (b: nat)
    ensures b <= |log|
    decreases |log|
  {
    if log == [] then 0
    else if MarkedAt(isa, first, log, |log| - 1) then |log|
    else Barrier(isa, first, log[..|log| - 1])
  }

  lemma MarkedInPrefix(isa: Arch, first: Hart, log: seq<Commit>, n: nat, i: nat)
    requires i < n <= |log|
    ensures MarkedAt(isa, first, log[..n], i) == MarkedAt(isa, first, log, i)
  {
    assert log[..n][..i] == log[..i];
  }

  lemma {:induction false} BarrierCovers(isa: Arch, first: Hart, log: seq<Commit>, i: nat)
    requires i < |log| && MarkedAt(isa, first, log, i)
    ensures i < Barrier(isa, first, log)
    decreases |log|
  {
    var n := |log| - 1;
    if i < n {
      MarkedInPrefix(isa, first, log, n, i);
      BarrierCovers(isa, first, log[..n], i);
    }
  }

  lemma BarrierSnoc(isa: Arch, first: Hart, log: seq<Commit>, c: Commit)
    ensures Barrier(isa, first, log + [c])
      == if MarkedAt(isa, first, log + [c], |log|) then |log| + 1 else Barrier(isa, first, log)
  {
    assert (log + [c])[..|log|] == log;
  }

  /** Every instruction of the log was decoded behind the last marked record in front of it. */
  predicate LoggedOk(isa: Arch, first: Hart, log: seq<Commit>, ages: seq<nat>)
    decreases |log|
  {
    && |ages| == |log|
    && (log != [] ==>
          && LoggedOk(isa, first, log[..|log| - 1], ages[..|log| - 1])
          && ages[|log| - 1] >= Barrier(isa, first, log[..|log| - 1]))
  }

  lemma {:induction false} LoggedAt(isa: Arch, first: Hart, log: seq<Commit>, ages: seq<nat>, j: nat)
    requires LoggedOk(isa, first, log, ages) && j < |log|
    ensures ages[j] >= Barrier(isa, first, log[..j])
    decreases |log|
  {
    var n := |log| - 1;
    if j < n {
      assert log[..n][..j] == log[..j];
      LoggedAt(isa, first, log[..n], ages[..n], j);
    }
  }

  lemma LoggedSnoc(isa: Arch, first: Hart, log: seq<Commit>, ages: seq<nat>, c: Commit, age: nat)
    requires LoggedOk(isa, first, log, ages) && age >= Barrier(isa, first, log)
    ensures LoggedOk(isa, first, log + [c], ages + [age])
  {
    assert (log + [c])[..|log|] == log && (ages + [age])[..|log|] == ages;
  }

  // ---------- in flight ----------

  /** Live instructions that are not re-run were decoded behind the barrier b. */
  predicate FlightOk(fl: seq<Entry>, ages: seq<nat>, w: bool, b: nat)
    decreases |fl|
  {
    && |ages| == |fl|
    && (fl != [] ==> (fl[0].w == w && !fl[0].how.Rerun? ==> ages[0] >= b) && FlightOk(fl[1..], ages[1..], w, b))
  }

  lemma {:induction false} FlightSnoc(fl: seq<Entry>, ages: seq<nat>, w: bool, b: nat, e: Entry, age: nat)
    requires FlightOk(fl, ages, w, b) && (e.w == w && !e.how.Rerun? ==> age >= b)
    ensures FlightOk(fl + [e], ages + [age], w, b)
    decreases |fl|
  {
    if fl == [] {
      assert fl + [e] == [e] && ages + [age] == [age];
    } else {
      assert (fl + [e])[1..] == fl[1..] + [e] && (ages + [age])[1..] == ages[1..] + [age];
      FlightSnoc(fl[1..], ages[1..], w, b, e, age);
    }
  }

  lemma {:induction false} FlightReplace(a: seq<Entry>, e: Entry, e': Entry, c: seq<Entry>, ages: seq<nat>, w: bool,
      b: nat)
    requires e.w == e'.w && e.how == e'.how && FlightOk(a + ([e] + c), ages, w, b)
    ensures FlightOk(a + ([e'] + c), ages, w, b)
    decreases |a|
  {
    if a == [] {
      assert a + ([e] + c) == [e] + c && a + ([e'] + c) == [e'] + c;
      assert ([e] + c)[1..] == c && ([e'] + c)[1..] == c;
    } else {
      assert (a + ([e] + c))[1..] == a[1..] + ([e] + c);
      assert (a + ([e'] + c))[1..] == a[1..] + ([e'] + c);
      FlightReplace(a[1..], e, e', c, ages[1..], w, b);
    }
  }

  /** Nothing is asked of stale instructions and of re-runs. */
  predicate AllSpared(fl: seq<Entry>, w: bool) {
    forall j :: 0 <= j < |fl| ==> fl[j].w == w ==> fl[j].how.Rerun?
  }

  lemma {:induction false} Spared(fl: seq<Entry>, ages: seq<nat>, w: bool, b: nat)
    requires |ages| == |fl| && AllSpared(fl, w)
    ensures FlightOk(fl, ages, w, b)
    decreases |fl|
  {
    if fl != [] {
      Spared(fl[1..], ages[1..], w, b);
    }
  }

  ghost predicate AgesOk(isa: Arch, first: Hart, s: State, m: Ages) {
    var b := Barrier(isa, first, s.log);
    && LoggedOk(isa, first, s.log, m.logged)
    && FlightOk(InFlight(s), m.flight, s.f.cur.w, b)
    && (DecLive(s) && !DecRerun(s) ==> m.dec >= b)
  }

  // ---------- retirements ----------

  /** Between s and s' nothing is recorded, or the live instruction at the head is, and its record is marked only
      if it asks for a re-run. */
  ghost predicate Recorded(isa: Arch, first: Hart, s: State, s': State)
    requires s.x45 != []
  {
    var e := s.x45[0];
    || s'.log == s.log
    || (&& e.w == s.f.cur.w && !e.how.Rerun?
        && |s'.log| == |s.log| + 1 && s'.log[..|s.log|] == s.log
        && (MarkedAt(isa, first, s'.log, |s.log|) ==> LiveMark(e, s.f.cur.w)))
  }

  lemma RecordMarked(isa: Arch, cfg: Config, first: Hart, s: State, io: IoResp)
    requires Inv(isa, cfg, first, s) && s.x45 != []
    ensures Recorded(isa, first, s, Retire(isa, s, io))
  {
    if s.x45[0].w == s.f.cur.w {
      BackProofs.HeadIsNext(isa, cfg, s);
      RecordEnv(isa, cfg, s, io);
    }
  }

  lemma RecordTrap(isa: Arch, s: State)
    requires s.x45 != [] && s.x45[0].out.Trap? && OutOk(isa, s.x45[0])
    requires s.x45[0].how.Rerun? ==> s.x45[0].ins.itype.TRAP?
    ensures var s' := RetireTrap(isa, s); var e := s.x45[0];
      || s'.log == s.log
      || (&& !e.how.Rerun? && s'.log == s.log + [RecordOf(e, EnvOf(e), None)])
  {
  }

  lemma RecordMemOp(isa: Arch, s: State, io: IoResp)
    requires s.x45 != [] && s.x45[0].out.MemOp?
    ensures var s' := RetireMemOp(isa, s, io);
      |s'.log| == |s.log| + 1 && s'.log[..|s.log|] == s.log
  {
  }

  lemma RecordEnv(isa: Arch, cfg: Config, s: State, io: IoResp)
    requires s.x45 != [] && s.x45[0].w == s.f.cur.w && EntryOk(isa, Arrived(s), s.x45[0]) && InX45(cfg, s.x45[0])
    ensures var s' := Retire(isa, s, io); var e := s.x45[0];
      || s'.log == s.log
      || (&& !e.how.Rerun? && |s'.log| == |s.log| + 1 && s'.log[..|s.log|] == s.log
          && (e.how.Interrupted? ==> s'.log[|s.log|].env.Interrupt?))
  {
    match s.x45[0].out
    case Trap(_, _, _) => RecordTrap(isa, s);
    case MemOp(_, _) => RecordMemOp(isa, s, io);
    case _ =>
  }

  lemma AllSparedAfter(s: State, s': State)
    requires OrderOk(s) && GenerationsOk(s) && StallOk(s) && MicroOk(s) && s.x45 != [] && Popped(s, s')
    requires LiveMark(s.x45[0], s.f.cur.w) || s'.f != s.f
    ensures AllSpared(InFlight(s'), s'.f.cur.w) && (DecLive(s') ==> DecRerun(s'))
  {
    if s'.f != s.f {
      FlushLeavesNothing(s, s');
      forall j | 0 <= j < |InFlight(s')|
        ensures InFlight(s')[j].w != s'.f.cur.w
      {
        AllEpochAt(InFlight(s'), !s'.f.cur.w, j);
      }
    } else {
      forall j | 0 <= j < |InFlight(s')| && InFlight(s')[j].w == s'.f.cur.w
        ensures InFlight(s')[j].how.Rerun?
      {
        OnlyReruns(s, s', j);
      }
      OnlyReruns(s, s', 0);
    }
  }

  lemma FlightLength(fl: seq<Entry>, ages: seq<nat>, w: bool, b: nat)
    requires FlightOk(fl, ages, w, b)
    ensures |ages| == |fl|
  {
  }

  lemma SparedFlight(fl: seq<Entry>, ages: seq<nat>, w: bool, b: nat, fl': seq<Entry>, w': bool, b': nat)
    requires FlightOk(fl, ages, w, b) && |fl| == |fl'| + 1 && AllSpared(fl', w')
    ensures ages != [] && FlightOk(fl', ages[1..], w', b')
  {
    FlightLength(fl, ages, w, b);
    Spared(fl', ages[1..], w', b');
  }

  /** Nothing is asked of what a flush or a marked instruction leaves. */
  lemma FlightSpared(s: State, s': State, m: Ages, b: nat, b': nat)
    requires OrderOk(s) && GenerationsOk(s) && StallOk(s) && MicroOk(s) && s.x45 != [] && Popped(s, s')
    requires s'.f != s.f || LiveMark(s.x45[0], s.f.cur.w)
    requires FlightOk(InFlight(s), m.flight, s.f.cur.w, b)
    ensures m.flight != [] && FlightOk(InFlight(s'), m.flight[1..], s'.f.cur.w, b')
    ensures DecLive(s') ==> DecRerun(s')
  {
    AllSparedAfter(s, s');
    SparedFlight(InFlight(s), m.flight, s.f.cur.w, b, InFlight(s'), s'.f.cur.w, b');
  }

  lemma FlightTail(s: State, s': State, m: Ages, b: nat)
    requires s.x45 != [] && s'.x45 == s.x45[1..] && s'.x34 == s.x34 && s'.f == s.f
    requires FlightOk(InFlight(s), m.flight, s.f.cur.w, b)
    ensures m.flight != [] && FlightOk(InFlight(s'), m.flight[1..], s'.f.cur.w, b)
  {
    assert InFlight(s') == InFlight(s)[1..];
  }

  /** What a retirement leaves: the rest of the flight, behind the barrier b' of the new log. */
  lemma FlightAfter(s: State, s': State, m: Ages, b: nat, b': nat)
    requires OrderOk(s) && GenerationsOk(s) && StallOk(s) && MicroOk(s) && s.x45 != [] && Popped(s, s')
    requires FlightOk(InFlight(s), m.flight, s.f.cur.w, b) && (DecLive(s) && !DecRerun(s) ==> m.dec >= b)
    requires b' == b || LiveMark(s.x45[0], s.f.cur.w)
    ensures m.flight != [] && FlightOk(InFlight(s'), m.flight[1..], s'.f.cur.w, b')
    ensures DecLive(s') && !DecRerun(s') ==> m.dec >= b'
  {
    if s'.f != s.f || LiveMark(s.x45[0], s.f.cur.w) {
      FlightSpared(s, s', m, b, b');
    } else {
      FlightTail(s, s', m, b);
    }
  }

  lemma LogAfter(isa: Arch, first: Hart, s: State, s': State, m: Ages)
    requires s.x45 != [] && Recorded(isa, first, s, s') && LoggedOk(isa, first, s.log, m.logged) && m.flight != []
    requires s.x45[0].w == s.f.cur.w && !s.x45[0].how.Rerun? ==> m.flight[0] >= Barrier(isa, first, s.log)
    ensures LoggedOk(isa, first, s'.log, if |s'.log| > |s.log| then m.logged + [m.flight[0]] else m.logged)
    ensures Barrier(isa, first, s'.log) == Barrier(isa, first, s.log) || LiveMark(s.x45[0], s.f.cur.w)
  {
    if s'.log != s.log {
      var c := s'.log[|s.log|];
      assert s'.log == s.log + [c];
      BarrierSnoc(isa, first, s.log, c);
      LoggedSnoc(isa, first, s.log, m.logged, c, m.flight[0]);
    }
  }

  /** The monitor is right after the step. */
  ghost predicate Kept(isa: Arch, cfg: Config, first: Hart, s: State, m: Ages, step: Step)
    requires ConfigOk(cfg) && Can(isa, cfg, s, step)
  {
    var s' := Next(isa, cfg, s, step);
    AgesOk(isa, first, s', Track(s, s', m, step))
  }

  lemma HeadAge(s: State, m: Ages, b: nat)
    requires FlightOk(InFlight(s), m.flight, s.f.cur.w, b) && s.x45 != []
    ensures m.flight != [] && (s.x45[0].w == s.f.cur.w && !s.x45[0].how.Rerun? ==> m.flight[0] >= b)
  {
    assert InFlight(s)[0] == s.x45[0];
  }

  lemma PopKeeps(isa: Arch, first: Hart, s: State, s': State, m: Ages)
    requires OrderOk(s) && GenerationsOk(s) && StallOk(s) && MicroOk(s) && s.x45 != [] && AgesOk(isa, first, s, m)
    requires Popped(s, s') && Recorded(isa, first, s, s')
    ensures m.flight != []
    ensures AgesOk(isa, first, s', Ages(m.dec, m.flight[1..],
              if |s'.log| > |s.log| then m.logged + [m.flight[0]] else m.logged))
  {
    HeadAge(s, m, Barrier(isa, first, s.log));
    LogAfter(isa, first, s, s', m);
    FlightAfter(s, s', m, Barrier(isa, first, s.log), Barrier(isa, first, s'.log));
  }

  lemma RetireFacts(isa: Arch, cfg: Config, first: Hart, s: State, io: IoResp)
    requires Inv(isa, cfg, first, s) && s.x45 != []
    ensures Popped(s, Retire(isa, s, io)) && Recorded(isa, first, s, Retire(isa, s, io))
  {
    X45At(cfg, s.x45, 0);
    RetirePops(isa, cfg, s, io);
    RecordMarked(isa, cfg, first, s, io);
  }

  lemma RetireKeeps(isa: Arch, cfg: Config, first: Hart, s: State, io: IoResp, m: Ages)
    requires OrderOk(s) && GenerationsOk(s) && StallOk(s) && MicroOk(s) && s.x45 != [] && AgesOk(isa, first, s, m)
    requires ConfigOk(cfg) && Popped(s, Retire(isa, s, io)) && Recorded(isa, first, s, Retire(isa, s, io))
    ensures Kept(isa, cfg, first, s, m, StepRetire(io))
  {
    PopKeeps(isa, first, s, Retire(isa, s, io), m);
  }

  // ---------- every step ----------

  /** Steps that change neither the instructions in flight nor the log. */
  lemma FrontKeeps(isa: Arch, first: Hart, s: State, s': State, m: Ages)
    requires AgesOk(isa, first, s, m)
    requires s'.x34 == s.x34 && s'.x45 == s.x45 && s'.log == s.log && s'.f.cur == s.f.cur
    requires s'.s23 == s.s23 || s'.s23.None?
    ensures AgesOk(isa, first, s', m)
  {
    assert InFlight(s') == InFlight(s);
  }

  lemma DecodeKeeps(isa: Arch, cfg: Config, first: Hart, s: State, irq: Option<nat>, m: Ages)
    requires ConfigOk(cfg) && AgesOk(isa, first, s, m) && CanDecode(isa, s, irq)
    ensures Kept(isa, cfg, first, s, m, StepDecode(irq))
  {
    assert InFlight(Decode(isa, s, irq)) == InFlight(s);
  }

  lemma EnterKeeps(isa: Arch, first: Hart, s: State, s': State, e: Entry, m: Ages)
    requires AgesOk(isa, first, s, m) && DecLive(s) && e.how == s.s23.value.how
    requires s'.x45 == s.x45 && s'.x34 == s.x34 + [e] && s'.log == s.log && s'.f.cur.w == s.f.cur.w && s'.s23.None?
    ensures AgesOk(isa, first, s', m.(flight := m.flight + [m.dec]))
  {
    Assoc(s.x45, s.x34, [e]);
    FlightSnoc(InFlight(s), m.flight, s.f.cur.w, Barrier(isa, first, s.log), e, m.dec);
  }

  lemma IssueKeeps(isa: Arch, cfg: Config, first: Hart, s: State, m: Ages)
    requires ConfigOk(cfg) && AgesOk(isa, first, s, m) && CanIssue(cfg, s)
    ensures Kept(isa, cfg, first, s, m, StepIssue)
  {
    EnterKeeps(isa, first, s, Issue(isa, cfg, s), Issued(isa, s), m);
  }

  lemma CollectKeeps(isa: Arch, cfg: Config, first: Hart, s: State, resp: MemResp, m: Ages)
    requires ConfigOk(cfg) && AgesOk(isa, first, s, m) && CanCollect(cfg, s, resp)
    ensures Kept(isa, cfg, first, s, m, StepCollect(resp))
  {
    BackProofs.CollectFlight(isa, s, resp);
    FlightReplace(s.x45, s.x34[0], Collected(isa, s.x34[0], resp), s.x34[1..], m.flight, s.f.cur.w,
      Barrier(isa, first, s.log));
  }

  lemma FrontStepKeeps(isa: Arch, cfg: Config, first: Hart, s: State, m: Ages, step: Step)
    requires ConfigOk(cfg) && AgesOk(isa, first, s, m) && Can(isa, cfg, s, step)
    requires step.StepGen? || step.StepProcess? || step.StepDrop?
    ensures Kept(isa, cfg, first, s, m, step)
  {
    FrontKeeps(isa, first, s, Next(isa, cfg, s, step), m);
  }

  lemma StepKeeps(isa: Arch, cfg: Config, first: Hart, s: State, m: Ages, step: Step)
    requires Inv(isa, cfg, first, s) && MicroOk(s) && AgesOk(isa, first, s, m) && Can(isa, cfg, s, step)
    ensures Kept(isa, cfg, first, s, m, step)
  {
    match step
    case StepDecode(irq) => DecodeKeeps(isa, cfg, first, s, irq, m);
    case StepIssue => IssueKeeps(isa, cfg, first, s, m);
    case StepCollect(resp) => CollectKeeps(isa, cfg, first, s, resp, m);
    case StepRetire(io) =>
      RetireFacts(isa, cfg, first, s, io);
      RetireKeeps(isa, cfg, first, s, io, m);
    case _ => FrontStepKeeps(isa, cfg, first, s, m, step);
  }

  lemma {:induction false} RunKeepsAges(isa: Arch, cfg: Config, first: Hart, s: State, m: Ages, steps: seq<Step>,
      last: State, noted: Ages)
    requires Inv(isa, cfg, first, s) && MicroOk(s) && AgesOk(isa, first, s, m)
    requires Tracks(isa, cfg, s, m, steps, last, noted)
    ensures AgesOk(isa, first, last, noted)
    decreases |steps|
  {
    if steps != [] {
      StepKeepsInv(isa, cfg, first, s, steps[0]);
      MicroStep(isa, cfg, first, s, steps[0]);
      StepKeeps(isa, cfg, first, s, m, steps[0]);
      var s' := Next(isa, cfg, s, steps[0]);
      RunKeepsAges(isa, cfg, first, s', Track(s, s', m, steps[0]), steps[1..], last, noted);
    }
  }

  /** Every run can be watched. */
  lemma {:induction false} Watched(isa: Arch, cfg: Config, s: State, m: Ages, steps: seq<Step>, last: State)
    returns (noted: Ages)
    requires ConfigOk(cfg) && Leads(isa, cfg, s, steps, last)
    ensures Tracks(isa, cfg, s, m, steps, last, noted)
    decreases |steps|
  {
    if steps == [] {
      noted := m;
    } else {
      var s' := Next(isa, cfg, s, steps[0]);
      noted := Watched(isa, cfg, s', Track(s, s', m, steps[0]), steps[1..], last);
    }
  }

  /** On every run: an instruction recorded behind a CSR access, an xRET or a fence was decoded when that one had
      already been recorded. */
  lemma DecodedBehindCsr(isa: Arch, cfg: Config, reset: State, resetpc: Pc, steps: seq<Step>, s: State, noted: Ages,
      i: nat, j: nat)
    requires ConfigOk(cfg) && WellFormed(isa, cfg.nregs) && Init(cfg, reset, resetpc)
    requires Tracks(isa, cfg, reset, Ages(0, [], []), steps, s, noted)
    requires i < j < |s.log| && MarkedAt(isa, FirstHart(reset, resetpc), s.log, i)
    ensures |noted.logged| == |s.log| && i < noted.logged[j]
  {
    var first := FirstHart(reset, resetpc);
    InitEstablishes(isa, cfg, reset, resetpc);
    assert InFlight(reset) == [];
    RunKeepsAges(isa, cfg, first, reset, Ages(0, [], []), steps, s, noted);
    LoggedAt(isa, first, s.log, noted.logged, j);
    MarkedInPrefix(isa, first, s.log, j, i);
    BarrierCovers(isa, first, s.log[..j], i);
  }
}
