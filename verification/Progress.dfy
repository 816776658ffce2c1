/** Progress: from every reachable state, whatever memory, IO, predictor and interrupts answer, some run completes
    one more instruction. */
module Progress {
  import opened Types
  import opened Isa
  import opened Pipeline
  import opened Spine
  import opened Invariant
  import opened Refinement
  import Fetch
  import FrontProofs
  import BackProofs
  import MicroTraps

  /** What the outside world answers when it is asked in a state. */
  datatype Answers = Answers(io: IoResp, resp: MemResp, prediction: Fetch.Prediction, irq: Option<nat>)

  /** Answers that the outside world may give: a store is parked only if it is a store or an atomic, a prediction
      respects instruction boundaries, and an interrupt is enabled. */
  ghost predicate Legal(isa: Arch, cfg: Config, s: State, a: Answers) {
    && (s.x34 != [] && |s.x45| < cfg.s45 ==> CanCollect(cfg, s, a.resp))
    && (s.f.fence || Fetch.Consistent(isa, Fetch.Tip(isa, s.f), a.prediction))
    && (a.irq.Some? ==> isa.interruptible(s.csr, a.irq.value))
  }

  /** The rule to fire next: drain the back end, then issue or drop, then decode, then fetch. */
  function Pick(s: State, a: Answers): Step {
    if s.x45 != [] then StepRetire(a.io)
    else if s.x34 != [] then StepCollect(a.resp)
    else if s.s23.Some? && !DecLive(s) then StepDrop
    else if s.s23.Some? && (IsControl(s.s23.value.ins) ==> s.s12 != []) then StepIssue
    else if s.s12 != [] then StepDecode(a.irq)
    else if s.f.queue != [] then StepProcess
    else StepGen(a.prediction)
  }

  // ---------- the measure ----------

  /** The oldest live instruction in flight, if any, is a micro-trap. */
  function FirstLive(fl: seq<Entry>, w: bool): Option<Entry>
    decreases |fl|
  {
    if fl == [] then None else if fl[0].w == w then Some(fl[0]) else FirstLive(fl[1..], w)
  }

  /** The next instruction to complete is going to be a micro-trap. */
  predicate RerunNext(s: State) {
    var first := FirstLive(InFlight(s), s.f.cur.w);
    if first.Some? then first.value.how.Rerun? else if DecLive(s) then s.s23.value.how.Rerun? else s.rerun
  }

  function StaleToks(ts: seq<Fetch.Tok>, cur: Tag): nat
    decreases |ts|
  {
    if ts == [] then 0 else (if SameEpochs(ts[0].tag, cur) then 0 else 1) + StaleToks(ts[1..], cur)
  }

  function StaleWords(q: seq<Fetch.Word01>, cur: Tag): nat
    decreases |q|
  {
    if q == [] then 0 else (if SameEpochs(q[0].tag, cur) then 0 else 1) + StaleWords(q[1..], cur)
  }

  /** How far the fetch unit is from sending an instruction. */
  function FetchDistance(f: Fetch.Unit): nat {
    8 * StaleWords(f.queue, f.cur) + (if Fetch.HoldsParcel(f) then 0 else 4)
      + (if f.fence then 2 else 0) + (if f.queue == [] then 1 else 0)
  }

  /** How far the next completion is; compared lexicographically. */
  datatype Rank = Rank(rerun: nat, stage: nat, back: nat, drop: nat, stale: nat, empty: nat, fetch: nat)

  function RankOf(s: State): Rank {
    Rank(if RerunNext(s) then 1 else 0,
         if Busy(s) then 0 else if DecLive(s) then 1 else 2,
         2 * |s.x34| + |s.x45|,
         if s.s23.Some? && !DecLive(s) then 1 else 0,
         StaleToks(s.s12, s.f.cur),
         if s.s12 == [] then 1 else 0,
         FetchDistance(s.f))
  }

  predicate Lower(a: Rank, b: Rank) {
    a.rerun < b.rerun || (a.rerun == b.rerun &&
    (a.stage < b.stage || (a.stage == b.stage &&
    (a.back < b.back || (a.back == b.back &&
    (a.drop < b.drop || (a.drop == b.drop &&
    (a.stale < b.stale || (a.stale == b.stale &&
    (a.empty < b.empty || (a.empty == b.empty && a.fetch < b.fetch)))))))))))
  }

  /** One more instruction is recorded, and none is taken back. */
  predicate OneMore(s: State, s': State) { |s'.log| == |s.log| + 1 && s.log <= s'.log }

  predicate Nearer(s: State, s': State) { OneMore(s, s') || (s'.log == s.log && Lower(RankOf(s'), RankOf(s))) }

  // ---------- the back end ----------

  lemma {:induction false} NoLive(fl: seq<Entry>, w: bool)
    requires AllEpoch(fl, !w)
    ensures FirstLive(fl, w).None?
    decreases |fl|
  {
    if fl != [] {
      NoLive(fl[1..], w);
    }
  }

  lemma RetireStaleNearer(s: State)
    requires s.x45 != [] && s.x45[0].w != s.f.cur.w
    ensures Nearer(s, PopRelease(s))
  {
    var s' := PopRelease(s);
    assert InFlight(s)[0] == s.x45[0] && InFlight(s') == InFlight(s)[1..];
  }

  lemma RetireRerunNearer(s: State)
    requires OrderOk(s) && GenerationsOk(s) && StallOk(s)
    requires s.x45 != [] && s.x45[0].w == s.f.cur.w && s.x45[0].ins.itype.TRAP? && s.x45[0].how.Rerun?
    ensures var e := s.x45[0]; forall fence :: Nearer(s, FlushAll(PopRelease(s), FromWriteBack, e.pc, fence))
  {
    assert InFlight(s)[0] == s.x45[0];
    MicroTraps.TrapAt(InFlight(s), s.f.cur.w, 0);
    forall fence
      ensures Nearer(s, FlushAll(PopRelease(s), FromWriteBack, s.x45[0].pc, fence))
    {
      var s' := FlushAll(PopRelease(s), FromWriteBack, s.x45[0].pc, fence);
      MicroTraps.FlushLeavesNothing(s, s');
      NoLive(InFlight(s'), s'.f.cur.w);
    }
  }

  lemma TrapRecorded(isa: Arch, s: State, e: Entry, env: Env, cause: nat, tval: Word)
    requires s.x45 != []
    ensures OneMore(s, TakeTrapAt(isa, PopRelease(s), e, env, cause, tval))
  {
  }

  lemma RetireLiveMemOp(isa: Arch, s: State, io: IoResp)
    requires s.x45 != [] && s.x45[0].out.MemOp?
    ensures OneMore(s, RetireMemOp(isa, s, io))
  {
    if io.IoFault? {
      TrapRecorded(isa, s, s.x45[0], IoAnswer(io), io.cause, io.addr);
    }
  }

  lemma RetireLiveSystem(isa: Arch, s: State)
    requires s.x45 != []
    ensures OneMore(s, RetireSystem(isa, s))
  {
  }

  lemma RetireLive(isa: Arch, s: State, io: IoResp)
    requires s.x45 != [] && s.x45[0].w == s.f.cur.w && !(s.x45[0].out.Trap? && s.x45[0].out.rerun)
    requires !s.x45[0].out.Memory? && !s.x45[0].out.MulDiv? && !s.x45[0].out.Psimd?
    ensures OneMore(s, Retire(isa, s, io))
  {
    var e := s.x45[0];
    match e.out
    case Trap(cause, tval, _) => TrapRecorded(isa, s, e, EnvOf(e), cause, tval);
    case System => RetireLiveSystem(isa, s);
    case MemOp(_, _) => RetireLiveMemOp(isa, s, io);
    case _ =>
  }

  lemma RetireNearer(isa: Arch, cfg: Config, first: Hart, s: State, io: IoResp)
    requires Inv(isa, cfg, first, s) && s.x45 != []
    ensures Nearer(s, Retire(isa, s, io))
  {
    var e := s.x45[0];
    if e.w != s.f.cur.w {
      RetireStaleNearer(s);
    } else {
      BackProofs.HeadIsNext(isa, cfg, s);
      if e.out.Trap? && e.out.rerun {
        RetireRerunNearer(s);
      } else {
        RetireLive(isa, s, io);
      }
    }
  }

  lemma FirstLiveHow(e: Entry, e': Entry, c: seq<Entry>, w: bool)
    requires e.w == e'.w && e.how == e'.how
    ensures var (a, b) := (FirstLive([e] + c, w), FirstLive([e'] + c, w));
      a.Some? == b.Some? && (a.Some? ==> a.value.how == b.value.how)
  {
    assert ([e] + c)[1..] == c && ([e'] + c)[1..] == c;
  }

  lemma CollectNearer(isa: Arch, s: State, resp: MemResp)
    requires s.x45 == [] && s.x34 != []
    ensures Nearer(s, Collect(isa, s, resp))
  {
    var (s', e, e', c) := (Collect(isa, s, resp), s.x34[0], Collected(isa, s.x34[0], resp), s.x34[1..]);
    assert InFlight(s) == [e] + c && InFlight(s') == [e'] + c;
    FirstLiveHow(e, e', c, s.f.cur.w);
    assert RerunNext(s') == RerunNext(s) && Busy(s') == Busy(s);
  }

  // ---------- stages 2 and 3, with nothing in flight ----------

  lemma IdleOperand(cfg: Config, s: State, o: Operand)
    requires BoardOk(cfg, s) && InFlight(s) == []
    ensures Available(s, o)
  {
    if o.addr < |s.board.entries| {
      EmptyMeansUnlocked(cfg, s, o.addr);
    }
  }

  lemma IssueAllowed(isa: Arch, cfg: Config, s: State)
    requires ConfigOk(cfg) && BoardOk(cfg, s) && InFlight(s) == [] && DecLive(s)
    requires IsControl(s.s23.value.ins) ==> s.s12 != []
    ensures Allowed(isa, cfg, s, StepIssue)
  {
    assert s.x34 == [];
    IdleOperand(cfg, s, s.op1);
    IdleOperand(cfg, s, s.op2);
    IdleOperand(cfg, s, s.opd);
  }

  lemma IssueNearer(isa: Arch, cfg: Config, s: State)
    requires cfg.ids > 0 && InFlight(s) == [] && DecLive(s)
    requires IsControl(s.s23.value.ins) ==> s.s12 != []
    ensures Nearer(s, Issue(isa, cfg, s))
  {
    assert s.x34 == [] && s.x45 == [];
    assert InFlight(Issue(isa, cfg, s)) == [Issued(isa, s)];
  }

  lemma DropNearer(s: State)
    requires InFlight(s) == [] && CanDrop(s)
    ensures Nearer(s, Drop(s))
  {
    assert InFlight(Drop(s)) == [];
  }

  lemma DecodeNearer(isa: Arch, s: State, irq: Option<nat>)
    requires InFlight(s) == [] && s.s23.None? && s.s12 != [] && !s.stall
    ensures Nearer(s, Decode(isa, s, irq))
  {
    assert InFlight(Decode(isa, s, irq)) == [];
  }

  // ---------- fetch ----------

  lemma ProcessDistance(isa: Arch, f: Fetch.Unit)
    requires f.queue != [] && (Fetch.HoldsParcel(f) ==> SameEpochs(f.queue[0].tag, f.cur))
    ensures var (f', out) := Fetch.Process(isa, f);
      f'.cur == f.cur && (if out.Some? then out.value.tag == f.cur else FetchDistance(f') < FetchDistance(f))
  {
  }

  lemma ProcessNearer(isa: Arch, s: State)
    requires GenerationsOk(s) && s.f.queue != [] && s.s12 == []
    ensures Nearer(s, Process(isa, s))
  {
    if Fetch.HoldsParcel(s.f) {
      FrontProofs.HeldParcelIsCurrent(s);
    }
    ProcessDistance(isa, s.f);
    var s' := Process(isa, s);
    assert InFlight(s') == InFlight(s);
    if s'.s12 != [] {
      assert s'.s12[1..] == [];
      assert StaleToks(s'.s12, s.f.cur) == 0;
    }
  }

  lemma GenNearer(s: State, resp: Fetch.Prediction)
    requires s.f.queue == [] && s.s12 == []
    ensures Nearer(s, Gen(s, resp))
  {
    var s' := Gen(s, resp);
    assert InFlight(s') == InFlight(s);
    if !s.f.fence {
      assert s'.f.queue[1..] == [];
      assert StaleWords(s'.f.queue, s.f.cur) == 0;
    }
  }

  // ---------- every state ----------

  /** The rule may fire, and it completes an instruction or comes nearer to it. */
  ghost predicate Advances(isa: Arch, cfg: Config, s: State, step: Step)
    requires ConfigOk(cfg)
  {
    Allowed(isa, cfg, s, step) && Nearer(s, Next(isa, cfg, s, step))
  }

  /** With the back end empty, decode cannot be stalled without an instruction. */
  lemma PickFront(isa: Arch, cfg: Config, s: State, a: Answers)
    requires ConfigOk(cfg) && BoardOk(cfg, s) && GenerationsOk(s) && StallOk(s) && s.x45 == [] && s.x34 == []
    requires Legal(isa, cfg, s, a)
    ensures Advances(isa, cfg, s, Pick(s, a))
  {
    match Pick(s, a)
    case StepDrop => DropNearer(s);
    case StepIssue =>
      IssueAllowed(isa, cfg, s);
      IssueNearer(isa, cfg, s);
    case StepDecode(irq) => DecodeNearer(isa, s, irq);
    case StepProcess => ProcessNearer(isa, s);
    case StepGen(resp) => GenNearer(s, resp);
  }

  lemma PickCollect(isa: Arch, cfg: Config, s: State, a: Answers)
    requires ConfigOk(cfg) && s.x45 == [] && s.x34 != [] && Legal(isa, cfg, s, a)
    ensures Advances(isa, cfg, s, Pick(s, a))
  {
    CollectNearer(isa, s, a.resp);
  }

  lemma PickRetire(isa: Arch, cfg: Config, s: State, a: Answers)
    requires ConfigOk(cfg) && s.x45 != [] && Nearer(s, Retire(isa, s, a.io))
    ensures Advances(isa, cfg, s, Pick(s, a))
  {
  }

  /** In every state that meets the invariant, and for all answers the outside world may give. */
  lemma PickNearer(isa: Arch, cfg: Config, first: Hart, s: State, a: Answers)
    requires Inv(isa, cfg, first, s) && Legal(isa, cfg, s, a)
    ensures Advances(isa, cfg, s, Pick(s, a))
  {
    if s.x45 != [] {
      RetireNearer(isa, cfg, first, s, a.io);
      PickRetire(isa, cfg, s, a);
    } else if s.x34 != [] {
      PickCollect(isa, cfg, s, a);
    } else {
      PickFront(isa, cfg, s, a);
    }
  }

  /** In every state the outside world has an answer. */
  lemma AnswersExist(isa: Arch, cfg: Config, s: State)
    ensures Legal(isa, cfg, s, Answers(IoData(0), RespData(0), Fetch.NOT_TAKEN, None))
  {
  }

  // ---------- runs against any environment ----------

  /** An environment that answers legally wherever it may be asked. */
  ghost predicate Answering(isa: Arch, cfg: Config, first: Hart, env: State -> Answers) {
    forall s :: Inv(isa, cfg, first, s) ==> Legal(isa, cfg, s, env(s))
  }

  /** The run is the one played against env. */
  ghost predicate Plays(isa: Arch, cfg: Config, env: State -> Answers, s: State, steps: seq<Step>, last: State)
    requires ConfigOk(cfg)
    decreases |steps|
  {
    if steps == [] then s == last
    else
      && steps[0] == Pick(s, env(s)) && Allowed(isa, cfg, s, steps[0])
      && Plays(isa, cfg, env, Next(isa, cfg, s, steps[0]), steps[1..], last)
  }

  lemma {:induction false} PlaysLeads(isa: Arch, cfg: Config, env: State -> Answers, s: State, steps: seq<Step>,
      last: State)
    requires ConfigOk(cfg) && Plays(isa, cfg, env, s, steps, last)
    ensures Leads(isa, cfg, s, steps, last)
    decreases |steps|
  {
    if steps != [] {
      PlaysLeads(isa, cfg, env, Next(isa, cfg, s, steps[0]), steps[1..], last);
    }
  }

  lemma PlaysStep(isa: Arch, cfg: Config, env: State -> Answers, s: State, rest: seq<Step>, last: State)
    requires ConfigOk(cfg) && Allowed(isa, cfg, s, Pick(s, env(s)))
    requires Plays(isa, cfg, env, Next(isa, cfg, s, Pick(s, env(s))), rest, last)
    ensures Plays(isa, cfg, env, s, [Pick(s, env(s))] + rest, last)
  {
    assert ([Pick(s, env(s))] + rest)[1..] == rest;
  }

  lemma {:induction false} CompletesFrom(isa: Arch, cfg: Config, first: Hart, env: State -> Answers, s: State)
    returns (steps: seq<Step>, s': State)
    requires Inv(isa, cfg, first, s) && Answering(isa, cfg, first, env)
    ensures Plays(isa, cfg, env, s, steps, s') && OneMore(s, s')
    decreases RankOf(s).rerun, RankOf(s).stage, RankOf(s).back, RankOf(s).drop, RankOf(s).stale, RankOf(s).empty,
        RankOf(s).fetch
  {
    var step := Pick(s, env(s));
    PickNearer(isa, cfg, first, s, env(s));
    var n := Next(isa, cfg, s, step);
    if OneMore(s, n) {
      steps, s' := [], n;
    } else {
      StepKeepsInv(isa, cfg, first, s, step);
      steps, s' := CompletesFrom(isa, cfg, first, env, n);
    }
    PlaysStep(isa, cfg, env, s, steps, s');
    steps := [step] + steps;
  }

  /** The pipeline never gets stuck: from every state that a run reaches, and against every environment, whatever
      memory, IO, the predictor and interrupts answer, the run that follows the measure completes exactly one more
      instruction. */
  lemma NeverStuck(isa: Arch, cfg: Config, reset: State, resetpc: Pc, steps: seq<Step>, s: State,
      env: State -> Answers) returns (more: seq<Step>, s': State)
    requires Reached(isa, cfg, reset, resetpc, steps, s) && Answering(isa, cfg, FirstHart(reset, resetpc), env)
    ensures Plays(isa, cfg, env, s, more, s') && Leads(isa, cfg, s, more, s') && OneMore(s, s')
  {
    ReachedOk(isa, cfg, reset, resetpc, steps, s);
    more, s' := CompletesFrom(isa, cfg, FirstHart(reset, resetpc), env, s);
    PlaysLeads(isa, cfg, env, s, more, s');
  }
}
