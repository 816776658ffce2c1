/** What the log says of the outside world, against what the outside world did: a monitor beside the pipeline notes,
    for every instruction, the interrupt offered when it was decoded, the answer of the data memory and the answer
    to the IO operation. */
module AnswerLog {
  import opened Types
  import opened Isa
  import opened Pipeline
  import opened Spine
  import opened Invariant
  import opened Refinement

  datatype Note = Note(ins: Instr, irq: Option<nat>, resp: Option<MemResp>)

  /** An instruction of the log, with the IO answer its retirement met. */
  datatype Final = Final(note: Note, io: IoResp)

  /** The notes of the decoded instruction, of the instructions in flight and of the log.  No rule reads them. */
  datatype Notes = Notes(dec: Option<nat>, flight: seq<Note>, logged: seq<Final>)

  /** What a step from s to s' notes. */
  function Listen(s: State, s': State, m: Notes, step: Step): Notes {
    match step
    case StepDecode(irq) => if s'.s23.Some? then m.(dec := irq) else m
    case StepIssue =>
      if s.s23.Some? then m.(flight := m.flight + [Note(s.s23.value.ins, m.dec, None)]) else m
    case StepCollect(resp) =>
      if |s.x45| < |m.flight| && s.x34 != [] && s.x34[0].out.Memory? then
        m.(flight := m.flight[|s.x45| := m.flight[|s.x45|].(resp := Some(resp))])
      else m
    case StepRetire(io) =>
      if m.flight == [] then m
      else Notes(m.dec, m.flight[1..],
                 if |s'.log| > |s.log| then m.logged + [Final(m.flight[0], io)] else m.logged)
    case _ => m
  }

  /** The run leads to last, and the monitor to noted. */
  ghost predicate Listens(isa: Arch, cfg: Config, s: State, m: Notes, steps: seq<Step>, last: State, noted: Notes)
    requires ConfigOk(cfg)
    decreases |steps|
  {
    if steps == [] then s == last && m == noted
    else
      && Allowed(isa, cfg, s, steps[0])
      && var s' := Next(isa, cfg, s, steps[0]);
      Listens(isa, cfg, s', Listen(s, s', m, steps[0]), steps[1..], last, noted)
  }

  /** What the outside world contributes to an instruction: the interrupt offered to it; otherwise nothing, or what
      the data memory has answered, or the IO device where the memory has only buffered the operation. */
  function Contribution(n: Note, io: IoResp): Env {
    match n.irq
    case Some(cause) => Interrupt(cause)
    case None =>
      match n.resp
      case None => Plain
      case Some(RespFault(cause, addr)) => MemFault(cause, addr)
      case Some(RespData(value)) => MemData(value)
      case Some(RespAlloc(false, word)) => if n.ins.access == Atomic then MemData(word) else MemDone
      case Some(RespAlloc(true, _)) =>
        match io
        case IoFault(cause, addr) => MemFault(cause, addr)
        case IoData(value) => MemData(value)
  }

  // ---------- in flight ----------

  /** How decode obtained the instruction, against the interrupt offered. */
  predicate OfferOk(how: How, trap: bool, irq: Option<nat>) {
    match irq
    case Some(cause) => trap && (how == Rerun || how == Interrupted(cause))
    case None => !how.Interrupted?
  }

  /** The payload of an instruction, against the answer of the data memory. */
  predicate AnswerOk(e: Entry, resp: Option<MemResp>) {
    match resp
    case None => e.heard.None? && !e.out.MemOp?
    case Some(RespFault(cause, addr)) => e.heard == Some(MemFault(cause, addr)) && e.out == Trap(cause, addr, false)
    case Some(RespData(value)) => e.heard == Some(MemData(value)) && e.out == Base(value)
    case Some(RespAlloc(io, word)) =>
      && e.out == MemOp(io, word)
      && e.heard == if io then None else if e.ins.access == Atomic then Some(MemData(word)) else Some(MemDone)
  }

  predicate NoteOk(e: Entry, n: Note) {
    && n.ins == e.ins && OfferOk(e.how, e.out.Trap?, n.irq) && AnswerOk(e, n.resp)
    && (e.how == Rerun ==> e.out.Trap? && e.out.rerun)
  }

  predicate FlightOk(fl: seq<Entry>, notes: seq<Note>) {
    |notes| == |fl| && forall i :: 0 <= i < |fl| ==> NoteOk(fl[i], notes[i])
  }

  predicate DecOk(d: Option<Dec>, irq: Option<nat>) {
    d.Some? ==> OfferOk(d.value.how, d.value.ins.itype.TRAP?, irq) && (d.value.how.Rerun? ==> d.value.ins.itype.TRAP?)
  }

  predicate LoggedOk(log: seq<Commit>, logged: seq<Final>) {
    |logged| == |log| && forall i :: 0 <= i < |log| ==> log[i].env == Contribution(logged[i].note, logged[i].io)
  }

  predicate NotesOk(s: State, m: Notes) {
    FlightOk(InFlight(s), m.flight) && DecOk(s.s23, m.dec) && LoggedOk(s.log, m.logged)
  }

  // ---------- every step ----------

  /** Steps that change neither the instructions in flight nor the log. */
  lemma FrontKeeps(s: State, s': State, m: Notes)
    requires NotesOk(s, m) && s'.x34 == s.x34 && s'.x45 == s.x45 && s'.log == s.log
    requires s'.s23 == s.s23 || s'.s23.None?
    ensures NotesOk(s', m)
  {
  }

  lemma DecodeKeeps(isa: Arch, s: State, irq: Option<nat>, m: Notes)
    requires NotesOk(s, m) && CanDecode(isa, s, irq)
    ensures var s' := Decode(isa, s, irq); NotesOk(s', Listen(s, s', m, StepDecode(irq)))
  {
  }

  lemma IssuedNote(isa: Arch, s: State, irq: Option<nat>)
    requires s.s23.Some? && DecOk(s.s23, irq)
    ensures NoteOk(Issued(isa, s), Note(s.s23.value.ins, irq, None))
  {
  }

  lemma EnterKeeps(s: State, s': State, e: Entry, n: Note, m: Notes)
    requires NotesOk(s, m) && NoteOk(e, n)
    requires s'.x45 == s.x45 && s'.x34 == s.x34 + [e] && s'.log == s.log && s'.s23.None?
    ensures NotesOk(s', m.(flight := m.flight + [n]))
  {
    assert InFlight(s') == InFlight(s) + [e];
  }

  lemma IssueKeeps(isa: Arch, cfg: Config, s: State, m: Notes)
    requires ConfigOk(cfg) && NotesOk(s, m) && CanIssue(cfg, s)
    ensures var s' := Issue(isa, cfg, s); NotesOk(s', Listen(s, s', m, StepIssue))
  {
    IssuedNote(isa, s, m.dec);
    EnterKeeps(s, Issue(isa, cfg, s), Issued(isa, s), Note(s.s23.value.ins, m.dec, None), m);
  }

  lemma CollectedNote(isa: Arch, e: Entry, n: Note, resp: MemResp)
    requires NoteOk(e, n) && !e.out.MemOp?
    ensures NoteOk(Collected(isa, e, resp), if e.out.Memory? then n.(resp := Some(resp)) else n)
  {
  }

  lemma CollectKeeps(isa: Arch, cfg: Config, s: State, resp: MemResp, m: Notes)
    requires ShapeOk(cfg, s) && NotesOk(s, m) && CanCollect(cfg, s, resp)
    ensures var s' := Collect(isa, s, resp); NotesOk(s', Listen(s, s', m, StepCollect(resp)))
  {
    var (s', k) := (Collect(isa, s, resp), |s.x45|);
    var e' := Collected(isa, s.x34[0], resp);
    assert InFlight(s)[k] == s.x34[0];
    assert InFlight(s') == InFlight(s)[k := e'];
    X34At(cfg, s.x34, 0);
    CollectedNote(isa, s.x34[0], m.flight[k], resp);
  }

  /** The head leaves; nothing is recorded, or an instruction to which the outside world contributed env. */
  predicate PopsWith(s: State, s': State, env: Env)
    requires s.x45 != []
  {
    && s'.x45 == s.x45[1..] && s'.x34 == s.x34 && s'.s23 == s.s23
    && (|| s'.log == s.log
        || (|s'.log| == |s.log| + 1 && s'.log[..|s.log|] == s.log && s'.log[|s.log|].env == env))
  }

  lemma EnvHeard(e: Entry, n: Note, io: IoResp)
    requires NoteOk(e, n) && e.how != Rerun
    ensures if e.out.MemOp? && e.out.io then Contribution(n, io) == IoAnswer(io) else Contribution(n, io) == EnvOf(e)
  {
  }

  lemma RetiredTrap(isa: Arch, s: State, n: Note, io: IoResp)
    requires s.x45 != [] && s.x45[0].out.Trap? && NoteOk(s.x45[0], n)
    ensures PopsWith(s, RetireTrap(isa, s), Contribution(n, io))
  {
    if s.x45[0].how != Rerun {
      EnvHeard(s.x45[0], n, io);
    }
  }

  lemma RetiredSystem(isa: Arch, s: State, n: Note, io: IoResp)
    requires s.x45 != [] && s.x45[0].out.System? && NoteOk(s.x45[0], n)
    ensures PopsWith(s, RetireSystem(isa, s), Contribution(n, io))
  {
  }

  lemma RetiredMemOp(isa: Arch, s: State, n: Note, io: IoResp)
    requires s.x45 != [] && s.x45[0].out.MemOp? && NoteOk(s.x45[0], n)
    ensures PopsWith(s, RetireMemOp(isa, s, io), Contribution(n, io))
  {
    EnvHeard(s.x45[0], n, io);
  }

  lemma RetiredBase(s: State, n: Note, io: IoResp)
    requires s.x45 != [] && s.x45[0].out.Base? && NoteOk(s.x45[0], n)
    ensures PopsWith(s, WriteBack(s, EnvOf(s.x45[0]), s.x45[0].out.value), Contribution(n, io))
  {
    EnvHeard(s.x45[0], n, io);
  }

  lemma RetiredEnv(isa: Arch, cfg: Config, s: State, io: IoResp, n: Note)
    requires s.x45 != [] && InX45(cfg, s.x45[0]) && NoteOk(s.x45[0], n)
    ensures PopsWith(s, Retire(isa, s, io), Contribution(n, io))
  {
    if s.x45[0].w == s.f.cur.w {
      match s.x45[0].out
      case Trap(_, _, _) => RetiredTrap(isa, s, n, io);
      case System => RetiredSystem(isa, s, n, io);
      case MemOp(_, _) => RetiredMemOp(isa, s, n, io);
      case _ => RetiredBase(s, n, io);
    }
  }

  lemma PopKeeps(s: State, s': State, io: IoResp, m: Notes)
    requires NotesOk(s, m) && s.x45 != [] && m.flight != []
    requires PopsWith(s, s', Contribution(m.flight[0], io))
    ensures NotesOk(s', Listen(s, s', m, StepRetire(io)))
  {
    assert InFlight(s') == InFlight(s)[1..];
    forall i | 0 <= i < |s.log|
      ensures s'.log[i].env == Contribution(m.logged[i].note, m.logged[i].io)
    {
      assert s'.log[i] == s'.log[..|s.log|][i];
    }
  }

  lemma RetireKeeps(isa: Arch, cfg: Config, s: State, io: IoResp, m: Notes)
    requires ShapeOk(cfg, s) && NotesOk(s, m) && s.x45 != []
    ensures var s' := Retire(isa, s, io); NotesOk(s', Listen(s, s', m, StepRetire(io)))
  {
    X45At(cfg, s.x45, 0);
    assert InFlight(s)[0] == s.x45[0];
    RetiredEnv(isa, cfg, s, io, m.flight[0]);
    PopKeeps(s, Retire(isa, s, io), io, m);
  }

  lemma StepKeeps(isa: Arch, cfg: Config, s: State, m: Notes, step: Step)
    requires ConfigOk(cfg) && ShapeOk(cfg, s) && NotesOk(s, m) && Can(isa, cfg, s, step)
    ensures var s' := Next(isa, cfg, s, step); NotesOk(s', Listen(s, s', m, step))
  {
    match step
    case StepDecode(irq) => DecodeKeeps(isa, s, irq, m);
    case StepIssue => IssueKeeps(isa, cfg, s, m);
    case StepCollect(resp) => CollectKeeps(isa, cfg, s, resp, m);
    case StepRetire(io) => RetireKeeps(isa, cfg, s, io, m);
    case _ => FrontKeeps(s, Next(isa, cfg, s, step), m);
  }

  // ---------- runs ----------

  lemma {:induction false} RunKeepsNotes(isa: Arch, cfg: Config, first: Hart, s: State, m: Notes, steps: seq<Step>,
      last: State, noted: Notes)
    requires Inv(isa, cfg, first, s) && NotesOk(s, m) && Listens(isa, cfg, s, m, steps, last, noted)
    ensures NotesOk(last, noted)
    decreases |steps|
  {
    if steps != [] {
      StepKeepsInv(isa, cfg, first, s, steps[0]);
      StepKeeps(isa, cfg, s, m, steps[0]);
      var s' := Next(isa, cfg, s, steps[0]);
      RunKeepsNotes(isa, cfg, first, s', Listen(s, s', m, steps[0]), steps[1..], last, noted);
    }
  }

  /** Every run can be listened to. */
  lemma {:induction false} Heard(isa: Arch, cfg: Config, s: State, m: Notes, steps: seq<Step>, last: State)
    returns (noted: Notes)
    requires ConfigOk(cfg) && Leads(isa, cfg, s, steps, last)
    ensures Listens(isa, cfg, s, m, steps, last, noted)
    decreases |steps|
  {
    if steps == [] {
      noted := m;
    } else {
      var s' := Next(isa, cfg, s, steps[0]);
      noted := Heard(isa, cfg, s', Listen(s, s', m, steps[0]), steps[1..], last);
    }
  }

  /** On every run, what the log says the outside world contributed to an instruction is what it did contribute: the
      interrupt offered at its decoding, the answer to its own request, the answer to its own IO operation. */
  lemma LogIsHeard(isa: Arch, cfg: Config, reset: State, resetpc: Pc, steps: seq<Step>, s: State, noted: Notes)
    requires ConfigOk(cfg) && WellFormed(isa, cfg.nregs) && Init(cfg, reset, resetpc)
    requires Listens(isa, cfg, reset, Notes(None, [], []), steps, s, noted)
    ensures |noted.logged| == |s.log|
    ensures forall i :: 0 <= i < |s.log| ==> s.log[i].env == Contribution(noted.logged[i].note, noted.logged[i].io)
  {
    InitEstablishes(isa, cfg, reset, resetpc);
    assert InFlight(reset) == [];
    RunKeepsNotes(isa, cfg, FirstHart(reset, resetpc), reset, Notes(None, [], []), steps, s, noted);
  }
}
