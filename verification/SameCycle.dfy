/** Execute and write-back in one cycle: both may raise a flush, and the redirect from write-back wins. */
module SameCycle {
  import opened Types
  import opened Isa
  import opened Epochs
  import opened Pipeline
  import opened Spine
  import opened Invariant
  import opened Refinement
  import Fetch
  import IssueProofs
  import BackProofs

  /** The flush raised by the write-back stage. */
  datatype WBFlush = WBFlush(newpc: Pc, fencei: bool)

  /** rl_flush_stage0, rl_clear_stall_in_decode_stage, rl_update_eEpoch and rl_update_wEpoch at the end of one
      cycle: the new pc is selected once, and each stage that flushes toggles its own epoch. */
  function FlushCycle(s: State, exeflush: Option<Pc>, wbflush: Option<WBFlush>): State {
    if exeflush.None? && wbflush.None? then s
    else
      var newpc := if wbflush.Some? then wbflush.value.newpc else exeflush.value;
      var cur := if exeflush.Some? then Toggle(s.f.cur, FromExecute) else s.f.cur;
      s.(f := s.f.(pc := newpc, delayed := None, fence := wbflush.Some? && wbflush.value.fencei,
                   cur := if wbflush.Some? then Toggle(cur, FromWriteBack) else cur,
                   cursor := Fetch.Cursor(newpc, None, false)),
         stall := false, rerun := s.rerun && !s.stall)
  }

  /** What the rules of the write-back stage put on wr_flush. */
  function Raised(isa: Arch, s: State, io: IoResp): Option<WBFlush>
    requires s.x45 != []
  {
    var e := s.x45[0];
    if e.w != s.f.cur.w then None
    else
      match e.out
      case Trap(cause, tval, rerun) =>
        if rerun then Some(WBFlush(e.pc, cause == FENCEI_RERUN))
        else Some(WBFlush(isa.trapPc(s.csr, cause, e.pc, tval), false))
      case System => if IsXRet(e.ins) then Some(WBFlush(isa.retPc(e.ins, s.csr), false)) else None
      case MemOp(isIo, _) =>
        if isIo && io.IoFault? then Some(WBFlush(isa.trapPc(s.csr, io.cause, e.pc, io.addr), false)) else None
      case _ => None
  }

  /** A retirement without its flush. */
  function Retired(isa: Arch, s: State, io: IoResp): State
    requires s.x45 != []
  {
    var e := s.x45[0];
    if e.w != s.f.cur.w then PopRelease(s)
    else
      match e.out
      case Trap(cause, tval, rerun) => if rerun then PopRelease(s) else Trapped(isa, s, EnvOf(e), cause, tval)
      case Base(v) => WriteBack(s, EnvOf(e), v)
      case System => Served(isa, s)
      case MemOp(isIo, _) =>
        if isIo && io.IoFault? then Trapped(isa, s, IoAnswer(io), io.cause, io.addr) else RetireMemOp(isa, s, io)
      case _ => s
  }

  /** The head leaves and its trap is recorded. */
  function Trapped(isa: Arch, s: State, env: Env, cause: nat, tval: Word): State
    requires s.x45 != []
  {
    var e := s.x45[0];
    PopRelease(s).(csr := isa.trapCsr(s.csr, cause, e.pc, tval), apc := isa.trapPc(s.csr, cause, e.pc, tval),
                   log := s.log + [RecordOf(e, env, None)])
  }

  /** The head leaves and its CSR access, or its return, is done. */
  function Served(isa: Arch, s: State): State
    requires s.x45 != []
  {
    var e := s.x45[0];
    if IsXRet(e.ins) then
      PopRelease(s).(csr := isa.retCsr(e.ins, s.csr), apc := isa.retPc(e.ins, s.csr),
                     log := s.log + [RecordOf(e, Plain, None)])
    else WriteBack(s, Plain, isa.csrRead(e.ins, s.csr, e.op1)).(csr := isa.csrWrite(e.ins, s.csr, e.op1))
  }

  lemma OneFlush(s: State, newpc: Pc, fencei: bool)
    ensures FlushAll(s, FromWriteBack, newpc, fencei) == FlushCycle(s, None, Some(WBFlush(newpc, fencei)))
    ensures FlushAll(s, FromExecute, newpc, false) == FlushCycle(s, Some(newpc), None)
  {
  }

  /** The two flushes one after the other, and both in one cycle. */
  lemma TwoFlushes(s: State, exepc: Pc, wbflush: Option<WBFlush>)
    ensures FlushCycle(FlushAll(s, FromExecute, exepc, false), None, wbflush) == FlushCycle(s, Some(exepc), wbflush)
  {
  }

  lemma RetireIsCycle(isa: Arch, s: State, io: IoResp)
    requires s.x45 != []
    ensures Retire(isa, s, io) == FlushCycle(Retired(isa, s, io), None, Raised(isa, s, io))
  {
    if Raised(isa, s, io).Some? {
      var wb := Raised(isa, s, io).value;
      OneFlush(Retired(isa, s, io), wb.newpc, wb.fencei);
    }
  }

  lemma FlushCommutes(s: State, newpc: Pc, env: Env, v: Word)
    requires s.x45 != []
    ensures var t := FlushAll(s, FromExecute, newpc, false);
      && PopRelease(t) == FlushAll(PopRelease(s), FromExecute, newpc, false)
      && WriteBack(t, env, v) == FlushAll(WriteBack(s, env, v), FromExecute, newpc, false)
  {
  }

  lemma TrapCommutes(isa: Arch, s: State, newpc: Pc, env: Env, cause: nat, tval: Word)
    requires s.x45 != []
    ensures Trapped(isa, FlushAll(s, FromExecute, newpc, false), env, cause, tval)
      == FlushAll(Trapped(isa, s, env, cause, tval), FromExecute, newpc, false)
  {
  }

  lemma MemOpCommutes(isa: Arch, s: State, newpc: Pc, io: IoResp)
    requires s.x45 != [] && s.x45[0].out.MemOp? && !(s.x45[0].out.io && io.IoFault?)
    ensures RetireMemOp(isa, FlushAll(s, FromExecute, newpc, false), io)
      == FlushAll(RetireMemOp(isa, s, io), FromExecute, newpc, false)
  {
  }

  lemma ServedCommutes(isa: Arch, s: State, newpc: Pc)
    requires s.x45 != []
    ensures Served(isa, FlushAll(s, FromExecute, newpc, false)) == FlushAll(Served(isa, s), FromExecute, newpc, false)
  {
  }

  lemma RaisedCommutes(isa: Arch, s: State, newpc: Pc, io: IoResp)
    requires s.x45 != []
    ensures Raised(isa, FlushAll(s, FromExecute, newpc, false), io) == Raised(isa, s, io)
  {
  }

  /** A flush from execute changes nothing the retirement looks at. */
  lemma FlushThenRetire(isa: Arch, s: State, newpc: Pc, io: IoResp)
    requires s.x45 != []
    ensures Retired(isa, FlushAll(s, FromExecute, newpc, false), io)
      == FlushAll(Retired(isa, s, io), FromExecute, newpc, false)
  {
    var e := s.x45[0];
    FlushCommutes(s, newpc, EnvOf(e), if e.out.Base? then e.out.value else 0);
    if e.w == s.f.cur.w {
      match e.out
      case Trap(cause, tval, _) => TrapCommutes(isa, s, newpc, EnvOf(e), cause, tval);
      case System => ServedCommutes(isa, s, newpc);
      case MemOp(isIo, _) =>
        if isIo && io.IoFault? {
          TrapCommutes(isa, s, newpc, IoAnswer(io), io.cause, io.addr);
        } else {
          MemOpCommutes(isa, s, newpc, io);
        }
      case _ =>
    }
  }

  /** An issue changes nothing the retirement looks at, and the other way round: the instruction that enters stands
      behind the one that leaves. */
  lemma EnterThenRetire(isa: Arch, cfg: Config, s: State, io: IoResp)
    requires s.x45 != [] && s.s23.Some? && cfg.ids > 0
    ensures Raised(isa, Entered(isa, cfg, s), io) == Raised(isa, s, io)
  {
  }

  /** An issue and a retirement one after the other leave what both leave in one cycle: the fetch restarts at
      the pc of write-back whenever write-back flushes, and at the pc of execute only if it does not. */
  lemma IssueAndRetire(isa: Arch, cfg: Config, s: State, io: IoResp)
    requires cfg.ids > 0 && CanIssue(cfg, s) && s.x45 != []
    ensures Retire(isa, Issue(isa, cfg, s), io)
      == FlushCycle(Retired(isa, Entered(isa, cfg, s), io),
                    if Redirects(isa, s) then Some(Issued(isa, s).npc) else None, Raised(isa, s, io))
  {
    var s1 := Entered(isa, cfg, s);
    EnterThenRetire(isa, cfg, s, io);
    RetireIsCycle(isa, Issue(isa, cfg, s), io);
    if Redirects(isa, s) {
      var npc := Issued(isa, s).npc;
      FlushThenRetire(isa, s1, npc, io);
      RaisedCommutes(isa, s1, npc, io);
      TwoFlushes(Retired(isa, s1, io), npc, Raised(isa, s, io));
    }
  }

  /** When both flush in one cycle of a reached state, the fetch goes on at the pc of write-back, with its fence,
      wherever execute wanted to go; both epochs are toggled, and nothing fetched or issued before is live. */
  lemma WriteBackWins(isa: Arch, cfg: Config, reset: State, resetpc: Pc, steps: seq<Step>, s: State, io: IoResp)
    requires Reached(isa, cfg, reset, resetpc, steps, s) && CanIssue(cfg, s) && Redirects(isa, s)
    requires s.x45 != [] && Raised(isa, s, io).Some?
    ensures var s' := Retire(isa, Issue(isa, cfg, s), io); var wb := Raised(isa, s, io).value;
      && Fetch.Pending(s'.f) == s'.f.pc == s'.apc == wb.newpc && s'.f.fence == wb.fencei
      && s'.f.cur == Toggle(Toggle(s.f.cur, FromExecute), FromWriteBack)
      && NoneCurrent(Tags(s'), s'.f.cur) && AllEpoch(InFlight(s'), !s'.f.cur.w)
  {
    var s1 := Issue(isa, cfg, s);
    RedirectKeepsInv(isa, cfg, reset, resetpc, steps, s);
    EnterThenRetire(isa, cfg, s, io);
    RaisedCommutes(isa, Entered(isa, cfg, s), Issued(isa, s).npc, io);
    RetireLands(isa, cfg, FirstHart(reset, resetpc), s1, io);
  }

  lemma RedirectKeepsInv(isa: Arch, cfg: Config, reset: State, resetpc: Pc, steps: seq<Step>, s: State)
    requires Reached(isa, cfg, reset, resetpc, steps, s) && CanIssue(cfg, s) && Redirects(isa, s)
    ensures Inv(isa, cfg, FirstHart(reset, resetpc), Issue(isa, cfg, s))
  {
    ReachedOk(isa, cfg, reset, resetpc, steps, s);
    IssueProofs.IssueKeeps(isa, cfg, FirstHart(reset, resetpc), s);
  }

  lemma RetireLands(isa: Arch, cfg: Config, first: Hart, s: State, io: IoResp)
    requires Inv(isa, cfg, first, s) && s.x45 != [] && Raised(isa, s, io).Some?
    ensures var s' := Retire(isa, s, io); var wb := Raised(isa, s, io).value;
      && Fetch.Pending(s'.f) == s'.f.pc == s'.apc == wb.newpc && s'.f.fence == wb.fencei
      && s'.f.cur == Toggle(s.f.cur, FromWriteBack)
      && NoneCurrent(Tags(s'), s'.f.cur) && AllEpoch(InFlight(s'), !s'.f.cur.w)
  {
    var s1 := Retired(isa, s, io);
    var wb := Raised(isa, s, io).value;
    BackProofs.HeadIsNext(isa, cfg, s);
    RetireIsCycle(isa, s, io);
    RetiredFront(isa, s, io);
    OneFlush(s1, wb.newpc, wb.fencei);
    Lands(isa, s, s1, wb.newpc, wb.fencei);
  }

  /** A retirement that flushes touches nothing in front of stage 3 but for the flush. */
  lemma RetiredFront(isa: Arch, s: State, io: IoResp)
    requires s.x45 != [] && Raised(isa, s, io).Some?
    requires s.x45[0].out.Trap? && s.x45[0].out.rerun ==> s.apc == s.x45[0].pc
    ensures var s1 := Retired(isa, s, io);
      && s1.f == s.f && s1.s12 == s.s12 && s1.s23 == s.s23 && s1.x45 == s.x45[1..] && s1.x34 == s.x34
      && s1.apc == Raised(isa, s, io).value.newpc
  {
  }

  lemma Lands(isa: Arch, s: State, s1: State, newpc: Pc, fencei: bool)
    requires TagsOk(Tags(s), s.f.cur, true) && s.x45 != [] && AllEpoch(InFlight(s), s.f.cur.w)
    requires s1.f == s.f && s1.s12 == s.s12 && s1.s23 == s.s23 && s1.x45 == s.x45[1..] && s1.x34 == s.x34
    ensures var s' := FlushAll(s1, FromWriteBack, newpc, fencei);
      && Fetch.Pending(s'.f) == newpc
      && NoneCurrent(Tags(s'), s'.f.cur) && AllEpoch(InFlight(s'), !s'.f.cur.w)
  {
    assert Tags(s1) == Tags(s);
    assert InFlight(s1) == InFlight(s)[1..];
    BackProofs.FlushTags(isa, s1, newpc, fencei);
    TagsWriteBackFlush(Tags(s), s.f.cur);
    assert Tags(FlushAll(s1, FromWriteBack, newpc, fencei)) == Tags(s1);
  }
}
