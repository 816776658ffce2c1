/** The steps of stages 4 and 5 keep the invariant. */
module BackProofs {
  import opened Types
  import opened Isa
  import opened Epochs
  import opened Pipeline
  import opened Spine
  import opened Invariant
  import Fetch
  import Scoreboard
  import FrontProofs
  import IssueProofs

  // ---------- stage 4 ----------

  /** Collecting a result only adds knowledge to the speculative run, or dooms what follows. */
  lemma CollectedKnowsMore(isa: Arch, w: bool, st: Spec, e: Entry, resp: MemResp)
    requires e.out.Memory? ==> e.ins.itype.MEMORY?
    requires e.out.Memory? && resp.RespAlloc? && !resp.io ==> e.ins.access.Store? || e.ins.access.Atomic?
    ensures Le(After(isa, w, st, e), After(isa, w, st, Collected(isa, e, resp)))
  {
  }

  lemma CollectSpine(isa: Arch, cfg: Config, s: State, resp: MemResp)
    requires ShapeOk(cfg, s) && SpineOk(isa, s) && CanCollect(cfg, s, resp)
    ensures SpineOk(isa, Collect(isa, s, resp))
  {
    var s' := Collect(isa, s, resp);
    var w := s.f.cur.w;
    var (e, e') := (s.x34[0], Collected(isa, s.x34[0], resp));
    var (a, c) := (s.x45, s.x34[1..]);
    assert InFlight(s) == a + ([e] + c);
    assert InFlight(s') == a + ([e'] + c);
    ScanConcat(isa, w, Arrived(s), a, [e] + c);
    ScanConcat(isa, w, Arrived(s), a, [e'] + c);
    var st := Scan(isa, w, Arrived(s), a);
    assert ([e] + c)[1..] == c && ([e'] + c)[1..] == c;
    assert InX34(cfg, e);
    CollectedKnowsMore(isa, w, st, e, resp);
    ScanMonotone(isa, w, After(isa, w, st, e), After(isa, w, st, e'), c);
    RestMonotone(isa, s.f.cur, AtIssue(isa, s), AtIssue(isa, s'), s.s23, s.s12);
  }

  lemma CollectShape(isa: Arch, cfg: Config, s: State, resp: MemResp)
    requires ConfigOk(cfg) && ShapeOk(cfg, s) && CanCollect(cfg, s, resp)
    ensures ShapeOk(cfg, Collect(isa, s, resp))
  {
    AllX45Snoc(cfg, s.x45, Collected(isa, s.x34[0], resp));
  }

  /** The oldest instruction of stage 4 changes its payload and nothing else. */
  lemma CollectFlight(isa: Arch, s: State, resp: MemResp)
    requires s.x34 != []
    ensures var (e, e', c) := (s.x34[0], Collected(isa, s.x34[0], resp), s.x34[1..]);
      && InFlight(s) == s.x45 + ([e] + c) && InFlight(Collect(isa, s, resp)) == s.x45 + ([e'] + c)
      && e.w == e'.w && e.ins == e'.ins && e.how == e'.how && HolderOf(e) == HolderOf(e')
      && (e.out.Trap? ==> e'.out.Trap?)
  {
  }

  lemma ReplaceHolder(a: seq<Entry>, e: Entry, e': Entry, c: seq<Entry>)
    requires HolderOf(e) == HolderOf(e')
    ensures Holders(a + ([e] + c)) == Holders(a + ([e'] + c))
  {
  }

  /** The youngest instruction in flight stays the one it was, but for its payload. */
  lemma ReplaceLast(a: seq<Entry>, e: Entry, e': Entry, c: seq<Entry>)
    requires e.w == e'.w && e.ins == e'.ins && e.how == e'.how && (e.out.Trap? ==> e'.out.Trap?)
    ensures var (fl, fl') := (a + ([e] + c), a + ([e'] + c));
      && |fl| == |fl'| > 0
      && fl[|fl| - 1].w == fl'[|fl'| - 1].w && fl[|fl| - 1].ins == fl'[|fl'| - 1].ins
      && fl[|fl| - 1].how == fl'[|fl'| - 1].how && (fl[|fl| - 1].out.Trap? ==> fl'[|fl'| - 1].out.Trap?)
  {
  }

  /** The same instructions are in flight under the same ids and epochs. */
  lemma CollectBack(isa: Arch, cfg: Config, s: State, resp: MemResp)
    requires BoardOk(cfg, s) && OrderOk(s) && StallOk(s) && CanCollect(cfg, s, resp)
    ensures var s' := Collect(isa, s, resp);
      BoardOk(cfg, s') && OrderOk(s') && StallOk(s') && Busy(s') == Busy(s)
  {
    var (a, e, e', c) := (s.x45, s.x34[0], Collected(isa, s.x34[0], resp), s.x34[1..]);
    CollectFlight(isa, s, resp);
    ReplaceHolder(a, e, e', c);
    ReplaceLast(a, e, e', c);
    ReplaceOrder(a, e, e', c, s.f.cur.w);
  }

  lemma CollectKeeps(isa: Arch, cfg: Config, first: Hart, s: State, resp: MemResp)
    requires Inv(isa, cfg, first, s) && CanCollect(cfg, s, resp)
    ensures Inv(isa, cfg, first, Collect(isa, s, resp))
  {
    CollectSpine(isa, cfg, s, resp);
    CollectShape(isa, cfg, s, resp);
    CollectBack(isa, cfg, s, resp);
    assert Tags(Collect(isa, s, resp)) == Tags(s);
  }

  // ---------- stage 5: what every retirement does to the queues ----------

  lemma PopBoard(cfg: Config, s: State, b: Scoreboard.Board)
    requires ConfigOk(cfg) && ShapeOk(cfg, s) && BoardOk(cfg, s) && s.x45 != []
    requires b == Scoreboard.Release(s.board, s.x45[0].ins.rd, s.x45[0].id) || (s.x45[0].ins.rd == 0 && b == s.board)
    ensures Scoreboard.Inv(b, Holders(InFlight(s)[1..]), s.issued, cfg.ids) && |b.entries| == |s.board.entries|
  {
    var fl := InFlight(s);
    assert fl[0] == s.x45[0];
    assert Holders(fl[1..]) == Holders(fl)[1..];
    Scoreboard.ReleaseKeeps(s.board, Holders(fl), s.issued, cfg.ids);
  }

  /** The state with its oldest instruction gone and released. */
  lemma PopBack(cfg: Config, s: State, s': State)
    requires ConfigOk(cfg) && ShapeOk(cfg, s) && BoardOk(cfg, s) && OrderOk(s) && s.x45 != [] && StallOk(s)
    requires s'.x45 == s.x45[1..] && s'.x34 == s.x34 && s'.issued == s.issued
    requires s'.board == Scoreboard.Release(s.board, s.x45[0].ins.rd, s.x45[0].id)
          || (s.x45[0].ins.rd == 0 && s'.board == s.board)
    ensures BoardOk(cfg, s') && InFlight(s') == InFlight(s)[1..]
    ensures Ordered(InFlight(s'), s.f.cur.w) && TrapsLast(InFlight(s'), s.f.cur.w)
    ensures |s'.board.entries| == |s.board.entries|
  {
    assert InFlight(s') == InFlight(s)[1..];
    PopBoard(cfg, s, s'.board);
    PopOrder(InFlight(s), s.f.cur.w);
  }

  /** The head of a live back end: all behind it is live, and it is the next instruction of the
      architecture itself. */
  lemma HeadIsNext(isa: Arch, cfg: Config, s: State)
    requires ShapeOk(cfg, s) && OrderOk(s) && SpineOk(isa, s) && s.x45 != [] && s.x45[0].w == s.f.cur.w
    ensures EntryOk(isa, Arrived(s), s.x45[0]) && InX45(cfg, s.x45[0])
    ensures AllEpoch(InFlight(s), s.f.cur.w) && Busy(s)
  {
    var fl := InFlight(s);
    assert fl[0] == s.x45[0];
    SpinePrefix(isa, s);
    ScanOk(isa, s.f.cur.w, After(isa, s.f.cur.w, Arrived(s), fl[0]), fl[1..]);
    LiveHead(s);
  }

  lemma GenerationsWeaken(s: State, s': State)
    requires GenerationsOk(s) && Tags(s') == Tags(s) && s'.f.cur == s.f.cur && (Busy(s') ==> Busy(s))
    ensures GenerationsOk(s')
  {
  }

  // ---------- commits without a flush ----------

  lemma LiftFacts(regs: seq<Word>, rd: nat, v: Word, r: Option<Word>)
    requires r.None? || r == Some(v)
    ensures RegsLe(Put(Lift(regs), rd, r), Lift(Write(regs, rd, v)))
    ensures RegsLe(Put(Lift(regs), 0, r), Lift(regs))
  {
  }

  /** The retired instruction leaves the spine where its successor expects it. */
  lemma RetireSpine(isa: Arch, cfg: Config, s: State, s': State)
    requires ShapeOk(cfg, s) && OrderOk(s) && SpineOk(isa, s) && s.x45 != [] && s.x45[0].w == s.f.cur.w
    requires InFlight(s') == InFlight(s)[1..] && s'.f == s.f && s'.s23 == s.s23 && s'.s12 == s.s12
          && s'.rerun == s.rerun
    requires s'.apc == s.x45[0].npc && !Flushes(s.x45[0])
    requires RegsLe(Put(Lift(s.regs), s.x45[0].ins.rd, ResultOf(isa, s.x45[0])), Lift(s'.regs))
    requires s'.csr == s.csr || s.x45[0].out.System?
    ensures SpineOk(isa, s')
  {
    var fl := InFlight(s);
    assert fl[0] == s.x45[0];
    var after := After(isa, s.f.cur.w, Arrived(s), fl[0]);
    ScanMonotone(isa, s.f.cur.w, after, Arrived(s'), fl[1..]);
    RestMonotone(isa, s.f.cur, AtIssue(isa, s), AtIssue(isa, s'), s.s23, s.s12);
  }

  /** The operand registers follow the register file. */
  lemma RefreshKeeps(s: State, s': State, rd: nat, v: Word, r: nat, o: Operand, src: Src2)
    requires OperandOk(s, o, r, src) && s'.regs == Write(s.regs, rd, v) && rd < |s.regs|
    ensures OperandOk(s', Refresh(o, rd, v), r, src)
  {
  }

  /** The stalled decode stage still has its trap on the way. */
  lemma PopStall(s: State, s': State)
    requires StallOk(s) && s.x45 != [] && InFlight(s') == InFlight(s)[1..] && TrapsLast(InFlight(s'), s.f.cur.w)
    requires s'.stall == s.stall && s'.s23 == s.s23 && s'.f == s.f
    requires s.x45[0].w == s.f.cur.w ==> !s.x45[0].out.Trap?
    ensures StallOk(s') && (Busy(s') ==> Busy(s))
  {
    assert InFlight(s)[0] == s.x45[0];
  }

  lemma CommitOperands(s: State, s': State, rd: nat, v: Word)
    requires OperandsOk(s) && s'.s23 == s.s23 && s'.regs == Write(s.regs, rd, v) && rd < |s.regs|
    requires s'.op1 == Refresh(s.op1, rd, v) && s'.op2 == Refresh(s.op2, rd, v) && s'.opd == Refresh(s.opd, rd, v)
    ensures OperandsOk(s')
  {
    if s.s23.Some? {
      var ins := s.s23.value.ins;
      RefreshKeeps(s, s', rd, v, ins.rs1, s.op1, IntegerRF);
      RefreshKeeps(s, s', rd, v, ins.rs2, s.op2, ins.src2);
      RefreshKeeps(s, s', rd, v, ins.rd, s.opd, IntegerRF);
    }
  }

  /** Everything but the spine and the log. */
  lemma CommitBack(cfg: Config, s: State, s': State)
    requires ConfigOk(cfg) && ShapeOk(cfg, s) && BoardOk(cfg, s) && OrderOk(s) && GenerationsOk(s) && StallOk(s)
    requires s.x45 != [] && (s.x45[0].w == s.f.cur.w ==> !s.x45[0].out.Trap?)
    requires s'.x45 == s.x45[1..] && s'.x34 == s.x34 && s'.issued == s.issued && s'.f == s.f
    requires s'.s12 == s.s12 && s'.s23 == s.s23 && s'.stall == s.stall
    requires s'.board == Scoreboard.Release(s.board, s.x45[0].ins.rd, s.x45[0].id)
          || (s.x45[0].ins.rd == 0 && s'.board == s.board)
    requires |s'.regs| == |s.regs| && s'.regs[0] == s.regs[0]
    ensures ShapeOk(cfg, s') && BoardOk(cfg, s') && OrderOk(s') && GenerationsOk(s') && StallOk(s')
    ensures InFlight(s') == InFlight(s)[1..]
  {
    PopBack(cfg, s, s');
    PopStall(s, s');
    GenerationsWeaken(s, s');
  }

  /** A stale instruction is only released. */
  lemma RetireStale(isa: Arch, cfg: Config, first: Hart, s: State)
    requires Inv(isa, cfg, first, s) && s.x45 != [] && s.x45[0].w != s.f.cur.w
    ensures Inv(isa, cfg, first, PopRelease(s))
  {
    var s' := PopRelease(s);
    assert InFlight(s)[0] == s.x45[0];
    CommitBack(cfg, s, s');
    FrontProofs.SameSpine(isa, s, s');
  }

  /** A commit that writes a value, whatever happens to the CSRs. */
  lemma CommitKeeps(isa: Arch, cfg: Config, first: Hart, s: State, env: Env, v: Word, csr: Csr)
    requires Inv(isa, cfg, first, s) && s.x45 != [] && s.x45[0].w == s.f.cur.w && !Flushes(s.x45[0])
    requires ResultOf(isa, s.x45[0]).None? || ResultOf(isa, s.x45[0]) == Some(v)
    requires csr == s.csr || s.x45[0].out.System?
    requires LogOk(isa, first, WriteBack(s, env, v).(csr := csr))
    ensures Inv(isa, cfg, first, WriteBack(s, env, v).(csr := csr))
  {
    var s' := WriteBack(s, env, v).(csr := csr);
    var e := s.x45[0];
    assert InX45(cfg, e);
    CommitBack(cfg, s, s');
    CommitOperands(s, s', e.ins.rd, v);
    LiftFacts(s.regs, e.ins.rd, v, ResultOf(isa, e));
    RetireSpine(isa, cfg, s, s');
  }

  /** A cached store: no register, no commit. */
  lemma StoreKeeps(isa: Arch, cfg: Config, first: Hart, s: State)
    requires Inv(isa, cfg, first, s) && s.x45 != [] && s.x45[0].w == s.f.cur.w
    requires s.x45[0].out.MemOp? && !s.x45[0].out.io && !s.x45[0].ins.access.Atomic?
    requires LogOk(isa, first, RetireMemOp(isa, s, IoData(0)))
    ensures Inv(isa, cfg, first, RetireMemOp(isa, s, IoData(0)))
  {
    var s' := RetireMemOp(isa, s, IoData(0));
    var e := s.x45[0];
    assert InX45(cfg, e);
    CommitBack(cfg, s, s');
    LiftFacts(s.regs, 0, 0, None);
    RetireSpine(isa, cfg, s, s');
  }

  // ---------- write-back flushes ----------

  /** The state before the flush: the trapping instruction is gone. */
  lemma FlushPop(cfg: Config, s: State, s1: State)
    requires ConfigOk(cfg) && ShapeOk(cfg, s) && BoardOk(cfg, s) && OrderOk(s) && StallOk(s)
    requires s.x45 != [] && AllEpoch(InFlight(s), s.f.cur.w)
    requires s1 == PopRelease(s).(csr := s1.csr, apc := s1.apc, log := s1.log)
    ensures ShapeOk(cfg, s1) && BoardOk(cfg, s1) && AllEpoch(InFlight(s1), s1.f.cur.w)
  {
    PopBack(cfg, s, s1);
  }

  lemma FlushBack(cfg: Config, s: State, newpc: Pc, fence: bool)
    requires ShapeOk(cfg, s) && BoardOk(cfg, s) && AllEpoch(InFlight(s), s.f.cur.w)
    ensures var s' := FlushAll(s, FromWriteBack, newpc, fence);
      && ShapeOk(cfg, s') && BoardOk(cfg, s') && OrderOk(s')
      && AllEpoch(InFlight(s'), !s'.f.cur.w) && TrapsLast(InFlight(s'), s'.f.cur.w) && !Busy(s')
  {
    AllStale(InFlight(s), !s.f.cur.w);
  }

  lemma FlushTags(isa: Arch, s: State, newpc: Pc, fence: bool)
    requires TagsOk(Tags(s), s.f.cur, true)
    ensures var s' := FlushAll(s, FromWriteBack, newpc, fence);
      && Fetch.Inv(isa, s'.f) && Fetch.Pending(s'.f) == newpc
      && TagsOk(Tags(s'), s'.f.cur, false) && NoneCurrent(TokTags(s'.s12), s'.f.cur) && !DecLive(s')
  {
    TagsWriteBackFlush(Tags(s), s.f.cur);
    IssueProofs.FlushRestarts(isa, s, FromWriteBack, newpc, fence);
  }

  /** With nothing live, the spine is the fetch at the architectural pc, and nothing can be stalled. */
  lemma StaleSpine(isa: Arch, s: State)
    requires AllEpoch(InFlight(s), !s.f.cur.w) && NoneCurrent(TokTags(s.s12), s.f.cur) && !DecLive(s)
    requires Fetch.Pending(s.f) == s.apc
    ensures SpineOk(isa, s)
  {
    ScanStale(isa, s.f.cur.w, Arrived(s), InFlight(s));
    ScanToksStale(isa, s.f.cur, Arrived(s), s.s12);
  }

  /** After a flush from write-back nothing in flight is live, and the fetch restarts. */
  lemma FlushKeeps(isa: Arch, cfg: Config, first: Hart, s: State, s1: State, newpc: Pc, fence: bool)
    requires Inv(isa, cfg, first, s) && s.x45 != [] && AllEpoch(InFlight(s), s.f.cur.w) && Busy(s)
    requires s1 == PopRelease(s).(csr := s1.csr, apc := newpc, log := s1.log)
    requires LogOk(isa, first, s1)
    ensures Inv(isa, cfg, first, FlushAll(s1, FromWriteBack, newpc, fence))
  {
    var s' := FlushAll(s1, FromWriteBack, newpc, fence);
    FlushPop(cfg, s, s1);
    FlushBack(cfg, s1, newpc, fence);
    assert TagsOk(Tags(s1), s1.f.cur, true) by {
      assert Tags(s1) == Tags(s) && GenerationsOk(s);
    }
    FlushTags(isa, s1, newpc, fence);
    StaleSpine(isa, s');
  }

  // ---------- the log ----------

  /** The architectural state the head meets. */
  function HartOf(s: State): Hart { Hart(s.apc, s.regs, s.csr) }

  lemma LogStep(isa: Arch, first: Hart, s: State, s': State, env: Env)
    requires LogOk(isa, first, s) && Permits(isa, HartOf(s), env)
    requires s'.log == s.log + [Observe(isa, HartOf(s), env)] && HartOf(s') == Execute(isa, HartOf(s), env)
    ensures LogOk(isa, first, s')
  {
    RecordsStep(isa, first, s.log, env);
  }

  /** The head's operands are the architectural registers. */
  lemma HeadOperands(isa: Arch, cfg: Config, s: State, e: Entry)
    requires EntryOk(isa, Arrived(s), e)
    ensures NeedsOp1(e.ins) ==> e.op1 == Read(s.regs, e.ins.rs1)
    ensures NeedsOp2(e.ins) && !IsFence(e.ins) ==> e.op2 == Second(e.ins, s.regs)
    ensures NeedsOpd(e.ins) ==> e.opd == Read(s.regs, e.ins.rd)
    ensures e.how.Normal? ==> e.ins == DecodeAt(isa, s.apc, s.csr)
    ensures e.pc == s.apc
  {
  }

  lemma TrapLog(isa: Arch, cfg: Config, first: Hart, s: State)
    requires LogOk(isa, first, s) && s.x45 != []
    requires var e := s.x45[0]; EntryOk(isa, Arrived(s), e) && InX45(cfg, e) && e.out.Trap? && !e.out.rerun
    ensures var e := s.x45[0]; var t := e.out;
      LogOk(isa, first, PopRelease(s).(csr := isa.trapCsr(s.csr, t.cause, e.pc, t.tval),
                                      apc := isa.trapPc(s.csr, t.cause, e.pc, t.tval),
                                      log := s.log + [RecordOf(e, EnvOf(e), None)]))
  {
    var e := s.x45[0];
    HeadOperands(isa, cfg, s, e);
    var s' := PopRelease(s).(csr := isa.trapCsr(s.csr, e.out.cause, e.pc, e.out.tval),
                             apc := isa.trapPc(s.csr, e.out.cause, e.pc, e.out.tval),
                             log := s.log + [RecordOf(e, EnvOf(e), None)]);
    LogStep(isa, first, s, s', EnvOf(e));
  }

  lemma XRetLog(isa: Arch, cfg: Config, first: Hart, s: State)
    requires LogOk(isa, first, s) && s.x45 != []
    requires var e := s.x45[0]; EntryOk(isa, Arrived(s), e) && InX45(cfg, e) && e.out.System? && IsXRet(e.ins)
    ensures var e := s.x45[0];
      LogOk(isa, first, PopRelease(s).(csr := isa.retCsr(e.ins, s.csr), apc := isa.retPc(e.ins, s.csr),
                                      log := s.log + [RecordOf(e, Plain, None)]))
  {
    var e := s.x45[0];
    HeadOperands(isa, cfg, s, e);
    var s' := PopRelease(s).(csr := isa.retCsr(e.ins, s.csr), apc := isa.retPc(e.ins, s.csr),
                             log := s.log + [RecordOf(e, Plain, None)]);
    LogStep(isa, first, s, s', Plain);
  }

  lemma CsrLog(isa: Arch, cfg: Config, first: Hart, s: State)
    requires LogOk(isa, first, s) && s.x45 != []
    requires var e := s.x45[0]; EntryOk(isa, Arrived(s), e) && InX45(cfg, e) && e.out.System? && !IsXRet(e.ins)
    ensures var e := s.x45[0];
      LogOk(isa, first, WriteBack(s, Plain, isa.csrRead(e.ins, s.csr, e.op1)).(csr := isa.csrWrite(e.ins, s.csr,
            e.op1)))
  {
    var e := s.x45[0];
    HeadOperands(isa, cfg, s, e);
    var s' := WriteBack(s, Plain, isa.csrRead(e.ins, s.csr, e.op1)).(csr := isa.csrWrite(e.ins, s.csr, e.op1));
    LogStep(isa, first, s, s', Plain);
  }

  lemma BaseLog(isa: Arch, cfg: Config, first: Hart, s: State)
    requires LogOk(isa, first, s) && s.x45 != []
    requires var e := s.x45[0]; EntryOk(isa, Arrived(s), e) && InX45(cfg, e) && e.out.Base?
    ensures var e := s.x45[0]; var v := e.out.value;
      LogOk(isa, first, WriteBack(s, EnvOf(e), v))
  {
    var e := s.x45[0];
    HeadOperands(isa, cfg, s, e);
    LogStep(isa, first, s, WriteBack(s, EnvOf(e), e.out.value), EnvOf(e));
  }

  lemma MemLog(isa: Arch, cfg: Config, first: Hart, s: State, v: Word)
    requires LogOk(isa, first, s) && s.x45 != []
    requires var e := s.x45[0]; EntryOk(isa, Arrived(s), e) && InX45(cfg, e) && e.out.MemOp?
    ensures LogOk(isa, first, WriteBack(s, MemData(v), v))
  {
    HeadOperands(isa, cfg, s, s.x45[0]);
    LogStep(isa, first, s, WriteBack(s, MemData(v), v), MemData(v));
  }

  lemma StoreLog(isa: Arch, cfg: Config, first: Hart, s: State)
    requires LogOk(isa, first, s) && s.x45 != []
    requires var e := s.x45[0]; EntryOk(isa, Arrived(s), e) && InX45(cfg, e) && e.out.MemOp?
    requires !s.x45[0].out.io && !s.x45[0].ins.access.Atomic?
    ensures LogOk(isa, first, RetireMemOp(isa, s, IoData(0)))
  {
    HeadOperands(isa, cfg, s, s.x45[0]);
    LogStep(isa, first, s, RetireMemOp(isa, s, IoData(0)), EnvOf(s.x45[0]));
  }

  lemma IoFaultLog(isa: Arch, cfg: Config, first: Hart, s: State, c: nat, a: Word)
    requires LogOk(isa, first, s) && s.x45 != []
    requires var e := s.x45[0]; EntryOk(isa, Arrived(s), e) && InX45(cfg, e) && e.out.MemOp?
    ensures var e := s.x45[0];
      LogOk(isa, first, PopRelease(s).(csr := isa.trapCsr(s.csr, c, e.pc, a), apc := isa.trapPc(s.csr, c, e.pc, a),
                                      log := s.log + [RecordOf(e, MemFault(c, a), None)]))
  {
    var e := s.x45[0];
    HeadOperands(isa, cfg, s, e);
    var s' := PopRelease(s).(csr := isa.trapCsr(s.csr, c, e.pc, a), apc := isa.trapPc(s.csr, c, e.pc, a),
                             log := s.log + [RecordOf(e, MemFault(c, a), None)]);
    LogStep(isa, first, s, s', MemFault(c, a));
  }

  // ---------- all retirements ----------

  lemma RetireTrapKeeps(isa: Arch, cfg: Config, first: Hart, s: State)
    requires Inv(isa, cfg, first, s) && s.x45 != [] && s.x45[0].w == s.f.cur.w && s.x45[0].out.Trap?
    ensures Inv(isa, cfg, first, RetireTrap(isa, s))
  {
    var e := s.x45[0];
    HeadIsNext(isa, cfg, s);
    if e.out.rerun {
      FlushKeeps(isa, cfg, first, s, PopRelease(s), e.pc, e.out.cause == FENCEI_RERUN);
    } else {
      TrapLog(isa, cfg, first, s);
      var newpc := isa.trapPc(s.csr, e.out.cause, e.pc, e.out.tval);
      FlushKeeps(isa, cfg, first, s,
        PopRelease(s).(csr := isa.trapCsr(s.csr, e.out.cause, e.pc, e.out.tval), apc := newpc,
                       log := s.log + [RecordOf(e, EnvOf(e), None)]), newpc, false);
    }
  }

  lemma RetireSystemKeeps(isa: Arch, cfg: Config, first: Hart, s: State)
    requires Inv(isa, cfg, first, s) && s.x45 != [] && s.x45[0].w == s.f.cur.w && s.x45[0].out.System?
    ensures Inv(isa, cfg, first, RetireSystem(isa, s))
  {
    var e := s.x45[0];
    HeadIsNext(isa, cfg, s);
    if IsXRet(e.ins) {
      XRetLog(isa, cfg, first, s);
      var newpc := isa.retPc(e.ins, s.csr);
      FlushKeeps(isa, cfg, first, s,
        PopRelease(s).(csr := isa.retCsr(e.ins, s.csr), apc := newpc, log := s.log + [RecordOf(e, Plain, None)]),
        newpc, false);
    } else {
      CsrLog(isa, cfg, first, s);
      CommitKeeps(isa, cfg, first, s, Plain, isa.csrRead(e.ins, s.csr, e.op1), isa.csrWrite(e.ins, s.csr, e.op1));
    }
  }

  /** The value of a parked atomic, or of an IO operation. */
  lemma RetireValueKeeps(isa: Arch, cfg: Config, first: Hart, s: State, v: Word)
    requires Inv(isa, cfg, first, s) && s.x45 != [] && s.x45[0].w == s.f.cur.w && s.x45[0].out.MemOp?
    requires ResultOf(isa, s.x45[0]).None? || ResultOf(isa, s.x45[0]) == Some(v)
    ensures Inv(isa, cfg, first, WriteBack(s, MemData(v), v))
  {
    HeadIsNext(isa, cfg, s);
    MemLog(isa, cfg, first, s, v);
    CommitKeeps(isa, cfg, first, s, MemData(v), v, s.csr);
  }

  lemma RetireIoFaultKeeps(isa: Arch, cfg: Config, first: Hart, s: State, c: nat, a: Word)
    requires Inv(isa, cfg, first, s) && s.x45 != [] && s.x45[0].w == s.f.cur.w && s.x45[0].out.MemOp?
    ensures Inv(isa, cfg, first, TakeTrapAt(isa, PopRelease(s), s.x45[0], MemFault(c, a), c, a))
  {
    var e := s.x45[0];
    HeadIsNext(isa, cfg, s);
    IoFaultLog(isa, cfg, first, s, c, a);
    var newpc := isa.trapPc(s.csr, c, e.pc, a);
    FlushKeeps(isa, cfg, first, s,
      PopRelease(s).(csr := isa.trapCsr(s.csr, c, e.pc, a), apc := newpc,
                     log := s.log + [RecordOf(e, MemFault(c, a), None)]), newpc, false);
  }

  lemma RetireStoreKeeps(isa: Arch, cfg: Config, first: Hart, s: State)
    requires Inv(isa, cfg, first, s) && s.x45 != [] && s.x45[0].w == s.f.cur.w && s.x45[0].out.MemOp?
    requires !s.x45[0].out.io && !s.x45[0].ins.access.Atomic?
    ensures Inv(isa, cfg, first, RetireMemOp(isa, s, IoData(0)))
  {
    HeadIsNext(isa, cfg, s);
    StoreLog(isa, cfg, first, s);
    StoreKeeps(isa, cfg, first, s);
  }

  /** What the memory has answered for the head is what its payload says. */
  lemma HeadAnswer(isa: Arch, cfg: Config, s: State)
    requires ShapeOk(cfg, s) && OrderOk(s) && SpineOk(isa, s) && s.x45 != [] && s.x45[0].w == s.f.cur.w
    requires s.x45[0].out.MemOp? && !s.x45[0].out.io && s.x45[0].ins.access.Atomic?
    ensures EnvOf(s.x45[0]) == MemData(s.x45[0].out.word)
  {
    HeadIsNext(isa, cfg, s);
  }

  lemma RetireMemOpKeeps(isa: Arch, cfg: Config, first: Hart, s: State, io: IoResp)
    requires Inv(isa, cfg, first, s) && s.x45 != [] && s.x45[0].w == s.f.cur.w && s.x45[0].out.MemOp?
    ensures Inv(isa, cfg, first, RetireMemOp(isa, s, io))
  {
    var e := s.x45[0];
    if e.out.io {
      match io
      case IoFault(c, a) => RetireIoFaultKeeps(isa, cfg, first, s, c, a);
      case IoData(v) => RetireValueKeeps(isa, cfg, first, s, v);
    } else if e.ins.access.Atomic? {
      HeadAnswer(isa, cfg, s);
      RetireValueKeeps(isa, cfg, first, s, e.out.word);
    } else {
      RetireStoreKeeps(isa, cfg, first, s);
    }
  }

  lemma RetireBaseKeeps(isa: Arch, cfg: Config, first: Hart, s: State)
    requires Inv(isa, cfg, first, s) && s.x45 != [] && s.x45[0].w == s.f.cur.w && s.x45[0].out.Base?
    ensures var e := s.x45[0]; var v := e.out.value;
      Inv(isa, cfg, first, WriteBack(s, EnvOf(e), v))
  {
    var e := s.x45[0];
    HeadIsNext(isa, cfg, s);
    BaseLog(isa, cfg, first, s);
    CommitKeeps(isa, cfg, first, s, EnvOf(e), e.out.value, s.csr);
  }

  lemma RetireKeeps(isa: Arch, cfg: Config, first: Hart, s: State, io: IoResp)
    requires Inv(isa, cfg, first, s) && s.x45 != []
    ensures Inv(isa, cfg, first, Retire(isa, s, io))
  {
    if s.x45[0].w != s.f.cur.w {
      RetireStale(isa, cfg, first, s);
    } else {
      match s.x45[0].out
      case Trap(_, _, _) => RetireTrapKeeps(isa, cfg, first, s);
      case System => RetireSystemKeeps(isa, cfg, first, s);
      case MemOp(_, _) => RetireMemOpKeeps(isa, cfg, first, s, io);
      case Base(_) => RetireBaseKeeps(isa, cfg, first, s);
      case _ =>
    }
  }
}
