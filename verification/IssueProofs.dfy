/** The issue step keeps the invariant: locking, operand capture, and the redirect of a misprediction. */
module IssueProofs {
  import opened Types
  import opened Isa
  import opened Epochs
  import opened Pipeline
  import opened Spine
  import opened Invariant
  import opened OperandProofs
  import Fetch
  import Scoreboard

  /** PSIMD instructions read rd as a third operand, but their issue rule does not wait for it: this is
      what it has to meet all the same.  Behind a certain flush nothing is required. */
  predicate OpdRight(isa: Arch, s: State) {
    s.s23.Some? && NeedsOpd(s.s23.value.ins) && !AtIssue(isa, s).doomed ==> OpdMeets(isa, s, s.s23.value.ins.rd)
  }

  lemma IssuedOperands(isa: Arch, cfg: Config, first: Hart, s: State)
    requires Inv(isa, cfg, first, s) && CanIssue(cfg, s) && OpdRight(isa, s) && !AtIssue(isa, s).doomed
    ensures OpsOk(AtIssue(isa, s).regs, Issued(isa, s))
  {
    var ins := s.s23.value.ins;
    if NeedsOp1(ins) {
      OperandIsFresh(isa, cfg, s, s.op1, ins.rs1);
    }
    if NeedsOp2(ins) && !IsFence(ins) {
      if ins.src2.Constant? {
        ConstantIsKept(cfg, s, s.op2);
      } else {
        OperandIsFresh(isa, cfg, s, s.op2, ins.rs2);
      }
    }
    if NeedsOpd(ins) {
      OpdExact(isa, cfg, s, ins.rd);
    }
  }

  /** The issued entry is the next instruction of the speculative run. */
  lemma IssuedEntryOk(isa: Arch, st: Spec, s: State)
    requires s.s23.Some? && Live(s, s.s23.value.tok.tag) && !st.doomed
    requires AfterDec(isa, s.f.cur, st, s.s23).ok && OpsOk(st.regs, Issued(isa, s))
    ensures EntryOk(isa, st, Issued(isa, s))
  {
  }

  /** A prediction that survives the check led the fetch to the right pc. */
  lemma PredictionHeld(isa: Arch, st: Spec, s: State)
    requires s.s23.Some? && Live(s, s.s23.value.tok.tag) && !st.doomed
    requires AfterDec(isa, s.f.cur, st, s.s23).ok
    requires !Flushes(Issued(isa, s))
    requires IsControl(s.s23.value.ins) ==>
      && s.s12 != [] && s.s12[0].pc == Fetch.PredictedNext(isa, s.s23.value.tok)
      && !Mispredicted(isa, s.s23.value, Issued(isa, s).op1, Issued(isa, s).op2, s.s12[0].pc)
    ensures Issued(isa, s).npc == Fetch.PredictedNext(isa, s.s23.value.tok)
  {
    var d := s.s23.value;
    if d.tok.taken {
      assert Fetch.Trusted(isa, d.tok.pc, d.tok.target);
      assert d.how.Normal? && d.ins == DecodeAt(isa, d.tok.pc, st.csr.value);
    }
  }

  /** Behind a live decoded instruction the whole front end is of its generation. */
  lemma FrontIsLive(s: State)
    requires GenerationsOk(s) && s.s23.Some? && Live(s, s.s23.value.tok.tag)
    ensures AllCurrent(TokTags(s.s12) + Fetch.UnitTags(s.f), s.f.cur) && AllCurrent(TokTags(s.s12), s.f.cur)
  {
    var u := TokTags(s.s12) + Fetch.UnitTags(s.f);
    LiveOnwards(Tags(s), s.f.cur);
    AllCurrentConcat([s.s23.value.tok.tag], u, s.f.cur);
    AllCurrentConcat(TokTags(s.s12), Fetch.UnitTags(s.f), s.f.cur);
  }

  /** A redirect with no item of the new epochs left: the fetch restarts, and the front end is stale. */
  lemma FlushRestarts(isa: Arch, s: State, who: Flusher, newpc: Pc, fence: bool)
    requires NoneCurrent(Tags(s), Toggle(s.f.cur, who))
    ensures var s' := FlushAll(s, who, newpc, fence);
      && Fetch.Inv(isa, s'.f) && Fetch.Pending(s'.f) == newpc && Tags(s') == Tags(s)
      && NoneCurrent(TokTags(s'.s12), s'.f.cur) && !DecLive(s')
  {
    var cur := Toggle(s.f.cur, who);
    NoneCurrentConcat(DecTags(s.s23), TokTags(s.s12) + Fetch.UnitTags(s.f), cur);
    NoneCurrentConcat(TokTags(s.s12), Fetch.UnitTags(s.f), cur);
    Fetch.FlushRestarts(isa, s.f, who, newpc, fence);
  }

  lemma EnteredBoard(cfg: Config, s: State, e: Entry)
    requires ConfigOk(cfg) && BoardOk(cfg, s) && |s.x45 + s.x34| < cfg.ids && e.serial == s.issued
    ensures Scoreboard.Inv(Scoreboard.Lock(s.board, e.ins.rd, cfg.ids), Holders(InFlight(s) + [e]), s.issued
          + 1, cfg.ids)
  {
    HoldersSnoc(InFlight(s), e);
    Scoreboard.LockKeeps(s.board, Holders(InFlight(s)), s.issued, cfg.ids, e.ins.rd);
  }

  lemma EnteredShape(isa: Arch, cfg: Config, s: State)
    requires ConfigOk(cfg) && ShapeOk(cfg, s) && s.board.renameid == Scoreboard.Wrap(s.issued, cfg.ids)
          && CanIssue(cfg, s)
    ensures ShapeOk(cfg, Entered(isa, cfg, s))
  {
    AllX34Snoc(cfg, s.x34, Issued(isa, s));
  }

  /** What the issue does behind stage 3. */
  lemma IssueBack(isa: Arch, cfg: Config, s: State)
    requires ConfigOk(cfg) && ShapeOk(cfg, s) && BoardOk(cfg, s) && CanIssue(cfg, s)
    ensures var s' := Issue(isa, cfg, s);
      InFlight(s') == InFlight(s) + [Issued(isa, s)] && ShapeOk(cfg, s') && BoardOk(cfg, s')
  {
    var e := Issued(isa, s);
    Assoc(s.x45, s.x34, [e]);
    EnteredBoard(cfg, s, e);
    EnteredShape(isa, cfg, s);
  }

  lemma IssueStall(s: State, s': State, e: Entry)
    requires OrderOk(s) && StallOk(s) && DecLive(s)
    requires InFlight(s') == InFlight(s) + [e] && s'.s23.None? && s'.f.cur.w == s.f.cur.w
    requires e.w == s.f.cur.w && e.ins == s.s23.value.ins && (e.ins.itype.TRAP? ==> e.out.Trap?)
    requires s'.stall == s.stall
    ensures OrderOk(s') && StallOk(s')
  {
    OrderedSnoc(InFlight(s), s.f.cur.w, e);
    TrapsLastSnoc(InFlight(s), s.f.cur.w, e);
  }

  /** The tags after the issue are all current, and stale after a redirect. */
  lemma IssueTags(isa: Arch, cfg: Config, s: State)
    requires ConfigOk(cfg) && GenerationsOk(s) && CanIssue(cfg, s)
    ensures var s' := Issue(isa, cfg, s);
      && TagsOk(Tags(s'), s'.f.cur, true)
      && (Redirects(isa, s) ==> NoneCurrent(Tags(Entered(isa, cfg, s)), s'.f.cur))
  {
    var s1 := Entered(isa, cfg, s);
    FrontIsLive(s);
    assert Tags(s1) == TokTags(s.s12) + Fetch.UnitTags(s.f);
    assert Tags(Issue(isa, cfg, s)) == Tags(s1);
    TagsExecuteFlush(Tags(s1), s.f.cur);
  }

  /** The issued instruction extends the speculative run, rightly. */
  predicate IssuedRight(isa: Arch, cfg: Config, s: State)
    requires s.s23.Some? && cfg.ids > 0 && (IsControl(s.s23.value.ins) ==> s.s12 != [])
  {
    var after := After(isa, s.f.cur.w, AtIssue(isa, s), Issued(isa, s));
    AtIssue(isa, Issue(isa, cfg, s)) == after && after.ok
  }

  lemma IssueAfter(isa: Arch, cfg: Config, first: Hart, s: State)
    requires Inv(isa, cfg, first, s) && CanIssue(cfg, s) && OpdRight(isa, s)
    ensures IssuedRight(isa, cfg, s)
  {
    var (st, e) := (AtIssue(isa, s), Issued(isa, s));
    SpinePrefix(isa, s);
    IssueBack(isa, cfg, s);
    ScanSnoc(isa, s.f.cur.w, Arrived(s), InFlight(s), e);
    if !st.doomed {
      IssuedOperands(isa, cfg, first, s);
      IssuedEntryOk(isa, st, s);
    }
  }

  /** Where the spine goes on behind the issued instruction. */
  lemma StraightOn(isa: Arch, st: Spec, s: State)
    requires DecLive(s) && !st.doomed && (IsControl(s.s23.value.ins) ==> s.s12 != []) && !Redirects(isa, s)
    requires ScanToks(isa, s.f.cur, AfterDec(isa, s.f.cur, st, s.s23), s.s12).ok
    requires AllCurrent(TokTags(s.s12), s.f.cur) && !Flushes(Issued(isa, s))
    requires s.s23.value.ins.itype.TRAP? ==> Issued(isa, s).out.Trap?
    ensures Issued(isa, s).npc == AfterDec(isa, s.f.cur, st, s.s23).pc && !AfterDec(isa, s.f.cur, st, s.s23).doomed
  {
    var dec := AfterDec(isa, s.f.cur, st, s.s23);
    ScanToksOk(isa, s.f.cur, dec, s.s12);
    if IsControl(s.s23.value.ins) {
      ScanToksOk(isa, s.f.cur, AfterTok(isa, dec, s.s12[0]), s.s12[1..]);
    }
    PredictionHeld(isa, st, s);
  }

  /** Without a redirect the front end goes on from where the issued instruction leads. */
  lemma IssueSpineStraight(isa: Arch, cfg: Config, s: State)
    requires SpineOk(isa, s) && GenerationsOk(s) && cfg.ids > 0 && CanIssue(cfg, s) && !Redirects(isa, s)
    requires IssuedRight(isa, cfg, s)
    ensures SpineOk(isa, Issue(isa, cfg, s))
  {
    var st := AtIssue(isa, s);
    var after := After(isa, s.f.cur.w, st, Issued(isa, s));
    if after.doomed {
      ScanToksDoomed(isa, s.f.cur, after, s.s12);
    } else {
      var dec := AfterDec(isa, s.f.cur, st, s.s23);
      FrontIsLive(s);
      StraightOn(isa, st, s);
      ScanToksFrame(isa, s.f.cur, dec, after, s.s12);
    }
  }

  /** With a redirect the front end is stale and the fetch restarts at the resolved pc. */
  lemma IssueSpineRedirect(isa: Arch, cfg: Config, s: State)
    requires ConfigOk(cfg) && GenerationsOk(s) && CanIssue(cfg, s) && Redirects(isa, s) && IssuedRight(isa, cfg, s)
    ensures SpineOk(isa, Issue(isa, cfg, s)) && Fetch.Inv(isa, Issue(isa, cfg, s).f)
  {
    var s' := Issue(isa, cfg, s);
    IssueTags(isa, cfg, s);
    FlushRestarts(isa, Entered(isa, cfg, s), FromExecute, Issued(isa, s).npc, false);
    ScanToksStale(isa, s'.f.cur, AtIssue(isa, s'), s'.s12);
  }

  lemma IssueOrder(isa: Arch, cfg: Config, s: State)
    requires ConfigOk(cfg) && OrderOk(s) && StallOk(s) && CanIssue(cfg, s)
    requires InFlight(Issue(isa, cfg, s)) == InFlight(s) + [Issued(isa, s)]
    ensures OrderOk(Issue(isa, cfg, s)) && StallOk(Issue(isa, cfg, s))
  {
    var s' := Issue(isa, cfg, s);
    assert s'.stall == s.stall;
    assert s'.f.cur.w == s.f.cur.w && s'.s23.None?;
    IssueStall(s, s', Issued(isa, s));
  }

  lemma IssueRest(isa: Arch, cfg: Config, first: Hart, s: State)
    requires Inv(isa, cfg, first, s) && CanIssue(cfg, s)
    ensures var s' := Issue(isa, cfg, s);
      && ShapeOk(cfg, s') && BoardOk(cfg, s') && OrderOk(s') && GenerationsOk(s') && StallOk(s')
      && OperandsOk(s') && LogOk(isa, first, s')
  {
    IssueBack(isa, cfg, s);
    IssueTags(isa, cfg, s);
    IssueOrder(isa, cfg, s);
  }

  lemma IssueKeeps(isa: Arch, cfg: Config, first: Hart, s: State)
    requires Inv(isa, cfg, first, s) && CanIssue(cfg, s) && OpdRight(isa, s)
    ensures Inv(isa, cfg, first, Issue(isa, cfg, s))
  {
    IssueRest(isa, cfg, first, s);
    IssueAfter(isa, cfg, first, s);
    if Redirects(isa, s) {
      IssueSpineRedirect(isa, cfg, s);
    } else {
      IssueSpineStraight(isa, cfg, s);
    }
  }

  /** The issue step keeps the invariant exactly when the third operand is right. */
  lemma IssueKeepsExactly(isa: Arch, cfg: Config, first: Hart, s: State)
    requires Inv(isa, cfg, first, s) && CanIssue(cfg, s)
    ensures Inv(isa, cfg, first, Issue(isa, cfg, s)) <==> OpdRight(isa, s)
  {
    if OpdRight(isa, s) {
      IssueKeeps(isa, cfg, first, s);
    } else {
      WrongOperandShows(isa, cfg, s);
    }
  }

  lemma WrongOperandShows(isa: Arch, cfg: Config, s: State)
    requires ConfigOk(cfg) && ShapeOk(cfg, s) && BoardOk(cfg, s) && OrderOk(s) && OperandsOk(s) && CanIssue(cfg, s)
    requires !OpdRight(isa, s)
    ensures !SpineOk(isa, Issue(isa, cfg, s))
  {
    IssueBack(isa, cfg, s);
    ScanSnoc(isa, s.f.cur.w, Arrived(s), InFlight(s), Issued(isa, s));
    OpdExact(isa, cfg, s, s.s23.value.ins.rd);
    if SpineOk(isa, Issue(isa, cfg, s)) {
      SpinePrefix(isa, Issue(isa, cfg, s));
    }
  }
}
