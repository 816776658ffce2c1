/** The operand nobody waits for, over whole runs: the issue of a PSIMD instruction is harmless exactly when its
    third operand meets its condition; otherwise some run behind it records what the architecture does not. */
module PsimdRuns {
  import opened Types
  import opened Isa
  import opened Pipeline
  import opened Spine
  import opened Invariant
  import opened OperandProofs
  import opened IssueProofs
  import opened Refinement
  import Scoreboard
  import BackProofs
  import MicroTraps

  // ---------- draining the pipeline ----------

  /** The answer w is given to every load, atomic and IO operation. */
  function DrainStep(s: State, w: Word): Step {
    if s.x45 != [] then StepRetire(IoData(w)) else StepCollect(RespData(w))
  }

  /** No live instruction in flight flushes, or accesses a CSR. */
  predicate Straight(fl: seq<Entry>, w: bool)
    decreases |fl|
  {
    fl == [] || ((fl[0].w == w ==> !Flushes(fl[0]) && !fl[0].out.System?) && Straight(fl[1..], w))
  }

  lemma {:induction false} KnownCsrIsStraight(isa: Arch, w: bool, st: Spec, fl: seq<Entry>)
    requires var r := Scan(isa, w, st, fl); !r.doomed && r.csr.Some?
    ensures Straight(fl, w) && !st.doomed && st.csr.Some?
    decreases |fl|
  {
    if fl == [] {
    } else {
      KnownCsrIsStraight(isa, w, After(isa, w, st, fl[0]), fl[1..]);
    }
  }

  lemma {:induction false} StraightReplace(a: seq<Entry>, e: Entry, e': Entry, c: seq<Entry>, w: bool)
    requires e.w == e'.w && (!Flushes(e) && !e.out.System? ==> !Flushes(e') && !e'.out.System?)
    requires Straight(a + ([e] + c), w)
    ensures Straight(a + ([e'] + c), w)
    decreases |a|
  {
    if a == [] {
      assert a + ([e] + c) == [e] + c && a + ([e'] + c) == [e'] + c;
      assert ([e] + c)[1..] == c && ([e'] + c)[1..] == c;
    } else {
      assert (a + ([e] + c))[1..] == a[1..] + ([e] + c);
      assert (a + ([e'] + c))[1..] == a[1..] + ([e'] + c);
      StraightReplace(a[1..], e, e', c, w);
    }
  }

  // ---------- the register drains to something else ----------

  /** r is going to hold something else than c when all in flight is done. */
  predicate Ends(isa: Arch, s: State, r: nat, c: Word) {
    var fl := InFlight(s);
    var k := Scoreboard.Youngest(Holders(fl), r);
    if k < 0 then r < |s.regs| && s.regs[r] != c
    else k < |fl| && fl[k].w == s.f.cur.w && ResultOf(isa, fl[k]) != Some(c)
  }

  /** Collecting a result settles nothing but the answer w. */
  lemma CollectSettles(isa: Arch, e: Entry, w: Word)
    ensures var e' := Collected(isa, e, RespData(w));
      ResultOf(isa, e') == ResultOf(isa, e) || ResultOf(isa, e') == Some(w)
    ensures !Flushes(e) && !e.out.System? ==>
      !Flushes(Collected(isa, e, RespData(w))) && !Collected(isa, e, RespData(w)).out.System?
  {
  }

  lemma CollectEnds(isa: Arch, s: State, r: nat, c: Word, w: Word)
    requires s.x34 != [] && w != c && Ends(isa, s, r, c) && Straight(InFlight(s), s.f.cur.w)
    ensures var s' := Collect(isa, s, RespData(w)); Ends(isa, s', r, c) && Straight(InFlight(s'), s'.f.cur.w)
  {
    var (a, e, e', rest) := (s.x45, s.x34[0], Collected(isa, s.x34[0], RespData(w)), s.x34[1..]);
    BackProofs.CollectFlight(isa, s, RespData(w));
    CollectSettles(isa, e, w);
    StraightReplace(a, e, e', rest, s.f.cur.w);
    EndsReplace(isa, s, Collect(isa, s, RespData(w)), a, e, e', rest, r, c);
  }

  lemma EndsReplace(isa: Arch, s: State, s': State, a: seq<Entry>, e: Entry, e': Entry, rest: seq<Entry>, r: nat,
      c: Word)
    requires InFlight(s) == a + ([e] + rest) && InFlight(s') == a + ([e'] + rest)
    requires s'.regs == s.regs && s'.f == s.f && e.w == e'.w && HolderOf(e) == HolderOf(e')
    requires ResultOf(isa, e') == ResultOf(isa, e) || ResultOf(isa, e') != Some(c)
    requires Ends(isa, s, r, c)
    ensures Ends(isa, s', r, c)
  {
    BackProofs.ReplaceHolder(a, e, e', rest);
    var k := Scoreboard.Youngest(Holders(InFlight(s)), r);
    if k >= 0 {
      ReplaceAt(a, e, e', rest, k);
    }
  }

  lemma ReplaceAt(a: seq<Entry>, e: Entry, e': Entry, c: seq<Entry>, k: nat)
    requires k < |a + ([e] + c)|
    ensures |a + ([e'] + c)| == |a + ([e] + c)|
    ensures (a + ([e'] + c))[k] == if k == |a| then e' else (a + ([e] + c))[k]
  {
  }

  lemma YoungestTail(fl: seq<Entry>, r: nat)
    requires fl != []
    ensures var k := Scoreboard.Youngest(Holders(fl), r);
      && Scoreboard.Youngest(Holders(fl[1..]), r) == (if k >= 1 then k - 1 else -1) && k < |fl|
      && (k == 0 ==> fl[0].ins.rd == r) && (k < 0 ==> fl[0].ins.rd != r)
  {
    var (hs, k) := (Holders(fl), Scoreboard.Youngest(Holders(fl), r));
    Scoreboard.YoungestSpec(hs, r);
    assert Holders(fl[1..]) == hs[1..];
    assert hs[0].rd == fl[0].ins.rd;
    Scoreboard.YoungestUnique(hs[1..], r, if k >= 1 then k - 1 else -1);
  }

  /** The value a live instruction commits when IO answers w. */
  function Settled(isa: Arch, e: Entry, w: Word): Word {
    var v := ResultOf(isa, e);
    if v.Some? then v.value else w
  }

  /** A retirement that does not flush. */
  lemma RetirePlain(isa: Arch, cfg: Config, s: State, w: Word)
    requires s.x45 != [] && InX45(cfg, s.x45[0])
    requires s.x45[0].w == s.f.cur.w ==> !Flushes(s.x45[0]) && !s.x45[0].out.System?
    ensures var (s', e) := (Retire(isa, s, IoData(w)), s.x45[0]);
      && s'.f == s.f && s'.s23 == s.s23 && s'.x45 == s.x45[1..] && s'.x34 == s.x34
      && s'.regs == if e.w != s.f.cur.w then s.regs else Write(s.regs, e.ins.rd, Settled(isa, e, w))
  {
  }

  lemma RetireEnds(isa: Arch, cfg: Config, s: State, r: nat, c: Word, w: Word)
    requires s.x45 != [] && InX45(cfg, s.x45[0]) && w != c && 0 < r < |s.regs|
    requires Ends(isa, s, r, c) && Straight(InFlight(s), s.f.cur.w)
    ensures var s' := Retire(isa, s, IoData(w));
      && s'.f == s.f && s'.s23 == s.s23 && |s'.regs| == |s.regs|
      && Ends(isa, s', r, c) && Straight(InFlight(s'), s'.f.cur.w)
  {
    var (fl, s') := (InFlight(s), Retire(isa, s, IoData(w)));
    assert fl[0] == s.x45[0];
    RetirePlain(isa, cfg, s, w);
    YoungestTail(fl, r);
    EndsTail(isa, s, s', r, c, w);
  }

  lemma WriteAt(regs: seq<Word>, rd: nat, v: Word, r: nat)
    requires 0 < r < |regs|
    ensures |Write(regs, rd, v)| == |regs| && Write(regs, rd, v)[r] == if rd == r then v else regs[r]
  {
  }

  lemma EndsTail(isa: Arch, s: State, s': State, r: nat, c: Word, w: Word)
    requires InFlight(s) != [] && w != c && 0 < r < |s.regs| && Ends(isa, s, r, c)
    requires s'.f == s.f && InFlight(s') == InFlight(s)[1..]
    requires var e := InFlight(s)[0];
      s'.regs == if e.w != s.f.cur.w then s.regs else Write(s.regs, e.ins.rd, Settled(isa, e, w))
    requires var (fl, k) := (InFlight(s), Scoreboard.Youngest(Holders(InFlight(s)), r));
      && Scoreboard.Youngest(Holders(fl[1..]), r) == (if k >= 1 then k - 1 else -1) && k < |fl|
      && (k == 0 ==> fl[0].ins.rd == r) && (k < 0 ==> fl[0].ins.rd != r)
    ensures Ends(isa, s', r, c) && |s'.regs| == |s.regs|
  {
    var (fl, k) := (InFlight(s), Scoreboard.Youngest(Holders(InFlight(s)), r));
    WriteAt(s.regs, fl[0].ins.rd, Settled(isa, fl[0], w), r);
    if k >= 1 {
      assert fl[1..][k - 1] == fl[k];
    }
  }

  // ---------- beside the run without the issue, the run with it ----------

  /** b is s with the instruction e issued behind all others. */
  predicate Shadow(s: State, b: State, e: Entry) {
    && b.x45 == s.x45 && b.x34 == s.x34 + [e] && b.f == s.f
    && b.regs == s.regs && b.csr == s.csr && b.apc == s.apc && b.log == s.log
  }

  lemma ShadowCollect(isa: Arch, s: State, b: State, e: Entry, resp: MemResp)
    requires Shadow(s, b, e) && s.x34 != []
    ensures Shadow(Collect(isa, s, resp), Collect(isa, b, resp), e)
  {
    assert (s.x34 + [e])[1..] == s.x34[1..] + [e];
  }

  lemma ShadowPop(s: State, b: State, e: Entry, env: Env, v: Word)
    requires Shadow(s, b, e) && s.x45 != []
    ensures Shadow(PopRelease(s), PopRelease(b), e) && Shadow(WriteBack(s, env, v), WriteBack(b, env, v), e)
  {
  }

  lemma ShadowMemOp(isa: Arch, s: State, b: State, e: Entry, w: Word)
    requires Shadow(s, b, e) && s.x45 != [] && s.x45[0].out.MemOp?
    ensures Shadow(RetireMemOp(isa, s, IoData(w)), RetireMemOp(isa, b, IoData(w)), e)
  {
    if s.x45[0].out.io {
      ShadowPop(s, b, e, MemData(w), w);
    } else {
      ShadowPop(s, b, e, EnvOf(s.x45[0]), s.x45[0].out.word);
    }
  }

  lemma ShadowRetire(isa: Arch, cfg: Config, s: State, b: State, e: Entry, w: Word)
    requires Shadow(s, b, e) && s.x45 != [] && InX45(cfg, s.x45[0])
    requires s.x45[0].w == s.f.cur.w ==> !Flushes(s.x45[0]) && !s.x45[0].out.System?
    ensures Shadow(Retire(isa, s, IoData(w)), Retire(isa, b, IoData(w)), e)
  {
    var head := s.x45[0];
    if head.out.MemOp? {
      ShadowMemOp(isa, s, b, e, w);
    }
    ShadowPop(s, b, e, EnvOf(head), if head.out.Base? then head.out.value else 0);
  }

  /** What is kept while the instructions in front of e complete: the decoded instruction does not move. */
  ghost predicate Draining(isa: Arch, cfg: Config, first: Hart, s: State, b: State, e: Entry, r: nat, c: Word) {
    && Inv(isa, cfg, first, s) && Shadow(s, b, e) && 0 < r < cfg.nregs
    && Straight(InFlight(s), s.f.cur.w) && Ends(isa, s, r, c)
  }

  lemma DrainOne(isa: Arch, cfg: Config, first: Hart, s: State, b: State, e: Entry, r: nat, c: Word, w: Word)
    requires Draining(isa, cfg, first, s, b, e, r, c) && w != c && InFlight(s) != []
    ensures var step := DrainStep(s, w);
      && Can(isa, cfg, s, step) && Can(isa, cfg, b, step)
      && var (s', b') := (Next(isa, cfg, s, step), Next(isa, cfg, b, step));
      && Draining(isa, cfg, first, s', b', e, r, c) && s'.s23 == s.s23 && s'.f == s.f
      && 2 * |s'.x34| + |s'.x45| < 2 * |s.x34| + |s.x45|
  {
    if s.x45 != [] {
      X45At(cfg, s.x45, 0);
      assert InFlight(s)[0] == s.x45[0];
      BackProofs.RetireKeeps(isa, cfg, first, s, IoData(w));
      RetirePlain(isa, cfg, s, w);
      RetireEnds(isa, cfg, s, r, c, w);
      ShadowRetire(isa, cfg, s, b, e, w);
    } else {
      BackProofs.CollectKeeps(isa, cfg, first, s, RespData(w));
      CollectEnds(isa, s, r, c, w);
      ShadowCollect(isa, s, b, e, RespData(w));
    }
  }

  lemma {:induction false} Drain(isa: Arch, cfg: Config, first: Hart, s: State, b: State, e: Entry, r: nat, c: Word,
      w: Word) returns (steps: seq<Step>, s': State, b': State)
    requires Draining(isa, cfg, first, s, b, e, r, c) && w != c
    ensures Leads(isa, cfg, b, steps, b') && Draining(isa, cfg, first, s', b', e, r, c)
    ensures InFlight(s') == [] && s'.s23 == s.s23 && s'.f == s.f
    decreases 2 * |s.x34| + |s.x45|
  {
    if InFlight(s) == [] {
      steps, s', b' := [], s, b;
    } else {
      var step := DrainStep(s, w);
      DrainOne(isa, cfg, first, s, b, e, r, c, w);
      var rest;
      rest, s', b' := Drain(isa, cfg, first, Next(isa, cfg, s, step), Next(isa, cfg, b, step), e, r, c, w);
      LeadsStep(isa, cfg, b, step, Next(isa, cfg, b, step), rest, b');
      steps := [step] + rest;
    }
  }

  // ---------- the wrong record ----------

  /** The issued PSIMD instruction, which is next to complete. */
  predicate IsIssued(s: State, e: Entry) {
    && DecLive(s) && e.ins == s.s23.value.ins && e.ins.itype.PSIMD? && e.how == Normal == s.s23.value.how
    && e.out.Psimd? && e.heard.None? && e.w == s.f.cur.w
  }

  /** With nothing in flight the decoded instruction is the one at the architectural pc. */
  lemma DecodedIsNext(isa: Arch, cfg: Config, first: Hart, s: State)
    requires Inv(isa, cfg, first, s) && InFlight(s) == [] && DecLive(s) && s.s23.value.how.Normal?
    ensures s.s23.value.ins == DecodeAt(isa, s.apc, s.csr)
  {
    SpinePrefix(isa, s);
    assert AtIssue(isa, s) == Arrived(s);
  }

  lemma Completes(isa: Arch, cfg: Config, s: State, b: State, e: Entry, w: Word) returns (last: State)
    requires ConfigOk(cfg) && InFlight(s) == [] && Shadow(s, b, e) && IsIssued(s, e)
    ensures Leads(isa, cfg, b, [StepCollect(RespData(w))] + ([StepRetire(IoData(w))] + []), last)
    ensures |last.log| == |s.log| + 1 && last.log[..|s.log|] == s.log
    ensures last.log[|s.log|].env == Plain && last.log[|s.log|].opd == e.opd
  {
    assert b.x45 == [] && b.x34 == [e];
    var mid := Collect(isa, b, RespData(w));
    assert mid.x45 == [Collected(isa, e, RespData(w))];
    last := Retire(isa, mid, IoData(w));
    LeadsStep(isa, cfg, mid, StepRetire(IoData(w)), last, [], last);
    LeadsStep(isa, cfg, b, StepCollect(RespData(w)), mid, [StepRetire(IoData(w))] + [], last);
  }

  lemma WrongRecord(isa: Arch, cfg: Config, first: Hart, s: State, e: Entry, log: seq<Commit>)
    requires Inv(isa, cfg, first, s) && InFlight(s) == [] && IsIssued(s, e)
    requires |log| == |s.log| + 1 && log[..|s.log|] == s.log && log[|s.log|].env == Plain
    requires log[|s.log|].opd == e.opd != Read(s.regs, e.ins.rd)
    ensures !Records(isa, first, log)
  {
    DecodedIsNext(isa, cfg, first, s);
  }

  lemma IssueShadows(isa: Arch, cfg: Config, s: State)
    requires ConfigOk(cfg) && CanIssue(cfg, s) && s.s23.value.ins.itype.PSIMD?
    ensures Shadow(s, Issue(isa, cfg, s), Issued(isa, s))
  {
  }

  /** It is neither interrupted nor re-run, and the CSRs are known when it is decoded. */
  lemma DecodedNormally(isa: Arch, cfg: Config, s: State)
    requires SpineOk(isa, s) && CanIssue(cfg, s) && !OpdRight(isa, s)
    ensures s.s23.value.ins.itype.PSIMD? && s.s23.value.how.Normal?
    ensures !AtIssue(isa, s).doomed && AtIssue(isa, s).csr.Some?
  {
    SpinePrefix(isa, s);
  }

  lemma LivePsimd(isa: Arch, cfg: Config, s: State)
    requires SpineOk(isa, s) && CanIssue(cfg, s) && !OpdRight(isa, s)
    ensures IsIssued(s, Issued(isa, s)) && Straight(InFlight(s), s.f.cur.w)
  {
    DecodedNormally(isa, cfg, s);
    KnownCsrIsStraight(isa, s.f.cur.w, Arrived(s), InFlight(s));
  }

  lemma RegisterChanges(isa: Arch, cfg: Config, s: State)
    requires ShapeOk(cfg, s) && BoardOk(cfg, s) && OperandsOk(s) && CanIssue(cfg, s) && !OpdRight(isa, s)
    ensures var (e, r) := (Issued(isa, s), s.s23.value.ins.rd);
      0 < r < cfg.nregs == |s.regs| && e.opd == s.regs[r] && Ends(isa, s, r, e.opd)
  {
    var r := s.s23.value.ins.rd;
    UnavailableIsStale(cfg, s, s.opd, r);
    Scoreboard.YoungestSpec(Holders(InFlight(s)), r);
    assert Scoreboard.EntryOk(s.board.entries[r], Holders(InFlight(s)), r, cfg.ids);
  }

  lemma WrongRun(isa: Arch, cfg: Config, first: Hart, s: State) returns (steps: seq<Step>, last: State)
    requires Inv(isa, cfg, first, s) && CanIssue(cfg, s) && !OpdRight(isa, s)
    ensures Leads(isa, cfg, Issue(isa, cfg, s), steps, last) && !Records(isa, first, last.log)
  {
    var (e, r) := (Issued(isa, s), s.s23.value.ins.rd);
    var w: Word := if e.opd == 0 then 1 else 0;
    LivePsimd(isa, cfg, s);
    RegisterChanges(isa, cfg, s);
    IssueShadows(isa, cfg, s);
    var s', b';
    steps, s', b' := Drain(isa, cfg, first, s, Issue(isa, cfg, s), e, r, e.opd, w);
    last := Completes(isa, cfg, s', b', e, w);
    WrongRecord(isa, cfg, first, s', e, last.log);
    var end := [StepCollect(RespData(w))] + ([StepRetire(IoData(w))] + []);
    LeadsConcat(isa, cfg, Issue(isa, cfg, s), steps, b', end, last);
    steps := steps + end;
  }

  lemma SafeExactly(isa: Arch, cfg: Config, first: Hart, s: State)
    requires Inv(isa, cfg, first, s) && MicroTraps.MicroOk(s) && CanIssue(cfg, s)
    ensures OpdRight(isa, s) <==> Safe(isa, cfg, first, Issue(isa, cfg, s))
  {
    if OpdRight(isa, s) {
      IssueKeeps(isa, cfg, first, s);
      MicroTraps.StepKeeps(isa, cfg, s, StepIssue);
      InvIsSafe(isa, cfg, first, Issue(isa, cfg, s));
    } else {
      var steps, last := WrongRun(isa, cfg, first, s);
    }
  }

  /** From every reached state in which an issue may fire: all runs behind it record what the architecture
      records exactly when the third operand meets its condition. */
  lemma IssueIsSafeExactly(isa: Arch, cfg: Config, reset: State, resetpc: Pc, before: seq<Step>, s: State)
    requires Reached(isa, cfg, reset, resetpc, before, s) && CanIssue(cfg, s)
    ensures OpdRight(isa, s) <==> Safe(isa, cfg, FirstHart(reset, resetpc), Issue(isa, cfg, s))
  {
    ReachedOk(isa, cfg, reset, resetpc, before, s);
    SafeExactly(isa, cfg, FirstHart(reset, resetpc), s);
  }
}
