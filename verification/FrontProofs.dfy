/** The steps of stages 0 to 2 keep the invariant. */
module FrontProofs {
  import opened Types
  import opened Isa
  import opened Epochs
  import opened Pipeline
  import opened Spine
  import opened Invariant
  import Fetch

  /** Steps that touch neither the back end nor the architectural state keep what is said about them. */
  lemma SameBackEnd(isa: Arch, cfg: Config, first: Hart, s: State, s': State)
    requires s'.x34 == s.x34 && s'.x45 == s.x45 && s'.board == s.board && s'.issued == s.issued
    requires s'.regs == s.regs && s'.csr == s.csr && s'.apc == s.apc && s'.log == s.log && s'.f.cur == s.f.cur
    ensures AtIssue(isa, s') == AtIssue(isa, s)
    ensures BoardOk(cfg, s) ==> BoardOk(cfg, s')
    ensures OrderOk(s) ==> OrderOk(s')
    ensures LogOk(isa, first, s) ==> LogOk(isa, first, s')
    ensures Busy(s') == Busy(s)
    ensures s'.s23 == s.s23 && s'.stall == s.stall && StallOk(s) ==> StallOk(s')
  {
    assert InFlight(s') == InFlight(s);
  }

  /** The same, when the fetch unit goes on to send the same instruction next. */
  lemma SameSpine(isa: Arch, s: State, s': State)
    requires SpineOk(isa, s) && AtIssue(isa, s') == AtIssue(isa, s)
    requires s'.f.cur == s.f.cur && s'.s23 == s.s23 && s'.s12 == s.s12 && s'.rerun == s.rerun
    requires Fetch.Pending(s'.f) == Fetch.Pending(s.f)
    ensures SpineOk(isa, s')
  {
  }

  // ---------- stage 0 ----------

  lemma GenGenerations(s: State, resp: Fetch.Prediction)
    requires GenerationsOk(s)
    ensures TagsOk(Tags(Gen(s, resp)), s.f.cur, Busy(s))
  {
    if !s.f.fence {
      Fetch.WordTagsSnoc(s.f.queue, Fetch.Word01(WordAddr(s.f.pc), IsUpper(s.f.pc), resp, s.f.cur));
      TagsAppend(DecTags(s.s23), TokTags(s.s12), Fetch.HeldTags(s.f), Fetch.WordTags(s.f.queue), s.f.cur, Busy(s));
    }
  }

  lemma GenKeeps(isa: Arch, cfg: Config, first: Hart, s: State, resp: Fetch.Prediction)
    requires Inv(isa, cfg, first, s) && (s.f.fence || Fetch.Consistent(isa, Fetch.Tip(isa, s.f), resp))
    ensures Inv(isa, cfg, first, Gen(s, resp))
  {
    var s' := Gen(s, resp);
    Fetch.GenKeeps(isa, s.f, resp);
    GenGenerations(s, resp);
    SameBackEnd(isa, cfg, first, s, s');
    SameSpine(isa, s, s');
  }

  // ---------- stage 1 ----------

  /** Stage 1 can only hold a live parcel in front of a live word. */
  lemma HeldParcelIsCurrent(s: State)
    requires GenerationsOk(s) && s.f.queue != [] && Fetch.HoldsParcel(s.f)
    ensures SameEpochs(s.f.queue[0].tag, s.f.cur)
  {
    var (c, d) := (Fetch.HeldTags(s.f), Fetch.WordTags(s.f.queue));
    ChainLast(DecTags(s.s23), TokTags(s.s12), c, d, s.f.cur);
    LiveOnwards(c + d, s.f.cur);
    AllCurrentConcat(c, d, s.f.cur);
  }

  lemma QueueLive(s: State)
    requires GenerationsOk(s) && s.f.queue != [] && SameEpochs(s.f.queue[0].tag, s.f.cur)
    ensures AllCurrent(Fetch.WordTags(s.f.queue), s.f.cur)
  {
    var d := Fetch.WordTags(s.f.queue);
    ChainLast(DecTags(s.s23), TokTags(s.s12), Fetch.HeldTags(s.f), d, s.f.cur);
    LiveOnwards(d, s.f.cur);
  }

  lemma ProcessLiveGenerations(isa: Arch, s: State)
    requires GenerationsOk(s) && s.f.queue != [] && SameEpochs(s.f.queue[0].tag, s.f.cur)
    ensures TagsOk(Tags(Process(isa, s)), s.f.cur, Busy(s))
  {
    QueueLive(s);
    Fetch.ProcessTags(isa, s.f);
    var (f', out) := Fetch.Process(isa, s.f);
    var b := TokTags(s.s12);
    var sent := if out.Some? then [s.f.cur] else [];
    TagsSend(DecTags(s.s23), b, Fetch.UnitTags(s.f), sent, Fetch.UnitTags(f'), s.f.cur, Busy(s));
    if out.Some? {
      TokTagsSnoc(s.s12, out.value);
    } else {
      assert b + [] == b;
    }
  }

  lemma ProcessStaleGenerations(isa: Arch, s: State)
    requires GenerationsOk(s) && s.f.queue != [] && !SameEpochs(s.f.queue[0].tag, s.f.cur)
    ensures TagsOk(Tags(Process(isa, s)), s.f.cur, Busy(s))
  {
    var rest := Fetch.WordTags(s.f.queue[1..]);
    TagsDrop(DecTags(s.s23), TokTags(s.s12), Fetch.HeldTags(s.f), [s.f.queue[0].tag], rest, s.f.cur, Busy(s));
    assert [] + rest == rest;
  }

  lemma ProcessGenerations(isa: Arch, s: State)
    requires GenerationsOk(s) && s.f.queue != []
    ensures TagsOk(Tags(Process(isa, s)), s.f.cur, Busy(s))
  {
    if SameEpochs(s.f.queue[0].tag, s.f.cur) {
      ProcessLiveGenerations(isa, s);
    } else {
      ProcessStaleGenerations(isa, s);
    }
  }

  lemma ProcessSpine(isa: Arch, s: State)
    requires SpineOk(isa, s) && s.f.queue != [] && Fetch.ProcessSpec(isa, s.f)
    ensures SpineOk(isa, Process(isa, s)) && Process(isa, s).f.cur == s.f.cur
  {
    var s' := Process(isa, s);
    var out := Fetch.Process(isa, s.f).1;
    assert InFlight(s') == InFlight(s) && s'.f.cur == s.f.cur;
    assert AtDecode(isa, s') == AtDecode(isa, s);
    if out.Some? {
      ScanToksSnoc(isa, s.f.cur, AtDecode(isa, s), s.s12, out.value);
    }
  }

  lemma ProcessKeeps(isa: Arch, cfg: Config, first: Hart, s: State)
    requires Inv(isa, cfg, first, s) && CanProcess(cfg, s)
    ensures Inv(isa, cfg, first, Process(isa, s))
  {
    var s' := Process(isa, s);
    if Fetch.HoldsParcel(s.f) {
      HeldParcelIsCurrent(s);
    }
    Fetch.ProcessFollows(isa, s.f);
    ProcessGenerations(isa, s);
    ProcessSpine(isa, s);
    SameBackEnd(isa, cfg, first, s, s');
  }

  // ---------- stage 2 ----------

  lemma DecodeGenerations(isa: Arch, s: State, irq: Option<nat>)
    requires GenerationsOk(s) && s.s12 != [] && s.s23.None?
    ensures TagsOk(Tags(Decode(isa, s, irq)), s.f.cur, Busy(s))
  {
    var (t, rest, u) := ([s.s12[0].tag], TokTags(s.s12[1..]), Fetch.UnitTags(s.f));
    Assoc(t, rest, u);
    assert [] + ((t + rest) + u) == (t + rest) + u && [] + (rest + u) == rest + u;
    TagsRemove([], t, rest + u, s.f.cur, Busy(s));
  }

  lemma DecodeOperands(isa: Arch, cfg: Config, s: State, irq: Option<nat>)
    requires ShapeOk(cfg, s) && WellFormed(isa, cfg.nregs) && s.s12 != [] && s.s23.None?
    ensures OperandsOk(Decode(isa, s, irq)) && ShapeOk(cfg, Decode(isa, s, irq))
  {
    assert DecodeOk(isa.decode(s.s12[0].bits, s.csr), cfg.nregs);
  }

  /** A live instruction is decoded under the CSRs of its turn, or as a micro-trap. */
  lemma DecodeSpine(isa: Arch, cfg: Config, s: State, irq: Option<nat>)
    requires SpineOk(isa, s) && WellFormed(isa, cfg.nregs) && CanDecode(isa, s, irq)
    ensures SpineOk(isa, Decode(isa, s, irq))
  {
    var s' := Decode(isa, s, irq);
    var t := s.s12[0];
    var st := AtIssue(isa, s);
    assert InFlight(s') == InFlight(s);
    SpinePrefix(isa, s);
    if Live(s, t.tag) {
      var d := Decoded(isa, s, t, irq);
      var mid := AfterTok(isa, st, t);
      var after := AfterDec(isa, s.f.cur, st, Some(d));
      assert AtFetch(isa, s) == ScanToks(isa, s.f.cur, mid, s.s12[1..]);
      ScanToksOk(isa, s.f.cur, mid, s.s12[1..]);
      ScanShape(isa, s.f.cur.w, Arrived(s), InFlight(s));
      assert DecodeOk(isa.decode(t.bits, s.csr), cfg.nregs);
      if !st.doomed {
        ScanToksFrame(isa, s.f.cur, mid, mid, s.s12[1..]);
      }
      if after.doomed {
        ScanToksDoomed(isa, s.f.cur, after, s.s12[1..]);
      } else {
        ScanToksFrame(isa, s.f.cur, mid, after, s.s12[1..]);
      }
    }
  }

  lemma DecodeStall(isa: Arch, s: State, irq: Option<nat>)
    requires StallOk(s) && CanDecode(isa, s, irq)
    ensures StallOk(Decode(isa, s, irq))
  {
    assert InFlight(Decode(isa, s, irq)) == InFlight(s);
  }

  lemma DecodeKeeps(isa: Arch, cfg: Config, first: Hart, s: State, irq: Option<nat>)
    requires Inv(isa, cfg, first, s) && CanDecode(isa, s, irq)
    ensures Inv(isa, cfg, first, Decode(isa, s, irq))
  {
    var s' := Decode(isa, s, irq);
    DecodeGenerations(isa, s, irq);
    DecodeOperands(isa, cfg, s, irq);
    DecodeSpine(isa, cfg, s, irq);
    DecodeStall(isa, s, irq);
    SameBackEnd(isa, cfg, first, s, s');
  }

  // ---------- rl_drop_instr ----------

  lemma DropGenerations(s: State)
    requires GenerationsOk(s) && s.s23.Some?
    ensures TagsOk(Tags(Drop(s)), s.f.cur, Busy(s))
  {
    var (t, u) := ([s.s23.value.tok.tag], TokTags(s.s12) + Fetch.UnitTags(s.f));
    assert Tags(s) == [] + (t + u);
    TagsRemove([], t, u, s.f.cur, Busy(s));
  }

  lemma DropStall(s: State)
    requires StallOk(s) && CanDrop(s)
    ensures StallOk(Drop(s))
  {
    assert InFlight(Drop(s)) == InFlight(s);
  }

  lemma DropSpine(isa: Arch, s: State)
    requires SpineOk(isa, s) && CanDrop(s)
    ensures SpineOk(isa, Drop(s))
  {
    assert InFlight(Drop(s)) == InFlight(s);
  }

  lemma DropKeeps(isa: Arch, cfg: Config, first: Hart, s: State)
    requires Inv(isa, cfg, first, s) && CanDrop(s)
    ensures Inv(isa, cfg, first, Drop(s))
  {
    SameBackEnd(isa, cfg, first, s, Drop(s));
    DropSpine(isa, s);
    DropGenerations(s);
    DropStall(s);
  }
}
