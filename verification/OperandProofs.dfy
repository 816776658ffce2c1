/** Operand freshness: what the bypass network delivers is the speculative register. */
module OperandProofs {
  import opened Types
  import opened Isa
  import opened Pipeline
  import opened Spine
  import opened Invariant
  import Scoreboard
  import Bypass

  lemma HoldersSnoc(fl: seq<Entry>, e: Entry)
    ensures Holders(fl + [e]) == Holders(fl) + [HolderOf(e)]
  {
  }

  lemma HoldersPrefix(fl: seq<Entry>)
    requires fl != []
    ensures Holders(fl)[..|fl| - 1] == Holders(fl[..|fl| - 1])
  {
  }

  /** A speculative register holds the result of its youngest writer in flight, or what arrived. */
  lemma {:induction false} ScanReg(isa: Arch, w: bool, st: Spec, fl: seq<Entry>, r: nat)
    requires 0 < r < |st.regs| && !Scan(isa, w, st, fl).doomed
    ensures var rs := Scan(isa, w, st, fl).regs; var k := Scoreboard.Youngest(Holders(fl), r);
      && |rs| == |st.regs| && k < |fl|
      && (k < 0 ==> rs[r] == st.regs[r])
      && (k >= 0 && fl[k].w == w ==> rs[r] == ResultOf(isa, fl[k]))
    decreases |fl|
  {
    Scoreboard.YoungestSpec(Holders(fl), r);
    ScanShape(isa, w, st, fl);
    if fl != [] {
      var n := |fl| - 1;
      assert fl == fl[..n] + [fl[n]];
      ScanSnoc(isa, w, st, fl[..n], fl[n]);
      HoldersPrefix(fl);
      ScanReg(isa, w, st, fl[..n], r);
    }
  }

  lemma {:induction false} HeadBaseAt(x: seq<Entry>) returns (i: nat)
    requires HeadBase(x).Some?
    ensures i < |x| && x[i] == HeadBase(x).value && x[i].out.Base?
    decreases |x|
  {
    if x[0].out.Base? {
      i := 0;
    } else {
      i := HeadBaseAt(x[1..]);
      i := i + 1;
    }
  }

  /** An instruction in flight that carries the id in the scoreboard is the youngest writer. */
  lemma IdNamesYoungest(cfg: Config, s: State, r: nat, j: nat)
    requires ShapeOk(cfg, s) && BoardOk(cfg, s) && 0 < r < cfg.nregs && j < |InFlight(s)|
    requires InFlight(s)[j].ins.rd == r && InFlight(s)[j].id == s.board.entries[r].id
    ensures Scoreboard.Youngest(Holders(InFlight(s)), r) == j
  {
    var fl := InFlight(s);
    var hs := Holders(fl);
    var k := Scoreboard.Youngest(hs, r);
    Scoreboard.YoungestSpec(hs, r);
    assert Scoreboard.EntryOk(s.board.entries[r], hs, r, cfg.ids);
    InFlightId(cfg, s, j);
    if j < k {
      Scoreboard.IdsDistinct(s.board, hs, s.issued, cfg.ids, j, k);
    }
  }

  /** A hit on either queue is a hit on the youngest writer, which is live and has its result. */
  lemma HitIsYoungest(cfg: Config, s: State, x: seq<Entry>, r: nat)
    requires ShapeOk(cfg, s) && BoardOk(cfg, s) && r < cfg.nregs && (x == s.x34 || x == s.x45)
    requires Bypass.Hit(Request(s, r), Offer(x))
    ensures var fl := InFlight(s); var k := Scoreboard.Youngest(Holders(fl), r);
      0 <= k < |fl| && fl[k].w == s.f.cur.w && fl[k].out == Base(Offer(x).data)
  {
    var i := HeadBaseAt(x);
    var j := if x == s.x45 then i else |s.x45| + i;
    assert InFlight(s)[j] == x[i];
    IdNamesYoungest(cfg, s, r, j);
  }

  lemma HitIsFresh(isa: Arch, cfg: Config, s: State, x: seq<Entry>, r: nat)
    requires ShapeOk(cfg, s) && BoardOk(cfg, s) && r < cfg.nregs && !AtIssue(isa, s).doomed
    requires x == s.x34 || x == s.x45
    requires Bypass.Hit(Request(s, r), Offer(x))
    ensures Known(AtIssue(isa, s).regs, r, Offer(x).data)
  {
    HitIsYoungest(cfg, s, x, r);
    ScanReg(isa, s.f.cur.w, Arrived(s), InFlight(s), r);
  }

  /** With no writer in flight the register file is right. */
  lemma UnlockedIsArchitectural(isa: Arch, cfg: Config, s: State, r: nat)
    requires ShapeOk(cfg, s) && BoardOk(cfg, s) && r < cfg.nregs && !AtIssue(isa, s).doomed
    requires !s.board.entries[r].lock
    ensures Known(AtIssue(isa, s).regs, r, s.regs[r])
  {
    var hs := Holders(InFlight(s));
    assert Scoreboard.EntryOk(s.board.entries[r], hs, r, cfg.ids);
    ScanShape(isa, s.f.cur.w, Arrived(s), InFlight(s));
    if r > 0 {
      ScanReg(isa, s.f.cur.w, Arrived(s), InFlight(s), r);
    }
  }

  /** Whenever an operand is available, the value used is the result of the youngest older writer in
      flight, or the architectural register if there is none. */
  lemma OperandIsFresh(isa: Arch, cfg: Config, s: State, o: Operand, r: nat)
    requires ShapeOk(cfg, s) && BoardOk(cfg, s) && r < cfg.nregs && !AtIssue(isa, s).doomed
    requires OperandOk(s, o, r, IntegerRF) && Available(s, o)
    ensures Known(AtIssue(isa, s).regs, r, Value(s, o))
  {
    if Bypass.Hit(Request(s, r), Offer(s.x34)) {
      HitIsFresh(isa, cfg, s, s.x34, r);
    } else if Bypass.Hit(Request(s, r), Offer(s.x45)) {
      HitIsFresh(isa, cfg, s, s.x45, r);
    } else {
      UnlockedIsArchitectural(isa, cfg, s, r);
    }
  }

  /** A constant operand names x0 and is never replaced by a bypassed value. */
  lemma ConstantIsKept(cfg: Config, s: State, o: Operand)
    requires ShapeOk(cfg, s) && BoardOk(cfg, s) && o.addr == 0
    ensures Available(s, o) && Value(s, o) == o.data
  {
    assert Scoreboard.EntryOk(s.board.entries[0], Holders(InFlight(s)), 0, cfg.ids);
  }

  /** An operand that is not available has a writer in flight, and what would be delivered is the old
      content of the register file. */
  lemma UnavailableIsStale(cfg: Config, s: State, o: Operand, r: nat)
    requires ShapeOk(cfg, s) && BoardOk(cfg, s) && r < cfg.nregs
    requires OperandOk(s, o, r, IntegerRF) && !Available(s, o)
    ensures Value(s, o) == s.regs[r]
    ensures exists k :: 0 <= k < |InFlight(s)| && InFlight(s)[k].ins.rd == r
  {
    var hs := Holders(InFlight(s));
    assert Scoreboard.EntryOk(s.board.entries[r], hs, r, cfg.ids);
    var k := Scoreboard.Youngest(hs, r);
    Scoreboard.YoungestSpec(hs, r);
    assert InFlight(s)[k].ins.rd == r;
  }

  /** v is the result of the youngest instruction in flight that writes r, which is live; or the content of the
      register file when there is none. */
  predicate Delivered(s: State, r: nat, v: Word) {
    var fl := InFlight(s);
    var k := Scoreboard.Youngest(Holders(fl), r);
    if r == 0 then v == 0
    else if k < 0 then v == Read(s.regs, r)
    else k < |fl| && fl[k].w == s.f.cur.w && fl[k].out == Base(v)
  }

  lemma DeliversYoungest(cfg: Config, s: State, o: Operand, r: nat)
    requires ShapeOk(cfg, s) && BoardOk(cfg, s) && r < cfg.nregs
    requires OperandOk(s, o, r, IntegerRF) && Available(s, o)
    ensures Delivered(s, r, Value(s, o))
  {
    if Bypass.Hit(Request(s, r), Offer(s.x34)) {
      HitIsYoungest(cfg, s, s.x34, r);
    } else if Bypass.Hit(Request(s, r), Offer(s.x45)) {
      HitIsYoungest(cfg, s, s.x45, r);
    } else {
      assert Scoreboard.EntryOk(s.board.entries[r], Holders(InFlight(s)), r, cfg.ids);
    }
  }

  // ---------- the operand nobody waits for ----------

  lemma {:induction false} OrderedPrefix(fl: seq<Entry>, w: bool, n: nat)
    requires Ordered(fl, w) && n <= |fl|
    ensures Ordered(fl[..n], w)
    ensures AllEpoch(fl, w) ==> AllEpoch(fl[..n], w)
    decreases |fl|
  {
    if n > 0 {
      assert fl[..n][1..] == fl[1..][..n - 1];
      if |fl| > 1 {
        PopOrdered(fl, w);
        OrderedPrefix(fl[1..], w, n - 1);
      }
    }
  }

  lemma PopOrdered(fl: seq<Entry>, w: bool)
    requires Ordered(fl, w) && |fl| > 1
    ensures Ordered(fl[1..], w) && (AllEpoch(fl, w) ==> AllEpoch(fl[1..], w))
  {
    if fl[0].w == w {
      assert AllEpoch(fl[1..], w) && fl[1..][0].w == w;
    }
  }

  /** In front of a stale instruction everything is stale. */
  lemma {:induction false} StaleBefore(fl: seq<Entry>, w: bool)
    requires Ordered(fl, w) && fl != [] && fl[|fl| - 1].w != w
    ensures AllEpoch(fl, !w)
    decreases |fl|
  {
    if fl[0].w == w {
      AllEpochAt(fl, w, |fl| - 1);
    } else if |fl| > 1 {
      StaleBefore(fl[1..], w);
    }
  }

  lemma AfterKeepsOther(isa: Arch, w: bool, st: Spec, e: Entry, r: nat)
    requires r < |st.regs| && e.ins.rd != r && !After(isa, w, st, e).doomed
    ensures !st.doomed && |After(isa, w, st, e).regs| == |st.regs| && After(isa, w, st, e).regs[r] == st.regs[r]
  {
  }

  lemma YoungestBefore(fl: seq<Entry>, r: nat)
    requires fl != [] && fl[|fl| - 1].ins.rd != r
    ensures Scoreboard.Youngest(Holders(fl), r) == Scoreboard.Youngest(Holders(fl[..|fl| - 1]), r)
  {
    HoldersPrefix(fl);
  }

  /** A register whose youngest writer is stale has no live writer: it holds what arrived. */
  lemma {:induction false} StaleWriter(isa: Arch, w: bool, st: Spec, fl: seq<Entry>, r: nat)
    requires 0 < r < |st.regs| && Ordered(fl, w) && !Scan(isa, w, st, fl).doomed
    requires var k := Scoreboard.Youngest(Holders(fl), r); 0 <= k < |fl| && fl[k].w != w
    ensures |Scan(isa, w, st, fl).regs| == |st.regs| && Scan(isa, w, st, fl).regs[r] == st.regs[r]
    decreases |fl|
  {
    var n := |fl| - 1;
    if fl[n].w != w {
      StaleBefore(fl, w);
      ScanStale(isa, w, st, fl);
    } else {
      var before := Scan(isa, w, st, fl[..n]);
      assert fl == fl[..n] + [fl[n]];
      ScanSnoc(isa, w, st, fl[..n], fl[n]);
      ScanShape(isa, w, st, fl[..n]);
      AfterKeepsOther(isa, w, before, fl[n], r);
      YoungestBefore(fl, r);
      OrderedPrefix(fl, w, n);
      StaleWriter(isa, w, st, fl[..n], r);
    }
  }

  /** What the third operand must meet, although its issue rule does not ask for it: it is available, or
      the instruction it would wait for is stale, or is settled to write the old value again. */
  predicate OpdMeets(isa: Arch, s: State, r: nat) {
    Available(s, s.opd) ||
    var k := Scoreboard.Youngest(Holders(InFlight(s)), r);
    0 <= k < |InFlight(s)| && r < |s.regs|
      && (InFlight(s)[k].w != s.f.cur.w || ResultOf(isa, InFlight(s)[k]) == Some(s.regs[r]))
  }

  /** The third operand is right exactly when that condition is met. */
  lemma OpdExact(isa: Arch, cfg: Config, s: State, r: nat)
    requires ShapeOk(cfg, s) && BoardOk(cfg, s) && OrderOk(s) && r < cfg.nregs && !AtIssue(isa, s).doomed
    requires OperandOk(s, s.opd, r, IntegerRF)
    ensures Known(AtIssue(isa, s).regs, r, Value(s, s.opd)) <==> OpdMeets(isa, s, r)
  {
    if Available(s, s.opd) {
      OperandIsFresh(isa, cfg, s, s.opd, r);
    } else {
      var fl := InFlight(s);
      var k := Scoreboard.Youngest(Holders(fl), r);
      assert Scoreboard.EntryOk(s.board.entries[r], Holders(fl), r, cfg.ids);
      ScanReg(isa, s.f.cur.w, Arrived(s), fl, r);
      if fl[k].w != s.f.cur.w {
        StaleWriter(isa, s.f.cur.w, Arrived(s), fl, r);
      }
    }
  }
}
