/** The invariant of the pipeline. */
module Invariant {
  import opened Types
  import opened Isa
  import opened Epochs
  import opened Pipeline
  import opened Spine
  import Fetch
  import Scoreboard

  function HolderOf(e: Entry): Scoreboard.Holder { Scoreboard.Holder(e.ins.rd, e.serial) }

  /** The instructions in flight, as the scoreboard sees them. */
  function Holders(fl: seq<Entry>): (hs: seq<Scoreboard.Holder>)
    ensures |hs| == |fl|
    ensures forall i :: 0 <= i < |fl| ==> hs[i] == HolderOf(fl[i])
  {
    seq(|fl|, i requires 0 <= i < |fl| => HolderOf(fl[i]))
  }

  predicate IdOk(cfg: Config, e: Entry) { cfg.ids > 0 && e.id == Scoreboard.Wrap(e.serial, cfg.ids) }

  predicate InX34(cfg: Config, e: Entry) {
    && DecodeOk(e.ins, cfg.nregs) && IdOk(cfg, e)
    && !e.out.MemOp? && (e.out.Memory? ==> e.ins.itype.MEMORY?)
    && (e.out.System? <==> e.ins.itype.SYSTEM_INSTR?)
  }

  predicate InX45(cfg: Config, e: Entry) {
    && DecodeOk(e.ins, cfg.nregs) && IdOk(cfg, e)
    && (e.out.MemOp? ==> MemOpOk(e)) && !e.out.Memory? && !e.out.MulDiv? && !e.out.Psimd?
    && (e.out.System? <==> e.ins.itype.SYSTEM_INSTR?)
  }

  predicate AllX34(cfg: Config, x: seq<Entry>)
    decreases |x|
  {
    x == [] || (InX34(cfg, x[0]) && AllX34(cfg, x[1..]))
  }

  predicate AllX45(cfg: Config, x: seq<Entry>)
    decreases |x|
  {
    x == [] || (InX45(cfg, x[0]) && AllX45(cfg, x[1..]))
  }

  /** Shapes and ranges. */
  predicate ShapeOk(cfg: Config, s: State) {
    && |s.regs| == cfg.nregs > 0 && |s.board.entries| == cfg.nregs && s.regs[0] == 0
    && |s.x34| <= cfg.s34 && |s.x45| <= cfg.s45
    && (s.s23.Some? ==> DecodeOk(s.s23.value.ins, cfg.nregs))
    && AllX34(cfg, s.x34) && AllX45(cfg, s.x45)
  }

  ghost predicate BoardOk(cfg: Config, s: State) {
    Scoreboard.Inv(s.board, Holders(InFlight(s)), s.issued, cfg.ids)
  }

  /** Between issue and write-back, stale instructions are older than live ones. */
  predicate Ordered(fl: seq<Entry>, w: bool)
    decreases |fl|
  {
    fl == [] || if fl[0].w == w then AllEpoch(fl, w) else Ordered(fl[1..], w)
  }

  predicate OrderOk(s: State) { Ordered(InFlight(s), s.f.cur.w) }

  /** A live instruction is between issue and write-back: then the youngest one is. */
  predicate Busy(s: State) {
    var fl := InFlight(s);
    fl != [] && fl[|fl| - 1].w == s.f.cur.w
  }

  function DecTags(d: Option<Dec>): seq<Tag> { if d.Some? then [d.value.tok.tag] else [] }

  /** The tags of everything between fetch and execute, oldest first. */
  function Tags(s: State): seq<Tag> { DecTags(s.s23) + (TokTags(s.s12) + Fetch.UnitTags(s.f)) }

  predicate GenerationsOk(s: State) { TagsOk(Tags(s), s.f.cur, Busy(s)) }

  /** An operand register shows the architectural register, or its constant. */
  predicate OperandOk(s: State, o: Operand, r: nat, src: Src2) {
    && o.addr == r
    && (if src.Constant? then o.data == src.value && !o.isReg else o.isReg && o.data == Read(s.regs, r))
  }

  predicate OperandsOk(s: State) {
    s.s23.Some? ==>
      var ins := s.s23.value.ins;
      && OperandOk(s, s.op1, ins.rs1, IntegerRF)
      && OperandOk(s, s.op2, ins.rs2, ins.src2)
      && OperandOk(s, s.opd, ins.rd, IntegerRF)
  }

  /** The log is what the one-instruction-at-a-time machine records, and that machine is now where the
      register file and the CSRs are. */
  predicate LogOk(isa: Arch, first: Hart, s: State) {
    Records(isa, first, s.log) && RunTo(isa, first, s.log) == Hart(s.apc, s.regs, s.csr)
  }

  predicate LiveTrap(e: Entry, w: bool) { e.w == w && e.ins.itype.TRAP? }

  /** Only the youngest instruction in flight can be a live trap. */
  predicate TrapsLast(fl: seq<Entry>, w: bool)
    decreases |fl|
  {
    |fl| <= 1 || (!LiveTrap(fl[0], w) && TrapsLast(fl[1..], w))
  }

  predicate DecLive(s: State) { s.s23.Some? && Live(s, s.s23.value.tok.tag) }

  /** Decode stalls exactly while the trap it has sent is on its way, and that trap is the youngest
      live instruction behind decode. */
  predicate StallOk(s: State) {
    var fl := InFlight(s);
    && (s.stall ==>
          if s.s23.Some? then DecLive(s) && s.s23.value.ins.itype.TRAP?
          else fl != [] && LiveTrap(fl[|fl| - 1], s.f.cur.w) && fl[|fl| - 1].out.Trap?)
    && (DecLive(s) && s.s23.value.ins.itype.TRAP? ==> s.stall)
    && TrapsLast(fl, s.f.cur.w)
    && (fl != [] && LiveTrap(fl[|fl| - 1], s.f.cur.w) ==> s.stall && !DecLive(s))
  }

  ghost predicate Inv(isa: Arch, cfg: Config, first: Hart, s: State) {
    && ConfigOk(cfg) && WellFormed(isa, cfg.nregs)
    && ShapeOk(cfg, s) && BoardOk(cfg, s) && OrderOk(s) && GenerationsOk(s)
    && Fetch.Inv(isa, s.f) && OperandsOk(s) && SpineOk(isa, s) && LogOk(isa, first, s) && StallOk(s)
  }

  lemma InitEstablishes(isa: Arch, cfg: Config, s: State, resetpc: Pc)
    requires ConfigOk(cfg) && WellFormed(isa, cfg.nregs) && Init(cfg, s, resetpc)
    ensures Inv(isa, cfg, Hart(resetpc, s.regs, s.csr), s)
  {
    assert Tags(s) == [] && InFlight(s) == [];
  }

  // ---------- about the recursive predicates ----------

  lemma {:induction false} AllX34Snoc(cfg: Config, x: seq<Entry>, e: Entry)
    requires AllX34(cfg, x) && InX34(cfg, e)
    ensures AllX34(cfg, x + [e])
    decreases |x|
  {
    if x == [] {
      assert x + [e] == [e];
    } else {
      assert (x + [e])[1..] == x[1..] + [e];
      AllX34Snoc(cfg, x[1..], e);
    }
  }

  lemma {:induction false} AllX45Snoc(cfg: Config, x: seq<Entry>, e: Entry)
    requires AllX45(cfg, x) && InX45(cfg, e)
    ensures AllX45(cfg, x + [e])
    decreases |x|
  {
    if x == [] {
      assert x + [e] == [e];
    } else {
      assert (x + [e])[1..] == x[1..] + [e];
      AllX45Snoc(cfg, x[1..], e);
    }
  }

  lemma {:induction false} X34At(cfg: Config, x: seq<Entry>, i: nat)
    requires AllX34(cfg, x) && i < |x|
    ensures InX34(cfg, x[i])
    decreases |x|
  {
    if i > 0 {
      X34At(cfg, x[1..], i - 1);
    }
  }

  lemma {:induction false} X45At(cfg: Config, x: seq<Entry>, i: nat)
    requires AllX45(cfg, x) && i < |x|
    ensures InX45(cfg, x[i])
    decreases |x|
  {
    if i > 0 {
      X45At(cfg, x[1..], i - 1);
    }
  }

  /** The ids carried by the instructions in flight are those of the scoreboard. */
  lemma InFlightId(cfg: Config, s: State, j: nat)
    requires ShapeOk(cfg, s) && j < |InFlight(s)|
    ensures IdOk(cfg, InFlight(s)[j])
  {
    if j < |s.x45| {
      X45At(cfg, s.x45, j);
    } else {
      X34At(cfg, s.x34, j - |s.x45|);
    }
  }

  lemma {:induction false} AllEpochAt(fl: seq<Entry>, w: bool, i: nat)
    requires AllEpoch(fl, w) && i < |fl|
    ensures fl[i].w == w
    decreases |fl|
  {
    if i > 0 {
      AllEpochAt(fl[1..], w, i - 1);
    }
  }

  lemma {:induction false} AllEpochSnoc(fl: seq<Entry>, w: bool, e: Entry)
    requires AllEpoch(fl, w) && e.w == w
    ensures AllEpoch(fl + [e], w)
    decreases |fl|
  {
    if fl == [] {
      assert fl + [e] == [e];
    } else {
      assert (fl + [e])[1..] == fl[1..] + [e];
      AllEpochSnoc(fl[1..], w, e);
    }
  }

  lemma {:induction false} OrderedSnoc(fl: seq<Entry>, w: bool, e: Entry)
    requires Ordered(fl, w) && e.w == w
    ensures Ordered(fl + [e], w)
    decreases |fl|
  {
    if fl == [] {
      assert fl + [e] == [e];
    } else if fl[0].w == w {
      AllEpochSnoc(fl, w, e);
    } else {
      assert (fl + [e])[1..] == fl[1..] + [e];
      OrderedSnoc(fl[1..], w, e);
    }
  }

  /** After a flush from write-back all that was live is stale: nothing is live, and nothing is out of
      order. */
  lemma {:induction false} AllStale(fl: seq<Entry>, w: bool)
    requires AllEpoch(fl, !w)
    ensures Ordered(fl, w) && TrapsLast(fl, w)
    ensures fl != [] ==> fl[|fl| - 1].w != w
    decreases |fl|
  {
    if fl != [] {
      AllStale(fl[1..], w);
    }
  }

  /** Behind a live head everything in flight is live. */
  lemma LiveHead(s: State)
    requires OrderOk(s) && s.x45 != [] && s.x45[0].w == s.f.cur.w
    ensures AllEpoch(InFlight(s), s.f.cur.w) && Busy(s)
  {
    assert InFlight(s)[0] == s.x45[0];
    AllEpochAt(InFlight(s), s.f.cur.w, |InFlight(s)| - 1);
  }

  /** The oldest instruction leaves. */
  lemma PopOrder(fl: seq<Entry>, w: bool)
    requires Ordered(fl, w) && TrapsLast(fl, w) && fl != []
    ensures Ordered(fl[1..], w) && TrapsLast(fl[1..], w)
  {
    if fl[0].w == w && |fl| > 1 {
      assert AllEpoch(fl[1..], w);
      assert fl[1..][0].w == w;
    }
  }

  /** Replacing the payload of an instruction changes no epoch and no type. */
  lemma {:induction false} ReplaceOrder(a: seq<Entry>, e: Entry, e': Entry, c: seq<Entry>, w: bool)
    requires e.w == e'.w && e.ins == e'.ins
    ensures AllEpoch(a + ([e] + c), w) ==> AllEpoch(a + ([e'] + c), w)
    ensures Ordered(a + ([e] + c), w) ==> Ordered(a + ([e'] + c), w)
    ensures TrapsLast(a + ([e] + c), w) ==> TrapsLast(a + ([e'] + c), w)
    decreases |a|
  {
    if a == [] {
      assert a + ([e] + c) == [e] + c && a + ([e'] + c) == [e'] + c;
      assert ([e] + c)[1..] == c && ([e'] + c)[1..] == c;
    } else {
      assert (a + ([e] + c))[1..] == a[1..] + ([e] + c);
      assert (a + ([e'] + c))[1..] == a[1..] + ([e'] + c);
      ReplaceOrder(a[1..], e, e', c, w);
    }
  }

  lemma {:induction false} TrapsLastSnoc(fl: seq<Entry>, w: bool, e: Entry)
    requires TrapsLast(fl, w) && (fl != [] ==> !LiveTrap(fl[|fl| - 1], w))
    ensures TrapsLast(fl + [e], w)
    decreases |fl|
  {
    if |fl| > 1 {
      assert (fl + [e])[1..] == fl[1..] + [e];
      TrapsLastSnoc(fl[1..], w, e);
    } else if |fl| == 1 {
      assert (fl + [e])[1..] == [e];
    }
  }
}
