/** The spine of the pipeline: everything on the current path, from the oldest instruction in flight to the
    next one to leave stage 1, read as a speculative run of the one-instruction-at-a-time machine. */
module Spine {
  import opened Types
  import opened Isa
  import opened Epochs
  import Fetch
  import opened Pipeline

  /** A register file in which the results that are not settled yet are unknown. */
  type Regs = seq<Option<Word>>

  /** The speculative state.  Once an instruction is known to flush (`doomed`), nothing is claimed about
      what follows it.  The CSRs are unknown after a CSR access that has not been performed yet. */
  datatype Spec = Spec(ok: bool, doomed: bool, pc: Pc, regs: Regs, csr: Option<Csr>)

  function Lift(regs: seq<Word>): Regs { seq(|regs|, i requires 0 <= i < |regs| => Some(regs[i])) }

  predicate Known(rs: Regs, r: nat, v: Word) { r < |rs| && rs[r] == Some(v) }

  function Put(rs: Regs, r: nat, v: Option<Word>): Regs { if 0 < r < |rs| then rs[r := v] else rs }

  /** The value an instruction in flight is going to write, as far as it is settled: the answers of the data
      memory and of IO are not, and neither is a CSR read. */
  function ResultOf(isa: Arch, e: Entry): Option<Word> {
    match e.out
    case Base(v) => Some(v)
    case MulDiv => Some(isa.muldiv(e.ins, e.op1, e.op2))
    case Psimd => Some(isa.psimd(e.ins, e.op1, e.op2, e.opd))
    case MemOp(io, word) => if !io && e.ins.access.Atomic? then Some(word) else None
    case _ => None
  }

  /** The instruction certainly flushes when it reaches write-back. */
  predicate Flushes(e: Entry) { e.out.Trap? || IsXRet(e.ins) }

  /** Decoded from the bits at pc, under the CSRs of its turn. */
  predicate DecOk(isa: Arch, csr: Option<Csr>, pc: Pc, ins: Instr, how: How, tval: Word) {
    match how
    case Rerun => ins.itype.TRAP?
    case Interrupted(c) =>
      && csr.Some? && isa.interruptible(csr.value, c)
      && ins == AsTrap(DecodeAt(isa, pc, csr.value), c) && tval == isa.tval(FetchBits(isa, pc), pc, c)
    case Normal =>
      && csr.Some? && ins == DecodeAt(isa, pc, csr.value)
      && tval == isa.tval(FetchBits(isa, pc), pc, ins.funct)
  }

  /** The operands are those of the speculative register file. */
  predicate OpsOk(rs: Regs, e: Entry) {
    && (NeedsOp1(e.ins) ==> Known(rs, e.ins.rs1, e.op1))
    && (NeedsOp2(e.ins) && !IsFence(e.ins) ==>
          if e.ins.src2.Constant? then e.op2 == e.ins.src2.value else Known(rs, e.ins.rs2, e.op2))
    && (NeedsOpd(e.ins) ==> Known(rs, e.ins.rd, e.opd))
  }

  /** The payload is what the architecture demands for these operands. */
  predicate OutOk(isa: Arch, e: Entry) {
    match e.ins.itype
    case TRAP => e.out.Trap? && e.out.cause == e.ins.funct && e.out.rerun == e.how.Rerun?
    case ALU => e.out == Base(isa.alu(e.ins, e.pc, e.op1, e.op2))
    case BRANCH => e.out.Base?
    case JAL => e.out == Base(Following(isa, e.pc))
    case JALR => e.out == Base(Following(isa, e.pc))
    case MULDIV => e.out.MulDiv? || e.out == Base(isa.muldiv(e.ins, e.op1, e.op2))
    case PSIMD => e.out.Psimd? || e.out == Base(isa.psimd(e.ins, e.op1, e.op2, e.opd))
    case SYSTEM_INSTR => e.out.System?
    case MEMORY =>
      var addr := EffectiveAddress(e.ins, e.op1);
      if Misaligned(e.ins, addr) then e.out == Trap(MisalignedCause(e.ins), addr, false) && e.heard.None?
      else HeardOk(e)
  }

  /** The payload of a memory operation is what the memory has answered. */
  predicate HeardOk(e: Entry) {
    match e.out
    case Memory => e.heard.None?
    case Base(v) => e.heard == Some(MemData(v))
    case Trap(c, a, rerun) => !rerun && e.heard == Some(MemFault(c, a))
    case MemOp(io, word) =>
      if io then e.heard.None?
      else if e.ins.access.Atomic? then e.heard == Some(MemData(word))
      else e.ins.access.Store? && e.heard == Some(MemDone)
    case _ => false
  }

  predicate MemOpOk(e: Entry) {
    && e.ins.itype.MEMORY? && e.out.MemOp?
    && (!e.out.io ==> e.ins.access.Store? || e.ins.access.Atomic?)
  }

  function TvalOf(e: Entry): Word { if e.out.Trap? then e.out.tval else 0 }

  /** The entry is the right next instruction of the speculative run. */
  predicate EntryOk(isa: Arch, st: Spec, e: Entry) {
    && e.pc == st.pc
    && DecOk(isa, st.csr, e.pc, e.ins, e.how, if e.ins.itype.TRAP? then TvalOf(e) else isa.tval(FetchBits(isa, e.pc),
          e.pc, e.ins.funct))
    && OpsOk(st.regs, e) && OutOk(isa, e) && (!e.ins.itype.MEMORY? ==> e.heard.None?)
    && e.npc == NextPc(isa, e.ins, e.pc, e.op1, e.op2)
  }

  /** The speculative state after one instruction in flight; stale ones are invisible. */
  function After(isa: Arch, w: bool, st: Spec, e: Entry): Spec {
    if e.w != w || st.doomed then st
    else Spec(st.ok && EntryOk(isa, st, e), Flushes(e), e.npc, Put(st.regs, e.ins.rd, ResultOf(isa, e)),
              if e.out.System? then None else st.csr)
  }

  function Scan(isa: Arch, w: bool, st: Spec, fl: seq<Entry>): Spec
    decreases |fl|
  {
    if fl == [] then st else Scan(isa, w, After(isa, w, st, fl[0]), fl[1..])
  }

  /** The decoded instruction in front of stage 3. */
  ghost function AfterDec(isa: Arch, cur: Tag, st: Spec, d: Option<Dec>): Spec {
    if d.None? || !SameEpochs(d.value.tok.tag, cur) || st.doomed then st
    else
      var ins := d.value.ins;
      Spec(st.ok && d.value.tok.pc == st.pc && Fetch.TokOk(isa, d.value.tok)
             && DecOk(isa, st.csr, st.pc, ins, d.value.how, d.value.tval),
           ins.itype.TRAP? || IsXRet(ins), Fetch.PredictedNext(isa, d.value.tok), st.regs,
           if ins.itype.SYSTEM_INSTR? then None else st.csr)
  }

  /** The tokens between stages 1 and 2. */
  ghost function ScanToks(isa: Arch, cur: Tag, st: Spec, ts: seq<Fetch.Tok>): Spec
    decreases |ts|
  {
    if ts == [] then st
    else if !SameEpochs(ts[0].tag, cur) then ScanToks(isa, cur, st, ts[1..])
    else ScanToks(isa, cur, AfterTok(isa, st, ts[0]), ts[1..])
  }

  ghost function AfterTok(isa: Arch, st: Spec, t: Fetch.Tok): Spec {
    if st.doomed then st
    else st.(ok := st.ok && t.pc == st.pc && Fetch.TokOk(isa, t), pc := Fetch.PredictedNext(isa, t))
  }

  /** All instructions in flight, oldest first. */
  function InFlight(s: State): seq<Entry> { s.x45 + s.x34 }

  function Arrived(s: State): Spec { Spec(true, false, s.apc, Lift(s.regs), Some(s.csr)) }

  /** The speculative state the next instruction to issue meets. */
  function AtIssue(isa: Arch, s: State): Spec { Scan(isa, s.f.cur.w, Arrived(s), InFlight(s)) }

  ghost function AtDecode(isa: Arch, s: State): Spec { AfterDec(isa, s.f.cur, AtIssue(isa, s), s.s23) }

  ghost function AtFetch(isa: Arch, s: State): Spec { ScanToks(isa, s.f.cur, AtDecode(isa, s), s.s12) }

  /** Every instruction on the path is right, the path ends where the fetch goes on, and a pending CSR
      access has the next decode marked for a re-run. */
  ghost predicate SpineOk(isa: Arch, s: State) {
    var st := AtFetch(isa, s);
    && st.ok
    && (st.doomed || (st.pc == Fetch.Pending(s.f) && (st.csr.None? ==> s.rerun)))
  }

  // ---------- an order on speculative states: st' knows at least as much as st ----------

  predicate RegsLe(a: Regs, b: Regs) {
    |a| == |b| && forall i :: 0 <= i < |a| ==> a[i].None? || a[i] == b[i]
  }

  predicate Le(a: Spec, b: Spec) {
    && (a.ok ==> b.ok)
    && (b.doomed || (!a.doomed && a.pc == b.pc && RegsLe(a.regs, b.regs) && (a.csr.None? || a.csr == b.csr)))
  }

  lemma AfterMonotone(isa: Arch, w: bool, a: Spec, b: Spec, e: Entry)
    requires Le(a, b)
    ensures Le(After(isa, w, a, e), After(isa, w, b, e))
  {
  }

  lemma {:induction false} ScanMonotone(isa: Arch, w: bool, a: Spec, b: Spec, fl: seq<Entry>)
    requires Le(a, b)
    ensures Le(Scan(isa, w, a, fl), Scan(isa, w, b, fl))
    decreases |fl|
  {
    if fl != [] {
      AfterMonotone(isa, w, a, b, fl[0]);
      ScanMonotone(isa, w, After(isa, w, a, fl[0]), After(isa, w, b, fl[0]), fl[1..]);
    }
  }

  lemma AfterDecMonotone(isa: Arch, cur: Tag, a: Spec, b: Spec, d: Option<Dec>)
    requires Le(a, b)
    ensures Le(AfterDec(isa, cur, a, d), AfterDec(isa, cur, b, d))
  {
  }

  lemma {:induction false} ScanToksMonotone(isa: Arch, cur: Tag, a: Spec, b: Spec, ts: seq<Fetch.Tok>)
    requires Le(a, b)
    ensures Le(ScanToks(isa, cur, a, ts), ScanToks(isa, cur, b, ts))
    decreases |ts|
  {
    if ts != [] {
      if SameEpochs(ts[0].tag, cur) {
        ScanToksMonotone(isa, cur, AfterTok(isa, a, ts[0]), AfterTok(isa, b, ts[0]), ts[1..]);
      } else {
        ScanToksMonotone(isa, cur, a, b, ts[1..]);
      }
    }
  }

  /** More knowledge behind keeps the whole spine right. */
  lemma RestMonotone(isa: Arch, cur: Tag, a: Spec, b: Spec, d: Option<Dec>, ts: seq<Fetch.Tok>)
    requires Le(a, b)
    ensures Le(ScanToks(isa, cur, AfterDec(isa, cur, a, d), ts), ScanToks(isa, cur, AfterDec(isa, cur, b, d), ts))
  {
    AfterDecMonotone(isa, cur, a, b, d);
    ScanToksMonotone(isa, cur, AfterDec(isa, cur, a, d), AfterDec(isa, cur, b, d), ts);
  }

  // ---------- appending ----------

  lemma {:induction false} ScanSnoc(isa: Arch, w: bool, st: Spec, fl: seq<Entry>, e: Entry)
    ensures Scan(isa, w, st, fl + [e]) == After(isa, w, Scan(isa, w, st, fl), e)
    decreases |fl|
  {
    if fl == [] {
      assert fl + [e] == [e];
      assert [e][1..] == [];
    } else {
      assert (fl + [e])[1..] == fl[1..] + [e];
      ScanSnoc(isa, w, After(isa, w, st, fl[0]), fl[1..], e);
    }
  }

  lemma {:induction false} ScanConcat(isa: Arch, w: bool, st: Spec, a: seq<Entry>, b: seq<Entry>)
    ensures Scan(isa, w, st, a + b) == Scan(isa, w, Scan(isa, w, st, a), b)
    decreases |a|
  {
    if a == [] {
      assert a + b == b;
    } else {
      assert (a + b)[1..] == a[1..] + b;
      ScanConcat(isa, w, After(isa, w, st, a[0]), a[1..], b);
    }
  }

  lemma {:induction false} ScanToksSnoc(isa: Arch, cur: Tag, st: Spec, ts: seq<Fetch.Tok>, t: Fetch.Tok)
    requires SameEpochs(t.tag, cur)
    ensures ScanToks(isa, cur, st, ts + [t]) == AfterTok(isa, ScanToks(isa, cur, st, ts), t)
    decreases |ts|
  {
    if ts == [] {
      assert ts + [t] == [t];
      assert [t][1..] == [];
    } else {
      assert (ts + [t])[1..] == ts[1..] + [t];
      ScanToksSnoc(isa, cur, if SameEpochs(ts[0].tag, cur) then AfterTok(isa, st, ts[0]) else st, ts[1..], t);
    }
  }

  /** What the tokens do depends on the pc alone; registers and CSRs pass through. */
  lemma {:induction false} ScanToksFrame(isa: Arch, cur: Tag, a: Spec, b: Spec, ts: seq<Fetch.Tok>)
    requires !a.doomed && !b.doomed && a.pc == b.pc && (a.ok ==> b.ok)
    ensures var (x, y) := (ScanToks(isa, cur, a, ts), ScanToks(isa, cur, b, ts));
      !x.doomed && !y.doomed && x.pc == y.pc && (x.ok ==> y.ok) && x.csr == a.csr && y.csr == b.csr
    decreases |ts|
  {
    if ts != [] {
      if SameEpochs(ts[0].tag, cur) {
        ScanToksFrame(isa, cur, AfterTok(isa, a, ts[0]), AfterTok(isa, b, ts[0]), ts[1..]);
      } else {
        ScanToksFrame(isa, cur, a, b, ts[1..]);
      }
    }
  }

  // ---------- failure and doom persist ----------

  lemma {:induction false} ScanToksDoomed(isa: Arch, cur: Tag, st: Spec, ts: seq<Fetch.Tok>)
    requires st.doomed
    ensures ScanToks(isa, cur, st, ts) == st
    decreases |ts|
  {
    if ts != [] {
      ScanToksDoomed(isa, cur, st, ts[1..]);
    }
  }

  lemma {:induction false} ScanOk(isa: Arch, w: bool, st: Spec, fl: seq<Entry>)
    requires Scan(isa, w, st, fl).ok
    ensures st.ok
    decreases |fl|
  {
    if fl != [] {
      ScanOk(isa, w, After(isa, w, st, fl[0]), fl[1..]);
    }
  }

  lemma {:induction false} ScanToksOk(isa: Arch, cur: Tag, st: Spec, ts: seq<Fetch.Tok>)
    requires ScanToks(isa, cur, st, ts).ok
    ensures st.ok
    decreases |ts|
  {
    if ts != [] {
      ScanToksOk(isa, cur, if SameEpochs(ts[0].tag, cur) then AfterTok(isa, st, ts[0]) else st, ts[1..]);
    }
  }

  /** A right spine is right up to every stage. */
  lemma SpinePrefix(isa: Arch, s: State)
    requires SpineOk(isa, s)
    ensures AtDecode(isa, s).ok && AtIssue(isa, s).ok
    ensures AtIssue(isa, s).doomed ==> AtDecode(isa, s).doomed
    ensures AtDecode(isa, s).doomed <==> AtFetch(isa, s).doomed
  {
    ScanToksOk(isa, s.f.cur, AtDecode(isa, s), s.s12);
    if AtDecode(isa, s).doomed {
      ScanToksDoomed(isa, s.f.cur, AtDecode(isa, s), s.s12);
    } else {
      ScanToksFrame(isa, s.f.cur, AtDecode(isa, s), AtDecode(isa, s), s.s12);
    }
  }

  // ---------- stale instructions are invisible ----------

  /** All instructions carry the write-back epoch w. */
  predicate AllEpoch(fl: seq<Entry>, w: bool)
    decreases |fl|
  {
    fl == [] || (fl[0].w == w && AllEpoch(fl[1..], w))
  }

  lemma {:induction false} ScanStale(isa: Arch, w: bool, st: Spec, fl: seq<Entry>)
    requires AllEpoch(fl, !w)
    ensures Scan(isa, w, st, fl) == st
    decreases |fl|
  {
    if fl != [] {
      ScanStale(isa, w, st, fl[1..]);
    }
  }

  /** The tags of the tokens, oldest first. */
  function TokTags(ts: seq<Fetch.Tok>): seq<Tag>
    decreases |ts|
  {
    if ts == [] then [] else [ts[0].tag] + TokTags(ts[1..])
  }

  lemma {:induction false} TokTagsSnoc(ts: seq<Fetch.Tok>, t: Fetch.Tok)
    ensures TokTags(ts + [t]) == TokTags(ts) + [t.tag]
    decreases |ts|
  {
    if ts == [] {
      assert ts + [t] == [t];
    } else {
      assert (ts + [t])[1..] == ts[1..] + [t];
      TokTagsSnoc(ts[1..], t);
    }
  }

  lemma {:induction false} ScanToksStale(isa: Arch, cur: Tag, st: Spec, ts: seq<Fetch.Tok>)
    requires NoneCurrent(TokTags(ts), cur)
    ensures ScanToks(isa, cur, st, ts) == st
    decreases |ts|
  {
    if ts != [] {
      ScanToksStale(isa, cur, st, ts[1..]);
    }
  }

  // ---------- the speculative CSRs and register count ----------

  lemma {:induction false} ScanShape(isa: Arch, w: bool, st: Spec, fl: seq<Entry>)
    ensures var r := Scan(isa, w, st, fl);
      |r.regs| == |st.regs| && (r.csr.None? || r.csr == st.csr) && (|st.regs| > 0 ==> r.regs[0] == st.regs[0])
    decreases |fl|
  {
    if fl != [] {
      ScanShape(isa, w, After(isa, w, st, fl[0]), fl[1..]);
    }
  }
}
