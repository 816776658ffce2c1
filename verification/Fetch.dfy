/** Stages 0 and 1: the next-pc generator with its delayed redirect, and the realigner that cuts
    4-byte words into 16- and 32-bit instructions. */
module Fetch {
  import opened Types
  import opened Isa
  import opened Epochs

  /** The branch predictor's answer for one word.  `hi` says that the prediction is about the upper
      parcel, `instr16` that the predicted instruction is compressed. */
  datatype Prediction = Prediction(prediction: nat, btbhit: bool, hi: bool, instr16: bool, nextpc: Pc)

  /** The answer when no predictor entry hits. */
  const NOT_TAKEN: Prediction := Prediction(0, false, false, false, 0)

  predicate PredictsTaken(r: Prediction) { r.prediction > 1 }

  /** A 32-bit control instruction that straddles two words. */
  predicate EdgeCase(r: Prediction) { r.hi && !r.instr16 }

  /** A word requested from the instruction memory, together with what stage 0 tells stage 1 about it.
      Answers come back in order, so the answer is matched with the head of the queue. */
  datatype Word01 = Word01(address: Pc, discard: bool, resp: Prediction, tag: Tag)

  /** A parcel carried from one word to the next. */
  datatype Prev = Prev(pc: Pc, parcel: Half, resp: Prediction, tag: Tag)

  /** Where the word after the ones already consumed is: its pc, a redirect still owed after it, and
      whether its lower parcel is the tail of a 32-bit instruction. */
  datatype Cursor = Cursor(pc: Pc, owed: Option<Pc>, midway: bool)

  /** The registers and the queue of both stages; `cursor` is a history variable. */
  datatype Unit = Unit(pc: Pc, delayed: Option<Pc>, fence: bool, cur: Tag,
                       queue: seq<Word01>, checkPrev: bool, prev: Prev, cursor: Cursor)

  /** An instruction leaving stage 1. */
  datatype Tok = Tok(pc: Pc, bits: int, compressed: bool, taken: bool, target: Pc, tag: Tag)

  // ---------- stage 0 ----------

  /** rl_gen_next_pc: send the current word, choose the next one. */
  function GenNextPc(f: Unit, resp: Prediction): Unit {
    if f.fence then f.(fence := false)
    else
      var a := WordAddr(f.pc);
      var chosen := if PredictsTaken(resp) && resp.btbhit && !EdgeCase(resp) then resp.nextpc else Plus4(a);
      var nextpc := if f.delayed.Some? then f.delayed.value else chosen;
      var delayed := if f.delayed.Some? then None
                     else if EdgeCase(resp) && PredictsTaken(resp) then Some(resp.nextpc) else None;
      f.(pc := nextpc, delayed := delayed,
         queue := f.queue + [Word01(a, IsUpper(f.pc), resp, f.cur)])
  }

  /** ma_flush, together with the epoch toggle of both stages. */
  function Flush(f: Unit, who: Flusher, newpc: Pc, fence: bool): Unit {
    f.(pc := newpc, delayed := None, fence := fence, cur := Toggle(f.cur, who), cursor := Cursor(newpc, None, false))
  }

  // ---------- stage 1 ----------

  /** A prediction that is about the lower parcel says nothing about the upper one, and vice versa. */
  function KeepIf(r: Prediction, keep: bool): Prediction {
    if keep then r else r.(btbhit := false, prediction := 1)
  }

  function MakeTok(pc: Pc, bits: int, compressed: bool, r: Prediction, tag: Tag): Tok {
    Tok(pc, bits, compressed, PredictsTaken(r), r.nextpc, tag)
  }

  predicate HoldsParcel(f: Unit) { f.checkPrev && SameEpochs(f.prev.tag, f.cur) }

  /** process_instruction: consume the head of the queue, the carried parcel, or both; the second
      component is the instruction sent to stage 2, if any. */
  function Process(isa: Arch, f: Unit): (Unit, Option<Tok>)
    requires f.queue != []
  {
    var w := f.queue[0];
    var rest := f.queue[1..];
    var lo := isa.imem(w.address);
    var hi := isa.imem(UpperOf(w.address));
    if !SameEpochs(w.tag, f.cur) then
      (f.(queue := rest, checkPrev := false, prev := f.prev.(tag := f.cur)), None)
    else if HoldsParcel(f) then
      var r := KeepIf(f.prev.resp, f.prev.resp.hi);
      if Is32(f.prev.parcel) then
        (f.(queue := rest, checkPrev := !PredictsTaken(r), prev := Prev(w.address, hi, w.resp, f.cur),
            cursor := Advance(isa, f.cursor, w.resp)),
         Some(MakeTok(UpperOf(f.prev.pc), f.prev.parcel + 0x1_0000 * lo, false, r, f.cur)))
      else
        (f.(checkPrev := false, prev := f.prev.(tag := f.cur)),
         Some(MakeTok(UpperOf(f.prev.pc), f.prev.parcel, true, r, f.cur)))
    else if w.discard then
      if Is32(hi) then
        (f.(queue := rest, checkPrev := true, prev := Prev(w.address, hi, w.resp, f.cur),
            cursor := Advance(isa, f.cursor, w.resp)), None)
      else
        (f.(queue := rest, checkPrev := false, prev := f.prev.(tag := f.cur),
            cursor := Advance(isa, f.cursor, w.resp)),
         Some(MakeTok(UpperOf(w.address), hi, true, KeepIf(w.resp, w.resp.hi), f.cur)))
    else if Is32(lo) then
      (f.(queue := rest, checkPrev := false, prev := f.prev.(tag := f.cur),
          cursor := Advance(isa, f.cursor, w.resp)),
       Some(MakeTok(w.address, lo + 0x1_0000 * hi, false, w.resp, f.cur)))
    else
      (f.(queue := rest, checkPrev := w.resp.hi || !PredictsTaken(w.resp), prev := Prev(w.address, hi, w.resp, f.cur),
          cursor := Advance(isa, f.cursor, w.resp)),
       Some(MakeTok(w.address, lo, true, KeepIf(w.resp, !w.resp.hi), f.cur)))
  }

  // ---------- the path that is being fetched ----------

  /** An instruction starts at the upper parcel of the word at the cursor. */
  predicate UpperStarts(isa: Arch, c: Cursor) {
    IsUpper(c.pc) || c.midway || !Is32(isa.imem(WordAddr(c.pc)))
  }

  /** Where the path goes after the word at the cursor, given the prediction made for that word. */
  function Advance(isa: Arch, c: Cursor, r: Prediction): Cursor {
    var a := WordAddr(c.pc);
    if c.owed.Some? then Cursor(c.owed.value, None, false)
    else if PredictsTaken(r) && !EdgeCase(r) then Cursor(r.nextpc, None, false)
    else Cursor(Plus4(a), if PredictsTaken(r) then Some(r.nextpc) else None,
                UpperStarts(isa, c) && Is32(isa.imem(UpperOf(a))))
  }

  /** Only control instructions are predicted taken, and a conditional branch only to its own target:
      the execute stage compares the direction of a branch and never its target. */
  ghost predicate Trusted(isa: Arch, p: Pc, target: Pc) {
    forall csr :: var ins := DecodeAt(isa, p, csr);
      ins.itype.TRAP? || (IsControl(ins) && (ins.itype.BRANCH? ==> target == Target(ins, p, 0)))
  }

  /** The predictor respects instruction boundaries: a taken prediction is a hit, and it is about a
      control instruction that starts in this word and has the predicted length. */
  ghost predicate Consistent(isa: Arch, c: Cursor, r: Prediction) {
    c.owed.None? && PredictsTaken(r) ==>
      && r.btbhit
      && Trusted(isa, if r.hi then UpperOf(WordAddr(c.pc)) else c.pc, r.nextpc)
      && (if r.hi then UpperStarts(isa, c) && r.instr16 == !Is32(isa.imem(UpperOf(WordAddr(c.pc))))
          else !IsUpper(c.pc) && !c.midway)
  }

  /** The cursor after the live words of the queue. */
  function Follow(isa: Arch, c: Cursor, q: seq<Word01>, cur: Tag): Cursor
    decreases |q|
  {
    if q == [] then c
    else if !SameEpochs(q[0].tag, cur) then Follow(isa, c, q[1..], cur)
    else Follow(isa, Advance(isa, c, q[0].resp), q[1..], cur)
  }

  /** Every live word of the queue is the one the cursor asks for. */
  ghost predicate OnPath(isa: Arch, c: Cursor, q: seq<Word01>, cur: Tag)
    decreases |q|
  {
    q == [] ||
    if !SameEpochs(q[0].tag, cur) then OnPath(isa, c, q[1..], cur)
    else
      && q[0].address == WordAddr(c.pc) && q[0].discard == IsUpper(c.pc)
      && Consistent(isa, c, q[0].resp)
      && OnPath(isa, Advance(isa, c, q[0].resp), q[1..], cur)
  }

  /** The pc stage 0 is working on, with what it owes. */
  function Tip(isa: Arch, f: Unit): Cursor { Follow(isa, f.cursor, f.queue, f.cur) }

  /** What the carried parcel says about the cursor. */
  ghost predicate ParcelOk(isa: Arch, f: Unit) {
    var jumps := f.prev.resp.hi && PredictsTaken(f.prev.resp);
    if HoldsParcel(f) then
      && !IsUpper(f.prev.pc) && f.prev.parcel == isa.imem(UpperOf(f.prev.pc))
      && f.cursor == (if Is32(f.prev.parcel) then
                        Cursor(Plus4(f.prev.pc), if jumps then Some(f.prev.resp.nextpc) else None, true)
                      else Cursor(if jumps then f.prev.resp.nextpc else Plus4(f.prev.pc), None, false))
      && (jumps ==> Trusted(isa, UpperOf(f.prev.pc), f.prev.resp.nextpc))
    else f.cursor.owed.None? && !f.cursor.midway
  }

  ghost predicate Inv(isa: Arch, f: Unit) {
    && ParcelOk(isa, f)
    && OnPath(isa, f.cursor, f.queue, f.cur)
    && Tip(isa, f).pc == f.pc && Tip(isa, f).owed == f.delayed
  }

  /** The pc of the next instruction that will leave stage 1. */
  function Pending(f: Unit): Pc { if HoldsParcel(f) then UpperOf(f.prev.pc) else f.cursor.pc }

  /** A token carries the instruction found at its pc, and its prediction can be trusted. */
  ghost predicate TokOk(isa: Arch, t: Tok) {
    && t.bits == FetchBits(isa, t.pc) && t.compressed == !Is32(isa.imem(t.pc))
    && (t.taken ==> Trusted(isa, t.pc, t.target))
  }

  /** The pc the front end goes to after t. */
  function PredictedNext(isa: Arch, t: Tok): Pc {
    if t.taken then t.target else Following(isa, t.pc)
  }

  /** The tags of the fetch unit, oldest first: the carried parcel, then the words under way. */
  function WordTags(q: seq<Word01>): seq<Tag>
    decreases |q|
  {
    if q == [] then [] else [q[0].tag] + WordTags(q[1..])
  }

  function HeldTags(f: Unit): seq<Tag> { if f.checkPrev then [f.prev.tag] else [] }

  function UnitTags(f: Unit): seq<Tag> { HeldTags(f) + WordTags(f.queue) }

  // ---------- lemmas ----------

  lemma {:induction false} WordTagsSnoc(q: seq<Word01>, w: Word01)
    ensures WordTags(q + [w]) == WordTags(q) + [w.tag]
    decreases |q|
  {
    if q == [] {
      assert q + [w] == [w];
    } else {
      assert (q + [w])[1..] == q[1..] + [w];
      WordTagsSnoc(q[1..], w);
    }
  }

  lemma {:induction false} FollowSnoc(isa: Arch, c: Cursor, q: seq<Word01>, w: Word01, cur: Tag)
    ensures Follow(isa, c, q + [w], cur) ==
      if SameEpochs(w.tag, cur) then Advance(isa, Follow(isa, c, q, cur), w.resp) else Follow(isa, c, q, cur)
    ensures OnPath(isa, c, q, cur) && SameEpochs(w.tag, cur)
      && w.address == WordAddr(Follow(isa, c, q, cur).pc) && w.discard == IsUpper(Follow(isa, c, q, cur).pc)
      && Consistent(isa, Follow(isa, c, q, cur), w.resp)
      ==> OnPath(isa, c, q + [w], cur)
    decreases |q|
  {
    if q == [] {
      assert q + [w] == [w];
      assert [w][1..] == [];
    } else {
      assert (q + [w])[1..] == q[1..] + [w];
      FollowSnoc(isa, if SameEpochs(q[0].tag, cur) then Advance(isa, c, q[0].resp) else c, q[1..], w, cur);
    }
  }

  /** Stage 0 extends the path and does not change what stage 1 will send next. */
  lemma GenKeeps(isa: Arch, f: Unit, resp: Prediction)
    requires Inv(isa, f) && (f.fence || Consistent(isa, Tip(isa, f), resp))
    ensures Inv(isa, GenNextPc(f, resp)) && Pending(GenNextPc(f, resp)) == Pending(f)
  {
    FollowSnoc(isa, f.cursor, f.queue, Word01(WordAddr(f.pc), IsUpper(f.pc), resp, f.cur), f.cur);
  }

  lemma {:induction false} NothingLive(isa: Arch, c: Cursor, q: seq<Word01>, cur: Tag)
    requires NoneCurrent(WordTags(q), cur)
    ensures Follow(isa, c, q, cur) == c && OnPath(isa, c, q, cur)
    decreases |q|
  {
    if q != [] {
      NothingLive(isa, c, q[1..], cur);
    }
  }

  /** A flush restarts the fetch at the new pc whatever it interrupts, provided that no item of an
      earlier generation carries the new epochs. */
  lemma FlushRestarts(isa: Arch, f: Unit, who: Flusher, newpc: Pc, fence: bool)
    requires NoneCurrent(UnitTags(f), Toggle(f.cur, who))
    ensures var f' := Flush(f, who, newpc, fence); Inv(isa, f') && Pending(f') == newpc
  {
    NoneCurrentConcat(HeldTags(f), WordTags(f.queue), Toggle(f.cur, who));
    NothingLive(isa, Cursor(newpc, None, false), f.queue, Toggle(f.cur, who));
  }

  /** A live word leaves only live items behind. */
  lemma ProcessTags(isa: Arch, f: Unit)
    requires f.queue != [] && AllCurrent(WordTags(f.queue), f.cur)
    ensures var (f', out) := Process(isa, f);
      f'.cur == f.cur && (out.Some? ==> out.value.tag == f.cur) && AllCurrent(UnitTags(f'), f.cur)
  {
    var f' := Process(isa, f).0;
    AllCurrentConcat(HeldTags(f'), WordTags(f'.queue), f.cur);
  }

  /** What one firing of process_instruction does to the path: a stale word changes nothing, a live
      one may send the pending instruction, and then the next pending pc is the predicted one. */
  ghost predicate ProcessSpec(isa: Arch, f: Unit)
    requires f.queue != []
  {
    var (f', out) := Process(isa, f);
    && Inv(isa, f')
    && match out
       case None => Pending(f') == Pending(f)
       case Some(t) =>
         && t.pc == Pending(f) && TokOk(isa, t) && t.tag == f.cur
         && Pending(f') == PredictedNext(isa, t)
  }

  lemma ProcessStale(isa: Arch, f: Unit)
    requires Inv(isa, f) && f.queue != [] && !SameEpochs(f.queue[0].tag, f.cur) && !HoldsParcel(f)
    ensures ProcessSpec(isa, f)
  {
  }

  lemma ProcessCarried(isa: Arch, f: Unit)
    requires Inv(isa, f) && f.queue != [] && SameEpochs(f.queue[0].tag, f.cur) && HoldsParcel(f)
    ensures ProcessSpec(isa, f)
  {
    AlignedFacts(f.prev.pc);
    AlignedFacts(Plus4(f.prev.pc));
  }

  lemma ProcessDiscard(isa: Arch, f: Unit)
    requires Inv(isa, f) && f.queue != [] && SameEpochs(f.queue[0].tag, f.cur) && !HoldsParcel(f)
    requires f.queue[0].discard
    ensures ProcessSpec(isa, f)
  {
    UpperFacts(f.cursor.pc);
    AlignedFacts(f.queue[0].address);
  }

  lemma ProcessAligned(isa: Arch, f: Unit)
    requires Inv(isa, f) && f.queue != [] && SameEpochs(f.queue[0].tag, f.cur) && !HoldsParcel(f)
    requires !f.queue[0].discard
    ensures ProcessSpec(isa, f)
  {
    AlignedFacts(f.cursor.pc);
  }

  /** Stage 1 sends the instructions of the path one by one, each with its own bits. */
  lemma ProcessFollows(isa: Arch, f: Unit)
    requires Inv(isa, f) && f.queue != []
    requires HoldsParcel(f) ==> SameEpochs(f.queue[0].tag, f.cur)
    ensures ProcessSpec(isa, f)
  {
    if !SameEpochs(f.queue[0].tag, f.cur) {
      ProcessStale(isa, f);
    } else if HoldsParcel(f) {
      ProcessCarried(isa, f);
    } else if f.queue[0].discard {
      ProcessDiscard(isa, f);
    } else {
      ProcessAligned(isa, f);
    }
  }
}
