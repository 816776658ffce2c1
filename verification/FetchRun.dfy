/** Runs of the fetch unit alone: the instructions sent form the predicted path, and without predictions
    they are the parse of the parcels. */
module FetchRun {
  import opened Types
  import opened Isa
  import opened Epochs
  import opened Fetch

  datatype FetchStep = StepGen(resp: Prediction) | StepProcess

  ghost predicate MayFetch(isa: Arch, f: Unit, step: FetchStep) {
    match step
    case StepGen(resp) => f.fence || Consistent(isa, Tip(isa, f), resp)
    case StepProcess => f.queue != []
  }

  function Fetched(isa: Arch, f: Unit, step: FetchStep): (Unit, Option<Tok>)
    requires step.StepProcess? ==> f.queue != []
  {
    match step
    case StepGen(resp) => (GenNextPc(f, resp), None)
    case StepProcess => Process(isa, f)
  }

  /** The steps lead from f to last and send toks, in this order. */
  ghost predicate Sends(isa: Arch, f: Unit, steps: seq<FetchStep>, toks: seq<Tok>, last: Unit)
    decreases |steps|
  {
    if steps == [] then toks == [] && last == f
    else
      && MayFetch(isa, f, steps[0])
      && var (f', out) := Fetched(isa, f, steps[0]);
      match out
      case None => Sends(isa, f', steps[1..], toks, last)
      case Some(t) => toks != [] && toks[0] == t && Sends(isa, f', steps[1..], toks[1..], last)
  }

  ghost predicate RunInv(isa: Arch, f: Unit) { Inv(isa, f) && TagsOk(UnitTags(f), f.cur, false) }

  /** Each instruction is the one found at its pc, and the next one is at the predicted target, or follows
      it in memory. */
  ghost predicate IsPath(isa: Arch, p: Pc, toks: seq<Tok>)
    decreases |toks|
  {
    toks == [] || (toks[0].pc == p && TokOk(isa, toks[0]) && IsPath(isa, PredictedNext(isa, toks[0]), toks[1..]))
  }

  // ---------- one step ----------

  lemma GenTags(f: Unit, resp: Prediction)
    requires TagsOk(UnitTags(f), f.cur, false)
    ensures TagsOk(UnitTags(GenNextPc(f, resp)), f.cur, false)
  {
    if !f.fence {
      WordTagsSnoc(f.queue, Word01(WordAddr(f.pc), IsUpper(f.pc), resp, f.cur));
      var (c, d) := (HeldTags(f), WordTags(f.queue));
      assert [] + ([] + (c + d)) == c + d && [] + ([] + (c + (d + [f.cur]))) == c + (d + [f.cur]);
      TagsAppend([], [], c, d, f.cur, false);
    }
  }

  lemma HeldIsLive(f: Unit)
    requires TagsOk(UnitTags(f), f.cur, false) && f.queue != [] && HoldsParcel(f)
    ensures SameEpochs(f.queue[0].tag, f.cur)
  {
    LiveOnwards(UnitTags(f), f.cur);
    AllCurrentConcat(HeldTags(f), WordTags(f.queue), f.cur);
  }

  lemma ProcessTagsOk(isa: Arch, f: Unit)
    requires TagsOk(UnitTags(f), f.cur, false) && f.queue != []
    ensures TagsOk(UnitTags(Process(isa, f).0), f.cur, false) && Process(isa, f).0.cur == f.cur
  {
    var f' := Process(isa, f).0;
    var rest := WordTags(f.queue[1..]);
    ChainTail(HeldTags(f), WordTags(f.queue), f.cur);
    if SameEpochs(f.queue[0].tag, f.cur) {
      LiveOnwards(WordTags(f.queue), f.cur);
      ProcessTags(isa, f);
      TagsExecuteFlush(UnitTags(f'), f.cur);
    } else {
      ChainTail([f.queue[0].tag], rest, f.cur);
      assert [] + rest == rest;
    }
  }

  /** One step sends the pending instruction or nothing, and moves the pending pc along the path. */
  lemma StepFollows(isa: Arch, f: Unit, step: FetchStep)
    requires RunInv(isa, f) && MayFetch(isa, f, step)
    ensures var (f', out) := Fetched(isa, f, step);
      && RunInv(isa, f')
      && match out
         case None => Pending(f') == Pending(f)
         case Some(t) => t.pc == Pending(f) && TokOk(isa, t) && Pending(f') == PredictedNext(isa, t)
  {
    match step
    case StepGen(resp) =>
      GenKeeps(isa, f, resp);
      GenTags(f, resp);
    case StepProcess =>
      if HoldsParcel(f) {
        HeldIsLive(f);
      }
      ProcessFollows(isa, f);
      ProcessTagsOk(isa, f);
  }

  // ---------- runs ----------

  /** For any predictor that respects instruction boundaries, stages 0 and 1 together send exactly the
      predicted path, whatever the interleaving of requests and answers. */
  lemma {:induction false} SendsThePath(isa: Arch, f: Unit, steps: seq<FetchStep>, toks: seq<Tok>, last: Unit)
    requires RunInv(isa, f) && Sends(isa, f, steps, toks, last)
    ensures IsPath(isa, Pending(f), toks) && RunInv(isa, last)
    decreases |steps|
  {
    if steps != [] {
      StepFollows(isa, f, steps[0]);
      var (f', out) := Fetched(isa, f, steps[0]);
      SendsThePath(isa, f', steps[1..], if out.Some? then toks[1..] else toks, last);
    }
  }

  /** A redirect restarts the unit whatever state it interrupts: from execute when all is of one generation,
      from write-back at any time the chain of generations allows one more. */
  lemma RedirectRestarts(isa: Arch, f: Unit, who: Flusher, newpc: Pc, fence: bool)
    requires if who.FromExecute? then AllCurrent(UnitTags(f), f.cur) else TagsOk(UnitTags(f), f.cur, true)
    ensures var f' := Flush(f, who, newpc, fence); RunInv(isa, f') && Pending(f') == newpc
  {
    if who.FromExecute? {
      TagsExecuteFlush(UnitTags(f), f.cur);
    } else {
      TagsWriteBackFlush(UnitTags(f), f.cur);
    }
    FlushRestarts(isa, f, who, newpc, fence);
  }

  // ---------- predictions ----------

  lemma NextRequest(f: Unit, r: Prediction)
    requires !f.fence
    ensures var (f', straddles) := (GenNextPc(f, r), r.hi && !r.instr16);
      && f'.queue == f.queue + [Word01(f.pc - f.pc % 4, f.pc % 4 == 2, r, f.cur)] && !f'.fence
      && (f.delayed.Some? ==> f'.pc == f.delayed.value)
      && (f.delayed.None? ==>
            && f'.delayed == (if r.prediction > 1 && straddles then Some(r.nextpc) else None)
            && f'.pc == if r.prediction > 1 && r.btbhit && !straddles then r.nextpc
                        else (f.pc - f.pc % 4 + 4) % WORD_MOD)
  {
  }

  /** Stage 0 asks for the word that holds its pc, then for the predicted one or the next in memory; a taken
      prediction about a 32-bit instruction that straddles two words waits for the second of them. */
  lemma RequestsFollow(f: Unit, r0: Prediction, r1: Prediction, r2: Prediction)
    requires !f.fence && f.delayed.None?
    ensures var (a, straddles) := (f.pc - f.pc % 4, r0.hi && !r0.instr16);
      var p := if r0.prediction > 1 && r0.btbhit && !straddles then r0.nextpc else (a + 4) % WORD_MOD;
      exists q :: GenNextPc(GenNextPc(GenNextPc(f, r0), r1), r2).queue
          == f.queue + [Word01(a, f.pc % 4 == 2, r0, f.cur), Word01(p - p % 4, p % 4 == 2, r1, f.cur), q]
        && (r0.prediction > 1 && straddles ==>
              q.address == r0.nextpc - r0.nextpc % 4 && (q.discard <==> r0.nextpc % 4 == 2))
  {
    var (f1, f2) := (GenNextPc(f, r0), GenNextPc(GenNextPc(f, r0), r1));
    NextRequest(f, r0);
    NextRequest(f1, r1);
    NextRequest(f2, r2);
    var q := Word01(f2.pc - f2.pc % 4, f2.pc % 4 == 2, r2, f.cur);
    assert f.queue + [f1.queue[|f.queue|]] + [f2.queue[|f.queue| + 1]] + [q]
      == f.queue + [f1.queue[|f.queue|], f2.queue[|f.queue| + 1], q];
  }

  /** An instruction is marked taken exactly if the prediction for the word in which it starts says so and is about
      the parcel at which it starts; a 32-bit instruction at the lower parcel is its word's only one. */
  lemma TakenExactly(isa: Arch, f: Unit)
    requires Inv(isa, f) && f.queue != [] && (HoldsParcel(f) ==> SameEpochs(f.queue[0].tag, f.cur))
    ensures var (out, held) := (Process(isa, f).1, HoldsParcel(f));
      var r := if held then f.prev.resp else f.queue[0].resp;
      out.Some? ==>
        && (if held then f.prev.pc else f.queue[0].address) == out.value.pc - out.value.pc % 4
        && out.value.target == r.nextpc
        && (out.value.taken <==>
              r.prediction > 1 && if out.value.pc % 4 == 2 then r.hi else !r.hi || !out.value.compressed)
  {
    if !SameEpochs(f.queue[0].tag, f.cur) {
    } else if HoldsParcel(f) {
      AlignedFacts(f.prev.pc);
    } else if f.queue[0].discard {
      UpperFacts(f.cursor.pc);
    } else {
      AlignedFacts(f.cursor.pc);
    }
  }

  // ---------- without predictions ----------

  /** An instruction as the parser of the parcel stream sees it. */
  datatype Parsed = Parsed(pc: Pc, bits: int, compressed: bool)

  /** The first n instructions of the parcel stream from p: a parcel that ends in 11 starts a 32-bit
      instruction, any other one is an instruction. */
  function Parse(isa: Arch, p: Pc, n: nat): seq<Parsed>
    decreases n
  {
    if n == 0 then []
    else if isa.imem(p) % 4 == 3 then
      [Parsed(p, isa.imem(p) + 0x1_0000 * isa.imem((p + 2) % WORD_MOD), false)] + Parse(isa, (p + 4) % WORD_MOD, n - 1)
    else [Parsed(p, isa.imem(p), true)] + Parse(isa, (p + 2) % WORD_MOD, n - 1)
  }

  function AsParsed(toks: seq<Tok>): seq<Parsed>
    decreases |toks|
  {
    if toks == [] then [] else [Parsed(toks[0].pc, toks[0].bits, toks[0].compressed)] + AsParsed(toks[1..])
  }

  predicate NoneTaken(toks: seq<Tok>)
    decreases |toks|
  {
    toks == [] || (!toks[0].taken && NoneTaken(toks[1..]))
  }

  lemma {:induction false} StraightPath(isa: Arch, p: Pc, toks: seq<Tok>)
    requires IsPath(isa, p, toks) && NoneTaken(toks)
    ensures AsParsed(toks) == Parse(isa, p, |toks|)
    decreases |toks|
  {
    if toks != [] {
      StraightPath(isa, Following(isa, p), toks[1..]);
    }
  }

  /** No live word and no live parcel is predicted taken. */
  predicate QuietWords(q: seq<Word01>, cur: Tag)
    decreases |q|
  {
    q == [] || ((SameEpochs(q[0].tag, cur) ==> !PredictsTaken(q[0].resp)) && QuietWords(q[1..], cur))
  }

  predicate Quiet(f: Unit) { QuietWords(f.queue, f.cur) && (HoldsParcel(f) ==> !PredictsTaken(f.prev.resp)) }

  predicate NoPredictions(steps: seq<FetchStep>)
    decreases |steps|
  {
    steps == [] || ((steps[0].StepGen? ==> !PredictsTaken(steps[0].resp)) && NoPredictions(steps[1..]))
  }

  lemma {:induction false} QuietSnoc(q: seq<Word01>, w: Word01, cur: Tag)
    requires QuietWords(q, cur) && !PredictsTaken(w.resp)
    ensures QuietWords(q + [w], cur)
    decreases |q|
  {
    if q == [] {
      assert q + [w] == [w];
    } else {
      assert (q + [w])[1..] == q[1..] + [w];
      QuietSnoc(q[1..], w, cur);
    }
  }

  lemma {:induction false} QuietWhenStale(q: seq<Word01>, cur: Tag)
    requires NoneCurrent(WordTags(q), cur)
    ensures QuietWords(q, cur)
    decreases |q|
  {
    if q != [] {
      QuietWhenStale(q[1..], cur);
    }
  }

  lemma QuietStep(isa: Arch, f: Unit, step: FetchStep)
    requires Quiet(f) && (step.StepProcess? ==> f.queue != []) && (step.StepGen? ==> !PredictsTaken(step.resp))
    requires step.StepProcess? && HoldsParcel(f) ==> SameEpochs(f.queue[0].tag, f.cur)
    ensures var (f', out) := Fetched(isa, f, step); Quiet(f') && (out.Some? ==> !out.value.taken)
  {
    if step.StepGen? && !f.fence {
      QuietSnoc(f.queue, Word01(WordAddr(f.pc), IsUpper(f.pc), step.resp, f.cur), f.cur);
    }
  }

  lemma {:induction false} QuietRun(isa: Arch, f: Unit, steps: seq<FetchStep>, toks: seq<Tok>, last: Unit)
    requires RunInv(isa, f) && Quiet(f) && NoPredictions(steps) && Sends(isa, f, steps, toks, last)
    ensures NoneTaken(toks)
    decreases |steps|
  {
    if steps != [] {
      if steps[0].StepProcess? && HoldsParcel(f) {
        HeldIsLive(f);
      }
      QuietStep(isa, f, steps[0]);
      StepFollows(isa, f, steps[0]);
      var (f', out) := Fetched(isa, f, steps[0]);
      QuietRun(isa, f', steps[1..], if out.Some? then toks[1..] else toks, last);
    }
  }

  /** After any redirect, from any state it may interrupt, and with no prediction taken, what stage 1 sends
      is the recursive parse of the parcels from the new pc, be it 2- or 4-byte aligned. */
  lemma RedirectParses(isa: Arch, f: Unit, who: Flusher, newpc: Pc, fence: bool, steps: seq<FetchStep>,
      toks: seq<Tok>, last: Unit)
    requires if who.FromExecute? then AllCurrent(UnitTags(f), f.cur) else TagsOk(UnitTags(f), f.cur, true)
    requires NoPredictions(steps) && Sends(isa, Flush(f, who, newpc, fence), steps, toks, last)
    ensures AsParsed(toks) == Parse(isa, newpc, |toks|)
  {
    var f' := Flush(f, who, newpc, fence);
    RedirectRestarts(isa, f, who, newpc, fence);
    if who.FromExecute? {
      TagsExecuteFlush(UnitTags(f), f.cur);
    } else {
      TagsWriteBackFlush(UnitTags(f), f.cur);
    }
    NoneCurrentConcat(HeldTags(f), WordTags(f.queue), f'.cur);
    QuietWhenStale(f.queue, f'.cur);
    QuietRun(isa, f', steps, toks, last);
    SendsThePath(isa, f', steps, toks, last);
    StraightPath(isa, newpc, toks);
  }
}
