/** What is on the channels, against what the steps of a run asked for: every line, line read and IO operation goes
    out once, in order, with its own address and data. */
module BusTraffic {
  import opened Types
  import opened Bits
  import opened LineBus
  import opened IoLanes

  // ---------- what the steps asked for ----------

  /** The lines the cache has given back. */
  function GivenIn(steps: seq<Step>): seq<Evict>
    decreases |steps|
  {
    if steps == [] then [] else (if steps[0].Dirty? then [steps[0].e] else []) + GivenIn(steps[1..])
  }

  /** The line reads the cache has asked for. */
  function ReadsIn(steps: seq<Step>): seq<RdAddr>
    decreases |steps|
  {
    if steps == [] then []
    else (if steps[0].TakeRead? then [RdAddr(steps[0].r.address, steps[0].r.len, 0)] else []) + ReadsIn(steps[1..])
  }

  /** The IO reads of the write-back stage. */
  function IoReadsIn(steps: seq<Step>): seq<IoReq>
    decreases |steps|
  {
    if steps == [] then []
    else (if steps[0].InitiateIo? && steps[0].io.IoRead? then [steps[0].io] else []) + IoReadsIn(steps[1..])
  }

  /** The IO writes of the write-back stage. */
  function IoWritesIn(steps: seq<Step>): seq<IoReq>
    decreases |steps|
  {
    if steps == [] then []
    else (if steps[0].InitiateIo? && steps[0].io.IoWrite? then [steps[0].io] else []) + IoWritesIn(steps[1..])
  }

  /** The responses of the memory to line writes. */
  function ResponsesIn(steps: seq<Step>): seq<bool>
    decreases |steps|
  {
    if steps == [] then [] else (if steps[0].LineResp? then [steps[0].err] else []) + ResponsesIn(steps[1..])
  }

  // ---------- what is on the channels ----------

  function AddrsOf(ar: seq<RdAddr>, id: nat): seq<RdAddr>
    decreases |ar|
  {
    if ar == [] then []
    else AddrsOf(ar[..|ar| - 1], id) + (if ar[|ar| - 1].id == id then [ar[|ar| - 1]] else [])
  }

  function WrAddrsOf(aw: seq<WrAddr>, id: nat): seq<WrAddr>
    decreases |aw|
  {
    if aw == [] then []
    else WrAddrsOf(aw[..|aw| - 1], id) + (if aw[|aw| - 1].id == id then [aw[|aw| - 1]] else [])
  }

  function BeatsWith(w: seq<Beat>, id: nat): seq<Beat>
    decreases |w|
  {
    if w == [] then [] else BeatsWith(w[..|w| - 1], id) + (if w[|w| - 1].id == id then [w[|w| - 1]] else [])
  }

  /** The IO writes among the completed writes. */
  function SinglesOf(ts: seq<Write>): seq<IoReq>
    decreases |ts|
  {
    if ts == [] then []
    else
      var t := ts[|ts| - 1];
      SinglesOf(ts[..|ts| - 1]) + (if t.SingleWrite? then [IoWrite(t.address, t.data, t.size)] else [])
  }

  lemma AddrsPlus(ar: seq<RdAddr>, a: RdAddr, id: nat)
    ensures AddrsOf(ar + [a], id) == AddrsOf(ar, id) + if a.id == id then [a] else []
  {
    assert (ar + [a])[..|ar|] == ar;
  }

  lemma SinglesPlus(ts: seq<Write>, t: Write)
    ensures SinglesOf(ts + [t])
      == SinglesOf(ts) + if t.SingleWrite? then [IoWrite(t.address, t.data, t.size)] else []
  {
    assert (ts + [t])[..|ts|] == ts;
  }

  lemma WrAddrsPlus(aw: seq<WrAddr>, a: WrAddr, id: nat)
    ensures WrAddrsOf(aw + [a], id) == WrAddrsOf(aw, id) + if a.id == id then [a] else []
  {
    assert (aw + [a])[..|aw|] == aw;
  }

  lemma {:induction false} BeatsConcat(v: seq<Beat>, w: seq<Beat>, id: nat)
    ensures BeatsWith(v + w, id) == BeatsWith(v, id) + BeatsWith(w, id)
    decreases |w|
  {
    if w == [] {
      assert v + w == v;
      NothingToAdd(BeatsWith(v, id));
    } else {
      var n := |w| - 1;
      assert (v + w)[..|v| + n] == v + w[..n];
      BeatsConcat(v, w[..n], id);
      Assoc(BeatsWith(v, id), BeatsWith(w[..n], id), if w[n].id == id then [w[n]] else []);
    }
  }

  // ---------- every step adds what it was asked for ----------

  /** What a step adds to the histories and to the IO reads on the bus. */
  lemma StepAdds(g: Geometry, b: Bus, step: Step)
    requires Inv(g, b) && Can(b, step)
    ensures var (next, one) := (Next(g, b, step), [step]);
      && next.given == b.given + GivenIn(one) && next.taken == b.taken + ReadsIn(one)
      && next.acks == b.acks + ResponsesIn(one)
  {
    NothingToAdd(b.given);
    NothingToAdd(b.taken);
    NothingToAdd(b.acks);
  }

  /** An IO read as it should be on the bus: its own address, one beat, id 1. */
  function OnBus(reqs: seq<IoReq>): (r: seq<RdAddr>)
    ensures |r| == |reqs|
  {
    seq(|reqs|, i requires 0 <= i < |reqs| => RdAddr(reqs[i].address, 0, 1))
  }

  /** Every other step leaves the IO reads as they are: line reads carry id 0. */
  lemma OthersReadNothing(g: Geometry, b: Bus, step: Step)
    requires Inv(g, b) && Can(b, step) && !(step.InitiateIo? && step.io.IoRead?)
    ensures AddrsOf(Next(g, b, step).ar, 1) == AddrsOf(b.ar, 1)
  {
    var next := Next(g, b, step);
    if next.ar != b.ar {
      AddrsPlus(b.ar, next.ar[|b.ar|], 1);
    }
  }

  lemma StepReads(g: Geometry, b: Bus, step: Step)
    requires Inv(g, b) && Can(b, step)
    ensures AddrsOf(Next(g, b, step).ar, 1) == AddrsOf(b.ar, 1) + OnBus(IoReadsIn([step]))
  {
    if step.InitiateIo? && step.io.IoRead? {
      AddrsPlus(b.ar, RdAddr(step.io.address, 0, 1), 1);
      assert OnBus(IoReadsIn([step])) == [RdAddr(step.io.address, 0, 1)];
    } else {
      OthersReadNothing(g, b, step);
      assert OnBus(IoReadsIn([step])) == [];
      NothingToAdd(AddrsOf(b.ar, 1));
    }
  }

  lemma StepWrites(g: Geometry, b: Bus, step: Step)
    requires Can(b, step)
    ensures SinglesOf(Next(g, b, step).done) == SinglesOf(b.done) + IoWritesIn([step])
  {
    NothingToAdd(SinglesOf(b.done));
    var next := Next(g, b, step);
    if next.done != b.done {
      SinglesPlus(b.done, next.done[|b.done|]);
    }
  }

  lemma {:induction false} OneByOne(steps: seq<Step>)
    requires steps != []
    ensures var (one, rest) := ([steps[0]], steps[1..]);
      && GivenIn(steps) == GivenIn(one) + GivenIn(rest) && ReadsIn(steps) == ReadsIn(one) + ReadsIn(rest)
      && ResponsesIn(steps) == ResponsesIn(one) + ResponsesIn(rest)
  {
    assert [steps[0]][1..] == [];
  }

  lemma {:induction false} OneIoByOne(steps: seq<Step>)
    requires steps != []
    ensures var (one, rest) := ([steps[0]], steps[1..]);
      && IoReadsIn(steps) == IoReadsIn(one) + IoReadsIn(rest)
      && IoWritesIn(steps) == IoWritesIn(one) + IoWritesIn(rest)
  {
    assert [steps[0]][1..] == [];
  }

  lemma OnBusConcat(a: seq<IoReq>, b: seq<IoReq>)
    ensures OnBus(a + b) == OnBus(a) + OnBus(b)
  {
  }

  lemma {:induction false} RunAdds(g: Geometry, b: Bus, steps: seq<Step>, last: Bus)
    requires GeometryOk(g) && Inv(g, b) && Leads(g, b, steps, last)
    ensures last.given == b.given + GivenIn(steps) && last.taken == b.taken + ReadsIn(steps)
    ensures last.acks == b.acks + ResponsesIn(steps)
    decreases |steps|
  {
    if steps == [] {
      NothingToAdd(b.given);
      NothingToAdd(b.taken);
      NothingToAdd(b.acks);
    } else {
      var next := Next(g, b, steps[0]);
      StepAdds(g, b, steps[0]);
      StepKeeps(g, b, steps[0]);
      RunAdds(g, next, steps[1..], last);
      OneByOne(steps);
      Assoc(b.given, GivenIn([steps[0]]), GivenIn(steps[1..]));
      Assoc(b.taken, ReadsIn([steps[0]]), ReadsIn(steps[1..]));
      Assoc(b.acks, ResponsesIn([steps[0]]), ResponsesIn(steps[1..]));
    }
  }

  lemma {:induction false} RunIo(g: Geometry, b: Bus, steps: seq<Step>, last: Bus)
    requires GeometryOk(g) && Inv(g, b) && Leads(g, b, steps, last)
    ensures AddrsOf(last.ar, 1) == AddrsOf(b.ar, 1) + OnBus(IoReadsIn(steps))
    ensures SinglesOf(last.done) == SinglesOf(b.done) + IoWritesIn(steps)
    decreases |steps|
  {
    if steps == [] {
      NothingToAdd(AddrsOf(b.ar, 1));
      NothingToAdd(SinglesOf(b.done));
    } else {
      var next := Next(g, b, steps[0]);
      var (one, rest) := ([steps[0]], steps[1..]);
      StepReads(g, b, steps[0]);
      StepWrites(g, b, steps[0]);
      StepKeeps(g, b, steps[0]);
      RunIo(g, next, rest, last);
      OneIoByOne(steps);
      OnBusConcat(IoReadsIn(one), IoReadsIn(rest));
      Assoc(AddrsOf(b.ar, 1), OnBus(IoReadsIn(one)), OnBus(IoReadsIn(rest)));
      Assoc(SinglesOf(b.done), IoWritesIn(one), IoWritesIn(rest));
    }
  }

  lemma FromIdle<T>(s: seq<T>)
    ensures [] + s == s
  {
  }

  /** On every run: the lines, the line reads and the responses of the histories are those of the steps. */
  lemma HistoriesAreSteps(g: Geometry, steps: seq<Step>, b: Bus)
    requires GeometryOk(g) && Leads(g, Idle(g), steps, b)
    ensures b.given == GivenIn(steps) && b.taken == ReadsIn(steps) && b.acks == ResponsesIn(steps)
    ensures GivenIn(steps) == LinesOf(b.done) + b.evictions
    ensures ReadsIn(steps) == LineReads(b.ar) + Waiting(b)
  {
    IdleOk(g);
    RunAdds(g, Idle(g), steps, b);
    RunKeeps(g, Idle(g), steps, b);
    FromIdle(GivenIn(steps));
    FromIdle(ReadsIn(steps));
    FromIdle(ResponsesIn(steps));
  }

  /** On every run: the IO reads on the read address channel are, in order, the IO reads of the steps, each with its
      own address. */
  lemma IoReadsAreSteps(g: Geometry, steps: seq<Step>, b: Bus)
    requires GeometryOk(g) && Leads(g, Idle(g), steps, b)
    ensures |AddrsOf(b.ar, 1)| == |IoReadsIn(steps)|
    ensures forall k :: 0 <= k < |IoReadsIn(steps)| ==>
      AddrsOf(b.ar, 1)[k] == RdAddr(IoReadsIn(steps)[k].address, 0, 1)
  {
    IdleOk(g);
    RunIo(g, Idle(g), steps, b);
    FromIdle(OnBus(IoReadsIn(steps)));
  }

  // ---------- IO writes ----------

  lemma {:induction false} LineIds(g: Geometry, e: Evict, k: nat)
    ensures BeatsWith(LineBeats(g, e, k), 1) == [] && BeatsWith(LineBeats(g, e, k), 0) == LineBeats(g, e, k)
    decreases k
  {
    if k == 0 {
    } else {
      LineIds(g, e, k - 1);
      assert LineBeats(g, e, k)[..k - 1] == LineBeats(g, e, k - 1);
    }
  }

  function IoBeats(g: Geometry, reqs: seq<IoReq>): (r: seq<Beat>)
    requires forall i :: 0 <= i < |reqs| ==> reqs[i].IoWrite?
    ensures |r| == |reqs|
  {
    seq(|reqs|, i requires 0 <= i < |reqs| => IoBeat(g, reqs[i].address, reqs[i].data, reqs[i].size))
  }

  function IoAddrs(reqs: seq<IoReq>): (r: seq<WrAddr>)
    ensures |r| == |reqs|
  {
    seq(|reqs|, i requires 0 <= i < |reqs| => WrAddr(reqs[i].address, 0, 1))
  }

  lemma {:induction false} SinglesAreWrites(ts: seq<Write>)
    ensures forall i :: 0 <= i < |SinglesOf(ts)| ==> SinglesOf(ts)[i].IoWrite?
    decreases |ts|
  {
    if ts == [] {
    } else {
      SinglesAreWrites(ts[..|ts| - 1]);
    }
  }

  lemma OneMoreIo(g: Geometry, reqs: seq<IoReq>, a: nat, v: nat, z: nat)
    requires forall i :: 0 <= i < |reqs| ==> reqs[i].IoWrite?
    ensures IoBeats(g, reqs + [IoWrite(a, v, z)]) == IoBeats(g, reqs) + [IoBeat(g, a, v, z)]
    ensures IoAddrs(reqs + [IoWrite(a, v, z)]) == IoAddrs(reqs) + [WrAddr(a, 0, 1)]
  {
  }

  lemma {:induction false} DoneIoBeats(g: Geometry, ts: seq<Write>)
    ensures forall i :: 0 <= i < |SinglesOf(ts)| ==> SinglesOf(ts)[i].IoWrite?
    ensures BeatsWith(AllBeats(g, ts), 1) == IoBeats(g, SinglesOf(ts))
    decreases |ts|
  {
    SinglesAreWrites(ts);
    if ts == [] {
    } else {
      var (rest, t) := (ts[..|ts| - 1], ts[|ts| - 1]);
      DoneIoBeats(g, rest);
      BeatsConcat(AllBeats(g, rest), BeatsOf(g, t), 1);
      if t.LineWrite? {
        LineIds(g, t.line, Dblocks(g));
        NothingToAdd(IoBeats(g, SinglesOf(rest)));
        NothingToAdd(SinglesOf(rest));
      } else {
        OneIoBeat(g, t.address, t.data, t.size);
        OneMoreIo(g, SinglesOf(rest), t.address, t.data, t.size);
      }
    }
  }

  lemma {:induction false} DoneIoAddrs(g: Geometry, ts: seq<Write>)
    ensures WrAddrsOf(AllAddrs(g, ts), 1) == IoAddrs(SinglesOf(ts))
    decreases |ts|
  {
    if ts == [] {
    } else {
      var (rest, t) := (ts[..|ts| - 1], ts[|ts| - 1]);
      DoneIoAddrs(g, rest);
      WrAddrsPlus(AllAddrs(g, rest), AddrOf(g, t), 1);
      if t.LineWrite? {
        NothingToAdd(IoAddrs(SinglesOf(rest)));
        NothingToAdd(SinglesOf(rest));
      } else {
        SinglesAreWrites(rest);
        OneMoreIo(g, SinglesOf(rest), t.address, t.data, t.size);
      }
    }
  }

  lemma OneIoBeat(g: Geometry, a: nat, v: nat, z: nat)
    ensures BeatsWith([IoBeat(g, a, v, z)], 1) == [IoBeat(g, a, v, z)]
    ensures BeatsWith([IoBeat(g, a, v, z)], 0) == []
  {
    assert [IoBeat(g, a, v, z)][..0] == [];
  }

  /** On every run: the single beats on the write data channel and their addresses are, in order, the IO writes of
      the steps; on RV32 and RV64 each aligned one enables its own bytes, which carry its own data. */
  lemma IoWritesAreSteps(g: Geometry, steps: seq<Step>, b: Bus)
    requires GeometryOk(g) && Leads(g, Idle(g), steps, b)
    ensures var reqs := IoWritesIn(steps);
      && |BeatsWith(b.w, 1)| == |WrAddrsOf(b.aw, 1)| == |reqs|
      && forall k :: 0 <= k < |reqs| ==>
           && reqs[k].IoWrite? && WrAddrsOf(b.aw, 1)[k] == WrAddr(reqs[k].address, 0, 1)
           && (Placed(g, reqs[k].address, reqs[k].size) ==>
                 Carries(g, BeatsWith(b.w, 1)[k], reqs[k].address, reqs[k].data, OperationBytes(reqs[k].size)))
  {
    IoOnChannels(g, steps, b);
    var reqs := IoWritesIn(steps);
    forall k | 0 <= k < |reqs| && Placed(g, reqs[k].address, reqs[k].size)
      ensures Carries(g, BeatsWith(b.w, 1)[k], reqs[k].address, reqs[k].data, OperationBytes(reqs[k].size))
    {
      IoWriteLanes(g, reqs[k].address, reqs[k].data, reqs[k].size);
    }
  }

  lemma IoOnChannels(g: Geometry, steps: seq<Step>, b: Bus)
    requires GeometryOk(g) && Leads(g, Idle(g), steps, b)
    ensures var reqs := IoWritesIn(steps);
      && (forall i :: 0 <= i < |reqs| ==> reqs[i].IoWrite?)
      && BeatsWith(b.w, 1) == IoBeats(g, reqs) && WrAddrsOf(b.aw, 1) == IoAddrs(reqs)
  {
    IdleOk(g);
    RunIo(g, Idle(g), steps, b);
    RunKeeps(g, Idle(g), steps, b);
    FromIdle(IoWritesIn(steps));
    DoneIoBeats(g, b.done);
    DoneIoAddrs(g, b.done);
    ChannelIds(g, b);
  }

  /** The burst in progress adds nothing to the IO on the channels. */
  lemma ChannelIds(g: Geometry, b: Bus)
    requires Inv(g, b)
    ensures BeatsWith(b.w, 1) == BeatsWith(AllBeats(g, b.done), 1)
    ensures WrAddrsOf(b.aw, 1) == WrAddrsOf(AllAddrs(g, b.done), 1)
  {
    NothingToAdd(AllBeats(g, b.done));
    NothingToAdd(AllAddrs(g, b.done));
    if b.burst > 0 {
      var e := b.evictions[0];
      BeatsConcat(AllBeats(g, b.done), LineBeats(g, e, b.burst), 1);
      LineIds(g, e, b.burst);
      NothingToAdd(BeatsWith(AllBeats(g, b.done), 1));
      WrAddrsPlus(AllAddrs(g, b.done), AddrOf(g, LineWrite(e)), 1);
      NothingToAdd(WrAddrsOf(AllAddrs(g, b.done), 1));
    }
  }

  // ---------- lines ----------

  /** The beats of the lines, one line after the other. */
  function FlatLines(g: Geometry, es: seq<Evict>): seq<Beat>
    decreases |es|
  {
    if es == [] then [] else FlatLines(g, es[..|es| - 1]) + LineBeats(g, es[|es| - 1], Dblocks(g))
  }

  lemma FlatPlus(g: Geometry, es: seq<Evict>, e: Evict)
    ensures FlatLines(g, es + [e]) == FlatLines(g, es) + LineBeats(g, e, Dblocks(g))
  {
    assert (es + [e])[..|es|] == es;
  }

  /** n lines have n * dblocks beats. */
  function Times(n: nat, d: nat): nat { if n == 0 then 0 else Times(n - 1, d) + d }

  lemma {:induction false} TimesIsProduct(n: nat, d: nat)
    ensures Times(n, d) == n * d
  {
    if n > 0 {
      TimesIsProduct(n - 1, d);
    }
  }

  lemma {:induction false} FlatAt(g: Geometry, es: seq<Evict>, i: nat, j: nat)
    requires i < |es| && j < Dblocks(g)
    ensures |FlatLines(g, es)| == Times(|es|, Dblocks(g))
    ensures Times(i, Dblocks(g)) + j < |FlatLines(g, es)|
    ensures FlatLines(g, es)[Times(i, Dblocks(g)) + j]
      == Beat(BeatData(g, es[i].data, j), AllLanes(g), j + 1 == Dblocks(g), 0)
    decreases |es|
  {
    var n := |es| - 1;
    FlatLength(g, es[..n]);
    if i < n {
      FlatAt(g, es[..n], i, j);
    } else {
      LineBeatAt(g, es[n], Dblocks(g), j);
    }
  }

  lemma {:induction false} FlatLength(g: Geometry, es: seq<Evict>)
    ensures |FlatLines(g, es)| == Times(|es|, Dblocks(g))
    decreases |es|
  {
    if es == [] {
    } else {
      FlatLength(g, es[..|es| - 1]);
    }
  }

  lemma {:induction false} DoneLineBeats(g: Geometry, ts: seq<Write>)
    ensures BeatsWith(AllBeats(g, ts), 0) == FlatLines(g, LinesOf(ts))
    decreases |ts|
  {
    if ts == [] {
    } else {
      var (rest, t) := (ts[..|ts| - 1], ts[|ts| - 1]);
      DoneLineBeats(g, rest);
      BeatsConcat(AllBeats(g, rest), BeatsOf(g, t), 0);
      if t.LineWrite? {
        LineIds(g, t.line, Dblocks(g));
        FlatPlus(g, LinesOf(rest), t.line);
      } else {
        OneIoBeat(g, t.address, t.data, t.size);
        NothingToAdd(FlatLines(g, LinesOf(rest)));
        NothingToAdd(LinesOf(rest));
      }
    }
  }

  /** The line beats on the channel: those of the lines done, and those sent of the line in progress. */
  lemma LineBeatsOnChannel(g: Geometry, b: Bus)
    requires Inv(g, b)
    ensures BeatsWith(b.w, 0)
      == FlatLines(g, LinesOf(b.done)) + if b.burst > 0 then LineBeats(g, b.evictions[0], b.burst) else []
  {
    DoneLineBeats(g, b.done);
    NothingToAdd(AllBeats(g, b.done));
    NothingToAdd(FlatLines(g, LinesOf(b.done)));
    if b.burst > 0 {
      BeatsConcat(AllBeats(g, b.done), LineBeats(g, b.evictions[0], b.burst), 0);
      LineIds(g, b.evictions[0], b.burst);
    }
  }

  /** Beat j of a line: its part of the data, with all lanes enabled, and marked if it is the last one. */
  predicate IsPart(g: Geometry, e: Evict, j: nat, beat: Beat) {
    && beat.data == (e.data / Pow2(j * (8 * Dwords(g)))) % Pow2(8 * Dwords(g))
    && |beat.strobe| == Dwords(g) && (forall l :: 0 <= l < Dwords(g) ==> beat.strobe[l])
    && (beat.last <==> j == Dblocks(g) - 1)
  }

  lemma PartOfLine(g: Geometry, e: Evict, j: nat, beat: Beat)
    requires beat == Beat(BeatData(g, e.data, j), AllLanes(g), j + 1 == Dblocks(g), 0)
    ensures IsPart(g, e, j, beat)
  {
    OffsetIsProduct(g, j);
  }

  /** On every run: beat i * dblocks + j of the line beats on the write data channel is part j of the i-th line the
      cache has given back. */
  lemma LineBeatsAreSteps(g: Geometry, steps: seq<Step>, b: Bus, i: nat, j: nat)
    requires GeometryOk(g) && Leads(g, Idle(g), steps, b)
    requires j < Dblocks(g) && i * Dblocks(g) + j < |BeatsWith(b.w, 0)|
    ensures i < |GivenIn(steps)| && IsPart(g, GivenIn(steps)[i], j, BeatsWith(b.w, 0)[i * Dblocks(g) + j])
  {
    HistoriesAreSteps(g, steps, b);
    IdleOk(g);
    RunKeeps(g, Idle(g), steps, b);
    LineBeatsOnChannel(g, b);
    TimesIsProduct(i, Dblocks(g));
    LineBeatOf(g, b, i, j);
  }

  lemma DoneBeatOf(g: Geometry, es: seq<Evict>, more: seq<Beat>, i: nat, j: nat)
    requires i < |es| && j < Dblocks(g)
    ensures Times(i, Dblocks(g)) + j < |FlatLines(g, es)|
    ensures IsPart(g, es[i], j, (FlatLines(g, es) + more)[Times(i, Dblocks(g)) + j])
  {
    FlatAt(g, es, i, j);
    PartOfLine(g, es[i], j, FlatLines(g, es)[Times(i, Dblocks(g)) + j]);
  }

  lemma CurrentBeatOf(g: Geometry, es: seq<Evict>, e: Evict, burst: nat, i: nat, j: nat)
    requires |es| <= i && j < Dblocks(g) && burst <= Dblocks(g)
    requires Times(i, Dblocks(g)) + j < |FlatLines(g, es) + LineBeats(g, e, burst)|
    ensures i == |es| && IsPart(g, e, j, (FlatLines(g, es) + LineBeats(g, e, burst))[Times(i, Dblocks(g)) + j])
  {
    FlatLength(g, es);
    TimesMonotone(|es|, i, Dblocks(g));
    LineBeatAt(g, e, burst, j);
    PartOfLine(g, e, j, LineBeats(g, e, burst)[j]);
  }

  lemma LineBeatOf(g: Geometry, b: Bus, i: nat, j: nat)
    requires Inv(g, b) && j < Dblocks(g) && Times(i, Dblocks(g)) + j < |BeatsWith(b.w, 0)|
    requires BeatsWith(b.w, 0)
      == FlatLines(g, LinesOf(b.done)) + if b.burst > 0 then LineBeats(g, b.evictions[0], b.burst) else []
    ensures var es := LinesOf(b.done) + b.evictions;
      i < |es| && IsPart(g, es[i], j, BeatsWith(b.w, 0)[Times(i, Dblocks(g)) + j])
  {
    var es := LinesOf(b.done);
    if i < |es| {
      DoneBeatOf(g, es, if b.burst > 0 then LineBeats(g, b.evictions[0], b.burst) else [], i, j);
    } else {
      FlatLength(g, es);
      TimesMonotone(|es|, i, Dblocks(g));
      CurrentBeatOf(g, es, b.evictions[0], b.burst, i, j);
    }
  }

  lemma {:induction false} TimesMonotone(m: nat, n: nat, d: nat)
    requires m <= n
    ensures Times(m, d) <= Times(n, d) && (m < n ==> Times(m, d) + d <= Times(n, d))
    decreases n
  {
    if m < n {
      TimesMonotone(m, n - 1, d);
    }
  }

  /** On every run: the line writes on the write address channel are, in order, for the lines the cache has given
      back, each for dblocks beats. */
  lemma LineAddrsAreSteps(g: Geometry, steps: seq<Step>, b: Bus, i: nat)
    requires GeometryOk(g) && Leads(g, Idle(g), steps, b) && i < |WrAddrsOf(b.aw, 0)|
    ensures i < |GivenIn(steps)|
    ensures WrAddrsOf(b.aw, 0)[i].address == GivenIn(steps)[i].address && WrAddrsOf(b.aw, 0)[i].len + 1 == Dblocks(g)
  {
    HistoriesAreSteps(g, steps, b);
    IdleOk(g);
    RunKeeps(g, Idle(g), steps, b);
    DoneLineAddrs(g, b.done);
    NothingToAdd(AllAddrs(g, b.done));
    if b.burst > 0 {
      WrAddrsPlus(AllAddrs(g, b.done), AddrOf(g, LineWrite(b.evictions[0])), 0);
    }
  }

  lemma {:induction false} DoneLineAddrs(g: Geometry, ts: seq<Write>)
    ensures |WrAddrsOf(AllAddrs(g, ts), 0)| == |LinesOf(ts)|
    ensures forall i :: 0 <= i < |LinesOf(ts)| ==>
      WrAddrsOf(AllAddrs(g, ts), 0)[i] == WrAddr(LinesOf(ts)[i].address, Dblocks(g) - 1, 0)
    decreases |ts|
  {
    if ts == [] {
    } else {
      var (rest, t) := (ts[..|ts| - 1], ts[|ts| - 1]);
      DoneLineAddrs(g, rest);
      WrAddrsPlus(AllAddrs(g, rest), AddrOf(g, t), 0);
    }
  }

  /** A line read of another region is sent at once, and one of the region of the burst is put aside. */
  lemma PutAsideExactly(g: Geometry, b: Bus, r: RdAddr)
    requires Inv(g, b) && Can(b, TakeRead(r))
    ensures Next(g, b, TakeRead(r)).readReq.Some? <==>
      && b.burst > 0
      && b.evictions[0].address / Pow2(Pow2(g.logWords) + Pow2(g.logBlocks))
         == r.address / Pow2(Pow2(g.logWords) + Pow2(g.logBlocks))
  {
  }
}
