/** Line reads against the responses to line writes: when a read goes out before the memory has answered the
    write of its own line. */
module WriteResponses {
  import opened Types
  import opened LineBus

  /** The line read a step puts on the read address channel, if any. */
  function Sent(g: Geometry, b: Bus, step: Step): Option<RdAddr>
    requires Can(b, step)
  {
    match step
    case TakeRead(r) => if b.writeReq.Some? && SameRegion(g, b.writeReq.value, r.address) then None
                        else Some(r.(id := 0))
    case DelayedRead => b.readReq
    case _ => None
  }

  lemma {:induction false} SentIsSent(g: Geometry, b: Bus, step: Step)
    requires GeometryOk(g) && Inv(g, b) && Can(b, step)
    ensures LineReads(Next(g, b, step).ar)
      == LineReads(b.ar) + if Sent(g, b, step).Some? then [Sent(g, b, step).value] else []
  {
    NothingToAdd(LineReads(b.ar));
    if Next(g, b, step).ar != b.ar {
      ReadsPlus(b.ar, Next(g, b, step).ar[|b.ar|]);
    }
  }

  // ---------- the documented property ----------

  /** The line writes that have been initiated, in order: the write addresses with id 0. */
  function LineWrites(aw: seq<WrAddr>): seq<WrAddr>
    decreases |aw|
  {
    if aw == [] then []
    else LineWrites(aw[..|aw| - 1]) + (if aw[|aw| - 1].id == 0 then [aw[|aw| - 1]] else [])
  }

  /** No line write to the line of r has been initiated whose response has not arrived.  Responses of one id
      come in order. */
  predicate Documented(g: Geometry, b: Bus, r: RdAddr) {
    forall k :: |b.acks| <= k < |LineWrites(b.aw)| ==> !SameLine(g, LineWrites(b.aw)[k].address, r.address)
  }

  /** The last beat of the line of r is out, and the response is not in. */
  predicate Overtakes(g: Geometry, b: Bus, r: RdAddr) {
    exists i :: 0 <= i < |b.owed| && SameLine(g, b.owed[i].address, r.address)
  }

  /** The write addresses of the lines es. */
  function LineAddrs(g: Geometry, es: seq<Evict>): (r: seq<WrAddr>)
    ensures |r| == |es|
  {
    seq(|es|, i requires 0 <= i < |es| => AddrOf(g, LineWrite(es[i])))
  }

  lemma LineWritesPlus(aw: seq<WrAddr>, a: WrAddr)
    ensures LineWrites(aw + [a]) == LineWrites(aw) + if a.id == 0 then [a] else []
  {
    assert (aw + [a])[..|aw|] == aw;
  }

  lemma {:induction false} DoneLines(g: Geometry, ts: seq<Write>)
    ensures LineWrites(AllAddrs(g, ts)) == LineAddrs(g, LinesOf(ts))
    decreases |ts|
  {
    if ts == [] {
    } else {
      var (rest, t) := (ts[..|ts| - 1], ts[|ts| - 1]);
      DoneLines(g, rest);
      LineWritesPlus(AllAddrs(g, rest), AddrOf(g, t));
      if t.LineWrite? {
        assert LineAddrs(g, LinesOf(rest) + [t.line]) == LineAddrs(g, LinesOf(rest)) + [AddrOf(g, t)];
      } else {
        NothingToAdd(LineAddrs(g, LinesOf(rest)));
        NothingToAdd(LinesOf(rest));
      }
    }
  }

  /** The line writes initiated are the lines done and the one in progress. */
  lemma Initiated(g: Geometry, b: Bus)
    requires Inv(g, b)
    ensures LineWrites(b.aw)
      == LineAddrs(g, LinesOf(b.done)) + if b.burst > 0 then [AddrOf(g, LineWrite(b.evictions[0]))] else []
  {
    DoneLines(g, b.done);
    NothingToAdd(AllAddrs(g, b.done));
    NothingToAdd(LineAddrs(g, LinesOf(b.done)));
    if b.burst > 0 {
      LineWritesPlus(AllAddrs(g, b.done), AddrOf(g, LineWrite(b.evictions[0])));
    }
  }

  /** During a burst the guard on wr_write_req keeps back every read of its line. */
  lemma BurstExcluded(g: Geometry, b: Bus, step: Step)
    requires GeometryOk(g) && Inv(g, b) && Can(b, step) && Sent(g, b, step).Some? && b.burst > 0
    ensures !SameLine(g, b.evictions[0].address, Sent(g, b, step).value.address)
  {
    var a := Sent(g, b, step).value.address;
    if SameLine(g, b.evictions[0].address, a) {
      LineInRegion(g, b.evictions[0].address, a);
    }
  }

  /** The line writes initiated and not answered: first those owed, then the one in progress. */
  lemma Unanswered(g: Geometry, b: Bus)
    requires GeometryOk(g) && Inv(g, b)
    ensures var (n, ws) := (|b.acks|, LineWrites(b.aw));
      && |ws| == n + |b.owed| + (if b.burst > 0 then 1 else 0)
      && (forall i :: 0 <= i < |b.owed| ==> ws[n + i].address == b.owed[i].address)
      && (b.burst > 0 ==> ws[|ws| - 1].address == b.evictions[0].address)
  {
    Initiated(g, b);
  }

  lemma SentExactly(g: Geometry, b: Bus, step: Step)
    requires GeometryOk(g) && Inv(g, b) && Can(b, step) && Sent(g, b, step).Some?
    ensures var r := Sent(g, b, step).value; Documented(g, b, r) <==> !Overtakes(g, b, r)
  {
    var (r, n, ws) := (Sent(g, b, step).value, |b.acks|, LineWrites(b.aw));
    Unanswered(g, b);
    if b.burst > 0 {
      BurstExcluded(g, b, step);
    }
    forall k | n <= k < n + |b.owed|
      ensures ws[k].address == b.owed[k - n].address
    {
      assert ws[n + (k - n)].address == b.owed[k - n].address;
    }
  }

  /** A line read that goes out respects the documented order exactly when no write of its line has all its
      beats out and its response outstanding. */
  lemma ReadOvertakesExactly(g: Geometry, steps: seq<Step>, b: Bus, step: Step)
    requires GeometryOk(g) && Leads(g, Idle(g), steps, b) && Can(b, step) && Sent(g, b, step).Some?
    ensures var r := Sent(g, b, step).value; Documented(g, b, r) <==> !Overtakes(g, b, r)
  {
    IdleOk(g);
    RunKeeps(g, Idle(g), steps, b);
    SentExactly(g, b, step);
  }

  // ---------- whole runs ----------

  /** Every read that goes out respects the documented order. */
  ghost predicate Respects(g: Geometry, b: Bus, steps: seq<Step>)
    decreases |steps|
  {
    steps == [] || !Can(b, steps[0]) ||
    (&& (Sent(g, b, steps[0]).Some? ==> Documented(g, b, Sent(g, b, steps[0]).value))
     && Respects(g, Next(g, b, steps[0]), steps[1..]))
  }

  /** The environment answers every line write before the cache reads the line again. */
  ghost predicate AnswersFirst(g: Geometry, b: Bus, steps: seq<Step>)
    decreases |steps|
  {
    steps == [] || !Can(b, steps[0]) ||
    (&& (Sent(g, b, steps[0]).Some? ==> !Overtakes(g, b, Sent(g, b, steps[0]).value))
     && AnswersFirst(g, Next(g, b, steps[0]), steps[1..]))
  }

  lemma {:induction false} RespectsFrom(g: Geometry, b: Bus, steps: seq<Step>)
    requires GeometryOk(g) && Inv(g, b)
    ensures Respects(g, b, steps) <==> AnswersFirst(g, b, steps)
    decreases |steps|
  {
    if steps == [] || !Can(b, steps[0]) {
    } else {
      if Sent(g, b, steps[0]).Some? {
        SentExactly(g, b, steps[0]);
      }
      StepKeeps(g, b, steps[0]);
      RespectsFrom(g, Next(g, b, steps[0]), steps[1..]);
    }
  }

  /** A run keeps the documented order exactly when the memory answers every line write before the cache asks
      for the line again: the core itself does not wait. */
  lemma RunRespectsExactly(g: Geometry, steps: seq<Step>)
    requires GeometryOk(g)
    ensures Respects(g, Idle(g), steps) <==> AnswersFirst(g, Idle(g), steps)
  {
    IdleOk(g);
    RespectsFrom(g, Idle(g), steps);
  }

  // ---------- a read that overtakes ----------

  function Beats(n: nat): (r: seq<Step>)
    ensures |r| == n
  {
    if n == 0 then [] else [BurstWrite] + Beats(n - 1)
  }

  /** After n more beats the burst is over: its response is owed, and nothing else has changed. */
  predicate BurstOver(b: Bus, last: Bus)
    requires b.evictions != []
  {
    && last.burst == 0 && last.writeReq.None? && last.readReq == b.readReq && last.ar == b.ar
    && last.owed == b.owed + [b.evictions[0]] && last.acks == b.acks
  }

  lemma {:induction false} FinishBurst(g: Geometry, b: Bus, n: nat) returns (last: Bus)
    requires GeometryOk(g) && b.evictions != [] && 0 < b.burst && b.burst + n == Dblocks(g) && n > 0
    ensures Leads(g, b, Beats(n), last) && BurstOver(b, last)
    decreases n
  {
    var next := Next(g, b, BurstWrite);
    assert Beats(n)[1..] == Beats(n - 1);
    if n == 1 {
      last := next;
    } else {
      last := FinishBurst(g, next, n - 1);
    }
  }

  lemma {:induction false} LeadsConcat(g: Geometry, b: Bus, xs: seq<Step>, mid: Bus, ys: seq<Step>, last: Bus)
    requires Leads(g, b, xs, mid) && Leads(g, mid, ys, last)
    ensures Leads(g, b, xs + ys, last)
    decreases |xs|
  {
    if xs == [] {
      assert xs + ys == ys;
    } else {
      assert (xs + ys)[1..] == xs[1..] + ys;
      LeadsConcat(g, Next(g, b, xs[0]), xs[1..], mid, ys, last);
    }
  }

  /** For every geometry, every line e and every read r of that line: the cache gives the line back, the burst
      goes out to its last beat, and then the read is sent although the response is outstanding. */
  lemma {:induction false} ReadOvertakesResponse(g: Geometry, e: Evict, r: RdAddr) returns (b: Bus)
    requires GeometryOk(g) && SameLine(g, e.address, r.address)
    ensures Leads(g, Idle(g), [Dirty(e), StartWrite] + Beats(Dblocks(g) - 1), b)
    ensures b.owed == [e] && b.acks == [] && Can(b, TakeRead(r))
    ensures Sent(g, b, TakeRead(r)) == Some(r.(id := 0)) && Next(g, b, TakeRead(r)).ar == [r.(id := 0)]
    ensures Overtakes(g, b, r.(id := 0)) && !Documented(g, b, r.(id := 0))
  {
    AtLeastTwo(g);
    var begin := [Dirty(e), StartWrite];
    var b1 := Next(g, Idle(g), Dirty(e));
    var b2 := Next(g, b1, StartWrite);
    assert begin[1..] == [StartWrite] && [StartWrite][1..] == [];
    assert Leads(g, b1, [StartWrite], b2);
    assert Leads(g, Idle(g), begin, b2);
    b := FinishBurst(g, b2, Dblocks(g) - 1);
    LeadsConcat(g, Idle(g), begin, b2, Beats(Dblocks(g) - 1), b);
    assert b.owed[0] == e;
    ReadOvertakesExactly(g, begin + Beats(Dblocks(g) - 1), b, TakeRead(r));
  }

  /** The read that the guard has kept back during the burst goes out as soon as the last beat has: it waits for the
      data, and not for the response. */
  lemma {:induction false} DelayedReadOvertakes(g: Geometry, e: Evict, r: RdAddr) returns (b: Bus)
    requires GeometryOk(g) && SameLine(g, e.address, r.address)
    ensures Leads(g, Idle(g), [Dirty(e), StartWrite, TakeRead(r)] + Beats(Dblocks(g) - 1), b)
    ensures b.ar == [] && b.owed == [e] && Can(b, DelayedRead)
    ensures Sent(g, b, DelayedRead) == Some(r.(id := 0)) && !Documented(g, b, r.(id := 0))
  {
    AtLeastTwo(g);
    LineInRegion(g, e.address, r.address);
    var begin := [Dirty(e), StartWrite, TakeRead(r)];
    var b1 := Next(g, Idle(g), Dirty(e));
    var b2 := Next(g, b1, StartWrite);
    var b3 := Next(g, b2, TakeRead(r));
    assert begin[1..][1..] == [TakeRead(r)] && [TakeRead(r)][1..] == [];
    assert Leads(g, b2, [TakeRead(r)], b3);
    assert Leads(g, b1, begin[1..], b3);
    assert Leads(g, Idle(g), begin, b3);
    b := FinishBurst(g, b3, Dblocks(g) - 1);
    LeadsConcat(g, Idle(g), begin, b3, Beats(Dblocks(g) - 1), b);
    assert b.owed[0] == e;
    ReadOvertakesExactly(g, begin + Beats(Dblocks(g) - 1), b, DelayedRead);
  }
}
