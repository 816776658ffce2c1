/** Flush generations: two epoch bits are enough to tell the current path from all stale items. */
module Epochs {
  import opened Types

  /** 3 for the current generation; 2 and 1 when one flush separates the item from it, raised by the
      execute or by the write-back stage; 0 when an execute flush and then a write-back flush do. */
  function Rank(t: Tag, cur: Tag): nat {
    (if t.w == cur.w then 2 else 0) + (if t.e == cur.e then 1 else 0)
  }

  /** How many flushes ago an item of this rank was fetched. */
  function Age(rank: nat): nat { if rank == 3 then 0 else if rank == 0 then 2 else 1 }

  predicate BornOk(t: Tag, cur: Tag) { t.born + Age(Rank(t, cur)) == cur.born }

  /** The ranks that may follow each other in fetch order. */
  predicate Follows(older: nat, younger: nat) { younger == older || younger == 3 || (older == 0 && younger == 1) }

  predicate Chain(ts: seq<Tag>, cur: Tag)
    decreases |ts|
  {
    ts == [] ||
    (&& BornOk(ts[0], cur)
     && (|ts| > 1 ==> Follows(Rank(ts[0], cur), Rank(ts[1], cur)))
     && Chain(ts[1..], cur))
  }

  /** The items between fetch and execute, oldest first, come from at most three generations in fetch
      order.  `busy` says that an instruction of the current generation is between issue and write-back:
      only then can write-back raise another flush. */
  predicate TagsOk(ts: seq<Tag>, cur: Tag, busy: bool) {
    Chain(ts, cur) && (busy && ts != [] ==> Rank(ts[0], cur) >= 2)
  }

  predicate AllCurrent(ts: seq<Tag>, cur: Tag)
    decreases |ts|
  {
    ts == [] || (ts[0] == cur && AllCurrent(ts[1..], cur))
  }

  predicate NoneCurrent(ts: seq<Tag>, cur: Tag)
    decreases |ts|
  {
    ts == [] || (!SameEpochs(ts[0], cur) && NoneCurrent(ts[1..], cur))
  }

  lemma {:induction false} ChainAt(ts: seq<Tag>, cur: Tag, i: nat, j: nat)
    requires Chain(ts, cur) && i <= j < |ts|
    ensures BornOk(ts[i], cur) && BornOk(ts[j], cur) && Follows(Rank(ts[i], cur), Rank(ts[j], cur))
    decreases |ts|
  {
    if i > 0 {
      ChainAt(ts[1..], cur, i - 1, j - 1);
    } else if j > 0 {
      ChainAt(ts[1..], cur, 0, j - 1);
    }
  }

  /** The tag comparison made by the stages is exact: it keeps the items fetched since the last flush, and
      at most two flushes lie between the oldest item and now. */
  lemma TagCompareIsExact(ts: seq<Tag>, cur: Tag, busy: bool, i: nat)
    requires TagsOk(ts, cur, busy) && i < |ts|
    ensures SameEpochs(ts[i], cur) <==> ts[i].born == cur.born
    ensures SameEpochs(ts[i], cur) ==> ts[i] == cur
    ensures ts[i].born <= cur.born <= ts[i].born + 2
  {
    ChainAt(ts, cur, i, i);
  }

  /** Items come in fetch order, and two of them carry the same epochs exactly when no flush lies between
      them: the generations in flight have pairwise distinct epochs. */
  lemma GenerationsDistinct(ts: seq<Tag>, cur: Tag, busy: bool, i: nat, j: nat)
    requires TagsOk(ts, cur, busy) && i <= j < |ts|
    ensures ts[i].born <= ts[j].born
    ensures SameEpochs(ts[i], ts[j]) <==> ts[i].born == ts[j].born
  {
    ChainAt(ts, cur, i, j);
  }

  /** A suffix of a chain is a chain that fits the first item. */
  lemma {:induction false} ChainTail(a: seq<Tag>, b: seq<Tag>, cur: Tag)
    requires Chain(a + b, cur)
    ensures Chain(b, cur)
    ensures a != [] && b != [] ==> Follows(Rank(a[0], cur), Rank(b[0], cur))
    decreases |a|
  {
    if a == [] {
      assert a + b == b;
    } else {
      assert (a + b)[1..] == a[1..] + b;
      ChainTail(a[1..], b, cur);
    }
  }

  lemma {:induction false} ChainRemove(a: seq<Tag>, b: seq<Tag>, c: seq<Tag>, cur: Tag)
    requires Chain(a + (b + c), cur)
    ensures Chain(a + c, cur)
    decreases |a|
  {
    if a == [] {
      assert a + (b + c) == b + c && a + c == c;
      ChainTail(b, c, cur);
    } else if |a| == 1 {
      Assoc(a, b, c);
      ChainTail(a + b, c, cur);
      assert (a + c)[1..] == c;
    } else {
      assert (a + (b + c))[1..] == a[1..] + (b + c);
      assert (a + c)[1..] == a[1..] + c;
      ChainRemove(a[1..], b, c, cur);
    }
  }

  lemma {:induction false} ChainReplace(a: seq<Tag>, b: seq<Tag>, c: seq<Tag>, cur: Tag)
    requires Chain(a + b, cur) && AllCurrent(c, cur)
    ensures Chain(a + c, cur)
    decreases |a|, |c|
  {
    if a == [] {
      assert a + c == c;
      if c != [] {
        assert [] + c[1..] == c[1..];
        assert Chain([] + b, cur);
        ChainReplace([], b, c[1..], cur);
      }
    } else {
      assert (a + b)[1..] == a[1..] + b;
      assert (a + c)[1..] == a[1..] + c;
      ChainReplace(a[1..], b, c, cur);
    }
  }

  /** Items may be dropped. */
  lemma TagsRemove(a: seq<Tag>, b: seq<Tag>, c: seq<Tag>, cur: Tag, busy: bool)
    requires TagsOk(a + (b + c), cur, busy)
    ensures TagsOk(a + c, cur, busy)
  {
    ChainRemove(a, b, c, cur);
    if a == [] && c != [] {
      assert a + (b + c) == b + c;
      ChainTail(b, c, cur);
    }
  }

  /** The youngest items may be replaced by current ones. */
  lemma TagsReplace(a: seq<Tag>, b: seq<Tag>, c: seq<Tag>, cur: Tag, busy: bool)
    requires TagsOk(a + b, cur, busy) && AllCurrent(c, cur)
    ensures TagsOk(a + c, cur, busy)
  {
    ChainReplace(a, b, c, cur);
  }

  /** Stage 0 adds a current item behind the decoded instruction a, the tokens b, the parcel c and the
      words d. */
  lemma TagsAppend(a: seq<Tag>, b: seq<Tag>, c: seq<Tag>, d: seq<Tag>, cur: Tag, busy: bool)
    requires TagsOk(a + (b + (c + d)), cur, busy)
    ensures TagsOk(a + (b + (c + (d + [cur]))), cur, busy)
  {
    var x := a + (b + (c + d));
    assert x + [] == x;
    TagsReplace(x, [], [cur], cur, busy);
    Assoc(c, d, [cur]);
    Assoc(b, c + d, [cur]);
    Assoc(a, b + (c + d), [cur]);
  }

  /** Stage 1 turns the fetch unit's items u into v and sends some on. */
  lemma TagsSend(a: seq<Tag>, b: seq<Tag>, u: seq<Tag>, sent: seq<Tag>, v: seq<Tag>, cur: Tag, busy: bool)
    requires TagsOk(a + (b + u), cur, busy) && AllCurrent(sent, cur) && AllCurrent(v, cur)
    ensures TagsOk(a + ((b + sent) + v), cur, busy)
  {
    Assoc(a, b, u);
    AllCurrentConcat(sent, v, cur);
    TagsReplace(a + b, u, sent + v, cur, busy);
    Assoc(b, sent, v);
    Assoc(a, b, sent + v);
  }

  /** Stage 1 drops a stale word t with what it carries. */
  lemma TagsDrop(a: seq<Tag>, b: seq<Tag>, c: seq<Tag>, t: seq<Tag>, rest: seq<Tag>, cur: Tag, busy: bool)
    requires TagsOk(a + (b + (c + (t + rest))), cur, busy)
    ensures TagsOk(a + (b + rest), cur, busy)
  {
    Assoc(c, t, rest);
    Assoc(a, b, (c + t) + rest);
    TagsRemove(a + b, c + t, rest, cur, busy);
    Assoc(a, b, rest);
  }

  /** The last part of a chain is a chain. */
  lemma ChainLast(a: seq<Tag>, b: seq<Tag>, c: seq<Tag>, d: seq<Tag>, cur: Tag)
    requires Chain(a + (b + (c + d)), cur)
    ensures Chain(c + d, cur) && Chain(d, cur)
  {
    Assoc(a, b, c + d);
    ChainTail(a + b, c + d, cur);
    ChainTail(c, d, cur);
  }

  /** Behind a live item everything is live. */
  lemma {:induction false} LiveOnwards(ts: seq<Tag>, cur: Tag)
    requires Chain(ts, cur) && ts != [] && SameEpochs(ts[0], cur)
    ensures AllCurrent(ts, cur)
    decreases |ts|
  {
    if |ts| > 1 {
      LiveOnwards(ts[1..], cur);
    }
  }

  lemma {:induction false} AllCurrentConcat(a: seq<Tag>, b: seq<Tag>, cur: Tag)
    ensures AllCurrent(a + b, cur) <==> AllCurrent(a, cur) && AllCurrent(b, cur)
    decreases |a|
  {
    if a == [] {
      assert a + b == b;
    } else {
      assert (a + b)[1..] == a[1..] + b;
      AllCurrentConcat(a[1..], b, cur);
    }
  }

  lemma {:induction false} NoneCurrentConcat(a: seq<Tag>, b: seq<Tag>, cur: Tag)
    ensures NoneCurrent(a + b, cur) <==> NoneCurrent(a, cur) && NoneCurrent(b, cur)
    decreases |a|
  {
    if a == [] {
      assert a + b == b;
    } else {
      assert (a + b)[1..] == a[1..] + b;
      NoneCurrentConcat(a[1..], b, cur);
    }
  }

  /** An execute flush is raised by a live instruction: what is younger is of its generation, and becomes
      stale as a whole. */
  lemma {:induction false} TagsExecuteFlush(ts: seq<Tag>, cur: Tag)
    requires AllCurrent(ts, cur)
    ensures TagsOk(ts, cur, true)
    ensures TagsOk(ts, Toggle(cur, FromExecute), true) && NoneCurrent(ts, Toggle(cur, FromExecute))
    decreases |ts|
  {
    if ts != [] {
      TagsExecuteFlush(ts[1..], cur);
    }
  }

  /** A write-back flush is raised while the back end is live: at most one execute flush is unfinished. */
  lemma {:induction false} TagsWriteBackFlush(ts: seq<Tag>, cur: Tag)
    requires TagsOk(ts, cur, true)
    ensures TagsOk(ts, Toggle(cur, FromWriteBack), false) && NoneCurrent(ts, Toggle(cur, FromWriteBack))
    decreases |ts|
  {
    if ts != [] {
      TagsWriteBackFlush(ts[1..], cur);
    }
  }

  /** Both stages may flush in the same cycle: the write-back redirect then overrides the one from execute,
      which leaves the same state as the two flushes one after the other. */
  lemma {:induction false} TagsBothFlush(ts: seq<Tag>, cur: Tag)
    requires AllCurrent(ts, cur)
    ensures var cur' := Toggle(Toggle(cur, FromExecute), FromWriteBack);
      TagsOk(ts, cur', false) && NoneCurrent(ts, cur') && cur' == Toggle(Toggle(cur, FromWriteBack), FromExecute)
  {
    TagsExecuteFlush(ts, cur);
    TagsWriteBackFlush(ts, Toggle(cur, FromExecute));
  }
}
