/** The scoreboard: one lock and one rename id per register, with ids drawn from a counter that wraps. */
module Scoreboard {

  datatype SBEntry = SBEntry(lock: bool, id: nat)

  datatype Board = Board(entries: seq<SBEntry>, renameid: nat)

  /** An instruction between issue and write-back, oldest first in a sequence of these.  `serial` counts
      issues without wrapping; its rename id is the serial reduced to the number of ids. */
  datatype Holder = Holder(rd: nat, serial: nat)

  /** The value of a counter with `ids` values after n increments. */
  function Wrap(n: nat, ids: nat): (id: nat)
    requires ids > 0
    ensures id < ids
    decreases n
  {
    if n < ids then n else Wrap(n - ids, ids)
  }

  function Increment(id: nat, ids: nat): nat { if id + 1 == ids then 0 else id + 1 }

  /** ma_lock_rd: lock rd (unless it is x0) under the current id; the caller receives b.renameid. */
  function Lock(b: Board, rd: nat, ids: nat): Board
    requires ids > 0
  {
    Board(if 0 < rd < |b.entries| then b.entries[rd := SBEntry(true, b.renameid)] else b.entries,
          Increment(b.renameid, ids))
  }

  /** ma_release_rd: unlock rd if the lock is still the caller's. */
  function Release(b: Board, rd: nat, id: nat): Board {
    if 0 < rd < |b.entries| && b.entries[rd].id == id
    then b.(entries := b.entries[rd := b.entries[rd].(lock := false)]) else b
  }

  /** The position of the youngest holder of r, or -1. */
  function Youngest(fl: seq<Holder>, r: nat): int
    decreases |fl|
  {
    if fl == [] then -1
    else if fl[|fl| - 1].rd == r then |fl| - 1
    else Youngest(fl[..|fl| - 1], r)
  }

  predicate IsYoungest(fl: seq<Holder>, r: nat, k: int) {
    && -1 <= k < |fl|
    && (k >= 0 ==> fl[k].rd == r)
    && forall j :: k < j < |fl| ==> fl[j].rd != r
  }

  /** In every reachable state: serials are consecutive, no more instructions are in flight than there are
      ids, and a register is locked exactly when it has a holder, under the id of the youngest one. */
  ghost predicate Inv(b: Board, fl: seq<Holder>, issued: nat, ids: nat) {
    && 0 < ids && |fl| <= ids && |fl| <= issued
    && b.renameid == Wrap(issued, ids)
    && (forall k :: 0 <= k < |fl| ==> fl[k].serial == issued - |fl| + k)
    && (forall r :: 0 <= r < |b.entries| ==> EntryOk(b.entries[r], fl, r, ids))
  }

  predicate EntryOk(e: SBEntry, fl: seq<Holder>, r: nat, ids: nat)
    requires ids > 0
  {
    if r == 0 then !e.lock
    else
      && (e.lock <==> Youngest(fl, r) >= 0)
      && (Youngest(fl, r) >= 0 ==> Youngest(fl, r) < |fl| && e.id == Wrap(fl[Youngest(fl, r)].serial, ids))
  }

  lemma {:induction false} YoungestSpec(fl: seq<Holder>, r: nat)
    ensures IsYoungest(fl, r, Youngest(fl, r))
    decreases |fl|
  {
    if fl != [] && fl[|fl| - 1].rd != r {
      YoungestSpec(fl[..|fl| - 1], r);
    }
  }

  lemma YoungestUnique(fl: seq<Holder>, r: nat, k: int)
    requires IsYoungest(fl, r, k)
    ensures Youngest(fl, r) == k
  {
    YoungestSpec(fl, r);
  }

  /** Two serials less than `ids` apart have different ids. */
  lemma {:induction false} SameId(a: nat, b: nat, ids: nat)
    requires 0 < ids && a <= b < a + ids && Wrap(a, ids) == Wrap(b, ids)
    ensures a == b
    decreases b
  {
    if a >= ids {
      SameId(a - ids, b - ids, ids);
    }
  }

  /** The rename ids of the instructions in flight are pairwise distinct, although the counter wraps. */
  lemma IdsDistinct(b: Board, fl: seq<Holder>, issued: nat, ids: nat, i: nat, j: nat)
    requires Inv(b, fl, issued, ids) && i < j < |fl|
    ensures Wrap(fl[i].serial, ids) != Wrap(fl[j].serial, ids)
  {
    if Wrap(fl[i].serial, ids) == Wrap(fl[j].serial, ids) {
      SameId(fl[i].serial, fl[j].serial, ids);
    }
  }

  lemma LockKeeps(b: Board, fl: seq<Holder>, issued: nat, ids: nat, rd: nat)
    requires Inv(b, fl, issued, ids) && |fl| < ids
    ensures Inv(Lock(b, rd, ids), fl + [Holder(rd, issued)], issued + 1, ids)
  {
    var fl' := fl + [Holder(rd, issued)];
    var b' := Lock(b, rd, ids);
    assert fl'[..|fl'| - 1] == fl;
    NextId(issued, ids);
    forall r | 0 <= r < |b'.entries|
      ensures EntryOk(b'.entries[r], fl', r, ids)
    {
      assert EntryOk(b.entries[r], fl, r, ids);
    }
  }

  lemma {:induction false} NextId(n: nat, ids: nat)
    requires ids > 0
    ensures Increment(Wrap(n, ids), ids) == Wrap(n + 1, ids)
    decreases n
  {
    if n >= ids {
      NextId(n - ids, ids);
    }
  }

  /** Releasing the oldest instruction never clears a younger one's lock; and not releasing it is harmless
      when it writes no register. */
  lemma ReleaseKeeps(b: Board, fl: seq<Holder>, issued: nat, ids: nat)
    requires Inv(b, fl, issued, ids) && fl != []
    ensures Inv(Release(b, fl[0].rd, Wrap(fl[0].serial, ids)), fl[1..], issued, ids)
    ensures fl[0].rd == 0 ==> Inv(b, fl[1..], issued, ids)
  {
    var b' := Release(b, fl[0].rd, Wrap(fl[0].serial, ids));
    forall r | 0 <= r < |b'.entries|
      ensures EntryOk(b'.entries[r], fl[1..], r, ids)
      ensures fl[0].rd == 0 ==> EntryOk(b.entries[r], fl[1..], r, ids)
    {
      assert EntryOk(b.entries[r], fl, r, ids);
      YoungestSpec(fl, r);
      var k := Youngest(fl, r);
      YoungestUnique(fl[1..], r, if k >= 1 then k - 1 else -1);
      if k > 0 {
        IdsDistinct(b, fl, issued, ids, 0, k);
      }
    }
  }
}
