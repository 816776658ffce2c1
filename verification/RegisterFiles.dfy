/** The two register arrays of the core, updated in place: the scoreboard and the integer register file. */
module RegisterFiles {
  import opened Types
  import Isa
  import Scoreboard

  /** mkscoreboard: one entry per register and the rename counter. */
  class LockBoard {
    const entries: array<Scoreboard.SBEntry>
    const ids: nat
    var renameid: nat

    ghost predicate Valid() { ids > 0 }

    ghost function Abs(): Scoreboard.Board
      reads this, entries
    {
      Scoreboard.Board(entries[..], renameid)
    }

    constructor (nregs: nat, ids: nat)
      requires ids > 0
      ensures Valid() && fresh(entries) && this.ids == ids && entries.Length == nregs
      ensures Abs().renameid == 0 && forall r :: 0 <= r < nregs ==> Abs().entries[r] == Scoreboard.SBEntry(false, 0)
    {
      entries := new Scoreboard.SBEntry[nregs](_ => Scoreboard.SBEntry(false, 0));
      this.ids := ids;
      renameid := 0;
    }

    /** ma_lock_rd: x0 is never locked, but every instruction draws an id. */
    method LockRd(rd: nat) returns (id: nat)
      requires Valid()
      modifies this, entries
      ensures Valid() && id == old(renameid) && Abs() == Scoreboard.Lock(old(Abs()), rd, ids)
    {
      id := renameid;
      renameid := if renameid + 1 == ids then 0 else renameid + 1;
      if 0 < rd < entries.Length {
        entries[rd] := Scoreboard.SBEntry(true, id);
      }
    }

    /** ma_release_rd: the lock is opened only by the instruction whose id it carries. */
    method ReleaseRd(rd: nat, id: nat)
      requires Valid()
      modifies entries
      ensures Valid() && Abs() == Scoreboard.Release(old(Abs()), rd, id)
    {
      if 0 < rd < entries.Length {
        var entry := entries[rd];
        if id == entry.id {
          entry := entry.(lock := false);
        }
        entries[rd] := entry;
      }
      assert 0 < rd < entries.Length && old(entries[rd].id) != id ==> entries[..] == old(entries[..]);
    }
  }

  /** mkregisterfile */
  class RegisterFile {
    const xrf: array<Word>

    ghost function Abs(): seq<Word>
      reads xrf
    {
      xrf[..]
    }

    /** initialize_regfile writes zero to every register. */
    constructor (nregs: nat)
      ensures fresh(xrf) && xrf.Length == nregs
      ensures forall r :: 0 <= r < nregs ==> Abs()[r] == 0
    {
      xrf := new Word[nregs];
      new;
      for i := 0 to nregs
        invariant forall r :: 0 <= r < i ==> xrf[r] == 0
      {
        xrf[i] := 0;
      }
    }

    /** read_rs1, read_rs2 and read_rd */
    method ReadRs(addr: nat) returns (v: Word)
      ensures v == Isa.Read(Abs(), addr)
    {
      v := if addr < xrf.Length then xrf[addr] else 0;
    }

    /** commit_rd: x0 stays zero. */
    method CommitRd(addr: nat, data: Word)
      modifies xrf
      ensures Abs() == Isa.Write(old(Abs()), addr, data)
    {
      if 0 < addr < xrf.Length {
        xrf[addr] := data;
      }
    }
  }
}
