/** Operand bypass: the choice between the heads of the two downstream result queues and the register
    file. */
module Bypass {
  import opened Types

  /** A value offered to the execute stage. */
  datatype FwdType = FwdType(valid: bool, addr: nat, data: Word, epochs: bool, id: nat)

  /** The operand wanted, with the lock and the id the scoreboard holds for it. */
  datatype BypassReq = BypassReq(rd: nat, epochs: bool, lock: bool, id: nat)

  predicate Hit(req: BypassReq, fwd: FwdType) {
    fwd.valid && fwd.addr == req.rd && fwd.epochs == req.epochs && fwd.id == req.id
  }

  /** Whether the operand can be used, and its value: the youngest source that hits wins. */
  function Choose(req: BypassReq, fwd: seq<FwdType>): (bool, Word)
    requires |fwd| == 3
  {
    (Hit(req, fwd[0]) || Hit(req, fwd[1]) || !req.lock,
     if Hit(req, fwd[0]) then fwd[0].data else if Hit(req, fwd[1]) then fwd[1].data else fwd[2].data)
  }

  /** fn_bypass: the choice bits are set one by one, then decoded. */
  method FnBypass(req: BypassReq, fwd: seq<FwdType>) returns (available: bool, data: Word)
    requires |fwd| == 3
    ensures (available, data) == Choose(req, fwd)
  {
    var choice := [false, false];
    for i := 0 to 2
      invariant |choice| == 2
      invariant forall k :: 0 <= k < i ==> choice[k] == Hit(req, fwd[k])
    {
      choice := choice[i := fwd[i].valid && fwd[i].addr == req.rd
                            && fwd[i].epochs == req.epochs && fwd[i].id == req.id];
    }
    available := choice[0] || choice[1] || !req.lock;
    data := if choice[0] then fwd[0].data else if choice[1] then fwd[1].data else fwd[2].data;
  }
}
