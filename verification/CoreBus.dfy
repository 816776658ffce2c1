/** The bus registers of the core, updated in place. */
module CoreBus {
  import opened Types
  import opened Bits
  import opened LineBus
  import IoLanes

  class BusMaster {
    const g: Geometry
    var rgBurstCount: nat
    var rgShiftAmount: nat
    var wrWriteReq: Option<nat>
    var rgReadLineReq: Option<RdAddr>
    var evictions: seq<Evict>

    // everything put on the channels
    var ar: seq<RdAddr>
    var aw: seq<WrAddr>
    var w: seq<Beat>

    // the memory: lines received and not yet answered
    ghost var owed: seq<Evict>

    // history
    ghost var acks: seq<bool>
    ghost var done: seq<Write>
    ghost var given: seq<Evict>
    ghost var taken: seq<RdAddr>

    ghost function Abs(): Bus
      reads this
    {
      Bus(rgBurstCount, rgShiftAmount, wrWriteReq, rgReadLineReq, evictions, ar, aw, w, owed, acks, done, given, taken)
    }

    constructor (g: Geometry)
      requires GeometryOk(g)
      ensures this.g == g && Abs() == Idle(g) && Inv(g, Abs())
    {
      this.g := g;
      rgBurstCount, rgShiftAmount, wrWriteReq, rgReadLineReq := 0, 8 * Pow2(g.logWords), None, None;
      evictions, ar, aw, w := [], [], [], [];
      owed, acks, done, given, taken := [], [], [], [], [];
    }

    /** The cache gives a line back. */
    method Dirty(e: Evict)
      modifies this`evictions, this`given
      ensures Abs() == Next(g, old(Abs()), Step.Dirty(e))
    {
      evictions := evictions + [e];
      given := given + [e];
    }

    /** rl_handle_dmem_line_read_request: a read of the line being written is put aside. */
    method HandleReadRequest(req: RdAddr)
      requires Can(Abs(), TakeRead(req))
      modifies this`ar, this`rgReadLineReq, this`taken
      ensures Abs() == Next(g, old(Abs()), TakeRead(req))
    {
      var performReq := true;
      var dmemRequest := req.(id := 0);
      var scale := Pow2(Pow2(g.logWords) + Pow2(g.logBlocks));
      if wrWriteReq.Some? && wrWriteReq.value / scale == req.address / scale {
        performReq := false;
        rgReadLineReq := Some(dmemRequest);
      }
      if performReq {
        ar := ar + [dmemRequest];
      }
      taken := taken + [dmemRequest];
    }

    /** rl_handle_delayed_read */
    method HandleDelayedRead()
      requires Can(Abs(), DelayedRead)
      modifies this`ar, this`rgReadLineReq
      ensures Abs() == Next(g, old(Abs()), DelayedRead)
    {
      ar := ar + [rgReadLineReq.value];
      rgReadLineReq := None;
    }

    /** rl_handle_dmem_write_request: the address and the first beat. */
    method HandleWriteRequest()
      requires GeometryOk(g) && Can(Abs(), StartWrite)
      modifies this`rgBurstCount, this`wrWriteReq, this`aw, this`w
      ensures Abs() == Next(g, old(Abs()), StartWrite)
    {
      var req := evictions[0];
      var burstLen := Pow2(g.logBlocks) - 1;
      rgBurstCount := rgBurstCount + 1;
      aw := aw + [WrAddr(req.address, burstLen, 0)];
      assert Pow2(g.logBlocks) == 2 * Pow2(g.logBlocks - 1);
      w := w + [Beat(req.data % Pow2(8 * Pow2(g.logWords)), AllLanes(g), burstLen == 0, 0)];
      if burstLen != 0 {
        wrWriteReq := Some(req.address);
      }
    }

    /** rl_dmem_burst_write_data: the next beat, and the end of the burst. */
    method BurstWriteData()
      requires Can(Abs(), BurstWrite)
      modifies this
      ensures Abs() == Next(g, old(Abs()), BurstWrite)
    {
      var last := rgBurstCount == Pow2(g.logBlocks) - 1;
      var req := evictions[0];
      var data := req.data / Pow2(rgShiftAmount);
      w := w + [Beat(data % Pow2(8 * Pow2(g.logWords)), AllLanes(g), last, 0)];
      if last {
        rgBurstCount := 0;
        rgShiftAmount := 8 * Pow2(g.logWords);
        wrWriteReq := None;
        evictions := evictions[1..];
        owed := owed + [req];
        done := done + [LineWrite(req)];
      } else {
        rgShiftAmount := rgShiftAmount + 8 * Pow2(g.logWords);
        rgBurstCount := rgBurstCount + 1;
      }
    }

    /** The data of a narrow write is repeated on all lanes. */
    method DuplicateData(data: nat, size: nat) returns (wide: seq<bool>)
      ensures wide == Duplicated(g, data, size)
    {
      var low := ToBits(if size % 4 == 0 then 8 else if size % 4 == 1 then 16 else if size % 4 == 2 then 32
                        else 8 * Pow2(g.logWords), data);
      var n := 8 * Pow2(g.logWords);
      wide := seq(n, i requires 0 <= i < n => low[i % |low|]);
    }

    /** The write strobe: one bit for each byte, shifted to the byte offset. */
    method WriteStrobe(address: nat, size: nat) returns (strobe: seq<bool>)
      ensures strobe == Strobe(g, address, size)
    {
      var ones := if size % 4 == 0 then 1 else if size % 4 == 1 then 3 else if size % 4 == 2 then 0xf
                  else Pow2(Pow2(g.logWords)) - 1;
      assert Pow2(1) == 2 && Pow2(2) == 4 && Pow2(4) == 16;
      var byteOffset := address % Pow2(1 + 8 * Pow2(g.logWords) / 32);
      strobe := ShiftLeft(ToBits(Pow2(g.logWords), ones), byteOffset);
    }

    /** The address and the only beat of an IO write. */
    method SendIoWrite(address: nat, data: nat, size: nat)
      modifies this`aw, this`w, this`done
      ensures aw == old(aw) + [WrAddr(address, 0, 1)] && w == old(w) + [IoBeat(g, address, data, size)]
      ensures done == old(done) + [SingleWrite(address, data, size)]
      ensures |w| > 0 && w[|w| - 1].id == 1
      ensures IoLanes.Placed(g, address, size) ==>
        IoLanes.Carries(g, w[|w| - 1], address, data, IoLanes.OperationBytes(size))
    {
      if IoLanes.Placed(g, address, size) {
        IoLanes.IoWriteLanes(g, address, data, size);
      }
      var wide := DuplicateData(data, size);
      var strobe := WriteStrobe(address, size);
      aw := aw + [WrAddr(address, 0, 1)];
      w := w + [Beat(Val(wide), strobe, true, 1)];
      done := done + [SingleWrite(address, data, size)];
    }

    /** rl_initiate_io: the operation goes out under its own address, and a write with its own data. */
    method InitiateIo(req: IoReq)
      requires Can(Abs(), Step.InitiateIo(req))
      modifies this`ar, this`aw, this`w, this`done
      ensures Abs() == Next(g, old(Abs()), Step.InitiateIo(req))
      ensures req.IoRead? ==> ar == old(ar) + [RdAddr(req.address, 0, 1)] && aw == old(aw) && w == old(w)
      ensures req.IoWrite? ==>
        && ar == old(ar) && aw == old(aw) + [WrAddr(req.address, 0, 1)]
        && |w| == |old(w)| + 1 && w[..|w| - 1] == old(w) && w[|w| - 1].id == 1
        && (IoLanes.Placed(g, req.address, req.size) ==>
              IoLanes.Carries(g, w[|w| - 1], req.address, req.data, IoLanes.OperationBytes(req.size)))
    {
      match req {
        case IoRead(address, _) => ar := ar + [RdAddr(address, 0, 1)];
        case IoWrite(address, data, size) => SendIoWrite(address, data, size);
      }
    }

    /** handle_dmem_line_write_resp: nothing but passing the response on. */
    method HandleWriteResp(err: bool) returns (busError: bool)
      requires Can(Abs(), LineResp(err))
      modifies this`owed, this`acks
      ensures busError == err && Abs() == Next(g, old(Abs()), LineResp(err))
    {
      busError := err;
      acks := acks + [busError];
      owed := owed[1..];
    }
  }
}
