/** The bus side of the core: line evictions as bursts, line reads, and IO operations on one AXI4 master. */
module LineBus {
  import opened Types
  import opened Bits

  /** dwords bytes in a beat, dblocks beats in a line; both are powers of two and a line has at least two
      beats.  The burst counter has eight bits. */
  datatype Geometry = Geometry(logWords: nat, logBlocks: nat)

  function Dwords(g: Geometry): nat { Pow2(g.logWords) }

  function Dblocks(g: Geometry): nat { Pow2(g.logBlocks) }

  function BeatBits(g: Geometry): nat { 8 * Dwords(g) }

  predicate GeometryOk(g: Geometry) { 1 <= g.logBlocks <= 8 }

  /** A dirty line the cache gives back. */
  datatype Evict = Evict(address: nat, data: nat)

  /** An IO operation of the write-back stage; size is the logarithm of the number of bytes. */
  datatype IoReq = IoRead(address: nat, size: nat) | IoWrite(address: nat, data: nat, size: nat)

  /** The read address channel, the write address channel and the write data channel; id 0 is for lines, id 1
      for IO. */
  datatype RdAddr = RdAddr(address: nat, len: nat, id: nat)
  datatype WrAddr = WrAddr(address: nat, len: nat, id: nat)
  datatype Beat = Beat(data: nat, strobe: seq<bool>, last: bool, id: nat)

  /** A write as the memory should see it. */
  datatype Write = LineWrite(line: Evict) | SingleWrite(address: nat, data: nat, size: nat)

  /** The registers rg_burst_count, rg_shift_amount, wr_write_req and rg_read_line_req, the eviction queue, and
      all that has been put on the three channels.  owed is the state of the memory: the lines whose last beat it
      has received and whose response it has not given.  The rest are history variables: the responses passed on
      to the cache, the writes completed, the lines the cache has given back, and the line reads taken from it. */
  datatype Bus = Bus(burst: nat, shift: nat, writeReq: Option<nat>, readReq: Option<RdAddr>, evictions: seq<Evict>,
                     ar: seq<RdAddr>, aw: seq<WrAddr>, w: seq<Beat>, owed: seq<Evict>,
                     acks: seq<bool>, done: seq<Write>, given: seq<Evict>, taken: seq<RdAddr>)

  function Idle(g: Geometry): Bus { Bus(0, BeatBits(g), None, None, [], [], [], [], [], [], [], [], []) }

  /** The test for a conflict: addresses are compared after a shift by dwords + dblocks. */
  predicate SameRegion(g: Geometry, a: nat, b: nat) {
    a / Pow2(Dwords(g) + Dblocks(g)) == b / Pow2(Dwords(g) + Dblocks(g))
  }

  /** Both addresses lie in one line. */
  predicate SameLine(g: Geometry, a: nat, b: nat) { a / (Dwords(g) * Dblocks(g)) == b / (Dwords(g) * Dblocks(g)) }

  // ---------- the data of IO writes ----------

  /** All bytes of a beat are written. */
  function AllLanes(g: Geometry): seq<bool> { seq(Dwords(g), _ => true) }

  /** The bytes of the operation. */
  function Bytes(g: Geometry, size: nat): nat {
    if size % 4 == 0 then 1 else if size % 4 == 1 then 2 else if size % 4 == 2 then 4 else Dwords(g)
  }

  /** duplicate: the low bytes are repeated over the whole beat. */
  function Duplicated(g: Geometry, data: nat, size: nat): seq<bool> {
    var low := ToBits(8 * Bytes(g, size), data);
    seq(BeatBits(g), i requires 0 <= i < BeatBits(g) => low[i % |low|])
  }

  /** The byte offset has 1 + elen / 32 bits. */
  function ByteOffset(g: Geometry, address: nat): nat { address % Pow2(1 + BeatBits(g) / 32) }

  /** << on a bit vector */
  function ShiftLeft(x: seq<bool>, n: nat): (r: seq<bool>)
    ensures |r| == |x|
  {
    seq(|x|, i requires 0 <= i < |x| => if i < n then false else x[i - n])
  }

  /** As many ones as there are bytes, shifted to the byte offset. */
  function Strobe(g: Geometry, address: nat, size: nat): seq<bool> {
    ShiftLeft(ToBits(Dwords(g), Pow2(Bytes(g, size)) - 1), ByteOffset(g, address))
  }

  function IoBeat(g: Geometry, address: nat, data: nat, size: nat): Beat {
    Beat(Val(Duplicated(g, data, size)), Strobe(g, address, size), true, 1)
  }

  // ---------- the rules ----------

  datatype Step = Dirty(e: Evict) | TakeRead(r: RdAddr) | DelayedRead | StartWrite | BurstWrite | InitiateIo(io: IoReq)
                | LineResp(err: bool)

  predicate Can(b: Bus, step: Step) {
    match step
    case Dirty(_) => true
    case TakeRead(_) => b.readReq.None?
    case DelayedRead => b.readReq.Some? && b.writeReq.None?
    case StartWrite => b.burst == 0 && b.evictions != []
    case BurstWrite => b.burst != 0 && b.evictions != []
    case InitiateIo(_) => b.burst == 0
    case LineResp(_) => b.owed != []
  }

  /** Where beat k of a line starts, in bits. */
  function Offset(g: Geometry, k: nat): nat { if k == 0 then 0 else Offset(g, k - 1) + BeatBits(g) }

  /** Beat number k of a line. */
  function BeatData(g: Geometry, data: nat, k: nat): nat { (data / Pow2(Offset(g, k))) % Pow2(BeatBits(g)) }

  function Next(g: Geometry, b: Bus, step: Step): Bus
    requires Can(b, step)
  {
    match step
    case Dirty(e) => b.(evictions := b.evictions + [e], given := b.given + [e])
    case TakeRead(r) =>
      var line := r.(id := 0);
      var b1 := b.(taken := b.taken + [line]);
      if b.writeReq.Some? && SameRegion(g, b.writeReq.value, r.address) then b1.(readReq := Some(line))
      else b1.(ar := b.ar + [line])
    case DelayedRead => b.(ar := b.ar + [b.readReq.value], readReq := None)
    case StartWrite =>
      var e := b.evictions[0];
      b.(burst := 1, writeReq := Some(e.address), aw := b.aw + [WrAddr(e.address, Dblocks(g) - 1, 0)],
         w := b.w + [Beat(e.data % Pow2(BeatBits(g)), AllLanes(g), false, 0)])
    case BurstWrite =>
      var e := b.evictions[0];
      var last := b.burst == Dblocks(g) - 1;
      var beat := Beat((e.data / Pow2(b.shift)) % Pow2(BeatBits(g)), AllLanes(g), last, 0);
      if last then b.(burst := 0, shift := BeatBits(g), writeReq := None, evictions := b.evictions[1..],
                      w := b.w + [beat], owed := b.owed + [e], done := b.done + [LineWrite(e)])
      else b.(burst := b.burst + 1, shift := b.shift + BeatBits(g), w := b.w + [beat])
    case InitiateIo(io) =>
      (match io
      case IoRead(a, _) => b.(ar := b.ar + [RdAddr(a, 0, 1)])
      case IoWrite(a, v, z) =>
        b.(aw := b.aw + [WrAddr(a, 0, 1)], w := b.w + [IoBeat(g, a, v, z)], done := b.done + [SingleWrite(a, v, z)]))
    case LineResp(err) => b.(owed := b.owed[1..], acks := b.acks + [err])
  }

  // ---------- what the memory should see ----------

  /** The first k beats of a line. */
  function LineBeats(g: Geometry, e: Evict, k: nat): (r: seq<Beat>)
    ensures |r| == k
  {
    if k == 0 then [] else LineBeats(g, e, k - 1) + [Beat(BeatData(g, e.data, k - 1), AllLanes(g), k == Dblocks(g), 0)]
  }

  function BeatsOf(g: Geometry, t: Write): seq<Beat> {
    match t
    case LineWrite(e) => LineBeats(g, e, Dblocks(g))
    case SingleWrite(a, v, z) => [IoBeat(g, a, v, z)]
  }

  function AddrOf(g: Geometry, t: Write): WrAddr {
    match t
    case LineWrite(e) => WrAddr(e.address, Dblocks(g) - 1, 0)
    case SingleWrite(a, _, _) => WrAddr(a, 0, 1)
  }

  function AllBeats(g: Geometry, ts: seq<Write>): seq<Beat>
    decreases |ts|
  {
    if ts == [] then [] else AllBeats(g, ts[..|ts| - 1]) + BeatsOf(g, ts[|ts| - 1])
  }

  function AllAddrs(g: Geometry, ts: seq<Write>): seq<WrAddr>
    decreases |ts|
  {
    if ts == [] then [] else AllAddrs(g, ts[..|ts| - 1]) + [AddrOf(g, ts[|ts| - 1])]
  }

  /** The lines among the completed writes, in order. */
  function LinesOf(ts: seq<Write>): seq<Evict>
    decreases |ts|
  {
    if ts == [] then []
    else LinesOf(ts[..|ts| - 1]) + (if ts[|ts| - 1].LineWrite? then [ts[|ts| - 1].line] else [])
  }

  /** The line reads among the read addresses, in order. */
  function LineReads(ar: seq<RdAddr>): seq<RdAddr>
    decreases |ar|
  {
    if ar == [] then []
    else LineReads(ar[..|ar| - 1]) + (if ar[|ar| - 1].id == 0 then [ar[|ar| - 1]] else [])
  }

  function Waiting(b: Bus): seq<RdAddr> { if b.readReq.Some? then [b.readReq.value] else [] }

  /** In every reachable state: the write channels carry complete writes, one after the other, followed by the
      part of the current burst that has been sent; and every line read taken has been sent once, in order,
      but for the one that waits. */
  ghost predicate Inv(g: Geometry, b: Bus) {
    && b.burst < Dblocks(g) && (b.burst > 0 ==> b.evictions != [])
    && b.shift == Offset(g, if b.burst == 0 then 1 else b.burst)
    && b.writeReq == (if b.burst > 0 then Some(b.evictions[0].address) else None)
    && b.w == AllBeats(g, b.done) + (if b.burst > 0 then LineBeats(g, b.evictions[0], b.burst) else [])
    && b.aw == AllAddrs(g, b.done) + (if b.burst > 0 then [AddrOf(g, LineWrite(b.evictions[0]))] else [])
    && (b.readReq.Some? ==> b.readReq.value.id == 0)
    && b.taken == LineReads(b.ar) + Waiting(b)
    && b.given == LinesOf(b.done) + b.evictions
    && |b.acks| <= |LinesOf(b.done)| && b.owed == LinesOf(b.done)[|b.acks|..]
  }

  // ---------- the rules keep it ----------

  lemma DonePlus(g: Geometry, ts: seq<Write>, t: Write)
    ensures AllBeats(g, ts + [t]) == AllBeats(g, ts) + BeatsOf(g, t)
    ensures AllAddrs(g, ts + [t]) == AllAddrs(g, ts) + [AddrOf(g, t)]
    ensures LinesOf(ts + [t]) == LinesOf(ts) + if t.LineWrite? then [t.line] else []
  {
    assert (ts + [t])[..|ts|] == ts;
  }

  lemma ReadsPlus(ar: seq<RdAddr>, r: RdAddr)
    ensures LineReads(ar + [r]) == LineReads(ar) + if r.id == 0 then [r] else []
  {
    assert (ar + [r])[..|ar|] == ar;
  }

  /** Line reads touch nothing of the write side. */
  lemma ReadFrame(g: Geometry, b: Bus, b': Bus)
    requires Inv(g, b) && b' == b.(ar := b'.ar, readReq := b'.readReq, taken := b'.taken)
    requires (b'.readReq.Some? ==> b'.readReq.value.id == 0) && b'.taken == LineReads(b'.ar) + Waiting(b')
    ensures Inv(g, b')
  {
  }

  lemma TakeReadKeeps(g: Geometry, b: Bus, r: RdAddr)
    requires Inv(g, b) && Can(b, TakeRead(r))
    ensures Inv(g, Next(g, b, TakeRead(r)))
  {
    ReadsPlus(b.ar, r.(id := 0));
    NothingToAdd(LineReads(b.ar));
    NothingToAdd(LineReads(b.ar + [r.(id := 0)]));
    ReadFrame(g, b, Next(g, b, TakeRead(r)));
  }

  lemma DelayedReadKeeps(g: Geometry, b: Bus)
    requires Inv(g, b) && Can(b, DelayedRead)
    ensures Inv(g, Next(g, b, DelayedRead))
  {
    ReadsPlus(b.ar, b.readReq.value);
    NothingToAdd(LineReads(b.ar + [b.readReq.value]));
    ReadFrame(g, b, Next(g, b, DelayedRead));
  }

  lemma StartKeeps(g: Geometry, b: Bus)
    requires GeometryOk(g) && Inv(g, b) && Can(b, StartWrite)
    ensures Inv(g, Next(g, b, StartWrite))
  {
    var e := b.evictions[0];
    assert Dblocks(g) == 2 * Pow2(g.logBlocks - 1);
    assert LineBeats(g, e, 0) == [];
    assert Pow2(Offset(g, 0)) == 1 && Offset(g, 1) == BeatBits(g);
    assert LineBeats(g, e, 1) == [Beat(BeatData(g, e.data, 0), AllLanes(g), false, 0)];
    NothingToAdd(AllBeats(g, b.done));
    NothingToAdd(AllAddrs(g, b.done));
  }

  /** One more beat of the burst. */
  lemma OneMoreBeat(g: Geometry, ts: seq<Write>, e: Evict, k: nat)
    ensures AllBeats(g, ts) + LineBeats(g, e, k) + [Beat(BeatData(g, e.data, k), AllLanes(g), k + 1 == Dblocks(g), 0)]
      == AllBeats(g, ts) + LineBeats(g, e, k + 1)
  {
    Assoc(AllBeats(g, ts), LineBeats(g, e, k), [Beat(BeatData(g, e.data, k), AllLanes(g), k + 1 == Dblocks(g), 0)]);
  }

  lemma BurstGoesOn(g: Geometry, b: Bus)
    requires GeometryOk(g) && Inv(g, b) && Can(b, BurstWrite) && b.burst + 1 < Dblocks(g)
    ensures Inv(g, Next(g, b, BurstWrite))
  {
    var e := b.evictions[0];
    OneMoreBeat(g, b.done, e, b.burst);
    assert Next(g, b, BurstWrite)
      == b.(burst := b.burst + 1, shift := Offset(g, b.burst + 1),
            w := b.w + [Beat(BeatData(g, e.data, b.burst), AllLanes(g), false, 0)]);
  }

  lemma BurstEnds(g: Geometry, b: Bus)
    requires GeometryOk(g) && Inv(g, b) && Can(b, BurstWrite) && b.burst + 1 == Dblocks(g)
    ensures Inv(g, Next(g, b, BurstWrite))
  {
    var e := b.evictions[0];
    OneMoreBeat(g, b.done, e, b.burst);
    DonePlus(g, b.done, LineWrite(e));
    DropSnoc(LinesOf(b.done), |b.acks|, e);
    Assoc(LinesOf(b.done), [e], b.evictions[1..]);
    assert b.evictions == [e] + b.evictions[1..];
    NothingToAdd(AllBeats(g, b.done + [LineWrite(e)]));
    NothingToAdd(AllAddrs(g, b.done + [LineWrite(e)]));
  }

  lemma IoReadKeeps(g: Geometry, b: Bus, a: nat, z: nat)
    requires GeometryOk(g) && Inv(g, b) && Can(b, InitiateIo(IoRead(a, z)))
    ensures Inv(g, Next(g, b, InitiateIo(IoRead(a, z))))
  {
    ReadsPlus(b.ar, RdAddr(a, 0, 1));
    NothingToAdd(LineReads(b.ar));
  }

  lemma IoWriteKeeps(g: Geometry, b: Bus, a: nat, v: nat, z: nat)
    requires GeometryOk(g) && Inv(g, b) && Can(b, InitiateIo(IoWrite(a, v, z)))
    ensures Inv(g, Next(g, b, InitiateIo(IoWrite(a, v, z))))
  {
    var done := b.done + [SingleWrite(a, v, z)];
    DonePlus(g, b.done, SingleWrite(a, v, z));
    NothingToAdd(AllBeats(g, b.done));
    NothingToAdd(AllAddrs(g, b.done));
    NothingToAdd(AllBeats(g, done));
    NothingToAdd(AllAddrs(g, done));
    NothingToAdd(LinesOf(b.done));
  }

  lemma DropFirst<T>(s: seq<T>, n: nat)
    requires n < |s|
    ensures s[n..][1..] == s[n + 1..]
  {
  }

  lemma DropSnoc<T>(s: seq<T>, n: nat, x: T)
    requires n <= |s|
    ensures (s + [x])[n..] == s[n..] + [x]
  {
  }

  lemma StepKeeps(g: Geometry, b: Bus, step: Step)
    requires GeometryOk(g) && Inv(g, b) && Can(b, step)
    ensures Inv(g, Next(g, b, step))
  {
    match step
    case Dirty(e) => Assoc(LinesOf(b.done), b.evictions, [e]);
    case TakeRead(r) => TakeReadKeeps(g, b, r);
    case DelayedRead => DelayedReadKeeps(g, b);
    case StartWrite => StartKeeps(g, b);
    case BurstWrite =>
      if b.burst + 1 == Dblocks(g) {
        BurstEnds(g, b);
      } else {
        BurstGoesOn(g, b);
      }
    case InitiateIo(io) =>
      match io {
        case IoRead(a, z) => IoReadKeeps(g, b, a, z);
        case IoWrite(a, v, z) => IoWriteKeeps(g, b, a, v, z);
      }
    case LineResp(_) => DropFirst(LinesOf(b.done), |b.acks|);
  }

  // ---------- runs ----------

  ghost predicate Leads(g: Geometry, b: Bus, steps: seq<Step>, last: Bus)
    decreases |steps|
  {
    if steps == [] then b == last
    else Can(b, steps[0]) && Leads(g, Next(g, b, steps[0]), steps[1..], last)
  }

  lemma {:induction false} RunKeeps(g: Geometry, b: Bus, steps: seq<Step>, last: Bus)
    requires GeometryOk(g) && Inv(g, b) && Leads(g, b, steps, last)
    ensures Inv(g, last)
    decreases |steps|
  {
    if steps != [] {
      StepKeeps(g, b, steps[0]);
      RunKeeps(g, Next(g, b, steps[0]), steps[1..], last);
    }
  }

  lemma IdleOk(g: Geometry)
    requires GeometryOk(g)
    ensures Inv(g, Idle(g))
  {
  }

  /** On every run the write data channel is a sequence of whole writes, each line as a burst of its own beats
      with nothing in between, and then the beats sent so far of the line in progress; the write addresses
      come in the same order. */
  lemma WritesAreWhole(g: Geometry, steps: seq<Step>, b: Bus)
    requires GeometryOk(g) && Leads(g, Idle(g), steps, b)
    ensures b.burst == 0 ==> b.w == AllBeats(g, b.done) && b.aw == AllAddrs(g, b.done)
    ensures b.burst > 0 ==>
      && b.evictions != [] && b.burst < Dblocks(g)
      && b.w == AllBeats(g, b.done) + LineBeats(g, b.evictions[0], b.burst)
      && b.aw == AllAddrs(g, b.done) + [AddrOf(g, LineWrite(b.evictions[0]))]
  {
    IdleOk(g);
    RunKeeps(g, Idle(g), steps, b);
    NothingToAdd(AllBeats(g, b.done));
    NothingToAdd(AllAddrs(g, b.done));
  }

  /** Every line the cache gives back goes out exactly once and in order: the completed bursts and the lines
      still waiting are the lines given, the one in progress being the first of those that wait. */
  lemma LinesInOrder(g: Geometry, steps: seq<Step>, b: Bus)
    requires GeometryOk(g) && Leads(g, Idle(g), steps, b)
    ensures b.given == LinesOf(b.done) + b.evictions
  {
    IdleOk(g);
    RunKeeps(g, Idle(g), steps, b);
  }

  /** The value of the beats of a burst, the first beat being the lowest part of the line. */
  function Joined(g: Geometry, beats: seq<Beat>): nat
    decreases |beats|
  {
    if beats == [] then 0
    else Joined(g, beats[..|beats| - 1]) + Pow2(Offset(g, |beats| - 1)) * beats[|beats| - 1].data
  }

  lemma {:induction false} OffsetIsProduct(g: Geometry, k: nat)
    ensures Offset(g, k) == k * BeatBits(g)
  {
    if k > 0 {
      OffsetIsProduct(g, k - 1);
    }
  }

  /** The counters never overflow: eight bits for the burst, and for the shift as many bits as it takes to
      number the bits of a line. */
  lemma CountersFit(g: Geometry, steps: seq<Step>, b: Bus)
    requires GeometryOk(g) && Leads(g, Idle(g), steps, b)
    ensures b.burst < 256 && b.shift < Pow2(CeilLog2(Dblocks(g) * BeatBits(g)))
  {
    IdleOk(g);
    RunKeeps(g, Idle(g), steps, b);
    AtLeastTwo(g);
    OffsetBelow(g, if b.burst == 0 then 1 else b.burst);
    CeilLog2Spec(Dblocks(g) * BeatBits(g));
  }

  lemma AtLeastTwo(g: Geometry)
    requires GeometryOk(g)
    ensures 2 <= Dblocks(g) <= 256
  {
    Pow2Monotone(1, g.logBlocks);
    Pow2Monotone(g.logBlocks, 8);
    assert Pow2(1) == 2 && Pow2(8) == 256;
  }

  lemma OffsetBelow(g: Geometry, k: nat)
    requires k < Dblocks(g)
    ensures Offset(g, k) < Dblocks(g) * BeatBits(g)
  {
    OffsetIsProduct(g, k);
    Scaled(k, Dblocks(g), BeatBits(g));
  }

  lemma Scaled(k: nat, n: nat, m: nat)
    requires k < n && m > 0
    ensures k * m < n * m
  {
  }

  lemma {:induction false} Pow2Monotone(m: nat, n: nat)
    requires m <= n
    ensures Pow2(m) <= Pow2(n)
    decreases n
  {
    if m < n {
      Pow2Monotone(m, n - 1);
    }
  }

  /** A burst has exactly dblocks beats, as its address says, only the last one is marked, every byte of each is
      written, and put together they are the line. */
  lemma {:induction false} BurstIsTheLine(g: Geometry, e: Evict)
    requires e.data < Pow2(Dblocks(g) * BeatBits(g))
    ensures var beats := BeatsOf(g, LineWrite(e));
      && |beats| == Dblocks(g) && Joined(g, beats) == e.data
      && AddrOf(g, LineWrite(e)).address == e.address && AddrOf(g, LineWrite(e)).len + 1 == |beats|
      && forall k :: 0 <= k < |beats| ==>
           && (beats[k].last <==> k == Dblocks(g) - 1)
           && |beats[k].strobe| == Dwords(g) && forall i :: 0 <= i < Dwords(g) ==> beats[k].strobe[i]
  {
    OffsetIsProduct(g, Dblocks(g));
    JoinedPrefix(g, e, Dblocks(g));
    ModUnique(e.data, Pow2(Offset(g, Dblocks(g))), 0, e.data);
    forall k | 0 <= k < Dblocks(g)
      ensures LineBeats(g, e, Dblocks(g))[k] == Beat(BeatData(g, e.data, k), AllLanes(g), k + 1 == Dblocks(g), 0)
    {
      LineBeatAt(g, e, Dblocks(g), k);
    }
  }

  lemma {:induction false} LineBeatAt(g: Geometry, e: Evict, n: nat, k: nat)
    requires k < n
    ensures LineBeats(g, e, n)[k] == Beat(BeatData(g, e.data, k), AllLanes(g), k + 1 == Dblocks(g), 0)
    decreases n
  {
    if k < n - 1 {
      LineBeatAt(g, e, n - 1, k);
    }
  }

  lemma {:induction false} JoinedPrefix(g: Geometry, e: Evict, n: nat)
    ensures Joined(g, LineBeats(g, e, n)) == e.data % Pow2(Offset(g, n))
    decreases n
  {
    if n == 0 {
      assert Pow2(Offset(g, 0)) == 1;
    } else {
      JoinedPrefix(g, e, n - 1);
      JoinedStep(g, e, n - 1);
      NextBeat(e.data, Offset(g, n - 1), BeatBits(g));
    }
  }

  lemma JoinedStep(g: Geometry, e: Evict, n: nat)
    ensures Joined(g, LineBeats(g, e, n + 1)) == Joined(g, LineBeats(g, e, n))
          + Pow2(Offset(g, n)) * BeatData(g, e.data, n)
  {
    assert LineBeats(g, e, n + 1)[..n] == LineBeats(g, e, n);
  }

  lemma NextBeat(v: nat, m: nat, n: nat)
    ensures v % Pow2(m + n) == v % Pow2(m) + Pow2(m) * ((v / Pow2(m)) % Pow2(n))
  {
    Pow2Sum(m, n);
    ModSplit(v, Pow2(m), Pow2(n));
  }

  lemma ModSplit(v: nat, M: nat, N: nat)
    requires M > 0 && N > 0
    ensures M * N > 0 && v % (M * N) == v % M + M * ((v / M) % N)
  {
    var (q, r) := (v / M, v % M);
    var (q2, r2) := (q / N, q % N);
    Distribute(M, r2, N, q2);
    assert v == q * M + r && q == q2 * N + r2;
    assert N * (q2 * M) == q2 * (M * N);
    assert v == q2 * (M * N) + (r + M * r2);
    Below(r2, N, M);
    ModUnique(v, M * N, q2, r + M * r2);
  }

  lemma Below(r: nat, N: nat, M: nat)
    requires r < N && M > 0
    ensures M * r + M <= M * N && M * N > 0
  {
    assert M * (r + 1) <= M * N;
  }

  // ---------- reads ----------

  /** Every line read taken from the cache is sent exactly once and in order; at most the youngest one
      waits. */
  lemma ReadsInOrder(g: Geometry, steps: seq<Step>, b: Bus)
    requires GeometryOk(g) && Leads(g, Idle(g), steps, b)
    ensures b.taken == LineReads(b.ar) + Waiting(b)
  {
    IdleOk(g);
    RunKeeps(g, Idle(g), steps, b);
  }

  /** For power-of-two sizes one line lies in one region of the conflict test, which is coarser. */
  lemma LineInRegion(g: Geometry, a: nat, b: nat)
    requires SameLine(g, a, b)
    ensures SameRegion(g, a, b)
  {
    var (i, j) := (g.logWords, g.logBlocks);
    AtMostPow2(i);
    AtMostPow2(j);
    Pow2Sum(i, j);
    var rest := Dwords(g) + Dblocks(g) - (i + j);
    Pow2Sum(i + j, rest);
    DivTwice(a, Pow2(i + j), Pow2(rest));
    DivTwice(b, Pow2(i + j), Pow2(rest));
  }

  lemma {:induction false} AtMostPow2(n: nat)
    ensures n < Pow2(n)
  {
    if n > 0 {
      AtMostPow2(n - 1);
    }
  }

  lemma DivTwice(v: nat, M: nat, N: nat)
    requires M > 0 && N > 0
    ensures M * N > 0 && v / (M * N) == (v / M) / N
  {
    ModSplit(v, M, N);
    var (q, r) := (v / M, v % M);
    assert v == q * M + r && q == (q / N) * N + q % N;
    assert v == (q / N) * (M * N) + v % (M * N) by {
      assert ((q / N) * N + q % N) * M == (q / N) * (M * N) + M * (q % N);
    }
    var d := v / (M * N) - q / N;
    assert d * (M * N) == (v / (M * N)) * (M * N) - (q / N) * (M * N);
    assert v == (v / (M * N)) * (M * N) + v % (M * N);
    if d >= 1 {
      AtLeast(d, M * N);
    } else if d <= -1 {
      AtLeast(-d, M * N);
    }
  }

  lemma IoSendsNoLine(g: Geometry, b: Bus, io: IoReq)
    requires Can(b, InitiateIo(io))
    ensures LineReads(Next(g, b, InitiateIo(io)).ar) == LineReads(b.ar)
  {
    if io.IoRead? {
      ReadsPlus(b.ar, RdAddr(io.address, 0, 1));
      NothingToAdd(LineReads(b.ar));
    }
  }

  /** No line read goes on the bus while a burst to its line is in progress. */
  lemma NoReadDuringItsWrite(g: Geometry, steps: seq<Step>, b: Bus, step: Step)
    requires GeometryOk(g) && Leads(g, Idle(g), steps, b) && Can(b, step)
    requires LineReads(Next(g, b, step).ar) != LineReads(b.ar)
    ensures var sent := Next(g, b, step).ar;
      && sent != [] && sent[|sent| - 1].id == 0
      && (b.burst > 0 ==> b.evictions != [] && !SameLine(g, b.evictions[0].address, sent[|sent| - 1].address))
  {
    IdleOk(g);
    RunKeeps(g, Idle(g), steps, b);
    match step
    case TakeRead(r) =>
      if b.burst > 0 && SameLine(g, b.evictions[0].address, r.address) {
        LineInRegion(g, b.evictions[0].address, r.address);
      }
    case InitiateIo(io) => IoSendsNoLine(g, b, io);
    case _ =>
  }
}
