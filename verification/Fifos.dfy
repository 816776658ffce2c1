/** The queues between stages 3, 4 and 5: results are split over one queue per unit, under one order
    queue. */
module Fifos {
  import opened Types
  import opened Pipeline
  import Bypass

  /** The unit that holds the result of an instruction. */
  datatype FuType = FuBase | FuTrap | FuSystem | FuMemory | FuMuldiv | FuPsimd

  datatype FUid = FUid(pc: Pc, rd: nat, epochs: bool, insttype: FuType, id: nat)

  datatype BaseOut = BaseOut(rdvalue: Word, rd: nat, epochs: bool, id: nat)

  datatype TrapOut = TrapOut(cause: nat, mtval: Word, isMicrotrap: bool)

  datatype SystemOut = SystemOut(ins: Instr, rs1: Word)

  datatype MemoryOut = MemoryOut(access: Access)

  datatype MBoxIn = MBoxIn(ins: Instr, in1: Word, in2: Word)

  datatype PBoxIn = PBoxIn(ins: Instr, rs1: Word, rs2: Word, rd: Word)

  datatype WBMemop = WBMemop(access: Access, io: bool, atomicData: Word)

  /** fn_fu2cu: results of the multi-cycle units are committed from the base queue. */
  function FnFu2Cu(f: FUid): FUid {
    match f.insttype
    case FuMuldiv => f.(insttype := FuBase)
    case FuPsimd => f.(insttype := FuBase)
    case _ => f
  }

  // ---------- what one instruction contributes to each queue ----------

  function UnitOf(out: Out): FuType {
    match out
    case Base(_) => FuBase
    case Trap(_, _, _) => FuTrap
    case System => FuSystem
    case Memory => FuMemory
    case MulDiv => FuMuldiv
    case Psimd => FuPsimd
    case MemOp(_, _) => FuMemory
  }

  function FuidOf(e: Entry): Option<FUid> { Some(FUid(e.pc, e.ins.rd, e.w, UnitOf(e.out), e.id)) }

  function BaseOf(e: Entry): Option<BaseOut> {
    if e.out.Base? then Some(BaseOut(e.out.value, e.ins.rd, e.w, e.id)) else None
  }

  function TrapOf(e: Entry): Option<TrapOut> {
    if e.out.Trap? then Some(TrapOut(e.out.cause, e.out.tval, e.out.rerun)) else None
  }

  function SystemOf(e: Entry): Option<SystemOut> { if e.out.System? then Some(SystemOut(e.ins, e.op1)) else None }

  function MemoryOf(e: Entry): Option<MemoryOut> { if e.out.Memory? then Some(MemoryOut(e.ins.access)) else None }

  function MuldivOf(e: Entry): Option<MBoxIn> { if e.out.MulDiv? then Some(MBoxIn(e.ins, e.op1, e.op2)) else None }

  function PsimdOf(e: Entry): Option<PBoxIn> {
    if e.out.Psimd? then Some(PBoxIn(e.ins, e.op1, e.op2, e.opd)) else None
  }

  function MemopOf(e: Entry): Option<WBMemop> {
    if e.out.MemOp? then Some(WBMemop(e.ins.access, e.out.io, e.out.word)) else None
  }

  /** The order-preserving projection of the instructions in flight onto one queue. */
  function Project<T>(x: seq<Entry>, f: Entry -> Option<T>): seq<T>
    decreases |x|
  {
    if x == [] then [] else (if f(x[0]).Some? then [f(x[0]).value] else []) + Project(x[1..], f)
  }

  lemma {:induction false} ProjectSnoc<T>(x: seq<Entry>, e: Entry, f: Entry -> Option<T>)
    ensures Project(x + [e], f) == Project(x, f) + (if f(e).Some? then [f(e).value] else [])
    decreases |x|
  {
    if x == [] {
      assert x + [e] == [e];
      assert [e][1..] == [];
    } else {
      assert (x + [e])[1..] == x[1..] + [e];
      ProjectSnoc(x[1..], e, f);
      var (head, last) := (if f(x[0]).Some? then [f(x[0]).value] else [], if f(e).Some? then [f(e).value] else []);
      Assoc(head, Project(x[1..], f), last);
    }
  }

  /** No queue is longer than the order queue: when that one has room, so have the others. */
  lemma {:induction false} ProjectBound<T>(x: seq<Entry>, f: Entry -> Option<T>)
    ensures |Project(x, f)| <= |x|
    decreases |x|
  {
    if x != [] {
      ProjectBound(x[1..], f);
    }
  }

  /** How many of the first i instructions have something in the queue. */
  function Rank<T>(x: seq<Entry>, f: Entry -> Option<T>, i: nat): nat
    requires i <= |x|
  {
    |Project(x[..i], f)|
  }

  /** Nothing is lost, duplicated or swapped: the contribution of the i-th instruction stands in the queue
      behind those of the older ones. */
  lemma {:induction false} ProjectAt<T>(x: seq<Entry>, f: Entry -> Option<T>, i: nat)
    requires i < |x| && f(x[i]).Some?
    ensures Rank(x, f, i) < |Project(x, f)| && Project(x, f)[Rank(x, f, i)] == f(x[i]).value
    decreases |x|
  {
    if i > 0 {
      assert x[..i][1..] == x[1..][..i - 1];
      ProjectAt(x[1..], f, i - 1);
    }
  }

  /** rl_gen_bypass: the head of the base queue, unless it writes no register. */
  function GenBypass(base: seq<BaseOut>): Bypass.FwdType {
    if base == [] then Bypass.FwdType(false, 0, 0, false, 0)
    else Bypass.FwdType(base[0].rd != 0, base[0].rd, base[0].rdvalue, base[0].epochs, base[0].id)
  }

  lemma {:induction false} BypassIsOffer(x: seq<Entry>)
    ensures GenBypass(Project(x, BaseOf)) == Offer(x)
    decreases |x|
  {
    if x != [] && !x[0].out.Base? {
      BypassIsOffer(x[1..]);
    }
  }

  // ---------- the inter-stage buffers ----------

  /** The queues of mkPipe_s3_s4, with those of the multi-cycle units. */
  datatype Isb34 = Isb34(fuid: seq<FUid>, base: seq<BaseOut>, trap: seq<TrapOut>, system: seq<SystemOut>,
                         memory: seq<MemoryOut>, mbox: seq<MBoxIn>, pbox: seq<PBoxIn>)

  /** The queues of mkPipe_s4_s5. */
  datatype Isb45 = Isb45(fuid: seq<FUid>, base: seq<BaseOut>, trap: seq<TrapOut>, system: seq<SystemOut>,
                         memio: seq<WBMemop>)

  /** What the buffers hold when the instructions x are between the stages. */
  function Split34(x: seq<Entry>): Isb34 {
    Isb34(Project(x, FuidOf), Project(x, BaseOf), Project(x, TrapOf), Project(x, SystemOf),
          Project(x, MemoryOf), Project(x, MuldivOf), Project(x, PsimdOf))
  }

  function Split45(x: seq<Entry>): Isb45 {
    Isb45(Project(x, FuidOf), Project(x, BaseOf), Project(x, TrapOf), Project(x, SystemOf), Project(x, MemopOf))
  }

  /** What is enqueued beside the order entry. */
  datatype Payload = ForBase(value: Word) | ForTrap(trap: TrapOut) | ForSystem(system: SystemOut)
                   | ForMemory(memory: MemoryOut) | ForMuldiv(mul: MBoxIn) | ForPsimd(simd: PBoxIn)
                   | ForMemop(memop: WBMemop)

  function PayloadOf(e: Entry): Payload {
    match e.out
    case Base(v) => ForBase(v)
    case Trap(c, v, r) => ForTrap(TrapOut(c, v, r))
    case System => ForSystem(SystemOut(e.ins, e.op1))
    case Memory => ForMemory(MemoryOut(e.ins.access))
    case MulDiv => ForMuldiv(MBoxIn(e.ins, e.op1, e.op2))
    case Psimd => ForPsimd(PBoxIn(e.ins, e.op1, e.op2, e.opd))
    case MemOp(io, word) => ForMemop(WBMemop(e.ins.access, io, word))
  }

  /** The order entry goes into the order queue, the payload into the queue of its unit. */
  function Enq34(b: Isb34, f: FUid, p: Payload): Isb34 {
    var b1 := b.(fuid := b.fuid + [f]);
    match p
    case ForBase(v) => b1.(base := b.base + [BaseOut(v, f.rd, f.epochs, f.id)])
    case ForTrap(t) => b1.(trap := b.trap + [t])
    case ForSystem(s) => b1.(system := b.system + [s])
    case ForMemory(m) => b1.(memory := b.memory + [m])
    case ForMuldiv(x) => b1.(mbox := b.mbox + [x])
    case ForPsimd(x) => b1.(pbox := b.pbox + [x])
    case ForMemop(_) => b1
  }

  function Enq45(b: Isb45, f: FUid, p: Payload): Isb45 {
    var b1 := b.(fuid := b.fuid + [f]);
    match p
    case ForBase(v) => b1.(base := b.base + [BaseOut(v, f.rd, f.epochs, f.id)])
    case ForTrap(t) => b1.(trap := b.trap + [t])
    case ForSystem(s) => b1.(system := b.system + [s])
    case ForMemop(m) => b1.(memio := b.memio + [m])
    case _ => b1
  }

  /** A projection does not change when an instruction without a share in it enters. */
  lemma ProjectSame<T>(x: seq<Entry>, e: Entry, f: Entry -> Option<T>)
    requires f(e).None?
    ensures Project(x + [e], f) == Project(x, f)
  {
    ProjectSnoc(x, e, f);
    NothingToAdd(Project(x, f));
  }

  /** The buffers stay the projections when an instruction enters at the end. */
  lemma Split34Snoc(x: seq<Entry>, e: Entry)
    ensures Split34(x + [e]) == Enq34(Split34(x), FuidOf(e).value, PayloadOf(e))
  {
    ProjectSnoc(x, e, FuidOf);
    if e.out.Base? { ProjectSnoc(x, e, BaseOf); } else { ProjectSame(x, e, BaseOf); }
    if e.out.Trap? { ProjectSnoc(x, e, TrapOf); } else { ProjectSame(x, e, TrapOf); }
    if e.out.System? { ProjectSnoc(x, e, SystemOf); } else { ProjectSame(x, e, SystemOf); }
    if e.out.Memory? { ProjectSnoc(x, e, MemoryOf); } else { ProjectSame(x, e, MemoryOf); }
    if e.out.MulDiv? { ProjectSnoc(x, e, MuldivOf); } else { ProjectSame(x, e, MuldivOf); }
    if e.out.Psimd? { ProjectSnoc(x, e, PsimdOf); } else { ProjectSame(x, e, PsimdOf); }
  }

  lemma Split45Snoc(x: seq<Entry>, e: Entry)
    ensures Split45(x + [e]) == Enq45(Split45(x), FuidOf(e).value, PayloadOf(e))
  {
    ProjectSnoc(x, e, FuidOf);
    if e.out.Base? { ProjectSnoc(x, e, BaseOf); } else { ProjectSame(x, e, BaseOf); }
    if e.out.Trap? { ProjectSnoc(x, e, TrapOf); } else { ProjectSame(x, e, TrapOf); }
    if e.out.System? { ProjectSnoc(x, e, SystemOf); } else { ProjectSame(x, e, SystemOf); }
    if e.out.MemOp? { ProjectSnoc(x, e, MemopOf); } else { ProjectSame(x, e, MemopOf); }
  }

  /** The oldest instruction leaves: its order entry and its payload are at the heads of their queues. */
  lemma Split34Pop(x: seq<Entry>)
    requires x != []
    ensures var (b, c) := (Split34(x), Split34(x[1..]));
      && b.fuid == [FuidOf(x[0]).value] + c.fuid
      && (if x[0].out.Base? then b.base == [BaseOf(x[0]).value] + c.base else b.base == c.base)
      && (if x[0].out.Trap? then b.trap == [TrapOf(x[0]).value] + c.trap else b.trap == c.trap)
      && (if x[0].out.System? then b.system == [SystemOf(x[0]).value] + c.system else b.system == c.system)
      && (if x[0].out.Memory? then b.memory == [MemoryOf(x[0]).value] + c.memory else b.memory == c.memory)
      && (if x[0].out.MulDiv? then b.mbox == [MuldivOf(x[0]).value] + c.mbox else b.mbox == c.mbox)
      && (if x[0].out.Psimd? then b.pbox == [PsimdOf(x[0]).value] + c.pbox else b.pbox == c.pbox)
  {
  }

  lemma Split45Pop(x: seq<Entry>)
    requires x != []
    ensures var (b, c) := (Split45(x), Split45(x[1..]));
      && b.fuid == [FuidOf(x[0]).value] + c.fuid
      && (if x[0].out.Base? then b.base == [BaseOf(x[0]).value] + c.base else b.base == c.base)
      && (if x[0].out.Trap? then b.trap == [TrapOf(x[0]).value] + c.trap else b.trap == c.trap)
      && (if x[0].out.System? then b.system == [SystemOf(x[0]).value] + c.system else b.system == c.system)
      && (if x[0].out.MemOp? then b.memio == [MemopOf(x[0]).value] + c.memio else b.memio == c.memio)
  {
  }

  /** Before stage 4 no memory operation has been answered; behind it every instruction has. */
  predicate Open34(x: seq<Entry>)
    decreases |x|
  {
    x == [] || (!x[0].out.MemOp? && Open34(x[1..]))
  }

  predicate Answered(out: Out) { out.Base? || out.Trap? || out.System? || out.MemOp? }

  predicate Closed45(x: seq<Entry>)
    decreases |x|
  {
    x == [] || (Answered(x[0].out) && Closed45(x[1..]))
  }

  lemma {:induction false} OpenSnoc(x: seq<Entry>, e: Entry)
    requires Open34(x) && !e.out.MemOp?
    ensures Open34(x + [e])
    decreases |x|
  {
    if x == [] {
      assert x + [e] == [e];
    } else {
      assert (x + [e])[1..] == x[1..] + [e];
      OpenSnoc(x[1..], e);
    }
  }

  lemma {:induction false} ClosedSnoc(x: seq<Entry>, e: Entry)
    requires Closed45(x) && Answered(e.out)
    ensures Closed45(x + [e])
    decreases |x|
  {
    if x == [] {
      assert x + [e] == [e];
    } else {
      assert (x + [e])[1..] == x[1..] + [e];
      ClosedSnoc(x[1..], e);
    }
  }

  predicate Fits34(b: Isb34, x: seq<Entry>) { b == Split34(x) && Open34(x) }

  predicate Fits45(b: Isb45, x: seq<Entry>) { b == Split45(x) && Closed45(x) }
}
