/** Words, addresses, epoch tags and decoded instructions shared by all stages of the pipeline. */
module Types {

  datatype Option<+T> = None | Some(value: T)

  /** The machine is RV64: data words and addresses are 64 bits wide and wrap around. */
  const WORD_MOD: nat := 0x1_0000_0000_0000_0000

  type Word = x: int | 0 <= x < WORD_MOD

  /** Instruction addresses are 2-byte aligned: the C extension is on (misa.C = 1). */
  type Pc = p: int | 0 <= p < WORD_MOD && p % 2 == 0

  /** One 16-bit parcel of the instruction stream. */
  type Half = h: int | 0 <= h < 0x1_0000

  /** The control and status registers, seen as one number: only opaque functions read or write it. */
  type Csr = int

  function Plus2(p: Pc): Pc { (p + 2) % WORD_MOD }

  function Plus4(p: Pc): Pc { (p + 4) % WORD_MOD }

  /** The 4-byte aligned word that holds p. */
  function WordAddr(p: Pc): Pc { p - p % 4 }

  /** p addresses the upper parcel of its word. */
  predicate IsUpper(p: Pc) { p % 4 == 2 }

  /** The upper parcel of an aligned word; the hardware sets bit 1. */
  function UpperOf(a: Pc): Pc { if IsUpper(a) then a else a + 2 }

  /** A parcel whose two low bits are 11 starts a 32-bit instruction. */
  predicate Is32(h: Half) { h % 4 == 3 }

  /** The epoch pair {eEpoch, wEpoch} a fetched item carries.  `born` is a history variable: the
      number of flushes that had happened when the item was fetched; no decision reads it. */
  datatype Tag = Tag(e: bool, w: bool, born: nat)

  /** The comparison every stage makes: both epoch bits agree. */
  predicate SameEpochs(t: Tag, cur: Tag) { t.e == cur.e && t.w == cur.w }

  /** Who raised a flush: the execute stage toggles eEpoch, the write-back stage wEpoch. */
  datatype Flusher = FromExecute | FromWriteBack

  function Toggle(cur: Tag, who: Flusher): Tag {
    match who
    case FromExecute => Tag(!cur.e, cur.w, cur.born + 1)
    case FromWriteBack => Tag(cur.e, !cur.w, cur.born + 1)
  }

  datatype IType = ALU | BRANCH | JAL | JALR | MEMORY | MULDIV | PSIMD | SYSTEM_INSTR | TRAP

  datatype Access = Load | Store | Atomic | Fence | FenceI

  /** The second operand comes from the register file, or is a constant (immediate, 2 or 4). */
  datatype Src2 = IntegerRF | Constant(value: Word)

  /** What the decoder hands to the operand fetch and to the execute stage.  `funct` is the function
      code, or the trap cause when itype is TRAP; `microtrap` says that the next instruction must be
      re-run. */
  datatype Instr = Instr(itype: IType, rd: nat, rs1: nat, rs2: nat, src2: Src2, imm: int,
                         access: Access, microtrap: bool, funct: nat)

  /** funct3 of a SYSTEM instruction is zero for the xRET family. */
  predicate IsXRet(ins: Instr) { ins.itype.SYSTEM_INSTR? && ins.funct % 8 == 0 }

  /** The decoder's override for a micro-trap or an interrupt. */
  function AsTrap(ins: Instr, cause: nat): Instr { ins.(itype := TRAP, funct := cause) }

  /** FENCE and FENCE.I keep rs2 = inst[24:20] although they name a constant operand. */
  predicate IsFence(ins: Instr) { ins.itype.MEMORY? && (ins.access.Fence? || ins.access.FenceI?) }

  /** Which operands an instruction type waits for before it is issued. */
  predicate NeedsOp1(ins: Instr) { !ins.itype.TRAP? }

  predicate NeedsOp2(ins: Instr) { !ins.itype.TRAP? && !ins.itype.SYSTEM_INSTR? }

  predicate NeedsOpd(ins: Instr) { ins.itype.PSIMD? }

  /** Branches and jumps. */
  predicate IsControl(ins: Instr) { ins.itype.BRANCH? || ins.itype.JAL? || ins.itype.JALR? }

  lemma Assoc<T>(a: seq<T>, b: seq<T>, c: seq<T>)
    ensures a + (b + c) == (a + b) + c
  {
  }

  lemma NothingToAdd<T>(s: seq<T>)
    ensures s + [] == s
  {
  }

  lemma UpperFacts(p: Pc)
    requires IsUpper(p)
    ensures UpperOf(WordAddr(p)) == p && Plus2(p) == Plus4(WordAddr(p))
  {
  }

  lemma Mod4(a: nat)
    requires a % 2 == 0 && a % 4 != 2
    ensures a % 4 == 0 && (a + 2) % 4 == 2 && (a + 4) % 4 == 0
  {
  }

  /** The last word of the address space. */
  lemma LastWord(a: Pc)
    requires a == WORD_MOD - 4
    ensures Plus4(a) == 0 && Plus2(a) == a + 2 && UpperOf(a) == a + 2 && UpperOf(0) == 2
    ensures Plus2(a + 2) == 0 && Plus4(a + 2) == 2
  {
  }

  /** Any other word: nothing wraps. */
  lemma NotLastWord(a: Pc)
    requires a % 4 == 0 && a + 8 <= WORD_MOD
    ensures Plus4(a) == a + 4 && Plus2(a) == a + 2 && UpperOf(a) == a + 2 && UpperOf(a + 4) == a + 6
    ensures Plus2(a + 2) == a + 4 && Plus4(a + 2) == a + 6
  {
    Mod4(a);
  }

  lemma LastButOne(a: Pc)
    requires a % 4 == 0 && a != WORD_MOD - 4
    ensures a + 8 <= WORD_MOD
  {
  }

  lemma AlignedFacts(a: Pc)
    requires !IsUpper(a)
    ensures WordAddr(a) == a && !IsUpper(Plus4(a))
    ensures UpperOf(a) == Plus2(a) && IsUpper(Plus2(a)) && Plus2(Plus2(a)) == Plus4(a)
    ensures Plus4(UpperOf(a)) == UpperOf(Plus4(a))
  {
    Mod4(a);
    if a == WORD_MOD - 4 {
      LastWord(a);
    } else {
      LastButOne(a);
      NotLastWord(a);
    }
  }
}
