/** What instructions mean, for the statements of results alone: no rule of the core uses these definitions. */
module Reference {
  import opened Types
  import opened Isa
  import opened Pipeline

  /** The sum with bit 0 cleared. */
  predicate Even(sum: int, p: int) { p % 2 == 0 && (p == sum || p + 1 == sum) }

  /** The bytes of a memory access: funct[1:0] is their logarithm. */
  function AccessBytes(funct: nat): nat {
    if funct % 4 == 0 then 1 else if funct % 4 == 1 then 2 else if funct % 4 == 2 then 4 else 8
  }

  /** The request of a memory instruction with the operands a and b, if its address is a multiple of the size. */
  function AlignedRequest(ins: Instr, epochs: bool, a: Word, b: Word): Option<DMemRequest> {
    var address: Word := (a + ins.imm) % WORD_MOD;
    if address % AccessBytes(ins.funct) != 0 then None
    else Some(DMemRequest(address, epochs, ins.funct % 8, ins.access == Fence || ins.access == FenceI, ins.access, b,
                          ins.funct % 2 * 16 + ins.funct / 8 % 16))
  }

  /** Types whose issue rule waits for both operands. */
  predicate TwoOperands(itype: IType) {
    itype in {ALU, BRANCH, JAL, JALR, MULDIV, PSIMD, MEMORY}
  }

  /** Where an issued control instruction goes. */
  predicate GoesTo(isa: Arch, d: Dec, a: Word, b: Word, p: Pc) {
    match d.ins.itype
    case BRANCH =>
      if isa.taken(d.ins, a, b) then Even((d.tok.pc + d.ins.imm) % WORD_MOD, p)
      else p == (d.tok.pc + if d.tok.compressed then 2 else 4) % WORD_MOD
    case JAL => Even((d.tok.pc + d.ins.imm) % WORD_MOD, p)
    case JALR => Even((a + d.ins.imm) % WORD_MOD, p)
    case _ => false
  }
}
