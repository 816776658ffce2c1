/** Short programs in their 32-bit encodings (RISC-V Unprivileged ISA 20191213, chapter 24, and the P extension),
    for runs that show a single behaviour of the core. */
module Programs {
  import opened Types
  import opened Isa
  import opened Pipeline
  import opened Refinement
  import Fetch
  import Scoreboard

  const LW_X1: nat := 0x0000_2083 // lw x1, 0(x0)
  const CSRR_X2: nat := 0x3400_2173 // csrrs x2, mscratch, x0
  const ADDI_X2: nat := 0x0070_0113 // addi x2, x0, 7
  const MUL_X1: nat := 0x0221_00B3 // mul x1, x2, x2
  const MRET: nat := 0x3020_0073
  const SMALBB_X1: nat := 0x8800_10F7 // smalbb x1, x0, x0

  // ---------- the fields of an encoding ----------

  function Opcode(bits: int): nat { bits % 0x80 }

  function Rd(bits: int): nat { (bits / 0x80) % 32 }

  function Funct3(bits: int): nat { (bits / 0x1000) % 8 }

  function Rs1(bits: int): nat { (bits / 0x8000) % 32 }

  function Rs2(bits: int): nat { (bits / 0x10_0000) % 32 }

  function Funct7(bits: int): nat { (bits / 0x200_0000) % 0x80 }

  function ImmI(bits: int): int {
    var imm := (bits / 0x10_0000) % 0x1000;
    if imm < 0x800 then imm else imm - 0x1000
  }

  /** The decoder on the encodings of the six instructions; all others are illegal here. */
  function Decode32(bits: int): Instr {
    var (op, f3, f7, rd, rs1) := (Opcode(bits), Funct3(bits), Funct7(bits), Rd(bits), Rs1(bits));
    if op == 0x03 && f3 == 2 then Instr(MEMORY, rd, rs1, 0, IntegerRF, ImmI(bits), Load, false, f3)
    else if op == 0x13 && f3 == 0 then
      Instr(ALU, rd, rs1, 0, Constant(ImmI(bits) % WORD_MOD), ImmI(bits), Load, false, f3)
    else if op == 0x33 && f3 == 0 && f7 == 1 then
      Instr(MULDIV, rd, rs1, Rs2(bits), IntegerRF, ImmI(bits), Load, false, f3)
    else if op == 0x77 && f3 == 1 && f7 == 0x44 then
      Instr(PSIMD, rd, rs1, Rs2(bits), IntegerRF, ImmI(bits), Load, false, f3)
    else if op == 0x73 && f3 == 2 && rs1 == 0 then
      Instr(SYSTEM_INSTR, rd, 0, 0, IntegerRF, ImmI(bits), Load, true, f3)
    else if bits == MRET then Instr(SYSTEM_INSTR, 0, 0, 0, IntegerRF, ImmI(bits), Load, true, f3)
    else Instr(TRAP, rd, rs1, 0, IntegerRF, ImmI(bits), Load, false, 2)
  }

  /** Halfword k of a word, as a signed number. */
  function Half16(v: Word, k: nat): int {
    var h := if k == 0 then v % 0x1_0000 else (v / 0x1_0000) % 0x1_0000;
    if h < 0x8000 then h else h - 0x1_0000
  }

  /** The accumulation fn_compute makes for this encoding. */
  function Smalbb(a: Word, b: Word, d: Word): Word {
    (d + Half16(a, 0) * Half16(b, 0) + Half16(a, 1) * Half16(b, 1)) % WORD_MOD
  }

  /** The parcels of a program that starts at address 0. */
  function Parcel(program: seq<nat>, p: Pc): Half {
    if p / 4 < |program| then
      if p % 4 == 0 then program[p / 4] % 0x1_0000 else (program[p / 4] / 0x1_0000) % 0x1_0000
    else 0
  }

  /** Where a return from a trap goes. */
  const MEPC: Pc := 0x80

  /** The machine that runs a program; traps go to tvec, and the CSR file is mscratch alone. */
  function Machine(program: seq<nat>, tvec: Pc): Arch {
    Arch(
      (p: Pc) => Parcel(program, p),
      (bits: int, csr: Csr) => Decode32(bits),
      (csr: Csr, cause: nat) => false,
      (bits: int, pc: Pc, cause: nat) => if cause == 2 then bits % WORD_MOD else 0,
      (ins: Instr, pc: Pc, a: Word, b: Word) => (a + b) % WORD_MOD,
      (ins: Instr, a: Word, b: Word) => false,
      (ins: Instr, a: Word, b: Word) => (a * b) % WORD_MOD,
      (ins: Instr, a: Word, b: Word, d: Word) => Smalbb(a, b, d),
      (ins: Instr, csr: Csr, a: Word) => csr % WORD_MOD,
      (ins: Instr, csr: Csr, a: Word) => csr,
      (ins: Instr, csr: Csr) => MEPC,
      (ins: Instr, csr: Csr) => csr,
      (csr: Csr, cause: nat, pc: Pc, tval: Word) => tvec,
      (csr: Csr, cause: nat, pc: Pc, tval: Word) => csr)
  }

  // ---------- the reset state ----------

  const CFG: Config := Config(32, 1, 1, 3, 3, 8)

  const CUR: Tag := Tag(false, false, 0)

  const PREV: Fetch.Prev := Fetch.Prev(0, 0, Fetch.NOT_TAKEN, CUR)

  const OPEN: seq<Scoreboard.SBEntry> := seq(32, _ => Scoreboard.SBEntry(false, 0))

  const ZEROS: seq<Word> := seq(32, _ => 0)

  const ZERO: Operand := Operand(0, 0, true)

  const RESET: State := State(
    Fetch.Unit(0, None, false, CUR, [], false, PREV, Fetch.Cursor(0, None, false)),
    [], None, ZERO, ZERO, ZERO, false, false, 0, Scoreboard.Board(OPEN, 0), [], [], ZEROS, 0, 0, 0, [])

  lemma ResetOk(program: seq<nat>, tvec: Pc)
    ensures ConfigOk(CFG) && WellFormed(Machine(program, tvec), CFG.nregs) && Init(CFG, RESET, 0)
  {
  }

  /** The word at address a, asked for with no prediction. */
  function WordAt(a: Pc, cur: Tag): Fetch.Word01 { Fetch.Word01(a, false, Fetch.NOT_TAKEN, cur) }

  /** The instruction at address a as stage 1 sends it. */
  function TokAt(a: Pc, bits: nat, cur: Tag): Fetch.Tok { Fetch.Tok(a, bits, false, false, 0, cur) }

  /** Stage 0 asks for word a, and stage 1 sends its instruction. */
  function Fetching(s: State, a: Pc): State { s.(f := s.f.(pc := Plus4(a), queue := [WordAt(a, s.f.cur)])) }

  function Fetched(s: State, a: Pc, bits: nat): State {
    s.(f := s.f.(pc := Plus4(a), cursor := Fetch.Cursor(Plus4(a), None, false), prev := s.f.prev.(tag := s.f.cur)),
       s12 := [TokAt(a, bits, s.f.cur)])
  }

  /** In front of word a stages 0 and 1 are empty. */
  predicate ReadyAt(s: State, a: Pc) {
    && s.f.pc == a && a % 4 == 0 && s.f.delayed.None? && !s.f.fence && s.f.queue == [] && !s.f.checkPrev
    && s.f.cursor == Fetch.Cursor(a, None, false) && s.s12 == []
  }

  lemma GenWord(s: State, a: Pc)
    requires ReadyAt(s, a)
    ensures Gen(s, Fetch.NOT_TAKEN) == Fetching(s, a) && CanGen(CFG, s) && CanProcess(CFG, Fetching(s, a))
  {
  }

  lemma TwoParcels(w: nat)
    requires w < 0x1_0000_0000 && w % 4 == 3
    ensures var (lo, hi) := (w % 0x1_0000, (w / 0x1_0000) % 0x1_0000); Is32(lo) && lo + 0x1_0000 * hi == w
  {
  }

  lemma UpperIndex(a: Pc)
    requires a % 4 == 0
    ensures UpperOf(a) == a + 2 && UpperOf(a) / 4 == a / 4 && UpperOf(a) % 4 == 2
  {
  }

  lemma WordBits(program: seq<nat>, tvec: Pc, a: Pc)
    requires a % 4 == 0 && a / 4 < |program| && program[a / 4] % 4 == 3 && program[a / 4] < 0x1_0000_0000
    ensures var isa := Machine(program, tvec);
      Is32(isa.imem(a)) && isa.imem(a) + 0x1_0000 * isa.imem(UpperOf(a)) == program[a / 4]
  {
    UpperIndex(a);
    TwoParcels(program[a / 4]);
    assert Machine(program, tvec).imem(UpperOf(a)) == Parcel(program, UpperOf(a));
  }

  lemma InstructionAt(program: seq<nat>, tvec: Pc, a: Pc)
    requires a % 4 == 0 && a / 4 < |program| && program[a / 4] % 4 == 3 && program[a / 4] < 0x1_0000_0000
    ensures var isa := Machine(program, tvec);
      FetchBits(isa, a) == program[a / 4] && Following(isa, a) == Plus4(a)
  {
    WordBits(program, tvec, a);
    AlignedFacts(a);
  }

  lemma ProcessWord(program: seq<nat>, tvec: Pc, s: State, a: Pc)
    requires ReadyAt(s, a) && a / 4 < |program|
    requires program[a / 4] % 4 == 3 && program[a / 4] < 0x1_0000_0000
    ensures Process(Machine(program, tvec), Fetching(s, a)) == Fetched(s, a, program[a / 4])
  {
    var isa := Machine(program, tvec);
    WordBits(program, tvec, a);
    Aligned32(isa, Fetching(s, a).f, a, program[a / 4]);
    NothingBefore(s.s12, TokAt(a, program[a / 4], s.f.cur));
  }

  lemma NothingBefore(s12: seq<Fetch.Tok>, t: Fetch.Tok)
    requires s12 == []
    ensures s12 + [t] == [t]
  {
  }

  lemma Aligned32(isa: Arch, f: Fetch.Unit, a: Pc, w: nat)
    requires a % 4 == 0 && f.queue == [WordAt(a, f.cur)] && !f.checkPrev && f.cursor == Fetch.Cursor(a, None, false)
    requires Is32(isa.imem(a)) && isa.imem(a) + 0x1_0000 * isa.imem(UpperOf(a)) == w
    ensures Fetch.Process(isa, f)
      == (f.(queue := [], cursor := Fetch.Cursor(Plus4(a), None, false), prev := f.prev.(tag := f.cur)),
          Some(TokAt(a, w, f.cur)))
  {
    assert f.queue[1..] == [];
    assert f.queue[0].resp == Fetch.NOT_TAKEN;
  }

  const FETCH: seq<Step> := [StepGen(Fetch.NOT_TAKEN), StepProcess, StepDecode(None)]

  /** One instruction is fetched and decoded. */
  lemma FetchAndDecode(program: seq<nat>, tvec: Pc, s: State, a: Pc)
    requires ReadyAt(s, a) && a / 4 < |program| && s.s23.None? && !s.stall
    requires program[a / 4] % 4 == 3 && program[a / 4] < 0x1_0000_0000
    ensures var isa := Machine(program, tvec);
      Leads(isa, CFG, s, FETCH, Decode(isa, Fetched(s, a, program[a / 4]), None))
  {
    var isa := Machine(program, tvec);
    var (s1, s2) := (Fetching(s, a), Fetched(s, a, program[a / 4]));
    var s3 := Decode(isa, s2, None);
    GenWord(s, a);
    ProcessWord(program, tvec, s, a);
    LeadsStep(isa, CFG, s2, StepDecode(None), s3, [], s3);
    LeadsStep(isa, CFG, s1, StepProcess, s2, [StepDecode(None)], s3);
    LeadsStep(isa, CFG, s, StepGen(Fetch.NOT_TAKEN), s1, [StepProcess, StepDecode(None)], s3);
    assert FETCH == [StepGen(Fetch.NOT_TAKEN)] + ([StepProcess] + ([StepDecode(None)] + []));
  }

  lemma FetchThen(program: seq<nat>, tvec: Pc, s: State, a: Pc, mid: State, rest: seq<Step>, last: State)
    requires ReadyAt(s, a) && a / 4 < |program| && s.s23.None? && !s.stall
    requires program[a / 4] % 4 == 3 && program[a / 4] < 0x1_0000_0000
    requires Decode(Machine(program, tvec), Fetched(s, a, program[a / 4]), None) == mid
    requires Leads(Machine(program, tvec), CFG, mid, rest, last)
    ensures Leads(Machine(program, tvec), CFG, s, FETCH + rest, last)
  {
    FetchAndDecode(program, tvec, s, a);
    LeadsConcat(Machine(program, tvec), CFG, s, FETCH, mid, rest, last);
  }
}
