/**
 * The part of the Hack machine language that the code generator emits, and a machine that
 * runs it.
 *
 * Each assembly line the generator writes is an `Instruction`, and `Text` gives the line
 * exactly as written. The machine follows the Hack CPU: A and D registers, a 16-bit RAM, and
 * a program counter that a jump loads from A. A label definition `(name)` occupies one
 * no-op slot of the program here, so a label's address is the index of its definition.
 */
module Hack {
  import opened Wrappers
  import opened Decimal

  /** The predefined symbols the generator uses: the VM pointers and R0 to R15. */
  datatype Register = SP | LCL | ARG | THIS | THAT | R(n: nat)

  function RegisterName(r: Register): string {
    match r
    case SP => "SP"
    case LCL => "LCL"
    case ARG => "ARG"
    case THIS => "THIS"
    case THAT => "THAT"
    case R(n) => "R" + NatToString(n)
  }

  /** The RAM cell a predefined symbol names; `R16` and above are not predefined. */
  function RegisterAddress(r: Register): Option<Word> {
    match r
    case SP => Some(0)
    case LCL => Some(1)
    case ARG => Some(2)
    case THIS => Some(3)
    case THAT => Some(4)
    case R(n) => if n < 16 then Some(n) else None
  }

  /** Where a computed value goes. */
  datatype Dest = ToA | ToD | ToM | ToAM

  /** The computations the generator writes, named after their text. */
  datatype Comp =
    | Zero | MinusOne | DReg | AReg | MReg | NotM | NegM
    | DPlusOne | DMinusOne | MPlusOne | MMinusOne | AMinusOne
    | APlusD | MPlusD | MMinusD | DMinusA | MAndD | MOrD

  datatype Jump = JEQ | JGT | JLT | JNE | JMP

  datatype Instruction =
    | AtNumber(value: nat)
    | AtRegister(register: Register)
    | AtSymbol(symbol: string)
    | Define(name: string)
    | Assign(dest: Dest, comp: Comp)
    | Branch(condition: Comp, jump: Jump)

  function DestText(d: Dest): string {
    match d
    case ToA => "A"
    case ToD => "D"
    case ToM => "M"
    case ToAM => "AM"
  }

  function CompText(c: Comp): string {
    match c
    case Zero => "0"
    case MinusOne => "-1"
    case DReg => "D"
    case AReg => "A"
    case MReg => "M"
    case NotM => "!M"
    case NegM => "-M"
    case DPlusOne => "D+1"
    case DMinusOne => "D-1"
    case MPlusOne => "M+1"
    case MMinusOne => "M-1"
    case AMinusOne => "A-1"
    case APlusD => "A+D"
    case MPlusD => "M+D"
    case MMinusD => "M-D"
    case DMinusA => "D-A"
    case MAndD => "M&D"
    case MOrD => "M|D"
  }

  function JumpText(j: Jump): string {
    match j
    case JEQ => "JEQ"
    case JGT => "JGT"
    case JLT => "JLT"
    case JNE => "JNE"
    case JMP => "JMP"
  }

  /** The assembly line of an instruction. */
  function Text(i: Instruction): string {
    match i
    case AtNumber(n) => "@" + NatToString(n)
    case AtRegister(r) => "@" + RegisterName(r)
    case AtSymbol(s) => "@" + s
    case Define(l) => "(" + l + ")"
    case Assign(d, c) => DestText(d) + "=" + CompText(c)
    case Branch(c, j) => CompText(c) + ";" + JumpText(j)
  }

  function Lines(code: seq<Instruction>): (lines: seq<string>)
    ensures |lines| == |code|
    ensures forall k | 0 <= k < |code| :: lines[k] == Text(code[k])
  {
    if code == [] then [] else [Text(code[0])] + Lines(code[1..])
  }

  lemma {:induction false} LinesAppend(a: seq<Instruction>, b: seq<Instruction>)
    ensures Lines(a + b) == Lines(a) + Lines(b)
    decreases |a|
  {
    if a == [] {
      assert a + b == b;
    } else {
      assert (a + b)[1..] == a[1..] + b;
      LinesAppend(a[1..], b);
    }
  }

  /** A 16-bit machine word, kept as its unsigned value; comparisons read it as two's complement. */
  type Word = x: int | 0 <= x < 0x1_0000

  /** Addition and subtraction wrap around at 2^16, as the Hack ALU does. */
  function Wrap(x: int): Word {
    x % 0x1_0000
  }

  function BitAnd(x: Word, y: Word): Word {
    ((x as bv16) & (y as bv16)) as int
  }

  function BitOr(x: Word, y: Word): Word {
    ((x as bv16) | (y as bv16)) as int
  }

  /** A value that already fits in a word is its own wrap. */
  lemma WrapFits(x: int)
    requires 0 <= x < 0x1_0000
    ensures Wrap(x) == x
  {
  }

  datatype State = State(a: Word, d: Word, ram: map<Word, Word>, pc: nat)

  /** A RAM cell; cells never written hold 0. */
  function Read(ram: map<Word, Word>, address: Word): Word {
    if address in ram then ram[address] else 0
  }

  function Compute(c: Comp, s: State): Word {
    var m := Read(s.ram, s.a);
    match c
    case Zero => 0
    case MinusOne => 0xFFFF
    case DReg => s.d
    case AReg => s.a
    case MReg => m
    case NotM => 0xFFFF - m
    case NegM => Wrap(-(m as int))
    case DPlusOne => Wrap(s.d + 1)
    case DMinusOne => Wrap(s.d - 1)
    case MPlusOne => Wrap(m + 1)
    case MMinusOne => Wrap(m - 1)
    case AMinusOne => Wrap(s.a - 1)
    case APlusD => Wrap(s.a + s.d)
    case MPlusD => Wrap(m + s.d)
    case MMinusD => Wrap(m - s.d)
    case DMinusA => Wrap(s.d - s.a)
    case MAndD => BitAnd(m, s.d)
    case MOrD => BitOr(m, s.d)
  }

  /** A word read as a negative two's-complement number. */
  predicate Negative(w: Word) {
    w >= 0x8000
  }

  predicate Jumps(j: Jump, w: Word) {
    match j
    case JEQ => w == 0
    case JGT => w != 0 && !Negative(w)
    case JLT => Negative(w)
    case JNE => w != 0
    case JMP => true
  }

  /**
   * What an A-instruction loads: a number (any `u16` the generator emits, which is wider
   * than the 15-bit constant of a real Hack A-instruction), a predefined or a symbol-table
   * address.
   */
  function Address(i: Instruction, symbols: map<string, Word>): Option<Word>
    requires i.AtNumber? || i.AtRegister? || i.AtSymbol?
  {
    match i
    case AtNumber(n) => Some(Wrap(n))
    case AtRegister(r) => RegisterAddress(r)
    case AtSymbol(x) => if x in symbols then Some(symbols[x]) else None
  }

  /**
   * One instruction of `rom` at the program counter; `None` when the counter has left the
   * program or an address is unknown.
   */
  function Step(rom: seq<Instruction>, symbols: map<string, Word>, s: State): Option<State> {
    if s.pc >= |rom| then None
    else
      var i := rom[s.pc];
      match i
      case Define(_) => Some(s.(pc := s.pc + 1))
      case Assign(dest, comp) =>
        var v := Compute(comp, s);
        Some(match dest
          case ToA => s.(a := v, pc := s.pc + 1)
          case ToD => s.(d := v, pc := s.pc + 1)
          case ToM => s.(ram := s.ram[s.a := v], pc := s.pc + 1)
          case ToAM => s.(a := v, ram := s.ram[s.a := v], pc := s.pc + 1))
      case Branch(comp, jump) =>
        if Jumps(jump, Compute(comp, s)) then Some(s.(pc := s.a)) else Some(s.(pc := s.pc + 1))
      case _ =>
        match Address(i, symbols)
        case None => None
        case Some(w) => Some(s.(a := w, pc := s.pc + 1))
  }

  /** `n` instructions from state `s`. */
  function Run(rom: seq<Instruction>, symbols: map<string, Word>, s: State, n: nat): Option<State>
    decreases n
  {
    if n == 0 then Some(s)
    else match Step(rom, symbols, s)
      case None => None
      case Some(t) => Run(rom, symbols, t, n - 1)
  }

  /** Running `m + n` instructions is running `m` and then `n` more. */
  lemma {:induction false} RunAdd(rom: seq<Instruction>, symbols: map<string, Word>, s: State, m: nat, n: nat)
    ensures Run(rom, symbols, s, m + n)
      == match Run(rom, symbols, s, m) case None => None case Some(t) => Run(rom, symbols, t, n)
    decreases m
  {
    if m > 0 {
      match Step(rom, symbols, s)
      case None =>
      case Some(t) =>
        RunAdd(rom, symbols, t, m - 1, n);
    }
  }

  /** Every label is defined at the address the symbol table gives it. */
  predicate Labelled(rom: seq<Instruction>, symbols: map<string, Word>) {
    |rom| <= 0x1_0000
    && forall k | 0 <= k < |rom| && rom[k].Define? ::
         rom[k].name in symbols && symbols[rom[k].name] == k
  }

  /** `code` sits in `rom` from address `at` on. */
  predicate Loaded(rom: seq<Instruction>, code: seq<Instruction>, at: nat) {
    at + |code| <= |rom| && forall k | 0 <= k < |code| :: rom[at + k] == code[k]
  }
}
