/**
 * What the generated code does for the commands that move the program counter: `goto`,
 * `if-goto` and the prologue of `function`.
 *
 * A jump loads a label's address from the symbol table; `Labelled` says that this address is
 * the line that defines the label, so each lemma names that line and states that the run
 * lands there.
 */
module FlowSemantics {
  import opened Wrappers
  import opened Decimal
  import opened Hack
  import opened Translator
  import opened StackSemantics

  /** A line that defines a label is the label's address. */
  lemma LabelAddress(rom: seq<Instruction>, symbols: map<string, Word>, k: nat)
    requires Labelled(rom, symbols) && k < |rom| && rom[k].Define?
    ensures rom[k].name in symbols && symbols[rom[k].name] == k
  {
  }

  // ---------------------------------------------------------------- goto and if-goto

  /** `goto name` jumps to the line that defines `name`, and changes neither D nor RAM. */
  lemma RunGoto(name: string, rom: seq<Instruction>, symbols: map<string, Word>, s: State, p: nat, k: nat)
    requires Labelled(rom, symbols) && Loaded(rom, GotoCode(name), p) && s.pc == p
    requires k < |rom| && rom[k] == Define(name)
    ensures Run(rom, symbols, s, 2) == Some(State(k, s.d, s.ram, k))
  {
    LabelAddress(rom, symbols, k);
    LoadedAt(rom, GotoCode(name), p, 0);
    LoadedAt(rom, GotoCode(name), p, 1);
    var s1 := State(k, s.d, s.ram, p + 1);
    assert Step(rom, symbols, s) == Some(s1);
    assert Step(rom, symbols, s1) == Some(State(k, s.d, s.ram, k));
  }

  /** The first four lines of `if-goto` pop the top into D and point A at the label. */
  lemma RunIfHead(name: string, rom: seq<Instruction>, symbols: map<string, Word>, s: State, p: nat, k: nat, sp: Word)
    requires Labelled(rom, symbols) && Loaded(rom, IfCode(name), p) && s.pc == p
    requires k < |rom| && rom[k] == Define(name)
    requires StackPointer(s.ram) == sp && 16 < sp
    ensures Run(rom, symbols, s, 4) == Some(State(k, Read(s.ram, sp - 1), s.ram[0 := sp - 1], p + 4))
  {
    LabelAddress(rom, symbols, k);
    LoadedAt(rom, IfCode(name), p, 0);
    LoadedAt(rom, IfCode(name), p, 1);
    LoadedAt(rom, IfCode(name), p, 2);
    LoadedAt(rom, IfCode(name), p, 3);
    var s1 := State(0, s.d, s.ram, p + 1);
    var s2 := State(sp - 1, s.d, s.ram[0 := sp - 1], p + 2);
    var s3 := State(sp - 1, Read(s.ram, sp - 1), s.ram[0 := sp - 1], p + 3);
    assert Step(rom, symbols, s) == Some(s1);
    assert Step(rom, symbols, s1) == Some(s2);
    assert Step(rom, symbols, s2) == Some(s3);
    assert Step(rom, symbols, s3) == Some(State(k, Read(s.ram, sp - 1), s.ram[0 := sp - 1], p + 4));
  }

  /**
   * `if-goto name` pops the top of the stack and jumps to the line that defines `name` when
   * the popped word is not zero; otherwise it falls through to the next command.
   */
  lemma RunIfGoto(name: string, rom: seq<Instruction>, symbols: map<string, Word>, s: State, p: nat, k: nat, sp: Word)
    requires Labelled(rom, symbols) && Loaded(rom, IfCode(name), p) && s.pc == p
    requires k < |rom| && rom[k] == Define(name)
    requires StackPointer(s.ram) == sp && 16 < sp
    ensures Read(s.ram, sp - 1) != 0 ==>
      Run(rom, symbols, s, 5) == Some(State(k, Read(s.ram, sp - 1), s.ram[0 := sp - 1], k))
    ensures Read(s.ram, sp - 1) == 0 ==>
      Run(rom, symbols, s, 5) == Some(State(k, Read(s.ram, sp - 1), s.ram[0 := sp - 1], p + 5))
  {
    RunIfHead(name, rom, symbols, s, p, k, sp);
    LoadedAt(rom, IfCode(name), p, 4);
    var s4 := State(k, Read(s.ram, sp - 1), s.ram[0 := sp - 1], p + 4);
    var u := s4.(pc := if s4.d != 0 then k else p + 5);
    StepIfJump(rom, symbols, s4, u);
    StepThen(rom, symbols, s4, u, 0, u);
    RunThenTo(rom, symbols, s, 4, s4, 1, u, 5);
  }

  /** `D;JNE` jumps to A exactly when D is not zero. */
  lemma StepIfJump(rom: seq<Instruction>, symbols: map<string, Word>, s: State, u: State)
    requires s.pc < |rom| && rom[s.pc] == Branch(DReg, JNE)
    requires u == s.(pc := if s.d != 0 then s.a else s.pc + 1)
    ensures Step(rom, symbols, s) == Some(u)
  {
  }

  // ---------------------------------------------------------------- function prologue

  /** `count` zeros pushed one after another. */
  function PushZeros(ram: map<Word, Word>, count: nat): map<Word, Word>
    decreases count
  {
    if count == 0 then ram else PushZeros(Pushed(ram, 0), count - 1)
  }

  /** A push that does not wrap moves SP up by one and writes only the old top and SP. */
  lemma PushedCells(ram: map<Word, Word>, v: Word)
    requires 0 < StackPointer(ram) < 0xFFFF
    ensures StackPointer(Pushed(ram, v)) == StackPointer(ram) + 1
    ensures Read(Pushed(ram, v), StackPointer(ram)) == v
    ensures forall j: Word | j != 0 && j != StackPointer(ram) :: Read(Pushed(ram, v), j) == Read(ram, j)
  {
  }

  /**
   * After the prologue's pushes, SP has moved up `count` cells, the `count` cells it passed
   * hold 0, and every other cell is as before.
   */
  lemma {:induction false} PushZerosLayout(ram: map<Word, Word>, count: nat)
    requires 0 < StackPointer(ram) && StackPointer(ram) + count < 0x1_0000
    ensures StackPointer(PushZeros(ram, count)) == StackPointer(ram) + count
    ensures forall j: Word | StackPointer(ram) <= j < StackPointer(ram) + count :: Read(PushZeros(ram, count), j) == 0
    ensures forall j: Word | j != 0 && !(StackPointer(ram) <= j < StackPointer(ram) + count) ::
      Read(PushZeros(ram, count), j) == Read(ram, j)
    decreases count
  {
    if count > 0 {
      var sp := StackPointer(ram);
      PushedCells(ram, 0);
      PushZerosLayout(Pushed(ram, 0), count - 1);
    }
  }

  /** Where the lines of a prologue sit once it is loaded at `p`. */
  lemma FunctionPieces(name: string, count: U16, rom: seq<Instruction>, p: nat)
    requires Loaded(rom, FunctionCode(name, count), p)
    ensures p + 15 <= |rom|
    ensures rom[p] == Define(name) && rom[p + 1] == AtNumber(count) && rom[p + 2] == Assign(ToD, AReg)
    ensures Loaded(rom, ZeroLoop(name, count), p + 3)
    ensures rom[p + 14] == Define(EndLabel(name, count))
  {
    var head := [Define(name), AtNumber(count), Assign(ToD, AReg)];
    assert FunctionCode(name, count) == head + (ZeroLoop(name, count) + [Define(EndLabel(name, count))]);
    LoadedSplit(rom, head, ZeroLoop(name, count) + [Define(EndLabel(name, count))], p);
    LoadedSplit(rom, ZeroLoop(name, count), [Define(EndLabel(name, count))], p + 3);
    LoadedAt(rom, head, p, 0);
    LoadedAt(rom, head, p, 1);
    LoadedAt(rom, head, p, 2);
    LoadedAt(rom, [Define(EndLabel(name, count))], p + 14, 0);
  }

  /** The entry label, then D := count. */
  lemma RunPrologueHead(name: string, count: U16, rom: seq<Instruction>, symbols: map<string, Word>, s: State, p: nat)
    requires s.pc == p && p + 2 < |rom|
    requires rom[p] == Define(name) && rom[p + 1] == AtNumber(count) && rom[p + 2] == Assign(ToD, AReg)
    ensures Run(rom, symbols, s, 3) == Some(State(count, count, s.ram, p + 3))
  {
    WrapFits(count);
    var s1 := State(s.a, s.d, s.ram, p + 1);
    var s2 := State(count, s.d, s.ram, p + 2);
    assert Step(rom, symbols, s) == Some(s1);
    assert Step(rom, symbols, s1) == Some(s2);
    assert Step(rom, symbols, s2) == Some(State(count, count, s.ram, p + 3));
  }

  /** The loop's test: with D zero it leaves through the end label, to the line after it. */
  lemma RunLoopExit(name: string, count: U16, rom: seq<Instruction>, symbols: map<string, Word>, s: State, q: nat)
    requires Labelled(rom, symbols) && Loaded(rom, ZeroLoop(name, count), q) && s.pc == q
    requires q + 11 < |rom| && rom[q + 11] == Define(EndLabel(name, count))
    requires s.d == 0
    ensures Run(rom, symbols, s, 4) == Some(State(q + 11, 0, s.ram, q + 12))
  {
    LabelAddress(rom, symbols, q + 11);
    LoadedAt(rom, ZeroLoop(name, count), q, 0);
    LoadedAt(rom, ZeroLoop(name, count), q, 1);
    LoadedAt(rom, ZeroLoop(name, count), q, 2);
    var s1 := State(s.a, 0, s.ram, q + 1);
    var s2 := State(q + 11, 0, s.ram, q + 2);
    var s3 := State(q + 11, 0, s.ram, q + 11);
    assert Step(rom, symbols, s) == Some(s1);
    assert Step(rom, symbols, s1) == Some(s2);
    assert Step(rom, symbols, s2) == Some(s3);
    assert Step(rom, symbols, s3) == Some(State(q + 11, 0, s.ram, q + 12));
  }

  /** The loop's test: with D not zero it goes on into the body. */
  lemma RunLoopEnter(name: string, count: U16, rom: seq<Instruction>, symbols: map<string, Word>, s: State, q: nat)
    requires Labelled(rom, symbols) && Loaded(rom, ZeroLoop(name, count), q) && s.pc == q
    requires q + 11 < |rom| && rom[q + 11] == Define(EndLabel(name, count))
    requires s.d != 0
    ensures Run(rom, symbols, s, 3) == Some(State(q + 11, s.d, s.ram, q + 3))
  {
    LabelAddress(rom, symbols, q + 11);
    LoadedAt(rom, ZeroLoop(name, count), q, 0);
    LoadedAt(rom, ZeroLoop(name, count), q, 1);
    LoadedAt(rom, ZeroLoop(name, count), q, 2);
    var s1 := State(s.a, s.d, s.ram, q + 1);
    var s2 := State(q + 11, s.d, s.ram, q + 2);
    assert Step(rom, symbols, s) == Some(s1);
    assert Step(rom, symbols, s1) == Some(s2);
    assert Step(rom, symbols, s2) == Some(State(q + 11, s.d, s.ram, q + 3));
  }

  /** Five lines that store 0 at SP and move SP up: a push of zero that leaves D alone. */
  lemma RunPushZero(rom: seq<Instruction>, symbols: map<string, Word>, s: State, p: nat, sp: Word)
    requires s.pc == p && p + 4 < |rom|
    requires rom[p] == AtRegister(SP) && rom[p + 1] == Assign(ToA, MReg) && rom[p + 2] == Assign(ToM, Zero)
    requires rom[p + 3] == AtRegister(SP) && rom[p + 4] == Assign(ToM, MPlusOne)
    requires StackPointer(s.ram) == sp && 0 < sp < 0xFFFF
    ensures Run(rom, symbols, s, 5) == Some(State(0, s.d, Pushed(s.ram, 0), p + 5))
  {
    var s1 := State(0, s.d, s.ram, p + 1);
    var s2 := State(sp, s.d, s.ram, p + 2);
    var s3 := State(sp, s.d, s.ram[sp := 0], p + 3);
    var s4 := State(0, s.d, s.ram[sp := 0], p + 4);
    assert Step(rom, symbols, s) == Some(s1);
    assert Step(rom, symbols, s1) == Some(s2);
    assert Step(rom, symbols, s2) == Some(s3);
    assert Step(rom, symbols, s3) == Some(s4);
    assert Step(rom, symbols, s4) == Some(State(0, s.d, Pushed(s.ram, 0), p + 5));
    assert Run(rom, symbols, s2, 3) == Some(State(0, s.d, Pushed(s.ram, 0), p + 5));
  }

  /** The loop's body counts D down and pushes one zero. */
  lemma RunLoopPush(name: string, count: U16, rom: seq<Instruction>, symbols: map<string, Word>, s: State, q: nat, sp: Word)
    requires Loaded(rom, ZeroLoop(name, count), q) && s.pc == q + 3
    requires StackPointer(s.ram) == sp && 0 < sp < 0xFFFF
    ensures Run(rom, symbols, s, 6) == Some(State(0, Wrap(s.d as int - 1), Pushed(s.ram, 0), q + 9))
  {
    LoadedAt(rom, ZeroLoop(name, count), q, 3);
    LoadedAt(rom, ZeroLoop(name, count), q, 4);
    LoadedAt(rom, ZeroLoop(name, count), q, 5);
    LoadedAt(rom, ZeroLoop(name, count), q, 6);
    LoadedAt(rom, ZeroLoop(name, count), q, 7);
    LoadedAt(rom, ZeroLoop(name, count), q, 8);
    var s1 := State(s.a, Wrap(s.d as int - 1), s.ram, q + 4);
    assert Step(rom, symbols, s) == Some(s1);
    RunPushZero(rom, symbols, s1, q + 4, sp);
    StepThen(rom, symbols, s, s1, 5, State(0, Wrap(s.d as int - 1), Pushed(s.ram, 0), q + 9));
  }

  /** The loop's last two lines jump back to its label. */
  lemma RunLoopBack(name: string, count: U16, rom: seq<Instruction>, symbols: map<string, Word>, s: State, q: nat)
    requires Labelled(rom, symbols) && Loaded(rom, ZeroLoop(name, count), q) && s.pc == q + 9
    ensures Run(rom, symbols, s, 2) == Some(State(q, s.d, s.ram, q))
  {
    LoadedAt(rom, ZeroLoop(name, count), q, 0);
    LabelAddress(rom, symbols, q);
    LoadedAt(rom, ZeroLoop(name, count), q, 9);
    LoadedAt(rom, ZeroLoop(name, count), q, 10);
    var s1 := State(q, s.d, s.ram, q + 10);
    assert Step(rom, symbols, s) == Some(s1);
    assert Step(rom, symbols, s1) == Some(State(q, s.d, s.ram, q));
  }

  /** One turn of the loop: D one less, one zero pushed, back at the loop label. */
  lemma RunLoopTurn(name: string, count: U16, rom: seq<Instruction>, symbols: map<string, Word>, s: State, q: nat)
    requires Labelled(rom, symbols) && Loaded(rom, ZeroLoop(name, count), q) && s.pc == q
    requires q + 11 < |rom| && rom[q + 11] == Define(EndLabel(name, count))
    requires s.d != 0 && 0 < StackPointer(s.ram) < 0xFFFF
    ensures Run(rom, symbols, s, 11) == Some(State(q, s.d - 1, Pushed(s.ram, 0), q))
  {
    RunLoopEnter(name, count, rom, symbols, s, q);
    WrapFits(s.d - 1);
    RunLoopPush(name, count, rom, symbols, State(q + 11, s.d, s.ram, q + 3), q, StackPointer(s.ram));
    RunThenTo(rom, symbols, s, 3, State(q + 11, s.d, s.ram, q + 3), 6, State(0, s.d - 1, Pushed(s.ram, 0), q + 9), 9);
    RunLoopBack(name, count, rom, symbols, State(0, s.d - 1, Pushed(s.ram, 0), q + 9), q);
    RunThenTo(rom, symbols, s, 9, State(0, s.d - 1, Pushed(s.ram, 0), q + 9), 2, State(q, s.d - 1, Pushed(s.ram, 0), q), 11);
  }

  /** From the loop label with D = d, the loop pushes d zeros and leaves past the end label. */
  lemma {:induction false} RunZeroLoop(name: string, count: U16, rom: seq<Instruction>, symbols: map<string, Word>,
                                       s: State, q: nat, d: Word)
    requires Labelled(rom, symbols) && Loaded(rom, ZeroLoop(name, count), q) && s.pc == q
    requires q + 11 < |rom| && rom[q + 11] == Define(EndLabel(name, count))
    requires s.d == d && 0 < StackPointer(s.ram) && StackPointer(s.ram) + d < 0x1_0000
    ensures Run(rom, symbols, s, 11 * d + 4) == Some(State(q + 11, 0, PushZeros(s.ram, d), q + 12))
    decreases d
  {
    if d == 0 {
      RunLoopExit(name, count, rom, symbols, s, q);
    } else {
      PushedCells(s.ram, 0);
      RunZeroLoop(name, count, rom, symbols, State(q, d - 1, Pushed(s.ram, 0), q), q, d - 1);
      LoopAgain(s.ram, d);
      RunTurnThenRest(name, count, rom, symbols, s, q, d, 11 * (d - 1) + 4, State(q + 11, 0, PushZeros(s.ram, d), q + 12),
                      11 * d + 4);
    }
  }

  /** A turn of the loop, then `n` more lines from the loop label with D one less. */
  lemma RunTurnThenRest(name: string, count: U16, rom: seq<Instruction>, symbols: map<string, Word>,
                        s: State, q: nat, d: Word, n: nat, u: State, total: nat)
    requires Labelled(rom, symbols) && Loaded(rom, ZeroLoop(name, count), q) && s.pc == q
    requires q + 11 < |rom| && rom[q + 11] == Define(EndLabel(name, count))
    requires s.d == d && d != 0 && 0 < StackPointer(s.ram) < 0xFFFF
    requires Run(rom, symbols, State(q, d - 1, Pushed(s.ram, 0), q), n) == Some(u) && total == n + 11
    ensures Run(rom, symbols, s, total) == Some(u)
  {
    RunLoopTurn(name, count, rom, symbols, s, q);
    RunThenTo(rom, symbols, s, 11, State(q, d - 1, Pushed(s.ram, 0), q), n, u, total);
  }

  /** One zero pushed, then the rest, is all the zeros. */
  lemma LoopAgain(ram: map<Word, Word>, d: Word)
    requires d != 0
    ensures PushZeros(Pushed(ram, 0), d - 1) == PushZeros(ram, d)
  {
  }

  /**
   * `function name count` defines `name`, pushes `count` zeros as the function's locals and
   * goes on past its end label, with D = 0.
   */
  lemma RunFunction(name: string, count: U16, rom: seq<Instruction>, symbols: map<string, Word>, s: State)
    requires Labelled(rom, symbols) && Loaded(rom, FunctionCode(name, count), s.pc)
    requires 0 < StackPointer(s.ram) && StackPointer(s.ram) + count < 0x1_0000
    ensures Run(rom, symbols, s, 11 * count + 7) == Some(State(s.pc + 14, 0, PushZeros(s.ram, count), s.pc + 15))
  {
    FunctionPieces(name, count, rom, s.pc);
    RunPrologueHead(name, count, rom, symbols, s, s.pc);
    RunZeroLoop(name, count, rom, symbols, State(count, count, s.ram, s.pc + 3), s.pc + 3, count);
    RunThenTo(rom, symbols, s, 3, State(count, count, s.ram, s.pc + 3), 11 * count + 4,
              State(s.pc + 14, 0, PushZeros(s.ram, count), s.pc + 15), 11 * count + 7);
  }
}
