/**
 * What the generated code does on the Hack machine, for the commands that work on the stack
 * and on the program counter: push, pop, the nine operations, goto, if-goto and the function
 * prologue.
 *
 * The stack pointer SP lives in RAM[0]. Each lemma loads one command's code somewhere in the
 * program, runs it from its first line, and states where the run ends and what RAM then
 * holds, in terms of the RAM before. A stack pointer above the sixteen registers keeps the
 * stack clear of SP and of the scratch registers R13 and R14.
 */
module StackSemantics {
  import opened Wrappers
  import opened Decimal
  import opened Hack
  import opened Translator
  import Commands

  /** The stack pointer. */
  function StackPointer(ram: map<Word, Word>): Word {
    Read(ram, 0)
  }

  /** SP points above R0 to R15. */
  predicate AboveRegisters(ram: map<Word, Word>) {
    16 < StackPointer(ram)
  }

  /** Push `v`: store it at SP, then move SP up one cell. */
  function Pushed(ram: map<Word, Word>, v: Word): map<Word, Word> {
    var sp := StackPointer(ram);
    ram[sp := v][0 := Wrap(sp as int + 1)]
  }

  /** Pop the top of the stack into the cell `target`: move SP down, then store the old top there. */
  function Popped(ram: map<Word, Word>, target: Word): map<Word, Word> {
    var sp := StackPointer(ram);
    ram[0 := Wrap(sp as int - 1)][target := Read(ram, Wrap(sp as int - 1))]
  }

  // ---------------------------------------------------------------- running code

  lemma LoadedAt(rom: seq<Instruction>, code: seq<Instruction>, at: nat, k: nat)
    requires Loaded(rom, code, at) && k < |code|
    ensures rom[at + k] == code[k]
  {
  }

  lemma LoadedSplit(rom: seq<Instruction>, a: seq<Instruction>, b: seq<Instruction>, at: nat)
    requires Loaded(rom, a + b, at)
    ensures Loaded(rom, a, at) && Loaded(rom, b, at + |a|)
  {
    forall k | 0 <= k < |a| ensures rom[at + k] == a[k] {
      assert rom[at + k] == (a + b)[k];
    }
    forall k | 0 <= k < |b| ensures rom[at + |a| + k] == b[k] {
      assert rom[at + (|a| + k)] == (a + b)[|a| + k];
    }
  }

  /** Two runs one after the other are one run of `total` lines. */
  lemma RunThenTo(rom: seq<Instruction>, symbols: map<string, Word>, s: State, m: nat, t: State, n: nat, u: State, total: nat)
    requires Run(rom, symbols, s, m) == Some(t) && Run(rom, symbols, t, n) == Some(u) && total == m + n
    ensures Run(rom, symbols, s, total) == Some(u)
  {
    RunAdd(rom, symbols, s, m, n);
  }

  /** One step followed by a run is one longer run. */
  lemma StepThen(rom: seq<Instruction>, symbols: map<string, Word>, s: State, t: State, n: nat, u: State)
    requires Step(rom, symbols, s) == Some(t) && Run(rom, symbols, t, n) == Some(u)
    ensures Run(rom, symbols, s, n + 1) == Some(u)
  {
    RunAdd(rom, symbols, s, 1, n);
  }

  // ---------------------------------------------------------------- push

  /** The shared tail of every push stores D at SP and moves SP up. */
  lemma RunPushD(rom: seq<Instruction>, symbols: map<string, Word>, s: State)
    requires Loaded(rom, PushD, s.pc)
    requires StackPointer(s.ram) != 0
    ensures Run(rom, symbols, s, 5) == Some(State(0, s.d, Pushed(s.ram, s.d), s.pc + 5))
  {
    var p := s.pc;
    LoadedAt(rom, PushD, p, 0);
    LoadedAt(rom, PushD, p, 1);
    LoadedAt(rom, PushD, p, 2);
    LoadedAt(rom, PushD, p, 3);
    LoadedAt(rom, PushD, p, 4);
    var sp := StackPointer(s.ram);
    var s1 := s.(a := 0, pc := p + 1);
    var s2 := s1.(a := sp, pc := p + 2);
    var s3 := s2.(ram := s.ram[sp := s.d], pc := p + 3);
    var s4 := s3.(a := 0, pc := p + 4);
    var s5 := s4.(ram := s3.ram[0 := Wrap(sp as int + 1)], pc := p + 5);
    assert Step(rom, symbols, s) == Some(s1);
    assert Step(rom, symbols, s1) == Some(s2);
    assert Step(rom, symbols, s2) == Some(s3);
    assert Step(rom, symbols, s3) == Some(s4);
    assert Read(s3.ram, 0) == sp;
    assert Step(rom, symbols, s4) == Some(s5);
    assert Run(rom, symbols, s3, 2) == Some(s5);
    assert Run(rom, symbols, s1, 4) == Some(s5);
  }

  /** The RAM cell of a predefined register. */
  function Cell(r: Register): Word
    requires RegisterAddress(r).Some?
  {
    RegisterAddress(r).value
  }

  /**
   * The RAM cell behind `segment[index]`, for every segment but `constant`: a variable of the
   * symbol table for `static`, RAM[3 + i] for `pointer`, RAM[5 + i] for `temp`, and the base
   * pointer plus the index for the four indirect segments.
   */
  function SegmentAddress(file: string, segment: MemorySegment, index: U16, ram: map<Word, Word>,
                          symbols: map<string, Word>): Word
    requires !segment.Constant?
    requires segment.Static? ==> StaticName(file, index) in symbols
  {
    match segment
    case Static => symbols[StaticName(file, index)]
    case Pointer => Wrap(3 + index)
    case Temp => Wrap(5 + index)
    case Local | Argument | This | That => Wrap(Read(ram, Cell(Base(segment))) + index)
  }

  /** The value `push segment index` pushes. */
  function PushValue(file: string, segment: MemorySegment, index: U16, ram: map<Word, Word>,
                     symbols: map<string, Word>): Word
    requires segment.Static? ==> StaticName(file, index) in symbols
  {
    if segment.Constant? then index else Read(ram, SegmentAddress(file, segment, index, ram, symbols))
  }

  /** Where a push leaves A: the constant itself, or the address of the segment's cell. */
  function Fetched(file: string, segment: MemorySegment, index: U16, ram: map<Word, Word>,
                   symbols: map<string, Word>): Word
    requires segment.Static? ==> StaticName(file, index) in symbols
  {
    if segment.Constant? then index else SegmentAddress(file, segment, index, ram, symbols)
  }

  /** The lines before `PushD` leave the value to push in D and leave RAM alone. */
  lemma RunFetch(file: string, segment: MemorySegment, index: U16, rom: seq<Instruction>,
                 symbols: map<string, Word>, s: State)
    requires Fetch(file, segment, index).Ok?
    requires Loaded(rom, Fetch(file, segment, index).value, s.pc)
    requires segment.Static? ==> StaticName(file, index) in symbols
    ensures var n := |Fetch(file, segment, index).value|;
      Run(rom, symbols, s, n)
        == Some(State(Fetched(file, segment, index, s.ram, symbols), PushValue(file, segment, index, s.ram, symbols), s.ram, s.pc + n))
  {
    if segment.IsIndirect() {
      RunFetchThroughBase(file, segment, index, rom, symbols, s);
    } else {
      RunFetchDirect(file, segment, index, rom, symbols, s);
    }
  }

  lemma RunFetchThroughBase(file: string, segment: MemorySegment, index: U16, rom: seq<Instruction>,
                            symbols: map<string, Word>, s: State)
    requires segment.IsIndirect()
    requires Loaded(rom, Fetch(file, segment, index).value, s.pc)
    ensures var n := |Fetch(file, segment, index).value|;
      Run(rom, symbols, s, n)
        == Some(State(Fetched(file, segment, index, s.ram, symbols), PushValue(file, segment, index, s.ram, symbols), s.ram, s.pc + n))
  {
    FetchThroughBase(file, segment, index);
    RunFetchIndirect(file, segment, index, rom, symbols, s, Fetch(file, segment, index).value);
  }

  /** The lines that fetch through a base pointer. */
  lemma FetchThroughBase(file: string, segment: MemorySegment, index: U16)
    requires segment.IsIndirect()
    ensures Fetch(file, segment, index).Ok?
    ensures Fetch(file, segment, index).value
      == [AtRegister(Base(segment)), Assign(ToD, MReg), AtNumber(index), Assign(ToA, APlusD), Assign(ToD, MReg)]
  {
  }

  /** For a segment reached through a base pointer, the cell is the base plus the index. */
  lemma IndirectCell(file: string, segment: MemorySegment, index: U16, ram: map<Word, Word>,
                     symbols: map<string, Word>)
    requires segment.IsIndirect()
    ensures Fetched(file, segment, index, ram, symbols) == Wrap(Read(ram, Cell(Base(segment))) + index)
    ensures PushValue(file, segment, index, ram, symbols) == Read(ram, Wrap(Read(ram, Cell(Base(segment))) + index))
    ensures SegmentAddress(file, segment, index, ram, symbols) == Wrap(Read(ram, Cell(Base(segment))) + index)
  {
  }

  /** Through a base pointer: the base into D, the index into A, their sum into A, the cell into D. */
  lemma RunFetchIndirect(file: string, segment: MemorySegment, index: U16, rom: seq<Instruction>,
                         symbols: map<string, Word>, s: State, code: seq<Instruction>)
    requires segment.IsIndirect()
    requires code == [AtRegister(Base(segment)), Assign(ToD, MReg), AtNumber(index), Assign(ToA, APlusD), Assign(ToD, MReg)]
    requires Loaded(rom, code, s.pc)
    ensures Run(rom, symbols, s, |code|)
      == Some(State(Fetched(file, segment, index, s.ram, symbols), PushValue(file, segment, index, s.ram, symbols), s.ram, s.pc + |code|))
  {
    var p := s.pc;
    IndirectCell(file, segment, index, s.ram, symbols);
    LoadedAt(rom, code, p, 0);
    LoadedAt(rom, code, p, 1);
    LoadedAt(rom, code, p, 2);
    LoadedAt(rom, code, p, 3);
    LoadedAt(rom, code, p, 4);
    RunBaseAndIndex(segment, index, rom, symbols, s, p);
    var base := Read(s.ram, Cell(Base(segment)));
    var s3 := State(index, base, s.ram, p + 3);
    var s4 := State(Wrap(base + index), base, s.ram, p + 4);
    var s5 := State(Wrap(base + index), Read(s.ram, Wrap(base + index)), s.ram, p + 5);
    assert Step(rom, symbols, s3) == Some(s4);
    assert Step(rom, symbols, s4) == Some(s5);
    RunThenTo(rom, symbols, s, 3, s3, 2, s5, 5);
  }

  /** Without a base pointer: the constant or the cell's address into A, then into D. */
  lemma RunFetchDirect(file: string, segment: MemorySegment, index: U16, rom: seq<Instruction>,
                       symbols: map<string, Word>, s: State)
    requires !segment.IsIndirect() && Fetch(file, segment, index).Ok?
    requires Loaded(rom, Fetch(file, segment, index).value, s.pc)
    requires segment.Static? ==> StaticName(file, index) in symbols
    ensures var n := |Fetch(file, segment, index).value|;
      Run(rom, symbols, s, n)
        == Some(State(Fetched(file, segment, index, s.ram, symbols), PushValue(file, segment, index, s.ram, symbols), s.ram, s.pc + n))
  {
    var code := Fetch(file, segment, index).value;
    assert |code| == 2;
    var p := s.pc;
    WrapFits(index);
    LoadedAt(rom, code, p, 0);
    LoadedAt(rom, code, p, 1);
    var s1 := s.(a := Fetched(file, segment, index, s.ram, symbols), pc := p + 1);
    assert Step(rom, symbols, s) == Some(s1);
    assert Step(rom, symbols, s1) == Some(s1.(d := PushValue(file, segment, index, s.ram, symbols), pc := p + 2));
  }

  /** Lines that load a value into D without touching RAM, followed by `PushD`, push that value. */
  lemma RunLoadThenPush(rom: seq<Instruction>, symbols: map<string, Word>, s: State, n: nat, t: State, u: State, total: nat)
    requires Loaded(rom, PushD, s.pc + n)
    requires StackPointer(s.ram) != 0
    requires Run(rom, symbols, s, n) == Some(t) && t.ram == s.ram && t.pc == s.pc + n
    requires u == State(0, t.d, Pushed(s.ram, t.d), s.pc + n + 5) && total == n + 5
    ensures Run(rom, symbols, s, total) == Some(u)
  {
    RunPushD(rom, symbols, t);
    RunThenTo(rom, symbols, s, n, t, 5, u, total);
  }

  /** `push segment index` pushes the segment's cell (the index itself for `constant`). */
  lemma RunPush(file: string, segment: MemorySegment, index: U16, rom: seq<Instruction>,
                symbols: map<string, Word>, s: State)
    requires PushCode(file, segment, index).Ok?
    requires Loaded(rom, PushCode(file, segment, index).value, s.pc)
    requires segment.Static? ==> StaticName(file, index) in symbols
    requires StackPointer(s.ram) != 0
    ensures var n := |PushCode(file, segment, index).value|;
      var v := PushValue(file, segment, index, s.ram, symbols);
      Run(rom, symbols, s, n) == Some(State(0, v, Pushed(s.ram, v), s.pc + n))
  {
    var fetch := Fetch(file, segment, index).value;
    var v := PushValue(file, segment, index, s.ram, symbols);
    assert PushCode(file, segment, index).value == fetch + PushD;
    LoadedSplit(rom, fetch, PushD, s.pc);
    RunFetch(file, segment, index, rom, symbols, s);
    RunLoadThenPush(rom, symbols, s, |fetch|, State(Fetched(file, segment, index, s.ram, symbols), v, s.ram, s.pc + |fetch|),
                    State(0, v, Pushed(s.ram, v), s.pc + |PushCode(file, segment, index).value|), |PushCode(file, segment, index).value|);
  }

  // ---------------------------------------------------------------- pop

  /** The shared head of a pop moves SP down and loads the old top into D. */
  lemma RunPopD(rom: seq<Instruction>, symbols: map<string, Word>, s: State, sp: Word, p: nat)
    requires Loaded(rom, PopD, p) && s.pc == p
    requires StackPointer(s.ram) == sp && 16 < sp
    ensures Run(rom, symbols, s, 4) == Some(State(sp - 1, Read(s.ram, sp - 1), s.ram[0 := sp - 1], p + 4))
  {
    LoadedAt(rom, PopD, p, 0);
    LoadedAt(rom, PopD, p, 1);
    LoadedAt(rom, PopD, p, 2);
    LoadedAt(rom, PopD, p, 3);
    var s1 := s.(a := 0, pc := p + 1);
    var s2 := s1.(ram := s.ram[0 := sp - 1], pc := p + 2);
    var s3 := s2.(a := sp - 1, pc := p + 3);
    var s4 := s3.(d := Read(s.ram, sp - 1), pc := p + 4);
    assert Step(rom, symbols, s) == Some(s1);
    assert Step(rom, symbols, s1) == Some(s2);
    assert Step(rom, symbols, s2) == Some(s3);
    assert Step(rom, symbols, s3) == Some(s4);
    assert Run(rom, symbols, s2, 2) == Some(s4);
  }

  /** A direct pop ends by storing D in the target cell. */
  lemma RunStoreD(rom: seq<Instruction>, symbols: map<string, Word>, s: State, select: Instruction, target: Word)
    requires select.AtRegister? || select.AtSymbol?
    requires Loaded(rom, [select, Assign(ToM, DReg)], s.pc)
    requires Address(select, symbols) == Some(target)
    ensures Run(rom, symbols, s, 2) == Some(State(target, s.d, s.ram[target := s.d], s.pc + 2))
  {
    LoadedAt(rom, [select, Assign(ToM, DReg)], s.pc, 0);
    LoadedAt(rom, [select, Assign(ToM, DReg)], s.pc, 1);
    var s1 := s.(a := target, pc := s.pc + 1);
    assert Step(rom, symbols, s) == Some(s1);
    assert Step(rom, symbols, s1) == Some(s1.(ram := s.ram[target := s.d], pc := s.pc + 2));
  }

  /** Both indirect accesses open by loading the segment's base into D and the index into A. */
  lemma RunBaseAndIndex(segment: MemorySegment, index: U16, rom: seq<Instruction>,
                        symbols: map<string, Word>, s: State, p: nat)
    requires segment.IsIndirect() && s.pc == p && p + 2 < |rom|
    requires rom[p] == AtRegister(Base(segment)) && rom[p + 1] == Assign(ToD, MReg) && rom[p + 2] == AtNumber(index)
    ensures Run(rom, symbols, s, 3) == Some(State(index, Read(s.ram, Cell(Base(segment))), s.ram, p + 3))
  {
    var s1 := State(Cell(Base(segment)), s.d, s.ram, p + 1);
    var s2 := State(Cell(Base(segment)), Read(s.ram, Cell(Base(segment))), s.ram, p + 2);
    assert Step(rom, symbols, s) == Some(s1);
    assert Step(rom, symbols, s1) == Some(s2);
  }

  /** The head of an indirect pop computes the target cell and keeps it in R13. */
  lemma RunTargetToR13(file: string, segment: MemorySegment, index: U16, rom: seq<Instruction>,
                       symbols: map<string, Word>, s: State, p: nat)
    requires segment.IsIndirect() && s.pc == p
    requires Loaded(rom, [AtRegister(Base(segment)), Assign(ToD, MReg), AtNumber(index), Assign(ToD, APlusD),
                          AtRegister(R(13)), Assign(ToM, DReg)], p)
    ensures var target := SegmentAddress(file, segment, index, s.ram, symbols);
      Run(rom, symbols, s, 6) == Some(State(13, target, s.ram[13 := target], p + 6))
  {
    var code := [AtRegister(Base(segment)), Assign(ToD, MReg), AtNumber(index), Assign(ToD, APlusD),
                 AtRegister(R(13)), Assign(ToM, DReg)];
    IndirectCell(file, segment, index, s.ram, symbols);
    LoadedAt(rom, code, p, 0);
    LoadedAt(rom, code, p, 1);
    LoadedAt(rom, code, p, 2);
    LoadedAt(rom, code, p, 3);
    LoadedAt(rom, code, p, 4);
    LoadedAt(rom, code, p, 5);
    RunBaseAndIndex(segment, index, rom, symbols, s, p);
    var base := Read(s.ram, Cell(Base(segment)));
    var s3 := State(index, base, s.ram, p + 3);
    var s6 := State(13, Wrap(base + index), s.ram[13 := Wrap(base + index)], p + 6);
    RunAddressToR13(rom, symbols, s3, s6);
    RunThenTo(rom, symbols, s, 3, s3, 3, s6, 6);
  }

  /** `D=A+D @R13 M=D`: the cell's address into R13. */
  lemma RunAddressToR13(rom: seq<Instruction>, symbols: map<string, Word>, s: State, u: State)
    requires s.pc + 2 < |rom|
    requires rom[s.pc] == Assign(ToD, APlusD) && rom[s.pc + 1] == AtRegister(R(13)) && rom[s.pc + 2] == Assign(ToM, DReg)
    requires u == State(13, Wrap(s.a + s.d), s.ram[13 := Wrap(s.a + s.d)], s.pc + 3)
    ensures Run(rom, symbols, s, 3) == Some(u)
  {
    var s1 := s.(d := Wrap(s.a + s.d), pc := s.pc + 1);
    var s2 := s1.(a := 13, pc := s.pc + 2);
    assert Step(rom, symbols, s) == Some(s1);
    assert Step(rom, symbols, s1) == Some(s2);
    assert Step(rom, symbols, s2) == Some(u);
  }

  /** The tail of an indirect pop stores D in the cell whose address R13 holds. */
  lemma RunStoreThroughR13(rom: seq<Instruction>, symbols: map<string, Word>, s: State, p: nat)
    requires Loaded(rom, [AtRegister(R(13)), Assign(ToA, MReg), Assign(ToM, DReg)], p) && s.pc == p
    ensures var target := Read(s.ram, 13);
      Run(rom, symbols, s, 3) == Some(State(target, s.d, s.ram[target := s.d], p + 3))
  {
    var code := [AtRegister(R(13)), Assign(ToA, MReg), Assign(ToM, DReg)];
    LoadedAt(rom, code, s.pc, 0);
    LoadedAt(rom, code, s.pc, 1);
    LoadedAt(rom, code, s.pc, 2);
    var s1 := s.(a := 13, pc := s.pc + 1);
    var s2 := s1.(a := Read(s.ram, 13), pc := s.pc + 2);
    assert Step(rom, symbols, s) == Some(s1);
    assert Step(rom, symbols, s1) == Some(s2);
    assert Step(rom, symbols, s2) == Some(s2.(ram := s.ram[s2.a := s.d], pc := s.pc + 3));
  }

  /** An indirect pop: the target into R13, the top into D, D into the target. */
  lemma RunPopThroughR13(rom: seq<Instruction>, symbols: map<string, Word>, s: State, target: Word)
    requires Loaded(rom, PopD, s.pc + 6)
    requires Loaded(rom, [AtRegister(R(13)), Assign(ToA, MReg), Assign(ToM, DReg)], s.pc + 10)
    requires Run(rom, symbols, s, 6) == Some(State(13, target, s.ram[13 := target], s.pc + 6))
    requires AboveRegisters(s.ram)
    ensures var sp := StackPointer(s.ram);
      Run(rom, symbols, s, 13) == Some(State(target, Read(s.ram, sp - 1), Popped(s.ram[13 := target], target), s.pc + 13))
  {
    ScratchKeepsStack(s.ram, target);
    RunPopD(rom, symbols, State(13, target, s.ram[13 := target], s.pc + 6), StackPointer(s.ram), s.pc + 6);
    RunThenTo(rom, symbols, s, 6, State(13, target, s.ram[13 := target], s.pc + 6), 4,
            State(StackPointer(s.ram) - 1, Read(s.ram[13 := target], StackPointer(s.ram) - 1),
                  s.ram[13 := target][0 := StackPointer(s.ram) - 1], s.pc + 10), 10);
    RunStoreThroughR13(rom, symbols, State(StackPointer(s.ram) - 1, Read(s.ram[13 := target], StackPointer(s.ram) - 1),
                                           s.ram[13 := target][0 := StackPointer(s.ram) - 1], s.pc + 10), s.pc + 10);
    RunThenTo(rom, symbols, s, 10, State(StackPointer(s.ram) - 1, Read(s.ram[13 := target], StackPointer(s.ram) - 1),
                                       s.ram[13 := target][0 := StackPointer(s.ram) - 1], s.pc + 10), 3,
            State(target, Read(s.ram[13 := target], StackPointer(s.ram) - 1),
                  s.ram[13 := target][0 := StackPointer(s.ram) - 1][target := Read(s.ram[13 := target], StackPointer(s.ram) - 1)],
                  s.pc + 13), 13);
  }

  /** Writing R13 touches neither SP nor the top of a stack above the registers. */
  lemma ScratchKeepsStack(ram: map<Word, Word>, target: Word)
    requires AboveRegisters(ram)
    ensures var sp := StackPointer(ram);
      && StackPointer(ram[13 := target]) == sp
      && Read(ram[13 := target], sp - 1) == Read(ram, sp - 1)
      && Read(ram[13 := target][0 := sp - 1], 13) == target
      && Popped(ram[13 := target], target) == ram[13 := target][0 := sp - 1][target := Read(ram, sp - 1)]
  {
    WrapFits(StackPointer(ram) - 1);
  }

  /** A direct pop: the top into D, D into the target. */
  lemma RunPopDirect(rom: seq<Instruction>, symbols: map<string, Word>, s: State, select: Instruction, target: Word)
    requires select.AtRegister? || select.AtSymbol?
    requires Loaded(rom, PopD + [select, Assign(ToM, DReg)], s.pc)
    requires Address(select, symbols) == Some(target)
    requires AboveRegisters(s.ram)
    ensures Run(rom, symbols, s, 6).Some?
    ensures Run(rom, symbols, s, 6).value.pc == s.pc + 6
    ensures Run(rom, symbols, s, 6).value.ram == Popped(s.ram, target)
  {
    var sp := StackPointer(s.ram);
    LoadedSplit(rom, PopD, [select, Assign(ToM, DReg)], s.pc);
    RunPopD(rom, symbols, s, sp, s.pc);
    var s4 := State(sp - 1, Read(s.ram, sp - 1), s.ram[0 := sp - 1], s.pc + 4);
    RunStoreD(rom, symbols, s4, select, target);
    RunThenTo(rom, symbols, s, 4, s4, 2, State(target, s4.d, s4.ram[target := s4.d], s4.pc + 2), 6);
    WrapFits(sp - 1);
  }

  lemma RunPopIndirect(file: string, segment: MemorySegment, index: U16, rom: seq<Instruction>,
                       symbols: map<string, Word>, s: State)
    requires segment.IsIndirect() && PopCode(file, segment, index).Ok?
    requires Loaded(rom, PopCode(file, segment, index).value, s.pc)
    requires AboveRegisters(s.ram)
    ensures var t := Run(rom, symbols, s, 13);
      var target := SegmentAddress(file, segment, index, s.ram, symbols);
      && |PopCode(file, segment, index).value| == 13
      && t.Some? && t.value.pc == s.pc + 13 && t.value.ram == Popped(s.ram[13 := target], target)
  {
    IndirectPopPieces(file, segment, index, rom, s.pc);
    RunTargetToR13(file, segment, index, rom, symbols, s, s.pc);
    RunPopThroughR13(rom, symbols, s, SegmentAddress(file, segment, index, s.ram, symbols));
  }

  /** An indirect pop is its head, the shared pop of D, and the store through R13, one after another. */
  lemma IndirectPopPieces(file: string, segment: MemorySegment, index: U16, rom: seq<Instruction>, at: nat)
    requires segment.IsIndirect() && PopCode(file, segment, index).Ok?
    requires Loaded(rom, PopCode(file, segment, index).value, at)
    ensures |PopCode(file, segment, index).value| == 13
    ensures Loaded(rom, [AtRegister(Base(segment)), Assign(ToD, MReg), AtNumber(index), Assign(ToD, APlusD),
                         AtRegister(R(13)), Assign(ToM, DReg)], at)
    ensures Loaded(rom, PopD, at + 6)
    ensures Loaded(rom, [AtRegister(R(13)), Assign(ToA, MReg), Assign(ToM, DReg)], at + 10)
  {
    var head := [AtRegister(Base(segment)), Assign(ToD, MReg), AtNumber(index), Assign(ToD, APlusD),
                 AtRegister(R(13)), Assign(ToM, DReg)];
    var store := [AtRegister(R(13)), Assign(ToA, MReg), Assign(ToM, DReg)];
    assert PopCode(file, segment, index).value == head + (PopD + store);
    LoadedSplit(rom, head, PopD + store, at);
    LoadedSplit(rom, PopD, store, at + 6);
  }

  lemma RunPopSegment(file: string, segment: MemorySegment, index: U16, rom: seq<Instruction>,
                      symbols: map<string, Word>, s: State)
    requires !segment.IsIndirect() && PopCode(file, segment, index).Ok?
    requires Loaded(rom, PopCode(file, segment, index).value, s.pc)
    requires segment.Static? ==> StaticName(file, index) in symbols
    requires AboveRegisters(s.ram)
    ensures !segment.Constant?
    ensures var t := Run(rom, symbols, s, 6);
      var target := SegmentAddress(file, segment, index, s.ram, symbols);
      && |PopCode(file, segment, index).value| == 6
      && t.Some? && t.value.pc == s.pc + 6 && t.value.ram == Popped(s.ram, target)
  {
    var select := if segment.Static? then AtSymbol(StaticName(file, index))
      else if segment.Pointer? then AtRegister(PointerTarget(index).value)
      else AtRegister(TempTarget(index).value);
    assert PopCode(file, segment, index).value == PopD + [select, Assign(ToM, DReg)];
    RunPopDirect(rom, symbols, s, select, SegmentAddress(file, segment, index, s.ram, symbols));
  }

  /**
   * `pop segment index` moves the top of the stack into the segment's cell; an indirect
   * segment keeps the cell's address in R13 while it pops.
   */
  lemma RunPop(file: string, segment: MemorySegment, index: U16, rom: seq<Instruction>,
               symbols: map<string, Word>, s: State)
    requires PopCode(file, segment, index).Ok?
    requires Loaded(rom, PopCode(file, segment, index).value, s.pc)
    requires segment.Static? ==> StaticName(file, index) in symbols
    requires AboveRegisters(s.ram)
    ensures !segment.Constant?
    ensures var n := |PopCode(file, segment, index).value|;
      var t := Run(rom, symbols, s, n);
      var target := SegmentAddress(file, segment, index, s.ram, symbols);
      && t.Some? && t.value.pc == s.pc + n
      && t.value.ram == if segment.IsIndirect() then Popped(s.ram[13 := target], target) else Popped(s.ram, target)
  {
    if segment.IsIndirect() {
      RunPopIndirect(file, segment, index, rom, symbols, s);
    } else {
      RunPopSegment(file, segment, index, rom, symbols, s);
    }
  }

  /**
   * `push constant k` then `pop segment index`: the segment's cell ends up holding k, and
   * the stack is back at its old depth unless the cell is SP itself.
   */
  lemma PushConstantThenPop(file: string, k: U16, segment: MemorySegment, index: U16, rom: seq<Instruction>,
                            symbols: map<string, Word>, s: State)
    requires PushCode(file, Commands.Constant, k).Ok? && PopCode(file, segment, index).Ok?
    requires Loaded(rom, PushCode(file, Commands.Constant, k).value, s.pc)
    requires Loaded(rom, PopCode(file, segment, index).value, s.pc + 7)
    requires segment.Static? ==> StaticName(file, index) in symbols
    requires AboveRegisters(s.ram) && StackPointer(s.ram) < 0xFFFF
    ensures !segment.Constant?
    ensures var n := 7 + |PopCode(file, segment, index).value|;
      var t := Run(rom, symbols, s, n);
      var target := SegmentAddress(file, segment, index, s.ram, symbols);
      && t.Some? && t.value.pc == s.pc + n
      && Read(t.value.ram, target) == k
      && (target != 0 ==> StackPointer(t.value.ram) == StackPointer(s.ram))
  {
    var u := State(0, k, Pushed(s.ram, k), s.pc + 7);
    RunPushConstant(file, k, rom, symbols, s, u);
    PushedThenPopped(file, segment, index, s.ram, symbols, k);
    RunPop(file, segment, index, rom, symbols, u);
    var n := |PopCode(file, segment, index).value|;
    var v := Run(rom, symbols, u, n).value;
    RunThenTo(rom, symbols, s, 7, u, n, v, 7 + n);
    PoppedLands(file, segment, index, s.ram, symbols, k, v.ram);
  }

  /** `push constant k` takes seven steps and leaves `k` on top of the stack. */
  lemma RunPushConstant(file: string, k: U16, rom: seq<Instruction>, symbols: map<string, Word>, s: State, u: State)
    requires PushCode(file, Commands.Constant, k).Ok?
    requires Loaded(rom, PushCode(file, Commands.Constant, k).value, s.pc)
    requires StackPointer(s.ram) != 0
    requires u == State(0, k, Pushed(s.ram, k), s.pc + 7)
    ensures Run(rom, symbols, s, 7) == Some(u)
  {
    RunPush(file, Commands.Constant, k, rom, symbols, s);
    assert |PushCode(file, Commands.Constant, k).value| == 7;
  }

  lemma PoppedLands(file: string, segment: MemorySegment, index: U16, ram: map<Word, Word>,
                    symbols: map<string, Word>, k: Word, after: map<Word, Word>)
    requires !segment.Constant? && (segment.Static? ==> StaticName(file, index) in symbols)
    requires AboveRegisters(ram) && StackPointer(ram) < 0xFFFF
    requires var target := SegmentAddress(file, segment, index, Pushed(ram, k), symbols);
      after == if segment.IsIndirect() then Popped(Pushed(ram, k)[13 := target], target) else Popped(Pushed(ram, k), target)
    ensures var target := SegmentAddress(file, segment, index, ram, symbols);
      Read(after, target) == k && (target != 0 ==> StackPointer(after) == StackPointer(ram))
  {
    PushedThenPopped(file, segment, index, ram, symbols, k);
  }

  /** A pushed value popped straight into a cell lands there, and SP comes back. */
  lemma PushedThenPopped(file: string, segment: MemorySegment, index: U16, ram: map<Word, Word>,
                         symbols: map<string, Word>, k: Word)
    requires !segment.Constant? && (segment.Static? ==> StaticName(file, index) in symbols)
    requires AboveRegisters(ram) && StackPointer(ram) < 0xFFFF
    ensures AboveRegisters(Pushed(ram, k))
    ensures SegmentAddress(file, segment, index, Pushed(ram, k), symbols)
      == SegmentAddress(file, segment, index, ram, symbols)
    ensures var target := SegmentAddress(file, segment, index, ram, symbols);
      var direct := Popped(Pushed(ram, k), target);
      var indirect := Popped(Pushed(ram, k)[13 := target], target);
      && Read(direct, target) == k && Read(indirect, target) == k
      && (target != 0 ==> StackPointer(direct) == StackPointer(ram) && StackPointer(indirect) == StackPointer(ram))
  {
  }

  // ---------------------------------------------------------------- arithmetic

  /** The result of a binary operation on `x`, the cell under the top, and `y`, the top. */
  function BinaryValue(op: Arithmetic, x: Word, y: Word): Word
    requires IsBinary(op)
  {
    if op.ADD? then Wrap(x + y)
    else if op.SUB? then Wrap(x - y)
    else if op.AND? then BitAnd(x, y)
    else BitOr(x, y)
  }

  function UnaryValue(op: Arithmetic, y: Word): Word
    requires IsUnary(op)
  {
    if op.NEG? then Wrap(-(y as int)) else 0xFFFF - y
  }

  function ComparisonJump(op: Arithmetic): Jump
    requires IsComparison(op)
  {
    if op.EQ? then JEQ else if op.GT? then JGT else JLT
  }

  /** A comparison is decided by the sign of the 16-bit difference `x - y`. */
  predicate Holds(op: Arithmetic, x: Word, y: Word)
    requires IsComparison(op)
  {
    Jumps(ComparisonJump(op), Wrap(x - y))
  }

  lemma HoldsJumps(op: Arithmetic, x: Word, y: Word)
    requires IsComparison(op)
    ensures Holds(op, x, y) <==> Jumps(ComparisonJump(op), Wrap(x as int - y))
  {
  }

  /** The two's-complement value of a word. */
  function Signed(w: Word): int {
    if Negative(w) then w - 0x1_0000 else w
  }

  /** `eq` holds exactly when the two words are equal. */
  lemma HoldsEqual(x: Word, y: Word)
    ensures Holds(Commands.EQ, x, y) <==> x == y
  {
  }

  /** `gt` is the signed order whenever the difference fits in 16 bits. */
  lemma HoldsGreater(x: Word, y: Word)
    requires -0x8000 <= Signed(x) - Signed(y) < 0x8000
    ensures Holds(Commands.GT, x, y) <==> Signed(x) > Signed(y)
  {
  }

  /** `lt` is the signed order whenever the difference fits in 16 bits. */
  lemma HoldsLess(x: Word, y: Word)
    requires -0x8000 <= Signed(x) - Signed(y) < 0x8000
    ensures Holds(Commands.LT, x, y) <==> Signed(x) < Signed(y)
  {
  }

  /** When the difference overflows the order can come out wrong: 32767 is not `gt` -32768. */
  lemma GreaterOverflows()
    ensures Signed(0x7FFF) > Signed(0x8000) && !Holds(Commands.GT, 0x7FFF, 0x8000)
    ensures Signed(0x8000) < Signed(0x7FFF) && !Holds(Commands.LT, 0x8000, 0x7FFF)
  {
  }

  /**
   * What a comparison leaves under the popped top: -1 or 0 for `x == y`, and for `gt` and `lt`
   * the signed order of `x` and `y` when their difference fits in 16 bits.
   */
  lemma ComparisonMeaning(op: Arithmetic, ram: map<Word, Word>)
    requires IsComparison(op) && AboveRegisters(ram)
    ensures var sp := StackPointer(ram);
      var x := Read(ram, sp - 2);
      var y := Read(ram, sp - 1);
      var r := Read(ArithmeticResult(op, ram), sp - 2);
      && (op.EQ? ==> r == Truth(x == y))
      && (op.GT? && -0x8000 <= Signed(x) - Signed(y) < 0x8000 ==> r == Truth(Signed(x) > Signed(y)))
      && (op.LT? && -0x8000 <= Signed(x) - Signed(y) < 0x8000 ==> r == Truth(Signed(x) < Signed(y)))
  {
    var sp := StackPointer(ram);
    var x := Read(ram, sp - 2);
    var y := Read(ram, sp - 1);
    ComparisonStores(op, ram);
    if op.EQ? {
      HoldsEqual(x, y);
    } else if -0x8000 <= Signed(x) - Signed(y) < 0x8000 {
      HoldsGreater(x, y);
      HoldsLess(x, y);
    }
  }

  /** A comparison stores its truth value in the cell under the top. */
  lemma ComparisonStores(op: Arithmetic, ram: map<Word, Word>)
    requires IsComparison(op) && AboveRegisters(ram)
    ensures var sp := StackPointer(ram);
      Read(ArithmeticResult(op, ram), sp - 2) == Truth(Holds(op, Read(ram, sp - 2), Read(ram, sp - 1)))
  {
  }

  /** The VM's true is -1 (all ones), its false 0. */
  function Truth(b: bool): Word {
    if b then 0xFFFF else 0
  }

  /**
   * The RAM after an operation: a unary one replaces the top; a binary one or a comparison
   * pops the top and replaces the cell under it with the result.
   */
  function ArithmeticResult(op: Arithmetic, ram: map<Word, Word>): map<Word, Word>
    requires AboveRegisters(ram)
  {
    var sp := StackPointer(ram);
    var y := Read(ram, sp - 1);
    var x := Read(ram, sp - 2);
    if IsUnary(op) then ram[sp - 1 := UnaryValue(op, y)]
    else if IsBinary(op) then ram[0 := sp - 1][sp - 2 := BinaryValue(op, x, y)]
    else ram[0 := sp - 1][sp - 2 := Truth(Holds(op, x, y))]
  }

  /** How many instructions an operation runs: a comparison skips three when it holds. */
  function ArithmeticSteps(op: Arithmetic, ram: map<Word, Word>): nat
    requires AboveRegisters(ram)
  {
    var sp := StackPointer(ram);
    if IsUnary(op) then 3
    else if IsBinary(op) then 5
    else if Holds(op, Read(ram, sp - 2), Read(ram, sp - 1)) then 9
    else 12
  }

  /** The four lines shared by binary operations and comparisons. */
  const TopTwo: seq<Instruction> :=
    [AtRegister(SP), Assign(ToAM, MMinusOne), Assign(ToD, MReg), Assign(ToA, AMinusOne)]

  /** They pop the top into D and select the cell under it. */
  lemma RunTopTwo(rom: seq<Instruction>, symbols: map<string, Word>, s: State, t: State)
    requires Loaded(rom, TopTwo, s.pc)
    requires AboveRegisters(s.ram)
    requires var sp := StackPointer(s.ram);
      t == State(sp - 2, Read(s.ram, sp - 1), s.ram[0 := sp - 1], s.pc + 4)
    ensures Run(rom, symbols, s, 4) == Some(t)
  {
    var p := s.pc;
    var sp := StackPointer(s.ram);
    LoadedAt(rom, TopTwo, p, 0);
    LoadedAt(rom, TopTwo, p, 1);
    LoadedAt(rom, TopTwo, p, 2);
    LoadedAt(rom, TopTwo, p, 3);
    var s1 := s.(a := 0, pc := p + 1);
    var s2 := s1.(a := sp - 1, ram := s.ram[0 := sp - 1], pc := p + 2);
    var s3 := s2.(d := Read(s.ram, sp - 1), pc := p + 3);
    assert Step(rom, symbols, s) == Some(s1);
    assert Step(rom, symbols, s1) == Some(s2);
    assert Step(rom, symbols, s2) == Some(s3);
    assert Step(rom, symbols, s3) == Some(t);
    assert Run(rom, symbols, s2, 2) == Some(t);
  }

  /** The last line of a binary operation stores M op D in M. */
  lemma BinaryLine(op: Arithmetic, rom: seq<Instruction>, symbols: map<string, Word>, s: State, p: nat)
    requires IsBinary(op)
    requires p < |rom| && rom[p] == Operation(op) && s.pc == p
    ensures Step(rom, symbols, s)
      == Some(s.(ram := s.ram[s.a := BinaryValue(op, Read(s.ram, s.a), s.d)], pc := p + 1))
  {
    var m := Read(s.ram, s.a);
    if op.ADD? {
      assert rom[s.pc] == Assign(ToM, MPlusD);
      assert Compute(MPlusD, s) == Wrap(m + s.d);
    } else if op.SUB? {
      assert rom[s.pc] == Assign(ToM, MMinusD);
      assert Compute(MMinusD, s) == Wrap(m - s.d);
    } else if op.AND? {
      assert rom[s.pc] == Assign(ToM, MAndD);
      assert Compute(MAndD, s) == BitAnd(m, s.d);
    } else {
      assert rom[s.pc] == Assign(ToM, MOrD);
      assert Compute(MOrD, s) == BitOr(m, s.d);
    }
  }

  lemma BinaryResult(op: Arithmetic, ram: map<Word, Word>)
    requires IsBinary(op) && AboveRegisters(ram)
    ensures var sp := StackPointer(ram);
      ArithmeticResult(op, ram) == ram[0 := sp - 1][sp - 2 := BinaryValue(op, Read(ram, sp - 2), Read(ram, sp - 1))]
  {
  }

  lemma RunUnary(file: string, op: Arithmetic, n: nat, rom: seq<Instruction>, symbols: map<string, Word>, s: State)
    requires IsUnary(op)
    requires Loaded(rom, ArithmeticCode(file, op, n), s.pc)
    requires AboveRegisters(s.ram)
    ensures var t := Run(rom, symbols, s, 3);
      t.Some? && t.value.pc == s.pc + 3 && t.value.ram == ArithmeticResult(op, s.ram)
  {
    var code := ArithmeticCode(file, op, n);
    var p := s.pc;
    LoadedAt(rom, code, p, 0);
    LoadedAt(rom, code, p, 1);
    LoadedAt(rom, code, p, 2);
    var sp := StackPointer(s.ram);
    var s1 := s.(a := 0, pc := p + 1);
    var s2 := s1.(a := sp - 1, pc := p + 2);
    var s3 := s2.(ram := s.ram[sp - 1 := UnaryValue(op, Read(s.ram, sp - 1))], pc := p + 3);
    assert Step(rom, symbols, s) == Some(s1);
    assert Step(rom, symbols, s1) == Some(s2);
    assert Step(rom, symbols, s2) == Some(s3);
  }

  lemma RunBinary(file: string, op: Arithmetic, n: nat, rom: seq<Instruction>, symbols: map<string, Word>, s: State)
    requires IsBinary(op)
    requires Loaded(rom, ArithmeticCode(file, op, n), s.pc)
    requires AboveRegisters(s.ram)
    ensures var t := Run(rom, symbols, s, 5);
      var sp := StackPointer(s.ram);
      && t.Some? && t.value.pc == s.pc + 5
      && t.value.ram == s.ram[0 := sp - 1][sp - 2 := BinaryValue(op, Read(s.ram, sp - 2), Read(s.ram, sp - 1))]
  {
    assert ArithmeticCode(file, op, n) == TopTwo + [Operation(op)];
    RunBinaryCode(op, rom, symbols, s);
  }

  lemma RunBinaryCode(op: Arithmetic, rom: seq<Instruction>, symbols: map<string, Word>, s: State)
    requires IsBinary(op)
    requires Loaded(rom, TopTwo + [Operation(op)], s.pc)
    requires AboveRegisters(s.ram)
    ensures var t := Run(rom, symbols, s, 5);
      var sp := StackPointer(s.ram);
      && t.Some? && t.value.pc == s.pc + 5
      && t.value.ram == s.ram[0 := sp - 1][sp - 2 := BinaryValue(op, Read(s.ram, sp - 2), Read(s.ram, sp - 1))]
  {
    var sp := StackPointer(s.ram);
    var u := State(sp - 2, Read(s.ram, sp - 1),
                   s.ram[0 := sp - 1][sp - 2 := BinaryValue(op, Read(s.ram, sp - 2), Read(s.ram, sp - 1))], s.pc + 5);
    RunBinaryTo(op, rom, symbols, s, u);
  }

  lemma RunBinaryTo(op: Arithmetic, rom: seq<Instruction>, symbols: map<string, Word>, s: State, u: State)
    requires IsBinary(op)
    requires Loaded(rom, TopTwo + [Operation(op)], s.pc)
    requires AboveRegisters(s.ram)
    requires var sp := StackPointer(s.ram);
      u == State(sp - 2, Read(s.ram, sp - 1),
                 s.ram[0 := sp - 1][sp - 2 := BinaryValue(op, Read(s.ram, sp - 2), Read(s.ram, sp - 1))], s.pc + 5)
    ensures Run(rom, symbols, s, 5) == Some(u)
  {
    var sp := StackPointer(s.ram);
    var t := State(sp - 2, Read(s.ram, sp - 1), s.ram[0 := sp - 1], s.pc + 4);
    LoadedSplit(rom, TopTwo, [Operation(op)], s.pc);
    LoadedAt(rom, [Operation(op)], s.pc + 4, 0);
    RunTopTwo(rom, symbols, s, t);
    BinaryLine(op, rom, symbols, t, t.pc);
    BinaryState(op, s, t, u);
    StepThen(rom, symbols, t, u, 0, u);
    RunThenTo(rom, symbols, s, 4, t, 1, u, 5);
  }

  lemma BinaryState(op: Arithmetic, s: State, t: State, u: State)
    requires IsBinary(op) && AboveRegisters(s.ram)
    requires var sp := StackPointer(s.ram);
      t == State(sp - 2, Read(s.ram, sp - 1), s.ram[0 := sp - 1], s.pc + 4)
    requires var sp := StackPointer(s.ram);
      u == State(sp - 2, Read(s.ram, sp - 1),
                 s.ram[0 := sp - 1][sp - 2 := BinaryValue(op, Read(s.ram, sp - 2), Read(s.ram, sp - 1))], s.pc + 5)
    ensures u == t.(ram := t.ram[t.a := BinaryValue(op, Read(t.ram, t.a), t.d)], pc := t.pc + 1)
  {
    UnderTopKept(s.ram);
  }

  lemma RunDifference(rom: seq<Instruction>, symbols: map<string, Word>, s: State, target: string, u: State)
    requires Loaded(rom, [Assign(ToD, MMinusD), Assign(ToM, MinusOne), AtSymbol(target)], s.pc)
    requires target in symbols
    requires u == State(symbols[target], Wrap(Read(s.ram, s.a) as int - s.d), s.ram[s.a := 0xFFFF], s.pc + 3)
    ensures Run(rom, symbols, s, 3) == Some(u)
  {
    var p := s.pc;
    var code := [Assign(ToD, MMinusD), Assign(ToM, MinusOne), AtSymbol(target)];
    LoadedAt(rom, code, p, 0);
    LoadedAt(rom, code, p, 1);
    LoadedAt(rom, code, p, 2);
    var s1 := s.(d := u.d, pc := p + 1);
    var s2 := s1.(ram := u.ram, pc := p + 2);
    assert Step(rom, symbols, s) == Some(s1);
    assert Step(rom, symbols, s1) == Some(s2);
    assert Step(rom, symbols, s2) == Some(u);
  }

  /** The jump of a comparison is taken exactly when the comparison holds of D. */
  lemma ComparisonLine(op: Arithmetic, rom: seq<Instruction>, symbols: map<string, Word>, s: State)
    requires IsComparison(op)
    requires s.pc < |rom| && rom[s.pc] == Operation(op)
    ensures Step(rom, symbols, s) == Some(s.(pc := if Jumps(ComparisonJump(op), s.d) then s.a else s.pc + 1))
  {
    assert rom[s.pc] == Branch(DReg, ComparisonJump(op));
  }

  /** When the jump is not taken, false overwrites the cell under the old top. */
  lemma RunFalse(rom: seq<Instruction>, symbols: map<string, Word>, s: State, target: string)
    requires Loaded(rom, [AtRegister(SP), Assign(ToA, MMinusOne), Assign(ToM, Zero), Define(target)], s.pc)
    ensures var cell := Wrap(Read(s.ram, 0) - 1);
      Run(rom, symbols, s, 4) == Some(State(cell, s.d, s.ram[cell := 0], s.pc + 4))
  {
    var code := [AtRegister(SP), Assign(ToA, MMinusOne), Assign(ToM, Zero), Define(target)];
    LoadedAt(rom, code, s.pc, 0);
    LoadedAt(rom, code, s.pc, 1);
    LoadedAt(rom, code, s.pc, 2);
    LoadedAt(rom, code, s.pc, 3);
    var cell := Wrap(Read(s.ram, 0) - 1);
    var s1 := s.(a := 0, pc := s.pc + 1);
    var s2 := s1.(a := cell, pc := s.pc + 2);
    var s3 := s2.(ram := s.ram[cell := 0], pc := s.pc + 3);
    var s4 := s3.(pc := s.pc + 4);
    assert Step(rom, symbols, s) == Some(s1);
    assert Step(rom, symbols, s1) == Some(s2);
    assert Step(rom, symbols, s2) == Some(s3);
    assert Step(rom, symbols, s3) == Some(s4);
    assert Run(rom, symbols, s2, 2) == Some(s4);
  }

  /** The lines of a comparison after `TopTwo`. */
  function ComparisonTail(op: Arithmetic, target: string): seq<Instruction> {
    [Assign(ToD, MMinusD), Assign(ToM, MinusOne), AtSymbol(target), Operation(op),
     AtRegister(SP), Assign(ToA, MMinusOne), Assign(ToM, Zero), Define(target)]
  }

  /** A comparison is `TopTwo`, the difference, the jump, and the false branch, one after another. */
  lemma ComparisonPieces(op: Arithmetic, target: string, rom: seq<Instruction>, at: nat)
    requires Loaded(rom, TopTwo + ComparisonTail(op, target), at)
    ensures Loaded(rom, TopTwo, at)
    ensures Loaded(rom, [Assign(ToD, MMinusD), Assign(ToM, MinusOne), AtSymbol(target)], at + 4)
    ensures at + 7 < |rom| && rom[at + 7] == Operation(op)
    ensures Loaded(rom, [AtRegister(SP), Assign(ToA, MMinusOne), Assign(ToM, Zero), Define(target)], at + 8)
  {
    var difference := [Assign(ToD, MMinusD), Assign(ToM, MinusOne), AtSymbol(target)];
    var falseBranch := [AtRegister(SP), Assign(ToA, MMinusOne), Assign(ToM, Zero), Define(target)];
    var rest := ComparisonTail(op, target);
    LoadedSplit(rom, TopTwo, rest, at);
    assert rest == difference + ([Operation(op)] + falseBranch);
    LoadedSplit(rom, difference, [Operation(op)] + falseBranch, at + 4);
    LoadedSplit(rom, [Operation(op)], falseBranch, at + 7);
    LoadedAt(rom, [Operation(op)], at + 7, 0);
  }

  /** The first seven lines of a comparison leave x - y in D and the address of the true label in A. */
  lemma RunCompareHead(target: string, rom: seq<Instruction>, symbols: map<string, Word>, s: State, u: State)
    requires Loaded(rom, TopTwo, s.pc)
    requires Loaded(rom, [Assign(ToD, MMinusD), Assign(ToM, MinusOne), AtSymbol(target)], s.pc + 4)
    requires target in symbols
    requires AboveRegisters(s.ram)
    requires var sp := StackPointer(s.ram);
      u == State(symbols[target], Wrap(Read(s.ram, sp - 2) as int - Read(s.ram, sp - 1)), s.ram[0 := sp - 1][sp - 2 := 0xFFFF], s.pc + 7)
    ensures Run(rom, symbols, s, 7) == Some(u)
  {
    var sp := StackPointer(s.ram);
    var t := State(sp - 2, Read(s.ram, sp - 1), s.ram[0 := sp - 1], s.pc + 4);
    RunTopTwo(rom, symbols, s, t);
    CompareHeadState(s, symbols[target], t, u);
    RunDifference(rom, symbols, t, target, u);
    RunThenTo(rom, symbols, s, 4, t, 3, u, 7);
  }

  /** The state after the difference, in terms of the state after `TopTwo`. */
  lemma CompareHeadState(s: State, a: Word, t: State, u: State)
    requires AboveRegisters(s.ram)
    requires var sp := StackPointer(s.ram);
      t == State(sp - 2, Read(s.ram, sp - 1), s.ram[0 := sp - 1], s.pc + 4)
    requires var sp := StackPointer(s.ram);
      u == State(a, Wrap(Read(s.ram, sp - 2) as int - Read(s.ram, sp - 1)), s.ram[0 := sp - 1][sp - 2 := 0xFFFF], s.pc + 7)
    ensures u == State(a, Wrap(Read(t.ram, t.a) as int - t.d), t.ram[t.a := 0xFFFF], t.pc + 3)
  {
    UnderTopKept(s.ram);
  }

  /** Moving SP down keeps the operand under the old top. */
  lemma UnderTopKept(ram: map<Word, Word>)
    requires AboveRegisters(ram)
    ensures var sp := StackPointer(ram);
      Read(ram[0 := sp - 1], sp - 2) == Read(ram, sp - 2)
  {
  }

  /** The false branch of a comparison overwrites the -1 it wrote under the old top. */
  lemma FalseOverwrites(ram: map<Word, Word>)
    requires AboveRegisters(ram)
    ensures var sp := StackPointer(ram);
      var cell := Wrap(Read(ram[0 := sp - 1][sp - 2 := 0xFFFF], 0) - 1);
      && cell == sp - 2
      && ram[0 := sp - 1][sp - 2 := 0xFFFF][cell := 0] == ram[0 := sp - 1][sp - 2 := 0]
  {
    WrapFits(StackPointer(ram) - 2);
  }

  /** A comparison that holds jumps over the false branch to its true label. */
  lemma RunCompareTrue(op: Arithmetic, target: string, rom: seq<Instruction>, symbols: map<string, Word>, s: State, at: nat)
    requires IsComparison(op) && Jumps(ComparisonJump(op), s.d)
    requires at + 7 < |rom| && rom[at + 7] == Operation(op)
    requires Loaded(rom, [AtRegister(SP), Assign(ToA, MMinusOne), Assign(ToM, Zero), Define(target)], at + 8)
    requires s.pc == at + 7 && s.a == at + 11
    ensures Run(rom, symbols, s, 2) == Some(s.(pc := at + 12))
  {
    ComparisonLine(op, rom, symbols, s);
    var s1 := s.(pc := at + 11);
    LoadedAt(rom, [AtRegister(SP), Assign(ToA, MMinusOne), Assign(ToM, Zero), Define(target)], at + 8, 3);
    assert Step(rom, symbols, s1) == Some(s.(pc := at + 12));
    StepThen(rom, symbols, s, s1, 1, s.(pc := at + 12));
  }

  /** A comparison that fails falls into the false branch, which writes 0 under the old top. */
  lemma RunCompareFalse(op: Arithmetic, target: string, rom: seq<Instruction>, symbols: map<string, Word>, s: State, at: nat)
    requires IsComparison(op) && !Jumps(ComparisonJump(op), s.d)
    requires at + 7 < |rom| && rom[at + 7] == Operation(op)
    requires Loaded(rom, [AtRegister(SP), Assign(ToA, MMinusOne), Assign(ToM, Zero), Define(target)], at + 8)
    requires s.pc == at + 7
    ensures var cell := Wrap(Read(s.ram, 0) - 1);
      Run(rom, symbols, s, 5) == Some(State(cell, s.d, s.ram[cell := 0], at + 12))
  {
    ComparisonLine(op, rom, symbols, s);
    var s1 := s.(pc := at + 8);
    RunFalse(rom, symbols, s1, target);
    StepThen(rom, symbols, s, s1, 4, State(Wrap(Read(s.ram, 0) - 1), s.d, s.ram[Wrap(Read(s.ram, 0) - 1) := 0], at + 12));
  }

  /** A comparison that holds runs nine lines and ends past its code with -1 under the old top. */
  lemma RunComparisonHolds(op: Arithmetic, target: string, rom: seq<Instruction>, symbols: map<string, Word>, s: State, u: State)
    requires IsComparison(op)
    requires Loaded(rom, TopTwo + ComparisonTail(op, target), s.pc)
    requires target in symbols && symbols[target] == s.pc + 11
    requires AboveRegisters(s.ram)
    requires Holds(op, Read(s.ram, StackPointer(s.ram) - 2), Read(s.ram, StackPointer(s.ram) - 1))
    requires var sp := StackPointer(s.ram);
      u == State(symbols[target], Wrap(Read(s.ram, sp - 2) as int - Read(s.ram, sp - 1)), s.ram[0 := sp - 1][sp - 2 := 0xFFFF], s.pc + 12)
    ensures Run(rom, symbols, s, 9) == Some(u)
  {
    var s7 := u.(pc := s.pc + 7);
    HoldsHeadState(op, s, symbols[target], u, s7);
    ComparisonPieces(op, target, rom, s.pc);
    RunCompareHead(target, rom, symbols, s, s7);
    RunCompareTrue(op, target, rom, symbols, s7, s.pc);
    RunThenTo(rom, symbols, s, 7, s7, 2, u, 9);
  }

  /** The state after the comparison's first seven lines, when the comparison holds, is the final state one jump earlier. */
  lemma HoldsHeadState(op: Arithmetic, s: State, a: Word, u: State, s7: State)
    requires IsComparison(op)
    requires AboveRegisters(s.ram)
    requires Holds(op, Read(s.ram, StackPointer(s.ram) - 2), Read(s.ram, StackPointer(s.ram) - 1))
    requires var sp := StackPointer(s.ram);
      u == State(a, Wrap(Read(s.ram, sp - 2) as int - Read(s.ram, sp - 1)), s.ram[0 := sp - 1][sp - 2 := 0xFFFF], s.pc + 12)
    requires s7 == u.(pc := s.pc + 7)
    ensures var sp := StackPointer(s.ram);
      s7 == State(a, Wrap(Read(s.ram, sp - 2) as int - Read(s.ram, sp - 1)), s.ram[0 := sp - 1][sp - 2 := 0xFFFF], s.pc + 7)
    ensures Jumps(ComparisonJump(op), s7.d) && s7.pc == s.pc + 7 && s7.a == a
    ensures u == s7.(pc := s.pc + 12)
  {
    HoldsJumps(op, Read(s.ram, StackPointer(s.ram) - 2), Read(s.ram, StackPointer(s.ram) - 1));
  }

  /** A comparison that fails runs all twelve lines and leaves 0 under the old top. */
  lemma RunComparisonFails(op: Arithmetic, target: string, rom: seq<Instruction>, symbols: map<string, Word>, s: State, u: State)
    requires IsComparison(op)
    requires Loaded(rom, TopTwo + ComparisonTail(op, target), s.pc)
    requires target in symbols && symbols[target] == s.pc + 11
    requires AboveRegisters(s.ram)
    requires !Holds(op, Read(s.ram, StackPointer(s.ram) - 2), Read(s.ram, StackPointer(s.ram) - 1))
    requires var sp := StackPointer(s.ram);
      u == State(sp - 2, Wrap(Read(s.ram, sp - 2) as int - Read(s.ram, sp - 1)), s.ram[0 := sp - 1][sp - 2 := 0], s.pc + 12)
    ensures Run(rom, symbols, s, 12) == Some(u)
  {
    var sp := StackPointer(s.ram);
    var s7 := State(symbols[target], u.d, s.ram[0 := sp - 1][sp - 2 := 0xFFFF], s.pc + 7);
    ComparisonPieces(op, target, rom, s.pc);
    RunCompareHead(target, rom, symbols, s, s7);
    HoldsJumps(op, Read(s.ram, sp - 2), Read(s.ram, sp - 1));
    RunCompareFalse(op, target, rom, symbols, s7, s.pc);
    FalseState(s, s7);
    RunThenTo(rom, symbols, s, 7, s7, 5, u, 12);
  }

  /** The state after the false branch, in terms of the state before the comparison. */
  lemma FalseState(s: State, t: State)
    requires AboveRegisters(s.ram)
    requires t.ram == s.ram[0 := StackPointer(s.ram) - 1][StackPointer(s.ram) - 2 := 0xFFFF]
    ensures var cell := Wrap(Read(t.ram, 0) - 1);
      State(cell, t.d, t.ram[cell := 0], s.pc + 12)
        == State(StackPointer(s.ram) - 2, t.d, s.ram[0 := StackPointer(s.ram) - 1][StackPointer(s.ram) - 2 := 0], s.pc + 12)
  {
    FalseOverwrites(s.ram);
  }

  lemma RunComparisonCode(op: Arithmetic, target: string, rom: seq<Instruction>, symbols: map<string, Word>, s: State)
    requires IsComparison(op)
    requires Loaded(rom, TopTwo + ComparisonTail(op, target), s.pc)
    requires target in symbols && symbols[target] == s.pc + 11
    requires AboveRegisters(s.ram)
    ensures var sp := StackPointer(s.ram);
      var holds := Holds(op, Read(s.ram, sp - 2), Read(s.ram, sp - 1));
      var t := Run(rom, symbols, s, if holds then 9 else 12);
      t.Some? && t.value.pc == s.pc + 12 && t.value.ram == s.ram[0 := sp - 1][sp - 2 := Truth(holds)]
  {
    var sp := StackPointer(s.ram);
    var d := Wrap(Read(s.ram, sp - 2) as int - Read(s.ram, sp - 1));
    if Holds(op, Read(s.ram, sp - 2), Read(s.ram, sp - 1)) {
      RunComparisonHolds(op, target, rom, symbols, s, State(symbols[target], d, s.ram[0 := sp - 1][sp - 2 := 0xFFFF], s.pc + 12));
    } else {
      RunComparisonFails(op, target, rom, symbols, s, State(sp - 2, d, s.ram[0 := sp - 1][sp - 2 := 0], s.pc + 12));
    }
  }

  lemma RunComparison(file: string, op: Arithmetic, n: nat, rom: seq<Instruction>, symbols: map<string, Word>, s: State)
    requires IsComparison(op)
    requires Loaded(rom, ArithmeticCode(file, op, n), s.pc)
    requires Labelled(rom, symbols)
    requires AboveRegisters(s.ram)
    ensures var sp := StackPointer(s.ram);
      var holds := Holds(op, Read(s.ram, sp - 2), Read(s.ram, sp - 1));
      var t := Run(rom, symbols, s, if holds then 9 else 12);
      t.Some? && t.value.pc == s.pc + 12 && t.value.ram == s.ram[0 := sp - 1][sp - 2 := Truth(holds)]
  {
    var target := TrueLabel(file, n);
    assert ArithmeticCode(file, op, n) == TopTwo + ComparisonTail(op, target);
    LoadedAt(rom, ArithmeticCode(file, op, n), s.pc, 11);
    RunComparisonCode(op, target, rom, symbols, s);
  }

  /**
   * Every operation leaves its result in place of its operands and ends at the line after
   * its code; a comparison leaves -1 when it holds and 0 otherwise.
   */
  lemma RunArithmetic(file: string, op: Arithmetic, n: nat, rom: seq<Instruction>, symbols: map<string, Word>, s: State)
    requires Loaded(rom, ArithmeticCode(file, op, n), s.pc)
    requires IsComparison(op) ==> Labelled(rom, symbols)
    requires AboveRegisters(s.ram)
    ensures var t := Run(rom, symbols, s, ArithmeticSteps(op, s.ram));
      && t.Some? && t.value.pc == s.pc + |ArithmeticCode(file, op, n)|
      && t.value.ram == ArithmeticResult(op, s.ram)
  {
    if IsUnary(op) {
      RunUnary(file, op, n, rom, symbols, s);
    } else if IsBinary(op) {
      RunBinary(file, op, n, rom, symbols, s);
      BinaryResult(op, s.ram);
    } else {
      RunComparison(file, op, n, rom, symbols, s);
      assert ArithmeticSteps(op, s.ram) == if Holds(op, Read(s.ram, StackPointer(s.ram) - 2), Read(s.ram, StackPointer(s.ram) - 1)) then 9 else 12;
    }
  }
}
