/**
 * What the code of `call` does on the Hack machine.
 *
 * A call pushes the return address and the caller's LCL, ARG, THIS and THAT, points ARG at
 * the first argument and LCL at the new stack top, and jumps to the callee. The return, and
 * the round trip of the two, are in `ReturnSemantics`.
 */
module CallSemantics {
  import opened Wrappers
  import opened Decimal
  import opened Hack
  import opened Translator
  import opened StackSemantics
  import opened FlowSemantics

  /** The four pointers a frame saves are registers below R13. */
  predicate PointerRegisters(rs: seq<Register>) {
    forall i | 0 <= i < |rs| :: rs[i].LCL? || rs[i].ARG? || rs[i].THIS? || rs[i].THAT?
  }

  // ---------------------------------------------------------------- saving the frame

  /** Push the pointers `rs`, in order. */
  function SavePointers(ram: map<Word, Word>, rs: seq<Register>): map<Word, Word>
    requires PointerRegisters(rs)
    decreases |rs|
  {
    if rs == [] then ram else SavePointers(Pushed(ram, Read(ram, Cell(rs[0]))), rs[1..])
  }

  /** The machine after the saves of `rs`, from `s`. */
  function AfterSaves(s: State, rs: seq<Register>): State
    requires PointerRegisters(rs)
    decreases |rs|
  {
    if rs == [] then s
    else
      var v := Read(s.ram, Cell(rs[0]));
      AfterSaves(State(0, v, Pushed(s.ram, v), s.pc + 7), rs[1..])
  }

  lemma {:induction false} AfterSavesState(s: State, rs: seq<Register>)
    requires PointerRegisters(rs)
    ensures AfterSaves(s, rs).ram == SavePointers(s.ram, rs)
    ensures AfterSaves(s, rs).pc == s.pc + 7 * |rs|
    decreases |rs|
  {
    if rs != [] {
      var v := Read(s.ram, Cell(rs[0]));
      AfterSavesState(State(0, v, Pushed(s.ram, v), s.pc + 7), rs[1..]);
    }
  }

  /**
   * Saving `rs` from SP = sp leaves SP at sp + |rs|, the value of `rs[i]` at sp + i, and every
   * other cell but SP as it was.
   */
  lemma {:induction false} SavePointersLayout(ram: map<Word, Word>, rs: seq<Register>)
    requires PointerRegisters(rs)
    requires 16 < StackPointer(ram) && StackPointer(ram) + |rs| < 0x1_0000
    ensures StackPointer(SavePointers(ram, rs)) == StackPointer(ram) + |rs|
    ensures forall i | 0 <= i < |rs| :: Read(SavePointers(ram, rs), StackPointer(ram) + i) == Read(ram, Cell(rs[i]))
    ensures forall j: Word | j != 0 && !(StackPointer(ram) <= j < StackPointer(ram) + |rs|) ::
      Read(SavePointers(ram, rs), j) == Read(ram, j)
    decreases |rs|
  {
    if rs != [] {
      var sp := StackPointer(ram);
      var v := Read(ram, Cell(rs[0]));
      PushedCells(ram, v);
      var next := Pushed(ram, v);
      SavePointersLayout(next, rs[1..]);
      assert Read(SavePointers(ram, rs), sp) == v;
      forall i | 0 <= i < |rs|
        ensures Read(SavePointers(ram, rs), sp + i) == Read(ram, Cell(rs[i]))
      {
        if i > 0 {
          assert rs[1..][i - 1] == rs[i];
          assert Read(next, Cell(rs[i])) == Read(ram, Cell(rs[i]));
        }
      }
    }
  }

  /** One save: the pointer into D, then D pushed. */
  lemma RunSave(r: Register, rom: seq<Instruction>, symbols: map<string, Word>, s: State)
    requires r.LCL? || r.ARG? || r.THIS? || r.THAT?
    requires Loaded(rom, Save(r), s.pc)
    requires StackPointer(s.ram) != 0
    ensures Run(rom, symbols, s, 7)
      == Some(State(0, Read(s.ram, Cell(r)), Pushed(s.ram, Read(s.ram, Cell(r))), s.pc + 7))
  {
    var load := [AtRegister(r), Assign(ToD, MReg)];
    assert Save(r) == load + PushD;
    LoadedSplit(rom, load, PushD, s.pc);
    LoadedAt(rom, load, s.pc, 0);
    LoadedAt(rom, load, s.pc, 1);
    var s1 := State(Cell(r), s.d, s.ram, s.pc + 1);
    var s2 := State(Cell(r), Read(s.ram, Cell(r)), s.ram, s.pc + 2);
    assert Step(rom, symbols, s) == Some(s1);
    assert Step(rom, symbols, s1) == Some(s2);
    RunLoadThenPush(rom, symbols, s, 2, s2, State(0, Read(s.ram, Cell(r)), Pushed(s.ram, Read(s.ram, Cell(r))), s.pc + 7), 7);
  }

  /** The saves of `rs` push their values one after another, seven lines each. */
  lemma {:induction false} RunSaveAll(rs: seq<Register>, rom: seq<Instruction>, symbols: map<string, Word>, s: State)
    requires PointerRegisters(rs)
    requires Loaded(rom, SaveAll(rs), s.pc)
    requires 0 < StackPointer(s.ram) && StackPointer(s.ram) + |rs| < 0x1_0000
    ensures Run(rom, symbols, s, 7 * |rs|) == Some(AfterSaves(s, rs))
    decreases |rs|
  {
    if rs != [] {
      var v := Read(s.ram, Cell(rs[0]));
      var t := State(0, v, Pushed(s.ram, v), s.pc + 7);
      LoadedSplit(rom, Save(rs[0]), SaveAll(rs[1..]), s.pc);
      PushedCells(s.ram, v);
      RunSaveAll(rs[1..], rom, symbols, t);
      RunSaveThenRest(rs[0], rom, symbols, s, 7 * |rs[1..]|, AfterSaves(s, rs), 7 * |rs|);
    }
  }

  /** One save, then `n` more lines from the state it leaves. */
  lemma RunSaveThenRest(r: Register, rom: seq<Instruction>, symbols: map<string, Word>, s: State, n: nat, u: State, total: nat)
    requires r.LCL? || r.ARG? || r.THIS? || r.THAT?
    requires Loaded(rom, Save(r), s.pc)
    requires StackPointer(s.ram) != 0
    requires Run(rom, symbols, State(0, Read(s.ram, Cell(r)), Pushed(s.ram, Read(s.ram, Cell(r))), s.pc + 7), n) == Some(u)
    requires total == n + 7
    ensures Run(rom, symbols, s, total) == Some(u)
  {
    RunSave(r, rom, symbols, s);
    RunThenTo(rom, symbols, s, 7, State(0, Read(s.ram, Cell(r)), Pushed(s.ram, Read(s.ram, Cell(r))), s.pc + 7), n, u, total);
  }

  // ---------------------------------------------------------------- the new frame

  /**
   * The RAM a call leaves: the return address and the four pointers pushed, ARG at the first
   * of the `argCount` arguments below them, LCL at the new stack top.
   */
  function CallFrame(ram: map<Word, Word>, returnAddress: Word, argCount: nat): map<Word, Word> {
    var sp := StackPointer(ram);
    SavePointers(Pushed(ram, returnAddress), Saved)[2 := Wrap(sp as int - argCount)][1 := Wrap(sp as int + 5)]
  }

  /** The return address and the four saved pointers occupy the five cells from the old SP. */
  lemma SavedFrameLayout(ram: map<Word, Word>, returnAddress: Word)
    requires 16 < StackPointer(ram) && StackPointer(ram) + 5 < 0x1_0000
    ensures var sp := StackPointer(ram); var saved := SavePointers(Pushed(ram, returnAddress), Saved);
      && StackPointer(saved) == sp + 5
      && Read(saved, sp) == returnAddress
      && Read(saved, sp + 1) == Read(ram, 1) && Read(saved, sp + 2) == Read(ram, 2)
      && Read(saved, sp + 3) == Read(ram, 3) && Read(saved, sp + 4) == Read(ram, 4)
    ensures var sp := StackPointer(ram);
      forall j: Word | j != 0 && !(sp <= j < sp + 5) :: Read(SavePointers(Pushed(ram, returnAddress), Saved), j) == Read(ram, j)
  {
    var sp := StackPointer(ram);
    var pushed := Pushed(ram, returnAddress);
    PushedCells(ram, returnAddress);
    SavePointersLayout(pushed, Saved);
    var saved := SavePointers(pushed, Saved);
    assert Read(saved, sp + 1 + 0) == Read(pushed, 1);
    assert Read(saved, sp + 1 + 1) == Read(pushed, 2);
    assert Read(saved, sp + 1 + 2) == Read(pushed, 3);
    assert Read(saved, sp + 1 + 3) == Read(pushed, 4);
  }

  /**
   * Where the call leaves the caller's frame: SP and LCL five cells up, ARG `argCount` cells
   * down, the return address and the saved LCL, ARG, THIS, THAT in the five cells from the old
   * SP, and every other cell above the pointers as it was.
   */
  lemma CallFrameLayout(ram: map<Word, Word>, returnAddress: Word, argCount: nat)
    requires 16 < StackPointer(ram) && StackPointer(ram) + 5 < 0x1_0000 && argCount <= StackPointer(ram)
    ensures var sp := StackPointer(ram); var frame := CallFrame(ram, returnAddress, argCount);
      && StackPointer(frame) == sp + 5
      && Read(frame, 1) == sp + 5
      && Read(frame, 2) == sp - argCount
      && Read(frame, 3) == Read(ram, 3) && Read(frame, 4) == Read(ram, 4)
      && Read(frame, sp) == returnAddress
      && Read(frame, sp + 1) == Read(ram, 1) && Read(frame, sp + 2) == Read(ram, 2)
      && Read(frame, sp + 3) == Read(ram, 3) && Read(frame, sp + 4) == Read(ram, 4)
    ensures var sp := StackPointer(ram);
      forall j: Word | 4 < j && !(sp <= j < sp + 5) :: Read(CallFrame(ram, returnAddress, argCount), j) == Read(ram, j)
  {
    var sp := StackPointer(ram);
    SavedFrameLayout(ram, returnAddress);
    WrapFits(sp as int - argCount);
    WrapFits(sp as int + 5);
  }

  // ---------------------------------------------------------------- running a call

  /** The return address into D, then pushed. */
  lemma RunPushReturn(returnAddress: string, rom: seq<Instruction>, symbols: map<string, Word>, s: State, k: Word)
    requires Loaded(rom, [AtSymbol(returnAddress), Assign(ToD, AReg)] + PushD, s.pc)
    requires returnAddress in symbols && symbols[returnAddress] == k
    requires StackPointer(s.ram) != 0
    ensures Run(rom, symbols, s, 7) == Some(State(0, k, Pushed(s.ram, k), s.pc + 7))
  {
    var load := [AtSymbol(returnAddress), Assign(ToD, AReg)];
    LoadedSplit(rom, load, PushD, s.pc);
    LoadedAt(rom, load, s.pc, 0);
    LoadedAt(rom, load, s.pc, 1);
    var s1 := State(k, s.d, s.ram, s.pc + 1);
    var s2 := State(k, k, s.ram, s.pc + 2);
    assert Step(rom, symbols, s) == Some(s1);
    assert Step(rom, symbols, s1) == Some(s2);
    RunLoadThenPush(rom, symbols, s, 2, s2, State(0, k, Pushed(s.ram, k), s.pc + 7), 7);
  }

  /** The first six lines of the set-up: D := SP - 5 - argCount. */
  lemma RunArgBase(argCount: U16, rom: seq<Instruction>, symbols: map<string, Word>, s: State, q: nat, sp: Word)
    requires Loaded(rom, Reposition(argCount), q) && s.pc == q
    requires StackPointer(s.ram) == sp && argCount + 5 <= sp
    ensures Run(rom, symbols, s, 6) == Some(State(argCount, sp - 5 - argCount, s.ram, q + 6))
  {
    LoadedAt(rom, Reposition(argCount), q, 0);
    LoadedAt(rom, Reposition(argCount), q, 1);
    LoadedAt(rom, Reposition(argCount), q, 2);
    LoadedAt(rom, Reposition(argCount), q, 3);
    LoadedAt(rom, Reposition(argCount), q, 4);
    LoadedAt(rom, Reposition(argCount), q, 5);
    var t := State(5, sp, s.ram, q + 3);
    RunStackTopAndFive(rom, symbols, s, sp);
    RunLessFrameAndArgs(argCount, rom, symbols, t);
    RunThenTo(rom, symbols, s, 3, t, 3, State(argCount, sp - 5 - argCount, s.ram, q + 6), 6);
  }

  /** `@SP`, `D=M`, `@5`: SP into D and 5 into A. */
  lemma RunStackTopAndFive(rom: seq<Instruction>, symbols: map<string, Word>, s: State, sp: Word)
    requires s.pc + 2 < |rom| && StackPointer(s.ram) == sp
    requires rom[s.pc] == AtRegister(SP) && rom[s.pc + 1] == Assign(ToD, MReg) && rom[s.pc + 2] == AtNumber(5)
    ensures Run(rom, symbols, s, 3) == Some(State(5, sp, s.ram, s.pc + 3))
  {
    WrapFits(5);
    var s1 := State(0, s.d, s.ram, s.pc + 1);
    var s2 := State(0, sp, s.ram, s.pc + 2);
    assert Step(rom, symbols, s) == Some(s1);
    assert Step(rom, symbols, s1) == Some(s2);
    assert Step(rom, symbols, s2) == Some(State(5, sp, s.ram, s.pc + 3));
  }

  /** `D=D-A`, `@argCount`, `D=D-A`: D less the five saved cells and the arguments. */
  lemma RunLessFrameAndArgs(argCount: U16, rom: seq<Instruction>, symbols: map<string, Word>, s: State)
    requires s.pc + 2 < |rom| && s.a == 5 && argCount + 5 <= s.d
    requires rom[s.pc] == Assign(ToD, DMinusA) && rom[s.pc + 1] == AtNumber(argCount) && rom[s.pc + 2] == Assign(ToD, DMinusA)
    ensures Run(rom, symbols, s, 3) == Some(State(argCount, s.d - 5 - argCount, s.ram, s.pc + 3))
  {
    WrapFits(argCount);
    WrapFits(s.d - 5);
    WrapFits(s.d - 5 - argCount);
    var s1 := State(5, s.d - 5, s.ram, s.pc + 1);
    var s2 := State(argCount, s.d - 5, s.ram, s.pc + 2);
    assert Step(rom, symbols, s) == Some(s1);
    assert Step(rom, symbols, s1) == Some(s2);
    assert Step(rom, symbols, s2) == Some(State(argCount, s.d - 5 - argCount, s.ram, s.pc + 3));
  }

  /** The last six lines of the set-up: ARG := D, then LCL := SP. */
  lemma RunSetPointers(argCount: U16, rom: seq<Instruction>, symbols: map<string, Word>, s: State, q: nat, sp: Word, arg: Word)
    requires Loaded(rom, Reposition(argCount), q) && s.pc == q + 6
    requires StackPointer(s.ram) == sp && s.d == arg
    ensures Run(rom, symbols, s, 6) == Some(State(1, sp, s.ram[2 := arg][1 := sp], q + 12))
  {
    LoadedAt(rom, Reposition(argCount), q, 6);
    LoadedAt(rom, Reposition(argCount), q, 7);
    LoadedAt(rom, Reposition(argCount), q, 8);
    LoadedAt(rom, Reposition(argCount), q, 9);
    LoadedAt(rom, Reposition(argCount), q, 10);
    LoadedAt(rom, Reposition(argCount), q, 11);
    var s1 := State(2, arg, s.ram, q + 7);
    var s2 := State(2, arg, s.ram[2 := arg], q + 8);
    var s3 := State(0, arg, s.ram[2 := arg], q + 9);
    var s4 := State(0, sp, s.ram[2 := arg], q + 10);
    var s5 := State(1, sp, s.ram[2 := arg], q + 11);
    assert Step(rom, symbols, s) == Some(s1);
    assert Step(rom, symbols, s1) == Some(s2);
    assert Step(rom, symbols, s2) == Some(s3);
    assert Step(rom, symbols, s3) == Some(s4);
    assert Step(rom, symbols, s4) == Some(s5);
    assert Step(rom, symbols, s5) == Some(State(1, sp, s.ram[2 := arg][1 := sp], q + 12));
    assert Run(rom, symbols, s3, 3) == Some(State(1, sp, s.ram[2 := arg][1 := sp], q + 12));
  }

  /** The set-up after the saves: ARG := SP - 5 - argCount, LCL := SP. */
  lemma RunReposition(argCount: U16, rom: seq<Instruction>, symbols: map<string, Word>, s: State, q: nat, sp: Word)
    requires Loaded(rom, Reposition(argCount), q) && s.pc == q
    requires StackPointer(s.ram) == sp && argCount + 5 <= sp
    ensures Run(rom, symbols, s, 12) == Some(State(1, sp, s.ram[2 := sp - 5 - argCount][1 := sp], q + 12))
  {
    var t := State(argCount, sp - 5 - argCount, s.ram, q + 6);
    RunArgBase(argCount, rom, symbols, s, q, sp);
    RunSetPointers(argCount, rom, symbols, t, q, sp, sp - 5 - argCount);
    RunThenTo(rom, symbols, s, 6, t, 6, State(1, sp, s.ram[2 := sp - 5 - argCount][1 := sp], q + 12), 12);
  }

  /** Where the parts of a call sit once it is loaded at `p`. */
  lemma CallPieces(callee: string, argCount: U16, returnAddress: string, rom: seq<Instruction>, p: nat)
    requires Loaded(rom, CallCode(callee, argCount, returnAddress), p)
    ensures Loaded(rom, [AtSymbol(returnAddress), Assign(ToD, AReg)] + PushD, p)
    ensures Loaded(rom, SaveAll(Saved), p + 7)
    ensures Loaded(rom, Reposition(argCount), p + 35)
    ensures Loaded(rom, GotoCode(callee), p + 47)
    ensures p + 49 < |rom| && rom[p + 49] == Define(returnAddress)
  {
    var head := [AtSymbol(returnAddress), Assign(ToD, AReg)] + PushD;
    var tail := [AtSymbol(callee), Branch(Zero, JMP), Define(returnAddress)];
    assert CallCode(callee, argCount, returnAddress) == head + SaveAll(Saved) + Reposition(argCount) + tail;
    LoadedSplit(rom, head + SaveAll(Saved) + Reposition(argCount), tail, p);
    LoadedSplit(rom, head + SaveAll(Saved), Reposition(argCount), p);
    LoadedSplit(rom, head, SaveAll(Saved), p);
    assert tail == GotoCode(callee) + [Define(returnAddress)];
    LoadedSplit(rom, GotoCode(callee), [Define(returnAddress)], p + 47);
    LoadedAt(rom, [Define(returnAddress)], p + 49, 0);
  }

  /** The RAM after the pushes, and the frame the set-up makes of it. */
  lemma CallFrameSteps(ram: map<Word, Word>, returnAddress: Word, argCount: nat)
    requires 16 < StackPointer(ram) && StackPointer(ram) + 5 < 0x1_0000 && argCount <= StackPointer(ram)
    ensures StackPointer(SavePointers(Pushed(ram, returnAddress), Saved)) == StackPointer(ram) + 5
    ensures CallFrame(ram, returnAddress, argCount)
      == SavePointers(Pushed(ram, returnAddress), Saved)[2 := StackPointer(ram) - argCount][1 := StackPointer(ram) + 5]
  {
    PushedCells(ram, returnAddress);
    SavePointersLayout(Pushed(ram, returnAddress), Saved);
    WrapFits(StackPointer(ram) - argCount);
    WrapFits(StackPointer(ram) + 5);
  }

  /** The set-up and the jump, from the end of the saves, with SP = sp; `u` is where they end. */
  lemma RunCallTail(callee: string, argCount: U16, rom: seq<Instruction>, symbols: map<string, Word>, t: State, q: nat,
                    sp: Word, k: nat, u: State)
    requires Labelled(rom, symbols) && Loaded(rom, Reposition(argCount), q) && Loaded(rom, GotoCode(callee), q + 12)
    requires k < |rom| && rom[k] == Define(callee)
    requires t.pc == q && StackPointer(t.ram) == sp && argCount + 5 <= sp
    requires u == State(k, sp, t.ram[2 := sp - 5 - argCount][1 := sp], k)
    ensures Run(rom, symbols, t, 14) == Some(u)
  {
    RunReposition(argCount, rom, symbols, t, q, sp);
    RunGoto(callee, rom, symbols, State(1, sp, t.ram[2 := sp - 5 - argCount][1 := sp], q + 12), q + 12, k);
    RunThenTo(rom, symbols, t, 12, State(1, sp, t.ram[2 := sp - 5 - argCount][1 := sp], q + 12), 2, u, 14);
  }

  /**
   * Where the four saves of a call leave the machine: `AfterSavesState` and `SavePointersLayout`
   * at the fixed count of four, in the form `RunTailAfterSaves` needs.
   */
  lemma AfterCallSaves(t: State, rs: seq<Register>, sp: Word)
    requires PointerRegisters(rs) && |rs| == 4
    requires StackPointer(t.ram) == sp && 16 < sp && sp + 4 < 0x1_0000
    ensures AfterSaves(t, rs).pc == t.pc + 28
    ensures AfterSaves(t, rs).ram == SavePointers(t.ram, rs)
    ensures StackPointer(AfterSaves(t, rs).ram) == sp + 4
  {
    AfterSavesState(t, rs);
    SavePointersLayout(t.ram, rs);
  }

  /** `RunSaveAll` at the fixed count of four: the saves of a call take 28 lines. */
  lemma RunFourSaves(rs: seq<Register>, rom: seq<Instruction>, symbols: map<string, Word>, t: State)
    requires PointerRegisters(rs) && |rs| == 4
    requires Loaded(rom, SaveAll(rs), t.pc)
    requires 0 < StackPointer(t.ram) && StackPointer(t.ram) + 4 < 0x1_0000
    ensures Run(rom, symbols, t, 28) == Some(AfterSaves(t, rs))
  {
    RunSaveAll(rs, rom, symbols, t);
  }

  /**
   * `RunCallTail` started from `AfterSaves(t, rs)`: the set-up and the jump after the four
   * saves, so that `RunCallSaves` only has to join two runs.
   */
  lemma RunTailAfterSaves(callee: string, argCount: U16, rs: seq<Register>, rom: seq<Instruction>,
                          symbols: map<string, Word>, t: State, q: nat, sp: Word, k: nat, u: State)
    requires PointerRegisters(rs) && |rs| == 4
    requires Labelled(rom, symbols)
    requires Loaded(rom, Reposition(argCount), q + 28) && Loaded(rom, GotoCode(callee), q + 40)
    requires k < |rom| && rom[k] == Define(callee)
    requires t.pc == q && StackPointer(t.ram) == sp && 16 < sp && sp + 4 < 0x1_0000 && argCount < sp
    requires u == State(k, sp + 4, SavePointers(t.ram, rs)[2 := sp - 1 - argCount][1 := sp + 4], k)
    ensures Run(rom, symbols, AfterSaves(t, rs), 14) == Some(u)
  {
    AfterCallSaves(t, rs, sp);
    RunCallTail(callee, argCount, rom, symbols, AfterSaves(t, rs), q + 28, sp + 4, k, u);
  }

  /**
   * The four saves of `rs`, the set-up and the jump, from the end of the return-address push;
   * `u` is where they end.
   */
  lemma RunCallSaves(callee: string, argCount: U16, rs: seq<Register>, rom: seq<Instruction>, symbols: map<string, Word>,
                     t: State, q: nat, sp: Word, k: nat, u: State)
    requires PointerRegisters(rs) && |rs| == 4
    requires Labelled(rom, symbols) && Loaded(rom, SaveAll(rs), q)
    requires Loaded(rom, Reposition(argCount), q + 28) && Loaded(rom, GotoCode(callee), q + 40)
    requires k < |rom| && rom[k] == Define(callee)
    requires t.pc == q && StackPointer(t.ram) == sp && 16 < sp && sp + 4 < 0x1_0000 && argCount < sp
    requires u == State(k, sp + 4, SavePointers(t.ram, rs)[2 := sp - 1 - argCount][1 := sp + 4], k)
    ensures Run(rom, symbols, t, 42) == Some(u)
  {
    RunFourSaves(rs, rom, symbols, t);
    RunTailAfterSaves(callee, argCount, rs, rom, symbols, t, q, sp, k, u);
    RunThenTo(rom, symbols, t, 28, AfterSaves(t, rs), 14, u, 42);
  }

  /** The first seven lines of a call push the address of the line after it. */
  lemma RunCallPush(callee: string, argCount: U16, returnAddress: string, rom: seq<Instruction>,
                    symbols: map<string, Word>, s: State)
    requires Labelled(rom, symbols) && Loaded(rom, CallCode(callee, argCount, returnAddress), s.pc)
    requires StackPointer(s.ram) != 0
    ensures Run(rom, symbols, s, 7) == Some(State(0, s.pc + 49, Pushed(s.ram, s.pc + 49), s.pc + 7))
  {
    CallPieces(callee, argCount, returnAddress, rom, s.pc);
    LabelAddress(rom, symbols, s.pc + 49);
    RunPushReturn(returnAddress, rom, symbols, s, s.pc + 49);
  }

  /** The other 42 lines of a call, from the end of the push; `u` is where they end. */
  lemma RunCallAfterPush(callee: string, argCount: U16, returnAddress: string, rom: seq<Instruction>,
                         symbols: map<string, Word>, s: State, k: nat, u: State)
    requires Labelled(rom, symbols) && Loaded(rom, CallCode(callee, argCount, returnAddress), s.pc)
    requires k < |rom| && rom[k] == Define(callee)
    requires 16 < StackPointer(s.ram) && StackPointer(s.ram) + 5 < 0x1_0000 && argCount <= StackPointer(s.ram)
    requires u == State(k, StackPointer(s.ram) + 5, CallFrame(s.ram, s.pc + 49, argCount), k)
    ensures Run(rom, symbols, State(0, s.pc + 49, Pushed(s.ram, s.pc + 49), s.pc + 7), 42) == Some(u)
  {
    CallPieces(callee, argCount, returnAddress, rom, s.pc);
    CallFrameSteps(s.ram, s.pc + 49, argCount);
    PushedCells(s.ram, s.pc + 49);
    RunCallSaves(callee, argCount, Saved, rom, symbols, State(0, s.pc + 49, Pushed(s.ram, s.pc + 49), s.pc + 7), s.pc + 7,
                 StackPointer(s.ram) + 1, k, u);
  }

  /**
   * `call callee argCount` builds the callee's frame (`CallFrame`, with the address of the line
   * after the call as the return address) and jumps to the line that defines `callee`, with
   * D = LCL.
   */
  lemma RunCall(callee: string, argCount: U16, returnAddress: string, rom: seq<Instruction>, symbols: map<string, Word>,
                s: State, k: nat)
    requires Labelled(rom, symbols) && Loaded(rom, CallCode(callee, argCount, returnAddress), s.pc)
    requires k < |rom| && rom[k] == Define(callee)
    requires 16 < StackPointer(s.ram) && StackPointer(s.ram) + 5 < 0x1_0000 && argCount <= StackPointer(s.ram)
    ensures Run(rom, symbols, s, 49)
      == Some(State(k, StackPointer(s.ram) + 5, CallFrame(s.ram, s.pc + 49, argCount), k))
  {
    RunCallPush(callee, argCount, returnAddress, rom, symbols, s);
    RunCallAfterPush(callee, argCount, returnAddress, rom, symbols, s, k,
                     State(k, StackPointer(s.ram) + 5, CallFrame(s.ram, s.pc + 49, argCount), k));
    RunThenTo(rom, symbols, s, 7, State(0, s.pc + 49, Pushed(s.ram, s.pc + 49), s.pc + 7), 42,
              State(k, StackPointer(s.ram) + 5, CallFrame(s.ram, s.pc + 49, argCount), k), 49);
  }
}
