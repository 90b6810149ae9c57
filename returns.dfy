/**
 * What the code of `return` does on the Hack machine, and the round trip of a call and its
 * return.
 *
 * A return keeps the frame base (LCL) in R13 and the return address in R14, puts the callee's
 * result where the first argument was, sets SP just above it, walks R13 down the frame to
 * restore THAT, THIS, ARG and LCL, and jumps to the address in R14. `CallThenReturn` puts this
 * together with the frame a call builds: a callee that leaves its frame alone hands the caller
 * back its pointers, its stack one result higher than before the arguments, and control at the
 * line after the call.
 */
module ReturnSemantics {
  import opened Wrappers
  import opened Decimal
  import opened Hack
  import opened Translator
  import opened StackSemantics
  import opened FlowSemantics
  import opened CallSemantics

  // ---------------------------------------------------------------- unwinding

  /** Where the 19 unwinding lines leave the machine, step by step as the machine takes them. */
  function Unwound(s: State): State {
    var frame := Read(s.ram, 1);
    var ram1 := s.ram[13 := frame];
    var returnAddress := Read(ram1, Wrap(frame as int - 5));
    var ram2 := ram1[14 := returnAddress];
    var top := Wrap(Read(ram2, 0) as int - 1);
    var ram3 := ram2[0 := top];
    var arg := Read(ram3, 2);
    State(0, arg, ram3[arg := Read(ram3, top)][0 := Wrap(arg as int + 1)], s.pc + 19)
  }

  /** `@LCL D=M @R13 M=D`: the frame base into R13. */
  lemma RunSaveFrame(rom: seq<Instruction>, symbols: map<string, Word>, s: State)
    requires Loaded(rom, KeepFrame, s.pc)
    ensures Run(rom, symbols, s, 4)
      == Some(State(13, Read(s.ram, 1), s.ram[13 := Read(s.ram, 1)], s.pc + 4))
  {
    LoadedAt(rom, KeepFrame, s.pc, 0);
    LoadedAt(rom, KeepFrame, s.pc, 1);
    LoadedAt(rom, KeepFrame, s.pc, 2);
    LoadedAt(rom, KeepFrame, s.pc, 3);
    var s1 := State(1, s.d, s.ram, s.pc + 1);
    var s2 := State(1, Read(s.ram, 1), s.ram, s.pc + 2);
    var s3 := State(13, Read(s.ram, 1), s.ram, s.pc + 3);
    var s4 := State(13, Read(s.ram, 1), s.ram[13 := Read(s.ram, 1)], s.pc + 4);
    assert Step(rom, symbols, s) == Some(s1);
    assert Step(rom, symbols, s1) == Some(s2);
    assert Step(rom, symbols, s2) == Some(s3);
    assert Step(rom, symbols, s3) == Some(s4);
    assert Run(rom, symbols, s2, 2) == Some(s4);
  }

  /** `@5 A=D-A D=M @R14 M=D`: the word five below the frame base into R14. */
  lemma RunSaveReturnAddress(rom: seq<Instruction>, symbols: map<string, Word>, s: State, p: nat, u: State)
    requires Loaded(rom, KeepReturnAddress, p + 4) && s.pc == p + 4
    requires var v := Read(s.ram, Wrap(s.d as int - 5)); u == State(14, v, s.ram[14 := v], p + 9)
    ensures Run(rom, symbols, s, 5) == Some(u)
  {
    LoadedAt(rom, KeepReturnAddress, p + 4, 0);
    LoadedAt(rom, KeepReturnAddress, p + 4, 1);
    LoadedAt(rom, KeepReturnAddress, p + 4, 2);
    LoadedAt(rom, KeepReturnAddress, p + 4, 3);
    LoadedAt(rom, KeepReturnAddress, p + 4, 4);
    var v := Read(s.ram, Wrap(s.d as int - 5));
    var s1 := State(5, s.d, s.ram, p + 5);
    var s2 := State(Wrap(s.d as int - 5), s.d, s.ram, p + 6);
    var s3 := State(Wrap(s.d as int - 5), v, s.ram, p + 7);
    var s4 := State(14, v, s.ram, p + 8);
    var s5 := State(14, v, s.ram[14 := v], p + 9);
    assert Step(rom, symbols, s) == Some(s1);
    assert Step(rom, symbols, s1) == Some(s2);
    assert Step(rom, symbols, s2) == Some(s3);
    assert Step(rom, symbols, s3) == Some(s4);
    assert Step(rom, symbols, s4) == Some(s5);
    assert Run(rom, symbols, s3, 2) == Some(s5);
  }

  /** `@SP M=M-1 A=M D=M`: the top of the stack popped into D. */
  lemma RunPopResult(rom: seq<Instruction>, symbols: map<string, Word>, s: State, p: nat)
    requires Loaded(rom, PopD, p + 9) && s.pc == p + 9
    ensures var top := Wrap(Read(s.ram, 0) as int - 1);
      Run(rom, symbols, s, 4) == Some(State(top, Read(s.ram[0 := top], top), s.ram[0 := top], p + 13))
  {
    LoadedAt(rom, PopD, p + 9, 0);
    LoadedAt(rom, PopD, p + 9, 1);
    LoadedAt(rom, PopD, p + 9, 2);
    LoadedAt(rom, PopD, p + 9, 3);
    var top := Wrap(Read(s.ram, 0) as int - 1);
    var ram := s.ram[0 := top];
    var s1 := State(0, s.d, s.ram, p + 10);
    var s2 := State(0, s.d, ram, p + 11);
    var s3 := State(top, s.d, ram, p + 12);
    var s4 := State(top, Read(ram, top), ram, p + 13);
    assert Step(rom, symbols, s) == Some(s1);
    assert Step(rom, symbols, s1) == Some(s2);
    assert Step(rom, symbols, s2) == Some(s3);
    assert Step(rom, symbols, s3) == Some(s4);
    assert Run(rom, symbols, s2, 2) == Some(s4);
  }

  /** `@ARG A=M M=D D=A @SP M=D+1`: D stored where ARG points, SP just above it. */
  lemma RunPlaceResult(rom: seq<Instruction>, symbols: map<string, Word>, s: State, p: nat, u: State)
    requires Loaded(rom, PlaceResult, p + 13) && s.pc == p + 13
    requires var arg := Read(s.ram, 2); u == State(0, arg, s.ram[arg := s.d][0 := Wrap(arg as int + 1)], p + 19)
    ensures Run(rom, symbols, s, 6) == Some(u)
  {
    LoadedAt(rom, PlaceResult, p + 13, 0);
    LoadedAt(rom, PlaceResult, p + 13, 1);
    LoadedAt(rom, PlaceResult, p + 13, 2);
    LoadedAt(rom, PlaceResult, p + 13, 3);
    LoadedAt(rom, PlaceResult, p + 13, 4);
    LoadedAt(rom, PlaceResult, p + 13, 5);
    var arg := Read(s.ram, 2);
    var ram := s.ram[arg := s.d];
    var s1 := State(2, s.d, s.ram, p + 14);
    var s2 := State(arg, s.d, s.ram, p + 15);
    var s3 := State(arg, s.d, ram, p + 16);
    var s4 := State(arg, arg, ram, p + 17);
    var s5 := State(0, arg, ram, p + 18);
    var s6 := State(0, arg, ram[0 := Wrap(arg as int + 1)], p + 19);
    assert Step(rom, symbols, s) == Some(s1);
    assert Step(rom, symbols, s1) == Some(s2);
    assert Step(rom, symbols, s2) == Some(s3);
    assert Step(rom, symbols, s3) == Some(s4);
    assert Step(rom, symbols, s4) == Some(s5);
    assert Step(rom, symbols, s5) == Some(s6);
    assert Run(rom, symbols, s3, 3) == Some(s6);
  }

  /** The first nine lines: R13 := LCL, R14 := RAM[LCL - 5]. */
  lemma RunUnwindHead(rom: seq<Instruction>, symbols: map<string, Word>, s: State, u: State)
    requires Loaded(rom, KeepFrame, s.pc) && Loaded(rom, KeepReturnAddress, s.pc + 4)
    requires var frame := Read(s.ram, 1); var ram1 := s.ram[13 := frame];
      u == State(14, Read(ram1, Wrap(frame as int - 5)), ram1[14 := Read(ram1, Wrap(frame as int - 5))], s.pc + 9)
    ensures Run(rom, symbols, s, 9) == Some(u)
  {
    var frame := Read(s.ram, 1);
    RunSaveFrame(rom, symbols, s);
    RunSaveReturnAddress(rom, symbols, State(13, frame, s.ram[13 := frame], s.pc + 4), s.pc, u);
    RunThenTo(rom, symbols, s, 4, State(13, frame, s.ram[13 := frame], s.pc + 4), 5, u, 9);
  }

  /** The other ten lines: the result popped and stored at ARG, SP := ARG + 1. */
  lemma RunUnwindTail(rom: seq<Instruction>, symbols: map<string, Word>, t: State, p: nat, u: State)
    requires Loaded(rom, PopD, p + 9) && Loaded(rom, PlaceResult, p + 13) && t.pc == p + 9
    requires var top := Wrap(Read(t.ram, 0) as int - 1); var ram3 := t.ram[0 := top]; var arg := Read(ram3, 2);
      u == State(0, arg, ram3[arg := Read(ram3, top)][0 := Wrap(arg as int + 1)], p + 19)
    ensures Run(rom, symbols, t, 10) == Some(u)
  {
    var top := Wrap(Read(t.ram, 0) as int - 1);
    var ram3 := t.ram[0 := top];
    RunPopResult(rom, symbols, t, p);
    RunPlaceResult(rom, symbols, State(top, Read(ram3, top), ram3, p + 13), p, u);
    RunThenTo(rom, symbols, t, 4, State(top, Read(ram3, top), ram3, p + 13), 6, u, 10);
  }

  lemma UnwindPieces(rom: seq<Instruction>, p: nat)
    requires Loaded(rom, Unwind, p)
    ensures Loaded(rom, KeepFrame, p) && Loaded(rom, KeepReturnAddress, p + 4)
    ensures Loaded(rom, PopD, p + 9) && Loaded(rom, PlaceResult, p + 13)
  {
    LoadedSplit(rom, KeepFrame + KeepReturnAddress + PopD, PlaceResult, p);
    LoadedSplit(rom, KeepFrame + KeepReturnAddress, PopD, p);
    LoadedSplit(rom, KeepFrame, KeepReturnAddress, p);
  }

  /**
   * Unfolds the definition of `Unwound` at the state `t` the first nine unwinding lines reach,
   * so that `RunUnwind` can join the head and the tail of the unwinding.
   */
  lemma UnwoundFrom(s: State, t: State)
    requires var frame := Read(s.ram, 1); var ram1 := s.ram[13 := frame];
      t == State(14, Read(ram1, Wrap(frame as int - 5)), ram1[14 := Read(ram1, Wrap(frame as int - 5))], s.pc + 9)
    ensures var top := Wrap(Read(t.ram, 0) as int - 1); var ram3 := t.ram[0 := top]; var arg := Read(ram3, 2);
      Unwound(s) == State(0, arg, ram3[arg := Read(ram3, top)][0 := Wrap(arg as int + 1)], s.pc + 19)
  {
  }

  /** The 19 unwinding lines end in `Unwound`. */
  lemma RunUnwind(rom: seq<Instruction>, symbols: map<string, Word>, s: State)
    requires Loaded(rom, Unwind, s.pc)
    ensures Run(rom, symbols, s, 19) == Some(Unwound(s))
  {
    UnwindPieces(rom, s.pc);
    var frame := Read(s.ram, 1);
    var ram1 := s.ram[13 := frame];
    var t := State(14, Read(ram1, Wrap(frame as int - 5)), ram1[14 := Read(ram1, Wrap(frame as int - 5))], s.pc + 9);
    RunUnwindHead(rom, symbols, s, t);
    UnwoundFrom(s, t);
    RunUnwindTail(rom, symbols, t, s.pc, Unwound(s));
    RunThenTo(rom, symbols, s, 9, t, 10, Unwound(s), 19);
  }

  // ---------------------------------------------------------------- restoring the pointers

  /** The machine after the restores of `rs`: each one steps R13 down and loads the cell it reaches. */
  function AfterRestores(s: State, rs: seq<Register>): State
    requires PointerRegisters(rs)
    decreases |rs|
  {
    if rs == [] then s
    else
      var f := Wrap(Read(s.ram, 13) as int - 1);
      var ram := s.ram[13 := f];
      var v := Read(ram, f);
      AfterRestores(State(Cell(rs[0]), v, ram[Cell(rs[0]) := v], s.pc + 5), rs[1..])
  }

  /** The first three lines of a restore. */
  const StepDown: seq<Instruction> := [AtRegister(R(13)), Assign(ToAM, MMinusOne), Assign(ToD, MReg)]

  /** `@R13 AM=M-1 D=M`: R13 one down, and the cell it now names into D. */
  lemma RunStepDown(rom: seq<Instruction>, symbols: map<string, Word>, s: State, u: State)
    requires Loaded(rom, StepDown, s.pc)
    requires var f := Wrap(Read(s.ram, 13) as int - 1); var ram := s.ram[13 := f];
      u == State(f, Read(ram, f), ram, s.pc + 3)
    ensures Run(rom, symbols, s, 3) == Some(u)
  {
    LoadedAt(rom, StepDown, s.pc, 0);
    LoadedAt(rom, StepDown, s.pc, 1);
    LoadedAt(rom, StepDown, s.pc, 2);
    var f := Wrap(Read(s.ram, 13) as int - 1);
    var ram := s.ram[13 := f];
    var s1 := State(13, s.d, s.ram, s.pc + 1);
    var s2 := State(f, s.d, ram, s.pc + 2);
    assert Step(rom, symbols, s) == Some(s1);
    assert Step(rom, symbols, s1) == Some(s2);
    assert Step(rom, symbols, s2) == Some(u);
  }

  lemma RestorePieces(r: Register, rom: seq<Instruction>, p: nat)
    requires Loaded(rom, Restore(r), p)
    ensures Loaded(rom, StepDown, p) && Loaded(rom, [AtRegister(r), Assign(ToM, DReg)], p + 3)
  {
    assert Restore(r) == StepDown + [AtRegister(r), Assign(ToM, DReg)];
    LoadedSplit(rom, StepDown, [AtRegister(r), Assign(ToM, DReg)], p);
  }

  /** `@r M=D`: D into the pointer `r`; `u` is where it ends. */
  lemma RunStorePointer(r: Register, rom: seq<Instruction>, symbols: map<string, Word>, t: State, u: State)
    requires r.LCL? || r.ARG? || r.THIS? || r.THAT?
    requires Loaded(rom, [AtRegister(r), Assign(ToM, DReg)], t.pc)
    requires u == State(Cell(r), t.d, t.ram[Cell(r) := t.d], t.pc + 2)
    ensures Run(rom, symbols, t, 2) == Some(u)
  {
    RunStoreD(rom, symbols, t, AtRegister(r), Cell(r));
  }

  /** One restore: `@R13 AM=M-1 D=M @r M=D`; `u` is where it ends. */
  lemma RunRestore(r: Register, rom: seq<Instruction>, symbols: map<string, Word>, s: State, u: State)
    requires r.LCL? || r.ARG? || r.THIS? || r.THAT?
    requires Loaded(rom, Restore(r), s.pc)
    requires var f := Wrap(Read(s.ram, 13) as int - 1); var ram := s.ram[13 := f];
      u == State(Cell(r), Read(ram, f), ram[Cell(r) := Read(ram, f)], s.pc + 5)
    ensures Run(rom, symbols, s, 5) == Some(u)
  {
    var f := Wrap(Read(s.ram, 13) as int - 1);
    var ram := s.ram[13 := f];
    var t := State(f, Read(ram, f), ram, s.pc + 3);
    RestorePieces(r, rom, s.pc);
    RunStepDown(rom, symbols, s, t);
    RunStorePointer(r, rom, symbols, t, u);
    RunThenTo(rom, symbols, s, 3, t, 2, u, 5);
  }

  /** One restore, then `n` more lines from the state it leaves. */
  lemma RunRestoreThenRest(r: Register, rom: seq<Instruction>, symbols: map<string, Word>, s: State, n: nat, u: State,
                           total: nat)
    requires r.LCL? || r.ARG? || r.THIS? || r.THAT?
    requires Loaded(rom, Restore(r), s.pc)
    requires var f := Wrap(Read(s.ram, 13) as int - 1); var ram := s.ram[13 := f];
      Run(rom, symbols, State(Cell(r), Read(ram, f), ram[Cell(r) := Read(ram, f)], s.pc + 5), n) == Some(u)
    requires total == n + 5
    ensures Run(rom, symbols, s, total) == Some(u)
  {
    var f := Wrap(Read(s.ram, 13) as int - 1);
    var ram := s.ram[13 := f];
    RunRestore(r, rom, symbols, s, State(Cell(r), Read(ram, f), ram[Cell(r) := Read(ram, f)], s.pc + 5));
    RunThenTo(rom, symbols, s, 5, State(Cell(r), Read(ram, f), ram[Cell(r) := Read(ram, f)], s.pc + 5), n, u, total);
  }

  /** The restores of `rs` run one after another, five lines each. */
  lemma {:induction false} RunRestoreAll(rs: seq<Register>, rom: seq<Instruction>, symbols: map<string, Word>, s: State)
    requires PointerRegisters(rs)
    requires Loaded(rom, RestoreAll(rs), s.pc)
    ensures Run(rom, symbols, s, 5 * |rs|) == Some(AfterRestores(s, rs))
    decreases |rs|
  {
    if rs != [] {
      var f := Wrap(Read(s.ram, 13) as int - 1);
      var ram := s.ram[13 := f];
      var t := State(Cell(rs[0]), Read(ram, f), ram[Cell(rs[0]) := Read(ram, f)], s.pc + 5);
      RestoreFirst(s, rs, t);
      LoadedSplit(rom, Restore(rs[0]), RestoreAll(rs[1..]), s.pc);
      RunRestoreAll(rs[1..], rom, symbols, t);
      RunRestoreThenRest(rs[0], rom, symbols, s, 5 * |rs[1..]|, AfterRestores(s, rs), 5 * |rs|);
    }
  }

  /**
   * One turn of the induction in `RunRestoreAll`: the code of `rs` is the first restore and
   * then the code of `rs[1..]`, and the state after them is the state after `rs[1..]` from `t`.
   */
  lemma RestoreFirst(s: State, rs: seq<Register>, t: State)
    requires PointerRegisters(rs) && rs != []
    requires var f := Wrap(Read(s.ram, 13) as int - 1); var ram := s.ram[13 := f];
      t == State(Cell(rs[0]), Read(ram, f), ram[Cell(rs[0]) := Read(ram, f)], s.pc + 5)
    ensures rs[0].LCL? || rs[0].ARG? || rs[0].THIS? || rs[0].THAT?
    ensures PointerRegisters(rs[1..]) && 5 * |rs| == 5 * |rs[1..]| + 5
    ensures RestoreAll(rs) == Restore(rs[0]) + RestoreAll(rs[1..])
    ensures AfterRestores(s, rs) == AfterRestores(t, rs[1..])
  {
    RestoreCodeFirst(rs);
    AfterRestoresFirst(s, rs, t);
  }

  /** The code half of `RestoreFirst`: `RestoreAll` splits after its first register. */
  lemma RestoreCodeFirst(rs: seq<Register>)
    requires PointerRegisters(rs) && rs != []
    ensures rs[0].LCL? || rs[0].ARG? || rs[0].THIS? || rs[0].THAT?
    ensures PointerRegisters(rs[1..]) && 5 * |rs| == 5 * |rs[1..]| + 5
    ensures RestoreAll(rs) == Restore(rs[0]) + RestoreAll(rs[1..])
  {
    forall i | 0 <= i < |rs[1..]| ensures rs[1..][i].LCL? || rs[1..][i].ARG? || rs[1..][i].THIS? || rs[1..][i].THAT? {
      assert rs[1..][i] == rs[i + 1];
    }
  }

  /** The state half of `RestoreFirst`: `AfterRestores` unfolds once. */
  lemma AfterRestoresFirst(s: State, rs: seq<Register>, t: State)
    requires PointerRegisters(rs) && rs != [] && PointerRegisters(rs[1..])
    requires var f := Wrap(Read(s.ram, 13) as int - 1); var ram := s.ram[13 := f];
      t == State(Cell(rs[0]), Read(ram, f), ram[Cell(rs[0]) := Read(ram, f)], s.pc + 5)
    ensures AfterRestores(s, rs) == AfterRestores(t, rs[1..])
  {
  }

  /** `RunRestoreAll` at the fixed count of four: the restores of a return take 20 lines. */
  lemma RunFourRestores(rs: seq<Register>, rom: seq<Instruction>, symbols: map<string, Word>, s: State)
    requires PointerRegisters(rs) && |rs| == 4
    requires Loaded(rom, RestoreAll(rs), s.pc)
    ensures Run(rom, symbols, s, 20) == Some(AfterRestores(s, rs))
  {
    RunRestoreAll(rs, rom, symbols, s);
  }

  // ---------------------------------------------------------------- the jump back

  /** `@R14 A=M 0;JMP`: to the address kept in R14. */
  lemma RunJumpBack(rom: seq<Instruction>, symbols: map<string, Word>, s: State)
    requires Loaded(rom, JumpBack, s.pc)
    ensures Run(rom, symbols, s, 3) == Some(State(Read(s.ram, 14), s.d, s.ram, Read(s.ram, 14)))
  {
    LoadedAt(rom, JumpBack, s.pc, 0);
    LoadedAt(rom, JumpBack, s.pc, 1);
    LoadedAt(rom, JumpBack, s.pc, 2);
    var s1 := State(14, s.d, s.ram, s.pc + 1);
    var s2 := State(Read(s.ram, 14), s.d, s.ram, s.pc + 2);
    assert Step(rom, symbols, s) == Some(s1);
    assert Step(rom, symbols, s1) == Some(s2);
    assert Step(rom, symbols, s2) == Some(State(Read(s.ram, 14), s.d, s.ram, Read(s.ram, 14)));
  }

  // ---------------------------------------------------------------- the whole return

  /** Where the 42 lines of a return leave the machine. */
  function Returned(s: State): State {
    var t := AfterRestores(Unwound(s), Restored);
    State(Read(t.ram, 14), t.d, t.ram, Read(t.ram, 14))
  }

  lemma ReturnPieces(rom: seq<Instruction>, p: nat)
    requires Loaded(rom, ReturnCode(), p)
    ensures Loaded(rom, Unwind, p)
    ensures Loaded(rom, RestoreAll(Restored), p + 19)
    ensures Loaded(rom, JumpBack, p + 39)
  {
    LoadedSplit(rom, Unwind + RestoreAll(Restored), JumpBack, p);
    LoadedSplit(rom, Unwind, RestoreAll(Restored), p);
  }

  /** The restores and the jump, from the end of the unwinding. */
  lemma RunReturnTail(rom: seq<Instruction>, symbols: map<string, Word>, t: State, p: nat, u: State)
    requires Loaded(rom, RestoreAll(Restored), p + 19) && Loaded(rom, JumpBack, p + 39) && t.pc == p + 19
    requires var r := AfterRestores(t, Restored); u == State(Read(r.ram, 14), r.d, r.ram, Read(r.ram, 14))
    ensures Run(rom, symbols, t, 23) == Some(u)
  {
    RunFourRestores(Restored, rom, symbols, t);
    AfterRestoresPc(t, Restored);
    RunJumpBack(rom, symbols, AfterRestores(t, Restored));
    RunThenTo(rom, symbols, t, 20, AfterRestores(t, Restored), 3, u, 23);
  }

  lemma {:induction false} AfterRestoresPc(s: State, rs: seq<Register>)
    requires PointerRegisters(rs)
    ensures AfterRestores(s, rs).pc == s.pc + 5 * |rs|
    decreases |rs|
  {
    if rs != [] {
      var f := Wrap(Read(s.ram, 13) as int - 1);
      var ram := s.ram[13 := f];
      AfterRestoresPc(State(Cell(rs[0]), Read(ram, f), ram[Cell(rs[0]) := Read(ram, f)], s.pc + 5), rs[1..]);
    }
  }

  /**
   * Unfolds `Returned` into the state the unwinding reaches followed by the four restores
   * and the jump, the order in which `RunReturn` runs them.
   */
  lemma ReturnedAfterUnwound(s: State)
    ensures Unwound(s).pc == s.pc + 19
    ensures var r := AfterRestores(Unwound(s), Restored);
      Returned(s) == State(Read(r.ram, 14), r.d, r.ram, Read(r.ram, 14))
  {
  }

  /** `return` ends in `Returned`, whatever the machine held. */
  lemma RunReturn(rom: seq<Instruction>, symbols: map<string, Word>, s: State)
    requires Loaded(rom, ReturnCode(), s.pc)
    ensures Run(rom, symbols, s, 42) == Some(Returned(s))
  {
    ReturnPieces(rom, s.pc);
    RunUnwind(rom, symbols, s);
    ReturnedAfterUnwound(s);
    RunReturnTail(rom, symbols, Unwound(s), s.pc, Returned(s));
    RunThenTo(rom, symbols, s, 19, Unwound(s), 23, Returned(s), 42);
  }

  // ---------------------------------------------------------------- what a return does to the frame

  /**
   * With ARG above the registers, at least five cells below LCL, and LCL below SP, the
   * unwinding keeps the frame base in R13 and the return address in R14, puts the top of the
   * stack at ARG and sets SP just above it, and changes no other cell.
   */
  lemma UnwoundLayout(s: State)
    requires var frame := Read(s.ram, 1); var arg := Read(s.ram, 2);
      16 < arg && arg + 5 <= frame && frame < StackPointer(s.ram)
    ensures var frame := Read(s.ram, 1); var arg := Read(s.ram, 2); var u := Unwound(s).ram;
      && Read(u, 13) == frame
      && Read(u, 14) == Read(s.ram, frame - 5)
      && StackPointer(u) == arg + 1
      && Read(u, arg) == Read(s.ram, StackPointer(s.ram) - 1)
    ensures var arg := Read(s.ram, 2);
      forall j: Word | 0 < j && j != 13 && j != 14 && j != arg :: Read(Unwound(s).ram, j) == Read(s.ram, j)
  {
    var frame := Read(s.ram, 1);
    var arg := Read(s.ram, 2);
    WrapFits(frame as int - 5);
    WrapFits(StackPointer(s.ram) as int - 1);
    WrapFits(arg as int + 1);
  }

  /**
   * The first restore steps R13 one cell down and loads the cell it reaches into the pointer,
   * when that cell is above the registers.
   */
  lemma AfterRestoresStep(s: State, rs: seq<Register>, f: Word)
    requires PointerRegisters(rs) && rs != []
    requires Read(s.ram, 13) == f && 16 < f - 1
    ensures AfterRestores(s, rs)
      == AfterRestores(State(Cell(rs[0]), Read(s.ram, f - 1), s.ram[13 := f - 1][Cell(rs[0]) := Read(s.ram, f - 1)], s.pc + 5), rs[1..])
  {
    WrapFits(f as int - 1);
  }

  /** The RAM the four restores leave, from R13 = f: each pointer loaded from its cell below f. */
  function RestoredRam(ram: map<Word, Word>, f: Word): map<Word, Word>
    requires 20 < f
  {
    ram[13 := f - 1][4 := Read(ram, f - 1)][13 := f - 2][3 := Read(ram, f - 2)]
      [13 := f - 3][2 := Read(ram, f - 3)][13 := f - 4][1 := Read(ram, f - 4)]
  }

  lemma RestoreLcl(s: State, f: Word)
    requires Read(s.ram, 13) == f && 16 < f - 1
    ensures AfterRestores(s, [LCL]).ram == s.ram[13 := f - 1][1 := Read(s.ram, f - 1)]
  {
    AfterRestoresStep(s, [LCL], f);
    assert [LCL][1..] == [];
  }

  lemma RestoreArgLcl(s: State, f: Word)
    requires Read(s.ram, 13) == f && 16 < f - 2
    ensures AfterRestores(s, [ARG, LCL]).ram
      == s.ram[13 := f - 1][2 := Read(s.ram, f - 1)][13 := f - 2][1 := Read(s.ram, f - 2)]
  {
    var ram1: map<Word, Word> := s.ram[13 := f - 1][2 := Read(s.ram, f - 1)];
    AfterRestoresStep(s, [ARG, LCL], f);
    assert [ARG, LCL][1..] == [LCL];
    RestoreLcl(State(2, Read(s.ram, f - 1), ram1, s.pc + 5), f - 1);
  }

  lemma RestoreThisArgLcl(s: State, f: Word)
    requires Read(s.ram, 13) == f && 16 < f - 3
    ensures AfterRestores(s, [THIS, ARG, LCL]).ram
      == s.ram[13 := f - 1][3 := Read(s.ram, f - 1)][13 := f - 2][2 := Read(s.ram, f - 2)]
           [13 := f - 3][1 := Read(s.ram, f - 3)]
  {
    var ram1: map<Word, Word> := s.ram[13 := f - 1][3 := Read(s.ram, f - 1)];
    AfterRestoresStep(s, [THIS, ARG, LCL], f);
    assert [THIS, ARG, LCL][1..] == [ARG, LCL];
    RestoreArgLcl(State(3, Read(s.ram, f - 1), ram1, s.pc + 5), f - 1);
  }

  /** The four restores, one at a time. */
  lemma AfterRestoresRam(s: State, f: Word)
    requires Read(s.ram, 13) == f && 20 < f
    ensures AfterRestores(s, Restored).ram == RestoredRam(s.ram, f)
  {
    var ram1: map<Word, Word> := s.ram[13 := f - 1][4 := Read(s.ram, f - 1)];
    AfterRestoresStep(s, Restored, f);
    assert Restored[1..] == [THIS, ARG, LCL];
    RestoreThisArgLcl(State(4, Read(s.ram, f - 1), ram1, s.pc + 5), f - 1);
  }

  /**
   * With R13 at the frame base f and the four cells below it above the registers, the
   * restores load THAT, THIS, ARG and LCL from f - 1, f - 2, f - 3 and f - 4, leave R13 at
   * f - 4, and change no cell but those five.
   */
  lemma RestoresLayout(s: State, f: Word)
    requires Read(s.ram, 13) == f && 20 < f
    ensures var r := AfterRestores(s, Restored).ram;
      && Read(r, 13) == f - 4
      && Read(r, 4) == Read(s.ram, f - 1) && Read(r, 3) == Read(s.ram, f - 2)
      && Read(r, 2) == Read(s.ram, f - 3) && Read(r, 1) == Read(s.ram, f - 4)
    ensures forall j: Word | (j == 0 || 4 < j) && j != 13 :: Read(AfterRestores(s, Restored).ram, j) == Read(s.ram, j)
  {
    AfterRestoresRam(s, f);
  }

  /**
   * What a return does, when ARG is above the registers, at least five cells below LCL, and
   * LCL is below SP: control goes to the address five cells below LCL, the top of the stack
   * ends up where ARG pointed with SP just above it, LCL, ARG, THIS and THAT come back from the
   * four cells below LCL, and no cell above R14 changes but the result's.
   */
  lemma ReturnLayout(s: State)
    requires var frame := Read(s.ram, 1); var arg := Read(s.ram, 2);
      16 < arg && arg + 5 <= frame && frame < StackPointer(s.ram)
    ensures var frame := Read(s.ram, 1); var arg := Read(s.ram, 2); var r := Returned(s);
      && r.pc == Read(s.ram, frame - 5)
      && StackPointer(r.ram) == arg + 1
      && Read(r.ram, arg) == Read(s.ram, StackPointer(s.ram) - 1)
      && Read(r.ram, 1) == Read(s.ram, frame - 4) && Read(r.ram, 2) == Read(s.ram, frame - 3)
      && Read(r.ram, 3) == Read(s.ram, frame - 2) && Read(r.ram, 4) == Read(s.ram, frame - 1)
    ensures var arg := Read(s.ram, 2);
      forall j: Word | 14 < j && j != arg :: Read(Returned(s).ram, j) == Read(s.ram, j)
  {
    var frame := Read(s.ram, 1);
    UnwoundLayout(s);
    RestoresLayout(Unwound(s), frame);
  }

  // ---------------------------------------------------------------- a call and its return

  /**
   * A call followed, after the callee has run, by a return: when the callee leaves LCL, ARG
   * and the five frame cells as the call set them and ends with its result on top of a stack
   * above the frame, the return goes back to the call's return address, puts the result where
   * the first argument was with SP just above it, and gives the caller back LCL, ARG, THIS and
   * THAT as they were before the call.
   */
  lemma CallThenReturn(ram: map<Word, Word>, returnAddress: Word, argCount: nat, callee: State)
    requires 16 + argCount < StackPointer(ram) && StackPointer(ram) + 5 < 0x1_0000
    requires var sp := StackPointer(ram); var frame := CallFrame(ram, returnAddress, argCount);
      && Read(callee.ram, 1) == Read(frame, 1) && Read(callee.ram, 2) == Read(frame, 2)
      && (forall i: Word | sp <= i < sp + 5 :: Read(callee.ram, i) == Read(frame, i))
      && sp + 5 < StackPointer(callee.ram)
    ensures var sp := StackPointer(ram); var r := Returned(callee);
      && r.pc == returnAddress
      && StackPointer(r.ram) == sp - argCount + 1
      && Read(r.ram, sp - argCount) == Read(callee.ram, StackPointer(callee.ram) - 1)
      && Read(r.ram, 1) == Read(ram, 1) && Read(r.ram, 2) == Read(ram, 2)
      && Read(r.ram, 3) == Read(ram, 3) && Read(r.ram, 4) == Read(ram, 4)
  {
    var sp := StackPointer(ram);
    CallFrameLayout(ram, returnAddress, argCount);
    ReturnLayout(callee);
    assert Read(callee.ram, sp) == returnAddress;
    assert Read(callee.ram, sp + 1) == Read(ram, 1);
    assert Read(callee.ram, sp + 2) == Read(ram, 2);
    assert Read(callee.ram, sp + 3) == Read(ram, 3);
    assert Read(callee.ram, sp + 4) == Read(ram, 4);
  }

  /**
   * The same on the machine: the 49 lines of `call`, `m` steps of the callee ending at a
   * `return`, and its 42 lines bring control back to the line after the call (the label of
   * the return address, by `CallShape`).
   */
  lemma RunCallAndReturn(callee: string, argCount: U16, returnAddress: string, rom: seq<Instruction>,
                         symbols: map<string, Word>, s: State, k: nat, m: nat, c: State)
    requires Labelled(rom, symbols) && Loaded(rom, CallCode(callee, argCount, returnAddress), s.pc)
    requires k < |rom| && rom[k] == Define(callee)
    requires 16 + argCount < StackPointer(s.ram) && StackPointer(s.ram) + 5 < 0x1_0000
    requires Run(rom, symbols, State(k, StackPointer(s.ram) + 5, CallFrame(s.ram, s.pc + 49, argCount), k), m) == Some(c)
    requires Loaded(rom, ReturnCode(), c.pc)
    requires var sp := StackPointer(s.ram); var frame := CallFrame(s.ram, s.pc + 49, argCount);
      && Read(c.ram, 1) == Read(frame, 1) && Read(c.ram, 2) == Read(frame, 2)
      && (forall i: Word | sp <= i < sp + 5 :: Read(c.ram, i) == Read(frame, i))
      && sp + 5 < StackPointer(c.ram)
    ensures Run(rom, symbols, s, 49 + m + 42) == Some(Returned(c))
    ensures Returned(c).pc == s.pc + 49
  {
    var entered := State(k, StackPointer(s.ram) + 5, CallFrame(s.ram, s.pc + 49, argCount), k);
    RunCall(callee, argCount, returnAddress, rom, symbols, s, k);
    RunCalleeThenReturn(rom, symbols, entered, m, c, Returned(c));
    RunThenTo(rom, symbols, s, 49, entered, m + 42, Returned(c), 49 + m + 42);
    CallThenReturn(s.ram, s.pc + 49, argCount, c);
  }

  /** The callee's `m` steps, then its return. */
  lemma RunCalleeThenReturn(rom: seq<Instruction>, symbols: map<string, Word>, entered: State, m: nat, c: State, u: State)
    requires Run(rom, symbols, entered, m) == Some(c) && Loaded(rom, ReturnCode(), c.pc) && u == Returned(c)
    ensures Run(rom, symbols, entered, m + 42) == Some(u)
  {
    RunReturn(rom, symbols, c);
    RunThenTo(rom, symbols, entered, m, c, 42, u, m + 42);
  }
}
