/**
 * The code generator (src/translator.rs): one VM command to a list of Hack assembly lines.
 *
 * The generator has its own `Command`, whose `Call` carries the return address to define
 * after the jump. Its arithmetic operations and memory segments are those of `Commands`.
 * Code is built as `Instruction`s; `Lines` gives the text lines the generator returns.
 * A panic of the source is `Panic`.
 */
module Translator {
  import opened Wrappers
  import opened Decimal
  import opened Hack
  import Commands

  type Arithmetic = Commands.Arithmetic
  type MemorySegment = Commands.MemorySegment

  /** Rust's `u64`, the type of the caller's label counter. */
  type U64 = x: int | 0 <= x < 0x1_0000_0000_0000_0000

  const U64Max: U64 := 0xFFFF_FFFF_FFFF_FFFF

  /** A VM command as the generator takes it. */
  datatype Command =
    | Arithmetic(operation: Arithmetic)
    | Push(segment: MemorySegment, index: U16)
    | Pop(segment: MemorySegment, index: U16)
    | Label(name: string)
    | Goto(name: string)
    | IfGoto(name: string)
    | Function(name: string, localCount: U16)
    | Call(callee: string, argCount: U16, returnAddress: string)
    | Return

  const AddOverflow: string := "attempt to add with overflow"
  const BadPointer: string := "invalid index for pointer"
  const BadTemp: string := "assertion failed: index < 8"

  /** Push D onto the stack: the common tail of every push. */
  const PushD: seq<Instruction> :=
    [AtRegister(SP), Assign(ToA, MReg), Assign(ToM, DReg), AtRegister(SP), Assign(ToM, MPlusOne)]

  /** Pop the top of the stack into D: the common head of every direct pop. */
  const PopD: seq<Instruction> :=
    [AtRegister(SP), Assign(ToM, MMinusOne), Assign(ToA, MReg), Assign(ToD, MReg)]

  // ---------------------------------------------------------------- arithmetic

  /** The label a comparison jumps to when it holds, unique per counter value. */
  function TrueLabel(file: string, n: nat): string {
    file + "$Arith_True." + NatToString(n)
  }

  /** The instruction that does the work of an operation: a computation or a conditional jump. */
  function Operation(op: Arithmetic): Instruction {
    match op
    case ADD => Assign(ToM, MPlusD)
    case SUB => Assign(ToM, MMinusD)
    case NEG => Assign(ToM, NegM)
    case EQ => Branch(DReg, JEQ)
    case GT => Branch(DReg, JGT)
    case LT => Branch(DReg, JLT)
    case AND => Assign(ToM, MAndD)
    case OR => Assign(ToM, MOrD)
    case NOT => Assign(ToM, NotM)
  }

  predicate IsBinary(op: Arithmetic) {
    op.ADD? || op.SUB? || op.AND? || op.OR?
  }

  predicate IsUnary(op: Arithmetic) {
    op.NEG? || op.NOT?
  }

  predicate IsComparison(op: Arithmetic) {
    op.EQ? || op.GT? || op.LT?
  }

  /** The code of an operation once the counter has reached `n`. */
  function ArithmeticCode(file: string, op: Arithmetic, n: nat): (code: seq<Instruction>)
    ensures IsBinary(op) ==> |code| == 5
    ensures IsUnary(op) ==> |code| == 3
    ensures IsComparison(op) ==>
      |code| == 12 && code[6] == AtSymbol(TrueLabel(file, n)) && code[11] == Define(TrueLabel(file, n))
    ensures code[|code| - 1] == Operation(op) || code[|code| - 1] == Define(TrueLabel(file, n))
  {
    if IsUnary(op) then
      [AtRegister(SP), Assign(ToA, MMinusOne), Operation(op)]
    else if IsBinary(op) then
      [AtRegister(SP), Assign(ToAM, MMinusOne), Assign(ToD, MReg), Assign(ToA, AMinusOne), Operation(op)]
    else
      [AtRegister(SP), Assign(ToAM, MMinusOne), Assign(ToD, MReg), Assign(ToA, AMinusOne),
       Assign(ToD, MMinusD), Assign(ToM, MinusOne), AtSymbol(TrueLabel(file, n)), Operation(op),
       AtRegister(SP), Assign(ToA, MMinusOne), Assign(ToM, Zero), Define(TrueLabel(file, n))]
  }

  /** Different counter values give different comparison labels. */
  lemma TrueLabelInjective(file: string, m: nat, n: nat)
    requires TrueLabel(file, m) == TrueLabel(file, n)
    ensures m == n
  {
    var prefix := file + "$Arith_True.";
    assert NatToString(m) == TrueLabel(file, m)[|prefix|..];
    assert NatToString(n) == TrueLabel(file, n)[|prefix|..];
    NatToStringInjective(m, n);
  }

  /**
   * Two comparisons translated at different counter values jump to different labels and
   * define different labels.
   */
  lemma ComparisonLabelsDistinct(file: string, op1: Arithmetic, m: nat, op2: Arithmetic, n: nat)
    requires IsComparison(op1) && IsComparison(op2) && m != n
    ensures ArithmeticCode(file, op1, m)[11] != ArithmeticCode(file, op2, n)[11]
    ensures ArithmeticCode(file, op1, m)[6] != ArithmeticCode(file, op2, n)[6]
  {
    if TrueLabel(file, m) == TrueLabel(file, n) {
      TrueLabelInjective(file, m, n);
    }
  }

  /**
   * `translate_arithmetic`: advances the caller's counter by one, for every operation, and
   * labels a comparison with the new value; the increment panics at the top of `u64`.
   */
  method TranslateArithmetic(index: U64, file: string, op: Arithmetic)
    returns (code: Result<seq<Instruction>>, next: U64)
    ensures index < U64Max ==> next == index + 1 && code == Ok(ArithmeticCode(file, op, next))
    ensures index == U64Max ==> code == Panic(AddOverflow) && next == index
  {
    if index == U64Max {
      return Panic(AddOverflow), index;
    }
    next := index + 1;
    code := Ok(ArithmeticCode(file, op, next));
  }

  // ---------------------------------------------------------------- push and pop

  /** The base pointer of an indirect segment. */
  function Base(segment: MemorySegment): Register
    requires segment.IsIndirect()
  {
    match segment
    case Local => LCL
    case Argument => ARG
    case This => THIS
    case That => THAT
  }

  /** The line that selects the base pointer is the segment's `label`. */
  lemma BaseIsLabel(segment: MemorySegment)
    requires segment.IsIndirect()
    ensures Text(AtRegister(Base(segment))) == segment.Label()
  {
  }

  /** The name of the variable behind `static i` in the unit `file`. */
  function StaticName(file: string, index: nat): string {
    file + "." + NatToString(index)
  }

  /** `pointer 0` is THIS, `pointer 1` is THAT. */
  function PointerTarget(index: nat): Result<Register> {
    if index == 0 then Ok(THIS) else if index == 1 then Ok(THAT) else Panic(BadPointer)
  }

  /** `temp i` is R5 + i, for the eight temp cells. */
  function TempTarget(index: nat): Result<Register> {
    if index < 8 then Ok(R(index + 5)) else Panic(BadTemp)
  }

  /** The lines of `push` that load the pushed value into D. */
  function Fetch(file: string, segment: MemorySegment, index: U16): Result<seq<Instruction>> {
    match segment
    case Constant => Ok([AtNumber(index), Assign(ToD, AReg)])
    case Static => Ok([AtSymbol(StaticName(file, index)), Assign(ToD, MReg)])
    case Pointer =>
      var r :- PointerTarget(index);
      Ok([AtRegister(r), Assign(ToD, MReg)])
    case Temp =>
      var r :- TempTarget(index);
      Ok([AtRegister(r), Assign(ToD, MReg)])
    case _ =>
      Ok([AtRegister(Base(segment)), Assign(ToD, MReg), AtNumber(index), Assign(ToA, APlusD), Assign(ToD, MReg)])
  }

  /**
   * `translate_push`. The temp cell `index + 5` is computed for every segment first, so an
   * index above 65530 overflows `u16` and panics whatever the segment.
   */
  function PushCode(file: string, segment: MemorySegment, index: U16): Result<seq<Instruction>> {
    if index + 5 >= 0x1_0000 then Panic(AddOverflow)
    else
      var fetch :- Fetch(file, segment, index);
      Ok(fetch + PushD)
  }

  /** `translate_push` as it runs: the segment's lines first, then the push of D appended to them. */
  method TranslatePush(file: string, segment: MemorySegment, index: U16) returns (code: Result<seq<Instruction>>)
    ensures code == PushCode(file, segment, index)
  {
    if index + 5 >= 0x1_0000 {
      return Panic(AddOverflow);
    }
    var fetch := Fetch(file, segment, index);
    if fetch.Fails() {
      return fetch.Propagate();
    }
    var instructions := fetch.value;
    instructions := instructions + PushD;
    code := Ok(instructions);
  }

  /** `translate_pop`: the same overflow first, then the segment; `pop constant` panics. */
  function PopCode(file: string, segment: MemorySegment, index: U16): Result<seq<Instruction>> {
    if index + 5 >= 0x1_0000 then Panic(AddOverflow)
    else match segment
      case Constant => Panic("invalid operation: pop Constant " + NatToString(index))
      case Static => Ok(PopD + [AtSymbol(StaticName(file, index)), Assign(ToM, DReg)])
      case Pointer =>
        var r :- PointerTarget(index);
        Ok(PopD + [AtRegister(r), Assign(ToM, DReg)])
      case Temp =>
        var r :- TempTarget(index);
        Ok(PopD + [AtRegister(r), Assign(ToM, DReg)])
      case _ =>
        Ok([AtRegister(Base(segment)), Assign(ToD, MReg), AtNumber(index), Assign(ToD, APlusD),
            AtRegister(R(13)), Assign(ToM, DReg)]
           + PopD + [AtRegister(R(13)), Assign(ToA, MReg), Assign(ToM, DReg)])
  }

  /**
   * Every push ends by pushing D; before that it reads its value in five lines through a
   * base pointer, or in two lines otherwise.
   */
  lemma PushShape(file: string, segment: MemorySegment, index: U16)
    requires PushCode(file, segment, index).Ok?
    ensures var code := PushCode(file, segment, index).value;
      && |code| == (if segment.IsIndirect() then 10 else 7)
      && code[|code| - 5..] == PushD
      && (segment.IsIndirect() ==> code[0] == AtRegister(Base(segment)) && code[2] == AtNumber(index))
  {
  }

  /**
   * Every pop that succeeds stores the popped value; a direct pop starts by popping into D,
   * an indirect one first saves the target address in R13.
   */
  lemma PopShape(file: string, segment: MemorySegment, index: U16)
    requires PopCode(file, segment, index).Ok?
    ensures var code := PopCode(file, segment, index).value;
      && |code| == (if segment.IsIndirect() then 13 else 6)
      && code[|code| - 1] == Assign(ToM, DReg)
      && (!segment.IsIndirect() ==> code[..4] == PopD)
      && (segment.IsIndirect() ==> code[6..10] == PopD && code[4] == AtRegister(R(13)))
  {
  }

  /** `pointer` accepts only 0 (THIS) and 1 (THAT), in push and in pop. */
  lemma PointerRouting(file: string, index: U16)
    ensures PushCode(file, Commands.Pointer, index).Ok? <==> index < 2
    ensures PopCode(file, Commands.Pointer, index).Ok? <==> index < 2
    ensures index < 2 ==>
      var target := AtRegister(if index == 0 then THIS else THAT);
      PushCode(file, Commands.Pointer, index).value[0] == target
      && PopCode(file, Commands.Pointer, index).value[4] == target
  {
  }

  /** `temp i` accepts only i < 8 and addresses R(i + 5), in push and in pop. */
  lemma TempRouting(file: string, index: U16)
    ensures PushCode(file, Commands.Temp, index).Ok? <==> index < 8
    ensures PopCode(file, Commands.Temp, index).Ok? <==> index < 8
    ensures index < 8 ==>
      && PushCode(file, Commands.Temp, index).value[0] == AtRegister(R(index + 5))
      && PopCode(file, Commands.Temp, index).value[4] == AtRegister(R(index + 5))
      && Text(AtRegister(R(index + 5))) == "@R" + NatToString(index + 5)
  {
  }

  /** There is no `pop constant`. */
  lemma PopConstantFails(file: string, index: U16)
    ensures PopCode(file, Commands.Constant, index).Panic?
  {
  }

  /** An index above 65530 panics in push and pop, for every segment. */
  lemma IndexOverflow(file: string, segment: MemorySegment, index: U16)
    ensures PushCode(file, segment, index).Panic? <== index > 65530
    ensures PopCode(file, segment, index).Panic? <== index > 65530
    ensures index <= 65530 && !segment.Pointer? && !segment.Temp? ==> PushCode(file, segment, index).Ok?
  {
  }

  // ---------------------------------------------------------------- program flow

  function LabelCode(name: string): seq<Instruction> {
    [Define(name)]
  }

  function GotoCode(name: string): seq<Instruction> {
    [AtSymbol(name), Branch(Zero, JMP)]
  }

  /** Pop the top of the stack and jump when it is not zero. */
  function IfCode(name: string): seq<Instruction> {
    [AtRegister(SP), Assign(ToAM, MMinusOne), Assign(ToD, MReg), AtSymbol(name), Branch(DReg, JNE)]
  }

  /** The loop label of a function prologue. */
  function LoopLabel(name: string, count: nat): string {
    name + "$arg." + NatToString(count)
  }

  function EndLabel(name: string, count: nat): string {
    LoopLabel(name, count) + ".end"
  }

  /** The body of the prologue loop: one zero pushed per turn, D counting down. */
  function ZeroLoop(name: string, count: nat): seq<Instruction> {
    [Define(LoopLabel(name, count)), AtSymbol(EndLabel(name, count)), Branch(DReg, JEQ),
     Assign(ToD, DMinusOne), AtRegister(SP), Assign(ToA, MReg), Assign(ToM, Zero),
     AtRegister(SP), Assign(ToM, MPlusOne), AtSymbol(LoopLabel(name, count)), Branch(Zero, JMP)]
  }

  /** `translate_function`: the entry label, D := count, then the loop that pushes count zeros. */
  function FunctionCode(name: string, count: U16): (code: seq<Instruction>)
    ensures |code| == 15 && code[0] == Define(name)
    ensures code[14] == Define(EndLabel(name, count))
  {
    [Define(name), AtNumber(count), Assign(ToD, AReg)] + ZeroLoop(name, count)
      + [Define(EndLabel(name, count))]
  }

  // ---------------------------------------------------------------- call and return

  /** The pointers a call saves, in the order it pushes them. */
  const Saved: seq<Register> := [LCL, ARG, THIS, THAT]

  /** The pointers a return restores, in the order it restores them. */
  const Restored: seq<Register> := [THAT, THIS, ARG, LCL]

  function Save(r: Register): seq<Instruction> {
    [AtRegister(r), Assign(ToD, MReg)] + PushD
  }

  function SaveAll(rs: seq<Register>): (code: seq<Instruction>)
    ensures |code| == 7 * |rs|
  {
    if rs == [] then [] else Save(rs[0]) + SaveAll(rs[1..])
  }

  lemma {:induction false} SaveAllSnoc(rs: seq<Register>, r: Register)
    ensures SaveAll(rs + [r]) == SaveAll(rs) + Save(r)
  {
    if rs != [] {
      assert (rs + [r])[1..] == rs[1..] + [r];
      SaveAllSnoc(rs[1..], r);
    } else {
      assert SaveAll([r][1..]) == [];
    }
  }

  /** The `k`th saved block starts by selecting the `k`th pointer. */
  lemma {:induction false} SaveAllAt(rs: seq<Register>, k: nat)
    requires k < |rs|
    ensures SaveAll(rs)[7 * k..7 * k + 7] == Save(rs[k])
  {
    if k > 0 {
      SaveAllAt(rs[1..], k - 1);
      assert SaveAll(rs)[7..] == SaveAll(rs[1..]);
    }
  }

  /** The frame set-up after the saves: ARG := SP - 5 - argCount, LCL := SP. */
  function Reposition(argCount: nat): seq<Instruction> {
    [AtRegister(SP), Assign(ToD, MReg), AtNumber(5), Assign(ToD, DMinusA), AtNumber(argCount),
     Assign(ToD, DMinusA), AtRegister(ARG), Assign(ToM, DReg),
     AtRegister(SP), Assign(ToD, MReg), AtRegister(LCL), Assign(ToM, DReg)]
  }

  /** What `translate_call` returns. */
  function CallCode(callee: string, argCount: nat, returnAddress: string): seq<Instruction> {
    [AtSymbol(returnAddress), Assign(ToD, AReg)] + PushD + SaveAll(Saved) + Reposition(argCount)
      + [AtSymbol(callee), Branch(Zero, JMP), Define(returnAddress)]
  }

  /**
   * A call pushes the return address and then LCL, ARG, THIS, THAT, in that order, before it
   * moves the frame; it ends by jumping to the callee and defining the return address.
   */
  lemma CallShape(callee: string, argCount: nat, returnAddress: string)
    ensures var code := CallCode(callee, argCount, returnAddress);
      && |code| == 50
      && code[..7] == [AtSymbol(returnAddress), Assign(ToD, AReg)] + PushD
      && (forall k | 0 <= k < 4 :: code[7 + 7 * k..14 + 7 * k] == Save(Saved[k]))
      && code[35..47] == Reposition(argCount)
      && code[47..] == [AtSymbol(callee), Branch(Zero, JMP), Define(returnAddress)]
  {
    var code := CallCode(callee, argCount, returnAddress);
    var head := [AtSymbol(returnAddress), Assign(ToD, AReg)] + PushD;
    var saves := SaveAll(Saved);
    var tail := [AtSymbol(callee), Branch(Zero, JMP), Define(returnAddress)];
    assert code == head + saves + Reposition(argCount) + tail;
    assert code[7..35] == saves;
    forall k | 0 <= k < 4
      ensures code[7 + 7 * k..14 + 7 * k] == Save(Saved[k])
    {
      SaveAllAt(Saved, k);
      assert code[7 + 7 * k..14 + 7 * k] == saves[7 * k..7 * k + 7];
    }
  }

  /**
   * `translate_call`: the return-address push, then the four saves in a loop, then the frame
   * set-up and the jump.
   */
  method TranslateCall(callee: string, argCount: U16, returnAddress: string) returns (code: seq<Instruction>)
    ensures code == CallCode(callee, argCount, returnAddress)
  {
    code := [AtSymbol(returnAddress), Assign(ToD, AReg)];
    code := code + PushD;
    ghost var head := code;
    var i := 0;
    while i < |Saved|
      invariant 0 <= i <= |Saved|
      invariant code == head + SaveAll(Saved[..i])
    {
      code := code + [AtRegister(Saved[i]), Assign(ToD, MReg)];
      code := code + PushD;
      SaveAllSnoc(Saved[..i], Saved[i]);
      assert Saved[..i + 1] == Saved[..i] + [Saved[i]];
      i := i + 1;
    }
    assert Saved[..i] == Saved;
    code := code + Reposition(argCount);
    code := code + [AtSymbol(callee), Branch(Zero, JMP), Define(returnAddress)];
  }

  /** Pop the saved frame one cell down from R13 into the pointer `r`. */
  function Restore(r: Register): seq<Instruction> {
    [AtRegister(R(13)), Assign(ToAM, MMinusOne), Assign(ToD, MReg), AtRegister(r), Assign(ToM, DReg)]
  }

  function RestoreAll(rs: seq<Register>): (code: seq<Instruction>)
    ensures |code| == 5 * |rs|
  {
    if rs == [] then [] else Restore(rs[0]) + RestoreAll(rs[1..])
  }

  lemma {:induction false} RestoreAllSnoc(rs: seq<Register>, r: Register)
    ensures RestoreAll(rs + [r]) == RestoreAll(rs) + Restore(r)
  {
    if rs != [] {
      assert (rs + [r])[1..] == rs[1..] + [r];
      RestoreAllSnoc(rs[1..], r);
    } else {
      assert RestoreAll([r][1..]) == [];
    }
  }

  /** The start of a return: R13 := LCL, the frame base. */
  const KeepFrame: seq<Instruction> := [AtRegister(LCL), Assign(ToD, MReg), AtRegister(R(13)), Assign(ToM, DReg)]

  /** R14 := RAM[frame - 5], the return address, read before the result can overwrite it. */
  const KeepReturnAddress: seq<Instruction> :=
    [AtNumber(5), Assign(ToA, DMinusA), Assign(ToD, MReg), AtRegister(R(14)), Assign(ToM, DReg)]

  /** RAM[ARG] := D, the popped result, then SP := ARG + 1. */
  const PlaceResult: seq<Instruction> :=
    [AtRegister(ARG), Assign(ToA, MReg), Assign(ToM, DReg), Assign(ToD, AReg), AtRegister(SP), Assign(ToM, DPlusOne)]

  /** The 19 lines of a return before the restores. */
  const Unwind: seq<Instruction> := KeepFrame + KeepReturnAddress + PopD + PlaceResult

  const JumpBack: seq<Instruction> := [AtRegister(R(14)), Assign(ToA, MReg), Branch(Zero, JMP)]

  /** What `translate_return` returns. */
  function ReturnCode(): seq<Instruction> {
    Unwind + RestoreAll(Restored) + JumpBack
  }

  /** Return restores the saved pointers in the reverse of the order call pushed them. */
  lemma RestoredReversesSaved()
    ensures |Restored| == |Saved|
    ensures forall k | 0 <= k < |Saved| :: Restored[k] == Saved[|Saved| - 1 - k]
  {
  }

  /** The `k`th restore block selects the `k`th pointer to restore. */
  lemma {:induction false} RestoreAllAt(rs: seq<Register>, k: nat)
    requires k < |rs|
    ensures RestoreAll(rs)[5 * k..5 * k + 5] == Restore(rs[k])
  {
    if k > 0 {
      RestoreAllAt(rs[1..], k - 1);
      assert RestoreAll(rs)[5..] == RestoreAll(rs[1..]);
    }
  }

  /**
   * A return unwinds in 19 lines, restores THAT, THIS, ARG, LCL in that order by walking R13
   * down the frame, and jumps to the address saved in R14.
   */
  lemma ReturnShape()
    ensures var code := ReturnCode();
      && |code| == 42
      && code[..19] == Unwind
      && (forall k | 0 <= k < 4 :: code[19 + 5 * k..24 + 5 * k] == Restore(Restored[k]))
      && code[39..] == JumpBack
  {
    var code := ReturnCode();
    var restores := RestoreAll(Restored);
    assert code[19..39] == restores;
    forall k | 0 <= k < 4
      ensures code[19 + 5 * k..24 + 5 * k] == Restore(Restored[k])
    {
      RestoreAllAt(Restored, k);
      assert code[19 + 5 * k..24 + 5 * k] == restores[5 * k..5 * k + 5];
    }
  }

  /** `translate_return`: the unwinding, the four restores in a loop, and the jump back. */
  method TranslateReturn() returns (code: seq<Instruction>)
    ensures code == ReturnCode()
  {
    code := Unwind;
    var i := 0;
    while i < |Restored|
      invariant 0 <= i <= |Restored|
      invariant code == Unwind + RestoreAll(Restored[..i])
    {
      code := code + [AtRegister(R(13)), Assign(ToAM, MMinusOne), Assign(ToD, MReg)];
      code := code + [AtRegister(Restored[i]), Assign(ToM, DReg)];
      RestoreAllSnoc(Restored[..i], Restored[i]);
      assert Restored[..i + 1] == Restored[..i] + [Restored[i]];
      i := i + 1;
    }
    assert Restored[..i] == Restored;
    code := code + JumpBack;
  }

  // ---------------------------------------------------------------- bootstrap and dispatch

  /** SP := 256. */
  const Bootstrap: seq<Instruction> := [AtNumber(256), Assign(ToD, AReg), AtRegister(SP), Assign(ToM, DReg)]

  /** `Command::init`: set SP to 256, then call `Sys.init` with no arguments. */
  method Init() returns (code: seq<Instruction>)
    ensures code == Bootstrap + CallCode("Sys.init", 0, "Sys.init$ret.0")
  {
    code := Bootstrap;
    var callSys := TranslateCall("Sys.init", 0, "Sys.init$ret.0");
    code := code + callSys;
  }

  /** The code of one command other than an arithmetic one. */
  function CommandCode(c: Command, file: string): Result<seq<Instruction>>
    requires !c.Arithmetic?
  {
    match c
    case Push(segment, index) => PushCode(file, segment, index)
    case Pop(segment, index) => PopCode(file, segment, index)
    case Label(name) => Ok(LabelCode(name))
    case Goto(name) => Ok(GotoCode(name))
    case IfGoto(name) => Ok(IfCode(name))
    case Function(name, count) => Ok(FunctionCode(name, count))
    case Call(callee, argCount, returnAddress) => Ok(CallCode(callee, argCount, returnAddress))
    case Return => Ok(ReturnCode())
  }

  /**
   * `translate`: the lines of one command. Only an arithmetic command moves the counter, by
   * exactly one.
   */
  method Translate(c: Command, file: string, index: U64) returns (lines: Result<seq<string>>, next: U64)
    ensures !c.Arithmetic? ==> next == index
    ensures !c.Arithmetic? ==>
      lines == (match CommandCode(c, file) case Ok(code) => Ok(Lines(code)) case Panic(m) => Panic(m) case Err(m) => Err(m))
    ensures c.Arithmetic? && index < U64Max ==>
      next == index + 1 && lines == Ok(Lines(ArithmeticCode(file, c.operation, index + 1)))
    ensures c.Arithmetic? && index == U64Max ==> lines == Panic(AddOverflow) && next == index
  {
    next := index;
    var code: Result<seq<Instruction>>;
    match c {
      case Arithmetic(op) =>
        code, next := TranslateArithmetic(index, file, op);
      case Push(segment, i) =>
        code := TranslatePush(file, segment, i);
      case Call(callee, argCount, returnAddress) =>
        var call := TranslateCall(callee, argCount, returnAddress);
        code := Ok(call);
      case Return =>
        var ret := TranslateReturn();
        code := Ok(ret);
      case _ =>
        code := CommandCode(c, file);
    }
    lines := match code case Ok(v) => Ok(Lines(v)) case Panic(m) => Panic(m) case Err(m) => Err(m);
  }
}
