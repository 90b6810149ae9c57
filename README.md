# VM translator, modelled in Dafny

This project models the core of a translator from the stack-based VM language of
*The Elements of Computing Systems* (chapters 7 and 8) to Hack assembly. It has three parts:

- the lexer (`src/lexer.rs`): skips whitespace and `//` comments and cuts numbers, names and
  single characters off the content;
- the command parser (`src/parser.rs`): dispatches on the first token of a command and reads
  its operands into the `Command` of `src/command.rs`;
- the code generator (`src/translator.rs`): turns one command of its own `Command` type into
  Hack assembly lines, advancing a caller-owned counter for comparison labels.

A panic of the source (`unwrap`, `expect`, `assert!`, `panic!`, a `u16` or `u64` addition that
overflows in a debug build) is the `Panic` case of `Wrappers.Result`. An `Err` of the source
is `Err`.

Modules, one per file:

| file | module | what it holds |
|---|---|---|
| wrappers.dfy | `Wrappers` | `Option`, and `Result` with `Ok`, `Err` and `Panic` |
| chars.dfy | `Chars` | the `char` classes the lexer uses |
| decimal.dfy | `Decimal` | `u16`, decimal text of integers, `str::parse::<u16>` |
| command.dfy | `Commands` | the parser's `Arithmetic`, `MemorySegment` and `Command`, and `MemorySegment::label` |
| lexer.dfy | `Lexing` | the `Lexer` class and the functions that specify it |
| parser.dfy | `Parsing` | the `Parser` class and `ParseCommand`, which specifies `next_command` |
| hack.dfy | `Hack` | the Hack instructions the generator emits, their text, and a machine that runs them |
| translator.dfy | `Translator` | the generator's `Command` and the code of every command |
| stack_semantics.dfy | `StackSemantics` | what push, pop and the nine operations do on the machine |
| flow_semantics.dfy | `FlowSemantics` | what `goto`, `if-goto` and the function prologue do |
| calls.dfy | `CallSemantics` | what a call does to the stack and the pointers |
| returns.dfy | `ReturnSemantics` | what a return does, and that it undoes a call |

The stateful parts of the source keep their form. `Lexer` is a class whose methods reassign
its `content`. `Parser` owns a `Lexer` and advances it token by token. `TranslateArithmetic`
takes and returns the counter. `TranslatePush`, `TranslateCall`, `TranslateReturn` and `Init`
build their code step by step, with loops over the saved pointers. Each method is proved
equal to a function (`Scan`, `ParseCommand`, `PushCode`, `CallCode`, `ReturnCode`), and the
properties are proved about those functions.

The machine in `Hack` runs the emitted code. A label definition `(name)` takes a no-op slot
of the program, and `Labelled` says the symbol table maps each label to the index of its
definition. The semantic lemmas load a command's code anywhere in a program, run it, and state
the resulting state in terms of the state before.

Where the specification of the system and the code disagree, the model follows the code:

- The parser keeps no current-function state. It does not qualify labels, does not make up
  return addresses, and has no "outside function" errors.
- An index or count that does not parse as a `u16` panics (`unwrap`); it is not an error
  result.
- After `if`, the parser skips one token without looking at it. It then asserts that the
  next token is `goto`. A missing token right after `if` panics (`expect`), so it is not an
  error result either.
- The generator computes `index + 5` in `u16` for every segment before it matches on the
  segment. So `push` or `pop` with an index above 65530 panics in a debug build, whatever the
  segment.

## Model

| member | source | states |
|---|---|---|
| Commands.MemorySegment.Label | src/command.rs:27-37 | the four indirect segments get a line `@` plus their pointer's name; exactly the other four get the sentinel `#INVALID_LABEL#` |
| Commands.LabelInjective | src/command.rs:29-35 | distinct indirect segments select distinct base pointers |
| Decimal.NatToString | src/translator.rs:119 | the text of `format!("{index}")` is a non-empty run of digits with no leading zero |
| Decimal.ValueOfNatToString | src/translator.rs:119 | the decimal text of n has value n |
| Decimal.NatToStringInjective | src/translator.rs:90-91 | different numbers have different decimal texts |
| Decimal.ParseU16 | src/parser.rs:53-59 | a run of digits parses exactly when its value is below 65536; text that starts with neither a digit nor `+` does not parse |
| Decimal.ParseU16OfNatToString | src/parser.rs:100-106 | the decimal text of every `u16` parses back to it |
| Decimal.ParseU16Overflows | src/parser.rs:100-106 | the decimal text of a number above 65535 does not parse |
| Lexing.PrefixLength | src/lexer.rs:27-36 | the longest prefix whose characters all satisfy the predicate: all inside do, the next one does not |
| Lexing.PrefixLengthUnique | src/lexer.rs:31-35 | a prefix that satisfies the predicate and cannot be extended is the one `PrefixLength` finds |
| Lexing.Position | src/lexer.rs:12 | `position` returns the first index that satisfies the predicate, or none when no index does |
| Lexing.LeftTrimmed | src/lexer.rs:11-17 | trimming drops a whitespace prefix and leaves content that is empty or starts with a non-whitespace character |
| Lexing.LeftTrimmedIdempotent | src/lexer.rs:11-17 | trimming twice is trimming once |
| Lexing.Lexer.TrimLeft | src/lexer.rs:11-17 | `trim_left` leaves exactly the trimmed content |
| Lexing.Lexer.Chop | src/lexer.rs:20-24 | the token has n characters, and the token followed by the new content is the old content |
| Lexing.Lexer.ChopWhile | src/lexer.rs:27-36 | `chop_while` returns the longest prefix that satisfies the predicate and keeps the rest |
| Lexing.CommentLength | src/lexer.rs:43-44 | a comment runs up to, not including, the next control character, and is at least `//` long |
| Lexing.SkipTrivia | src/lexer.rs:40-49 | the comment loop leaves a suffix of the content that is empty or starts with neither whitespace nor `//` |
| Lexing.SkipTriviaPastComment | src/lexer.rs:43-45 | one turn of the loop past a comment leaves the same final content, from strictly shorter content |
| Lexing.SkipTriviaStops | src/lexer.rs:46-47 | the loop stops at the first trimmed content that does not start a comment |
| Lexing.CutToken | src/lexer.rs:51-62 | no token exactly on empty content; a number is a maximal run of digits; a name is a maximal run of name characters after a letter; any other character is a token of its own; token plus rest is the content |
| Lexing.Scan | src/lexer.rs:39-63 | a token is non-empty, the skipped content is the token followed by the rest, and the rest is strictly shorter than the content |
| Lexing.TriviaIgnoresLeadingWhitespace | src/lexer.rs:42 | leading whitespace does not change whether the content is only whitespace and comments |
| Lexing.ScanFindsNothingOnlyInTrivia | src/lexer.rs:51-53 | `next_token` returns `None` exactly when only whitespace and comments remain |
| Lexing.SkippedIsTrivia | src/lexer.rs:40-49 | what `next_token` skips before a token is whitespace and comments only |
| Lexing.ScanSplits | src/lexer.rs:39-63 | the content is the skipped whitespace and comments, the token and the rest, and the rest is shorter |
| Lexing.ScanIdentifier | src/lexer.rs:57-59 | a name followed by a character that cannot continue it is one token |
| Lexing.ScanNumeral | src/lexer.rs:55-56 | a numeral followed by a character that cannot continue it is one token |
| Lexing.ScanSymbol | src/lexer.rs:60-61 | any other character that does not start a comment, such as `-`, is a token of its own |
| Lexing.ScanAfterWhitespace | src/lexer.rs:42 | a whitespace character in front of the content changes nothing that is scanned |
| Lexing.ScanRestIsSuffix | src/lexer.rs:39-63 | the lexer only moves forward: what is left is a suffix of the content |
| Lexing.Lexer.constructor | src/lexer.rs:6-8 | a new lexer holds the whole content |
| Lexing.Lexer.NextToken | src/lexer.rs:39-63 | `next_token` returns the token `Scan` finds and leaves the rest that `Scan` leaves |
| Lexing.Lexer.IsEmpty | src/lexer.rs:65-67 | an empty lexer has no token left |
| Parsing.ArithmeticKeyword | src/parser.rs:27-35 | a word selects an arithmetic command only when it is that command's keyword |
| Parsing.ArithmeticKeywordOfName | src/parser.rs:27-35 | each of the nine keywords selects its own command |
| Parsing.SegmentKeyword | src/parser.rs:42-52 | a word selects a segment only when it is that segment's exact name |
| Parsing.SegmentKeywordOfName | src/parser.rs:42-50 | each of the eight segment names selects its own segment |
| Parsing.KeywordOf | src/parser.rs:26-115 | a first word selects an arm of the dispatch only when it is that arm's keyword |
| Parsing.KeywordOfName | src/parser.rs:26-113 | each keyword selects its own arm |
| Parsing.ParseNumber | src/parser.rs:53-59 | an index reads one token. It succeeds with that token's `u16` value exactly when the token parses. A missing token is the error `segment index expected`, and a token that does not parse panics |
| Parsing.ParseAccess | src/parser.rs:36-65 | `push` and `pop` never report the end of input, build a `Push` or `Pop`, and read two tokens when they succeed |
| Parsing.ParseJump | src/parser.rs:66-77 | `label` and `goto` succeed exactly when any token follows, build `Label` or `Goto` of exactly that token, and read one token |
| Parsing.ParseIfGoto | src/parser.rs:78-92 | `if` builds an `IfGoto`, and reads three tokens when it succeeds |
| Parsing.ParseDeclaration | src/parser.rs:94-112 | `function` and `call` build `Function` or `Call` with only a name and a count, and read two tokens when they succeed |
| Parsing.OperandsTokens | src/parser.rs:26-115 | no arm reports the end of input; each reads on from the first word, and on success has read exactly its operand tokens |
| Parsing.ParseCommandSelects | src/parser.rs:19-26 | the first token selects the arm that parses the rest |
| Parsing.ParseRender | src/parser.rs:18-117 | reading back the text of any command whose names are name tokens gives that command and leaves the content that followed |
| Parsing.ParseAccessUnknownSegment | src/parser.rs:37-51 | any token after `push` or `pop` that is not one of the eight segment names, a numeral or a symbol included, is the error `invalid memory segment:` with that token |
| Parsing.ParseNumeralSegment | src/parser.rs:37-51 | `push` or `pop` followed by a numeral is the error `invalid memory segment:` with that numeral |
| Parsing.ParseUnknownSegment | src/parser.rs:37-51 | `push` or `pop` followed by a word that names no segment is the error `invalid memory segment:` with that word |
| Parsing.ParseMissingIndex | src/parser.rs:53-55 | `push` or `pop` with a segment but only whitespace and comments after it is the error `segment index expected` |
| Parsing.ParseWordIndex | src/parser.rs:53-59 | `push` or `pop` whose index is a word rather than a number panics in the `unwrap` |
| Parsing.ParseMissingCount | src/parser.rs:100-102 | `function` or `call` with a name but only whitespace and comments after it is the error `segment index expected` |
| Parsing.ParseIfGotoOf | src/parser.rs:78-92 | after `if`, any first token, then `goto`, then a label gives `IfGoto` of that label |
| Parsing.ParseIfGotoSkipsAnyToken | src/parser.rs:79 | the token after `if` is never inspected: any two contents that differ only in that token parse alike |
| Parsing.ParseIfGotoMissingGoto | src/parser.rs:81-82 | nothing after the skipped token is the error `if-goto expected` |
| Parsing.ParseIfGotoNotGoto | src/parser.rs:80-86 | a second token other than `goto` panics on the assertion |
| Parsing.ParseIfGotoMissingLabel | src/parser.rs:87-89 | `goto` with nothing after it is the missing-name error |
| Parsing.ParseIfAnySymbolGoto | src/parser.rs:78-92 | `if`, any symbol that is not `-`, `goto` and a label parses as `if-goto` of that label |
| Parsing.ParseIfDashNotGoto | src/parser.rs:78-86 | `if-` followed by a word other than `goto` panics |
| Parsing.ParseUnknownFirstToken | src/parser.rs:18-114 | any first token that is not a keyword, a numeral or a symbol included, is the error `invalid command` with that token |
| Parsing.ParseNumeralCommand | src/parser.rs:114 | a numeral as the first token is the error `invalid command` with that numeral |
| Parsing.ParseSymbolCommand | src/parser.rs:114 | a symbol as the first token is the error `invalid command` with that symbol |
| Parsing.ParseNumeralLabel | src/parser.rs:66-77 | `label` or `goto` followed by a numeral builds `Label` or `Goto` of that numeral, unchanged |
| Parsing.ParseUnknownCommand | src/parser.rs:114 | a first word that is no keyword is the error `invalid command` with that word |
| Parsing.ParseMissingOperand | src/parser.rs:36-99 | a keyword followed only by whitespace and comments: `push`, `pop`, `label`, `goto`, `function` and `call` give the missing-operand error, and `if` panics |
| Parsing.ParseIndexOverflow | src/parser.rs:53-59 | `push` or `pop` with an index above 65535 panics |
| Parsing.ParseCountOverflow | src/parser.rs:100-106 | `function` or `call` with a count above 65535 panics |
| Parsing.ParseEndOfInput | src/parser.rs:19-22 | `next_command` returns `Ok(None)` exactly when only whitespace and comments remain |
| Parsing.ParseConsumesTokens | src/parser.rs:18-117 | a parsed command spans one token for an operation or `return`, two for `label` and `goto`, three for `push`, `pop`, `function` and `call`, four for `if-goto` |
| Parsing.ParseAdvances | src/parser.rs:18-117 | `next_command` moves forward through the content, strictly unless it reports the end |
| Parsing.Parser.constructor | src/parser.rs:12-16 | a new parser owns a fresh lexer over the whole content |
| Parsing.Parser.NextToken | src/parser.rs:120-122 | the parser's token is the lexer's |
| Parsing.Parser.NextNumber | src/parser.rs:53-59 | reading an index is `ParseNumber` |
| Parsing.Parser.NextCommand | src/parser.rs:18-118 | `next_command` returns what `ParseCommand` says and leaves the lexer where `ParseCommand` says |
| Parsing.Parser.NextAccess | src/parser.rs:36-65 | the `push`/`pop` arm is `ParseAccess` |
| Parsing.Parser.NextJump | src/parser.rs:66-77 | the `label`/`goto` arm is `ParseJump` |
| Parsing.Parser.NextIfGoto | src/parser.rs:78-92 | the `if` arm is `ParseIfGoto` |
| Parsing.Parser.NextDeclaration | src/parser.rs:94-112 | the `function`/`call` arm is `ParseDeclaration` |
| Hack.Lines | src/translator.rs:114 | one text line per instruction, in order |
| Hack.LinesAppend | src/translator.rs:144 | the text of appended code is the appended text |
| Translator.ArithmeticCode | src/translator.rs:90-113 | binary operations emit 5 lines, unary 3, comparisons 12, with the jump to and the definition of the counter's label at lines 7 and 12 |
| Translator.TrueLabelInjective | src/translator.rs:90-91 | different counter values give different labels |
| Translator.ComparisonLabelsDistinct | src/translator.rs:105-112 | two comparisons at different counter values jump to and define different labels |
| Translator.TranslateArithmetic | src/translator.rs:87-115 | every operation moves the counter up by exactly one and uses the new value; the increment panics at the top of `u64` |
| Translator.BaseIsLabel | src/translator.rs:122 | the line that selects an indirect segment's base pointer is the segment's `label` |
| Translator.PushShape | src/translator.rs:117-146 | every push ends with the push of D, after 5 lines for an indirect segment and 2 otherwise |
| Translator.TranslatePush | src/translator.rs:117-146 | the stepwise push is `PushCode` |
| Translator.PopShape | src/translator.rs:148-179 | every pop ends by storing D; a direct pop starts by popping into D; an indirect one keeps the address in R13 first |
| Translator.PointerRouting | src/translator.rs:129-138 | `pointer` in push and pop succeeds exactly for index 0 (THIS) and 1 (THAT) |
| Translator.TempRouting | src/translator.rs:139-142 | `temp i` in push and pop succeeds exactly for i below 8 and addresses `R(i+5)` |
| Translator.PopConstantFails | src/translator.rs:176 | `pop constant` panics |
| Translator.IndexOverflow | src/translator.rs:121 | an index above 65530 panics in push and pop for every segment, and push of another segment succeeds below it |
| Translator.FunctionCode | src/translator.rs:197-215 | a function emits 15 lines, starting with its label and ending with the loop's end label |
| Translator.SaveAllAt | src/translator.rs:227-232 | the k-th saved block saves the k-th pointer |
| Translator.CallShape | src/translator.rs:216-239 | a call emits 50 lines: the return-address push, LCL, ARG, THIS and THAT pushed in that order, the frame set-up, the jump and the return label |
| Translator.TranslateCall | src/translator.rs:216-239 | the stepwise call with its loop over the saved pointers is `CallCode` |
| Translator.RestoredReversesSaved | src/translator.rs:245-247 | a return restores the pointers in the reverse of the order a call saves them |
| Translator.RestoreAllAt | src/translator.rs:245-247 | the k-th restore block restores the k-th pointer |
| Translator.ReturnShape | src/translator.rs:240-251 | a return emits 42 lines: 19 that unwind, the restores of THAT, THIS, ARG and LCL through R13, and the jump through R14 |
| Translator.TranslateReturn | src/translator.rs:240-251 | the stepwise return with its loop over the restored pointers is `ReturnCode` |
| Translator.Init | src/translator.rs:58-66 | the bootstrap sets SP to 256 and is followed by exactly the call of `Sys.init` with no arguments |
| Translator.Translate | src/translator.rs:68-85 | only an arithmetic command moves the counter, by exactly one; at the top of `u64` the increment panics and the counter stays; every other command gives its own code's lines |
| StackSemantics.RunPush | src/translator.rs:117-146 | a push stores the segment's value at SP, moves SP up one, and changes nothing else |
| StackSemantics.RunPop | src/translator.rs:148-179 | a pop moves SP down one and stores the old top in the segment's cell; an indirect pop also leaves the address in R13 |
| StackSemantics.PushConstantThenPop | src/translator.rs:117-179 | `push constant k` then `pop segment i` leaves k in the segment's cell, and the stack at its old depth unless that cell is SP |
| StackSemantics.RunUnary | src/translator.rs:108 | `neg` and `not` replace the top of the stack with the result |
| StackSemantics.RunBinary | src/translator.rs:106-107 | `add`, `sub`, `and` and `or` pop the top and replace the cell under it with the 16-bit result |
| StackSemantics.RunComparison | src/translator.rs:109-112 | a comparison pops the top and replaces the cell under it with -1 when it holds and 0 otherwise, and ends past its label either way |
| StackSemantics.HoldsEqual | src/translator.rs:97-110 | `eq` holds exactly when the two words are equal |
| StackSemantics.HoldsGreater | src/translator.rs:98-110 | `gt` is the signed order of the two words whenever their difference fits in 16 bits |
| StackSemantics.HoldsLess | src/translator.rs:99-110 | `lt` is the signed order of the two words whenever their difference fits in 16 bits |
| StackSemantics.GreaterOverflows | src/translator.rs:98-110 | when the difference overflows, the order comes out wrong: 32767 is not `gt` -32768, and -32768 is not `lt` 32767 |
| StackSemantics.ComparisonMeaning | src/translator.rs:109-112 | a comparison leaves -1 or 0 for `x == y`, and for `gt` and `lt` the signed order of `x` and `y` when their difference fits in 16 bits |
| StackSemantics.RunArithmetic | src/translator.rs:87-115 | every operation ends at the line after its code with the stack as `ArithmeticResult` says |
| FlowSemantics.RunGoto | src/translator.rs:185-187 | `goto` lands on the label's definition and changes no data |
| FlowSemantics.RunIfGoto | src/translator.rs:189-195 | `if-goto` pops the top and jumps to the label exactly when the top is not zero |
| FlowSemantics.RunZeroLoop | src/translator.rs:202-213 | the prologue loop with D = n pushes exactly n zeros and leaves D at 0 |
| FlowSemantics.RunFunction | src/translator.rs:197-215 | a function's prologue pushes exactly its local count of zeros and ends past its code |
| CallSemantics.RunCall | src/translator.rs:216-239 | a call builds the caller's frame and lands on the callee's label |
| CallSemantics.SavedFrameLayout | src/translator.rs:222-233 | the five cells from the old SP hold the return address, LCL, ARG, THIS and THAT, and nothing else moves but SP |
| CallSemantics.CallFrameLayout | src/translator.rs:222-235 | after a call, SP = LCL = old SP + 5 and ARG = old SP - arg count, THIS and THAT are kept, the five saved cells are in place, and every other cell is unchanged |
| ReturnSemantics.RunReturn | src/translator.rs:240-251 | a return runs its 42 lines and ends in the state `Returned` describes |
| ReturnSemantics.ReturnLayout | src/translator.rs:240-251 | a return jumps to the saved address, puts the result at ARG, sets SP to ARG + 1, restores the four pointers from the frame, and changes no cell above R14 other than the one at ARG |
| ReturnSemantics.CallThenReturn | src/translator.rs:216-251 | a return from a callee that kept its frame goes back to the call's return address, with the result where the arguments began, SP one above it, and the caller's four pointers restored |
| ReturnSemantics.RunCallAndReturn | src/translator.rs:216-251 | a call, any callee run that keeps the frame and ends at a return, and that return together come back to the line after the call |

## Left out

- `src/main.rs` is not part of this model. It does the file I/O, reads a directory, checks for
  `Sys.vm`, writes the Debug-formatted comment lines, and resets the counter for each file.
  The two `Command` types are not reconciled, because `main.rs` does not connect them.
- Chars: `is_numeric`, `is_alphabetic` and `is_alphanumeric` cover ASCII only. `is_whitespace`
  and `is_control` follow the Unicode tables exactly.
- Parsing: the panic texts of the `unwrap` on a number and of the `assert_eq!` on `goto` are
  placeholders. The model keeps only the fact that these inputs panic, not Rust's message text.
- Translator.TranslateArithmetic: the counter is a `u64`, and its overflow is modelled as a
  panic. The text of `format!` is not modelled beyond `NatToString`.
- Hack: only the instructions the generator emits are modelled, not a full CPU or assembler.
  A label definition takes a no-op slot of the program instead of being removed by an
  assembler, so addresses are indexes into the emitted code.
- Hack.Address: an `@k` line loads any `k` up to 65535. A real Hack A-instruction holds only a
  15-bit constant, so for `k` of 32768 or more the emitted line cannot be assembled. The
  generator emits such lines for `push constant k`, for the `@index` line of an indirect push
  or pop, for `@count` in a function prologue and for `@argCount` in a call. For those values
  StackSemantics.RunPush, StackSemantics.RunPop, StackSemantics.PushConstantThenPop,
  FlowSemantics.RunFunction and CallSemantics.RunCall hold only on the model's 16-bit machine.
- StackSemantics.RunComparison: a comparison holds by the sign of the 16-bit difference, as
  the emitted `D=M-D` computes it. StackSemantics.ComparisonMeaning states `eq` as equality for
  all words, but states `gt` and `lt` as the signed order only when the difference fits in 16
  bits. When it overflows, the result differs from the order; StackSemantics.GreaterOverflows
  shows this for 32767 and -32768.
- StackSemantics, FlowSemantics, CallSemantics and ReturnSemantics: these lemmas require SP
  above R15 and no wrap-around of SP across the code they run. The source assumes a
  well-formed VM program and makes no promise outside that.
- ReturnSemantics.CallThenReturn: requires the callee to leave the saved frame, LCL and ARG
  as the call set them. The generated code relies on this, but nothing in it enforces it.
- Parsing.ParseRender: the round trip is stated for names that the lexer reads as one token.
  Other names cannot be read back as one token by this lexer.
- Translator.PushCode, PopCode, CallCode and ReturnCode state the code as instructions. The
  text lines are `Lines` of them, and `Translate` states that step.
