/**
 * The parser (src/parser.rs): reads one VM command at a time from the lexer's tokens.
 * `ParseCommand` says what `next_command` returns and which content the lexer is left
 * with; `Parser.NextCommand` is the stepwise version that pulls tokens from a `Lexer`.
 */
module Parsing {
  import opened Wrappers
  import opened Chars
  import opened Decimal
  import opened Commands
  import opened Lexing

  /** The outcome of `next_command` and the content the lexer has left afterwards. */
  datatype Parsed = Parsed(result: Result<Option<Command>>, rest: seq<char>)

  const SegmentExpected: string := "Syntax error: memory segment expected"
  const IndexExpected: string := "Syntax error: segment index expected"
  const IfGotoExpected: string := "if-goto expected"
  /** The panic of the `unwrap` on a count that does not parse as a `u16`. */
  const BadNumber: string := "count is not a u16"
  /** The panic of the `expect` on the token after `if`. */
  const NearIf: string := "syntax error near if"
  /** The panic of the `assert_eq` on the token that should be `goto`. */
  const NotGoto: string := "token after if- is not goto"

  /** The arithmetic command a keyword names, if it names one. */
  function ArithmeticKeyword(w: string): (r: Option<Arithmetic>)
    ensures r.Some? ==> ArithmeticName(r.value) == w
  {
    if w == "add" then Some(ADD)
    else if w == "sub" then Some(SUB)
    else if w == "neg" then Some(NEG)
    else if w == "eq" then Some(EQ)
    else if w == "gt" then Some(GT)
    else if w == "lt" then Some(LT)
    else if w == "and" then Some(AND)
    else if w == "or" then Some(OR)
    else if w == "not" then Some(NOT)
    else None
  }

  /** The keyword of each arithmetic command. */
  function ArithmeticName(op: Arithmetic): string {
    match op
    case ADD => "add"
    case SUB => "sub"
    case NEG => "neg"
    case EQ => "eq"
    case GT => "gt"
    case LT => "lt"
    case AND => "and"
    case OR => "or"
    case NOT => "not"
  }

  /** The memory segment a keyword names, if it names one. */
  function SegmentKeyword(w: string): (r: Option<MemorySegment>)
    ensures r.Some? ==> SegmentName(r.value) == w
  {
    if w == "local" then Some(Local)
    else if w == "argument" then Some(Argument)
    else if w == "this" then Some(This)
    else if w == "that" then Some(That)
    else if w == "constant" then Some(Constant)
    else if w == "static" then Some(Static)
    else if w == "pointer" then Some(Pointer)
    else if w == "temp" then Some(Temp)
    else None
  }

  /** The keyword of each memory segment. */
  function SegmentName(s: MemorySegment): string {
    match s
    case Local => "local"
    case Argument => "argument"
    case This => "this"
    case That => "that"
    case Constant => "constant"
    case Static => "static"
    case Pointer => "pointer"
    case Temp => "temp"
  }

  lemma ArithmeticKeywordOfName(op: Arithmetic)
    ensures ArithmeticKeyword(ArithmeticName(op)) == Some(op)
  {
  }

  lemma SegmentKeywordOfName(s: MemorySegment)
    ensures SegmentKeyword(SegmentName(s)) == Some(s)
  {
  }

  /** The arms of the `match` on the first word of a command. */
  datatype Keyword =
    | Operation(op: Arithmetic)
    | Access(push: bool)
    | Jump(isLabel: bool)
    | If
    | Declaration(isFunction: bool)
    | ReturnWord

  /** The arm a first word selects; `None` is the catch-all arm. */
  function KeywordOf(w: string): (r: Option<Keyword>)
    ensures r.Some? ==> KeywordName(r.value) == w
  {
    match ArithmeticKeyword(w)
    case Some(op) => Some(Operation(op))
    case None =>
      if w == "push" then Some(Access(true))
      else if w == "pop" then Some(Access(false))
      else if w == "label" then Some(Jump(true))
      else if w == "goto" then Some(Jump(false))
      else if w == "if" then Some(If)
      else if w == "function" then Some(Declaration(true))
      else if w == "call" then Some(Declaration(false))
      else if w == "return" then Some(ReturnWord)
      else None
  }

  function KeywordName(k: Keyword): string {
    match k
    case Operation(op) => ArithmeticName(op)
    case Access(push) => if push then "push" else "pop"
    case Jump(isLabel) => if isLabel then "label" else "goto"
    case If => "if"
    case Declaration(isFunction) => if isFunction then "function" else "call"
    case ReturnWord => "return"
  }

  lemma KeywordOfName(k: Keyword)
    ensures KeywordOf(KeywordName(k)) == Some(k)
  {
    if k.Operation? {
      ArithmeticKeywordOfName(k.op);
    }
  }

  /** The number after `push`, `pop`, `function` or `call`: missing is an error, malformed a panic. */
  function ParseNumber(s: seq<char>): (p: (Result<U16>, seq<char>))
    ensures p.1 == Scan(s).rest
    ensures p.0.Ok? <==> Scan(s).token.Some? && ParseU16(Scan(s).token.value).Some?
    ensures p.0.Ok? ==> ParseU16(Scan(s).token.value) == Some(p.0.value)
    ensures Scan(s).token.None? ==> p.0 == Err(IndexExpected)
    ensures Scan(s).token.Some? && ParseU16(Scan(s).token.value).None? ==> p.0 == Panic(BadNumber)
  {
    var t := Scan(s);
    if t.token.None? then (Err(IndexExpected), t.rest)
    else match ParseU16(t.token.value)
      case Some(n) => (Ok(n), t.rest)
      case None => (Panic(BadNumber), t.rest)
  }

  /** `push` or `pop` with the content after the keyword. */
  function ParseAccess(push: bool, s: seq<char>): (p: Parsed)
    ensures p.result != Ok(None)
    ensures p.result.Ok? ==> p.result.value.Some? && (if push then p.result.value.value.Push? else p.result.value.value.Pop?)
    ensures p.rest == Scan(s).rest || p.rest == Scan(Scan(s).rest).rest
    ensures p.result.Ok? ==> p.rest == Scan(Scan(s).rest).rest
  {
    var t := Scan(s);
    if t.token.None? then Parsed(Err(SegmentExpected), t.rest)
    else match SegmentKeyword(t.token.value)
      case None => Parsed(Err("invalid memory segment: " + t.token.value), t.rest)
      case Some(segment) =>
        var (index, rest) := ParseNumber(t.rest);
        if index.Fails() then Parsed(index.Propagate(), rest)
        else if push then Parsed(Ok(Some(Push(segment, index.value))), rest)
        else Parsed(Ok(Some(Pop(segment, index.value))), rest)
  }

  /** `label` or `goto` with the content after the keyword. */
  function ParseJump(isLabel: bool, s: seq<char>): (p: Parsed)
    ensures p.result != Ok(None)
    ensures p.result.Ok? <==> Scan(s).token.Some?
    ensures p.result.Ok? ==> p.result == Ok(Some(if isLabel then Label(Scan(s).token.value) else Goto(Scan(s).token.value)))
    ensures p.rest == Scan(s).rest
  {
    var t := Scan(s);
    if t.token.None? then Parsed(Err(SegmentExpected), t.rest)
    else if isLabel then Parsed(Ok(Some(Label(t.token.value))), t.rest)
    else Parsed(Ok(Some(Goto(t.token.value))), t.rest)
  }

  /**
   * `if` with the content after it: one token of any kind (the `-` of `if-goto`), then
   * `goto`, then the label.
   */
  function ParseIfGoto(s: seq<char>): (p: Parsed)
    ensures p.result != Ok(None)
    ensures p.result.Ok? ==> p.result.value.Some? && p.result.value.value.IfGoto?
    ensures p.rest == Scan(s).rest || p.rest == Scan(Scan(s).rest).rest
      || p.rest == Scan(Scan(Scan(s).rest).rest).rest
    ensures p.result.Ok? ==> p.rest == Scan(Scan(Scan(s).rest).rest).rest
  {
    var dash := Scan(s);
    if dash.token.None? then Parsed(Panic(NearIf), dash.rest)
    else ParseGotoLabel(dash.rest)
  }

  /** What follows the skipped token of `if`: the word `goto`, then the label. */
  function ParseGotoLabel(s: seq<char>): (p: Parsed)
    ensures p.result != Ok(None)
    ensures p.result.Ok? ==> p.result.value.Some? && p.result.value.value.IfGoto?
    ensures p.rest == Scan(s).rest || p.rest == Scan(Scan(s).rest).rest
    ensures p.result.Ok? ==> p.rest == Scan(Scan(s).rest).rest
  {
    var keyword := Scan(s);
    if keyword.token.None? then Parsed(Err(IfGotoExpected), keyword.rest)
    else if keyword.token.value != "goto" then Parsed(Panic(NotGoto), keyword.rest)
    else
      var t := Scan(keyword.rest);
      if t.token.None? then Parsed(Err(SegmentExpected), t.rest)
      else Parsed(Ok(Some(IfGoto(t.token.value))), t.rest)
  }

  /** `function` or `call` with the content after the keyword. */
  function ParseDeclaration(isFunction: bool, s: seq<char>): (p: Parsed)
    ensures p.result != Ok(None)
    ensures p.result.Ok? ==> p.result.value.Some? && (if isFunction then p.result.value.value.Function? else p.result.value.value.Call?)
    ensures p.rest == Scan(s).rest || p.rest == Scan(Scan(s).rest).rest
    ensures p.result.Ok? ==> p.rest == Scan(Scan(s).rest).rest
  {
    var t := Scan(s);
    if t.token.None? then Parsed(Err(SegmentExpected), t.rest)
    else
      var (count, rest) := ParseNumber(t.rest);
      if count.Fails() then Parsed(count.Propagate(), rest)
      else if isFunction then Parsed(Ok(Some(Function(t.token.value, count.value))), rest)
      else Parsed(Ok(Some(Call(t.token.value, count.value))), rest)
  }

  /** What `next_command` returns for the content `s`, and the content it leaves. */
  function ParseCommand(s: seq<char>): Parsed {
    var first := Scan(s);
    if first.token.None? then Parsed(Ok(None), first.rest)
    else match KeywordOf(first.token.value)
      case None => Parsed(Err("invalid command " + first.token.value), first.rest)
      case Some(k) => ParseOperands(k, first.rest)
  }

  /** The rest of a command whose first word selected the arm `k`. */
  function ParseOperands(k: Keyword, s: seq<char>): Parsed {
    match k
    case Operation(op) => Parsed(Ok(Some(Arithmetic(op))), s)
    case Access(push) => ParseAccess(push, s)
    case Jump(isLabel) => ParseJump(isLabel, s)
    case If => ParseIfGoto(s)
    case Declaration(isFunction) => ParseDeclaration(isFunction, s)
    case ReturnWord => Parsed(Ok(Some(Return)), s)
  }

  /** How many tokens the arm `k` reads after the first word: `if` reads `-`, `goto` and the label. */
  function OperandCount(k: Keyword): nat {
    match k
    case Operation(_) => 0
    case ReturnWord => 0
    case Jump(_) => 1
    case If => 3
    case _ => 2
  }

  /**
   * The arm `k` reads on from where the first word ended, never reports the end of the
   * content, and on success has read exactly its operand tokens.
   */
  lemma OperandsTokens(k: Keyword, s: seq<char>)
    ensures ParseOperands(k, s).result != Ok(None)
    ensures IsSuffix(ParseOperands(k, s).rest, s)
    ensures ParseOperands(k, s).result.Ok? ==> ParseOperands(k, s).rest == SkipTokens(s, OperandCount(k))
  {
    match k {
      case Operation(op) =>
        assert IsSuffix(s, s) && SkipTokens(s, 0) == s;
      case Access(push) =>
        assert ParseOperands(k, s) == ParseAccess(push, s);
        AccessTokens(push, s);
      case Jump(isLabel) =>
        assert ParseOperands(k, s) == ParseJump(isLabel, s);
        JumpTokens(isLabel, s);
      case If =>
        assert ParseOperands(k, s) == ParseIfGoto(s);
        IfGotoTokens(s);
      case Declaration(isFunction) =>
        assert ParseOperands(k, s) == ParseDeclaration(isFunction, s);
        DeclarationTokens(isFunction, s);
      case ReturnWord =>
        assert IsSuffix(s, s) && SkipTokens(s, 0) == s;
    }
  }

  /** A command the arm `k` reads back is one that `k` begins. */
  lemma OperandsKeyword(k: Keyword, s: seq<char>)
    ensures var p := ParseOperands(k, s);
      p.result.Ok? ==> p.result.value.Some? && KeywordOfCommand(p.result.value.value) == k
  {
    match k {
      case Operation(op) =>
        assert ParseOperands(k, s) == Parsed(Ok(Some(Arithmetic(op))), s);
      case Access(push) =>
        var p := ParseAccess(push, s);
        assert ParseOperands(k, s) == p;
        if p.result.Ok? {
          KeywordOfShape(p.result.value.value);
        }
      case Jump(isLabel) =>
        var p := ParseJump(isLabel, s);
        assert ParseOperands(k, s) == p;
        if p.result.Ok? {
          KeywordOfShape(p.result.value.value);
        }
      case If =>
        var p := ParseIfGoto(s);
        assert ParseOperands(k, s) == p;
        if p.result.Ok? {
          KeywordOfShape(p.result.value.value);
        }
      case Declaration(isFunction) =>
        var p := ParseDeclaration(isFunction, s);
        assert ParseOperands(k, s) == p;
        if p.result.Ok? {
          KeywordOfShape(p.result.value.value);
        }
      case ReturnWord =>
        assert ParseOperands(k, s) == Parsed(Ok(Some(Return)), s);
    }
  }

  /** The first word of each kind of command. */
  lemma KeywordOfShape(c: Command)
    ensures c.Push? || c.Pop? ==> KeywordOfCommand(c) == Access(c.Push?)
    ensures c.Label? || c.Goto? ==> KeywordOfCommand(c) == Jump(c.Label?)
    ensures c.IfGoto? ==> KeywordOfCommand(c) == If
    ensures c.Function? || c.Call? ==> KeywordOfCommand(c) == Declaration(c.Function?)
  {
  }

  /** The content left after one, two and three tokens, each a suffix of the content. */
  lemma ScanChain(s: seq<char>)
    ensures SkipTokens(s, 1) == Scan(s).rest && IsSuffix(Scan(s).rest, s)
    ensures SkipTokens(s, 2) == Scan(Scan(s).rest).rest && IsSuffix(Scan(Scan(s).rest).rest, s)
    ensures SkipTokens(s, 3) == Scan(Scan(Scan(s).rest).rest).rest
      && IsSuffix(Scan(Scan(Scan(s).rest).rest).rest, s)
  {
    var s1 := Scan(s).rest;
    var s2 := Scan(s1).rest;
    var s3 := Scan(s2).rest;
    assert SkipTokens(s1, 0) == s1;
    assert SkipTokens(s2, 0) == s2;
    assert SkipTokens(s3, 0) == s3;
    ScanRestIsSuffix(s);
    ScanRestIsSuffix(s1);
    ScanRestIsSuffix(s2);
    SuffixTransitive(s2, s1, s);
    SuffixTransitive(s3, s2, s);
  }

  /** `push` and `pop` read a segment and an index. */
  lemma AccessTokens(push: bool, s: seq<char>)
    ensures var p := ParseAccess(push, s);
      IsSuffix(p.rest, s) && (p.result.Ok? ==> p.rest == SkipTokens(s, 2))
  {
    ScanChain(s);
  }

  /** `label` and `goto` read a name. */
  lemma JumpTokens(isLabel: bool, s: seq<char>)
    ensures var p := ParseJump(isLabel, s);
      IsSuffix(p.rest, s) && (p.result.Ok? ==> p.rest == SkipTokens(s, 1))
  {
    ScanChain(s);
  }

  /** `if` reads the dash, `goto` and a label. */
  lemma IfGotoTokens(s: seq<char>)
    ensures var p := ParseIfGoto(s);
      IsSuffix(p.rest, s) && (p.result.Ok? ==> p.rest == SkipTokens(s, 3))
  {
    ScanChain(s);
  }

  /** `function` and `call` read a name and a count. */
  lemma DeclarationTokens(isFunction: bool, s: seq<char>)
    ensures var p := ParseDeclaration(isFunction, s);
      IsSuffix(p.rest, s) && (p.result.Ok? ==> p.rest == SkipTokens(s, 2))
  {
    ScanChain(s);
  }

  /** `next_command` runs the arm its first word selects on what follows that word. */
  lemma ParseCommandSelects(s: seq<char>, k: Keyword)
    requires Scan(s).token.Some? && KeywordOf(Scan(s).token.value) == Some(k)
    ensures ParseCommand(s) == ParseOperands(k, Scan(s).rest)
  {
  }

  /** The arm that reads a command back. */
  function KeywordOfCommand(c: Command): Keyword {
    match c
    case Arithmetic(op) => Operation(op)
    case Push(_, _) => Access(true)
    case Pop(_, _) => Access(false)
    case Label(_) => Jump(true)
    case Goto(_) => Jump(false)
    case IfGoto(_) => If
    case Function(_, _) => Declaration(true)
    case Call(_, _) => Declaration(false)
    case Return => ReturnWord
  }

  /** The command's operands as VM source text, each after a separator. */
  function RenderOperands(c: Command): string {
    match c
    case Push(segment, index) => " " + SegmentName(segment) + " " + NatToString(index)
    case Pop(segment, index) => " " + SegmentName(segment) + " " + NatToString(index)
    case Label(name) => " " + name
    case Goto(name) => " " + name
    case IfGoto(name) => "-goto " + name
    case Function(name, count) => " " + name + " " + NatToString(count)
    case Call(name, count) => " " + name + " " + NatToString(count)
    case _ => ""
  }

  /** The command as VM source text, one space between its words. */
  function Render(c: Command): string {
    KeywordName(KeywordOfCommand(c)) + RenderOperands(c)
  }

  /** The commands whose names the lexer reads back as one token each. */
  predicate HasIdentifiers(c: Command) {
    match c
    case Label(name) => IsIdentifier(name)
    case Goto(name) => IsIdentifier(name)
    case IfGoto(name) => IsIdentifier(name)
    case Function(name, _) => IsIdentifier(name)
    case Call(name, _) => IsIdentifier(name)
    case _ => true
  }

  lemma KeywordIsIdentifier(k: Keyword)
    ensures IsIdentifier(KeywordName(k))
  {
  }

  lemma SegmentNameIsIdentifier(segment: MemorySegment)
    ensures IsIdentifier(SegmentName(segment))
  {
  }

  lemma ScanSpacedIdentifier(w: string, rest: seq<char>)
    requires IsIdentifier(w) && Separated(rest)
    ensures Scan(" " + (w + rest)) == Scanned(Some(w), rest)
  {
    ScanAfterWhitespace(' ', w + rest);
    ScanIdentifier(w, rest);
  }

  lemma ParseSpacedNumber(n: U16, rest: seq<char>)
    requires Separated(rest)
    ensures ParseNumber(" " + (NatToString(n) + rest)) == (Ok(n), rest)
  {
    ScanAfterWhitespace(' ', NatToString(n) + rest);
    ScanNumeral(NatToString(n), rest);
    ParseU16OfNatToString(n);
  }

  /**
   * Reading back a rendered command gives the command, and leaves the content that followed
   * it, as long as that content cannot continue the last word.
   */
  lemma ParseRender(c: Command, rest: seq<char>)
    requires HasIdentifiers(c) && Separated(rest)
    ensures ParseCommand(Render(c) + rest) == Parsed(Ok(Some(c)), rest)
  {
    var k := KeywordOfCommand(c);
    var x := RenderOperands(c) + rest;
    RenderSplits(c, rest);
    ParseKeywordThen(k, x);
    ParseRenderOperands(c, rest);
  }

  /** The text of a command is its keyword, then operands that cannot continue the keyword. */
  lemma RenderSplits(c: Command, rest: seq<char>)
    requires HasIdentifiers(c) && Separated(rest)
    ensures Render(c) + rest == KeywordName(KeywordOfCommand(c)) + (RenderOperands(c) + rest)
    ensures Separated(RenderOperands(c) + rest)
  {
    var x := RenderOperands(c) + rest;
    assert Render(c) + rest == KeywordName(KeywordOfCommand(c)) + x;
    if RenderOperands(c) != [] {
      assert x[0] == RenderOperands(c)[0];
    }
  }

  lemma ParseRenderOperands(c: Command, rest: seq<char>)
    requires HasIdentifiers(c) && Separated(rest)
    ensures ParseOperands(KeywordOfCommand(c), RenderOperands(c) + rest) == Parsed(Ok(Some(c)), rest)
  {
    var x := RenderOperands(c) + rest;
    ParseOperandsArms(KeywordOfCommand(c), x);
    if c.Push? || c.Pop? {
      ParseRenderAccess(c, rest);
    } else if c.Label? || c.Goto? {
      ParseRenderJump(c, rest);
    } else if c.IfGoto? {
      ParseRenderIfGoto(c.name, rest);
    } else if c.Function? || c.Call? {
      ParseRenderDeclaration(c, rest);
    } else {
      assert x == rest;
    }
  }

  /** The arms of `ParseOperands`, one by one. */
  lemma ParseOperandsArms(k: Keyword, x: seq<char>)
    ensures k.Operation? ==> ParseOperands(k, x) == Parsed(Ok(Some(Arithmetic(k.op))), x)
    ensures k.Access? ==> ParseOperands(k, x) == ParseAccess(k.push, x)
    ensures k.Jump? ==> ParseOperands(k, x) == ParseJump(k.isLabel, x)
    ensures k.If? ==> ParseOperands(k, x) == ParseIfGoto(x)
    ensures k.Declaration? ==> ParseOperands(k, x) == ParseDeclaration(k.isFunction, x)
    ensures k.ReturnWord? ==> ParseOperands(k, x) == Parsed(Ok(Some(Return)), x)
  {
  }

  lemma ParseRenderAccess(c: Command, rest: seq<char>)
    requires (c.Push? || c.Pop?) && Separated(rest)
    ensures ParseAccess(c.Push?, RenderOperands(c) + rest) == Parsed(Ok(Some(c)), rest)
  {
    var tail := NatToString(c.index) + rest;
    var s := RenderOperands(c) + rest;
    RenderedWords(c, SegmentName(c.segment), c.index, rest);
    SegmentNameIsIdentifier(c.segment);
    ScanSpacedIdentifier(SegmentName(c.segment), " " + tail);
    SegmentKeywordOfName(c.segment);
    ParseSpacedNumber(c.index, rest);
    ParseAccessOf(c.Push?, s, SegmentName(c.segment), " " + tail, c.segment, c.index, rest);
  }

  /** The operands of `push`, `pop`, `function` and `call`: a space, a word, a space, a number. */
  lemma RenderedWords(c: Command, w: string, n: U16, rest: seq<char>)
    requires (c.Push? || c.Pop?) ==> w == SegmentName(c.segment) && n == c.index
    requires (c.Function? || c.Call?) ==> w == c.name && n == c.count
    requires c.Push? || c.Pop? || c.Function? || c.Call?
    ensures RenderOperands(c) + rest == " " + (w + (" " + (NatToString(n) + rest)))
  {
  }

  /** `ParseAccess` on content that scans to a segment name and then an index. */
  lemma ParseAccessOf(push: bool, s: seq<char>, w: string, x: seq<char>, segment: MemorySegment, n: U16, rest: seq<char>)
    requires Scan(s) == Scanned(Some(w), x) && SegmentKeyword(w) == Some(segment)
    requires ParseNumber(x) == (Ok(n), rest)
    ensures ParseAccess(push, s) == Parsed(Ok(Some(if push then Push(segment, n) else Pop(segment, n))), rest)
  {
  }

  lemma ParseRenderJump(c: Command, rest: seq<char>)
    requires (c.Label? || c.Goto?) && IsIdentifier(c.name) && Separated(rest)
    ensures ParseJump(c.Label?, RenderOperands(c) + rest) == Parsed(Ok(Some(c)), rest)
  {
    assert RenderOperands(c) + rest == " " + (c.name + rest);
    ScanSpacedIdentifier(c.name, rest);
  }

  lemma ParseRenderIfGoto(name: string, rest: seq<char>)
    requires IsIdentifier(name) && Separated(rest)
    ensures ParseIfGoto(RenderOperands(IfGoto(name)) + rest) == Parsed(Ok(Some(IfGoto(name))), rest)
  {
    var tail := " " + (name + rest);
    var s := RenderOperands(IfGoto(name)) + rest;
    assert s == "-" + ("goto" + tail);
    ScanDash("goto" + tail);
    ScanGoto(tail);
    ScanSpacedIdentifier(name, rest);
    ParseIfGotoOf(s, "-", "goto" + tail, tail, name, rest);
  }

  /** The dash of `if-goto` is a token of its own. */
  lemma ScanDash(x: seq<char>)
    requires x != [] && x[0] == 'g'
    ensures Scan("-" + x) == Scanned(Some("-"), x)
  {
    ScanSymbol('-', x);
  }

  /** So is the word `goto` after it. */
  lemma ScanGoto(tail: seq<char>)
    requires Separated(tail)
    ensures Scan("goto" + tail) == Scanned(Some("goto"), tail)
  {
    ScanIdentifier("goto", tail);
  }

  /** `ParseIfGoto` on content that scans to any token `t`, then `goto`, then a label. */
  lemma ParseIfGotoOf(s: seq<char>, t: string, x: seq<char>, y: seq<char>, name: string, rest: seq<char>)
    requires Scan(s) == Scanned(Some(t), x) && Scan(x) == Scanned(Some("goto"), y)
    requires Scan(y) == Scanned(Some(name), rest)
    ensures ParseIfGoto(s) == Parsed(Ok(Some(IfGoto(name))), rest)
  {
  }

  /** The token after `if` is read but never looked at: any two such tokens parse alike. */
  lemma ParseIfGotoSkipsAnyToken(s1: seq<char>, s2: seq<char>)
    requires Scan(s1).token.Some? && Scan(s2).token.Some? && Scan(s1).rest == Scan(s2).rest
    ensures ParseIfGoto(s1) == ParseIfGoto(s2)
  {
  }

  /** Nothing after the skipped token is an error: `if-goto expected`. */
  lemma ParseIfGotoMissingGoto(s: seq<char>, t: string, x: seq<char>)
    requires Scan(s) == Scanned(Some(t), x) && Scan(x).token.None?
    ensures ParseIfGoto(s) == Parsed(Err(IfGotoExpected), [])
  {
  }

  /** A second token other than `goto` fails the assertion, a panic. */
  lemma ParseIfGotoNotGoto(s: seq<char>, t: string, x: seq<char>, w: string, y: seq<char>)
    requires Scan(s) == Scanned(Some(t), x) && Scan(x) == Scanned(Some(w), y) && w != "goto"
    ensures ParseIfGoto(s) == Parsed(Panic(NotGoto), y)
  {
  }

  /** `goto` with nothing after it reports the missing label. */
  lemma ParseIfGotoMissingLabel(s: seq<char>, t: string, x: seq<char>, y: seq<char>)
    requires Scan(s) == Scanned(Some(t), x) && Scan(x) == Scanned(Some("goto"), y) && Scan(y).token.None?
    ensures ParseIfGoto(s) == Parsed(Err(SegmentExpected), [])
  {
  }

  /** `if`, a symbol other than `-`, and `goto label`: the symbol is skipped all the same. */
  lemma ParseIfAnySymbolGoto(c: char, name: string, rest: seq<char>)
    requires !IsWhitespace(c) && !IsNameChar(c) && c != '/'
    requires IsIdentifier(name) && Separated(rest)
    ensures ParseCommand("if" + ([c] + ("goto" + (" " + (name + rest))))) == Parsed(Ok(Some(IfGoto(name))), rest)
  {
    var x := [c] + ("goto" + (" " + (name + rest)));
    assert "if" + x == KeywordName(If) + x;
    ParseKeywordThen(If, x);
    ParseOperandsArms(If, x);
    IfSymbolGoto(c, name, rest);
  }

  lemma IfSymbolGoto(c: char, name: string, rest: seq<char>)
    requires !IsWhitespace(c) && !IsNameChar(c) && c != '/'
    requires IsIdentifier(name) && Separated(rest)
    ensures ParseIfGoto([c] + ("goto" + (" " + (name + rest)))) == Parsed(Ok(Some(IfGoto(name))), rest)
  {
    var tail := " " + (name + rest);
    assert !IsNumeric(c) && !IsAlphabetic(c) && !StartsComment([c] + ("goto" + tail));
    ScanSymbol(c, "goto" + tail);
    ScanGoto(tail);
    ScanSpacedIdentifier(name, rest);
    ParseIfGotoOf([c] + ("goto" + tail), [c], "goto" + tail, tail, name, rest);
  }

  /** `if-` followed by a word other than `goto` panics on the assertion. */
  lemma ParseIfDashNotGoto(w: string, rest: seq<char>)
    requires IsIdentifier(w) && w != "goto" && Separated(rest)
    ensures ParseCommand("if" + ("-" + (w + rest))) == Parsed(Panic(NotGoto), rest)
  {
    var x := "-" + (w + rest);
    assert "if" + x == KeywordName(If) + x;
    ParseKeywordThen(If, x);
    ParseOperandsArms(If, x);
    IfDashNotGoto(w, rest);
  }

  lemma IfDashNotGoto(w: string, rest: seq<char>)
    requires IsIdentifier(w) && w != "goto" && Separated(rest)
    ensures ParseIfGoto("-" + (w + rest)) == Parsed(Panic(NotGoto), rest)
  {
    ScanSymbol('-', w + rest);
    ScanIdentifier(w, rest);
    ParseIfGotoNotGoto("-" + (w + rest), "-", w + rest, w, rest);
  }

  lemma ParseRenderDeclaration(c: Command, rest: seq<char>)
    requires (c.Function? || c.Call?) && IsIdentifier(c.name) && Separated(rest)
    ensures ParseDeclaration(c.Function?, RenderOperands(c) + rest) == Parsed(Ok(Some(c)), rest)
  {
    var tail := NatToString(c.count) + rest;
    var s := RenderOperands(c) + rest;
    RenderedWords(c, c.name, c.count, rest);
    ScanSpacedIdentifier(c.name, " " + tail);
    ParseSpacedNumber(c.count, rest);
    ParseDeclarationOf(c.Function?, s, c.name, " " + tail, c.count, rest);
  }

  /** `ParseDeclaration` on content that scans to a name and then a count. */
  lemma ParseDeclarationOf(isFunction: bool, s: seq<char>, w: string, x: seq<char>, n: U16, rest: seq<char>)
    requires Scan(s) == Scanned(Some(w), x) && ParseNumber(x) == (Ok(n), rest)
    ensures ParseDeclaration(isFunction, s) == Parsed(Ok(Some(if isFunction then Function(w, n) else Call(w, n))), rest)
  {
  }

  /** Any token after `push` or `pop` that names no segment, a number or a symbol included, is an error naming it. */
  lemma ParseAccessUnknownSegment(push: bool, s: seq<char>, w: string, x: seq<char>)
    requires Scan(s) == Scanned(Some(w), x) && SegmentKeyword(w).None?
    ensures ParseAccess(push, s) == Parsed(Err("invalid memory segment: " + w), x)
  {
  }

  /** A segment word that names no segment is an error naming that word. */
  lemma ParseUnknownSegment(push: bool, w: string, rest: seq<char>)
    requires IsIdentifier(w) && SegmentKeyword(w).None? && Separated(rest)
    ensures ParseCommand(KeywordName(Access(push)) + (" " + (w + rest)))
      == Parsed(Err("invalid memory segment: " + w), rest)
  {
    var x := " " + (w + rest);
    ParseKeywordThen(Access(push), x);
    ParseOperandsArms(Access(push), x);
    ScanSpacedIdentifier(w, rest);
    ParseAccessUnknownSegment(push, x, w, rest);
  }

  /** `push` or `pop` followed by a numeral: the numeral is no segment name, so it is the error. */
  lemma ParseNumeralSegment(push: bool, n: nat, rest: seq<char>)
    requires Separated(rest)
    ensures ParseCommand(KeywordName(Access(push)) + (" " + (NatToString(n) + rest)))
      == Parsed(Err("invalid memory segment: " + NatToString(n)), rest)
  {
    var x := " " + (NatToString(n) + rest);
    ParseKeywordThen(Access(push), x);
    ParseOperandsArms(Access(push), x);
    ScanAfterWhitespace(' ', NatToString(n) + rest);
    ScanNumeral(NatToString(n), rest);
    NumeralIsNoSegment(n);
    ParseAccessUnknownSegment(push, x, NatToString(n), rest);
  }

  lemma NumeralIsNoSegment(n: nat)
    ensures SegmentKeyword(NatToString(n)).None?
  {
    var t := NatToString(n);
    assert IsDigit(t[0]);
  }

  /** A segment with only whitespace and comments after it reports the missing index. */
  lemma ParseMissingIndex(push: bool, segment: MemorySegment, t: seq<char>)
    requires IsTrivia(t)
    ensures ParseCommand(KeywordName(Access(push)) + (" " + (SegmentName(segment) + t)))
      == Parsed(Err(IndexExpected), [])
  {
    var x := " " + (SegmentName(segment) + t);
    SegmentNameIsIdentifier(segment);
    SegmentKeywordOfName(segment);
    ParseKeywordThen(Access(push), x);
    ParseOperandsArms(Access(push), x);
    AccessMissingIndex(push, SegmentName(segment), t);
  }

  lemma AccessMissingIndex(push: bool, w: string, t: seq<char>)
    requires IsIdentifier(w) && SegmentKeyword(w).Some? && IsTrivia(t)
    ensures ParseAccess(push, " " + (w + t)) == Parsed(Err(IndexExpected), [])
  {
    TriviaIsSeparated(t);
    ScanSpacedIdentifier(w, t);
    ScanFindsNothingOnlyInTrivia(t);
  }

  /** An index that is a word rather than a number panics in the `unwrap`. */
  lemma ParseWordIndex(push: bool, segment: MemorySegment, w: string, rest: seq<char>)
    requires IsIdentifier(w) && Separated(rest)
    ensures ParseCommand(KeywordName(Access(push)) + (" " + (SegmentName(segment) + (" " + (w + rest)))))
      == Parsed(Panic(BadNumber), rest)
  {
    var x := " " + (SegmentName(segment) + (" " + (w + rest)));
    SegmentNameIsIdentifier(segment);
    SegmentKeywordOfName(segment);
    ParseKeywordThen(Access(push), x);
    ParseOperandsArms(Access(push), x);
    AccessWordIndex(push, SegmentName(segment), w, rest);
  }

  lemma AccessWordIndex(push: bool, w: string, v: string, rest: seq<char>)
    requires IsIdentifier(w) && SegmentKeyword(w).Some? && IsIdentifier(v) && Separated(rest)
    ensures ParseAccess(push, " " + (w + (" " + (v + rest)))) == Parsed(Panic(BadNumber), rest)
  {
    ScanSpacedIdentifier(w, " " + (v + rest));
    ParseSpacedWord(v, rest);
  }

  lemma ParseSpacedWord(v: string, rest: seq<char>)
    requires IsIdentifier(v) && Separated(rest)
    ensures ParseNumber(" " + (v + rest)) == (Panic(BadNumber), rest)
  {
    ScanSpacedIdentifier(v, rest);
    WordIsNoNumber(v);
  }

  /** A word that starts with a letter is no `u16`. */
  lemma WordIsNoNumber(w: string)
    requires IsIdentifier(w)
    ensures ParseU16(w).None?
  {
    assert w[0] != '+' && !IsDigit(w[0]);
  }

  /** A name with only whitespace and comments after it reports the missing count. */
  lemma ParseMissingCount(isFunction: bool, name: string, t: seq<char>)
    requires IsIdentifier(name) && IsTrivia(t)
    ensures ParseCommand(KeywordName(Declaration(isFunction)) + (" " + (name + t)))
      == Parsed(Err(IndexExpected), [])
  {
    var x := " " + (name + t);
    ParseKeywordThen(Declaration(isFunction), x);
    ParseOperandsArms(Declaration(isFunction), x);
    DeclarationMissingCount(isFunction, name, t);
  }

  lemma DeclarationMissingCount(isFunction: bool, name: string, t: seq<char>)
    requires IsIdentifier(name) && IsTrivia(t)
    ensures ParseDeclaration(isFunction, " " + (name + t)) == Parsed(Err(IndexExpected), [])
  {
    TriviaIsSeparated(t);
    ScanSpacedIdentifier(name, t);
    ScanFindsNothingOnlyInTrivia(t);
  }

  /** Any first token that starts no command, a number or a symbol included, is an error naming it. */
  lemma ParseUnknownFirstToken(s: seq<char>, w: string, rest: seq<char>)
    requires Scan(s) == Scanned(Some(w), rest) && KeywordOf(w).None?
    ensures ParseCommand(s) == Parsed(Err("invalid command " + w), rest)
  {
  }

  /** A numeral as the first token starts no command. */
  lemma ParseNumeralCommand(n: nat, rest: seq<char>)
    requires Separated(rest)
    ensures ParseCommand(NatToString(n) + rest) == Parsed(Err("invalid command " + NatToString(n)), rest)
  {
    ScanNumeral(NatToString(n), rest);
    NumeralIsNoKeyword(n);
    ParseUnknownFirstToken(NatToString(n) + rest, NatToString(n), rest);
  }

  lemma NumeralIsNoKeyword(n: nat)
    ensures KeywordOf(NatToString(n)).None?
  {
    var t := NatToString(n);
    assert IsDigit(t[0]);
    if KeywordOf(t).Some? {
      KeywordIsIdentifier(KeywordOf(t).value);
    }
  }

  /** A first word that starts no command is an error naming that word. */
  lemma ParseUnknownCommand(w: string, rest: seq<char>)
    requires IsIdentifier(w) && Separated(rest) && KeywordOf(w).None?
    ensures ParseCommand(w + rest) == Parsed(Err("invalid command " + w), rest)
  {
    ScanIdentifier(w, rest);
    ParseUnknownFirstToken(w + rest, w, rest);
  }

  /** A symbol as the first token starts no command either. */
  lemma ParseSymbolCommand(c: char, rest: seq<char>)
    requires !IsWhitespace(c) && !IsNameChar(c) && c != '/'
    ensures ParseCommand([c] + rest) == Parsed(Err("invalid command " + [c]), rest)
  {
    assert !IsNumeric(c) && !IsAlphabetic(c) && !StartsComment([c] + rest);
    ScanSymbol(c, rest);
    assert KeywordOf([c]).None?;
    ParseUnknownFirstToken([c] + rest, [c], rest);
  }

  /** `label` or `goto` takes the next token as it is, a numeral included. */
  lemma ParseNumeralLabel(isLabel: bool, n: nat, rest: seq<char>)
    requires Separated(rest)
    ensures ParseCommand(KeywordName(Jump(isLabel)) + (" " + (NatToString(n) + rest)))
      == Parsed(Ok(Some(if isLabel then Label(NatToString(n)) else Goto(NatToString(n)))), rest)
  {
    var x := " " + (NatToString(n) + rest);
    ParseKeywordThen(Jump(isLabel), x);
    ParseOperandsArms(Jump(isLabel), x);
    ScanAfterWhitespace(' ', NatToString(n) + rest);
    ScanNumeral(NatToString(n), rest);
  }

  lemma TriviaIsSeparated(t: seq<char>)
    requires IsTrivia(t)
    ensures Separated(t)
  {
  }

  /** The first word of `k` followed by `x`: the parse is the arm `k` on `x`. */
  lemma ParseKeywordThen(k: Keyword, x: seq<char>)
    requires Separated(x)
    ensures ParseCommand(KeywordName(k) + x) == ParseOperands(k, x)
  {
    KeywordIsIdentifier(k);
    ScanIdentifier(KeywordName(k), x);
    KeywordOfName(k);
    ParseCommandSelects(KeywordName(k) + x, k);
  }

  /**
   * A command word with nothing but whitespace and comments after it: `push`, `pop`,
   * `label`, `goto`, `function` and `call` report a missing operand, and `if` panics.
   */
  lemma ParseMissingOperand(k: Keyword, t: seq<char>)
    requires IsTrivia(t)
    ensures k.Access? || k.Jump? || k.Declaration? ==>
      ParseCommand(KeywordName(k) + t) == Parsed(Err(SegmentExpected), [])
    ensures k.If? ==> ParseCommand(KeywordName(k) + t) == Parsed(Panic(NearIf), [])
  {
    TriviaIsSeparated(t);
    ParseKeywordThen(k, t);
    ScanFindsNothingOnlyInTrivia(t);
    MissingOperand(k, t);
  }

  /** Each arm that needs an operand, on content with no token left. */
  lemma MissingOperand(k: Keyword, t: seq<char>)
    requires Scan(t).token.None?
    ensures k.Access? || k.Jump? || k.Declaration? ==> ParseOperands(k, t) == Parsed(Err(SegmentExpected), [])
    ensures k.If? ==> ParseOperands(k, t) == Parsed(Panic(NearIf), [])
  {
    match k
    case Access(push) => assert ParseAccess(push, t) == Parsed(Err(SegmentExpected), []);
    case Jump(isLabel) => assert ParseJump(isLabel, t) == Parsed(Err(SegmentExpected), []);
    case If => assert ParseIfGoto(t) == Parsed(Panic(NearIf), []);
    case Declaration(isFunction) => assert ParseDeclaration(isFunction, t) == Parsed(Err(SegmentExpected), []);
    case _ =>
  }

  lemma ParseSpacedOverflow(n: nat, rest: seq<char>)
    requires n >= 0x1_0000 && Separated(rest)
    ensures ParseNumber(" " + (NatToString(n) + rest)) == (Panic(BadNumber), rest)
  {
    ScanAfterWhitespace(' ', NatToString(n) + rest);
    ScanNumeral(NatToString(n), rest);
    ParseU16Overflows(n);
  }

  lemma AccessOverflow(push: bool, w: string, n: nat, rest: seq<char>)
    requires IsIdentifier(w) && SegmentKeyword(w).Some? && n >= 0x1_0000 && Separated(rest)
    ensures ParseAccess(push, " " + (w + (" " + (NatToString(n) + rest))))
      == Parsed(Panic(BadNumber), rest)
  {
    ScanSpacedIdentifier(w, " " + (NatToString(n) + rest));
    ParseSpacedOverflow(n, rest);
  }

  /** An index of `push` or `pop` that does not fit in 16 bits panics. */
  lemma ParseIndexOverflow(push: bool, segment: MemorySegment, n: nat, rest: seq<char>)
    requires n >= 0x1_0000 && Separated(rest)
    ensures ParseCommand(KeywordName(Access(push)) + (" " + (SegmentName(segment) + (" " + (NatToString(n) + rest)))))
      == Parsed(Panic(BadNumber), rest)
  {
    SegmentNameIsIdentifier(segment);
    SegmentKeywordOfName(segment);
    AccessWordOverflow(push, SegmentName(segment), n, rest);
  }

  lemma AccessWordOverflow(push: bool, w: string, n: nat, rest: seq<char>)
    requires IsIdentifier(w) && SegmentKeyword(w).Some? && n >= 0x1_0000 && Separated(rest)
    ensures ParseCommand(KeywordName(Access(push)) + (" " + (w + (" " + (NatToString(n) + rest)))))
      == Parsed(Panic(BadNumber), rest)
  {
    var x := " " + (w + (" " + (NatToString(n) + rest)));
    ParseKeywordThen(Access(push), x);
    ParseOperandsArms(Access(push), x);
    AccessOverflow(push, w, n, rest);
  }

  lemma DeclarationOverflow(isFunction: bool, name: string, n: nat, rest: seq<char>)
    requires IsIdentifier(name) && n >= 0x1_0000 && Separated(rest)
    ensures ParseDeclaration(isFunction, " " + (name + (" " + (NatToString(n) + rest))))
      == Parsed(Panic(BadNumber), rest)
  {
    ScanSpacedIdentifier(name, " " + (NatToString(n) + rest));
    ParseSpacedOverflow(n, rest);
  }

  /** A count of `function` or `call` that does not fit in 16 bits panics. */
  lemma ParseCountOverflow(isFunction: bool, name: string, n: nat, rest: seq<char>)
    requires IsIdentifier(name) && n >= 0x1_0000 && Separated(rest)
    ensures ParseCommand(KeywordName(Declaration(isFunction)) + (" " + (name + (" " + (NatToString(n) + rest)))))
      == Parsed(Panic(BadNumber), rest)
  {
    var x := " " + (name + (" " + (NatToString(n) + rest)));
    ParseKeywordThen(Declaration(isFunction), x);
    ParseOperandsArms(Declaration(isFunction), x);
    DeclarationOverflow(isFunction, name, n, rest);
  }

  /** `next_command` reports the end exactly when only whitespace and comments remain. */
  lemma ParseEndOfInput(s: seq<char>)
    ensures ParseCommand(s).result == Ok(None) <==> IsTrivia(s)
  {
    ScanFindsNothingOnlyInTrivia(s);
    var first := Scan(s);
    if first.token.Some? && KeywordOf(first.token.value).Some? {
      ParseCommandSelects(s, KeywordOf(first.token.value).value);
      OperandsTokens(KeywordOf(first.token.value).value, first.rest);
    }
  }

  /** The content left after `n` tokens. */
  function SkipTokens(s: seq<char>, n: nat): seq<char> {
    if n == 0 then s else SkipTokens(Scan(s).rest, n - 1)
  }

  /** How many tokens each command spans: its first word and the operands that word reads. */
  function TokenCount(c: Command): nat {
    1 + OperandCount(KeywordOfCommand(c))
  }

  /**
   * A command that parses leaves the content after its last token: one token for an
   * arithmetic command or `return`, two for `label` and `goto`, three for `push`, `pop`,
   * `function` and `call`, four for `if-goto`.
   */
  lemma ParseConsumesTokens(s: seq<char>)
    requires ParseCommand(s).result.Ok? && ParseCommand(s).result.value.Some?
    ensures ParseCommand(s).rest == SkipTokens(s, TokenCount(ParseCommand(s).result.value.value))
  {
    var first := Scan(s);
    var k := KeywordOf(first.token.value).value;
    ParseCommandSelects(s, k);
    OperandsTokens(k, first.rest);
    OperandsKeyword(k, first.rest);
  }

  /**
   * `next_command` only moves forward through the content, and it moves at least one
   * character unless it reports the end.
   */
  lemma ParseAdvances(s: seq<char>)
    ensures IsSuffix(ParseCommand(s).rest, s)
    ensures ParseCommand(s).result != Ok(None) ==> |ParseCommand(s).rest| < |s|
  {
    var first := Scan(s);
    ScanRestIsSuffix(s);
    if first.token.Some? && KeywordOf(first.token.value).Some? {
      var k := KeywordOf(first.token.value).value;
      ParseCommandSelects(s, k);
      OperandsTokens(k, first.rest);
      SuffixTransitive(ParseCommand(s).rest, first.rest, s);
    }
  }

  class Parser {
    const lexer: Lexer

    constructor (content: seq<char>)
      ensures fresh(lexer) && lexer.content == content
    {
      lexer := new Lexer(content);
    }

    method NextToken() returns (token: Option<seq<char>>)
      modifies lexer
      ensures Scanned(token, lexer.content) == Scan(old(lexer.content))
    {
      token := lexer.NextToken();
    }

    /** The count after a segment or a function name. */
    method NextNumber() returns (count: Result<U16>)
      modifies lexer
      ensures (count, lexer.content) == ParseNumber(old(lexer.content))
    {
      var token := NextToken();
      if token.None? {
        return Err(IndexExpected);
      }
      var n := ParseU16(token.value);
      if n.None? {
        return Panic(BadNumber);
      }
      count := Ok(n.value);
    }

    /** `next_command`: `Ok(None)` at the end of the content. */
    method NextCommand() returns (result: Result<Option<Command>>)
      modifies lexer
      ensures Parsed(result, lexer.content) == ParseCommand(old(lexer.content))
    {
      ghost var start := lexer.content;
      var f := NextToken();
      if f.None? {
        return Ok(None);
      }
      var command := f.value;
      var keyword := KeywordOf(command);
      if keyword.None? {
        return Err("invalid command " + command);
      }
      ParseCommandSelects(start, keyword.value);
      ParseOperandsArms(keyword.value, lexer.content);
      match keyword.value
      case Operation(op) =>
        result := Ok(Some(Arithmetic(op)));
      case Access(push) =>
        result := NextAccess(push);
      case Jump(isLabel) =>
        result := NextJump(isLabel);
      case If =>
        result := NextIfGoto();
      case Declaration(isFunction) =>
        result := NextDeclaration(isFunction);
      case ReturnWord =>
        result := Ok(Some(Return));
    }

    method NextAccess(push: bool) returns (result: Result<Option<Command>>)
      modifies lexer
      ensures Parsed(result, lexer.content) == ParseAccess(push, old(lexer.content))
    {
      var memorySegment := NextToken();
      if memorySegment.None? {
        return Err(SegmentExpected);
      }
      var segment := SegmentKeyword(memorySegment.value);
      if segment.None? {
        return Err("invalid memory segment: " + memorySegment.value);
      }
      var index := NextNumber();
      if index.Fails() {
        return index.Propagate();
      }
      if push {
        result := Ok(Some(Push(segment.value, index.value)));
      } else {
        result := Ok(Some(Pop(segment.value, index.value)));
      }
    }

    method NextJump(isLabel: bool) returns (result: Result<Option<Command>>)
      modifies lexer
      ensures Parsed(result, lexer.content) == ParseJump(isLabel, old(lexer.content))
    {
      var name := NextToken();
      if name.None? {
        return Err(SegmentExpected);
      }
      if isLabel {
        result := Ok(Some(Label(name.value)));
      } else {
        result := Ok(Some(Goto(name.value)));
      }
    }

    method NextIfGoto() returns (result: Result<Option<Command>>)
      modifies lexer
      ensures Parsed(result, lexer.content) == ParseIfGoto(old(lexer.content))
    {
      var dash := NextToken();
      if dash.None? {
        return Panic(NearIf);
      }
      var keyword := NextToken();
      if keyword.None? {
        return Err(IfGotoExpected);
      }
      if keyword.value != "goto" {
        return Panic(NotGoto);
      }
      var name := NextToken();
      if name.None? {
        return Err(SegmentExpected);
      }
      result := Ok(Some(IfGoto(name.value)));
    }

    method NextDeclaration(isFunction: bool) returns (result: Result<Option<Command>>)
      modifies lexer
      ensures Parsed(result, lexer.content) == ParseDeclaration(isFunction, old(lexer.content))
    {
      var name := NextToken();
      if name.None? {
        return Err(SegmentExpected);
      }
      var count := NextNumber();
      if count.Fails() {
        return count.Propagate();
      }
      if isFunction {
        result := Ok(Some(Function(name.value, count.value)));
      } else {
        result := Ok(Some(Call(name.value, count.value)));
      }
    }
  }
}
