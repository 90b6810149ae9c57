/**
 * The lexer (src/lexer.rs): it advances over a slice of characters, skipping whitespace and
 * `//` comments, and cuts off numbers, names and single characters as tokens.
 */
module Lexing {
  import opened Wrappers
  import opened Chars
  import opened Decimal

  /** The length of the longest prefix of `s` whose characters all satisfy `p`. */
  function PrefixLength(s: seq<char>, p: char -> bool): (n: nat)
    ensures n <= |s|
    ensures forall i | 0 <= i < n :: p(s[i])
    ensures n < |s| ==> !p(s[n])
    decreases |s|
  {
    if s != [] && p(s[0]) then 1 + PrefixLength(s[1..], p) else 0
  }

  /** A prefix that satisfies `p` throughout and cannot be extended is the longest one. */
  lemma {:induction false} PrefixLengthUnique(s: seq<char>, p: char -> bool, n: nat)
    requires n <= |s|
    requires forall i | 0 <= i < n :: p(s[i])
    requires n < |s| ==> !p(s[n])
    ensures PrefixLength(s, p) == n
    decreases n
  {
    if n > 0 {
      PrefixLengthUnique(s[1..], p, n - 1);
    }
  }

  /** `content.iter().position(q)`: the first index whose character satisfies `q`. */
  method Position(s: seq<char>, q: char -> bool) returns (r: Option<nat>)
    ensures r.Some? ==> r.value < |s| && q(s[r.value])
    ensures forall i | 0 <= i < |s| && (r.None? || i < r.value) :: !q(s[i])
  {
    var i := 0;
    while i < |s|
      invariant i <= |s|
      invariant forall j | 0 <= j < i :: !q(s[j])
    {
      if q(s[i]) {
        return Some(i);
      }
      i := i + 1;
    }
    return None;
  }

  /** The content left by `trim_left`. */
  function LeftTrimmed(s: seq<char>): (r: seq<char>)
    ensures IsSuffix(r, s)
    ensures forall i | 0 <= i < |s| - |r| :: IsWhitespace(s[i])
    ensures r == [] || !IsWhitespace(r[0])
  {
    s[PrefixLength(s, IsWhitespace)..]
  }

  lemma LeftTrimmedIdempotent(s: seq<char>)
    ensures LeftTrimmed(LeftTrimmed(s)) == LeftTrimmed(s)
  {
    PrefixLengthUnique(LeftTrimmed(s), IsWhitespace, 0);
  }

  predicate IsSuffix(r: seq<char>, s: seq<char>) {
    |r| <= |s| && s[|s| - |r|..] == r
  }

  lemma SuffixTransitive(a: seq<char>, b: seq<char>, c: seq<char>)
    requires IsSuffix(a, b) && IsSuffix(b, c)
    ensures IsSuffix(a, c)
  {
    assert c[|c| - |a|..] == c[|c| - |b|..][|b| - |a|..];
  }

  /** Whether the content starts with a `//` comment. */
  predicate StartsComment(s: seq<char>) {
    |s| > 1 && s[0] == '/' && s[1] == '/'
  }

  /** The length of the comment at the start of `s`: up to, not including, a control character. */
  function CommentLength(s: seq<char>): (n: nat)
    requires StartsComment(s)
    ensures 2 <= n <= |s|
    ensures forall i | 0 <= i < n :: !IsControl(s[i])
    ensures n < |s| ==> IsControl(s[n])
  {
    PrefixLength(s, NotControl)
  }

  /** The content `next_token` has left when its comment-skipping loop stops. */
  function SkipTrivia(s: seq<char>): (r: seq<char>)
    ensures IsSuffix(r, s)
    ensures r == [] || (!IsWhitespace(r[0]) && !StartsComment(r))
    decreases |s|
  {
    var t := LeftTrimmed(s);
    if StartsComment(t) then
      var u := LeftTrimmed(t[CommentLength(t)..]);
      SuffixTransitive(u, t[CommentLength(t)..], t);
      SuffixTransitive(u, t, s);
      SuffixTransitive(SkipTrivia(u), u, s);
      SkipTrivia(u)
    else
      t
  }

  lemma SkipTriviaPastComment(s: seq<char>, t: seq<char>, u: seq<char>)
    requires t == LeftTrimmed(s) && StartsComment(t)
    requires u == LeftTrimmed(t[PrefixLength(t, NotControl)..])
    ensures SkipTrivia(s) == SkipTrivia(u) && |u| < |s|
  {
  }

  lemma SkipTriviaStops(s: seq<char>, t: seq<char>)
    requires t == LeftTrimmed(s) && !StartsComment(t)
    ensures SkipTrivia(s) == t
  {
  }

  /** A token, if any, and the content left after it. */
  datatype Scanned = Scanned(token: Option<seq<char>>, rest: seq<char>)

  /** The token cut from content that starts at a token, and what is left after it. */
  function CutToken(t: seq<char>): (r: Scanned)
    ensures r.token.None? <==> t == []
    ensures r.token.Some? ==> r.token.value != [] && t == r.token.value + r.rest
    ensures t != [] && IsNumeric(t[0]) ==>
      var tok := r.token.value;
      (forall i | 0 <= i < |tok| :: IsNumeric(tok[i])) && (r.rest == [] || !IsNumeric(r.rest[0]))
    ensures t != [] && IsAlphabetic(t[0]) ==>
      var tok := r.token.value;
      (forall i | 0 <= i < |tok| :: IsNameChar(tok[i])) && (r.rest == [] || !IsNameChar(r.rest[0]))
    ensures t != [] && !IsNumeric(t[0]) && !IsAlphabetic(t[0]) ==> r.token == Some([t[0]])
  {
    if |t| == 0 then
      Scanned(None, t)
    else if IsNumeric(t[0]) then
      var n := PrefixLength(t, IsNumeric);
      Scanned(Some(t[..n]), t[n..])
    else if IsAlphabetic(t[0]) then
      var n := PrefixLength(t, IsNameChar);
      Scanned(Some(t[..n]), t[n..])
    else
      assert t[..1] == [t[0]];
      Scanned(Some(t[..1]), t[1..])
  }

  /** What `next_token` returns and leaves behind. */
  function Scan(s: seq<char>): (r: Scanned)
    ensures r.token.None? ==> r.rest == []
    ensures r.token.Some? ==> r.token.value != [] && SkipTrivia(s) == r.token.value + r.rest
    ensures r.token.Some? ==> |r.rest| < |s|
  {
    CutToken(SkipTrivia(s))
  }

  /**
   * Whitespace and comments only, character by character: this is what is left when no
   * token remains.
   */
  predicate IsTrivia(s: seq<char>)
    decreases |s|
  {
    s == []
    || (IsWhitespace(s[0]) && IsTrivia(s[1..]))
    || (StartsComment(s) && IsTrivia(s[CommentLength(s)..]))
  }

  lemma {:induction false} TriviaIgnoresLeadingWhitespace(s: seq<char>)
    ensures IsTrivia(s) <==> IsTrivia(LeftTrimmed(s))
    decreases |s|
  {
    if s != [] && IsWhitespace(s[0]) {
      assert LeftTrimmed(s) == LeftTrimmed(s[1..]) by {
        PrefixLengthUnique(s[1..], IsWhitespace, PrefixLength(s, IsWhitespace) - 1);
      }
      TriviaIgnoresLeadingWhitespace(s[1..]);
    }
  }

  /** `next_token` finds no token exactly when only whitespace and comments remain. */
  lemma {:induction false} ScanFindsNothingOnlyInTrivia(s: seq<char>)
    ensures Scan(s).token.None? <==> IsTrivia(s)
    decreases |s|
  {
    var t := LeftTrimmed(s);
    TriviaIgnoresLeadingWhitespace(s);
    if StartsComment(t) {
      var u := t[CommentLength(t)..];
      TriviaIgnoresLeadingWhitespace(u);
      ScanFindsNothingOnlyInTrivia(LeftTrimmed(u));
      assert Scan(LeftTrimmed(u)).token.None? <==> SkipTrivia(LeftTrimmed(u)) == [];
    }
  }

  /** The part of the content that `next_token` skips before the token. */
  function Skipped(s: seq<char>): seq<char> {
    s[..|s| - |SkipTrivia(s)|]
  }

  lemma {:induction false} WhitespaceIsTrivia(w: seq<char>)
    requires forall i | 0 <= i < |w| :: IsWhitespace(w[i])
    ensures IsTrivia(w)
    decreases |w|
  {
    if w != [] {
      WhitespaceIsTrivia(w[1..]);
    }
  }

  lemma CommentIsTrivia(c: seq<char>)
    requires StartsComment(c) && forall i | 0 <= i < |c| :: !IsControl(c[i])
    ensures IsTrivia(c)
  {
    PrefixLengthUnique(c, NotControl, |c|);
    assert c[|c|..] == [];
  }

  /** Trivia resumes at its first control character, which can only be whitespace. */
  lemma {:induction false} TriviaAtFirstControl(b: seq<char>, j: nat)
    requires IsTrivia(b)
    requires j <= |b| && forall i | 0 <= i < j :: !IsControl(b[i])
    requires j < |b| ==> IsControl(b[j])
    ensures IsTrivia(b[j..])
    decreases |b|
  {
    if j > 0 {
      if IsWhitespace(b[0]) && IsTrivia(b[1..]) {
        TriviaAtFirstControl(b[1..], j - 1);
        assert b[1..][j - 1..] == b[j..];
      } else {
        PrefixLengthUnique(b, NotControl, j);
      }
    }
  }

  /** Whitespace and comments followed by whitespace and comments are whitespace and comments. */
  lemma {:induction false} TriviaConcat(a: seq<char>, b: seq<char>)
    requires IsTrivia(a) && IsTrivia(b)
    ensures IsTrivia(a + b)
    decreases |a|, 1
  {
    if a == [] {
      assert a + b == b;
    } else if IsWhitespace(a[0]) && IsTrivia(a[1..]) {
      TriviaConcatWhitespace(a, b);
    } else if CommentLength(a) < |a| {
      TriviaConcatClosedComment(a, b);
    } else {
      TriviaConcatOpenComment(a, b);
    }
  }

  lemma {:induction false} TriviaConcatWhitespace(a: seq<char>, b: seq<char>)
    requires a != [] && IsWhitespace(a[0]) && IsTrivia(a[1..]) && IsTrivia(b)
    ensures IsTrivia(a + b)
    decreases |a|, 0
  {
    TriviaConcat(a[1..], b);
    assert (a + b)[0] == a[0];
    assert (a + b)[1..] == a[1..] + b;
  }

  lemma {:induction false} TriviaConcatClosedComment(a: seq<char>, b: seq<char>)
    requires StartsComment(a) && CommentLength(a) < |a| && IsTrivia(a[CommentLength(a)..]) && IsTrivia(b)
    ensures IsTrivia(a + b)
    decreases |a|, 0
  {
    var k := CommentLength(a);
    assert StartsComment(a + b) by {
      assert (a + b)[0] == a[0] && (a + b)[1] == a[1];
    }
    PrefixLengthUnique(a + b, NotControl, k);
    TriviaConcat(a[k..], b);
    assert (a + b)[k..] == a[k..] + b;
  }

  lemma TriviaConcatOpenComment(a: seq<char>, b: seq<char>)
    requires StartsComment(a) && CommentLength(a) == |a| && IsTrivia(b)
    ensures IsTrivia(a + b)
  {
    assert StartsComment(a + b) by {
      assert (a + b)[0] == a[0] && (a + b)[1] == a[1];
    }
    var j := PrefixLength(b, NotControl);
    TriviaAtFirstControl(b, j);
    PrefixLengthUnique(a + b, NotControl, |a| + j);
    assert (a + b)[|a| + j..] == b[j..];
  }

  lemma SuffixSplit(a: seq<char>, b: seq<char>, c: seq<char>)
    requires IsSuffix(b, a) && IsSuffix(c, b)
    ensures a[..|a| - |c|] == a[..|a| - |b|] + b[..|b| - |c|]
  {
  }

  /** Skipping trivia from `a` down to `b`, then from `b` down to `c`, skips trivia from `a` down to `c`. */
  lemma TriviaPrefixJoin(a: seq<char>, b: seq<char>, c: seq<char>)
    requires IsSuffix(b, a) && IsSuffix(c, b)
    requires IsTrivia(a[..|a| - |b|]) && IsTrivia(b[..|b| - |c|])
    ensures IsSuffix(c, a) && IsTrivia(a[..|a| - |c|])
  {
    SuffixTransitive(c, b, a);
    SuffixSplit(a, b, c);
    TriviaConcat(a[..|a| - |b|], b[..|b| - |c|]);
  }

  /** A comment and the whitespace after it are trivia. */
  lemma CommentThenWhitespace(t: seq<char>)
    requires StartsComment(t)
    ensures var u := LeftTrimmed(t[CommentLength(t)..]);
      IsSuffix(u, t) && IsTrivia(t[..|t| - |u|])
  {
    var k := CommentLength(t);
    var u := LeftTrimmed(t[k..]);
    CommentIsTrivia(t[..k]);
    assert t[..|t| - |t[k..]|] == t[..k];
    WhitespaceIsTrivia(t[k..][..|t[k..]| - |u|]);
    TriviaPrefixJoin(t, t[k..], u);
  }

  /** What `next_token` skips is whitespace and comments and nothing else. */
  lemma {:induction false} SkippedIsTrivia(s: seq<char>)
    ensures IsTrivia(Skipped(s))
    decreases |s|, 2
  {
    var t := LeftTrimmed(s);
    WhitespaceIsTrivia(s[..|s| - |t|]);
    if StartsComment(t) {
      SkippedPastComment(s, t);
    } else {
      SkipTriviaStops(s, t);
    }
  }

  lemma {:induction false} SkippedPastComment(s: seq<char>, t: seq<char>)
    requires t == LeftTrimmed(s) && StartsComment(t)
    requires IsTrivia(s[..|s| - |t|])
    ensures IsTrivia(Skipped(s))
    decreases |s|, 1
  {
    var w := SkipTrivia(LeftTrimmed(t[CommentLength(t)..]));
    SkipTriviaPastComment(s, t, LeftTrimmed(t[CommentLength(t)..]));
    CommentThenTrivia(s, t);
    SkippedJoin(s, t, w);
  }

  /** Trivia down to `t`, then trivia down to where skipping ends, is what is skipped. */
  lemma SkippedJoin(s: seq<char>, t: seq<char>, w: seq<char>)
    requires IsSuffix(t, s) && IsTrivia(s[..|s| - |t|])
    requires IsSuffix(w, t) && IsTrivia(t[..|t| - |w|])
    requires SkipTrivia(s) == w
    ensures IsTrivia(Skipped(s))
  {
    TriviaPrefixJoin(s, t, w);
    SkippedDownTo(s, w);
  }

  lemma SkippedDownTo(s: seq<char>, w: seq<char>)
    requires SkipTrivia(s) == w && IsTrivia(s[..|s| - |w|])
    ensures IsTrivia(Skipped(s))
  {
  }

  /** A comment, then what the skipping loop skips after it, is trivia. */
  lemma {:induction false} CommentThenTrivia(s: seq<char>, t: seq<char>)
    requires t == LeftTrimmed(s) && StartsComment(t)
    ensures var w := SkipTrivia(LeftTrimmed(t[CommentLength(t)..]));
      IsSuffix(w, t) && IsTrivia(t[..|t| - |w|])
    decreases |s|, 0
  {
    var u := LeftTrimmed(t[CommentLength(t)..]);
    SkipTriviaPastComment(s, t, u);
    CommentThenWhitespace(t);
    SkippedIsTrivia(u);
    TriviaPrefixJoin(t, u, SkipTrivia(u));
  }

  /**
   * A token splits the content: skipped whitespace and comments, the token, and the rest,
   * which is strictly shorter than the content.
   */
  lemma ScanSplits(s: seq<char>)
    requires Scan(s).token.Some?
    ensures var r := Scan(s);
      s == Skipped(s) + SkipTrivia(s) && SkipTrivia(s) == r.token.value + r.rest
      && IsTrivia(Skipped(s)) && |r.rest| < |s|
  {
    SkippedIsTrivia(s);
  }

  /** A name as the lexer cuts it: a letter, then letters, digits, `_`, `.` or `$`. */
  predicate IsIdentifier(w: seq<char>) {
    w != [] && IsAlphabetic(w[0]) && forall i | 0 <= i < |w| :: IsNameChar(w[i])
  }

  /** Content that cannot continue a name or a number. */
  predicate Separated(rest: seq<char>) {
    rest == [] || !IsNameChar(rest[0])
  }

  /** Content that starts at a token is not skipped at all. */
  lemma SkipTriviaAtToken(s: seq<char>)
    requires s != [] && !IsWhitespace(s[0]) && !StartsComment(s)
    ensures SkipTrivia(s) == s
  {
    PrefixLengthUnique(s, IsWhitespace, 0);
  }

  /** A name followed by a separator is scanned as one token. */
  lemma ScanIdentifier(w: seq<char>, rest: seq<char>)
    requires IsIdentifier(w) && Separated(rest)
    ensures Scan(w + rest) == Scanned(Some(w), rest)
  {
    var s := w + rest;
    assert s[0] == w[0];
    SkipTriviaAtToken(s);
    PrefixLengthUnique(s, IsNameChar, |w|);
    assert s[..|w|] == w && s[|w|..] == rest;
  }

  /** A numeral followed by a separator is scanned as one token. */
  lemma ScanNumeral(d: seq<char>, rest: seq<char>)
    requires IsNumeral(d) && Separated(rest)
    ensures Scan(d + rest) == Scanned(Some(d), rest)
  {
    var s := d + rest;
    assert s[0] == d[0];
    SkipTriviaAtToken(s);
    PrefixLengthUnique(s, IsNumeric, |d|);
    assert s[..|d|] == d && s[|d|..] == rest;
  }

  /** Any other character that does not start a comment is a token of its own. */
  lemma ScanSymbol(c: char, rest: seq<char>)
    requires !IsWhitespace(c) && !IsNumeric(c) && !IsAlphabetic(c) && !StartsComment([c] + rest)
    ensures Scan([c] + rest) == Scanned(Some([c]), rest)
  {
    var s := [c] + rest;
    SkipTriviaAtToken(s);
    assert s[..1] == [c] && s[1..] == rest;
  }

  /** A whitespace character in front of the content changes nothing that is scanned. */
  lemma ScanAfterWhitespace(c: char, s: seq<char>)
    requires IsWhitespace(c)
    ensures Scan([c] + s) == Scan(s)
  {
    PrefixLengthUnique(s, IsWhitespace, PrefixLength([c] + s, IsWhitespace) - 1) by {
      assert ([c] + s)[1..] == s;
    }
    assert LeftTrimmed([c] + s) == LeftTrimmed(s);
  }

  /** What is left after a scan is a suffix of the content. */
  lemma ScanRestIsSuffix(s: seq<char>)
    ensures IsSuffix(Scan(s).rest, s)
  {
    var r := Scan(s);
    if r.token.Some? {
      assert IsSuffix(r.rest, r.token.value + r.rest);
      SuffixTransitive(r.rest, SkipTrivia(s), s);
    }
  }

  class Lexer {
    var content: seq<char>

    constructor (content: seq<char>)
      ensures this.content == content
    {
      this.content := content;
    }

    method TrimLeft()
      modifies this
      ensures content == LeftTrimmed(old(content))
    {
      var n := Position(content, c => !IsWhitespace(c));
      if n.Some? {
        PrefixLengthUnique(content, IsWhitespace, n.value);
        content := content[n.value..];
      } else {
        PrefixLengthUnique(content, IsWhitespace, |content|);
        content := [];
      }
    }

    method Chop(n: nat) returns (token: seq<char>)
      requires n <= |content|
      modifies this
      ensures |token| == n && token + content == old(content)
    {
      token := content[..n];
      content := content[n..];
    }

    method ChopWhile(p: char -> bool) returns (token: seq<char>)
      modifies this
      ensures token == old(content)[..PrefixLength(old(content), p)]
      ensures content == old(content)[PrefixLength(old(content), p)..]
    {
      var n := Position(content, c => !p(c));
      if n.Some? {
        PrefixLengthUnique(content, p, n.value);
        token := Chop(n.value);
      } else {
        PrefixLengthUnique(content, p, |content|);
        token := Chop(|content|);
      }
    }

    method NextToken() returns (token: Option<seq<char>>)
      modifies this
      ensures Scanned(token, content) == Scan(old(content))
    {
      while true
        invariant SkipTrivia(content) == SkipTrivia(old(content))
        decreases |content|
      {
        ghost var before := content;
        TrimLeft();
        if |content| > 1 && content[0] == '/' && content[1] == '/' {
          ghost var trimmed := content;
          var comment := ChopWhile(NotControl);
          TrimLeft();
          SkipTriviaPastComment(before, trimmed, content);
        } else {
          SkipTriviaStops(before, content);
          break;
        }
      }
      if |content| == 0 {
        return None;
      }
      if IsNumeric(content[0]) {
        var n := ChopWhile(IsNumeric);
        token := Some(n);
      } else if IsAlphabetic(content[0]) {
        var n := ChopWhile(IsNameChar);
        token := Some(n);
      } else {
        var n := Chop(1);
        token := Some(n);
      }
    }

    /** `is_empty`: no content left, so no token either. */
    predicate IsEmpty()
      reads this
      ensures IsEmpty() ==> Scan(content).token == None
    {
      content == []
    }
  }
}
