/** The SOQL tokenizer: as a function of the text left to read, and as the loop over an index it is.

    `upper` is Unicode upper-casing, left abstract; `Sane` says what of it the round trip needs. */
module SoqlTokens {
  import opened Wrappers

  datatype Kind = Str | Comma | LParen | RParen | Star | Operator | Keyword | Word

  datatype Lexeme = Lexeme(kind: Kind, value: string)
  datatype Token = Token(lexeme: Lexeme, position: nat)

  datatype Error =
    | UnterminatedString(at: nat) | InvalidOperator(at: nat) | UnexpectedCharacter(at: nat)
    | Expected(what: string) | Unexpected(value: string, at: nat) | NotAnInteger(clause: string)

  const KEYWORDS: set<string> := {
    "SELECT", "FROM", "WHERE", "AND", "IN", "LIKE", "ORDER", "BY", "ASC", "DESC", "NULLS", "FIRST", "LAST", "LIMIT",
        "OFFSET"}

  const OPERATORS: set<string> := {"=", "!=", ">", ">=", "<", "<="}

  /** The characters Python's `str.isspace` accepts. */
  predicate IsSpace(c: char) {
    var n := c as int;
    || 9 <= n <= 13 || 28 <= n <= 32 || n == 0x85 || n == 0xA0 || n == 0x1680 || 0x2000 <= n <= 0x200A
    || n == 0x2028 || n == 0x2029 || n == 0x202F || n == 0x205F || n == 0x3000
  }

  predicate IsDelimiter(c: char) {
    c == '\'' || c == ',' || c == '(' || c == ')' || c == '*' || c == '<' || c == '>' || c == '=' || c == '!'
  }

  predicate IsWordChar(c: char) { !IsSpace(c) && !IsDelimiter(c) }

  function Punctuation(c: char): Kind
    requires c == ',' || c == '(' || c == ')' || c == '*'
  {
    if c == ',' then Comma else if c == '(' then LParen else if c == ')' then RParen else Star
  }

  /** The value of a string literal and the length read, from past its opening quote. */
  datatype Scan = Unterminated | Scanned(value: string, length: nat)

  function ScanString(s: string): (r: Scan)
    ensures r.Scanned? ==> 0 < r.length <= |s|
  {
    if |s| == 0 then Unterminated
    else if s[0] != '\'' then
      match ScanString(s[1..])
      case Unterminated => Unterminated
      case Scanned(value, length) => Scanned([s[0]] + value, 1 + length)
    else if |s| > 1 && s[1] == '\'' then
      match ScanString(s[2..])
      case Unterminated => Unterminated
      case Scanned(value, length) => Scanned(['\''] + value, 2 + length)
    else Scanned("", 1)
  }

  function WordLength(s: string): (n: nat)
    ensures n <= |s|
  {
    if |s| == 0 || !IsWordChar(s[0]) then 0 else 1 + WordLength(s[1..])
  }

  function OperatorLength(s: string): (n: nat)
    requires |s| > 0
    ensures 0 < n <= |s|
  {
    if |s| > 1 && s[1] == '=' then 2 else 1
  }

  predicate StartsOperator(c: char) { c == '<' || c == '>' || c == '=' || c == '!' }

  function WordLexeme(upper: string -> string, word: string): Lexeme {
    if upper(word) in KEYWORDS then Lexeme(Keyword, upper(word)) else Lexeme(Word, word)
  }

  /** What a non-empty text starts with: a space, a token of some length, or an error. */
  datatype Lexed = Space | Got(lexeme: Lexeme, length: nat) | Bad(error: Error)

  function First(upper: string -> string, s: string, p: nat): (r: Lexed)
    requires |s| > 0
    ensures r.Got? ==> 0 < r.length <= |s|
  {
    if IsSpace(s[0]) then Space
    else if s[0] == '\'' then
      match ScanString(s[1..])
      case Unterminated => Bad(UnterminatedString(p))
      case Scanned(value, length) => Got(Lexeme(Str, value), 1 + length)
    else if s[0] == ',' || s[0] == '(' || s[0] == ')' || s[0] == '*' then
      Got(Lexeme(Punctuation(s[0]), [s[0]]), 1)
    else if StartsOperator(s[0]) then
      var n := OperatorLength(s);
      if s[..n] in OPERATORS then Got(Lexeme(Operator, s[..n]), n) else Bad(InvalidOperator(p))
    else
      var n := WordLength(s);
      if n == 0 then Bad(UnexpectedCharacter(p)) else Got(WordLexeme(upper, s[..n]), n)
  }

  /** The tokens of `s`, whose first character stands at `p` of the source. */
  function Tokens(upper: string -> string, s: string, p: nat): Result<seq<Token>, Error>
    decreases |s|
  {
    if |s| == 0 then Ok([])
    else
      match First(upper, s, p)
      case Space => Tokens(upper, s[1..], p + 1)
      case Got(l, n) => Prepend(Token(l, p), Tokens(upper, s[n..], p + n))
      case Bad(e) => Err(e)
  }

  function Prepend(t: Token, rest: Result<seq<Token>, Error>): Result<seq<Token>, Error> {
    match rest
    case Ok(ts) => Ok([t] + ts)
    case Err(e) => Err(e)
  }

  /** Tokens stand at strictly increasing positions inside the source. */
  lemma {:induction false} PositionsIncrease(upper: string -> string, s: string, p: nat)
    requires Tokens(upper, s, p).Ok?
    ensures var ts := Tokens(upper, s, p).value;
      && (forall i :: 0 <= i < |ts| ==> p <= ts[i].position < p + |s|)
      && (forall i, j :: 0 <= i < j < |ts| ==> ts[i].position < ts[j].position)
    decreases |s|
  {
    hide First;
    if |s| > 0 {
      match First(upper, s, p) {
        case Space => PositionsIncrease(upper, s[1..], p + 1);
        case Got(_, n) => PositionsIncrease(upper, s[n..], p + n);
        case Bad(_) =>
      }
    }
  }

  lemma SomethingStarts(upper: string -> string, s: string, p: nat)
    requires |s| > 0
    ensures !(First(upper, s, p).Bad? && First(upper, s, p).error.UnexpectedCharacter?)
  {
    assert !IsSpace(s[0]) && !IsDelimiter(s[0]) ==> WordLength(s) > 0;
  }

  /** A character that starts nothing else starts a word, so no character is unexpected. */
  lemma {:induction false} NoCharacterIsUnexpected(upper: string -> string, s: string, p: nat)
    ensures Tokens(upper, s, p).Err? ==> !Tokens(upper, s, p).error.UnexpectedCharacter?
    decreases |s|
  {
    hide First;
    if |s| > 0 {
      SomethingStarts(upper, s, p);
      match First(upper, s, p) {
        case Space => NoCharacterIsUnexpected(upper, s[1..], p + 1);
        case Got(_, n) => NoCharacterIsUnexpected(upper, s[n..], p + n);
        case Bad(_) =>
      }
    }
  }

  /* ---- Printing ---- */

  function Escape(s: string): string {
    if |s| == 0 then "" else (if s[0] == '\'' then "''" else [s[0]]) + Escape(s[1..])
  }

  function Spelling(l: Lexeme): string {
    if l.kind.Str? then "'" + Escape(l.value) + "'" else l.value
  }

  function Render(ls: seq<Lexeme>): string {
    if |ls| == 0 then "" else Spelling(ls[0]) + " " + Render(ls[1..])
  }

  predicate IsWord(s: string) {
    |s| > 0 && forall i :: 0 <= i < |s| ==> IsWordChar(s[i])
  }

  /** A lexeme the tokenizer can produce. */
  predicate Printable(upper: string -> string, l: Lexeme) {
    match l.kind
    case Str => true
    case Comma => l.value == ","
    case LParen => l.value == "("
    case RParen => l.value == ")"
    case Star => l.value == "*"
    case Operator => l.value in OPERATORS
    case Keyword => l.value in KEYWORDS && IsWord(l.value) && upper(l.value) == l.value
    case Word => IsWord(l.value) && upper(l.value) !in KEYWORDS
  }

  function Lexemes(ts: seq<Token>): (r: seq<Lexeme>)
    ensures |r| == |ts| && forall i :: 0 <= i < |r| ==> r[i] == ts[i].lexeme
  {
    seq(|ts|, i requires 0 <= i < |ts| => ts[i].lexeme)
  }

  lemma ScanDoubled(tail: string)
    ensures ScanString("''" + tail) == Continue("'", 2, ScanString(tail))
  {
    var s := "''" + tail;
    assert s[2..] == tail;
  }

  lemma ScanPlain(c: char, tail: string)
    requires c != '\''
    ensures ScanString([c] + tail) == Continue([c], 1, ScanString(tail))
  {
    var s := [c] + tail;
    assert s[1..] == tail;
  }

  lemma ScanEnds(rest: string)
    requires |rest| == 0 || rest[0] != '\''
    ensures ScanString("'" + rest) == Scanned("", 1)
  {
  }

  lemma {:induction false} ScanEscaped(v: string, rest: string)
    requires |rest| == 0 || rest[0] != '\''
    ensures ScanString(Escape(v) + "'" + rest) == Scanned(v, |Escape(v)| + 1)
  {
    hide ScanString;
    if |v| > 0 {
      ScanEscaped(v[1..], rest);
      var tail := Escape(v[1..]) + "'" + rest;
      assert v == [v[0]] + v[1..];
      if v[0] == '\'' {
        ScanDoubled(tail);
        assert Escape(v) + "'" + rest == "''" + tail;
      } else {
        ScanPlain(v[0], tail);
        assert Escape(v) + "'" + rest == [v[0]] + tail;
      }
    } else {
      ScanEnds(rest);
      assert Escape(v) + "'" + rest == "'" + rest;
    }
  }

  lemma {:induction false} WordEnds(w: string, rest: string)
    requires forall i :: 0 <= i < |w| ==> IsWordChar(w[i])
    requires |rest| > 0 && !IsWordChar(rest[0])
    ensures WordLength(w + rest) == |w|
  {
    if |w| > 0 {
      assert (w + rest)[1..] == w[1..] + rest;
      WordEnds(w[1..], rest);
    } else {
      assert w + rest == rest;
    }
  }

  lemma SpaceIsSkipped(upper: string -> string, rest: string, p: nat)
    ensures Tokens(upper, " " + rest, p) == Tokens(upper, rest, p + 1)
  {
    assert (" " + rest)[1..] == rest;
  }

  lemma FirstIsString(upper: string -> string, v: string, after: string, p: nat)
    requires |after| > 0 && after[0] != '\''
    ensures First(upper, "'" + Escape(v) + "'" + after, p) == Got(Lexeme(Str, v), |Escape(v)| + 2)
  {
    var s := "'" + Escape(v) + "'" + after;
    ScanEscaped(v, after);
    hide ScanString, Escape;
    assert s[1..] == Escape(v) + "'" + after;
    assert s[0] == '\'' && !IsSpace(s[0]);
  }

  lemma StringBack(upper: string -> string, v: string, after: string, p: nat)
    requires |after| > 0 && after[0] != '\''
    ensures Tokens(upper, "'" + Escape(v) + "'" + after, p)
         == Prepend(Token(Lexeme(Str, v), p), Tokens(upper, after, p + |Escape(v)| + 2))
  {
    hide First, Escape, Tokens;
    var quoted := "'" + Escape(v) + "'";
    FirstIsString(upper, v, after, p);
    TokensGot(upper, quoted + after, p, Lexeme(Str, v), |quoted|);
    DropFirst(quoted, after);
  }

  lemma TokensGot(upper: string -> string, s: string, p: nat, l: Lexeme, n: nat)
    requires |s| > 0 && First(upper, s, p) == Got(l, n)
    ensures Tokens(upper, s, p) == Prepend(Token(l, p), Tokens(upper, s[n..], p + n))
  {
    hide First;
  }

  lemma DropFirst(a: string, b: string)
    ensures (a + b)[|a|..] == b && (a + b)[..|a|] == a
  {
  }

  lemma WordBack(upper: string -> string, w: string, after: string, p: nat)
    requires IsWord(w) && |after| > 0 && IsSpace(after[0])
    ensures Tokens(upper, w + after, p) == Prepend(Token(WordLexeme(upper, w), p), Tokens(upper, after, p + |w|))
  {
    var s := w + after;
    WordEnds(w, after);
    assert IsWordChar(s[0]) by { assert s[0] == w[0]; }
    assert s[..|w|] == w && s[|w|..] == after;
  }

  lemma OperatorBack(upper: string -> string, o: string, after: string, p: nat)
    requires o in OPERATORS && |after| > 0 && IsSpace(after[0])
    ensures Tokens(upper, o + after, p) == Prepend(Token(Lexeme(Operator, o), p), Tokens(upper, after, p + |o|))
  {
    var s := o + after;
    assert s[..|o|] == o && s[|o|..] == after;
    assert |o| == 1 ==> s[1] == after[0];
  }

  lemma PunctuationBack(upper: string -> string, c: char, after: string, p: nat)
    requires c == ',' || c == '(' || c == ')' || c == '*'
    ensures Tokens(upper, [c] + after, p) == Prepend(Token(Lexeme(Punctuation(c), [c]), p), Tokens(upper, after, p + 1))
  {
    assert ([c] + after)[1..] == after;
  }

  /** One printed lexeme is read back as one token, whatever follows it. */
  lemma OneTokenBack(upper: string -> string, l: Lexeme, rest: string, p: nat)
    requires Printable(upper, l)
    ensures Tokens(upper, Spelling(l) + " " + rest, p)
        == Prepend(Token(l, p), Tokens(upper, rest, p + |Spelling(l)| + 1))
  {
    hide Tokens, Escape, IsWord;
    var after := " " + rest;
    SpaceIsSkipped(upper, rest, p + |Spelling(l)|);
    assert Spelling(l) + " " + rest == Spelling(l) + after;
    match l.kind {
      case Str =>
        StringBack(upper, l.value, after, p);
        assert Spelling(l) + after == "'" + Escape(l.value) + "'" + after;
      case Operator => OperatorBack(upper, l.value, after, p);
      case Keyword => WordBack(upper, l.value, after, p);
      case Word => WordBack(upper, l.value, after, p);
      case _ => PunctuationBack(upper, l.value[0], after, p);
    }
  }

  /** Tokenizing printed lexemes gives the lexemes back. */
  lemma {:induction false} TokensOfRender(upper: string -> string, ls: seq<Lexeme>, p: nat)
    requires forall i :: 0 <= i < |ls| ==> Printable(upper, ls[i])
    ensures Tokens(upper, Render(ls), p).Ok? && Lexemes(Tokens(upper, Render(ls), p).value) == ls
    decreases |ls|
  {
    hide Printable, Tokens, Spelling;
    if |ls| > 0 {
      var q := p + |Spelling(ls[0])| + 1;
      OneTokenBack(upper, ls[0], Render(ls[1..]), p);
      TokensOfRender(upper, ls[1..], q);
      assert ls == [ls[0]] + ls[1..];
    } else {
      NoTokens(upper, p);
    }
  }

  lemma NoTokens(upper: string -> string, p: nat)
    ensures Tokens(upper, "", p) == Ok([])
  {
  }

  /* ---- The loop ---- */

  function Appended(done: seq<Token>, rest: Result<seq<Token>, Error>): Result<seq<Token>, Error> {
    match rest
    case Ok(ts) => Ok(done + ts)
    case Err(e) => Err(e)
  }

  lemma AppendNext(tokens: seq<Token>, t: Token, rest: Result<seq<Token>, Error>)
    ensures Appended(tokens, Prepend(t, rest)) == Appended(tokens + [t], rest)
  {
    assert rest.Ok? ==> tokens + ([t] + rest.value) == (tokens + [t]) + rest.value;
  }

  lemma SliceRest(source: string, index: nat, n: nat)
    requires index + n <= |source|
    ensures source[index..][n..] == source[index + n..] && source[index..][..n] == source[index..index + n]
  {
  }

  /** The loop body: what the source holds at `index`, and where to go on. */
  method Lex(upper: string -> string, source: string, index: nat) returns (r: Lexed)
    requires index < |source|
    ensures r == First(upper, source[index..], index)
  {
    hide ScanString, WordLength, WordLexeme, Punctuation, IsSpace, StartsOperator;
    var c := source[index];
    assert source[index..][0] == c;
    if IsSpace(c) { return Space; }
    if c == '\'' {
      SliceRest(source, index, 1);
      var value, length := ReadString(source, index + 1);
      return if length == 0 then Bad(UnterminatedString(index)) else Got(Lexeme(Str, value), 1 + length);
    }
    if c == ',' || c == '(' || c == ')' || c == '*' { return Got(Lexeme(Punctuation(c), [c]), 1); }
    if StartsOperator(c) {
      var end := index + 1;
      if end < |source| && source[end] == '=' { end := end + 1; }
      SliceRest(source, index, end - index);
      return if source[index..end] in OPERATORS then Got(Lexeme(Operator, source[index..end]), end - index)
          else Bad(InvalidOperator(index));
    }
    var end := ReadWord(source, index);
    SliceRest(source, index, end - index);
    return if end == index then Bad(UnexpectedCharacter(index))
        else Got(WordLexeme(upper, source[index..end]), end - index);
  }

  method Tokenize(upper: string -> string, source: string) returns (r: Result<seq<Token>, Error>)
    ensures r == Tokens(upper, source, 0)
  {
    hide First, Appended, Prepend;
    var tokens: seq<Token> := [];
    var index := 0;
    assert source[0..] == source;
    AppendedNothing(Tokens(upper, source, 0));
    while index < |source|
      invariant index <= |source|
      invariant Tokens(upper, source, 0) == Appended(tokens, Tokens(upper, source[index..], index))
    {
      var next := Lex(upper, source, index);
      match next {
        case Space =>
          SliceRest(source, index, 1);
          index := index + 1;
        case Got(l, n) =>
          SliceRest(source, index, n);
          AppendNext(tokens, Token(l, index), Tokens(upper, source[index + n..], index + n));
          tokens, index := tokens + [Token(l, index)], index + n;
        case Bad(e) =>
          AppendedError(tokens, e);
          return Err(e);
      }
    }
    NoTokens(upper, index);
    assert source[index..] == "";
    AppendedAll(tokens);
    r := Ok(tokens);
  }

  lemma AppendedError(tokens: seq<Token>, e: Error)
    ensures Appended(tokens, Err(e)) == Err(e)
  {
  }

  lemma AppendedAll(tokens: seq<Token>)
    ensures Appended(tokens, Ok([])) == Ok(tokens)
  {
    assert tokens + [] == tokens;
  }

  lemma AppendedNothing(r: Result<seq<Token>, Error>)
    ensures Appended([], r) == r
  {
    assert r.Ok? ==> [] + r.value == r.value;
  }

  /** The literal from past its opening quote; length 0 when it does not end. */
  method ReadString(source: string, start: nat) returns (value: string, length: nat)
    requires start <= |source|
    ensures match ScanString(source[start..])
      case Unterminated => length == 0
      case Scanned(v, n) => value == v && length == n
  {
    var index := start;
    value := "";
    hide ScanString;
    ContinueNothing(ScanString(source[start..]));
    while index < |source|
      invariant start <= index <= |source|
      invariant ScanString(source[start..]) == Continue(value, index - start, ScanString(source[index..]))
    {
      if source[index] != '\'' {
        ScanPlain(source[index], source[index + 1..]);
        assert source[index..] == [source[index]] + source[index + 1..];
        ContinueOn(value, index - start, [source[index]], 1, ScanString(source[index + 1..]));
        value := value + [source[index]];
        index := index + 1;
        continue;
      }
      if index + 1 < |source| && source[index + 1] == '\'' {
        ScanDoubled(source[index + 2..]);
        assert source[index..] == "''" + source[index + 2..];
        ContinueOn(value, index - start, "'", 2, ScanString(source[index + 2..]));
        value := value + "'";
        index := index + 2;
        continue;
      }
      ScanEnds(source[index + 1..]);
      assert source[index..] == "'" + source[index + 1..];
      assert value + "" == value;
      return value, index + 1 - start;
    }
    ScanRunsOut();
    assert source[index..] == "";
    length := 0;
  }

  lemma ScanRunsOut()
    ensures ScanString("") == Unterminated
  {
  }

  lemma ContinueNothing(rest: Scan)
    ensures Continue("", 0, rest) == rest
  {
    assert rest.Scanned? ==> "" + rest.value == rest.value;
  }

  lemma ContinueOn(value: string, length: nat, more: string, n: nat, rest: Scan)
    ensures Continue(value, length, Continue(more, n, rest)) == Continue(value + more, length + n, rest)
  {
    assert rest.Scanned? ==> value + (more + rest.value) == (value + more) + rest.value;
  }

  function Continue(value: string, length: nat, rest: Scan): Scan {
    match rest
    case Unterminated => Unterminated
    case Scanned(v, n) => Scanned(value + v, length + n)
  }

  method ReadWord(source: string, start: nat) returns (index: nat)
    requires start <= |source|
    ensures index <= |source| && index - start == WordLength(source[start..])
  {
    index := start;
    while index < |source| && IsWordChar(source[index])
      invariant start <= index <= |source|
      invariant WordLength(source[start..]) == index - start + WordLength(source[index..])
    {
      index := index + 1;
    }
  }
}
