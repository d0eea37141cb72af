/** What SOQL text means, said without tokenizing or parsing it: which texts spell which lexemes, and
    which lexemes write which query. */
module SoqlGrammar {
  import opened Wrappers
  import opened SoqlTokens
  import opened SoqlParser

  /* ---- Numbers ---- */

  predicate AreDigits(s: string) { forall i :: 0 <= i < |s| ==> IsDigit(s[i]) }

  predicate IsSign(s: string) { s == "" || s == "-" }

  /** Nothing, or a point and any digits. */
  predicate IsFraction(s: string) { s == "" || (s[0] == '.' && AreDigits(s[1..])) }

  predicate IsPower(s: string) {
    s == ""
    || (|s| > 1 && (s[0] == 'e' || s[0] == 'E') && AreDigits(s[1..]))
    || (|s| > 2 && (s[0] == 'e' || s[0] == 'E') && (s[1] == '+' || s[1] == '-') && AreDigits(s[2..]))
  }

  /** The parts of a number; there is a digit before the exponent. */
  predicate AreParts(s: string, sign: string, whole: string, fraction: string, power: string) {
    && s == sign + (whole + (fraction + power))
    && IsSign(sign) && AreDigits(whole) && IsFraction(fraction) && IsPower(power)
    && (|whole| > 0 || |fraction| > 1)
  }

  ghost predicate IsNumber(s: string) {
    exists sign, whole, fraction, power :: AreParts(s, sign, whole, fraction, power)
  }

  function Power(n: nat): nat { if n == 0 then 1 else 10 * Power(n - 1) }

  /** Digits by their places. */
  function Worth(s: string): nat
    requires AreDigits(s)
  {
    if |s| == 0 then 0 else (s[0] as int - '0' as int) * Power(|s| - 1) + Worth(s[1..])
  }

  predicate IsWhole(s: string, n: int) {
    if |s| > 0 && s[0] == '-' then |s| > 1 && AreDigits(s[1..]) && n == 0 - Worth(s[1..])
    else |s| > 0 && AreDigits(s) && n == Worth(s)
  }

  lemma {:induction false} DigitsStop(digits: string, rest: string)
    requires AreDigits(digits) && (|rest| > 0 ==> !IsDigit(rest[0]))
    ensures DigitCount(digits + rest) == |digits|
  {
    if |digits| > 0 {
      assert (digits + rest)[1..] == digits[1..] + rest;
      DigitsStop(digits[1..], rest);
    } else {
      assert digits + rest == rest;
    }
  }

  lemma {:induction false} DigitsEnd(s: string)
    ensures DigitCount(s) < |s| ==> !IsDigit(s[DigitCount(s)])
  {
    if |s| > 0 && IsDigit(s[0]) { DigitsEnd(s[1..]); }
  }

  lemma DigitsSplit(s: string)
    ensures var n := DigitCount(s); AreDigits(s[..n]) && (n < |s| ==> !IsDigit(s[n]))
  {
    DigitsEnd(s);
  }

  lemma PowerIsExponent(s: string)
    ensures IsPower(s) <==> IsExponent(s)
  {
    if |s| > 1 {
      DigitsSplit(s[1..]);
      if AreDigits(s[1..]) { AllDigits(s[1..]); }
      if |s| > 2 {
        DigitsSplit(s[2..]);
        if AreDigits(s[2..]) { AllDigits(s[2..]); }
      }
    }
  }

  lemma PowerStarts(s: string)
    requires IsPower(s)
    ensures |s| > 0 ==> !IsDigit(s[0]) && s[0] != '-' && s[0] != '.'
  {
  }

  lemma FractionBack(u: string, fraction: string, power: string)
    requires u == fraction + power && IsFraction(fraction) && IsPower(power)
    ensures if |u| > 0 && u[0] == '.' then |fraction| == 1 + DigitCount(u[1..])
              && IsExponent(u[1 + DigitCount(u[1..])..])
            else |fraction| == 0 && IsExponent(u)
    ensures |u| > 0 ==> !IsDigit(u[0]) && u[0] != '-'
  {
    hide DigitCount, IsExponent, IsPower;
    PowerIsExponent(power);
    PowerStarts(power);
    if |fraction| > 0 {
      DigitsStop(fraction[1..], power);
      assert u[1..] == fraction[1..] + power;
      assert u[1 + |fraction[1..]|..] == power;
    } else {
      assert u == power;
    }
  }

  /** The parts of what follows the sign, found by counting digits. */
  lemma PartsOf(t: string, whole: string, fraction: string, power: string)
    requires t == whole + (fraction + power)
    requires AreDigits(whole) && IsFraction(fraction) && IsPower(power) && (|whole| > 0 || |fraction| > 1)
    ensures IsNumeric("-" + t) && (t[0] != '-' ==> IsNumeric(t)) && t[0] != '-'
  {
    hide DigitCount, IsExponent, IsPower, IsFraction;
    var u := fraction + power;
    FractionBack(u, fraction, power);
    DigitsStop(whole, u);
    assert t[|whole|..] == u;
    assert ("-" + t)[1..] == t;
    if |whole| == 0 { assert t == u; }
  }

  lemma NumberIsNumeric(s: string)
    requires IsNumber(s)
    ensures IsNumeric(s)
  {
    var sign, whole, fraction, power :| AreParts(s, sign, whole, fraction, power);
    PartsOf(whole + (fraction + power), whole, fraction, power);
    hide IsNumeric;
    assert "" + (whole + (fraction + power)) == whole + (fraction + power);
  }

  lemma NumericHasParts(s: string) returns (sign: string, whole: string, fraction: string, power: string)
    requires IsNumeric(s)
    ensures AreParts(s, sign, whole, fraction, power)
  {
    hide IsExponent, DigitCount, IsFraction, IsPower, IsNumeric, AreDigits;
    sign := if |s| > 0 && s[0] == '-' then "-" else "";
    var t := s[|sign|..];
    var n := DigitCount(t);
    UnsignedIsNumeric(s, sign, t);
    DigitsSplit(t);
    whole := t[..n];
    fraction, power := FractionAndPower(t[n..]);
    assert whole + (fraction + power) == t;
    assert s == sign + t;
  }

  /** What counts digits after the sign. */
  lemma UnsignedIsNumeric(s: string, sign: string, t: string)
    requires sign == (if |s| > 0 && s[0] == '-' then "-" else "") && t == s[|sign|..] && IsNumeric(s)
    ensures var n := DigitCount(t); var u := t[n..];
      && (if |u| > 0 && u[0] == '.' then IsExponent(u[1 + DigitCount(u[1..])..]) else IsExponent(u))
      && (n > 0 || (|u| > 0 && u[0] == '.' && DigitCount(u[1..]) > 0))
  {
    hide IsExponent;
    assert DigitCount(t) == 0 ==> t[DigitCount(t)..] == t;
  }

  lemma FractionAndPower(u: string) returns (fraction: string, power: string)
    requires if |u| > 0 && u[0] == '.' then IsExponent(u[1 + DigitCount(u[1..])..]) else IsExponent(u)
    ensures u == fraction + power && IsFraction(fraction) && IsPower(power)
    ensures |u| > 0 && u[0] == '.' ==> |fraction| == 1 + DigitCount(u[1..])
  {
    hide IsExponent, DigitCount, IsPower;
    if |u| > 0 && u[0] == '.' {
      var m := 1 + DigitCount(u[1..]);
      DigitsSplit(u[1..]);
      fraction, power := u[..m], u[m..];
      assert fraction[1..] == u[1..][..m - 1];
    } else {
      fraction, power := "", u;
    }
    PowerIsExponent(power);
  }

  lemma NumericExactly(s: string)
    ensures IsNumeric(s) <==> IsNumber(s)
  {
    hide IsNumeric, AreParts;
    if IsNumeric(s) { var sign, whole, fraction, power := NumericHasParts(s); }
    if IsNumber(s) { NumberIsNumeric(s); }
  }

  lemma {:induction false} WorthAppend(s: string, c: char)
    requires AreDigits(s) && IsDigit(c)
    ensures Worth(s + [c]) == 10 * Worth(s) + (c as int - '0' as int)
  {
    var t := s + [c];
    if |s| > 0 {
      assert t[1..] == s[1..] + [c];
      WorthAppend(s[1..], c);
      var v, p := s[0] as int - '0' as int, Power(|s| - 1);
      assert Power(|s|) == 10 * p;
      assert v * (10 * p) == 10 * (v * p);
    } else {
      assert t[1..] == "";
    }
  }

  lemma {:induction false} ParseNatIsWorth(s: string)
    requires AreDigits(s)
    ensures ParseNat(s) == Worth(s)
  {
    if |s| > 0 {
      ParseNatIsWorth(s[..|s| - 1]);
      WorthAppend(s[..|s| - 1], s[|s| - 1]);
      assert s == s[..|s| - 1] + [s[|s| - 1]];
    }
  }

  lemma DigitsAreWhole(digits: string)
    requires |digits| > 0 && AreDigits(digits)
    ensures IsNumeric(digits) && !HasMarker(digits) && ParseInt(digits) == Worth(digits)
    ensures IsNumeric("-" + digits) && !HasMarker("-" + digits) && ParseInt("-" + digits) == 0 - Worth(digits)
  {
    hide IsNumeric, ParseInt, ParseNat, Worth;
    DigitsAreNumeric(digits);
    ParsesDigits(digits);
    ParseNatIsWorth(digits);
    SignedDigits(digits);
    SignedDigits("-" + digits);
  }

  lemma PartsShow(s: string, sign: string, whole: string, fraction: string, power: string)
    requires AreParts(s, sign, whole, fraction, power)
    ensures |fraction| > 0 || |power| > 0 ==> HasMarker(s)
  {
    var i := |sign| + |whole|;
    assert |fraction| > 0 ==> s[i] == fraction[0];
    assert |power| > 0 ==> s[i + |fraction|] == power[0];
  }

  lemma UnmarkedIsWhole(s: string) returns (digits: string)
    requires IsNumeric(s) && !HasMarker(s)
    ensures |digits| > 0 && AreDigits(digits) && (s == digits || s == "-" + digits)
  {
    hide IsNumeric;
    var sign, whole, fraction, power := NumericHasParts(s);
    PartsShow(s, sign, whole, fraction, power);
    assert whole + ("" + "") == whole && "" + whole == whole;
    digits := whole;
  }

  lemma WholeExactly(s: string, n: int)
    ensures IsNumeric(s) && !HasMarker(s) && ParseInt(s) == n <==> IsWhole(s, n)
  {
    hide IsNumeric, ParseInt, HasMarker, Worth;
    if IsNumeric(s) && !HasMarker(s) {
      var digits := UnmarkedIsWhole(s);
      DigitsAreWhole(digits);
      assert s == "-" + digits ==> s[1..] == digits;
    }
    if IsWhole(s, n) {
      if s[0] == '-' {
        assert s == "-" + s[1..];
        DigitsAreWhole(s[1..]);
      } else {
        DigitsAreWhole(s);
      }
    }
  }

  /* ---- Which text spells which lexemes ---- */

  /** A space or a character that is never part of a word. */
  predicate IsBreak(c: char) { IsSpace(c) || c in "',()*<>=!" }

  predicate IsUnbroken(s: string) { |s| > 0 && forall i :: 0 <= i < |s| ==> !IsBreak(s[i]) }

  predicate IsOperator(s: string) { s == "=" || s == "!=" || s == "<" || s == "<=" || s == ">" || s == ">=" }

  lemma BreakEndsWord(c: char)
    ensures IsWordChar(c) <==> !IsBreak(c)
  {
    hide IsSpace;
    var d := "',()*<>=!";
    assert d[0] == '\'' && d[1] == ',' && d[2] == '(' && d[3] == ')' && d[4] == '*';
    assert d[5] == '<' && d[6] == '>' && d[7] == '=' && d[8] == '!' && |d| == 9;
  }

  lemma WordIsUnbroken(s: string)
    ensures IsWord(s) <==> IsUnbroken(s)
  {
    forall i | 0 <= i < |s| ensures IsWordChar(s[i]) <==> !IsBreak(s[i]) { BreakEndsWord(s[i]); }
    hide IsWordChar, IsBreak;
  }

  lemma OperatorsAre(s: string)
    ensures s in OPERATORS <==> IsOperator(s)
  {
  }

  /** The texts of one lexeme: a keyword in any letters that upper-case to it. */
  predicate IsSpelling(upper: string -> string, text: string, l: Lexeme) {
    match l.kind
    case Str => text == "'" + Escape(l.value) + "'"
    case Comma => text == "," == l.value
    case LParen => text == "(" == l.value
    case RParen => text == ")" == l.value
    case Star => text == "*" == l.value
    case Operator => IsOperator(text) && l.value == text
    case Keyword => IsUnbroken(text) && upper(text) in KEYWORDS && l.value == upper(text)
    case Word => IsUnbroken(text) && upper(text) !in KEYWORDS && l.value == text
  }

  /** The lexeme ends before `rest`: a word before a space or delimiter, a string not before a quote, a
      one-character operator not before "=". */
  predicate EndsBefore(text: string, l: Lexeme, rest: string) {
    |rest| > 0 ==>
      match l.kind
      case Str => rest[0] != '\''
      case Operator => |text| > 1 || rest[0] != '='
      case Keyword => IsBreak(rest[0])
      case Word => IsBreak(rest[0])
      case _ => true
  }

  predicate StartsWith(upper: string -> string, s: string, n: nat, l: Lexeme) {
    n <= |s| && IsSpelling(upper, s[..n], l) && EndsBefore(s[..n], l, s[n..])
  }

  /** The lexemes one after another, spaces wherever one likes and where they are needed. */
  ghost predicate Spelled(upper: string -> string, s: string, ls: seq<Lexeme>)
    decreases |s|
  {
    if |s| == 0 then ls == []
    else if IsSpace(s[0]) then Spelled(upper, s[1..], ls)
    else
      |ls| > 0
      && exists n: nat :: 0 < n <= |s| && StartsWith(upper, s, n, ls[0]) && Spelled(upper, s[n..], ls[1..])
  }

  lemma EscapeNext(c: char, v: string)
    ensures Escape([c] + v) == (if c == '\'' then "''" else [c]) + Escape(v)
  {
    assert ([c] + v)[1..] == v;
  }

  lemma ScanStarts(s: string)
    requires ScanString(s).Scanned?
    ensures |s| > 0
    ensures s[0] == '\'' && !(|s| > 1 && s[1] == '\'') ==> ScanString(s) == Scanned("", 1)
  {
  }

  /** What is read of a string literal is its value escaped, and a quote that no other follows. */
  lemma {:induction false} ScanHolds(s: string)
    requires ScanString(s).Scanned?
    ensures var r := ScanString(s);
      r.length <= |s| && s[..r.length] == Escape(r.value) + "'" && (r.length < |s| ==> s[r.length] != '\'')
    decreases |s|
  {
    hide ScanString, Escape;
    ScanStarts(s);
    if s[0] != '\'' {
      var tail := s[1..];
      assert s == [s[0]] + tail;
      ScanPlain(s[0], tail);
      ScanHolds(tail);
      EscapeNext(s[0], ScanString(tail).value);
      assert s[..1 + ScanString(tail).length] == [s[0]] + tail[..ScanString(tail).length];
    } else if |s| > 1 && s[1] == '\'' {
      var tail := s[2..];
      assert s == "''" + tail;
      ScanDoubled(tail);
      ScanHolds(tail);
      EscapeNext('\'', ScanString(tail).value);
      assert s[..2 + ScanString(tail).length] == "''" + tail[..ScanString(tail).length];
    } else {
      assert s[..1] == "'" && Escape("") == "" by { EscapeNothing(); }
    }
  }

  lemma EscapeNothing()
    ensures Escape("") == ""
  {
  }

  lemma {:induction false} WordHolds(s: string)
    ensures var n := WordLength(s);
      (forall i :: 0 <= i < n ==> IsWordChar(s[i])) && (n < |s| ==> !IsWordChar(s[n]))
  {
    if |s| > 0 && IsWordChar(s[0]) { WordHolds(s[1..]); }
  }

  lemma {:induction false} WordStops(s: string, n: nat)
    requires n <= |s| && (forall i :: 0 <= i < n ==> IsWordChar(s[i])) && (n < |s| ==> !IsWordChar(s[n]))
    ensures WordLength(s) == n
  {
    if n > 0 { WordStops(s[1..], n - 1); }
  }

  lemma FirstOfQuote(upper: string -> string, s: string, p: nat)
    requires |s| > 0 && s[0] == '\''
    ensures First(upper, s, p) == match ScanString(s[1..])
      case Unterminated => Bad(UnterminatedString(p))
      case Scanned(value, length) => Got(Lexeme(Str, value), 1 + length)
  {
    hide ScanString;
  }

  lemma StringStarts(upper: string -> string, s: string, p: nat, n: nat, l: Lexeme)
    requires |s| > 0 && s[0] == '\'' && l.kind.Str?
    ensures First(upper, s, p) == Got(l, n) <==> StartsWith(upper, s, n, l)
  {
    hide ScanString, Escape, First;
    FirstOfQuote(upper, s, p);
    var t := s[1..];
    if First(upper, s, p) == Got(l, n) {
      ScanHolds(t);
      assert s[..n] == "'" + t[..n - 1] && s[n..] == t[n - 1..];
      assert "'" + (Escape(l.value) + "'") == "'" + Escape(l.value) + "'";
    }
    if StartsWith(upper, s, n, l) { QuotedIsScanned(s, n, l.value); }
  }

  lemma QuotedIsScanned(s: string, n: nat, v: string)
    requires n <= |s| && s[..n] == "'" + Escape(v) + "'" && (n < |s| ==> s[n] != '\'')
    ensures ScanString(s[1..]) == Scanned(v, n - 1)
  {
    hide ScanString, Escape;
    var after := s[n..];
    assert s == s[..n] + after;
    assert s[1..] == Escape(v) + "'" + after;
    assert |s[..n]| == |Escape(v)| + 2;
    ScanEscaped(v, after);
  }

  lemma WordStarts(upper: string -> string, s: string, p: nat, n: nat, l: Lexeme)
    requires |s| > 0 && !IsSpace(s[0]) && !IsDelimiter(s[0]) && (l.kind.Word? || l.kind.Keyword?)
    ensures First(upper, s, p) == Got(l, n) <==> 0 < n && StartsWith(upper, s, n, l)
  {
    WordHolds(s);
    if n <= |s| {
      WordIsUnbroken(s[..n]);
      if n < |s| { BreakEndsWord(s[n]); }
    }
    if 0 < n && StartsWith(upper, s, n, l) {
      assert forall i :: 0 <= i < n ==> s[..n][i] == s[i];
      WordStops(s, n);
    }
    hide IsBreak, IsUnbroken;
  }

  lemma OperatorStarts(upper: string -> string, s: string, p: nat, n: nat, l: Lexeme)
    requires |s| > 0 && StartsOperator(s[0]) && l.kind.Operator?
    ensures First(upper, s, p) == Got(l, n) <==> 0 < n && StartsWith(upper, s, n, l)
  {
    hide IsSpace, IsOperator, ScanString, WordLength, WordLexeme;
    FirstOfOperator(upper, s, p);
    hide First;
    OperatorsAre(s[..OperatorLength(s)]);
    if 0 < n && StartsWith(upper, s, n, l) { OperatorIsLong(s, n); }
  }

  lemma FirstOfOperator(upper: string -> string, s: string, p: nat)
    requires |s| > 0 && StartsOperator(s[0])
    ensures var n := OperatorLength(s);
      First(upper, s, p) == if s[..n] in OPERATORS then Got(Lexeme(Operator, s[..n]), n) else Bad(InvalidOperator(p))
  {
    hide ScanString, WordLength, WordLexeme;
  }

  lemma OperatorIsLong(s: string, n: nat)
    requires 0 < n <= |s| && IsOperator(s[..n]) && (n == 1 && |s| > 1 ==> s[1] != '=')
    ensures n == OperatorLength(s)
  {
    var o := s[..n];
    assert |o| == n && (n > 1 ==> o[1] == s[1]);
  }

  /** The kinds a character can start. */
  predicate CanStart(c: char, k: Kind) {
    match k
    case Str => c == '\''
    case Comma => c == ','
    case LParen => c == '('
    case RParen => c == ')'
    case Star => c == '*'
    case Operator => StartsOperator(c)
    case Keyword => IsWordChar(c)
    case Word => IsWordChar(c)
  }

  lemma SpellingStarts(upper: string -> string, s: string, n: nat, l: Lexeme)
    requires StartsWith(upper, s, n, l)
    ensures 0 < n && CanStart(s[0], l.kind)
  {
    var text := s[..n];
    hide IsSpace;
    assert |text| > 0 && text[0] == s[0];
    BreakEndsWord(s[0]);
    hide IsBreak;
  }

  lemma GotStarts(upper: string -> string, s: string, p: nat)
    requires |s| > 0 && First(upper, s, p).Got?
    ensures CanStart(s[0], First(upper, s, p).lexeme.kind)
  {
    hide ScanString;
    WordHolds(s);
  }

  lemma PunctuationStarts(upper: string -> string, s: string, p: nat, n: nat, l: Lexeme)
    requires |s| > 0 && (l.kind.Comma? || l.kind.LParen? || l.kind.RParen? || l.kind.Star?)
    ensures First(upper, s, p) == Got(l, n) <==> 0 < n && StartsWith(upper, s, n, l)
  {
    hide ScanString, OperatorLength, WordLexeme, WordLength;
    assert s[..1] == [s[0]];
    if First(upper, s, p) == Got(l, n) {
      GotStarts(upper, s, p);
      assert n == 1 && l.value == [s[0]];
    }
    if StartsWith(upper, s, n, l) { assert s[..n] == l.value && s[0] == l.value[0]; }
  }

  /** What the tokenizer takes off a text is exactly what the text starts with. */
  lemma FirstExactly(upper: string -> string, s: string, p: nat, n: nat, l: Lexeme)
    requires |s| > 0 && !IsSpace(s[0])
    ensures First(upper, s, p) == Got(l, n) <==> StartsWith(upper, s, n, l)
  {
    if First(upper, s, p) == Got(l, n) { GotStarts(upper, s, p); }
    if StartsWith(upper, s, n, l) { SpellingStarts(upper, s, n, l); }
    if CanStart(s[0], l.kind) {
      match l.kind
      case Str => StringStarts(upper, s, p, n, l);
      case Operator => OperatorStarts(upper, s, p, n, l);
      case Keyword => WordStarts(upper, s, p, n, l);
      case Word => WordStarts(upper, s, p, n, l);
      case _ => PunctuationStarts(upper, s, p, n, l);
    }
    hide First, StartsWith, IsSpace;
  }

  lemma {:induction false} TokensAreSpelled(upper: string -> string, s: string, p: nat)
    requires Tokens(upper, s, p).Ok?
    ensures Spelled(upper, s, Lexemes(Tokens(upper, s, p).value))
    decreases |s|
  {
    hide First, StartsWith, IsSpace;
    if |s| > 0 {
      var ts := Tokens(upper, s, p).value;
      match First(upper, s, p)
      case Space =>
        SpacesLead(upper, s, p);
        TokensAreSpelled(upper, s[1..], p + 1);
      case Got(l, n) =>
        SpacesLead(upper, s, p);
        FirstExactly(upper, s, p, n, l);
        TokensAreSpelled(upper, s[n..], p + n);
        assert Lexemes(ts)[1..] == Lexemes(Tokens(upper, s[n..], p + n).value);
    }
  }

  lemma SpacesLead(upper: string -> string, s: string, p: nat)
    requires |s| > 0
    ensures First(upper, s, p).Space? <==> IsSpace(s[0])
  {
    hide ScanString, WordLength, IsSpace;
  }

  lemma {:induction false} SpelledIsTokenized(upper: string -> string, s: string, ls: seq<Lexeme>, p: nat)
    requires Spelled(upper, s, ls)
    ensures Tokens(upper, s, p).Ok? && Lexemes(Tokens(upper, s, p).value) == ls
    decreases |s|
  {
    hide First, StartsWith, IsSpace;
    if |s| > 0 {
      SpacesLead(upper, s, p);
      if IsSpace(s[0]) {
        SpelledIsTokenized(upper, s[1..], ls, p + 1);
      } else {
        var n: nat :| 0 < n <= |s| && StartsWith(upper, s, n, ls[0]) && Spelled(upper, s[n..], ls[1..]);
        FirstExactly(upper, s, p, n, ls[0]);
        SpelledIsTokenized(upper, s[n..], ls[1..], p + n);
        assert ls == [ls[0]] + ls[1..];
      }
    }
  }

  /** The tokens of a text are the lexemes it spells: it has tokens if and only if it spells any. */
  lemma TokensExactly(upper: string -> string, s: string, ls: seq<Lexeme>)
    ensures Spelled(upper, s, ls) <==>
      Tokens(upper, s, 0).Ok? && Lexemes(Tokens(upper, s, 0).value) == ls
  {
    hide Spelled, Tokens;
    if Tokens(upper, s, 0).Ok? { TokensAreSpelled(upper, s, 0); }
    if Spelled(upper, s, ls) { SpelledIsTokenized(upper, s, ls, 0); }
  }

  /* ---- Which lexemes write which query ---- */

  function W(s: string): Lexeme { Lexeme(Word, s) }
  function K(s: string): Lexeme { Lexeme(Keyword, s) }
  const COMMA := Lexeme(Comma, ",")
  const STAR := Lexeme(Star, "*")
  const LPAREN := Lexeme(LParen, "(")
  const RPAREN := Lexeme(RParen, ")")

  predicate IsConstant(s: string) { s == "NULL" || s == "TRUE" || s == "FALSE" }

  /** What a word outside quotes means: a constant in any letters, a number, or itself. */
  ghost predicate IsWordFor(upper: string -> string, word: string, v: Literal) {
    match v
    case Null => upper(word) == "NULL"
    case Boolean(b) => upper(word) == if b then "TRUE" else "FALSE"
    case Number(n) => !IsConstant(upper(word)) && IsWhole(word, n)
    case Float(text) => !IsConstant(upper(word)) && text == word && IsNumber(word) && HasMarker(word)
    case Text(text) => !IsConstant(upper(word)) && text == word && !IsNumber(word)
  }

  ghost predicate IsLiteral(upper: string -> string, l: Lexeme, v: Literal) {
    if l.kind.Str? then v == Text(l.value) else l.kind.Word? && IsWordFor(upper, l.value, v)
  }

  function MoreFieldLexemes(fields: seq<string>): seq<Lexeme> {
    if |fields| == 0 then [] else [COMMA, W(fields[0])] + MoreFieldLexemes(fields[1..])
  }

  predicate AreFields(a: seq<Lexeme>, fields: seq<string>) {
    || (a == [STAR] && fields == ["*"])
    || (|fields| > 0 && a == [W(fields[0])] + MoreFieldLexemes(fields[1..]))
  }

  ghost predicate AreMoreValues(upper: string -> string, a: seq<Lexeme>, values: seq<Literal>) {
    if |values| == 0 then a == []
    else |a| >= 2 && a[0] == COMMA && IsLiteral(upper, a[1], values[0]) && AreMoreValues(upper, a[2..], values[1..])
  }

  ghost predicate IsPredicate(upper: string -> string, a: seq<Lexeme>, p: Predicate) {
    match p
    case Comparison(field, operator, value) =>
      && |a| == 3 && a[0] == W(field) && IsLiteral(upper, a[2], value)
      && a[1] == if operator == "LIKE" then K("LIKE") else Lexeme(Operator, operator)
    case InList(field, values) =>
      && |a| >= 5 && a[..3] == [W(field), K("IN"), LPAREN] && a[|a| - 1] == RPAREN
      && |values| > 0 && IsLiteral(upper, a[3], values[0])
      && AreMoreValues(upper, a[4..|a| - 1], values[1..])
  }

  /** Predicates after `keyword`, the others after AND. */
  ghost predicate AreChained(upper: string -> string, keyword: string, a: seq<Lexeme>, ps: seq<Predicate>)
    decreases |ps|
  {
    if |ps| == 0 then a == []
    else
      exists n: nat :: 0 < n <= |a| && a[0] == K(keyword) && IsPredicate(upper, a[1..n], ps[0])
        && AreChained(upper, "AND", a[n..], ps[1..])
  }

  /** The direction is ascending if it is left out. */
  predicate IsDirection(a: seq<Lexeme>, direction: string) {
    || (a == [] && direction == "ASC")
    || (a == [K("ASC")] && direction == "ASC")
    || (a == [K("DESC")] && direction == "DESC")
  }

  /** Nulls come last if nothing is said of them. */
  predicate AreNulls(a: seq<Lexeme>, nulls: string) {
    || (a == [] && nulls == "LAST")
    || (a == [K("NULLS"), K("LAST")] && nulls == "LAST")
    || (a == [K("NULLS"), K("FIRST")] && nulls == "FIRST")
  }

  ghost predicate IsOrder(a: seq<Lexeme>, o: Option<OrderBy>) {
    match o
    case None => a == []
    case Some(order) =>
      exists direction, nulls ::
        && a == [K("ORDER"), K("BY"), W(order.field)] + (direction + nulls)
        && IsDirection(direction, order.direction) && AreNulls(nulls, order.nulls)
  }

  ghost predicate IsCount(upper: string -> string, clause: string, a: seq<Lexeme>, n: nat) {
    |a| == 2 && a[0] == K(clause) && IsLiteral(upper, a[1], Number(n))
  }

  ghost predicate IsLimit(upper: string -> string, a: seq<Lexeme>, limit: Option<nat>) {
    match limit
    case None => a == []
    case Some(n) => IsCount(upper, "LIMIT", a, n)
  }

  /** The offset is 0 if it is left out. */
  ghost predicate IsOffset(upper: string -> string, a: seq<Lexeme>, offset: nat) {
    (a == [] && offset == 0) || IsCount(upper, "OFFSET", a, offset)
  }

  datatype Clauses = Clauses(where: seq<Lexeme>, order: seq<Lexeme>, limit: seq<Lexeme>, offset: seq<Lexeme>)

  ghost predicate AreClauses(upper: string -> string, c: Clauses, q: SelectQuery) {
    && AreChained(upper, "WHERE", c.where, q.predicates) && IsOrder(c.order, q.orderBy)
    && IsLimit(upper, c.limit, q.limit) && IsOffset(upper, c.offset, q.offset)
  }

  function Joined(c: Clauses): seq<Lexeme> { c.where + (c.order + (c.limit + c.offset)) }

  ghost predicate IsQuery(upper: string -> string, a: seq<Lexeme>, q: SelectQuery) {
    exists fields, clauses ::
      && a == [K("SELECT")] + (fields + ([K("FROM"), W(q.objectName)] + Joined(clauses)))
      && AreFields(fields, q.fields) && AreClauses(upper, clauses, q)
  }

  /** The text writes the query. */
  ghost predicate Writes(upper: string -> string, text: string, q: SelectQuery) {
    exists a :: Spelled(upper, text, a) && IsQuery(upper, a, q)
  }
}
