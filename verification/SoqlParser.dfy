/** The SOQL parser, and the printer it inverts.

    Each production is a function of the tokens left to read; the parser object advances an index over
    the same tokens. */
module SoqlParser {
  import opened Wrappers
  import opened SoqlTokens

  /** A decimal literal with a point or an exponent is kept as written; `float` of it is not modelled. */
  datatype Literal = Null | Boolean(b: bool) | Number(n: int) | Float(text: string) | Text(text: string)

  datatype Predicate =
    | Comparison(field: string, operator: string, value: Literal)
    | InList(field: string, values: seq<Literal>)
  datatype OrderBy = OrderBy(field: string, direction: string, nulls: string)
  datatype SelectQuery = SelectQuery(
    fields: seq<string>, objectName: string, predicates: seq<Predicate>,
    orderBy: Option<OrderBy>, limit: Option<nat>, offset: nat)

  /* ---- Numbers ---- */

  predicate IsDigit(c: char) { '0' <= c <= '9' }

  function DigitCount(s: string): (n: nat)
    ensures n <= |s| && forall i :: 0 <= i < n ==> IsDigit(s[i])
  {
    if |s| == 0 || !IsDigit(s[0]) then 0 else 1 + DigitCount(s[1..])
  }

  predicate IsExponent(s: string) {
    |s| == 0
    || ((s[0] == 'e' || s[0] == 'E')
        && var digits := if |s| > 1 && (s[1] == '+' || s[1] == '-') then s[2..] else s[1..];
           |digits| > 0 && DigitCount(digits) == |digits|)
  }

  /** An optional sign, digits with an optional fraction or a fraction alone, an optional exponent. */
  predicate IsNumeric(s: string) {
    var t := if |s| > 0 && s[0] == '-' then s[1..] else s;
    var n := DigitCount(t);
    if n > 0 then
      var u := t[n..];
      if |u| > 0 && u[0] == '.' then IsExponent(u[1 + DigitCount(u[1..])..]) else IsExponent(u)
    else |t| > 0 && t[0] == '.' && DigitCount(t[1..]) > 0 && IsExponent(t[1 + DigitCount(t[1..])..])
  }

  predicate HasMarker(s: string) {
    exists i :: 0 <= i < |s| && (s[i] == '.' || s[i] == 'e' || s[i] == 'E')
  }

  function DigitValue(c: char): nat
    requires IsDigit(c)
  {
    c as int - '0' as int
  }

  function ParseNat(s: string): nat
    requires forall i :: 0 <= i < |s| ==> IsDigit(s[i])
  {
    if |s| == 0 then 0 else 10 * ParseNat(s[..|s| - 1]) + DigitValue(s[|s| - 1])
  }

  /** `int` of a numeric literal without a marker. */
  function ParseInt(s: string): int {
    var negative := |s| > 0 && s[0] == '-';
    var t := if negative then s[1..] else s;
    if DigitCount(t) != |t| then 0 else if negative then 0 - ParseNat(t) else ParseNat(t)
  }

  function Digits(n: nat): (s: string)
    ensures |s| > 0 && forall i :: 0 <= i < |s| ==> IsDigit(s[i])
  {
    (if n < 10 then "" else Digits(n / 10)) + [(n % 10 + '0' as int) as char]
  }

  function Decimal(n: int): string {
    if n < 0 then "-" + Digits(-n) else Digits(n)
  }

  lemma {:induction false} AllDigits(s: string)
    requires forall i :: 0 <= i < |s| ==> IsDigit(s[i])
    ensures DigitCount(s) == |s|
  {
    if |s| > 0 { AllDigits(s[1..]); }
  }

  lemma {:induction false} DigitsBack(n: nat)
    ensures ParseNat(Digits(n)) == n
  {
    var s := Digits(n);
    assert s[|s| - 1] == (n % 10 + '0' as int) as char;
    if n >= 10 {
      DigitsBack(n / 10);
      assert s[..|s| - 1] == Digits(n / 10);
    } else {
      assert s[..|s| - 1] == "";
    }
  }

  lemma DigitsAreNumeric(digits: string)
    requires |digits| > 0 && forall i :: 0 <= i < |digits| ==> IsDigit(digits[i])
    ensures IsNumeric(digits) && IsNumeric("-" + digits)
  {
    AllDigits(digits);
    assert digits[|digits|..] == "";
    assert ("-" + digits)[1..] == digits;
  }

  lemma SignedDigits(s: string)
    requires |s| > 0 && forall i :: 0 <= i < |s| ==> s[i] == '-' || IsDigit(s[i])
    ensures !HasMarker(s) && IsWord(s)
  {
  }

  lemma ParsesDigits(digits: string)
    requires |digits| > 0 && forall i :: 0 <= i < |digits| ==> IsDigit(digits[i])
    ensures ParseInt(digits) == ParseNat(digits) && ParseInt("-" + digits) == 0 - ParseNat(digits)
  {
    AllDigits(digits);
    hide ParseNat, DigitCount;
    assert digits[0] != '-';
    assert ("-" + digits)[0] == '-' && ("-" + digits)[1..] == digits;
  }

  lemma DecimalBack(n: int)
    ensures IsNumeric(Decimal(n)) && !HasMarker(Decimal(n)) && ParseInt(Decimal(n)) == n && IsWord(Decimal(n))
  {
    hide IsNumeric, HasMarker, ParseInt, IsWord, ParseNat, Digits;
    var m: nat := if n < 0 then -n else n;
    DigitsAreNumeric(Digits(m));
    ParsesDigits(Digits(m));
    DigitsBack(m);
    SignedDigits(Decimal(n));
  }

  /* ---- The productions ---- */

  datatype Parsed<+T> = Parsed(value: T, rest: seq<Token>)

  function Is(ts: seq<Token>, l: Lexeme): bool {
    |ts| > 0 && ts[0].lexeme == l
  }

  function IsKeyword(ts: seq<Token>, k: string): bool { Is(ts, Lexeme(Keyword, k)) }
  function IsKind(ts: seq<Token>, k: Kind): bool { |ts| > 0 && ts[0].lexeme.kind == k }

  function Identifier(ts: seq<Token>): Result<Parsed<string>, Error> {
    if IsKind(ts, Word) then Ok(Parsed(ts[0].lexeme.value, ts[1..])) else Err(Expected("WORD"))
  }

  function WordLiteral(upper: string -> string, word: string): Literal {
    if upper(word) == "NULL" then Null
    else if upper(word) == "TRUE" then Boolean(true)
    else if upper(word) == "FALSE" then Boolean(false)
    else if IsNumeric(word) then (if HasMarker(word) then Float(word) else Number(ParseInt(word)))
    else Text(word)
  }

  function ParseLiteral(upper: string -> string, ts: seq<Token>): Result<Parsed<Literal>, Error> {
    if IsKind(ts, Str) then Ok(Parsed(Text(ts[0].lexeme.value), ts[1..]))
    else if IsKind(ts, Word) then Ok(Parsed(WordLiteral(upper, ts[0].lexeme.value), ts[1..]))
    else Err(Expected("literal"))
  }

  function Integer(upper: string -> string, ts: seq<Token>, clause: string): Result<Parsed<nat>, Error> {
    match ParseLiteral(upper, ts)
    case Err(e) => Err(e)
    case Ok(p) => if p.value.Number? && p.value.n >= 0 then Ok(Parsed(p.value.n, p.rest)) else Err(NotAnInteger(clause))
  }

  function MoreFields(ts: seq<Token>, fields: seq<string>): Result<Parsed<seq<string>>, Error>
    decreases |ts|
  {
    if !IsKind(ts, Comma) then Ok(Parsed(fields, ts))
    else
      match Identifier(ts[1..])
      case Err(e) => Err(e)
      case Ok(p) => MoreFields(ts[2..], fields + [p.value])
  }

  function Fields(ts: seq<Token>): Result<Parsed<seq<string>>, Error> {
    if IsKind(ts, Star) then Ok(Parsed(["*"], ts[1..]))
    else
      match Identifier(ts)
      case Err(e) => Err(e)
      case Ok(p) => MoreFields(p.rest, [p.value])
  }

  function MoreValues(upper: string -> string, ts: seq<Token>, values: seq<Literal>)
    : Result<Parsed<seq<Literal>>, Error>
    decreases |ts|
  {
    if !IsKind(ts, Comma) then Ok(Parsed(values, ts))
    else
      match ParseLiteral(upper, ts[1..])
      case Err(e) => Err(e)
      case Ok(p) => MoreValues(upper, ts[2..], values + [p.value])
  }

  function InValues(upper: string -> string, ts: seq<Token>): Result<Parsed<seq<Literal>>, Error> {
    if !IsKind(ts, LParen) then Err(Expected("LPAREN"))
    else
      match ParseLiteral(upper, ts[1..])
      case Err(e) => Err(e)
      case Ok(p) =>
        match MoreValues(upper, p.rest, [p.value])
        case Err(e) => Err(e)
        case Ok(q) => if IsKind(q.rest, RParen) then Ok(Parsed(q.value, q.rest[1..])) else Err(Expected("RPAREN"))
  }

  function Compared(upper: string -> string, field: string, operator: string,
      ts: seq<Token>): Result<Parsed<Predicate>, Error> {
    match ParseLiteral(upper, ts)
    case Err(e) => Err(e)
    case Ok(p) => Ok(Parsed(Comparison(field, operator, p.value), p.rest))
  }

  function ParsePredicate(upper: string -> string, ts: seq<Token>): Result<Parsed<Predicate>, Error> {
    match Identifier(ts)
    case Err(e) => Err(e)
    case Ok(f) =>
      if IsKeyword(f.rest, "IN") then
        (match InValues(upper, f.rest[1..])
         case Err(e) => Err(e)
         case Ok(p) => Ok(Parsed(InList(f.value, p.value), p.rest)))
      else if IsKeyword(f.rest, "LIKE") then Compared(upper, f.value, "LIKE", f.rest[1..])
      else if IsKind(f.rest, Operator) then Compared(upper, f.value, f.rest[0].lexeme.value, f.rest[1..])
      else Err(Expected("OPERATOR"))
  }

  lemma {:induction false} PredicateConsumes(upper: string -> string, ts: seq<Token>)
    requires ParsePredicate(upper, ts).Ok?
    ensures |ParsePredicate(upper, ts).value.rest| < |ts|
  {
    var f := Identifier(ts).value;
    if IsKeyword(f.rest, "IN") {
      var p := ParseLiteral(upper, f.rest[1..][1..]).value;
      MoreValuesConsume(upper, p.rest, [p.value]);
    }
  }

  lemma {:induction false} MoreValuesConsume(upper: string -> string, ts: seq<Token>, values: seq<Literal>)
    ensures MoreValues(upper, ts, values).Ok? ==> |MoreValues(upper, ts, values).value.rest| <= |ts|
    decreases |ts|
  {
    if IsKind(ts, Comma) && ParseLiteral(upper, ts[1..]).Ok? {
      MoreValuesConsume(upper, ts[2..], values + [ParseLiteral(upper, ts[1..]).value.value]);
    }
  }

  function MorePredicates(upper: string -> string, ts: seq<Token>, ps: seq<Predicate>)
    : Result<Parsed<seq<Predicate>>, Error>
    decreases |ts|
  {
    if !IsKeyword(ts, "AND") then Ok(Parsed(ps, ts))
    else
      match ParsePredicate(upper, ts[1..])
      case Err(e) => Err(e)
      case Ok(p) =>
        PredicateConsumes(upper, ts[1..]);
        MorePredicates(upper, p.rest, ps + [p.value])
  }

  function Where(upper: string -> string, ts: seq<Token>): Result<Parsed<seq<Predicate>>, Error> {
    if !IsKeyword(ts, "WHERE") then Ok(Parsed([], ts))
    else
      match ParsePredicate(upper, ts[1..])
      case Err(e) => Err(e)
      case Ok(p) => MorePredicates(upper, p.rest, [p.value])
  }

  function Nulls(field: string, direction: string, ts: seq<Token>): Result<Parsed<Option<OrderBy>>, Error> {
    if !IsKeyword(ts, "NULLS") then Ok(Parsed(Some(OrderBy(field, direction, "LAST")), ts))
    else if IsKeyword(ts[1..], "FIRST") then Ok(Parsed(Some(OrderBy(field, direction, "FIRST")), ts[2..]))
    else if IsKeyword(ts[1..], "LAST") then Ok(Parsed(Some(OrderBy(field, direction, "LAST")), ts[2..]))
    else Err(Expected("FIRST or LAST"))
  }

  function Order(ts: seq<Token>): Result<Parsed<Option<OrderBy>>, Error> {
    if !IsKeyword(ts, "ORDER") then Ok(Parsed(None, ts))
    else if !IsKeyword(ts[1..], "BY") then Err(Expected("BY"))
    else
      match Identifier(ts[2..])
      case Err(e) => Err(e)
      case Ok(f) =>
        if IsKeyword(f.rest, "ASC") then Nulls(f.value, "ASC", f.rest[1..])
        else if IsKeyword(f.rest, "DESC") then Nulls(f.value, "DESC", f.rest[1..])
        else Nulls(f.value, "ASC", f.rest)
  }

  function Clause(upper: string -> string, ts: seq<Token>, clause: string): Result<Parsed<Option<nat>>, Error> {
    if !IsKeyword(ts, clause) then Ok(Parsed(None, ts))
    else
      match Integer(upper, ts[1..], clause)
      case Err(e) => Err(e)
      case Ok(p) => Ok(Parsed(Some(p.value), p.rest))
  }

  /** What follows the object name. */
  function Tail(upper: string -> string, fields: seq<string>, name: string, ts: seq<Token>)
    : Result<SelectQuery, Error>
  {
    match Where(upper, ts)
    case Err(e) => Err(e)
    case Ok(ps) =>
      match Order(ps.rest)
      case Err(e) => Err(e)
      case Ok(order) =>
        match Clause(upper, order.rest, "LIMIT")
        case Err(e) => Err(e)
        case Ok(limit) =>
          match Clause(upper, limit.rest, "OFFSET")
          case Err(e) => Err(e)
          case Ok(offset) =>
            if |offset.rest| > 0 then Err(Unexpected(offset.rest[0].lexeme.value, offset.rest[0].position))
            else
              Ok(SelectQuery(fields, name, ps.value, order.value, limit.value,
                if offset.value.None? then 0 else offset.value.value))
  }

  function Parse(upper: string -> string, ts: seq<Token>): Result<SelectQuery, Error> {
    if !IsKeyword(ts, "SELECT") then Err(Expected("SELECT"))
    else
      match Fields(ts[1..])
      case Err(e) => Err(e)
      case Ok(fields) =>
        if !IsKeyword(fields.rest, "FROM") then Err(Expected("FROM"))
        else
          match Identifier(fields.rest[1..])
          case Err(e) => Err(e)
          case Ok(name) => Tail(upper, fields.value, name.value, name.rest)
  }

  function ParseSoql(upper: string -> string, source: string): Result<SelectQuery, Error> {
    match Tokens(upper, source, 0)
    case Err(e) => Err(e)
    case Ok(ts) => Parse(upper, ts)
  }
}
