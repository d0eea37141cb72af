/** Parsing inverts printing: every printable query has a text, with its defaults said or not, and parsing
    that text gives the query back. */
module SoqlRoundTrip {
  import opened Wrappers
  import opened SoqlTokens
  import opened SoqlParser
  import opened SoqlGrammar
  import opened SoqlExact

  /* ---- The printer ---- */

  /** Whether an ascending direction, nulls last and an offset of 0 are printed or left out. */
  datatype Style = Style(direction: bool, nulls: bool, offset: bool)

  function LiteralLexeme(l: Literal): Lexeme {
    match l
    case Null => W("NULL")
    case Boolean(b) => W(if b then "TRUE" else "FALSE")
    case Number(n) => W(Decimal(n))
    case Float(text) => W(text)
    case Text(text) => Lexeme(Str, text)
  }

  function FieldLexemes(fields: seq<string>): seq<Lexeme>
    requires |fields| > 0
  {
    if fields == ["*"] then [Lexeme(Star, "*")] else [W(fields[0])] + MoreFieldLexemes(fields[1..])
  }

  function MoreValueLexemes(values: seq<Literal>): seq<Lexeme> {
    if |values| == 0 then [] else [COMMA, LiteralLexeme(values[0])] + MoreValueLexemes(values[1..])
  }

  function ValueLexemes(values: seq<Literal>): seq<Lexeme> {
    if |values| == 0 then [] else [LiteralLexeme(values[0])] + MoreValueLexemes(values[1..])
  }

  function PredicateLexemes(p: Predicate): seq<Lexeme> {
    match p
    case Comparison(field, operator, value) =>
      [W(field), if operator == "LIKE" then K("LIKE") else Lexeme(Operator, operator), LiteralLexeme(value)]
    case InList(field, values) =>
      [W(field), K("IN"), Lexeme(LParen, "(")] + (ValueLexemes(values) + [Lexeme(RParen, ")")])
  }

  function MorePredicateLexemes(ps: seq<Predicate>): seq<Lexeme> {
    if |ps| == 0 then [] else [K("AND")] + (PredicateLexemes(ps[0]) + MorePredicateLexemes(ps[1..]))
  }

  function WhereLexemes(ps: seq<Predicate>): seq<Lexeme> {
    if |ps| == 0 then [] else [K("WHERE")] + (PredicateLexemes(ps[0]) + MorePredicateLexemes(ps[1..]))
  }

  function DirectionLexemes(direction: string, style: Style): seq<Lexeme> {
    if direction == "ASC" && !style.direction then [] else [K(direction)]
  }

  function NullsLexemes(nulls: string, style: Style): seq<Lexeme> {
    if nulls == "LAST" && !style.nulls then [] else [K("NULLS"), K(nulls)]
  }

  function OrderLexemes(o: Option<OrderBy>, style: Style): seq<Lexeme> {
    match o
    case None => []
    case Some(OrderBy(field, direction, nulls)) =>
      [K("ORDER"), K("BY"), W(field)] + (DirectionLexemes(direction, style) + NullsLexemes(nulls, style))
  }

  function LimitLexemes(limit: Option<nat>): seq<Lexeme> {
    match limit
    case None => []
    case Some(n) => [K("LIMIT"), W(Decimal(n))]
  }

  function OffsetLexemes(offset: nat, style: Style): seq<Lexeme> {
    if offset == 0 && !style.offset then [] else [K("OFFSET"), W(Decimal(offset))]
  }

  function ClausesOf(q: SelectQuery, style: Style): Clauses {
    Clauses(
      WhereLexemes(q.predicates), OrderLexemes(q.orderBy, style), LimitLexemes(q.limit),
      OffsetLexemes(q.offset, style))
  }

  function QueryLexemes(q: SelectQuery, style: Style): seq<Lexeme>
    requires |q.fields| > 0
  {
    [K("SELECT")] + (FieldLexemes(q.fields) + ([K("FROM"), W(q.objectName)] + Joined(ClausesOf(q, style))))
  }

  function Print(q: SelectQuery, style: Style): string
    requires |q.fields| > 0
  {
    Render(QueryLexemes(q, style))
  }

  /* ---- Which queries can be printed ---- */

  /** Upper-casing leaves keywords and constants alone and makes no constant a keyword and no number
      either of them. */
  ghost predicate Sane(upper: string -> string) {
    && (forall k :: k in KEYWORDS ==> upper(k) == k)
    && upper("NULL") == "NULL" && upper("TRUE") == "TRUE" && upper("FALSE") == "FALSE"
    && (forall s :: IsNumeric(s) ==> upper(s) !in KEYWORDS && !IsConstant(upper(s)))
  }

  predicate IsName(upper: string -> string, s: string) { IsWord(s) && upper(s) !in KEYWORDS }

  predicate PrintableLiteral(l: Literal) {
    l.Float? ==> IsWord(l.text) && IsNumeric(l.text) && HasMarker(l.text)
  }

  predicate PrintablePredicate(upper: string -> string, p: Predicate) {
    match p
    case Comparison(field, operator, value) =>
      IsName(upper, field) && (operator == "LIKE" || operator in OPERATORS) && PrintableLiteral(value)
    case InList(field, values) =>
      IsName(upper, field) && |values| > 0 && forall i :: 0 <= i < |values| ==> PrintableLiteral(values[i])
  }

  ghost predicate PrintableQuery(upper: string -> string, q: SelectQuery) {
    && |q.fields| > 0 && (q.fields == ["*"] || forall i :: 0 <= i < |q.fields| ==> IsName(upper, q.fields[i]))
    && IsName(upper, q.objectName)
    && (forall i :: 0 <= i < |q.predicates| ==> PrintablePredicate(upper, q.predicates[i]))
    && (q.orderBy.Some? ==>
          && IsName(upper, q.orderBy.value.field)
          && (q.orderBy.value.direction == "ASC" || q.orderBy.value.direction == "DESC")
          && (q.orderBy.value.nulls == "FIRST" || q.orderBy.value.nulls == "LAST"))
  }

  /* ---- What is printed writes the query ---- */

  lemma NumberBack(upper: string -> string, s: string)
    requires Sane(upper) && IsNumeric(s)
    ensures WordLiteral(upper, s) == if HasMarker(s) then Float(s) else Number(ParseInt(s))
  {
    assert !IsConstant(upper(s));
    hide Sane, IsNumeric, ParseInt, HasMarker;
  }

  lemma ConstantsBack(upper: string -> string)
    requires Sane(upper)
    ensures WordLiteral(upper, "NULL") == Null
    ensures WordLiteral(upper, "TRUE") == Boolean(true) && WordLiteral(upper, "FALSE") == Boolean(false)
  {
    hide IsNumeric, ParseInt, HasMarker;
  }

  lemma WordLiteralBack(upper: string -> string, l: Literal)
    requires Sane(upper) && PrintableLiteral(l) && !l.Text?
    ensures LiteralLexeme(l).kind == Word && WordLiteral(upper, LiteralLexeme(l).value) == l
  {
    hide IsWord, WordLiteral, Sane, IsNumeric, ParseInt, HasMarker, Decimal;
    match l
    case Null => ConstantsBack(upper);
    case Boolean(b) => ConstantsBack(upper);
    case Number(n) =>
      DecimalBack(n);
      NumberBack(upper, Decimal(n));
    case Float(text) =>
      NumberBack(upper, text);
  }

  lemma LiteralIsPrinted(upper: string -> string, l: Literal)
    requires Sane(upper) && PrintableLiteral(l)
    ensures IsLiteral(upper, LiteralLexeme(l), l)
  {
    hide Sane, WordLiteral, PrintableLiteral, IsWordFor;
    if !l.Text? {
      WordLiteralBack(upper, l);
      WordExactly(upper, LiteralLexeme(l).value, l);
    }
  }

  lemma {:induction false} MoreValuesArePrinted(upper: string -> string, values: seq<Literal>)
    requires Sane(upper) && forall i :: 0 <= i < |values| ==> PrintableLiteral(values[i])
    ensures AreMoreValues(upper, MoreValueLexemes(values), values)
  {
    hide Sane, PrintableLiteral, LiteralLexeme, IsLiteral;
    if |values| > 0 {
      LiteralIsPrinted(upper, values[0]);
      MoreValuesArePrinted(upper, values[1..]);
      assert MoreValueLexemes(values)[2..] == MoreValueLexemes(values[1..]);
    }
  }

  lemma PredicateIsPrinted(upper: string -> string, p: Predicate)
    requires Sane(upper) && PrintablePredicate(upper, p)
    ensures IsPredicate(upper, PredicateLexemes(p), p) && |PredicateLexemes(p)| > 0
  {
    hide Sane, PrintableLiteral, LiteralLexeme, IsLiteral, AreMoreValues, MoreValueLexemes;
    match p
    case Comparison(_, _, value) => LiteralIsPrinted(upper, value);
    case InList(_, values) =>
      LiteralIsPrinted(upper, values[0]);
      MoreValuesArePrinted(upper, values[1..]);
      var a := PredicateLexemes(p);
      assert a[4..|a| - 1] == MoreValueLexemes(values[1..]);
  }

  lemma ChainIsPrinted(upper: string -> string, keyword: string, more: seq<Lexeme>, ps: seq<Predicate>)
    requires |ps| > 0 && IsPredicate(upper, PredicateLexemes(ps[0]), ps[0]) && AreChained(upper, "AND", more, ps[1..])
    ensures AreChained(upper, keyword, [K(keyword)] + (PredicateLexemes(ps[0]) + more), ps)
  {
    hide IsPredicate, PredicateLexemes;
    var a, n := [K(keyword)] + (PredicateLexemes(ps[0]) + more), 1 + |PredicateLexemes(ps[0])|;
    assert a[1..n] == PredicateLexemes(ps[0]) && a[n..] == more;
  }

  lemma NoPredicates(upper: string -> string)
    ensures forall keyword :: AreChained(upper, keyword, [], [])
  {
  }

  lemma {:induction false} MorePredicatesArePrinted(upper: string -> string, ps: seq<Predicate>)
    requires Sane(upper) && forall i :: 0 <= i < |ps| ==> PrintablePredicate(upper, ps[i])
    ensures AreChained(upper, "AND", MorePredicateLexemes(ps), ps)
  {
    hide Sane, IsPredicate, PredicateLexemes, AreChained, PrintablePredicate;
    if |ps| == 0 {
      NoPredicates(upper);
    } else {
      PredicateIsPrinted(upper, ps[0]);
      MorePredicatesArePrinted(upper, ps[1..]);
      ChainIsPrinted(upper, "AND", MorePredicateLexemes(ps[1..]), ps);
    }
  }

  lemma WhereIsPrinted(upper: string -> string, ps: seq<Predicate>)
    requires Sane(upper) && forall i :: 0 <= i < |ps| ==> PrintablePredicate(upper, ps[i])
    ensures AreChained(upper, "WHERE", WhereLexemes(ps), ps)
  {
    hide Sane, IsPredicate, PredicateLexemes, AreChained, PrintablePredicate, MorePredicateLexemes;
    if |ps| == 0 {
      NoPredicates(upper);
    } else {
      PredicateIsPrinted(upper, ps[0]);
      MorePredicatesArePrinted(upper, ps[1..]);
      ChainIsPrinted(upper, "WHERE", MorePredicateLexemes(ps[1..]), ps);
    }
  }

  lemma OrderIsPrinted(upper: string -> string, q: SelectQuery, style: Style)
    requires PrintableQuery(upper, q)
    ensures IsOrder(OrderLexemes(q.orderBy, style), q.orderBy)
  {
    hide IsName, PrintablePredicate;
    if q.orderBy.Some? {
      var o := q.orderBy.value;
      assert IsDirection(DirectionLexemes(o.direction, style), o.direction);
      assert AreNulls(NullsLexemes(o.nulls, style), o.nulls);
    }
  }

  lemma CountIsPrinted(upper: string -> string, clause: string, n: nat)
    requires Sane(upper)
    ensures IsCount(upper, clause, [K(clause), W(Decimal(n))], n)
  {
    LiteralIsPrinted(upper, Number(n));
  }

  lemma ClausesArePrinted(upper: string -> string, q: SelectQuery, style: Style)
    requires Sane(upper) && PrintableQuery(upper, q)
    ensures AreClauses(upper, ClausesOf(q, style), q)
  {
    hide Sane, IsName, PrintablePredicate, AreChained, IsOrder, WhereLexemes, OrderLexemes, IsCount, Decimal;
    WhereIsPrinted(upper, q.predicates);
    OrderIsPrinted(upper, q, style);
    hide PrintableQuery;
    if q.limit.Some? { CountIsPrinted(upper, "LIMIT", q.limit.value); }
    CountIsPrinted(upper, "OFFSET", q.offset);
  }

  lemma FieldsArePrinted(fields: seq<string>)
    requires |fields| > 0
    ensures AreFields(FieldLexemes(fields), fields)
  {
    if fields != ["*"] { assert [fields[0]] + fields[1..] == fields; }
  }

  /** In every style, what is printed writes the query. */
  lemma QueryIsPrinted(upper: string -> string, q: SelectQuery, style: Style)
    requires Sane(upper) && PrintableQuery(upper, q)
    ensures IsQuery(upper, QueryLexemes(q, style), q)
  {
    hide Sane, AreClauses, AreFields, ClausesOf, FieldLexemes, Joined;
    ClausesArePrinted(upper, q, style);
    assert |q.fields| > 0;
    hide PrintableQuery;
    FieldsArePrinted(q.fields);
  }

  /* ---- Every lexeme printed is one the tokenizer reads back ---- */

  ghost predicate AllPrintable(upper: string -> string, ls: seq<Lexeme>) {
    forall i :: 0 <= i < |ls| ==> Printable(upper, ls[i])
  }

  lemma BothPrintable(upper: string -> string, a: seq<Lexeme>, b: seq<Lexeme>)
    requires AllPrintable(upper, a) && AllPrintable(upper, b)
    ensures AllPrintable(upper, a + b)
  {
  }

  lemma NameIsPrintable(upper: string -> string, s: string)
    requires IsName(upper, s)
    ensures Printable(upper, W(s))
  {
  }

  predicate Caps(s: string) {
    |s| > 0 && forall i :: 0 <= i < |s| ==> 'A' <= s[i] <= 'Z'
  }

  lemma CapsAreWords(s: string)
    requires Caps(s)
    ensures IsWord(s)
  {
  }

  lemma ClausesAreCaps()
    ensures Caps("SELECT") && Caps("FROM") && Caps("WHERE") && Caps("AND") && Caps("IN")
  {
  }

  lemma OrderWordsAreCaps()
    ensures Caps("LIKE") && Caps("ORDER") && Caps("BY") && Caps("ASC") && Caps("DESC")
  {
  }

  lemma LimitWordsAreCaps()
    ensures Caps("NULLS") && Caps("FIRST") && Caps("LAST") && Caps("LIMIT") && Caps("OFFSET")
  {
  }

  lemma KeywordIsCaps(k: string)
    requires k in KEYWORDS
    ensures Caps(k)
  {
    hide Caps;
    ClausesAreCaps();
    OrderWordsAreCaps();
    LimitWordsAreCaps();
  }

  lemma ConstantIsCaps(s: string)
    requires IsConstant(s)
    ensures Caps(s) && s !in KEYWORDS
  {
  }

  lemma KeywordIsPrintable(upper: string -> string, k: string)
    requires Sane(upper) && k in KEYWORDS
    ensures Printable(upper, K(k))
  {
    assert upper(k) == k;
    hide Sane, IsWord, KEYWORDS, Caps;
    KeywordIsCaps(k);
    CapsAreWords(k);
  }

  lemma ConstantIsPrintable(upper: string -> string, s: string)
    requires Sane(upper) && IsConstant(s)
    ensures Printable(upper, W(s))
  {
    assert upper(s) == s;
    hide Sane, IsWord, Caps, IsConstant;
    ConstantIsCaps(s);
    CapsAreWords(s);
  }

  lemma NumberIsPrintable(upper: string -> string, s: string)
    requires Sane(upper) && IsNumeric(s) && IsWord(s)
    ensures Printable(upper, W(s))
  {
    hide IsWord, IsNumeric;
  }

  lemma LiteralIsPrintable(upper: string -> string, l: Literal)
    requires Sane(upper) && PrintableLiteral(l)
    ensures Printable(upper, LiteralLexeme(l))
  {
    hide Sane, Printable, IsWord, IsNumeric, HasMarker, Decimal;
    match l {
      case Number(n) =>
        DecimalBack(n);
        NumberIsPrintable(upper, Decimal(n));
      case Float(text) => NumberIsPrintable(upper, text);
      case Text(text) => StringIsPrintable(upper, text);
      case Null => ConstantIsPrintable(upper, "NULL");
      case Boolean(b) => ConstantIsPrintable(upper, if b then "TRUE" else "FALSE");
    }
  }

  lemma StringIsPrintable(upper: string -> string, s: string)
    ensures Printable(upper, Lexeme(Str, s))
  {
  }

  lemma PunctuationIsPrintable(upper: string -> string)
    ensures Printable(upper, COMMA) && Printable(upper, Lexeme(LParen, "("))
        && Printable(upper, Lexeme(RParen, ")")) && Printable(upper, Lexeme(Star, "*"))
  {
  }

  lemma {:induction false} MoreFieldsPrintable(upper: string -> string, fields: seq<string>)
    requires forall i :: 0 <= i < |fields| ==> IsName(upper, fields[i])
    ensures AllPrintable(upper, MoreFieldLexemes(fields))
  {
    hide IsName, Printable;
    if |fields| > 0 {
      PunctuationIsPrintable(upper);
      NameIsPrintable(upper, fields[0]);
      MoreFieldsPrintable(upper, fields[1..]);
    }
  }

  lemma FieldsPrintable(upper: string -> string, q: SelectQuery)
    requires PrintableQuery(upper, q)
    ensures AllPrintable(upper, FieldLexemes(q.fields))
  {
    hide IsName, Printable, PrintablePredicate;
    PunctuationIsPrintable(upper);
    if q.fields != ["*"] {
      NameIsPrintable(upper, q.fields[0]);
      MoreFieldsPrintable(upper, q.fields[1..]);
    }
  }

  lemma {:induction false} MoreValuesPrintable(upper: string -> string, values: seq<Literal>)
    requires Sane(upper) && forall i :: 0 <= i < |values| ==> PrintableLiteral(values[i])
    ensures AllPrintable(upper, MoreValueLexemes(values))
  {
    hide Sane, PrintableLiteral, Printable, LiteralLexeme;
    if |values| > 0 {
      PunctuationIsPrintable(upper);
      LiteralIsPrintable(upper, values[0]);
      MoreValuesPrintable(upper, values[1..]);
    }
  }

  lemma PredicatePrintable(upper: string -> string, p: Predicate)
    requires Sane(upper) && PrintablePredicate(upper, p)
    ensures AllPrintable(upper, PredicateLexemes(p))
  {
    hide Sane, PrintableLiteral, IsName, LiteralLexeme;
    NameIsPrintable(upper, p.field);
    PunctuationIsPrintable(upper);
    KeywordIsPrintable(upper, "IN") by { assert "IN" in KEYWORDS; }
    KeywordIsPrintable(upper, "LIKE") by { assert "LIKE" in KEYWORDS; }
    match p {
      case Comparison(_, operator, value) =>
        LiteralIsPrintable(upper, value);
        assert operator != "LIKE" ==> Printable(upper, Lexeme(Operator, operator));
      case InList(_, values) =>
        LiteralIsPrintable(upper, values[0]);
        MoreValuesPrintable(upper, values[1..]);
    }
    hide Printable;
  }

  lemma {:induction false} MorePredicatesPrintable(upper: string -> string, ps: seq<Predicate>)
    requires Sane(upper) && forall i :: 0 <= i < |ps| ==> PrintablePredicate(upper, ps[i])
    ensures AllPrintable(upper, MorePredicateLexemes(ps))
  {
    hide Sane, PrintablePredicate, Printable, PredicateLexemes;
    if |ps| > 0 {
      KeywordIsPrintable(upper, "AND") by { assert "AND" in KEYWORDS; }
      PredicatePrintable(upper, ps[0]);
      MorePredicatesPrintable(upper, ps[1..]);
    }
  }

  lemma WherePrintable(upper: string -> string, ps: seq<Predicate>)
    requires Sane(upper) && forall i :: 0 <= i < |ps| ==> PrintablePredicate(upper, ps[i])
    ensures AllPrintable(upper, WhereLexemes(ps))
  {
    hide Sane, PrintablePredicate, Printable, PredicateLexemes;
    if |ps| > 0 {
      KeywordIsPrintable(upper, "WHERE") by { assert "WHERE" in KEYWORDS; }
      PredicatePrintable(upper, ps[0]);
      MorePredicatesPrintable(upper, ps[1..]);
    }
  }

  lemma OrderPrintable(upper: string -> string, q: SelectQuery, style: Style)
    requires Sane(upper) && PrintableQuery(upper, q)
    ensures AllPrintable(upper, OrderLexemes(q.orderBy, style))
  {
    hide Sane, PrintablePredicate, Printable, IsName;
    if q.orderBy.Some? {
      var o := q.orderBy.value;
      KeywordIsPrintable(upper, "ORDER");
      KeywordIsPrintable(upper, "BY");
      KeywordIsPrintable(upper, "NULLS");
      NameIsPrintable(upper, o.field);
      KeywordIsPrintable(upper, o.direction);
      KeywordIsPrintable(upper, o.nulls);
    }
  }

  lemma NumberClausePrintable(upper: string -> string, clause: string, n: nat)
    requires Sane(upper) && clause in KEYWORDS
    ensures AllPrintable(upper, [K(clause), W(Decimal(n))])
  {
    hide Printable, Sane, Decimal;
    KeywordIsPrintable(upper, clause);
    LiteralIsPrintable(upper, Number(n));
  }

  lemma QueryPrintable(upper: string -> string, q: SelectQuery, style: Style)
    requires Sane(upper) && PrintableQuery(upper, q)
    ensures AllPrintable(upper, QueryLexemes(q, style))
  {
    hide Sane, Printable, FieldLexemes, WhereLexemes, OrderLexemes, Decimal, AllPrintable, PrintablePredicate;
    FieldsPrintable(upper, q);
    TailPrintable(upper, q, style);
    hide PrintableQuery, Joined, ClausesOf;
    var tail := Joined(ClausesOf(q, style));
    var from := [K("FROM"), W(q.objectName)];
    HeadPrintable(upper, q.objectName);
    BothPrintable(upper, from, tail);
    BothPrintable(upper, FieldLexemes(q.fields), from + tail);
    BothPrintable(upper, [K("SELECT")], FieldLexemes(q.fields) + (from + tail));
  }

  lemma HeadPrintable(upper: string -> string, name: string)
    requires Sane(upper) && IsName(upper, name)
    ensures AllPrintable(upper, [K("SELECT")]) && AllPrintable(upper, [K("FROM"), W(name)])
  {
    hide Sane, Printable, IsName;
    KeywordIsPrintable(upper, "SELECT");
    KeywordIsPrintable(upper, "FROM");
    NameIsPrintable(upper, name);
  }

  lemma TailPrintable(upper: string -> string, q: SelectQuery, style: Style)
    requires Sane(upper) && PrintableQuery(upper, q)
    ensures AllPrintable(upper, Joined(ClausesOf(q, style)))
  {
    hide Sane, Printable, WhereLexemes, OrderLexemes, Decimal, AllPrintable, PrintablePredicate;
    WherePrintable(upper, q.predicates);
    OrderPrintable(upper, q, style);
    hide PrintableQuery;
    var c := ClausesOf(q, style);
    OffsetPrintable(upper, q.offset, style);
    LimitPrintable(upper, q.limit);
    BothPrintable(upper, c.limit, c.offset);
    BothPrintable(upper, c.order, c.limit + c.offset);
    BothPrintable(upper, c.where, c.order + (c.limit + c.offset));
  }

  lemma OffsetPrintable(upper: string -> string, offset: nat, style: Style)
    requires Sane(upper)
    ensures AllPrintable(upper, OffsetLexemes(offset, style))
  {
    hide Sane, Printable, Decimal;
    NumberClausePrintable(upper, "OFFSET", offset);
  }

  lemma LimitPrintable(upper: string -> string, limit: Option<nat>)
    requires Sane(upper)
    ensures AllPrintable(upper, LimitLexemes(limit))
  {
    hide Sane, Printable, Decimal;
    if limit.Some? { NumberClausePrintable(upper, "LIMIT", limit.value); }
  }

  /** Parsing inverts printing, in every style. */
  lemma ParseInvertsPrint(upper: string -> string, q: SelectQuery, style: Style)
    requires Sane(upper) && PrintableQuery(upper, q)
    ensures ParseSoql(upper, Print(q, style)) == Ok(q)
  {
    hide Sane, Printable, QueryLexemes, Tokens, Render, PrintablePredicate, IsName, Spelled, IsQuery, ParseSoql;
    var text, a := Print(q, style), QueryLexemes(q, style);
    QueryPrintable(upper, q, style);
    TokensOfRender(upper, a, 0);
    TokensExactly(upper, text, a);
    QueryIsPrinted(upper, q, style);
    ParsesExactly(upper, text, q);
  }

  /** ASCII upper-casing is sane. */
  function AsciiUpper(s: string): string {
    seq(|s|, i requires 0 <= i < |s| => if 'a' <= s[i] <= 'z' then (s[i] as int - 32) as char else s[i])
  }

  lemma UpperFixesCapitals(s: string)
    requires forall i :: 0 <= i < |s| ==> !('a' <= s[i] <= 'z')
    ensures AsciiUpper(s) == s
  {
  }

  lemma NumbersStartOtherwise(s: string)
    requires IsNumeric(s)
    ensures |s| > 0 && (s[0] == '-' || s[0] == '.' || IsDigit(s[0]))
  {
  }

  lemma CapsStay(s: string)
    requires Caps(s)
    ensures AsciiUpper(s) == s
  {
    UpperFixesCapitals(s);
  }

  lemma NumbersAreNotCaps(s: string)
    requires IsNumeric(s)
    ensures !Caps(AsciiUpper(s))
  {
    NumbersStartOtherwise(s);
    assert AsciiUpper(s)[0] == s[0];
  }

  lemma AsciiUpperIsSane()
    ensures Sane(AsciiUpper)
  {
    hide AsciiUpper, Caps, IsNumeric;
    forall k | k in KEYWORDS ensures AsciiUpper(k) == k {
      KeywordIsCaps(k);
      CapsStay(k);
    }
    ConstantIsCaps("NULL");
    CapsStay("NULL");
    ConstantIsCaps("TRUE");
    CapsStay("TRUE");
    ConstantIsCaps("FALSE");
    CapsStay("FALSE");
    forall s | IsNumeric(s) ensures AsciiUpper(s) !in KEYWORDS && !IsConstant(AsciiUpper(s)) {
      NumbersAreNotCaps(s);
      NotReserved(AsciiUpper(s));
    }
  }

  lemma NotReserved(s: string)
    requires !Caps(s)
    ensures s !in KEYWORDS && !IsConstant(s)
  {
    hide Caps;
    if s in KEYWORDS { KeywordIsCaps(s); }
    if IsConstant(s) { ConstantIsCaps(s); }
  }
}
