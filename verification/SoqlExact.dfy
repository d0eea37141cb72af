/** The parser reads exactly what the grammar says: a text parses to a query if and only if it writes
    that query.

    For each production one lemma goes from the grammar to the parser, for any tokens that do not go on
    with the production, and one goes back. */
module SoqlExact {
  import opened Wrappers
  import opened SoqlTokens
  import opened SoqlParser
  import opened SoqlGrammar

  /* ---- What tokens take ---- */

  /** `rest` is what follows `a` in `ts`. */
  ghost predicate Takes(ts: seq<Token>, a: seq<Lexeme>, rest: seq<Token>) {
    |a| <= |ts| && rest == ts[|a|..] && forall i :: 0 <= i < |a| ==> ts[i].lexeme == a[i]
  }

  lemma TakesBoth(ts: seq<Token>, a: seq<Lexeme>, middle: seq<Token>, b: seq<Lexeme>, rest: seq<Token>)
    requires Takes(ts, a, middle) && Takes(middle, b, rest)
    ensures Takes(ts, a + b, rest)
  {
    forall i | 0 <= i < |a + b| ensures i < |ts| && ts[i].lexeme == (a + b)[i] {
      if i >= |a| { assert middle[i - |a|] == ts[i]; }
    }
    assert ts[|a|..][|b|..] == ts[|a + b|..];
  }

  /** Spelled punctuation and operators are what they look like. */
  predicate IsProper(l: Lexeme) {
    match l.kind
    case Comma => l == COMMA
    case LParen => l == LPAREN
    case RParen => l == RPAREN
    case Star => l == STAR
    case Operator => l.value in OPERATORS
    case _ => true
  }

  ghost predicate AllProper(ts: seq<Token>) { forall i :: 0 <= i < |ts| ==> IsProper(ts[i].lexeme) }

  /* ---- Literals ---- */

  /** A word means what it says, if and only if. */
  lemma WordExactly(upper: string -> string, word: string, v: Literal)
    ensures WordLiteral(upper, word) == v <==> IsWordFor(upper, word, v)
  {
    NumericExactly(word);
    WholeExactly(word, if v.Number? then v.n else ParseInt(word));
    hide IsNumeric, IsNumber, ParseInt, HasMarker, IsWhole;
  }

  lemma LiteralExactly(upper: string -> string, ts: seq<Token>, v: Literal)
    requires |ts| > 0
    ensures ParseLiteral(upper, ts) == Ok(Parsed(v, ts[1..])) <==> IsLiteral(upper, ts[0].lexeme, v)
  {
    WordExactly(upper, ts[0].lexeme.value, v);
    hide WordLiteral, IsWordFor;
  }

  lemma LiteralForm(upper: string -> string, ts: seq<Token>)
    requires ParseLiteral(upper, ts).Ok?
    ensures |ts| > 0 && ParseLiteral(upper, ts).value.rest == ts[1..]
    ensures IsLiteral(upper, ts[0].lexeme, ParseLiteral(upper, ts).value.value)
  {
    hide WordLiteral, IsLiteral;
    LiteralExactly(upper, ts, ParseLiteral(upper, ts).value.value);
  }

  /* ---- Fields ---- */

  lemma {:induction false} MoreFieldsBack(ts: seq<Token>, before: seq<string>, fields: seq<string>, rest: seq<Token>)
    requires Takes(ts, MoreFieldLexemes(fields), rest) && !IsKind(rest, Comma)
    ensures MoreFields(ts, before) == Ok(Parsed(before + fields, rest))
    decreases |fields|
  {
    if |fields| == 0 {
      assert before + fields == before;
    } else {
      var more := MoreFieldLexemes(fields[1..]);
      assert MoreFieldLexemes(fields)[..2] == [COMMA, W(fields[0])];
      DropTwo(ts, [COMMA, W(fields[0])], more, rest);
      assert ts[1..][1..] == ts[2..];
      MoreFieldsBack(ts[2..], before + [fields[0]], fields[1..], rest);
      assert before + [fields[0]] + fields[1..] == before + fields;
    }
  }

  lemma DropTwo(ts: seq<Token>, two: seq<Lexeme>, more: seq<Lexeme>, rest: seq<Token>)
    requires |two| == 2 && Takes(ts, two + more, rest)
    ensures |ts| >= 2 && ts[0].lexeme == two[0] && ts[1].lexeme == two[1] && Takes(ts[2..], more, rest)
  {
    DropSome(ts, two, more, rest);
    assert (two + more)[0] == two[0] && (two + more)[1] == two[1];
  }

  lemma DropSome(ts: seq<Token>, a: seq<Lexeme>, more: seq<Lexeme>, rest: seq<Token>)
    requires Takes(ts, a + more, rest)
    ensures |a| <= |ts| && Takes(ts, a, ts[|a|..]) && Takes(ts[|a|..], more, rest)
  {
    forall i | 0 <= i < |a| ensures ts[i].lexeme == a[i] { assert (a + more)[i] == a[i]; }
    forall i | 0 <= i < |more| ensures ts[|a| + i].lexeme == more[i] { assert (a + more)[|a| + i] == more[i]; }
  }

  lemma {:induction false} MoreFieldsForm(ts: seq<Token>, before: seq<string>) returns (fields: seq<string>)
    requires MoreFields(ts, before).Ok? && AllProper(ts)
    ensures var r := MoreFields(ts, before).value;
      r.value == before + fields && Takes(ts, MoreFieldLexemes(fields), r.rest) && !IsKind(r.rest, Comma)
    decreases |ts|
  {
    if !IsKind(ts, Comma) {
      fields := [];
      assert before + fields == before;
    } else {
      var first := Identifier(ts[1..]).value.value;
      assert Takes(ts, [COMMA, W(first)], ts[2..]);
      StillProper(ts, [COMMA, W(first)], ts[2..]);
      hide AllProper, IsProper, MoreFieldLexemes;
      var more := MoreFieldsForm(ts[2..], before + [first]);
      fields := [first] + more;
      assert before + [first] + more == before + fields;
      NextFields(first, more);
      TakesBoth(ts, [COMMA, W(first)], ts[2..], MoreFieldLexemes(more), MoreFields(ts, before).value.rest);
    }
  }

  lemma NextFields(first: string, more: seq<string>)
    ensures MoreFieldLexemes([first] + more) == [COMMA, W(first)] + MoreFieldLexemes(more)
  {
    assert ([first] + more)[1..] == more;
  }

  lemma FieldsBack(ts: seq<Token>, a: seq<Lexeme>, fields: seq<string>, rest: seq<Token>)
    requires AreFields(a, fields) && Takes(ts, a, rest) && !IsKind(rest, Comma)
    ensures Fields(ts) == Ok(Parsed(fields, rest))
  {
    if a != [STAR] {
      DropSome(ts, [W(fields[0])], MoreFieldLexemes(fields[1..]), rest);
      MoreFieldsBack(ts[1..], [fields[0]], fields[1..], rest);
      assert [fields[0]] + fields[1..] == fields;
    }
  }

  lemma FieldsForm(ts: seq<Token>) returns (a: seq<Lexeme>)
    requires Fields(ts).Ok? && AllProper(ts)
    ensures AreFields(a, Fields(ts).value.value) && Takes(ts, a, Fields(ts).value.rest)
  {
    if IsKind(ts, Star) {
      a := [STAR];
    } else {
      var first := Identifier(ts).value.value;
      var more := MoreFieldsForm(ts[1..], [first]);
      a := [W(first)] + MoreFieldLexemes(more);
      assert ([first] + more)[1..] == more;
      TakesBoth(ts, [W(first)], ts[1..], MoreFieldLexemes(more), Fields(ts).value.rest);
    }
  }

  /* ---- Predicates ---- */

  lemma {:induction false} MoreValuesBack(
    upper: string -> string, ts: seq<Token>, before: seq<Literal>, a: seq<Lexeme>, values: seq<Literal>,
    rest: seq<Token>)
    requires AreMoreValues(upper, a, values) && Takes(ts, a, rest) && !IsKind(rest, Comma)
    ensures MoreValues(upper, ts, before) == Ok(Parsed(before + values, rest))
    decreases |values|
  {
    hide IsLiteral, ParseLiteral;
    if |values| == 0 {
      assert before + values == before;
    } else {
      assert a == a[..2] + a[2..];
      DropTwo(ts, a[..2], a[2..], rest);
      LiteralExactly(upper, ts[1..], values[0]);
      assert ts[1..][1..] == ts[2..];
      MoreValuesBack(upper, ts[2..], before + [values[0]], a[2..], values[1..], rest);
      assert before + [values[0]] + values[1..] == before + values;
    }
  }

  lemma {:induction false} MoreValuesForm(upper: string -> string, ts: seq<Token>, before: seq<Literal>)
    returns (a: seq<Lexeme>, values: seq<Literal>)
    requires MoreValues(upper, ts, before).Ok? && AllProper(ts)
    ensures var r := MoreValues(upper, ts, before).value;
      r.value == before + values && AreMoreValues(upper, a, values) && Takes(ts, a, r.rest) && !IsKind(r.rest, Comma)
    decreases |ts|
  {
    hide IsLiteral, ParseLiteral;
    if !IsKind(ts, Comma) {
      a, values := [], [];
      assert before + values == before;
    } else {
      LiteralForm(upper, ts[1..]);
      var first := ParseLiteral(upper, ts[1..]).value.value;
      var b, more := MoreValuesForm(upper, ts[2..], before + [first]);
      var two := [COMMA, ts[1].lexeme];
      a, values := two + b, [first] + more;
      assert before + [first] + more == before + values;
      assert values[1..] == more && a[2..] == b;
      assert Takes(ts, two, ts[2..]);
      TakesBoth(ts, two, ts[2..], b, MoreValues(upper, ts, before).value.rest);
    }
  }

  lemma InListBack(
    upper: string -> string, ts: seq<Token>, values: seq<Literal>, b: seq<Lexeme>, l: Lexeme, rest: seq<Token>)
    requires |values| > 0 && IsLiteral(upper, l, values[0]) && AreMoreValues(upper, b, values[1..])
    requires Takes(ts, [LPAREN, l] + (b + [RPAREN]), rest)
    ensures InValues(upper, ts) == Ok(Parsed(values, rest))
  {
    hide IsLiteral, ParseLiteral, AreMoreValues, MoreValues;
    DropTwo(ts, [LPAREN, l], b + [RPAREN], rest);
    LiteralExactly(upper, ts[1..], values[0]);
    assert ts[1..][1..] == ts[2..];
    DropSome(ts[2..], b, [RPAREN], rest);
    var closing := ts[2..][|b|..];
    assert closing[0].lexeme == RPAREN && closing[1..] == rest;
    MoreValuesBack(upper, ts[2..], [values[0]], b, values[1..], closing);
    assert [values[0]] + values[1..] == values;
  }

  lemma InListForm(upper: string -> string, ts: seq<Token>) returns (b: seq<Lexeme>, l: Lexeme)
    requires InValues(upper, ts).Ok? && AllProper(ts)
    ensures var r := InValues(upper, ts).value;
      && |r.value| > 0 && IsLiteral(upper, l, r.value[0]) && AreMoreValues(upper, b, r.value[1..])
      && Takes(ts, [LPAREN, l] + (b + [RPAREN]), r.rest)
  {
    hide IsLiteral, ParseLiteral, AreMoreValues, MoreValues;
    LiteralForm(upper, ts[1..]);
    var first := ParseLiteral(upper, ts[1..]).value;
    var more: seq<Literal>;
    l := ts[1].lexeme;
    assert ts[1..][1..] == ts[2..];
    b, more := MoreValuesForm(upper, ts[2..], [first.value]);
    var closing := MoreValues(upper, ts[2..], [first.value]).value.rest;
    assert ([first.value] + more)[1..] == more;
    assert closing[0] in ts by { assert closing == ts[2..][|b|..]; }
    assert Takes(closing, [RPAREN], closing[1..]);
    TakesBoth(ts[2..], b, closing, [RPAREN], closing[1..]);
    assert Takes(ts, [LPAREN, l], ts[2..]);
    TakesBoth(ts, [LPAREN, l], ts[2..], b + [RPAREN], closing[1..]);
  }

  lemma ComparisonBack(upper: string -> string, ts: seq<Token>, a: seq<Lexeme>, p: Predicate, rest: seq<Token>)
    requires p.Comparison? && IsPredicate(upper, a, p) && Takes(ts, a, rest)
    ensures ParsePredicate(upper, ts) == Ok(Parsed(p, rest))
  {
    hide IsLiteral, ParseLiteral;
    LiteralExactly(upper, ts[2..], p.value);
    assert ts[1..][1..] == ts[2..] && ts[2..][1..] == ts[3..];
  }

  lemma MembershipBack(upper: string -> string, ts: seq<Token>, a: seq<Lexeme>, p: Predicate, rest: seq<Token>)
    requires p.InList? && IsPredicate(upper, a, p) && Takes(ts, a, rest)
    ensures ParsePredicate(upper, ts) == Ok(Parsed(p, rest))
  {
    hide IsLiteral, ParseLiteral, AreMoreValues, InValues;
    var b := a[4..|a| - 1];
    var two, more := [W(p.field), K("IN")], [LPAREN, a[3]] + (b + [RPAREN]);
    assert a == a[..3] + [a[3]] + b + [a[|a| - 1]];
    assert a == two + more;
    DropTwo(ts, two, more, rest);
    InListBack(upper, ts[2..], p.values, b, a[3], rest);
    assert ts[1..][1..] == ts[2..];
  }

  lemma PredicateBack(upper: string -> string, ts: seq<Token>, a: seq<Lexeme>, p: Predicate, rest: seq<Token>)
    requires IsPredicate(upper, a, p) && Takes(ts, a, rest)
    ensures ParsePredicate(upper, ts) == Ok(Parsed(p, rest))
  {
    hide IsPredicate, ParsePredicate, Takes;
    if p.Comparison? { ComparisonBack(upper, ts, a, p, rest); } else { MembershipBack(upper, ts, a, p, rest); }
  }

  lemma ComparisonForm(upper: string -> string, ts: seq<Token>) returns (a: seq<Lexeme>)
    requires ParsePredicate(upper, ts).Ok? && ParsePredicate(upper, ts).value.value.Comparison? && AllProper(ts)
    ensures var r := ParsePredicate(upper, ts).value; IsPredicate(upper, a, r.value) && Takes(ts, a, r.rest)
  {
    hide IsLiteral, ParseLiteral, InValues;
    assert ts[1..][1..] == ts[2..];
    LiteralForm(upper, ts[2..]);
    assert ts[2..][1..] == ts[3..];
    a := [ts[0].lexeme, ts[1].lexeme, ts[2].lexeme];
    assert "LIKE" !in OPERATORS;
  }

  lemma MembershipForm(upper: string -> string, ts: seq<Token>) returns (a: seq<Lexeme>)
    requires ParsePredicate(upper, ts).Ok? && ParsePredicate(upper, ts).value.value.InList? && AllProper(ts)
    ensures var r := ParsePredicate(upper, ts).value; IsPredicate(upper, a, r.value) && Takes(ts, a, r.rest)
  {
    hide IsLiteral, ParseLiteral, InValues, AreMoreValues, Compared;
    assert ts[1..][1..] == ts[2..];
    assert IsKeyword(ts[1..], "IN") by { ComparedIsComparison(upper, ts); }
    var b, l := InListForm(upper, ts[2..]);
    var r := ParsePredicate(upper, ts).value;
    var two := [ts[0].lexeme, K("IN")];
    var more := [LPAREN, l] + (b + [RPAREN]);
    a := two + more;
    assert Takes(ts, two, ts[2..]);
    TakesBoth(ts, two, ts[2..], more, r.rest);
    assert a[4..|a| - 1] == b && a[..3] == [ts[0].lexeme, K("IN"), LPAREN];
  }

  lemma ComparedIsComparison(upper: string -> string, ts: seq<Token>)
    requires ParsePredicate(upper, ts).Ok? && ParsePredicate(upper, ts).value.value.InList?
    ensures |ts| > 0 && ts[0].lexeme.kind.Word? && IsKeyword(ts[1..], "IN")
  {
    hide ParseLiteral, InValues;
  }

  lemma PredicateForm(upper: string -> string, ts: seq<Token>) returns (a: seq<Lexeme>)
    requires ParsePredicate(upper, ts).Ok? && AllProper(ts)
    ensures var r := ParsePredicate(upper, ts).value;
      |a| > 0 && IsPredicate(upper, a, r.value) && Takes(ts, a, r.rest)
  {
    hide ParsePredicate, Takes;
    if ParsePredicate(upper, ts).value.value.Comparison? {
      a := ComparisonForm(upper, ts);
    } else {
      a := MembershipForm(upper, ts);
    }
  }

  /* ---- The WHERE clause ---- */

  lemma {:induction false} MorePredicatesBack(
    upper: string -> string, ts: seq<Token>, before: seq<Predicate>, a: seq<Lexeme>, ps: seq<Predicate>,
    rest: seq<Token>)
    requires AreChained(upper, "AND", a, ps) && Takes(ts, a, rest) && !IsKeyword(rest, "AND")
    ensures MorePredicates(upper, ts, before) == Ok(Parsed(before + ps, rest))
    decreases |ps|
  {
    hide IsPredicate, ParsePredicate;
    if |ps| == 0 {
      assert before + ps == before;
    } else {
      var n := NextInChain(upper, "AND", ts, a, ps, rest);
      MorePredicatesBack(upper, ts[n..], before + [ps[0]], a[n..], ps[1..], rest);
      assert before + [ps[0]] + ps[1..] == before + ps;
    }
  }

  /** The first predicate of a chain is read, and what follows it is chained by AND. */
  lemma NextInChain(
    upper: string -> string, keyword: string, ts: seq<Token>, a: seq<Lexeme>, ps: seq<Predicate>, rest: seq<Token>)
    returns (n: nat)
    requires |ps| > 0 && AreChained(upper, keyword, a, ps) && Takes(ts, a, rest)
    ensures 0 < n <= |a| <= |ts| && IsKeyword(ts, keyword)
    ensures ParsePredicate(upper, ts[1..]) == Ok(Parsed(ps[0], ts[n..]))
    ensures AreChained(upper, "AND", a[n..], ps[1..]) && Takes(ts[n..], a[n..], rest)
  {
    hide IsPredicate, ParsePredicate, AreChained;
    n := FirstOfChain(upper, keyword, a, ps);
    var head := a[1..n];
    assert a == [a[0]] + (head + a[n..]);
    DropSome(ts, [a[0]], head + a[n..], rest);
    DropSome(ts[1..], head, a[n..], rest);
    assert ts[1..][|head|..] == ts[n..];
    PredicateBack(upper, ts[1..], head, ps[0], ts[n..]);
  }

  lemma FirstOfChain(upper: string -> string, keyword: string, a: seq<Lexeme>, ps: seq<Predicate>) returns (n: nat)
    requires |ps| > 0 && AreChained(upper, keyword, a, ps)
    ensures 0 < n <= |a| && a[0] == K(keyword)
    ensures IsPredicate(upper, a[1..n], ps[0]) && AreChained(upper, "AND", a[n..], ps[1..])
  {
    hide IsPredicate;
    n :| 0 < n <= |a| && a[0] == K(keyword) && IsPredicate(upper, a[1..n], ps[0])
        && AreChained(upper, "AND", a[n..], ps[1..]);
  }

  lemma WhereBack(upper: string -> string, ts: seq<Token>, a: seq<Lexeme>, ps: seq<Predicate>, rest: seq<Token>)
    requires AreChained(upper, "WHERE", a, ps) && Takes(ts, a, rest)
    requires !IsKeyword(rest, "AND") && !IsKeyword(rest, "WHERE")
    ensures Where(upper, ts) == Ok(Parsed(ps, rest))
  {
    hide IsPredicate, ParsePredicate, MorePredicates;
    if |ps| > 0 {
      var n := NextInChain(upper, "WHERE", ts, a, ps, rest);
      MorePredicatesBack(upper, ts[n..], [ps[0]], a[n..], ps[1..], rest);
      assert [ps[0]] + ps[1..] == ps;
    }
  }

  lemma {:induction false} MorePredicatesForm(upper: string -> string, ts: seq<Token>, before: seq<Predicate>)
    returns (a: seq<Lexeme>, ps: seq<Predicate>)
    requires MorePredicates(upper, ts, before).Ok? && AllProper(ts)
    ensures var r := MorePredicates(upper, ts, before).value;
      r.value == before + ps && AreChained(upper, "AND", a, ps) && Takes(ts, a, r.rest)
    decreases |ts|
  {
    hide IsPredicate, ParsePredicate;
    if !IsKeyword(ts, "AND") {
      a, ps := [], [];
      assert before + ps == before;
    } else {
      PredicateConsumes(upper, ts[1..]);
      var first := ParsePredicate(upper, ts[1..]).value;
      var b := PredicateForm(upper, ts[1..]);
      StillProper(ts[1..], b, first.rest);
      var more, qs := MorePredicatesForm(upper, first.rest, before + [first.value]);
      var rest := MorePredicates(upper, ts, before).value.rest;
      a, ps := ChainedOn(upper, "AND", ts, b, first.value, first.rest, more, qs, rest);
      assert before + [first.value] + qs == before + ps;
    }
  }

  lemma StillProper(ts: seq<Token>, a: seq<Lexeme>, rest: seq<Token>)
    requires AllProper(ts) && Takes(ts, a, rest)
    ensures AllProper(rest)
  {
    assert forall i :: 0 <= i < |rest| ==> rest[i] == ts[|a| + i];
  }

  lemma ChainedOn(
    upper: string -> string, keyword: string, ts: seq<Token>, b: seq<Lexeme>, p: Predicate, middle: seq<Token>,
    more: seq<Lexeme>, qs: seq<Predicate>, rest: seq<Token>)
    returns (a: seq<Lexeme>, ps: seq<Predicate>)
    requires IsKeyword(ts, keyword) && IsPredicate(upper, b, p) && Takes(ts[1..], b, middle)
    requires AreChained(upper, "AND", more, qs) && Takes(middle, more, rest)
    ensures ps == [p] + qs && AreChained(upper, keyword, a, ps) && Takes(ts, a, rest)
  {
    hide IsPredicate;
    var n := 1 + |b|;
    a, ps := [K(keyword)] + (b + more), [p] + qs;
    TakesBoth(ts[1..], b, middle, more, rest);
    assert Takes(ts, [K(keyword)], ts[1..]);
    TakesBoth(ts, [K(keyword)], ts[1..], b + more, rest);
    assert a[1..n] == b && a[n..] == more && ps[1..] == qs;
  }

  lemma WhereForm(upper: string -> string, ts: seq<Token>) returns (a: seq<Lexeme>)
    requires Where(upper, ts).Ok? && AllProper(ts)
    ensures var r := Where(upper, ts).value; AreChained(upper, "WHERE", a, r.value) && Takes(ts, a, r.rest)
  {
    hide IsPredicate, ParsePredicate, MorePredicates;
    if !IsKeyword(ts, "WHERE") {
      a := [];
    } else {
      var first := ParsePredicate(upper, ts[1..]).value;
      var b := PredicateForm(upper, ts[1..]);
      StillProper(ts[1..], b, first.rest);
      var more, qs := MorePredicatesForm(upper, first.rest, [first.value]);
      var ps: seq<Predicate>;
      a, ps := ChainedOn(
        upper, "WHERE", ts, b, first.value, first.rest, more, qs, Where(upper, ts).value.rest);
    }
  }

  /* ---- The other clauses ---- */

  lemma NullsBack(ts: seq<Token>, a: seq<Lexeme>, field: string, direction: string, nulls: string, rest: seq<Token>)
    requires AreNulls(a, nulls) && Takes(ts, a, rest) && !IsKeyword(rest, "NULLS")
    ensures Nulls(field, direction, ts) == Ok(Parsed(Some(OrderBy(field, direction, nulls)), rest))
  {
  }

  lemma NullsForm(ts: seq<Token>, field: string, direction: string) returns (a: seq<Lexeme>)
    requires Nulls(field, direction, ts).Ok?
    ensures var r := Nulls(field, direction, ts).value;
      && r.value.Some? && r.value.value.field == field && r.value.value.direction == direction
      && AreNulls(a, r.value.value.nulls) && Takes(ts, a, r.rest)
  {
    a := if IsKeyword(ts, "NULLS") then [ts[0].lexeme, ts[1].lexeme] else [];
  }

  predicate EndsOrder(rest: seq<Token>) {
    forall k :: k in {"ORDER", "ASC", "DESC", "NULLS"} ==> !IsKeyword(rest, k)
  }

  lemma OrderBack(ts: seq<Token>, a: seq<Lexeme>, o: Option<OrderBy>, rest: seq<Token>)
    requires IsOrder(a, o) && Takes(ts, a, rest) && EndsOrder(rest)
    ensures Order(ts) == Ok(Parsed(o, rest))
  {
    assert forall k :: k in {"ORDER", "ASC", "DESC", "NULLS"} ==> !IsKeyword(rest, k);
    if o.Some? {
      var order := o.value;
      var direction, nulls :| a == [K("ORDER"), K("BY"), W(order.field)] + (direction + nulls)
          && IsDirection(direction, order.direction) && AreNulls(nulls, order.nulls);
      DropSome(ts, [K("ORDER"), K("BY"), W(order.field)], direction + nulls, rest);
      DropSome(ts[3..], direction, nulls, rest);
      NullsBack(ts[3..][|direction|..], nulls, order.field, order.direction, order.nulls, rest);
      DirectionBack(ts[3..], direction, nulls, order, rest);
      assert ts[2..][1..] == ts[3..] && ts[1..][0] == ts[1] && ts[2..][0] == ts[2];
      hide Nulls, IsDirection, AreNulls;
    }
  }

  lemma DirectionBack(ts: seq<Token>, a: seq<Lexeme>, nulls: seq<Lexeme>, o: OrderBy, rest: seq<Token>)
    requires IsDirection(a, o.direction) && AreNulls(nulls, o.nulls) && Takes(ts, a + nulls, rest) && EndsOrder(rest)
    ensures |a| <= |ts|
    ensures if IsKeyword(ts, "ASC") then |a| == 1 && o.direction == "ASC"
            else if IsKeyword(ts, "DESC") then |a| == 1 && o.direction == "DESC"
            else |a| == 0 && o.direction == "ASC"
  {
    DropSome(ts, a, nulls, rest);
    assert !IsKeyword(rest, "ASC") && !IsKeyword(rest, "DESC");
  }

  lemma OrderForm(ts: seq<Token>) returns (a: seq<Lexeme>)
    requires Order(ts).Ok?
    ensures var r := Order(ts).value; IsOrder(a, r.value) && Takes(ts, a, r.rest)
  {
    if !IsKeyword(ts, "ORDER") {
      a := [];
    } else {
      hide Nulls, AreNulls;
      var field := ts[2].lexeme.value;
      assert ts[1..][0] == ts[1] && ts[2..][0] == ts[2] && ts[2..][1..] == ts[3..];
      var said := IsKeyword(ts[3..], "ASC") || IsKeyword(ts[3..], "DESC");
      var direction := if said then [ts[3].lexeme] else [];
      var after := ts[3..][|direction|..];
      var nulls := NullsForm(after, field, if IsKeyword(ts[3..], "DESC") then "DESC" else "ASC");
      var rest := Order(ts).value.rest;
      TakesBoth(ts[3..], direction, after, nulls, rest);
      var head := [K("ORDER"), K("BY"), W(field)];
      assert Takes(ts, head, ts[3..]);
      TakesBoth(ts, head, ts[3..], direction + nulls, rest);
      a := head + (direction + nulls);
    }
  }

  lemma CountBack(upper: string -> string, clause: string, ts: seq<Token>, a: seq<Lexeme>, n: nat, rest: seq<Token>)
    requires IsCount(upper, clause, a, n) && Takes(ts, a, rest)
    ensures Clause(upper, ts, clause) == Ok(Parsed(Some(n), rest))
  {
    LiteralExactly(upper, ts[1..], Number(n));
    hide IsLiteral, ParseLiteral;
    assert ts[1..][1..] == ts[2..];
  }

  lemma ClauseForm(upper: string -> string, clause: string, ts: seq<Token>) returns (a: seq<Lexeme>)
    requires Clause(upper, ts, clause).Ok?
    ensures var r := Clause(upper, ts, clause).value;
      && Takes(ts, a, r.rest) && (r.value.None? ==> a == [])
      && (r.value.Some? ==> IsCount(upper, clause, a, r.value.value))
  {
    hide IsLiteral, ParseLiteral;
    if !IsKeyword(ts, clause) {
      a := [];
    } else {
      LiteralForm(upper, ts[1..]);
      assert ts[1..][1..] == ts[2..];
      a := [ts[0].lexeme, ts[1].lexeme];
    }
  }

  /* ---- The whole query ---- */

  predicate StartsIn(a: seq<Lexeme>, keywords: set<string>) {
    |a| > 0 ==> a[0].kind.Keyword? && a[0].value in keywords
  }

  lemma ClausesStart(upper: string -> string, c: Clauses, q: SelectQuery)
    requires AreClauses(upper, c, q)
    ensures StartsIn(c.order, {"ORDER"}) && StartsIn(c.limit, {"LIMIT"}) && StartsIn(c.offset, {"OFFSET"})
    ensures StartsIn(c.limit + c.offset, {"LIMIT", "OFFSET"})
    ensures StartsIn(c.order + (c.limit + c.offset), {"ORDER", "LIMIT", "OFFSET"})
  {
    hide IsLiteral, AreChained;
  }

  lemma TakenStarts(ts: seq<Token>, a: seq<Lexeme>, keywords: set<string>, k: string)
    requires Takes(ts, a, []) && StartsIn(a, keywords) && k !in keywords
    ensures !IsKeyword(ts, k)
  {
  }

  lemma OrderEnds(ts: seq<Token>, a: seq<Lexeme>)
    requires Takes(ts, a, []) && StartsIn(a, {"LIMIT", "OFFSET"})
    ensures EndsOrder(ts)
  {
    forall k | k in {"ORDER", "ASC", "DESC", "NULLS"} ensures !IsKeyword(ts, k) {
      TakenStarts(ts, a, {"LIMIT", "OFFSET"}, k);
    }
  }

  lemma LimitBack(upper: string -> string, ts: seq<Token>, a: seq<Lexeme>, limit: Option<nat>, rest: seq<Token>)
    requires IsLimit(upper, a, limit) && Takes(ts, a, rest) && !IsKeyword(rest, "LIMIT")
    ensures Clause(upper, ts, "LIMIT") == Ok(Parsed(limit, rest))
  {
    hide IsCount;
    if limit.Some? { CountBack(upper, "LIMIT", ts, a, limit.value, rest); }
  }

  lemma OffsetBack(upper: string -> string, ts: seq<Token>, a: seq<Lexeme>, offset: nat)
    requires IsOffset(upper, a, offset) && Takes(ts, a, [])
    ensures Clause(upper, ts, "OFFSET").Ok? && Clause(upper, ts, "OFFSET").value.rest == []
    ensures var r := Clause(upper, ts, "OFFSET").value.value; offset == if r.None? then 0 else r.value
  {
    hide IsCount;
    if IsCount(upper, "OFFSET", a, offset) {
      CountBack(upper, "OFFSET", ts, a, offset, []);
      hide Clause;
    }
  }

  lemma TailBack(upper: string -> string, ts: seq<Token>, c: Clauses, q: SelectQuery)
    requires AreClauses(upper, c, q) && Takes(ts, Joined(c), [])
    ensures Tail(upper, q.fields, q.objectName, ts) == Ok(q)
  {
    ClausesStart(upper, c, q);
    var late := c.limit + c.offset;
    DropSome(ts, c.where, c.order + late, []);
    var ts1 := ts[|c.where|..];
    DropSome(ts1, c.order, late, []);
    var ts2 := ts1[|c.order|..];
    DropSome(ts2, c.limit, c.offset, []);
    var ts3 := ts2[|c.limit|..];
    hide AreChained, IsOrder, IsLimit, IsOffset, StartsIn, Takes, Where, Order, Clause;
    TakenStarts(ts1, c.order + late, {"ORDER", "LIMIT", "OFFSET"}, "AND");
    TakenStarts(ts1, c.order + late, {"ORDER", "LIMIT", "OFFSET"}, "WHERE");
    WhereBack(upper, ts, c.where, q.predicates, ts1);
    OrderEnds(ts2, late);
    OrderBack(ts1, c.order, q.orderBy, ts2);
    TakenStarts(ts3, c.offset, {"OFFSET"}, "LIMIT");
    LimitBack(upper, ts2, c.limit, q.limit, ts3);
    OffsetBack(upper, ts3, c.offset, q.offset);
  }

  lemma TailForm(upper: string -> string, fields: seq<string>, name: string, ts: seq<Token>) returns (c: Clauses)
    requires Tail(upper, fields, name, ts).Ok? && AllProper(ts)
    ensures var q := Tail(upper, fields, name, ts).value;
      q.fields == fields && q.objectName == name && AreClauses(upper, c, q) && Takes(ts, Joined(c), [])
  {
    hide AreChained, IsOrder, IsCount, Takes, Where, Order, Clause, AllProper;
    var where := WhereForm(upper, ts);
    var ts1 := Where(upper, ts).value.rest;
    var order := OrderForm(ts1);
    var ts2 := Order(ts1).value.rest;
    var limit := ClauseForm(upper, "LIMIT", ts2);
    var ts3 := Clause(upper, ts2, "LIMIT").value.rest;
    var offset := ClauseForm(upper, "OFFSET", ts3);
    c := Clauses(where, order, limit, offset);
    TakesBoth(ts2, limit, ts3, offset, []);
    TakesBoth(ts1, order, ts2, limit + offset, []);
    TakesBoth(ts, where, ts1, order + (limit + offset), []);
  }

  lemma QueryBack(upper: string -> string, ts: seq<Token>, a: seq<Lexeme>, q: SelectQuery)
    requires IsQuery(upper, a, q) && Takes(ts, a, [])
    ensures Parse(upper, ts) == Ok(q)
  {
    hide AreClauses, AreFields;
    var fields, c :| a == [K("SELECT")] + (fields + ([K("FROM"), W(q.objectName)] + Joined(c)))
        && AreFields(fields, q.fields) && AreClauses(upper, c, q);
    PartsBack(upper, ts, fields, c, q);
  }

  lemma PartsBack(upper: string -> string, ts: seq<Token>, fields: seq<Lexeme>, c: Clauses, q: SelectQuery)
    requires AreFields(fields, q.fields) && AreClauses(upper, c, q)
    requires Takes(ts, [K("SELECT")] + (fields + ([K("FROM"), W(q.objectName)] + Joined(c))), [])
    ensures Parse(upper, ts) == Ok(q)
  {
    hide AreClauses, AreFields, Fields, Tail, Joined;
    var from := [K("FROM"), W(q.objectName)];
    DropSome(ts, [K("SELECT")], fields + (from + Joined(c)), []);
    DropSome(ts[1..], fields, from + Joined(c), []);
    var ts2 := ts[1..][|fields|..];
    DropTwo(ts2, from, Joined(c), []);
    assert ts2[1..][1..] == ts2[2..];
    FieldsBack(ts[1..], fields, q.fields, ts2);
    TailBack(upper, ts2[2..], c, q);
  }

  lemma QueryForm(upper: string -> string, ts: seq<Token>) returns (a: seq<Lexeme>)
    requires Parse(upper, ts).Ok? && AllProper(ts)
    ensures IsQuery(upper, a, Parse(upper, ts).value) && Takes(ts, a, [])
  {
    hide AreClauses, AreFields, Fields, Tail, Joined;
    var fields := FieldsForm(ts[1..]);
    var parsed := Fields(ts[1..]).value;
    var ts2 := parsed.rest;
    StillProper(ts[1..], fields, ts2);
    assert ts2[1..][1..] == ts2[2..];
    var name := ts2[1].lexeme.value;
    var c := TailForm(upper, parsed.value, name, ts2[2..]);
    var from := [K("FROM"), W(name)];
    assert Takes(ts2, from, ts2[2..]);
    TakesBoth(ts2, from, ts2[2..], Joined(c), []);
    TakesBoth(ts[1..], fields, ts2, from + Joined(c), []);
    assert Takes(ts, [K("SELECT")], ts[1..]);
    TakesBoth(ts, [K("SELECT")], ts[1..], fields + (from + Joined(c)), []);
    a := [K("SELECT")] + (fields + (from + Joined(c)));
  }

  /* ---- From text ---- */

  lemma TokensTake(ts: seq<Token>)
    ensures Takes(ts, Lexemes(ts), [])
    ensures forall a :: Takes(ts, a, []) ==> a == Lexemes(ts)
  {
  }

  lemma {:induction false} SpelledIsProper(upper: string -> string, s: string, ls: seq<Lexeme>)
    requires Spelled(upper, s, ls)
    ensures forall i :: 0 <= i < |ls| ==> IsProper(ls[i])
    decreases |s|
  {
    hide IsSpace, EndsBefore, IsProper;
    if |s| > 0 {
      if IsSpace(s[0]) {
        SpelledIsProper(upper, s[1..], ls);
      } else {
        var n: nat :| 0 < n <= |s| && StartsWith(upper, s, n, ls[0]) && Spelled(upper, s[n..], ls[1..]);
        SpellingIsProper(upper, s[..n], ls[0]);
        SpelledIsProper(upper, s[n..], ls[1..]);
        forall i | 0 < i < |ls| ensures IsProper(ls[i]) { assert ls[1..][i - 1] == ls[i]; }
      }
    }
  }

  lemma SpellingIsProper(upper: string -> string, text: string, l: Lexeme)
    requires IsSpelling(upper, text, l)
    ensures IsProper(l)
  {
  }

  /** A text parses to a query exactly when it writes that query: with its keywords in any letters, its
      spaces wherever they are not needed, and its default direction, nulls and offset said or not. */
  lemma ParsesExactly(upper: string -> string, text: string, q: SelectQuery)
    ensures ParseSoql(upper, text) == Ok(q) <==> Writes(upper, text, q)
  {
    hide Spelled, IsQuery, Parse, Tokens;
    if ParseSoql(upper, text) == Ok(q) {
      var ts := Tokens(upper, text, 0).value;
      TokensExactly(upper, text, Lexemes(ts));
      SpelledIsProper(upper, text, Lexemes(ts));
      TokensTake(ts);
      assert AllProper(ts) by { hide IsProper; assert forall i :: 0 <= i < |ts| ==> Lexemes(ts)[i] == ts[i].lexeme; }
      var a := QueryForm(upper, ts);
    }
    if Writes(upper, text, q) {
      var a :| Spelled(upper, text, a) && IsQuery(upper, a, q);
      TokensExactly(upper, text, a);
      var ts := Tokens(upper, text, 0).value;
      TokensTake(ts);
      QueryBack(upper, ts, a, q);
    }
  }
}
