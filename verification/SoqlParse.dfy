/** The SOQL parser as the object it is: an index over the tokens, advanced production by production. */
module SoqlParse {
  import opened Wrappers
  import opened SoqlTokens
  import opened SoqlParser

  /** A method has done what its production says: it returns the value and leaves the rest. */
  ghost predicate Follows<T(!new)>(spec: Result<Parsed<T>, Error>, r: Result<T, Error>, left: seq<Token>) {
    match spec
    case Err(e) => r == Err(e)
    case Ok(p) => r == Ok(p.value) && left == p.rest
  }

  class Parser {
    const upper: string -> string
    const tokens: seq<Token>
    var index: nat

    predicate Valid()
      reads this
    {
      index <= |tokens|
    }

    function Left(): seq<Token>
      requires Valid()
      reads this
    {
      tokens[index..]
    }

    constructor (upper: string -> string, tokens: seq<Token>)
      ensures Valid() && this.upper == upper && this.tokens == tokens && Left() == tokens
    {
      this.upper, this.tokens, index := upper, tokens, 0;
    }

    method AcceptKeyword(k: string) returns (accepted: bool)
      requires Valid()
      modifies this`index
      ensures Valid() && accepted == IsKeyword(old(Left()), k)
      ensures Left() == if accepted then old(Left())[1..] else old(Left())
    {
      accepted := index < |tokens| && tokens[index].lexeme == Lexeme(Keyword, k);
      if accepted { index := index + 1; }
    }

    method Accept(kind: Kind) returns (accepted: bool)
      requires Valid()
      modifies this`index
      ensures Valid() && accepted == IsKind(old(Left()), kind)
      ensures Left() == if accepted then old(Left())[1..] else old(Left())
    {
      accepted := index < |tokens| && tokens[index].lexeme.kind == kind;
      if accepted { index := index + 1; }
    }

    /** The next token, if any, and past it. */
    method Advance() returns (t: Option<Token>)
      requires Valid()
      modifies this`index
      ensures Valid() && (t.Some? <==> |old(Left())| > 0)
      ensures t.Some? ==> t.value == old(Left())[0] && Left() == old(Left())[1..]
      ensures t.None? ==> Left() == old(Left())
    {
      if index == |tokens| { return None; }
      t := Some(tokens[index]);
      index := index + 1;
    }

    method ReadIdentifier() returns (r: Result<string, Error>)
      requires Valid()
      modifies this`index
      ensures Valid() && Follows(Identifier(old(Left())), r, Left())
    {
      var t := Advance();
      if t.None? || t.value.lexeme.kind != Word { return Err(Expected("WORD")); }
      r := Ok(t.value.lexeme.value);
    }

    method ReadLiteral() returns (r: Result<Literal, Error>)
      requires Valid()
      modifies this`index
      ensures Valid() && Follows(ParseLiteral(upper, old(Left())), r, Left())
    {
      var t := Advance();
      if t.None? { return Err(Expected("literal")); }
      var l := t.value.lexeme;
      if l.kind.Str? { return Ok(Text(l.value)); }
      if l.kind != Word { return Err(Expected("literal")); }
      r := Ok(WordLiteral(upper, l.value));
    }

    method ReadFields() returns (r: Result<seq<string>, Error>)
      requires Valid()
      modifies this`index
      ensures Valid() && Follows(Fields(old(Left())), r, Left())
    {
      var star := Accept(Star);
      if star { return Ok(["*"]); }
      var first := ReadIdentifier();
      if first.Err? { return Err(first.error); }
      var fields := [first.value];
      ghost var spec := Fields(old(Left()));
      while true
        invariant Valid() && spec == MoreFields(Left(), fields)
        decreases |tokens| - index
      {
        ghost var left := Left();
        var comma := Accept(Comma);
        if !comma { return Ok(fields); }
        var next := ReadIdentifier();
        if next.Err? { return Err(next.error); }
        assert left[1..][1..] == left[2..];
        fields := fields + [next.value];
      }
    }

    method ReadValues() returns (r: Result<seq<Literal>, Error>)
      requires Valid()
      modifies this`index
      ensures Valid() && Follows(InValues(upper, old(Left())), r, Left())
    {
      hide ParseLiteral;
      var lparen := Accept(LParen);
      if !lparen { return Err(Expected("LPAREN")); }
      var first := ReadLiteral();
      if first.Err? { return Err(first.error); }
      var values := [first.value];
      ghost var spec := MoreValues(upper, Left(), values);
      while true
        invariant Valid() && spec == MoreValues(upper, Left(), values)
        decreases |tokens| - index
      {
        ghost var left := Left();
        var comma := Accept(Comma);
        if !comma { break; }
        LiteralConsumes(upper, left);
        var next := ReadLiteral();
        if next.Err? { return Err(next.error); }
        values := values + [next.value];
      }
      var rparen := Accept(RParen);
      if !rparen { return Err(Expected("RPAREN")); }
      r := Ok(values);
    }

    method ReadPredicate() returns (r: Result<Predicate, Error>)
      requires Valid()
      modifies this`index
      ensures Valid() && Follows(ParsePredicate(upper, old(Left())), r, Left())
    {
      hide ParseLiteral, InValues, Identifier;
      var field := ReadIdentifier();
      if field.Err? { return Err(field.error); }
      var isIn := AcceptKeyword("IN");
      if isIn {
        var values := ReadValues();
        if values.Err? { return Err(values.error); }
        return Ok(InList(field.value, values.value));
      }
      var isLike := AcceptKeyword("LIKE");
      var operator := "LIKE";
      if !isLike {
        if index == |tokens| || tokens[index].lexeme.kind != Operator { return Err(Expected("OPERATOR")); }
        operator := tokens[index].lexeme.value;
        index := index + 1;
      }
      var value := ReadLiteral();
      if value.Err? { return Err(value.error); }
      r := Ok(Comparison(field.value, operator, value.value));
    }

    method ReadWhere() returns (r: Result<seq<Predicate>, Error>)
      requires Valid()
      modifies this`index
      ensures Valid() && Follows(Where(upper, old(Left())), r, Left())
    {
      hide ParsePredicate;
      var isWhere := AcceptKeyword("WHERE");
      if !isWhere { return Ok([]); }
      var first := ReadPredicate();
      if first.Err? { return Err(first.error); }
      var ps := [first.value];
      ghost var spec := MorePredicates(upper, Left(), ps);
      while true
        invariant Valid() && spec == MorePredicates(upper, Left(), ps)
        decreases |Left()|
      {
        ghost var left := Left();
        var isAnd := AcceptKeyword("AND");
        if !isAnd { return Ok(ps); }
        ghost var after := Left();
        var next := ReadPredicate();
        if next.Err? { return Err(next.error); }
        PredicateConsumes(upper, after);
        ps := ps + [next.value];
      }
    }

    method ReadOrder() returns (r: Result<Option<OrderBy>, Error>)
      requires Valid()
      modifies this`index
      ensures Valid() && Follows(Order(old(Left())), r, Left())
    {
      ghost var start := Left();
      var isOrder := AcceptKeyword("ORDER");
      if !isOrder { return Ok(None); }
      var isBy := AcceptKeyword("BY");
      if !isBy { return Err(Expected("BY")); }
      assert Left() == start[2..];
      var field := ReadIdentifier();
      if field.Err? { return Err(field.error); }
      hide Identifier;
      var direction := "ASC";
      var asc := AcceptKeyword("ASC");
      if !asc {
        var desc := AcceptKeyword("DESC");
        if desc { direction := "DESC"; }
      }
      r := ReadNulls(field.value, direction);
    }

    method ReadNulls(field: string, direction: string) returns (r: Result<Option<OrderBy>, Error>)
      requires Valid()
      modifies this`index
      ensures Valid() && Follows(Nulls(field, direction, old(Left())), r, Left())
    {
      ghost var start := Left();
      var isNulls := AcceptKeyword("NULLS");
      if !isNulls { return Ok(Some(OrderBy(field, direction, "LAST"))); }
      var first := AcceptKeyword("FIRST");
      if first {
        assert Left() == start[2..];
        return Ok(Some(OrderBy(field, direction, "FIRST")));
      }
      var last := AcceptKeyword("LAST");
      if !last { return Err(Expected("FIRST or LAST")); }
      assert Left() == start[2..];
      r := Ok(Some(OrderBy(field, direction, "LAST")));
    }

    method ReadClause(clause: string) returns (r: Result<Option<nat>, Error>)
      requires Valid()
      modifies this`index
      ensures Valid() && Follows(Clause(upper, old(Left()), clause), r, Left())
    {
      hide ParseLiteral;
      var present := AcceptKeyword(clause);
      if !present { return Ok(None); }
      var value := ReadLiteral();
      if value.Err? { return Err(value.error); }
      if !value.value.Number? || value.value.n < 0 { return Err(NotAnInteger(clause)); }
      r := Ok(Some(value.value.n));
    }

    method ReadTail(fields: seq<string>, name: string) returns (r: Result<SelectQuery, Error>)
      requires Valid()
      modifies this`index
      ensures Valid() && r == Tail(upper, fields, name, old(Left()))
    {
      hide Where, Order, Clause;
      var ps := ReadWhere();
      if ps.Err? { return Err(ps.error); }
      var order := ReadOrder();
      if order.Err? { return Err(order.error); }
      var limit := ReadClause("LIMIT");
      if limit.Err? { return Err(limit.error); }
      var offset := ReadClause("OFFSET");
      if offset.Err? { return Err(offset.error); }
      if index < |tokens| { return Err(Unexpected(tokens[index].lexeme.value, tokens[index].position)); }
      r := Ok(SelectQuery(fields, name, ps.value, order.value, limit.value,
        if offset.value.None? then 0 else offset.value.value));
    }

    method ReadQuery() returns (r: Result<SelectQuery, Error>)
      requires Valid()
      modifies this`index
      ensures Valid() && r == Parse(upper, old(Left()))
    {
      hide Fields, Tail, Identifier;
      var isSelect := AcceptKeyword("SELECT");
      if !isSelect { return Err(Expected("SELECT")); }
      var fields := ReadFields();
      if fields.Err? { return Err(fields.error); }
      var isFrom := AcceptKeyword("FROM");
      if !isFrom { return Err(Expected("FROM")); }
      var name := ReadIdentifier();
      if name.Err? { return Err(name.error); }
      r := ReadTail(fields.value, name.value);
    }
  }

  lemma LiteralConsumes(upper: string -> string, ts: seq<Token>)
    requires |ts| > 0
    ensures ParseLiteral(upper, ts[1..]).Ok? ==> |ts| > 1 && ParseLiteral(upper, ts[1..]).value.rest == ts[2..]
  {
  }

  /** The whole parser is `ParseSoql`. */
  method Run(upper: string -> string, source: string) returns (r: Result<SelectQuery, Error>)
    ensures r == ParseSoql(upper, source)
  {
    hide Tokens, Parse;
    var ts := Tokenize(upper, source);
    if ts.Err? { return Err(ts.error); }
    var parser := new Parser(upper, ts.value);
    r := parser.ReadQuery();
  }
}
