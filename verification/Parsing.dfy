/** The recursive-descent parser of trigger expressions, the grammar it decides, and printing. */
module Parsing {
  import opened Wrappers
  import opened Lexing

  datatype Op = And | Or

  datatype Expr = Token(value: string) | Binary(op: Op, left: Expr, right: Expr)

  /** OR binds at level 0, AND at level 1; level 2 is for tokens and parentheses. */
  function Level(op: Op): (level: nat)
    ensures level <= 1
  {
    if op == Or then 0 else 1
  }

  function Symbol(op: Op): Lexeme {
    if op == Or then OrWord else AndWord
  }

  function OpAt(level: nat): (op: Op)
    ensures level <= 1 ==> Level(op) == level
  {
    if level == 0 then Or else And
  }

  // ----- The grammar -----

  /** The lexemes from position `k` are the right operand, those before the operator the left one. */
  ghost predicate SplitsAt(lexemes: seq<Lexeme>, e: Expr, level: nat, k: nat)
    requires e.Binary? && k < |lexemes| && level <= 1
    decreases |lexemes|, 2 - level, 0
  {
    lexemes[k] == Symbol(e.op) && Forms(lexemes[..k], e.left, level) && Forms(lexemes[k + 1..], e.right, level + 1)
  }

  /**
   The lexemes form the expression at the given level: a left-associative chain of operands of the
   next level, or, at level 2, a token or a parenthesised expression.
   */
  ghost predicate Forms(lexemes: seq<Lexeme>, e: Expr, level: nat)
    requires level <= 2
    decreases |lexemes|, 2 - level, 1
  {
    if level == 2 then
      || (e.Token? && lexemes == [Word(e.value)])
      || (|lexemes| > 2 && lexemes[0] == Open && lexemes[|lexemes| - 1] == Close
          && Forms(lexemes[1..|lexemes| - 1], e, 0))
    else
      || Forms(lexemes, e, level + 1)
      || (e.Binary? && Level(e.op) == level && exists k: nat :: k < |lexemes| && SplitsAt(lexemes, e, level, k))
  }

  // ----- Parsing as a function -----

  datatype Parsed = Parsed(expr: Expr, rest: seq<Lexeme>)

  /** `_or` (level 0), `_and` (level 1) and `_primary` (level 2). */
  function ParseAt(lexemes: seq<Lexeme>, level: nat): (r: Result<Parsed, SyntaxError>)
    requires level <= 2
    ensures r.Ok? ==> |r.value.rest| < |lexemes|
    decreases |lexemes|, 2 - level, 0
  {
    if level < 2 then
      var first := ParseAt(lexemes, level + 1);
      if first.Err? then first else Chain(first.value.expr, first.value.rest, level)
    else if lexemes == [] then Err(ExpectedToken)
    else if lexemes[0] == Open then
      var inner := ParseAt(lexemes[1..], 0);
      if inner.Err? then inner
      else if inner.value.rest == [] || inner.value.rest[0] != Close then Err(MissingParenthesis)
      else Ok(Parsed(inner.value.expr, inner.value.rest[1..]))
    else if lexemes[0].Word? then Ok(Parsed(Token(lexemes[0].value), lexemes[1..]))
    else Err(ExpectedToken)
  }

  /** The loops of `_or` and `_and`: further operands, chained to the left. */
  function Chain(left: Expr, lexemes: seq<Lexeme>, level: nat): (r: Result<Parsed, SyntaxError>)
    requires level <= 1
    ensures r.Ok? ==> |r.value.rest| <= |lexemes|
    decreases |lexemes|, 2 - level, 0
  {
    if lexemes == [] || lexemes[0] != Symbol(OpAt(level)) then Ok(Parsed(left, lexemes))
    else
      var right := ParseAt(lexemes[1..], level + 1);
      if right.Err? then right else Chain(Binary(OpAt(level), left, right.value.expr), right.value.rest, level)
  }

  /** `_Parser.parse` on the lexemes. */
  function Parse(lexemes: seq<Lexeme>): Result<Expr, SyntaxError> {
    var r := ParseAt(lexemes, 0);
    if r.Err? then Err(r.error)
    else if r.value.rest != [] then Err(UnexpectedToken)
    else Ok(r.value.expr)
  }

  /** `TriggerExpression(text).root` */
  function ParseText(json: Json, text: string): Result<Expr, SyntaxError> {
    var lexemes := Lexed(json, text);
    if lexemes.Err? then Err(lexemes.error) else Parse(lexemes.value)
  }

  class Parser {
    const lexemes: seq<Lexeme>
    var index: nat

    ghost predicate Valid()
      reads this
    {
      index <= |lexemes|
    }

    constructor (lexemes: seq<Lexeme>)
      ensures Valid() && index == 0 && this.lexemes == lexemes
    {
      this.lexemes := lexemes;
      index := 0;
    }

    /** What is left to read. */
    ghost function Rest(): seq<Lexeme>
      requires Valid()
      reads this
    {
      lexemes[index..]
    }

    /** The outcome of a rule is that of `spec`; when it succeeds, the parser stands behind what was read. */
    ghost predicate Follows(r: Result<Expr, SyntaxError>, spec: Result<Parsed, SyntaxError>)
      requires Valid()
      reads this
    {
      if r.Ok? then spec == Ok(Parsed(r.value, Rest())) else spec == Err(r.error)
    }

    method Match(lexeme: Lexeme) returns (matched: bool)
      requires Valid()
      modifies this`index
      ensures Valid() && matched == (old(Rest()) != [] && old(Rest())[0] == lexeme)
      ensures Rest() == if matched then old(Rest())[1..] else old(Rest())
    {
      if index == |lexemes| || lexemes[index] != lexeme {
        return false;
      }
      index := index + 1;
      return true;
    }

    method ParsePrimary() returns (r: Result<Expr, SyntaxError>)
      requires Valid()
      modifies this`index
      ensures Valid() && Follows(r, ParseAt(old(Rest()), 2)) && index >= old(index)
      decreases |lexemes| - index, 0
    {
      var isOpen := Match(Open);
      if isOpen {
        r := ParseOr();
        if r.Ok? {
          var isClosed := Match(Close);
          if !isClosed {
            return Err(MissingParenthesis);
          }
        }
        return;
      }
      if index == |lexemes| || !lexemes[index].Word? {
        return Err(ExpectedToken);
      }
      index := index + 1;
      return Ok(Token(lexemes[index - 1].value));
    }

    method ParseAnd() returns (r: Result<Expr, SyntaxError>)
      requires Valid()
      modifies this`index
      ensures Valid() && Follows(r, ParseAt(old(Rest()), 1)) && index >= old(index)
      decreases |lexemes| - index, 1
    {
      r := ParsePrimary();
      if r.Err? {
        return;
      }
      var more := true;
      while more
        invariant Valid() && index > old(index) && r.Ok?
        invariant ParseAt(old(Rest()), 1) == if more then Chain(r.value, Rest(), 1) else Ok(Parsed(r.value, Rest()))
        decreases |lexemes| - index, more
      {
        more := Match(AndWord);
        if more {
          var right := ParsePrimary();
          if right.Err? {
            return right;
          }
          r := Ok(Binary(And, r.value, right.value));
        }
      }
    }

    method ParseOr() returns (r: Result<Expr, SyntaxError>)
      requires Valid()
      modifies this`index
      ensures Valid() && Follows(r, ParseAt(old(Rest()), 0)) && index >= old(index)
      decreases |lexemes| - index, 2
    {
      r := ParseAnd();
      if r.Err? {
        return;
      }
      var more := true;
      while more
        invariant Valid() && index > old(index) && r.Ok?
        invariant ParseAt(old(Rest()), 0) == if more then Chain(r.value, Rest(), 0) else Ok(Parsed(r.value, Rest()))
        decreases |lexemes| - index, more
      {
        more := Match(OrWord);
        if more {
          var right := ParseAnd();
          if right.Err? {
            return right;
          }
          r := Ok(Binary(Or, r.value, right.value));
        }
      }
    }

    method ParseAll() returns (r: Result<Expr, SyntaxError>)
      requires Valid() && index == 0
      modifies this`index
      ensures r == Parse(lexemes)
    {
      assert Rest() == lexemes;
      r := ParseOr();
      if r.Ok? && index < |lexemes| {
        return Err(UnexpectedToken);
      }
    }
  }

  /** `TriggerExpression.__init__` */
  method ParseExpression(json: Json, text: string) returns (r: Result<Expr, SyntaxError>)
    ensures r == ParseText(json, text)
  {
    var lexemes := Lex(json, text);
    if lexemes.Err? {
      return Err(lexemes.error);
    }
    var parser := new Parser(lexemes.value);
    r := parser.ParseAll();
  }

  // ----- The parser decides the grammar -----

  /** What a rule makes of an operand and the lexemes behind it. */
  function Onward(e: Expr, rest: seq<Lexeme>, level: nat): Result<Parsed, SyntaxError>
    requires level <= 2
  {
    if level == 2 then Ok(Parsed(e, rest)) else Chain(e, rest, level)
  }

  /** No operator that binds more tightly than the level follows. */
  predicate EndsOperand(rest: seq<Lexeme>, level: nat) {
    level == 0 && rest != [] ==> rest[0] != AndWord
  }

  /** Whatever has the form of an expression is parsed as that expression. */
  lemma {:induction false} FormsAreParsed(lexemes: seq<Lexeme>, e: Expr, level: nat, rest: seq<Lexeme>)
    requires level <= 2 && Forms(lexemes, e, level) && EndsOperand(rest, level)
    ensures ParseAt(lexemes + rest, level) == Onward(e, rest, level)
    decreases |lexemes|, 2 - level
  {
    if level == 2 {
      PrimaryIsParsed(lexemes, e, rest);
    } else if Forms(lexemes, e, level + 1) {
      FormsAreParsed(lexemes, e, level + 1, rest);
      assert Onward(e, rest, level + 1) == Ok(Parsed(e, rest));
    } else {
      var k: nat :| k < |lexemes| && SplitsAt(lexemes, e, level, k);
      ChainIsParsed(lexemes, e, level, k, rest);
    }
  }

  lemma {:induction false} PrimaryIsParsed(lexemes: seq<Lexeme>, e: Expr, rest: seq<Lexeme>)
    requires Forms(lexemes, e, 2)
    ensures ParseAt(lexemes + rest, 2) == Ok(Parsed(e, rest))
    decreases |lexemes|, 0, 0
  {
    if e.Token? && lexemes == [Word(e.value)] {
      assert (lexemes + rest)[1..] == rest;
    } else {
      var inner := lexemes[1..|lexemes| - 1];
      FormsAreParsed(inner, e, 0, [Close] + rest);
      assert (lexemes + rest)[1..] == inner + ([Close] + rest);
      assert ([Close] + rest)[1..] == rest;
      assert Onward(e, [Close] + rest, 0) == Ok(Parsed(e, [Close] + rest));
    }
  }

  lemma {:induction false} ChainIsParsed(lexemes: seq<Lexeme>, e: Expr, level: nat, k: nat, rest: seq<Lexeme>)
    requires level <= 1 && e.Binary? && Level(e.op) == level && k < |lexemes| && SplitsAt(lexemes, e, level, k)
        && EndsOperand(rest, level)
    ensures ParseAt(lexemes + rest, level) == Chain(e, rest, level)
    decreases |lexemes|, 0, 0
  {
    var a, b := lexemes[..k], lexemes[k + 1..];
    var tail := [Symbol(e.op)] + (b + rest);
    assert lexemes + rest == a + tail;
    FormsAreParsed(a, e.left, level, tail);
    FormsAreParsed(b, e.right, level + 1, rest);
    assert tail[1..] == b + rest;
    assert Onward(e.right, rest, level + 1) == Ok(Parsed(e.right, rest));
    assert OpAt(level) == e.op;
  }

  // ----- Building forms -----

  lemma FormsParenthesised(inner: seq<Lexeme>, e: Expr)
    requires inner != [] && Forms(inner, e, 0)
    ensures Forms([Open] + inner + [Close], e, 2)
  {
    assert ([Open] + inner + [Close])[1..|inner| + 1] == inner;
  }

  lemma FormsOperation(a: seq<Lexeme>, b: seq<Lexeme>, e: Expr)
    requires e.Binary? && Forms(a, e.left, Level(e.op)) && Forms(b, e.right, Level(e.op) + 1)
    ensures Forms(a + [Symbol(e.op)] + b, e, Level(e.op))
  {
    var all := a + [Symbol(e.op)] + b;
    assert all[..|a|] == a && all[|a| + 1..] == b;
    assert SplitsAt(all, e, Level(e.op), |a|);
  }

  lemma FormsWeaker(lexemes: seq<Lexeme>, e: Expr, level: nat)
    requires level <= 1 && Forms(lexemes, e, level + 1)
    ensures Forms(lexemes, e, level)
  {
  }

  lemma {:induction false} FormsNotEmpty(lexemes: seq<Lexeme>, e: Expr, level: nat)
    requires level <= 2 && Forms(lexemes, e, level)
    ensures lexemes != []
    decreases 2 - level
  {
    if level < 2 && Forms(lexemes, e, level + 1) {
      FormsNotEmpty(lexemes, e, level + 1);
    }
  }

  lemma Regroup(a: seq<Lexeme>, b: seq<Lexeme>, c: seq<Lexeme>)
    ensures a + (b + c) == a + b + c
  {
  }

  /** What a rule accepts has the form of the expression it returns. */
  lemma {:induction false} ParsedHasForm(lexemes: seq<Lexeme>, level: nat) returns (read: seq<Lexeme>)
    requires level <= 2 && ParseAt(lexemes, level).Ok?
    ensures lexemes == read + ParseAt(lexemes, level).value.rest
        && Forms(read, ParseAt(lexemes, level).value.expr, level)
    decreases |lexemes|, 2 - level, 1
  {
    if level == 2 {
      read := PrimaryHasForm(lexemes);
    } else {
      var first := ParseAt(lexemes, level + 1).value;
      var front := ParsedHasForm(lexemes, level + 1);
      FormsWeaker(front, first.expr, level);
      var more := ChainHasForm(front, first.expr, first.rest, level);
      Regroup(front, more, ParseAt(lexemes, level).value.rest);
      read := front + more;
    }
  }

  lemma {:induction false} PrimaryHasForm(lexemes: seq<Lexeme>) returns (read: seq<Lexeme>)
    requires ParseAt(lexemes, 2).Ok?
    ensures lexemes == read + ParseAt(lexemes, 2).value.rest && Forms(read, ParseAt(lexemes, 2).value.expr, 2)
    decreases |lexemes|, 0, 0
  {
    if lexemes[0] == Open {
      var inner := ParsedHasForm(lexemes[1..], 0);
      var e := ParseAt(lexemes[1..], 0).value.expr;
      FormsNotEmpty(inner, e, 0);
      FormsParenthesised(inner, e);
      read := [Open] + inner + [Close];
    } else {
      read := [lexemes[0]];
    }
  }

  /** One more operand of a chain. */
  lemma ChainGoesOn(left: Expr, lexemes: seq<Lexeme>, level: nat)
    requires level <= 1 && Chain(left, lexemes, level).Ok? && lexemes != [] && lexemes[0] == Symbol(OpAt(level))
    ensures ParseAt(lexemes[1..], level + 1).Ok?
    ensures var right := ParseAt(lexemes[1..], level + 1).value;
      Chain(left, lexemes, level) == Chain(Binary(OpAt(level), left, right.expr), right.rest, level)
  {
  }

  lemma {:induction false} ChainHasForm(done: seq<Lexeme>, left: Expr, lexemes: seq<Lexeme>, level: nat)
      returns (read: seq<Lexeme>)
    requires level <= 1 && Forms(done, left, level) && Chain(left, lexemes, level).Ok?
    ensures lexemes == read + Chain(left, lexemes, level).value.rest
        && Forms(done + read, Chain(left, lexemes, level).value.expr, level)
    decreases |lexemes|, 2 - level, 1
  {
    if lexemes == [] || lexemes[0] != Symbol(OpAt(level)) {
      read := [];
      assert done + [] == done;
    } else {
      ChainGoesOn(left, lexemes, level);
      var right := ParseAt(lexemes[1..], level + 1).value;
      var operand := ParsedHasForm(lexemes[1..], level + 1);
      read := LongerChain(done, left, [lexemes[0]], operand, right, level);
      assert lexemes == [lexemes[0]] + lexemes[1..];
    }
  }

  lemma {:induction false} LongerChain(done: seq<Lexeme>, left: Expr, symbol: seq<Lexeme>, operand: seq<Lexeme>,
      right: Parsed, level: nat) returns (read: seq<Lexeme>)
    requires level <= 1 && Forms(done, left, level) && symbol == [Symbol(OpAt(level))]
        && Forms(operand, right.expr, level + 1)
    requires Chain(Binary(OpAt(level), left, right.expr), right.rest, level).Ok?
    ensures var end := Chain(Binary(OpAt(level), left, right.expr), right.rest, level).value;
      symbol + (operand + right.rest) == read + end.rest && Forms(done + read, end.expr, level)
    decreases |right.rest|, 2 - level, 2
  {
    var e := Binary(OpAt(level), left, right.expr);
    FormsOperation(done, operand, e);
    var more := ChainHasForm(done + symbol + operand, e, right.rest, level);
    read := symbol + operand + more;
    Regroup(symbol + operand, more, Chain(e, right.rest, level).value.rest);
    Regroup(symbol, operand, right.rest);
    Regroup(done, symbol, operand);
    Regroup(done, symbol + operand, more);
  }

  /**
   The parser accepts exactly the lexeme sequences of the grammar, all lexemes consumed, and returns the
   expression they form.
   */
  lemma ParserDecidesGrammar(lexemes: seq<Lexeme>, e: Expr)
    ensures Parse(lexemes) == Ok(e) <==> Forms(lexemes, e, 0)
  {
    if Forms(lexemes, e, 0) {
      FormsAreParsed(lexemes, e, 0, []);
      assert lexemes + [] == lexemes;
    }
    if Parse(lexemes) == Ok(e) {
      var read := ParsedHasForm(lexemes, 0);
      assert read + [] == read;
    }
  }
}
