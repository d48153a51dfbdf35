/** Printing trigger expressions with the parentheses that precedence and left associativity require, and no others. */
module Printing {
  import opened Wrappers
  import opened Lexing
  import opened Parsing

  /** `_expr_tokens` */
  function Tokens(e: Expr): set<string> {
    match e
    case Token(value) => {value}
    case Binary(_, left, right) => Tokens(left) + Tokens(right)
  }

  function Spelling(op: Op): string {
    if op == Or then " OR " else " AND "
  }

  function Print(e: Expr, level: nat): string {
    match e
    case Token(value) => value
    case Binary(op, left, right) =>
      var body := Print(left, Level(op)) + Spelling(op) + Print(right, Level(op) + 1);
      if Level(op) >= level then body else "(" + body + ")"
  }

  /** The lexemes of the printed expression. */
  function Printed(e: Expr, level: nat): seq<Lexeme> {
    match e
    case Token(value) => [Word(value)]
    case Binary(op, left, right) =>
      var body := Printed(left, Level(op)) + [Symbol(op)] + Printed(right, Level(op) + 1);
      if Level(op) >= level then body else [Open] + body + [Close]
  }

  // ----- The printed lexemes form the expression -----

  lemma {:induction false} FormsDown(lexemes: seq<Lexeme>, e: Expr, from: nat, to: nat)
    requires to <= from <= 2 && Forms(lexemes, e, from)
    ensures Forms(lexemes, e, to)
    decreases from
  {
    if to < from {
      FormsWeaker(lexemes, e, from - 1);
      FormsDown(lexemes, e, from - 1, to);
    }
  }

  lemma {:induction false} PrintedForms(e: Expr, level: nat)
    requires level <= 2
    ensures Forms(Printed(e, level), e, level)
  {
    if e.Token? {
      FormsDown([Word(e.value)], e, 2, level);
    } else {
      var a, b := Printed(e.left, Level(e.op)), Printed(e.right, Level(e.op) + 1);
      PrintedForms(e.left, Level(e.op));
      PrintedForms(e.right, Level(e.op) + 1);
      FormsOperation(a, b, e);
      var body := a + [Symbol(e.op)] + b;
      if Level(e.op) >= level {
        FormsDown(body, e, Level(e.op), level);
      } else {
        FormsDown(body, e, Level(e.op), 0);
        FormsParenthesised(body, e);
        FormsDown([Open] + body + [Close], e, 2, level);
      }
    }
  }

  /** No other way to write the expression has fewer lexemes, so no pair of parentheses can be left out. */
  lemma {:induction false} PrintedIsShortest(lexemes: seq<Lexeme>, e: Expr, level: nat)
    requires level <= 2 && Forms(lexemes, e, level)
    ensures |Printed(e, level)| <= |lexemes|
    decreases |lexemes|, 2 - level
  {
    if level == 2 {
      if !(e.Token? && lexemes == [Word(e.value)]) {
        PrintedIsShortest(lexemes[1..|lexemes| - 1], e, 0);
        assert |Printed(e, 2)| <= |Printed(e, 0)| + 2;
      }
    } else if Forms(lexemes, e, level + 1) {
      PrintedIsShortest(lexemes, e, level + 1);
      assert |Printed(e, level)| <= |Printed(e, level + 1)|;
    } else {
      var k: nat :| k < |lexemes| && SplitsAt(lexemes, e, level, k);
      PrintedIsShortest(lexemes[..k], e.left, level);
      PrintedIsShortest(lexemes[k + 1..], e.right, level + 1);
    }
  }

  // ----- Lexing the printed text -----

  ghost predicate AllLexable(classify: Classifier, e: Expr) {
    forall v {:trigger Lexable(classify, v)} :: v in Tokens(e) ==> Lexable(classify, v)
  }

  lemma LexBlank(classify: Classifier, rest: string)
    ensures LexFrom(classify, " " + rest, 0) == LexFrom(classify, rest, 0)
  {
    LexInside(classify, " ", rest, 0);
    PrependNothing([], LexFrom(classify, rest, 0));
  }

  lemma LexParenthesis(classify: Classifier, c: char, rest: string)
    requires c == '(' || c == ')'
    ensures LexFrom(classify, [c] + rest, 0) == Prepend([if c == '(' then Open else Close], LexFrom(classify, rest, 0))
  {
    LexInside(classify, [c], rest, 0);
  }

  /** The classifier knows the two operators. */
  predicate KnowsOperators(classify: Classifier) {
    classify("AND") == Ok(AndWord) && classify("OR") == Ok(OrWord)
  }

  lemma LexOperator(classify: Classifier, op: Op, rest: string)
    requires KnowsOperators(classify)
    ensures LexFrom(classify, Spelling(op) + rest, 0) == Prepend([Symbol(op)], LexFrom(classify, rest, 0))
  {
    var word := if op == Or then "OR" else "AND";
    var tail := " " + rest;
    assert Spelling(op) + rest == " " + (word + tail);
    LexBlank(classify, word + tail);
    assert WordEnd(word, 0) == Some(|word|);
    WordBeforeBreak(word, tail, 0);
    assert (word + tail)[0] == word[0] && (word + tail)[0..|word|] == word;
    LexInside(classify, word, tail, 0);
    LexBlank(classify, rest);
  }

  predicate MayFollow(rest: string) {
    rest == "" || Breaks(rest[0])
  }

  lemma {:induction false} LexPrinted(classify: Classifier, e: Expr, level: nat, rest: string)
    requires AllLexable(classify, e) && KnowsOperators(classify) && MayFollow(rest)
    ensures LexFrom(classify, Print(e, level) + rest, 0) == Prepend(Printed(e, level), LexFrom(classify, rest, 0))
    decreases e, 1
  {
    if e.Token? {
      assert e.value in Tokens(e);
      LexWord(classify, e.value, rest);
    } else if Level(e.op) >= level {
      LexBody(classify, e, rest);
    } else {
      var body := Print(e, Level(e.op));
      assert Print(e, level) + rest == ['('] + (body + ([')'] + rest));
      LexParenthesis(classify, '(', body + ([')'] + rest));
      LexBody(classify, e, [')'] + rest);
      LexParenthesis(classify, ')', rest);
      var r := LexFrom(classify, rest, 0);
      PrependTwice(Printed(e, Level(e.op)), [Close], r);
      PrependTwice([Open], Printed(e, Level(e.op)) + [Close], r);
      assert Printed(e, level) == [Open] + (Printed(e, Level(e.op)) + [Close]);
    }
  }

  lemma BodyText(e: Expr, rest: string)
    requires e.Binary?
    ensures Print(e, Level(e.op)) + rest
        == Print(e.left, Level(e.op)) + (Spelling(e.op) + (Print(e.right, Level(e.op) + 1) + rest))
  {
  }

  lemma BodyLexemes(e: Expr, r: Result<seq<Lexeme>, SyntaxError>)
    requires e.Binary?
    ensures Prepend(Printed(e.left, Level(e.op)),
        Prepend([Symbol(e.op)], Prepend(Printed(e.right, Level(e.op) + 1), r))) == Prepend(Printed(e, Level(e.op)), r)
  {
    PrependTwice([Symbol(e.op)], Printed(e.right, Level(e.op) + 1), r);
    PrependTwice(Printed(e.left, Level(e.op)), [Symbol(e.op)] + Printed(e.right, Level(e.op) + 1), r);
    assert Printed(e, Level(e.op))
        == Printed(e.left, Level(e.op)) + ([Symbol(e.op)] + Printed(e.right, Level(e.op) + 1));
  }

  lemma {:induction false} LexBody(classify: Classifier, e: Expr, rest: string)
    requires e.Binary? && AllLexable(classify, e) && KnowsOperators(classify) && MayFollow(rest)
    ensures LexFrom(classify, Print(e, Level(e.op)) + rest, 0)
        == Prepend(Printed(e, Level(e.op)), LexFrom(classify, rest, 0))
    decreases e, 0
  {
    var right := Print(e.right, Level(e.op) + 1) + rest;
    BodyText(e, rest);
    LexPrinted(classify, e.left, Level(e.op), Spelling(e.op) + right);
    LexOperator(classify, e.op, right);
    LexPrinted(classify, e.right, Level(e.op) + 1, rest);
    BodyLexemes(e, LexFrom(classify, rest, 0));
  }

  // ----- The round trip -----

  /** The tokens of an expression are words among the lexemes that form it. */
  lemma {:induction false} TokensAreWords(lexemes: seq<Lexeme>, e: Expr, level: nat, v: string)
    requires level <= 2 && Forms(lexemes, e, level) && v in Tokens(e)
    ensures Word(v) in lexemes
    decreases |lexemes|, 2 - level
  {
    if level == 2 {
      if !(e.Token? && lexemes == [Word(e.value)]) {
        TokensAreWords(lexemes[1..|lexemes| - 1], e, 0, v);
      }
    } else if Forms(lexemes, e, level + 1) {
      TokensAreWords(lexemes, e, level + 1, v);
    } else {
      var k: nat :| k < |lexemes| && SplitsAt(lexemes, e, level, k);
      if v in Tokens(e.left) {
        TokensAreWords(lexemes[..k], e.left, level, v);
      } else {
        TokensAreWords(lexemes[k + 1..], e.right, level + 1, v);
      }
    }
  }

  lemma OperatorsKnown(json: Json)
    ensures KnowsOperators(Classifying(json))
  {
  }

  lemma ParsedTokensAreLexable(json: Json, text: string, e: Expr)
    requires ParseText(json, text) == Ok(e)
    ensures AllLexable(Classifying(json), e)
  {
    var lexemes := Lexed(json, text).value;
    ParserDecidesGrammar(lexemes, e);
    ClassifyingIsFaithful(json);
    LexedWordsAreLexable(Classifying(json), text, 0);
    forall v | v in Tokens(e) ensures Lexable(Classifying(json), v) {
      TokensAreWords(lexemes, e, 0, v);
    }
  }

  /**
   Printing an expression and parsing the text gives the expression back exactly if its tokens are texts the
   lexer accepts.
   */
  lemma RoundTrip(json: Json, e: Expr)
    ensures ParseText(json, Print(e, 0)) == Ok(e) <==> AllLexable(Classifying(json), e)
  {
    var classify := Classifying(json);
    if AllLexable(classify, e) {
      OperatorsKnown(json);
      LexPrinted(classify, e, 0, "");
      assert Print(e, 0) + "" == Print(e, 0);
      PrependNothing(Printed(e, 0), Ok([]));
      PrintedForms(e, 0);
      FormsNotEmpty(Printed(e, 0), e, 0);
      ParserDecidesGrammar(Printed(e, 0), e);
    }
    if ParseText(json, Print(e, 0)) == Ok(e) {
      ParsedTokensAreLexable(json, Print(e, 0), e);
    }
  }

  /** Every text that can be parsed can be replaced by the print of its expression. */
  lemma PrintingNormalises(json: Json, text: string)
    requires ParseText(json, text).Ok?
    ensures ParseText(json, Print(ParseText(json, text).value, 0)) == ParseText(json, text)
  {
    var e := ParseText(json, text).value;
    ParsedTokensAreLexable(json, text, e);
    RoundTrip(json, e);
  }
}
