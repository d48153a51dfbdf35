/** Evaluating trigger expressions on a set of active events. */
module Evaluation {
  import opened Parsing
  import opened Printing

  /** `_eval_expr` */
  predicate Eval(e: Expr, active: set<string>) {
    match e
    case Token(value) => value in active
    case Binary(op, left, right) =>
      if op == And then Eval(left, active) && Eval(right, active) else Eval(left, active) || Eval(right, active)
  }

  /** `matched_tokens` */
  function Matched(e: Expr, active: set<string>): set<string> {
    Tokens(e) * active
  }

  /** More events never make an expression false. */
  lemma {:induction false} EvalIsMonotone(e: Expr, active: set<string>, more: set<string>)
    requires Eval(e, active) && active <= more
    ensures Eval(e, more)
  {
    if e.Binary? {
      if Eval(e.left, active) {
        EvalIsMonotone(e.left, active, more);
      }
      if Eval(e.right, active) {
        EvalIsMonotone(e.right, active, more);
      }
    }
  }

  /** Only the expression's own tokens matter. */
  lemma {:induction false} EvalOwnTokens(e: Expr, a: set<string>, b: set<string>)
    requires a * Tokens(e) == b * Tokens(e)
    ensures Eval(e, a) == Eval(e, b)
  {
    match e
    case Token(value) =>
      assert value in a <==> value in a * Tokens(e);
      assert value in b <==> value in b * Tokens(e);
    case Binary(_, left, right) =>
      assert a * Tokens(left) == a * Tokens(e) * Tokens(left) && b * Tokens(left) == b * Tokens(e) * Tokens(left);
      assert a * Tokens(right) == a * Tokens(e) * Tokens(right) && b * Tokens(right) == b * Tokens(e) * Tokens(right);
      EvalOwnTokens(left, a, b);
      EvalOwnTokens(right, a, b);
  }

  /** The matched tokens alone decide the expression. */
  lemma MatchedTokensDecide(e: Expr, active: set<string>)
    ensures Eval(e, Matched(e, active)) == Eval(e, active)
  {
    assert Matched(e, active) * Tokens(e) == active * Tokens(e);
    EvalOwnTokens(e, Matched(e, active), active);
  }

  /** Without events nothing is true. */
  lemma {:induction false} NothingIsTrueOfNothing(e: Expr)
    ensures !Eval(e, {})
  {
    if e.Binary? {
      NothingIsTrueOfNothing(e.left);
      NothingIsTrueOfNothing(e.right);
    }
  }

  /** An event that makes an expression true is one of its tokens. */
  lemma FlippedByOwnToken(e: Expr, active: set<string>, event: string)
    requires !Eval(e, active) && Eval(e, active + {event})
    ensures event in Tokens(e)
  {
    if active * Tokens(e) == (active + {event}) * Tokens(e) {
      EvalOwnTokens(e, active, active + {event});
    }
  }

  method EvaluateExpression(e: Expr, active: set<string>) returns (holds: bool, matched: set<string>)
    ensures holds == Eval(e, active) == Eval(e, matched)
    ensures holds ==> matched != {} && matched <= active && matched <= Tokens(e)
  {
    holds := Eval(e, active);
    matched := Matched(e, active);
    MatchedTokensDecide(e, active);
    NothingIsTrueOfNothing(e);
  }
}
