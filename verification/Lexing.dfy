/** The lexer of trigger expressions. Whether a text is valid JSON is a parameter. */
module Lexing {
  import opened Wrappers

  datatype Lexeme = Open | Close | AndWord | OrWord | Word(value: string)

  datatype SyntaxError =
    | Blank | UnterminatedQuote | ManualReserved | CronUnquoted | CronFields | BadQuotedToken
    | ExpectedToken | MissingParenthesis | UnexpectedToken

  type Json = string -> bool

  /** `str.isspace` for one character. */
  predicate IsSpace(c: char) {
    var n := c as int;
    || 0x09 <= n <= 0x0D || 0x1C <= n <= 0x20 || n == 0x85 || n == 0xA0 || n == 0x1680
    || 0x2000 <= n <= 0x200A || n == 0x2028 || n == 0x2029 || n == 0x202F || n == 0x205F || n == 0x3000
  }

  /** Where a word cannot go on, unless quoted. */
  predicate Breaks(c: char) {
    IsSpace(c) || c == '(' || c == ')'
  }

  // ----- Words -----

  predicate StartsWith(s: string, prefix: string) {
    prefix <= s
  }

  predicate EndsWith(s: string, suffix: string) {
    |suffix| <= |s| && s[|s| - |suffix|..] == suffix
  }

  function RemovePrefix(s: string, prefix: string): string {
    if StartsWith(s, prefix) then s[|prefix|..] else s
  }

  function RemoveSuffix(s: string, suffix: string): string {
    if EndsWith(s, suffix) then s[..|s| - |suffix|] else s
  }

  function FieldEnd(s: string, i: nat): (end: nat)
    requires i <= |s|
    ensures i <= end <= |s|
    decreases |s| - i
  {
    if i == |s| || IsSpace(s[i]) then i else FieldEnd(s, i + 1)
  }

  /** `str.split()` */
  function Fields(s: string): seq<string>
    decreases |s|
  {
    if s == "" then []
    else if IsSpace(s[0]) then Fields(s[1..])
    else
      var end := FieldEnd(s, 1);
      [s[..end]] + Fields(s[end..])
  }

  /** `_cron_value` */
  function CronValue(token: string): string {
    RemoveSuffix(RemovePrefix(token, "cron:\""), "\"")
  }

  predicate IsCron(value: string) {
    StartsWith(value, "cron:\"") && EndsWith(value, "\"")
  }

  /** `value.split(":", 1)[1]`, if there is one. */
  function AfterColon(value: string): Option<string> {
    if value == "" then None else if value[0] == ':' then Some(value[1..]) else AfterColon(value[1..])
  }

  /** `_validate_token` */
  function Validate(json: Json, value: string): Option<SyntaxError> {
    if StartsWith(value, "manual:") then Some(ManualReserved)
    else if StartsWith(value, "cron:") && !IsCron(value) then Some(CronUnquoted)
    else if StartsWith(value, "cron:") && |Fields(CronValue(value))| != 5 then Some(CronFields)
    else if '"' in value && !IsCron(value)
        && (AfterColon(value).None? || !json(AfterColon(value).value)) then Some(BadQuotedToken)
    else None
  }

  function Upper(c: char): char {
    if 'a' <= c <= 'z' then (c as int - 32) as char else c
  }

  predicate SpellsWord(value: string, word: string) {
    |value| == |word| && forall i :: 0 <= i < |value| ==> Upper(value[i]) == word[i]
  }

  function Classify(json: Json, value: string): Result<Lexeme, SyntaxError> {
    if SpellsWord(value, "AND") then Ok(AndWord)
    else if SpellsWord(value, "OR") then Ok(OrWord)
    else
      var problem := Validate(json, value);
      if problem.Some? then Err(problem.value) else Ok(Word(value))
  }

  type Classifier = string -> Result<Lexeme, SyntaxError>

  function Classifying(json: Json): Classifier {
    (value: string) => Classify(json, value)
  }

  /** A classifier that keeps the text of a token. */
  ghost predicate Faithful(classify: Classifier) {
    forall value: string {:trigger classify(value)} ::
        classify(value).Ok? && classify(value).value.Word? ==> classify(value).value.value == value
  }

  lemma ClassifyingIsFaithful(json: Json)
    ensures Faithful(Classifying(json))
  {
  }

  // ----- Scanning -----

  /** The position of the next quote, or the end. */
  function NextQuote(text: string, i: nat): (end: nat)
    requires i <= |text|
    ensures i <= end <= |text| && (end < |text| ==> text[end] == '"')
    decreases |text| - i
  {
    if i == |text| || text[i] == '"' then i else NextQuote(text, i + 1)
  }

  /** Where the word that goes on at `i` ends; quoted parts may contain anything. Nothing when a quote stays open. */
  function WordEnd(text: string, i: nat): (end: Option<nat>)
    requires i <= |text|
    ensures end.Some? ==> i <= end.value <= |text|
    ensures end.Some? && i < |text| && !Breaks(text[i]) ==> i < end.value
    decreases |text| - i
  {
    if i == |text| || Breaks(text[i]) then Some(i)
    else if text[i] == '"' then
      var close := NextQuote(text, i + 1);
      if close == |text| then None else WordEnd(text, close + 1)
    else WordEnd(text, i + 1)
  }

  function Prepend(lexemes: seq<Lexeme>, r: Result<seq<Lexeme>, SyntaxError>): Result<seq<Lexeme>, SyntaxError> {
    if r.Ok? then Ok(lexemes + r.value) else r
  }

  /** One turn of the outer loop of `_lex`: the lexemes it adds, none or one, and where the next turn begins. */
  datatype Turn = Turn(found: seq<Lexeme>, next: nat)

  function TurnAt(classify: Classifier, text: string, i: nat): (turn: Result<Turn, SyntaxError>)
    requires i < |text|
    ensures turn.Ok? ==> i < turn.value.next <= |text|
  {
    if IsSpace(text[i]) then Ok(Turn([], i + 1))
    else if text[i] == '(' then Ok(Turn([Open], i + 1))
    else if text[i] == ')' then Ok(Turn([Close], i + 1))
    else
      var end := WordEnd(text, i);
      if end.None? then Err(UnterminatedQuote)
      else
        var word := classify(text[i..end.value]);
        if word.Err? then Err(word.error) else Ok(Turn([word.value], end.value))
  }

  /** The lexemes from position `i` on, or the first error. */
  function LexFrom(classify: Classifier, text: string, i: nat): Result<seq<Lexeme>, SyntaxError>
    requires i <= |text|
    decreases |text| - i
  {
    if i == |text| then Ok([])
    else
      var turn := TurnAt(classify, text, i);
      if turn.Err? then Err(turn.error) else Prepend(turn.value.found, LexFrom(classify, text, turn.value.next))
  }

  /** `_lex` */
  function Lexed(json: Json, text: string): Result<seq<Lexeme>, SyntaxError> {
    var r := LexFrom(Classifying(json), text, 0);
    if r == Ok([]) then Err(Blank) else r
  }

  lemma PrependTwice(a: seq<Lexeme>, b: seq<Lexeme>, r: Result<seq<Lexeme>, SyntaxError>)
    ensures Prepend(a, Prepend(b, r)) == Prepend(a + b, r)
  {
    if r.Ok? {
      assert a + (b + r.value) == a + b + r.value;
    }
  }

  lemma PrependNothing(lexemes: seq<Lexeme>, r: Result<seq<Lexeme>, SyntaxError>)
    ensures Prepend([], r) == r && Prepend(lexemes, Ok([])) == Ok(lexemes)
  {
    assert lexemes + [] == lexemes;
    if r.Ok? {
      assert [] + r.value == r.value;
    }
  }

  /** The inner loops of `_lex`. */
  method ScanWord(text: string, index: nat) returns (end: nat, quoted: bool)
    requires index <= |text|
    ensures quoted == WordEnd(text, index).None?
    ensures !quoted ==> Some(end) == WordEnd(text, index)
  {
    end, quoted := index, false;
    while end < |text| && !Breaks(text[end])
      invariant index <= end <= |text|
      invariant if quoted then end == |text| && WordEnd(text, index).None?
          else WordEnd(text, index) == WordEnd(text, end)
      decreases |text| - end
    {
      if text[end] == '"' {
        ghost var start := end;
        quoted := !quoted;
        end := end + 1;
        while end < |text|
          invariant start < end <= |text| && quoted
          invariant NextQuote(text, start + 1) == NextQuote(text, end)
        {
          if text[end] == '"' {
            quoted := !quoted;
            end := end + 1;
            break;
          }
          end := end + 1;
        }
        continue;
      }
      end := end + 1;
    }
  }

  /** One turn of the outer loop of `_lex`. */
  method ReadOne(classify: Classifier, text: string, index: nat) returns (turn: Result<Turn, SyntaxError>)
    requires index < |text|
    ensures turn == TurnAt(classify, text, index)
  {
    var c := text[index];
    if IsSpace(c) {
      return Ok(Turn([], index + 1));
    }
    if c == '(' || c == ')' {
      return Ok(Turn([if c == '(' then Open else Close], index + 1));
    }
    var end, quoted := ScanWord(text, index);
    if quoted {
      return Err(UnterminatedQuote);
    }
    var word := classify(text[index..end]);
    if word.Err? {
      return Err(word.error);
    }
    return Ok(Turn([word.value], end));
  }

  method Lex(json: Json, text: string) returns (r: Result<seq<Lexeme>, SyntaxError>)
    ensures r == Lexed(json, text)
  {
    var classify := Classifying(json);
    var lexemes: seq<Lexeme> := [];
    var index := 0;
    PrependNothing([], LexFrom(classify, text, 0));
    while index < |text|
      invariant index <= |text|
      invariant LexFrom(classify, text, 0) == Prepend(lexemes, LexFrom(classify, text, index))
      decreases |text| - index
    {
      var turn := ReadOne(classify, text, index);
      if turn.Err? {
        return Err(turn.error);
      }
      PrependTwice(lexemes, turn.value.found, LexFrom(classify, text, turn.value.next));
      lexemes := lexemes + turn.value.found;
      index := turn.value.next;
    }
    PrependNothing(lexemes, Ok([]));
    if lexemes == [] {
      return Err(Blank);
    }
    return Ok(lexemes);
  }

  // ----- Words on their own and inside a text -----

  /** The texts that a token of an expression can have. */
  predicate Lexable(classify: Classifier, value: string) {
    value != "" && WordEnd(value, 0) == Some(|value|) && classify(value) == Ok(Word(value))
  }

  lemma {:induction false} QuoteInside(prefix: string, text: string, i: nat)
    requires i <= |text|
    ensures NextQuote(prefix + text, |prefix| + i) == |prefix| + NextQuote(text, i)
    decreases |text| - i
  {
    if i < |text| && text[i] != '"' {
      QuoteInside(prefix, text, i + 1);
    }
  }

  function Shift(end: Option<nat>, n: nat): Option<nat> {
    if end.Some? then Some(end.value + n) else None
  }

  lemma {:induction false} WordInside(prefix: string, text: string, i: nat)
    requires i <= |text|
    ensures WordEnd(prefix + text, |prefix| + i) == Shift(WordEnd(text, i), |prefix|)
    decreases |text| - i
  {
    assert i < |text| ==> (prefix + text)[|prefix| + i] == text[i];
    if i < |text| && !Breaks(text[i]) {
      if text[i] == '"' {
        QuoteInside(prefix, text, i + 1);
        var close := NextQuote(text, i + 1);
        if close < |text| {
          WordInside(prefix, text, close + 1);
        }
      } else {
        WordInside(prefix, text, i + 1);
      }
    }
  }

  lemma SameCharacter(prefix: string, text: string, i: nat)
    requires i < |text|
    ensures (prefix + text)[|prefix| + i] == text[i]
  {
  }

  lemma SameSlice(prefix: string, text: string, i: nat, j: nat)
    requires i <= j <= |text|
    ensures (prefix + text)[|prefix| + i..|prefix| + j] == text[i..j]
  {
  }

  lemma TurnInside(classify: Classifier, prefix: string, text: string, i: nat)
    requires i < |text|
    ensures var turn := TurnAt(classify, text, i);
      TurnAt(classify, prefix + text, |prefix| + i)
          == if turn.Ok? then Ok(turn.value.(next := |prefix| + turn.value.next)) else turn
  {
    SameCharacter(prefix, text, i);
    WordInside(prefix, text, i);
    if WordEnd(text, i).Some? {
      SameSlice(prefix, text, i, WordEnd(text, i).value);
    }
  }

  /** What comes before a position does not matter for the lexemes after it. */
  lemma {:induction false} LexInside(classify: Classifier, prefix: string, text: string, i: nat)
    requires i <= |text|
    ensures LexFrom(classify, prefix + text, |prefix| + i) == LexFrom(classify, text, i)
    decreases |text| - i
  {
    if i < |text| {
      TurnInside(classify, prefix, text, i);
      var turn := TurnAt(classify, text, i);
      if turn.Ok? {
        LexInside(classify, prefix, text, turn.value.next);
      }
    }
  }

  lemma {:induction false} QuoteCut(text: string, i: nat, n: nat)
    requires i <= n <= |text|
    ensures NextQuote(text[..n], i) == if NextQuote(text, i) < n then NextQuote(text, i) else n
    decreases n - i
  {
    if i < n && text[i] != '"' {
      QuoteCut(text, i + 1, n);
    }
  }

  /** A word that ends at `n` ends there in the text cut off at `n`, too. */
  lemma {:induction false} WordCut(text: string, i: nat, n: nat)
    requires i <= n <= |text| && WordEnd(text, i) == Some(n)
    ensures WordEnd(text[..n], i) == Some(n)
    decreases n - i
  {
    if i < |text| && !Breaks(text[i]) {
      if text[i] == '"' {
        var close := NextQuote(text, i + 1);
        QuoteCut(text, i + 1, n);
        WordCut(text, close + 1, n);
      } else {
        WordCut(text, i + 1, n);
      }
    }
  }

  /** A word followed by a break ends where it ends on its own. */
  lemma {:induction false} WordBeforeBreak(value: string, rest: string, i: nat)
    requires i <= |value| && WordEnd(value, i) == Some(|value|) && (rest == "" || Breaks(rest[0]))
    ensures WordEnd(value + rest, i) == Some(|value|)
    decreases |value| - i
  {
    var text := value + rest;
    if i < |value| {
      assert text[i] == value[i];
      if value[i] == '"' {
        assert text[..|value|] == value;
        QuoteCut(text, i + 1, |value|);
        WordBeforeBreak(value, rest, NextQuote(value, i + 1) + 1);
      } else {
        WordBeforeBreak(value, rest, i + 1);
      }
    }
  }

  lemma LexWord(classify: Classifier, value: string, rest: string)
    requires Lexable(classify, value) && (rest == "" || Breaks(rest[0]))
    ensures LexFrom(classify, value + rest, 0) == Prepend([Word(value)], LexFrom(classify, rest, 0))
  {
    WordBeforeBreak(value, rest, 0);
    assert (value + rest)[0] == value[0];
    assert (value + rest)[0..|value|] == value;
    LexInside(classify, value, rest, 0);
  }

  lemma TurnIsLexable(classify: Classifier, text: string, i: nat)
    requires i < |text| && TurnAt(classify, text, i).Ok? && Faithful(classify)
    ensures forall x :: x in TurnAt(classify, text, i).value.found && x.Word? ==> Lexable(classify, x.value)
  {
    if !Breaks(text[i]) {
      var end := WordEnd(text, i).value;
      WordCut(text, i, end);
      var word := text[i..end];
      assert text[..i] + word == text[..end];
      WordInside(text[..i], word, 0);
    }
  }

  /** Every word the lexer yields is a text that it accepts on its own. */
  lemma {:induction false} LexedWordsAreLexable(classify: Classifier, text: string, i: nat)
    requires i <= |text| && LexFrom(classify, text, i).Ok? && Faithful(classify)
    ensures forall x :: x in LexFrom(classify, text, i).value && x.Word? ==> Lexable(classify, x.value)
    decreases |text| - i
  {
    if i < |text| {
      TurnIsLexable(classify, text, i);
      LexedWordsAreLexable(classify, text, TurnAt(classify, text, i).value.next);
    }
  }
}
