/** The keyword filter of the job search: a LIKE pattern whose meaning is substring search.
    LIKE and its escape character follow section 9.7.1 of the PostgreSQL documentation. */
module SearchPattern {
  import opened Text
  import opened Wrappers

  /** `%`, `_` and everything else, after the escape character has been interpreted. */
  datatype Token = AnyRun | AnyOne | Literal(c: char)

  // ----- SQL LIKE -----

  /** `None` when the pattern ends in a lone escape character, which the database rejects. */
  function Tokenize(pattern: string, escape: char): Option<seq<Token>> {
    if pattern == "" then Some([])
    else if pattern[0] == escape then
      if |pattern| == 1 then None else Prepend(Literal(pattern[1]), Tokenize(pattern[2..], escape))
    else if pattern[0] == '%' then Prepend(AnyRun, Tokenize(pattern[1..], escape))
    else if pattern[0] == '_' then Prepend(AnyOne, Tokenize(pattern[1..], escape))
    else Prepend(Literal(pattern[0]), Tokenize(pattern[1..], escape))
  }

  function Prepend(token: Token, tokens: Option<seq<Token>>): Option<seq<Token>> {
    if tokens.None? then None else Some([token] + tokens.value)
  }

  /** Whether the tokens match the whole text. */
  ghost predicate Matches(tokens: seq<Token>, text: string) {
    if tokens == [] then text == ""
    else match tokens[0]
      case AnyRun => exists cut :: 0 <= cut <= |text| && Matches(tokens[1..], text[cut..])
      case AnyOne => text != "" && Matches(tokens[1..], text[1..])
      case Literal(c) => text != "" && text[0] == c && Matches(tokens[1..], text[1..])
  }

  /** `text LIKE pattern ESCAPE escape`; `None` is the database's error. */
  ghost function Like(text: string, pattern: string, escape: char): Option<bool> {
    var tokens := Tokenize(pattern, escape);
    if tokens.None? then None else Some(Matches(tokens.value, text))
  }

  // ----- The search criteria -----

  /** The keyword as the record keeps it: stripped, and dropped when nothing is left. */
  datatype Criteria = Criteria(keyword: Option<string>)

  function MakeCriteria(keyword: Option<string>, space: char -> bool): Criteria {
    if keyword.None? then Criteria(None)
    else var stripped := Strip(keyword.value, space);
      Criteria(if stripped == "" then None else Some(stripped))
  }

  function KeywordPattern(criteria: Criteria): Option<string> {
    if criteria.keyword.None? then None
    else
      var escaped := ReplaceAll(ReplaceAll(ReplaceAll(criteria.keyword.value, "!", "!!"), "%", "!%"), "_", "!_");
      Some("%" + escaped + "%")
  }

  /** The clause the mapper adds: none without a pattern, else LIKE with escape character `!`. */
  ghost function KeywordClause(criteria: Criteria, question: string): Option<bool> {
    var pattern := KeywordPattern(criteria);
    if pattern.None? then Some(true) else Like(question, pattern.value, '!')
  }

  // ----- Escaping, character by character -----

  function EscapeChar(c: char): string {
    if c == '!' || c == '%' || c == '_' then ['!', c] else [c]
  }

  function Escape(keyword: string): string {
    if keyword == "" then "" else EscapeChar(keyword[0]) + Escape(keyword[1..])
  }

  lemma {:induction false} ReplaceCharCons(c: char, rest: string, target: char, replacement: string)
    ensures ReplaceAll([c] + rest, [target], replacement)
         == (if c == target then replacement else [c]) + ReplaceAll(rest, [target], replacement)
  {
    var s := [c] + rest;
    assert s[1..] == rest && (s[..1] == [target] <==> c == target) by {
      assert s[..1] == [c] && [c][0] == c && [target][0] == target;
    }
  }

  lemma ReplaceCharPair(a: char, b: char, rest: string, target: char, replacement: string)
    ensures ReplaceAll([a, b] + rest, [target], replacement)
         == (if a == target then replacement else [a]) + ((if b == target then replacement else [b])
            + ReplaceAll(rest, [target], replacement))
  {
    assert [a, b] + rest == [a] + ([b] + rest);
    ReplaceCharCons(a, [b] + rest, target, replacement);
    ReplaceCharCons(b, rest, target, replacement);
  }

  /** The three replacements, as they follow each other. */
  function ReplaceAllThree(keyword: string): string {
    ReplaceAll(ReplaceAll(ReplaceAll(keyword, "!", "!!"), "%", "!%"), "_", "!_")
  }

  lemma BangFirst(rest: string)
    ensures ReplaceAllThree(['!'] + rest) == ['!', '!'] + ReplaceAllThree(rest)
  {
    var first := ReplaceAll(rest, "!", "!!");
    var second := ReplaceAll(first, "%", "!%");
    ReplaceCharCons('!', rest, '!', "!!");
    assert "!!" == ['!', '!'];
    ReplaceCharPair('!', '!', first, '%', "!%");
    assert ['!'] + (['!'] + second) == ['!', '!'] + second;
    ReplaceCharPair('!', '!', second, '_', "!_");
    var third := ReplaceAll(second, "_", "!_");
    assert ['!'] + (['!'] + third) == ['!', '!'] + third;
  }

  lemma PercentFirst(rest: string)
    ensures ReplaceAllThree(['%'] + rest) == ['!', '%'] + ReplaceAllThree(rest)
  {
    var first := ReplaceAll(rest, "!", "!!");
    var second := ReplaceAll(first, "%", "!%");
    ReplaceCharCons('%', rest, '!', "!!");
    ReplaceCharCons('%', first, '%', "!%");
    assert "!%" == ['!', '%'];
    ReplaceCharPair('!', '%', second, '_', "!_");
    var third := ReplaceAll(second, "_", "!_");
    assert ['!'] + (['%'] + third) == ['!', '%'] + third;
  }

  lemma OtherFirst(c: char, rest: string)
    requires c != '!' && c != '%'
    ensures ReplaceAllThree([c] + rest) == EscapeChar(c) + ReplaceAllThree(rest)
  {
    var first := ReplaceAll(rest, "!", "!!");
    var second := ReplaceAll(first, "%", "!%");
    ReplaceCharCons(c, rest, '!', "!!");
    ReplaceCharCons(c, first, '%', "!%");
    ReplaceCharCons(c, second, '_', "!_");
  }

  /** The three replacements, one after the other, escape each character once. */
  lemma {:induction false} SequentialReplacesEscapeOnce(keyword: string)
    ensures ReplaceAll(ReplaceAll(ReplaceAll(keyword, "!", "!!"), "%", "!%"), "_", "!_") == Escape(keyword)
  {
    if keyword != "" {
      var c, rest := keyword[0], keyword[1..];
      assert keyword == [c] + rest;
      SequentialReplacesEscapeOnce(rest);
      if c == '!' {
        BangFirst(rest);
      } else if c == '%' {
        PercentFirst(rest);
      } else {
        OtherFirst(c, rest);
      }
      assert ReplaceAllThree(keyword) == EscapeChar(c) + ReplaceAllThree(rest);
    }
  }

  function Literals(keyword: string): seq<Token> {
    if keyword == "" then [] else [Literal(keyword[0])] + Literals(keyword[1..])
  }

  lemma EscapedCharTokenizes(c: char, tail: string)
    ensures Tokenize(EscapeChar(c) + tail, '!') == Prepend(Literal(c), Tokenize(tail, '!'))
  {
    var pattern := EscapeChar(c) + tail;
    assert pattern[|EscapeChar(c)|..] == tail;
  }

  lemma EscapeCons(keyword: string, rest: string)
    requires keyword != ""
    ensures Escape(keyword) + rest == EscapeChar(keyword[0]) + (Escape(keyword[1..]) + rest)
  {
  }

  lemma PrependLiteral(keyword: string, tokens: seq<Token>)
    requires keyword != ""
    ensures [Literal(keyword[0])] + (Literals(keyword[1..]) + tokens) == Literals(keyword) + tokens
  {
  }

  /** The escaped keyword is read back as the keyword's own characters. */
  lemma {:induction false} EscapeTokenizes(keyword: string, rest: string)
    requires Tokenize(rest, '!').Some?
    ensures Tokenize(Escape(keyword) + rest, '!') == Some(Literals(keyword) + Tokenize(rest, '!').value)
  {
    if keyword == "" {
      assert Escape(keyword) + rest == rest;
      assert Literals(keyword) + Tokenize(rest, '!').value == Tokenize(rest, '!').value;
    } else {
      var tail := Escape(keyword[1..]) + rest;
      EscapeCons(keyword, rest);
      EscapedCharTokenizes(keyword[0], tail);
      EscapeTokenizes(keyword[1..], rest);
      PrependLiteral(keyword, Tokenize(rest, '!').value);
    }
  }

  lemma {:induction false} LiteralsThenRun(keyword: string, text: string)
    ensures Matches(Literals(keyword) + [AnyRun], text) <==> keyword <= text
  {
    var tokens := Literals(keyword) + [AnyRun];
    if keyword == "" {
      assert tokens[1..] == [] && text[|text|..] == "";
      assert Matches(tokens[1..], text[|text|..]);
    } else {
      assert tokens[0] == Literal(keyword[0]) && tokens[1..] == Literals(keyword[1..]) + [AnyRun];
      if text != "" {
        LiteralsThenRun(keyword[1..], text[1..]);
        assert keyword == [keyword[0]] + keyword[1..] && text == [text[0]] + text[1..];
      }
    }
  }

  /** Matching the produced pattern is exactly literal substring search, for every keyword and text. */
  lemma PatternMeansContains(keyword: string, text: string)
    ensures Like(text, KeywordPattern(Criteria(Some(keyword))).value, '!') == Some(Contains(text, keyword))
  {
    var pattern := "%" + Escape(keyword) + "%";
    SequentialReplacesEscapeOnce(keyword);
    assert Tokenize("%", '!') == Some([AnyRun]) by {
      assert "%"[1..] == "" && [AnyRun] + [] == [AnyRun];
    }
    EscapeTokenizes(keyword, "%");
    assert pattern[1..] == Escape(keyword) + "%";
    var tokens := [AnyRun] + (Literals(keyword) + [AnyRun]);
    assert Tokenize(pattern, '!') == Some(tokens);
    assert tokens[1..] == Literals(keyword) + [AnyRun];
    forall cut | 0 <= cut <= |text|
      ensures Matches(tokens[1..], text[cut..]) <==> OccursAt(text, keyword, cut)
    {
      LiteralsThenRun(keyword, text[cut..]);
      if cut + |keyword| <= |text| {
        assert text[cut..][..|keyword|] == text[cut..cut + |keyword|];
      }
    }
  }

  /** The whole filter: every question for a blank keyword, else those containing it stripped. */
  lemma ClauseMeansContains(keyword: Option<string>, space: char -> bool, question: string)
    ensures KeywordClause(MakeCriteria(keyword, space), question)
         == Some(keyword.Some? ==> Contains(question, Strip(keyword.value, space)))
  {
    if keyword.Some? {
      var stripped := Strip(keyword.value, space);
      if stripped == "" {
        assert question[0..0] == "";
        assert OccursAt(question, stripped, 0);
      } else {
        PatternMeansContains(stripped, question);
      }
    }
  }
}
