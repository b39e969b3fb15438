/**
 The verdict on a student's answer: tokenise, parse, sort, compare; or compare as normalised text
 when one side is not all numbers.
 */
module AnswerChecking {
  import opened Outcomes
  import opened Orders
  import opened Permutations
  import opened Text
  import opened AnswerMatching

  /** The two library functions whose definitions lie outside the model. */
  datatype Library = Library(parseFloat: string -> Option<real>, toLower: char -> char)

  predicate AnswerSeparator(c: char) {
    c == ',' || c == ';' || IsSpace(c)
  }

  // ---- Parsing one token ----

  function ReplaceChar(s: string, from: char, to: char): string {
    seq(|s|, i requires 0 <= i < |s| => if s[i] == from then to else s[i])
  }

  function CountChar(s: string, c: char): nat {
    multiset(s)[c]
  }

  function IndexOf(s: string, c: char): (i: nat)
    requires c in s
    ensures i < |s| && s[i] == c
  {
    if s[0] == c then 0 else
      assert s == [s[0]] + s[1..];
      1 + IndexOf(s[1..], c)
  }

  function ParseNumericToken(lib: Library, token: string): Option<real> {
    var value := TrimSpace(ReplaceChar(token, ',', '.'));
    if value == "" then None
    else if CountChar(value, '/') == 1 then
      var slash := IndexOf(value, '/');
      var left := lib.parseFloat(TrimSpace(value[..slash]));
      var right := lib.parseFloat(TrimSpace(value[slash + 1..]));
      if left.None? || right.None? || right.value == 0.0 then None else Some(left.value / right.value)
    else lib.parseFloat(value)
  }

  // ---- What an answer means ----

  function AnswerTokens(value: string): seq<string> {
    Fields(AnswerSeparator, value)
  }

  ghost predicate AllParse(lib: Library, tokens: seq<string>) {
    forall i :: 0 <= i < |tokens| ==> ParseNumericToken(lib, tokens[i]).Some?
  }

  ghost predicate Numeric(lib: Library, value: string) {
    AnswerTokens(value) != [] && AllParse(lib, AnswerTokens(value))
  }

  /** The values of the tokens, in the order written. */
  ghost function ValuesOf(lib: Library, tokens: seq<string>): (values: seq<real>)
    requires AllParse(lib, tokens)
    ensures |values| == |tokens|
  {
    seq(|tokens|, i requires 0 <= i < |tokens| => ParseNumericToken(lib, tokens[i]).value)
  }

  function Lower(lib: Library, s: string): string {
    seq(|s|, i requires 0 <= i < |s| => lib.toLower(s[i]))
  }

  function Words(lib: Library, value: string): seq<string> {
    Fields(IsSpace, Lower(lib, TrimSpace(value)))
  }

  /**
   An answer is right when neither side is blank and either both are lists of numbers that can be
   paired off within the tolerance, or, if one side is not all numbers, both are the same words up to case.
   */
  ghost predicate Accepts(lib: Library, expected: string, actual: string) {
    && !AllOf(IsSpace, expected) && !AllOf(IsSpace, actual)
    && if Numeric(lib, expected) && Numeric(lib, actual)
       then CanPair(ValuesOf(lib, AnswerTokens(expected)), ValuesOf(lib, AnswerTokens(actual)))
       else Words(lib, expected) == Words(lib, actual)
  }

  // ---- The code ----

  /** Trimming the fields and dropping empty ones changes nothing: a field holds no space and is never empty. */
  method SplitAnswerTokens(value: string) returns (out: seq<string>)
    ensures out == AnswerTokens(value)
  {
    var fields := Fields(AnswerSeparator, value);
    FieldsAreTokens(AnswerSeparator, value);
    out := [];
    for i := 0 to |fields|
      invariant out == fields[..i]
    {
      TrimSpaceKeepsTokens(fields[i]);
      var field := TrimSpace(fields[i]);
      if field != "" {
        out := out + [field];
      }
    }
  }

  lemma {:induction false} FieldsAreTokens(sep: char -> bool, s: string)
    ensures forall i :: 0 <= i < |Fields(sep, s)| ==> Fields(sep, s)[i] != "" && NoneOf(sep, Fields(sep, s)[i])
  {
    var lead, pieces := JoinUndoesSplit(sep, s);
  }

  method ParseNumericAnswer(lib: Library, value: string) returns (r: Option<seq<real>>)
    ensures r.Some? <==> Numeric(lib, value)
    ensures r.Some? ==>
      Sorted(RealLe, r.value) && multiset(r.value) == multiset(ValuesOf(lib, AnswerTokens(value)))
  {
    var parts := SplitAnswerTokens(value);
    if |parts| == 0 {
      return None;
    }
    var values: seq<real> := [];
    for i := 0 to |parts|
      invariant AllParse(lib, parts[..i])
      invariant values == ValuesOf(lib, parts[..i])
    {
      var number := ParseNumericToken(lib, parts[i]);
      ParseStep(lib, parts, i);
      if number.None? {
        return None;
      }
      values := values + [number.value];
    }
    assert parts[..|parts|] == parts;
    RealLeIsTotalOrder();
    return Some(Sort(RealLe, values));
  }

  lemma {:induction false} ParseStep(lib: Library, parts: seq<string>, i: nat)
    requires i < |parts| && AllParse(lib, parts[..i])
    ensures var number := ParseNumericToken(lib, parts[i]);
      if number.None? then !AllParse(lib, parts)
      else AllParse(lib, parts[..i + 1]) && ValuesOf(lib, parts[..i + 1]) == ValuesOf(lib, parts[..i]) + [number.value]
  {
    assert parts[..i + 1] == parts[..i] + [parts[i]];
  }

  function NormalizeTextAnswer(lib: Library, value: string): string {
    Join(Fields(IsSpace, Lower(lib, TrimSpace(value))), " ")
  }

  method IsCorrectAnswer(lib: Library, expected: string, actual: string) returns (correct: bool)
    ensures correct <==> Accepts(lib, expected, actual)
  {
    var e, a := TrimSpace(expected), TrimSpace(actual);
    BlankMeansAllSpaces(expected);
    BlankMeansAllSpaces(actual);
    if e == "" || a == "" {
      return false;
    }
    TrimmingKeepsFields(AnswerSeparator, expected);
    TrimmingKeepsFields(AnswerSeparator, actual);
    var expectedNumbers := ParseNumericAnswer(lib, e);
    var actualNumbers := ParseNumericAnswer(lib, a);
    if expectedNumbers.Some? && actualNumbers.Some? {
      SortedComparisonMeansPairing(ValuesOf(lib, AnswerTokens(expected)), ValuesOf(lib, AnswerTokens(actual)),
                                   expectedNumbers.value, actualNumbers.value);
      correct := EqualNumericAnswers(expectedNumbers.value, actualNumbers.value);
    } else {
      TrimTwice(expected);
      TrimTwice(actual);
      NormalFormIsWords(lib, expected, actual);
      correct := NormalizeTextAnswer(lib, e) == NormalizeTextAnswer(lib, a);
    }
  }

  lemma {:induction false} TrimTwice(s: string)
    ensures TrimSpace(TrimSpace(s)) == TrimSpace(s)
  {
    var lead, trail := TrimSpaceDropsSpaces(s);
  }

  // ---- Normalised text compares words ----

  /** The pieces of words glued by single spaces. */
  function Glued(words: seq<string>): seq<Piece> {
    seq(|words|, i requires 0 <= i < |words| => Piece(words[i], if i < |words| - 1 then " " else ""))
  }

  lemma {:induction false} JoinIsRender(words: seq<string>)
    ensures Join(words, " ") == Render(Glued(words))
  {
    if |words| > 1 {
      JoinIsRender(words[1..]);
      assert Glued(words)[1..] == Glued(words[1..]);
    } else if |words| == 1 {
      assert Glued(words)[1..] == [];
      assert Render(Glued(words)) == words[0] + "" + "";
    }
  }

  lemma {:induction false} JoinedWordsSplitBack(words: seq<string>)
    requires forall i :: 0 <= i < |words| ==> words[i] != "" && NoneOf(IsSpace, words[i])
    ensures Fields(IsSpace, Join(words, " ")) == words
  {
    JoinIsRender(words);
    SplitUndoesJoin(IsSpace, "", Glued(words));
    assert "" + Render(Glued(words)) == Join(words, " ");
    assert Tokens(Glued(words)) == words;
  }

  /** Equal normal forms mean equal words: joining with single spaces loses nothing. */
  lemma {:induction false} NormalFormIsWords(lib: Library, expected: string, actual: string)
    ensures NormalizeTextAnswer(lib, expected) == NormalizeTextAnswer(lib, actual)
       <==> Words(lib, expected) == Words(lib, actual)
  {
    FieldsAreTokens(IsSpace, Lower(lib, TrimSpace(expected)));
    FieldsAreTokens(IsSpace, Lower(lib, TrimSpace(actual)));
    JoinedWordsSplitBack(Words(lib, expected));
    JoinedWordsSplitBack(Words(lib, actual));
  }

  // ---- Laws of the verdict ----

  lemma {:induction false} VerdictIsSymmetric(lib: Library, expected: string, actual: string)
    ensures Accepts(lib, expected, actual) <==> Accepts(lib, actual, expected)
  {
    if Numeric(lib, expected) && Numeric(lib, actual) {
      PairingIsSymmetric(ValuesOf(lib, AnswerTokens(expected)), ValuesOf(lib, AnswerTokens(actual)));
    }
  }

  /** An answer is accepted against itself exactly when it is not blank. */
  lemma {:induction false} VerdictAcceptsItself(lib: Library, answer: string)
    ensures Accepts(lib, answer, answer) <==> !AllOf(IsSpace, answer)
  {
    if Numeric(lib, answer) {
      PairingIsReflexive(ValuesOf(lib, AnswerTokens(answer)));
    }
  }

  lemma {:induction false} WithoutParses(lib: Library, tokens: seq<string>, k: nat)
    requires k < |tokens| && AllParse(lib, tokens)
    ensures AllParse(lib, Without(tokens, k))
    ensures ValuesOf(lib, Without(tokens, k)) == Without(ValuesOf(lib, tokens), k)
  {
    var fewer, values := Without(tokens, k), Without(ValuesOf(lib, tokens), k);
    forall i | 0 <= i < |fewer|
      ensures ParseNumericToken(lib, fewer[i]).Some? && values[i] == ParseNumericToken(lib, fewer[i]).value
    {
      WithoutAt(tokens, k, i);
      WithoutAt(ValuesOf(lib, tokens), k, i);
      assert ParseNumericToken(lib, tokens[PastGap(k, i)]).Some?;
    }
  }

  lemma {:induction false} ValuesWithout(lib: Library, tokens: seq<string>, k: nat)
    requires k < |tokens| && AllParse(lib, tokens)
    ensures AllParse(lib, Without(tokens, k))
    ensures multiset(ValuesOf(lib, tokens))
         == multiset{ParseNumericToken(lib, tokens[k]).value} + multiset(ValuesOf(lib, Without(tokens, k)))
  {
    WithoutParses(lib, tokens, k);
    TakenOut(ValuesOf(lib, tokens), k);
  }

  lemma {:induction false} TakenOut(values: seq<real>, k: nat)
    requires k < |values|
    ensures multiset(values) == multiset{values[k]} + multiset(Without(values, k))
  {
    WithoutMultiset(values, k);
    assert values[k] in multiset(values);
  }

  lemma {:induction false} ReorderedTokensParseAlike(lib: Library, s: seq<string>, t: seq<string>)
    requires multiset(s) == multiset(t) && AllParse(lib, s)
    ensures AllParse(lib, t) && multiset(ValuesOf(lib, s)) == multiset(ValuesOf(lib, t))
    decreases |s|
  {
    SameLength(s, t);
    forall i | 0 <= i < |t| ensures ParseNumericToken(lib, t[i]).Some? {
      assert t[i] in multiset(s);
    }
    if s != [] {
      var k := FindPartner(s, t);
      assert Without(s, 0) == s[1..];
      ValuesWithout(lib, s, 0);
      ValuesWithout(lib, t, k);
      ReorderedTokensParseAlike(lib, s[1..], Without(t, k));
    }
  }

  /**
   Two ways of writing the same numbers - any order, any separators, any text around them made of
   separators - get the same verdict against any numeric expected answer.
   */
  lemma {:induction false} VerdictIgnoresOrderAndSeparators(lib: Library, expected: string, lead: string,
                                                            pieces: seq<Piece>, lead': string, pieces': seq<Piece>)
    requires Numeric(lib, expected)
    requires AllOf(AnswerSeparator, lead) && Separated(AnswerSeparator, pieces)
    requires AllOf(AnswerSeparator, lead') && Separated(AnswerSeparator, pieces')
    requires pieces != [] && AllParse(lib, Tokens(pieces)) && multiset(Tokens(pieces)) == multiset(Tokens(pieces'))
    ensures Accepts(lib, expected, lead + Render(pieces)) <==> Accepts(lib, expected, lead' + Render(pieces'))
  {
    var s, s' := lead + Render(pieces), lead' + Render(pieces');
    SplitUndoesJoin(AnswerSeparator, lead, pieces);
    SplitUndoesJoin(AnswerSeparator, lead', pieces');
    SameLength(Tokens(pieces), Tokens(pieces'));
    ReorderedTokensParseAlike(lib, Tokens(pieces), Tokens(pieces'));
    assert !AllOf(IsSpace, s) by { assert s[|lead|] == pieces[0].token[0]; }
    assert !AllOf(IsSpace, s') by { assert s'[|lead'|] == pieces'[0].token[0]; }
    var e := ValuesOf(lib, AnswerTokens(expected));
    var v, v' := ValuesOf(lib, Tokens(pieces)), ValuesOf(lib, Tokens(pieces'));
    if CanPair(e, v) { PairingSurvivesReordering(e, v, e, v'); }
    if CanPair(e, v') { PairingSurvivesReordering(e, v', e, v); }
  }
}
