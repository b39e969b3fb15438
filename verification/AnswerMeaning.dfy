/**
 What single answers mean: the value of a decimal and of a fraction, the verdict on one number against another, and the
 verdict on words.
 */
module AnswerMeaning {
  import opened Outcomes
  import opened Permutations
  import opened Reals
  import opened Text
  import opened AnswerMatching
  import opened AnswerChecking

  // ---- Trimming around a slash ----

  lemma {:induction false} TrimLeftBefore(l: string, rest: string)
    requires rest != "" && !IsSpace(rest[0])
    ensures TrimLeft(l + rest) == TrimLeft(l) + rest
  {
    if l == "" {
      assert l + rest == rest;
    } else {
      assert (l + rest)[0] == l[0] && (l + rest)[1..] == l[1..] + rest;
      if IsSpace(l[0]) { TrimLeftBefore(l[1..], rest); }
    }
  }

  lemma {:induction false} TrimRightBehind(rest: string, r: string)
    requires rest != "" && !IsSpace(rest[|rest| - 1])
    ensures TrimRight(rest + r) == rest + TrimRight(r)
  {
    if r == "" {
      assert rest + r == rest;
    } else {
      var s := rest + r;
      assert s[|s| - 1] == r[|r| - 1] && s[..|s| - 1] == rest + r[..|r| - 1];
      if IsSpace(r[|r| - 1]) { TrimRightBehind(rest, r[..|r| - 1]); }
    }
  }

  lemma {:induction false} TrimAround(l: string, r: string)
    ensures TrimSpace(l + "/" + r) == TrimLeft(l) + "/" + TrimRight(r)
  {
    assert l + "/" + r == l + ("/" + r);
    TrimLeftBefore(l, "/" + r);
    assert TrimLeft(l) + ("/" + r) == (TrimLeft(l) + "/") + r;
    TrimRightBehind(TrimLeft(l) + "/", r);
  }

  lemma {:induction false} TrimLeftTwice(s: string)
    ensures TrimLeft(TrimLeft(s)) == TrimLeft(s)
  {
    var lead := TrimLeftDropsSpaces(s);
  }

  lemma {:induction false} TrimLeftOfSpaces(s: string)
    requires AllOf(IsSpace, s)
    ensures TrimLeft(s) == ""
  {
    if s != "" { TrimLeftOfSpaces(s[1..]); }
  }

  lemma {:induction false} TrailingSpace(s: string, c: char)
    requires IsSpace(c)
    ensures TrimSpace(s + [c]) == TrimSpace(s)
  {
    if AllOf(IsSpace, s) {
      TrimLeftOfSpaces(s);
      TrimLeftOfSpaces(s + [c]);
    } else {
      TrailingStays(s, c);
      assert (TrimLeft(s) + [c])[..|TrimLeft(s)|] == TrimLeft(s);
    }
  }

  lemma {:induction false} TrailingStays(s: string, c: char)
    requires !AllOf(IsSpace, s)
    ensures TrimLeft(s + [c]) == TrimLeft(s) + [c]
  {
    assert (s + [c])[0] == s[0] && (s + [c])[1..] == s[1..] + [c];
    if IsSpace(s[0]) {
      assert !AllOf(IsSpace, s[1..]) by {
        var i :| 0 <= i < |s| && !IsSpace(s[i]);
        assert s[1..][i - 1] == s[i];
      }
      TrailingStays(s[1..], c);
    }
  }

  lemma {:induction false} TrimRightFirst(s: string)
    ensures TrimSpace(TrimRight(s)) == TrimSpace(s)
  {
    if s != "" && IsSpace(s[|s| - 1]) {
      TrimRightFirst(s[..|s| - 1]);
      TrailingSpace(s[..|s| - 1], s[|s| - 1]);
      assert s == s[..|s| - 1] + [s[|s| - 1]];
    }
  }

  // ---- The value of a token ----

  lemma {:induction false} NothingToReplace(s: string, from: char, to: char)
    requires from !in s
    ensures ReplaceChar(s, from, to) == s
  {
  }

  lemma {:induction false} TrimsAreParts(s: string, c: char)
    requires c !in s
    ensures c !in TrimLeft(s) && c !in TrimRight(s)
  {
    var lead := TrimLeftDropsSpaces(s);
    var trail := TrimRightDropsSpaces(s);
  }

  lemma {:induction false} OneSlash(a: string, b: string)
    requires '/' !in a && '/' !in b
    ensures CountChar(a + "/" + b, '/') == 1 && IndexOf(a + "/" + b, '/') == |a|
    ensures (a + "/" + b)[..|a|] == a && (a + "/" + b)[|a| + 1..] == b
  {
    var s := a + "/" + b;
    assert s[|a|] == '/';
    assert multiset(s) == multiset(a) + multiset{'/'} + multiset(b);
    forall i | 0 <= i < |s| && i != |a| ensures s[i] != '/' {
      assert s[i] == if i < |a| then a[i] else b[i - |a| - 1];
    }
  }

  lemma {:induction false} FractionParts(lib: Library, l: string, r: string)
    requires '/' !in l && ',' !in l && '/' !in r && ',' !in r
    ensures var left, right := lib.parseFloat(TrimSpace(l)), lib.parseFloat(TrimSpace(r));
      ParseNumericToken(lib, l + "/" + r) ==
        if left.None? || right.None? || right.value == 0.0 then None else Some(left.value / right.value)
  {
    var a, b := TrimLeft(l), TrimRight(r);
    assert ',' !in l + "/" + r;
    NothingToReplace(l + "/" + r, ',', '.');
    TrimAround(l, r);
    TrimsAreParts(l, '/');
    TrimsAreParts(r, '/');
    OneSlash(a, b);
    TrimLeftTwice(l);
    TrimRightFirst(r);
  }

  /**
   A fraction of two texts that parse to x and y has the value x / y, so times y it is x; it has none when y is 0, and
   none when one of the texts does not parse.
   */
  lemma {:induction false} FractionValue(lib: Library, l: string, r: string)
    requires '/' !in l && ',' !in l && '/' !in r && ',' !in r
    ensures var left, right := lib.parseFloat(TrimSpace(l)), lib.parseFloat(TrimSpace(r));
      var v := ParseNumericToken(lib, l + "/" + r);
      && (v.Some? <==> left.Some? && right.Some? && right.value != 0.0)
      && (v.Some? ==> v.value * right.value == left.value)
  {
    FractionParts(lib, l, r);
    var left, right := lib.parseFloat(TrimSpace(l)), lib.parseFloat(TrimSpace(r));
    if left.Some? && right.Some? && right.value != 0.0 {
      QuotientTimes(left.value, right.value);
    }
  }

  /** A token without slash has the value its trimmed text parses to; a blank one has none. */
  lemma {:induction false} PlainValue(lib: Library, token: string)
    requires '/' !in token && ',' !in token
    ensures ParseNumericToken(lib, token) == if AllOf(IsSpace, token) then None else lib.parseFloat(TrimSpace(token))
  {
    NothingToReplace(token, ',', '.');
    BlankMeansAllSpaces(token);
    var lead, trail := TrimSpaceDropsSpaces(token);
    assert '/' !in TrimSpace(token);
  }

  // ---- The verdict on one number ----

  lemma {:induction false} OneToken(sep: char -> bool, token: string)
    requires token != "" && NoneOf(sep, token)
    ensures Fields(sep, token) == [token]
  {
    var pieces := [Piece(token, "")];
    SplitUndoesJoin(sep, "", pieces);
    assert Render(pieces[1..]) == "";
    assert "" + Render(pieces) == token;
  }

  lemma {:induction false} PairOfOnes(v: real, w: real)
    ensures CanPair([v], [w]) <==> -0.000001 <= v - w <= 0.000001
  {
    if Close(v, w) {
      assert Pairing([0], [v], [w]);
    }
    if p :| Pairing(p, [v], [w]) {
      assert p[0] == 0 && Close([v][0], [w][p[0]]);
    }
  }

  /** Of two single numbers one is right against the other exactly when they differ by at most 0.000001. */
  lemma {:induction false} SingleNumbers(lib: Library, expected: string, actual: string)
    requires expected != "" && NoneOf(AnswerSeparator, expected) && ParseNumericToken(lib, expected).Some?
    requires actual != "" && NoneOf(AnswerSeparator, actual) && ParseNumericToken(lib, actual).Some?
    ensures Accepts(lib, expected, actual) <==>
      -0.000001 <= ParseNumericToken(lib, expected).value - ParseNumericToken(lib, actual).value <= 0.000001
  {
    var v, w := ParseNumericToken(lib, expected).value, ParseNumericToken(lib, actual).value;
    OneToken(AnswerSeparator, expected);
    OneToken(AnswerSeparator, actual);
    PairOfOnes(v, w);
    assert !AllOf(IsSpace, expected) by { assert !IsSpace(expected[0]); }
    assert !AllOf(IsSpace, actual) by { assert !IsSpace(actual[0]); }
    assert ValuesOf(lib, [expected]) == [v] && ValuesOf(lib, [actual]) == [w];
  }

  /** A decimal as expected answer accepts every fraction of that value. */
  lemma {:induction false} FractionAccepted(lib: Library, decimal: string, l: string, r: string)
    requires decimal != "" && NoneOf(AnswerSeparator, decimal) && '/' !in decimal
    requires NoneOf(AnswerSeparator, l) && NoneOf(AnswerSeparator, r) && '/' !in l && '/' !in r
    requires lib.parseFloat(decimal).Some? && lib.parseFloat(l).Some? && lib.parseFloat(r).Some?
    requires lib.parseFloat(r).value != 0.0
    requires lib.parseFloat(decimal).value * lib.parseFloat(r).value == lib.parseFloat(l).value
    ensures Accepts(lib, decimal, l + "/" + r)
  {
    NoComma(decimal);
    NoComma(l);
    NoComma(r);
    TrimSpaceKeepsTokens(decimal);
    TrimSpaceKeepsTokens(l);
    TrimSpaceKeepsTokens(r);
    assert !AllOf(IsSpace, decimal) by { assert !IsSpace(decimal[0]); }
    PlainValue(lib, decimal);
    FractionParts(lib, l, r);
    QuotientUnique(lib.parseFloat(l).value, lib.parseFloat(r).value, lib.parseFloat(decimal).value);
    SingleNumbers(lib, decimal, l + "/" + r);
  }

  lemma {:induction false} NoComma(s: string)
    requires NoneOf(AnswerSeparator, s)
    ensures ',' !in s && ';' !in s && ' ' !in s && NoneOf(IsSpace, s)
  {
    assert AnswerSeparator(',') && AnswerSeparator(';') && AnswerSeparator(' ');
  }

  /** Commas, semicolons and spaces separate; "1;2, 3" are three numbers. */
  lemma {:induction false} ThreeNumbers()
    ensures AnswerTokens("1;2, 3") == ["1", "2", "3"]
  {
    var pieces := [Piece("1", ";"), Piece("2", ", "), Piece("3", "")];
    SplitUndoesJoin(AnswerSeparator, "", pieces);
    assert pieces[1..][1..] == [Piece("3", "")] && pieces[1..][1..][1..] == [];
    assert "" + Render(pieces) == "1;2, 3";
    assert Tokens(pieces) == ["1", "2", "3"];
  }

  // ---- The verdict on words ----

  function LowerAll(lib: Library, words: seq<string>): (r: seq<string>)
    ensures |r| == |words| && forall i :: 0 <= i < |words| ==> r[i] == Lower(lib, words[i])
  {
    seq(|words|, i requires 0 <= i < |words| => Lower(lib, words[i]))
  }

  /** Lower-casing makes no spaces and takes none away. */
  ghost predicate KeepsSpaces(lib: Library) {
    forall c :: IsSpace(lib.toLower(c)) <==> IsSpace(c)
  }

  function LowerPieces(lib: Library, pieces: seq<Piece>): (r: seq<Piece>)
    ensures |r| == |pieces|
    ensures forall i :: 0 <= i < |pieces| ==> r[i] == Piece(Lower(lib, pieces[i].token), Lower(lib, pieces[i].gap))
  {
    seq(|pieces|, i requires 0 <= i < |pieces| => Piece(Lower(lib, pieces[i].token), Lower(lib, pieces[i].gap)))
  }

  lemma {:induction false} LowerJoined(lib: Library, s: string, t: string)
    ensures Lower(lib, s + t) == Lower(lib, s) + Lower(lib, t)
  {
  }

  lemma {:induction false} LowerRender(lib: Library, pieces: seq<Piece>)
    ensures Lower(lib, Render(pieces)) == Render(LowerPieces(lib, pieces))
  {
    if pieces != [] {
      var first, rest := pieces[0], pieces[1..];
      LowerRender(lib, rest);
      LowerJoined(lib, first.token + first.gap, Render(rest));
      LowerJoined(lib, first.token, first.gap);
      assert LowerPieces(lib, pieces)[1..] == LowerPieces(lib, rest);
    }
  }

  lemma {:induction false} LowerSeparated(lib: Library, pieces: seq<Piece>)
    requires KeepsSpaces(lib) && Separated(IsSpace, pieces)
    ensures Separated(IsSpace, LowerPieces(lib, pieces))
    ensures Tokens(LowerPieces(lib, pieces)) == LowerAll(lib, Tokens(pieces))
  {
  }

  lemma {:induction false} LowerTrimmed(lib: Library, s: string)
    requires KeepsSpaces(lib)
    ensures Fields(IsSpace, Lower(lib, TrimSpace(s))) == Fields(IsSpace, Lower(lib, s))
  {
    var lead, trail := TrimSpaceDropsSpaces(s);
    var t := TrimSpace(s);
    LowerJoined(lib, lead + t, trail);
    LowerJoined(lib, lead, t);
    FieldsIgnoresTrailingSeparators(IsSpace, Lower(lib, lead) + Lower(lib, t), Lower(lib, trail));
    FieldsSkipsSeparators(IsSpace, Lower(lib, lead), Lower(lib, t));
  }

  /** The words of a text written with any spaces are its space-free parts, lower-cased. */
  lemma {:induction false} WordsOfText(lib: Library, lead: string, pieces: seq<Piece>)
    requires KeepsSpaces(lib) && AllOf(IsSpace, lead) && Separated(IsSpace, pieces)
    ensures Words(lib, lead + Render(pieces)) == LowerAll(lib, Tokens(pieces))
  {
    LowerTrimmed(lib, lead + Render(pieces));
    LowerJoined(lib, lead, Render(pieces));
    LowerRender(lib, pieces);
    LowerSeparated(lib, pieces);
    SplitUndoesJoin(IsSpace, Lower(lib, lead), LowerPieces(lib, pieces));
  }

  /** Texts that are not both numbers agree exactly when they have the same words up to case, whatever their spaces. */
  lemma {:induction false} WordsVerdict(lib: Library, lead: string, pieces: seq<Piece>, lead': string,
                                        pieces': seq<Piece>)
    requires KeepsSpaces(lib) && pieces != [] && pieces' != []
    requires AllOf(IsSpace, lead) && Separated(IsSpace, pieces)
    requires AllOf(IsSpace, lead') && Separated(IsSpace, pieces')
    requires !Numeric(lib, lead + Render(pieces)) || !Numeric(lib, lead' + Render(pieces'))
    ensures Accepts(lib, lead + Render(pieces), lead' + Render(pieces'))
       <==> LowerAll(lib, Tokens(pieces)) == LowerAll(lib, Tokens(pieces'))
  {
    WordsOfText(lib, lead, pieces);
    WordsOfText(lib, lead', pieces');
    var s, s' := lead + Render(pieces), lead' + Render(pieces');
    assert !AllOf(IsSpace, s) by { assert s[|lead|] == pieces[0].token[0]; }
    assert !AllOf(IsSpace, s') by { assert s'[|lead'|] == pieces'[0].token[0]; }
  }
}
