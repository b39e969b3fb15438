/** Splitting, trimming and joining of text, as Go's `strings` package does it on code points. */
module Text {

  /** Go's `unicode.IsSpace`. */
  predicate IsSpace(c: char) {
    || '\U{9}' <= c <= '\U{D}'
    || c == ' ' || c == '\U{85}' || c == '\U{A0}' || c == '\U{1680}'
    || '\U{2000}' <= c <= '\U{200A}'
    || c == '\U{2028}' || c == '\U{2029}' || c == '\U{202F}' || c == '\U{205F}' || c == '\U{3000}'
  }

  /** The white space of Unicode, by code point. */
  lemma {:induction false} SpacesAre(c: char)
    ensures IsSpace(c) <==>
      var n := c as int;
      || n in {9, 10, 11, 12, 13, 32, 133, 160, 5760, 8232, 8233, 8239, 8287, 12288}
      || 8192 <= n <= 8202
  {
  }

  ghost predicate AllOf(p: char -> bool, s: string) {
    forall i :: 0 <= i < |s| ==> p(s[i])
  }

  ghost predicate NoneOf(p: char -> bool, s: string) {
    forall i :: 0 <= i < |s| ==> !p(s[i])
  }

  function TrimLeft(s: string): string {
    if s != "" && IsSpace(s[0]) then TrimLeft(s[1..]) else s
  }

  function TrimRight(s: string): string {
    if s != "" && IsSpace(s[|s| - 1]) then TrimRight(s[..|s| - 1]) else s
  }

  function TrimSpace(s: string): string {
    TrimRight(TrimLeft(s))
  }

  predicate Blank(s: string) {
    TrimSpace(s) == ""
  }

  /** The length of the separator-free run at the front of `s`. */
  function RunLength(sep: char -> bool, s: string): (n: nat)
    ensures n <= |s| && NoneOf(sep, s[..n]) && (n < |s| ==> sep(s[n]))
  {
    if s == "" || sep(s[0]) then 0 else 1 + RunLength(sep, s[1..])
  }

  /** Go's `strings.FieldsFunc`: the maximal separator-free runs, in order. */
  function Fields(sep: char -> bool, s: string): seq<string>
    decreases |s|
  {
    if s == "" then []
    else if sep(s[0]) then Fields(sep, s[1..])
    else
      var n := RunLength(sep, s);
      [s[..n]] + Fields(sep, s[n..])
  }

  function Join(parts: seq<string>, glue: string): string {
    if parts == [] then ""
    else if |parts| == 1 then parts[0]
    else parts[0] + glue + Join(parts[1..], glue)
  }

  // ---- Splitting undoes joining, and joining undoes splitting ----

  /** A token and the separators that follow it. */
  datatype Piece = Piece(token: string, gap: string)

  function Render(pieces: seq<Piece>): string {
    if pieces == [] then "" else pieces[0].token + pieces[0].gap + Render(pieces[1..])
  }

  function Tokens(pieces: seq<Piece>): (ts: seq<string>)
    ensures |ts| == |pieces|
  {
    seq(|pieces|, i requires 0 <= i < |pieces| => pieces[i].token)
  }

  /** Tokens are non-empty and free of separators; gaps are separators only, and only the last may be empty. */
  ghost predicate Separated(sep: char -> bool, pieces: seq<Piece>) {
    forall i :: 0 <= i < |pieces| ==>
      && pieces[i].token != "" && NoneOf(sep, pieces[i].token)
      && AllOf(sep, pieces[i].gap) && (i < |pieces| - 1 ==> pieces[i].gap != "")
  }

  lemma {:induction false} FieldsSkipsSeparators(sep: char -> bool, gap: string, s: string)
    requires AllOf(sep, gap)
    ensures Fields(sep, gap + s) == Fields(sep, s)
  {
    if gap == "" {
      assert gap + s == s;
    } else {
      assert gap[0] == (gap + s)[0] && (gap + s)[1..] == gap[1..] + s;
      FieldsSkipsSeparators(sep, gap[1..], s);
    }
  }

  lemma {:induction false} RunLengthOfToken(sep: char -> bool, token: string, s: string)
    requires NoneOf(sep, token) && (s == "" || sep(s[0]))
    ensures RunLength(sep, token + s) == |token|
  {
    if token == "" {
      assert token + s == s;
    } else {
      assert token[0] == (token + s)[0] && (token + s)[1..] == token[1..] + s;
      RunLengthOfToken(sep, token[1..], s);
    }
  }

  lemma {:induction false} FieldsTakesToken(sep: char -> bool, token: string, s: string)
    requires token != "" && NoneOf(sep, token) && (s == "" || sep(s[0]))
    ensures Fields(sep, token + s) == [token] + Fields(sep, s)
  {
    RunLengthOfToken(sep, token, s);
    assert token[0] == (token + s)[0];
    assert (token + s)[..|token|] == token && (token + s)[|token|..] == s;
  }

  /** Separator-free tokens, joined by any non-empty runs of separators, split back to the same tokens. */
  lemma {:induction false} SplitUndoesJoin(sep: char -> bool, lead: string, pieces: seq<Piece>)
    requires AllOf(sep, lead) && Separated(sep, pieces)
    ensures Fields(sep, lead + Render(pieces)) == Tokens(pieces)
    decreases pieces
  {
    FieldsSkipsSeparators(sep, lead, Render(pieces));
    if pieces != [] {
      var first, rest := pieces[0], pieces[1..];
      var tail := first.gap + Render(rest);
      assert Render(pieces) == first.token + tail;
      assert tail == "" || sep(tail[0]) by {
        if first.gap == "" { assert rest == []; } else { assert tail[0] == first.gap[0]; }
      }
      FieldsTakesToken(sep, first.token, tail);
      assert forall i :: 0 <= i < |rest| ==> rest[i] == pieces[i + 1];
      SplitUndoesJoin(sep, first.gap, rest);
      assert Tokens(pieces) == [first.token] + Tokens(rest);
    }
  }

  lemma {:induction false} FrontPiece(sep: char -> bool, s: string, n: nat, gap: string, rest: seq<Piece>)
    requires 0 < n <= |s| && NoneOf(sep, s[..n]) && (n < |s| ==> sep(s[n]))
    requires AllOf(sep, gap) && Separated(sep, rest) && s[n..] == gap + Render(rest)
    ensures Separated(sep, [Piece(s[..n], gap)] + rest)
    ensures s == "" + Render([Piece(s[..n], gap)] + rest)
  {
    var pieces := [Piece(s[..n], gap)] + rest;
    assert s == s[..n] + s[n..];
    assert pieces[1..] == rest;
    if rest != [] {
      assert Render(rest)[0] == rest[0].token[0];
    }
  }

  /** Conversely every text is such a join of its own fields. */
  lemma {:induction false} JoinUndoesSplit(sep: char -> bool, s: string) returns (lead: string, pieces: seq<Piece>)
    ensures AllOf(sep, lead) && Separated(sep, pieces)
    ensures s == lead + Render(pieces)
    ensures Fields(sep, s) == Tokens(pieces)
    decreases |s|
  {
    if s == "" {
      lead, pieces := "", [];
    } else if sep(s[0]) {
      lead, pieces := JoinUndoesSplit(sep, s[1..]);
      lead := [s[0]] + lead;
      assert s == [s[0]] + s[1..];
    } else {
      var n := RunLength(sep, s);
      var gap, rest := JoinUndoesSplit(sep, s[n..]);
      lead, pieces := "", [Piece(s[..n], gap)] + rest;
      FrontPiece(sep, s, n, gap, rest);
    }
    SplitUndoesJoin(sep, lead, pieces);
  }

  // ---- Trimming ----

  lemma {:induction false} TrimLeftDropsSpaces(s: string) returns (lead: string)
    ensures AllOf(IsSpace, lead) && s == lead + TrimLeft(s)
    ensures TrimLeft(s) != "" ==> !IsSpace(TrimLeft(s)[0])
  {
    if s != "" && IsSpace(s[0]) {
      var rest := TrimLeftDropsSpaces(s[1..]);
      lead := [s[0]] + rest;
      assert s == [s[0]] + s[1..];
    } else {
      lead := "";
    }
  }

  lemma {:induction false} TrimRightDropsSpaces(s: string) returns (trail: string)
    ensures AllOf(IsSpace, trail) && s == TrimRight(s) + trail
    ensures TrimRight(s) != "" ==> !IsSpace(TrimRight(s)[|TrimRight(s)| - 1])
  {
    if s != "" && IsSpace(s[|s| - 1]) {
      var rest := TrimRightDropsSpaces(s[..|s| - 1]);
      trail := rest + [s[|s| - 1]];
      assert s == s[..|s| - 1] + [s[|s| - 1]];
    } else {
      trail := "";
    }
  }

  /** Trimming removes spaces at both ends and nothing else; the result neither starts nor ends with one. */
  lemma {:induction false} TrimSpaceDropsSpaces(s: string) returns (lead: string, trail: string)
    ensures AllOf(IsSpace, lead) && AllOf(IsSpace, trail) && s == lead + TrimSpace(s) + trail
    ensures var t := TrimSpace(s); t != "" ==> !IsSpace(t[0]) && !IsSpace(t[|t| - 1])
  {
    lead := TrimLeftDropsSpaces(s);
    trail := TrimRightDropsSpaces(TrimLeft(s));
    var t := TrimSpace(s);
    if t != "" {
      assert t[0] == TrimLeft(s)[0];
    }
  }

  lemma {:induction false} TrimSpaceKeepsTokens(s: string)
    requires NoneOf(IsSpace, s)
    ensures TrimSpace(s) == s
  {
  }

  lemma {:induction false} BlankMeansAllSpaces(s: string)
    ensures Blank(s) <==> AllOf(IsSpace, s)
  {
    var lead, trail := TrimSpaceDropsSpaces(s);
    var t := TrimSpace(s);
    if t != "" {
      assert s[|lead|] == t[0];
    }
  }

  function Widen(pieces: seq<Piece>, trail: string): seq<Piece>
    requires pieces != []
  {
    var last := pieces[|pieces| - 1];
    pieces[..|pieces| - 1] + [Piece(last.token, last.gap + trail)]
  }

  lemma {:induction false} RenderWidened(pieces: seq<Piece>, trail: string)
    requires pieces != []
    ensures Render(Widen(pieces, trail)) == Render(pieces) + trail
  {
    var wider := Widen(pieces, trail);
    if |pieces| > 1 {
      RenderWidened(pieces[1..], trail);
      assert wider[1..] == Widen(pieces[1..], trail);
    } else {
      assert wider[1..] == pieces[1..] == [];
    }
  }

  lemma {:induction false} WidenedIsSeparated(sep: char -> bool, pieces: seq<Piece>, trail: string)
    requires pieces != [] && Separated(sep, pieces) && AllOf(sep, trail)
    ensures Separated(sep, Widen(pieces, trail)) && Tokens(Widen(pieces, trail)) == Tokens(pieces)
  {
  }

  lemma {:induction false} WiderLastGapKeepsFields(sep: char -> bool, lead: string, pieces: seq<Piece>, trail: string)
    requires pieces != [] && AllOf(sep, lead) && Separated(sep, pieces) && AllOf(sep, trail)
    ensures Fields(sep, lead + (Render(pieces) + trail)) == Tokens(pieces)
  {
    RenderWidened(pieces, trail);
    WidenedIsSeparated(sep, pieces, trail);
    SplitUndoesJoin(sep, lead, Widen(pieces, trail));
  }

  lemma {:induction false} FieldsIgnoresTrailingSeparators(sep: char -> bool, s: string, trail: string)
    requires AllOf(sep, trail)
    ensures Fields(sep, s + trail) == Fields(sep, s)
  {
    var lead, pieces := JoinUndoesSplit(sep, s);
    if pieces == [] {
      assert s + trail == lead + trail + "";
      assert s == lead + "";
      FieldsSkipsSeparators(sep, lead + trail, "");
      FieldsSkipsSeparators(sep, lead, "");
    } else {
      assert s + trail == lead + (Render(pieces) + trail);
      WiderLastGapKeepsFields(sep, lead, pieces, trail);
    }
  }

  /** Trimming first does not change the fields, for any separators that include the spaces. */
  lemma {:induction false} TrimmingKeepsFields(sep: char -> bool, s: string)
    requires forall c :: IsSpace(c) ==> sep(c)
    ensures Fields(sep, TrimSpace(s)) == Fields(sep, s)
  {
    var lead, trail := TrimSpaceDropsSpaces(s);
    var t := TrimSpace(s);
    FieldsIgnoresTrailingSeparators(sep, lead + t, trail);
    FieldsSkipsSeparators(sep, lead, t);
  }
}
