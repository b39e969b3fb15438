/**
 Escaping for LaTeX, written twice in the repository: in Python as seven replacements one after the other, in Go as a
 single pass over the text. Both compute the same text, from which the original can be read back.
 */
module LatexEscape {

  const SPECIALS: string := "&%$#_{}"

  predicate Special(c: char) {
    c in SPECIALS
  }

  /** `value.replace(c, "\\" + c)`. */
  function Replace(c: char, s: string): string {
    if s == "" then ""
    else (if s[0] == c then ['\\', c] else [s[0]]) + Replace(c, s[1..])
  }

  /** The Python chain. */
  function EscapeChained(s: string): string {
    Replace('}', Replace('{', Replace('_', Replace('#', Replace('$', Replace('%', Replace('&', s)))))))
  }

  /** One pass that puts a backslash before each character of `set'`. */
  function EscapeAll(set': string, s: string): string {
    if s == "" then ""
    else (if s[0] in set' then ['\\', s[0]] else [s[0]]) + EscapeAll(set', s[1..])
  }

  /** The Go replacer: all pairs tried at each position. */
  function Escape(s: string): string {
    EscapeAll(SPECIALS, s)
  }

  lemma {:induction false} EscapeNone(s: string)
    ensures EscapeAll("", s) == s
  {
    if s != "" {
      EscapeNone(s[1..]);
    }
  }

  lemma {:induction false} ReplaceSplits(c: char, s: string, t: string)
    ensures Replace(c, s + t) == Replace(c, s) + Replace(c, t)
  {
    if s == "" {
      assert s + t == t;
    } else {
      assert (s + t)[1..] == s[1..] + t;
      ReplaceSplits(c, s[1..], t);
    }
  }

  /** A later replacement does not see what earlier ones inserted, as long as it is not about backslashes. */
  lemma {:induction false} OneMoreReplacement(set': string, c: char, s: string)
    requires c != '\\' && c !in set'
    ensures Replace(c, EscapeAll(set', s)) == EscapeAll(set' + [c], s)
  {
    if s != "" {
      var head := if s[0] in set' then ['\\', s[0]] else [s[0]];
      ReplaceSplits(c, head, EscapeAll(set', s[1..]));
      OneMoreReplacement(set', c, s[1..]);
      assert s[0] in set' + [c] <==> s[0] in set' || s[0] == c;
      if s[0] in set' {
        assert Replace(c, ['\\', s[0]]) == ['\\', s[0]];
      }
    }
  }

  /** The chain of replacements and the single pass give the same text, for every text. */
  lemma {:induction false} ChainedIsSinglePass(s: string)
    ensures EscapeChained(s) == Escape(s)
  {
    EscapeNone(s);
    OneMoreReplacement("", '&', s);
    OneMoreReplacement("&", '%', s);
    OneMoreReplacement("&%", '$', s);
    OneMoreReplacement("&%$", '#', s);
    OneMoreReplacement("&%$#", '_', s);
    OneMoreReplacement("&%$#_", '{', s);
    OneMoreReplacement("&%$#_{", '}', s);
    assert "" + ['&'] == "&" && "&" + ['%'] == "&%" && "&%" + ['$'] == "&%$" && "&%$" + ['#'] == "&%$#";
    assert "&%$#" + ['_'] == "&%$#_" && "&%$#_" + ['{'] == "&%$#_{" && "&%$#_{" + ['}'] == SPECIALS;
  }

  /** Every special character in the result directly follows a backslash. */
  lemma {:induction false} SpecialsAreEscaped(s: string)
    ensures forall i :: 0 <= i < |Escape(s)| && Special(Escape(s)[i]) ==> i > 0 && Escape(s)[i - 1] == '\\'
  {
    if s != "" {
      SpecialsAreEscaped(s[1..]);
      var head := if Special(s[0]) then ['\\', s[0]] else [s[0]];
      var tail := Escape(s[1..]);
      assert Escape(s) == head + tail;
      forall i | 0 <= i < |Escape(s)| && Special(Escape(s)[i]) ensures i > 0 && Escape(s)[i - 1] == '\\' {
        if i >= |head| {
          assert Special(tail[i - |head|]) && i - |head| > 0;
          assert Escape(s)[i - 1] == tail[i - |head| - 1];
        }
      }
    }
  }

  /** Reading back: a backslash directly before a special character was inserted. */
  function Unescape(s: string): string {
    if s == "" then ""
    else if s[0] == '\\' && |s| > 1 && Special(s[1]) then [s[1]] + Unescape(s[2..])
    else [s[0]] + Unescape(s[1..])
  }

  /** Escaping loses nothing. */
  lemma {:induction false} UnescapeUndoesEscape(s: string)
    ensures Unescape(Escape(s)) == s
  {
    if s != "" {
      var tail := Escape(s[1..]);
      SpecialsAreEscaped(s[1..]);
      UnescapeUndoesEscape(s[1..]);
      if Special(s[0]) {
        assert Escape(s) == ['\\', s[0]] + tail;
        assert Escape(s)[2..] == tail;
      } else {
        assert Escape(s) == [s[0]] + tail;
        assert Escape(s)[1..] == tail;
        assert tail != "" ==> !Special(tail[0]);
      }
    }
  }

  lemma {:induction false} EscapeIsInjective(s: string, t: string)
    requires Escape(s) == Escape(t)
    ensures s == t
  {
    UnescapeUndoesEscape(s);
    UnescapeUndoesEscape(t);
  }

  // ---- Character by character ----

  lemma {:induction false} EscapeJoined(s: string, t: string)
    ensures Escape(s + t) == Escape(s) + Escape(t)
  {
    if s == "" {
      assert s + t == t;
    } else {
      assert (s + t)[0] == s[0] && (s + t)[1..] == s[1..] + t;
      EscapeJoined(s[1..], t);
    }
  }

  /** Exactly the seven characters & % $ # _ { } get a backslash; every other character stays as it is. */
  lemma {:induction false} EscapeCharacter(c: char)
    ensures Escape([c]) ==
      if c == '&' || c == '%' || c == '$' || c == '#' || c == '_' || c == '{' || c == '}' then ['\\', c] else [c]
  {
    assert [c][1..] == "";
    assert Escape("") == "";
    assert SPECIALS == ['&', '%', '$', '#', '_', '{', '}'];
  }
}
