/**
 Line bookkeeping over the whole editor text: how many line breaks it
 holds and what follows the last one. The status bar's line/column pair
 is computed from these over the entire buffer, not at the caret.
 */
module TextLines {

  /** Number of `'\n'` characters in `s`. */
  function CountNewlines(s: string): nat
  {
    if s == [] then 0
    else CountNewlines(s[..|s| - 1]) + (if s[|s| - 1] == '\n' then 1 else 0)
  }

  /** The characters after the last `'\n'` of `s` (all of `s` if it has none). */
  function LastLine(s: string): string
  {
    if s == [] then []
    else if s[|s| - 1] == '\n' then []
    else LastLine(s[..|s| - 1]) + [s[|s| - 1]]
  }

  /** The status bar's pair: the line count and the width of the last line, at least 1. */
  function CursorPosition(text: string): (r: (nat, nat))
    ensures r.0 >= 1 && r.1 >= 1
  {
    var w := |LastLine(text)|;
    (1 + CountNewlines(text), if w > 1 then w else 1)
  }

  /** `CountNewlines` is the multiplicity of `'\n'` in the text. */
  lemma {:induction false} CountNewlinesIsMultiplicity(s: string)
    ensures CountNewlines(s) == multiset(s)['\n']
  {
    if s != [] {
      var p := s[..|s| - 1];
      assert s == p + [s[|s| - 1]];
      assert multiset(s) == multiset(p) + multiset{s[|s| - 1]};
      CountNewlinesIsMultiplicity(p);
    }
  }

  /**
   `LastLine(s)` is the longest suffix of `s` without a line break: it is
   a suffix, holds no `'\n'`, and is either all of `s` or preceded by one.
   */
  lemma {:induction false} LastLineIsTrailingLine(s: string)
    ensures |LastLine(s)| <= |s|
    ensures LastLine(s) == s[|s| - |LastLine(s)|..]
    ensures '\n' !in LastLine(s)
    ensures |LastLine(s)| < |s| ==> s[|s| - |LastLine(s)| - 1] == '\n'
  {
    if s != [] && s[|s| - 1] != '\n' {
      var p := s[..|s| - 1];
      LastLineIsTrailingLine(p);
      assert s[|s| - |LastLine(s)|..] == p[|p| - |LastLine(p)|..] + [s[|s| - 1]];
    }
  }

  /** Appending text that holds a line break makes the last line whatever follows the final break. */
  lemma {:induction false} LastLineAfterBreak(s: string, t: string)
    requires '\n' !in t
    ensures LastLine(s + "\n" + t) == t
    ensures CountNewlines(s + "\n" + t) == CountNewlines(s) + 1
  {
    var u := s + "\n" + t;
    if t == [] {
      assert u[..|u| - 1] == s;
    } else {
      var t' := t[..|t| - 1];
      assert u[..|u| - 1] == s + "\n" + t';
      assert t[|t| - 1] in t;
      assert '\n' !in t' by { assert forall k :: 0 <= k < |t'| ==> t'[k] == t[k]; }
      LastLineAfterBreak(s, t');
      assert t == t' + [t[|t| - 1]];
    }
  }

  /** The examples the status bar shows: empty, one word, and a trailing break. */
  lemma CursorPositionExamples()
    ensures CursorPosition("") == (1, 1)
    ensures CursorPosition("hello") == (1, 5)
    ensures CursorPosition("ab\n") == (2, 1)
    ensures CursorPosition("a") == CursorPosition("")
  {
    assert "hello"[..4] == "hell";
    assert "hell"[..3] == "hel";
    assert "hel"[..2] == "he";
    assert "he"[..1] == "h";
    assert "ab\n"[..2] == "ab";
    assert "ab"[..1] == "a";
    assert "a"[..0] == "";
  }
}
