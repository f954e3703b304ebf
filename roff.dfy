/** Roff text primitives of the authctl man-page generator. */
module Roff {
  import opened GoStrings

  /** `escapeRoff`: every backslash is doubled. */
  function EscapeRoff(s: string): string {
    ReplaceAll(s, "\\", "\\\\")
  }

  /** What a single rune becomes under `EscapeRoff`. */
  function EscapeRune(c: char): string {
    if c == '\\' then "\\\\" else [c]
  }

  /** Escaping works rune by rune: a backslash becomes two, any other rune stays. */
  lemma {:induction false} EscapeRoffStep(s: string)
    requires s != []
    ensures EscapeRoff(s) == EscapeRune(s[0]) + EscapeRoff(s[1..])
  {
    if s[0] == '\\' {
      assert "\\" <= s;
      assert s[|"\\"|..] == s[1..];
    }
  }

  /** The output is the input plus one rune per backslash. */
  lemma {:induction false} EscapeRoffLength(s: string)
    ensures |EscapeRoff(s)| == |s| + Count(s, "\\")
  {
    ReplaceAllLength(s, "\\", "\\\\");
  }

  /** Text without backslashes is left as it is. */
  lemma {:induction false} EscapeRoffPlain(s: string)
    requires '\\' !in s
    ensures EscapeRoff(s) == s
    decreases |s|
  {
    if s != [] {
      EscapeRoffStep(s);
      EscapeRoffPlain(s[1..]);
      assert [s[0]] + s[1..] == s;
    }
  }

  /** Escaping a concatenation escapes each part. */
  lemma {:induction false} EscapeRoffConcat(a: string, b: string)
    ensures EscapeRoff(a + b) == EscapeRoff(a) + EscapeRoff(b)
    decreases |a|
  {
    if a == [] {
      assert a + b == b;
    } else {
      EscapeRoffStep(a);
      EscapeRoffStep(a + b);
      assert (a + b)[1..] == a[1..] + b;
      EscapeRoffConcat(a[1..], b);
    }
  }

  /** Replacing every doubled backslash of the output by a single one gives the input back. */
  lemma {:induction false} EscapeRoffRoundTrip(s: string)
    ensures ReplaceAll(EscapeRoff(s), "\\\\", "\\") == s
    decreases |s|
  {
    if s != [] {
      EscapeRoffStep(s);
      var rest := EscapeRoff(s[1..]);
      EscapeRoffRoundTrip(s[1..]);
      if s[0] == '\\' {
        var out := "\\\\" + rest;
        assert "\\\\" <= out;
        assert out[|"\\\\"|..] == rest;
        assert "\\" + s[1..] == s;
      } else {
        var out := [s[0]] + rest;
        assert out[0] != '\\';
        assert !("\\\\" <= out);
        assert out[1..] == rest;
        assert [s[0]] + s[1..] == s;
      }
    }
  }

  /** `\fB…\fP` */
  function Bold(s: string): string {
    "\\fB" + s + "\\fP"
  }

  /** `\fI…\fP` */
  function Italic(s: string): string {
    "\\fI" + s + "\\fP"
  }

  /** A use-line token written `<…>` names an argument. */
  predicate IsArgToken(token: string) {
    HasPrefix(token, "<") && HasSuffix(token, ">")
  }

  /** An argument token is set in italics, every other token in bold. */
  function FormatToken(token: string): string {
    if IsArgToken(token) then Italic(token) else Bold(token)
  }

  /**
   * A formatted token is the token itself between a font switch and `\fP`;
   * the font is `I` exactly for argument tokens, and no space is introduced.
   */
  lemma {:induction false} FormatTokenShape(token: string)
    ensures var r := FormatToken(token);
      && |r| == |token| + 6
      && r[..2] == "\\f"
      && (r[2] == 'I' <==> IsArgToken(token))
      && (r[2] == 'B' <==> !IsArgToken(token))
      && r[3..|r| - 3] == token
      && r[|r| - 3..] == "\\fP"
      && (' ' !in token ==> ' ' !in r)
  {
    var r := FormatToken(token);
    assert r == [r[0], r[1], r[2]] + token + "\\fP";
  }
}
