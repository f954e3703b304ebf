/**
 * The functions of Go's `strings` package that the man-page generator calls,
 * on strings taken as sequences of runes. Each follows the documented Go
 * behaviour for the arguments the generator passes; the lemmas state the
 * facts about them that the rest of the model relies on.
 */
module GoStrings {

  /** Go's `unicode.IsSpace`: the Latin-1 spaces plus the Unicode White_Space runes. */
  predicate IsSpace(c: char) {
    || c == ' ' || c == '\t' || c == '\n' || c == '\U{000B}' || c == '\U{000C}' || c == '\r'
    || c == '\U{0085}' || c == '\U{00A0}' || c == '\U{1680}'
    || ('\U{2000}' <= c <= '\U{200A}')
    || c == '\U{2028}' || c == '\U{2029}' || c == '\U{202F}' || c == '\U{205F}' || c == '\U{3000}'
  }

  /** No rune of `s` is white space. */
  predicate NoSpace(s: string) {
    forall k :: 0 <= k < |s| ==> !IsSpace(s[k])
  }

  /** `strings.HasPrefix` */
  predicate HasPrefix(s: string, prefix: string) {
    prefix <= s
  }

  /** `strings.HasSuffix` */
  predicate HasSuffix(s: string, suffix: string) {
    |suffix| <= |s| && s[|s| - |suffix|..] == suffix
  }

  /**
   * `strings.ReplaceAll`: every non-overlapping occurrence of `pat`, found
   * left to right, becomes `rep`. An empty `pat` matches at the start and
   * after every rune.
   */
  function ReplaceAll(s: string, pat: string, rep: string): string
    decreases |s|
  {
    if pat == [] then
      if s == [] then rep else rep + [s[0]] + ReplaceAll(s[1..], pat, rep)
    else if pat <= s then rep + ReplaceAll(s[|pat|..], pat, rep)
    else if s == [] then []
    else [s[0]] + ReplaceAll(s[1..], pat, rep)
  }

  /** `strings.Count` for a non-empty pattern: non-overlapping occurrences, left to right. */
  function Count(s: string, pat: string): nat
    requires pat != []
    decreases |s|
  {
    if pat <= s then 1 + Count(s[|pat|..], pat)
    else if s == [] then 0
    else Count(s[1..], pat)
  }

  /** Every replaced occurrence changes the length by `|rep| - |pat|`. */
  lemma {:induction false} ReplaceAllLength(s: string, pat: string, rep: string)
    requires pat != []
    ensures |ReplaceAll(s, pat, rep)| == |s| + Count(s, pat) * (|rep| - |pat|)
    decreases |s|
  {
    if pat <= s {
      var t := s[|pat|..];
      ReplaceAllLength(t, pat, rep);
      assert ReplaceAll(s, pat, rep) == rep + ReplaceAll(t, pat, rep);
      assert Count(s, pat) == 1 + Count(t, pat);
      MultiplySucc(Count(t, pat), |rep| - |pat|);
    } else if s != [] {
      ReplaceAllLength(s[1..], pat, rep);
    }
  }

  /** Proof hint: one step of distributing a product, kept apart so that nonlinear arithmetic stays out of the lemmas that use it. */
  lemma {:induction false} MultiplySucc(c: int, d: int)
    ensures (c + 1) * d == c * d + d
  {
  }

  /** A pattern that never occurs leaves the string as it is. */
  lemma {:induction false} ReplaceAllAbsent(s: string, pat: string, rep: string)
    requires pat != [] && Count(s, pat) == 0
    ensures ReplaceAll(s, pat, rep) == s
    decreases |s|
  {
    if s != [] {
      ReplaceAllAbsent(s[1..], pat, rep);
      assert [s[0]] + s[1..] == s;
    }
  }

  /** Replacing one rune by another rewrites exactly the positions holding it. */
  lemma {:induction false} ReplaceRune(s: string, from: char, to: char)
    ensures |ReplaceAll(s, [from], [to])| == |s|
    ensures forall k :: 0 <= k < |s| ==>
      ReplaceAll(s, [from], [to])[k] == if s[k] == from then to else s[k]
    decreases |s|
  {
    if s != [] {
      ReplaceRune(s[1..], from, to);
      if [from] <= s {
        assert s[|[from]|..] == s[1..];
      }
    }
  }

  /** `s` with every newline turned into a space, rune by rune. */
  function NewlinesToSpaces(s: string): (r: string)
    ensures |r| == |s|
    ensures forall k :: 0 <= k < |s| ==> r[k] == if s[k] == '\n' then ' ' else s[k]
  {
    if s == [] then [] else NewlinesToSpaces(s[..|s| - 1]) + [if s[|s| - 1] == '\n' then ' ' else s[|s| - 1]]
  }

  /** `strings.ReplaceAll(s, "\n", " ")` turns each newline into a space and touches nothing else. */
  lemma {:induction false} ReplaceNewlines(s: string)
    ensures ReplaceAll(s, "\n", " ") == NewlinesToSpaces(s)
  {
    assert "\n" == ['\n'] && " " == [' '];
    ReplaceRune(s, '\n', ' ');
  }

  /** `strings.Join` */
  function Join(parts: seq<string>, sep: string): string
  {
    if |parts| == 0 then []
    else if |parts| == 1 then parts[0]
    else parts[0] + sep + Join(parts[1..], sep)
  }

  /** `strings.Split` for a non-empty separator: always at least one piece. */
  function Split(s: string, sep: string): (pieces: seq<string>)
    requires sep != []
    ensures |pieces| >= 1
  {
    SplitFrom(s, sep, [])
  }

  /** Splits `s`, with `cur` the part of the current piece already scanned. */
  function SplitFrom(s: string, sep: string, cur: string): (pieces: seq<string>)
    requires sep != []
    ensures |pieces| >= 1
    decreases |s|
  {
    if sep <= s then [cur] + SplitFrom(s[|sep|..], sep, [])
    else if s == [] then [cur]
    else SplitFrom(s[1..], sep, cur + [s[0]])
  }

  /** Joining the pieces of a split with the same separator gives the string back. */
  lemma {:induction false} SplitThenJoin(s: string, sep: string)
    requires sep != []
    ensures Join(Split(s, sep), sep) == s
  {
    SplitFromThenJoin(s, sep, []);
  }

  lemma {:induction false} SplitFromThenJoin(s: string, sep: string, cur: string)
    requires sep != []
    ensures Join(SplitFrom(s, sep, cur), sep) == cur + s
    decreases |s|
  {
    if sep <= s {
      var rest := SplitFrom(s[|sep|..], sep, []);
      SplitFromThenJoin(s[|sep|..], sep, []);
      assert ([cur] + rest)[1..] == rest;
      assert s == sep + s[|sep|..];
    } else if s != [] {
      SplitFromThenJoin(s[1..], sep, cur + [s[0]]);
      assert cur + [s[0]] + s[1..] == cur + s;
    }
  }

  /** A run free of the one-rune separator is absorbed into the current piece. */
  lemma {:induction false} SplitFromSkips(a: string, t: string, c: char, cur: string)
    requires c !in a
    ensures SplitFrom(a + t, [c], cur) == SplitFrom(t, [c], cur + a)
    decreases |a|
  {
    if a != [] {
      var s := a + t;
      assert s[0] == a[0] && a[0] != c;
      assert !([c] <= s);
      assert s[1..] == a[1..] + t;
      SplitFromSkips(a[1..], t, c, cur + [a[0]]);
      assert cur + [a[0]] + a[1..] == cur + a;
    } else {
      assert a + t == t;
      assert cur + a == cur;
    }
  }

  /** Splitting what was joined with a one-rune separator absent from every part gives the parts back. */
  lemma {:induction false} JoinThenSplit(parts: seq<string>, c: char)
    requires |parts| >= 1
    requires forall i :: 0 <= i < |parts| ==> c !in parts[i]
    ensures Split(Join(parts, [c]), [c]) == parts
    decreases |parts|
  {
    if |parts| == 1 {
      SplitFromSkips(parts[0], [], c, []);
      assert parts[0] + [] == parts[0];
      assert [] + parts[0] == parts[0];
      assert SplitFrom([], [c], parts[0]) == [parts[0]];
    } else {
      var rest := Join(parts[1..], [c]);
      assert Join(parts, [c]) == parts[0] + ([c] + rest);
      SplitFromSkips(parts[0], [c] + rest, c, []);
      assert [] + parts[0] == parts[0];
      assert [c] <= [c] + rest;
      assert ([c] + rest)[|[c]|..] == rest;
      assert SplitFrom([c] + rest, [c], parts[0]) == [parts[0]] + SplitFrom(rest, [c], []);
      JoinThenSplit(parts[1..], c);
      assert parts == [parts[0]] + parts[1..];
    }
  }

  /** The index of the first rune at or after `i` that is not white space, or `|s|` when there is none. */
  function SkipSpace(s: string, i: nat): (j: nat)
    requires i <= |s|
    ensures i <= j <= |s|
    ensures j == |s| || !IsSpace(s[j])
    decreases |s| - i
  {
    if i < |s| && IsSpace(s[i]) then SkipSpace(s, i + 1) else i
  }

  /** The end of `s[..j]` once its trailing white space is cut. */
  function BackSpace(s: string, j: nat): (i: nat)
    requires j <= |s|
    ensures i <= j
    ensures i == 0 || !IsSpace(s[i - 1])
    decreases j
  {
    if j > 0 && IsSpace(s[j - 1]) then BackSpace(s, j - 1) else j
  }

  /** Only white space lies between `i` and where `SkipSpace` stops. */
  lemma {:induction false} SkipSpaceCuts(s: string, i: nat)
    requires i <= |s|
    ensures forall k :: i <= k < SkipSpace(s, i) ==> IsSpace(s[k])
    decreases |s| - i
  {
    if i < |s| && IsSpace(s[i]) {
      SkipSpaceCuts(s, i + 1);
    }
  }

  /** Only white space lies between where `BackSpace` stops and `j`. */
  lemma {:induction false} BackSpaceCuts(s: string, j: nat)
    requires j <= |s|
    ensures forall k :: BackSpace(s, j) <= k < j ==> IsSpace(s[k])
    decreases j
  {
    if j > 0 && IsSpace(s[j - 1]) {
      BackSpaceCuts(s, j - 1);
    }
  }

  /** Drops leading white space. */
  function TrimLeftSpace(s: string): (r: string)
    ensures |r| <= |s|
    ensures r == [] || !IsSpace(r[0])
  {
    s[SkipSpace(s, 0)..]
  }

  /** Drops trailing white space. */
  function TrimRightSpace(s: string): (r: string)
    ensures |r| <= |s|
    ensures r == [] || !IsSpace(r[|r| - 1])
  {
    s[..BackSpace(s, |s|)]
  }

  /** Trimming the front keeps a suffix, and only white space is cut. */
  lemma {:induction false} TrimLeftCutsSpace(s: string)
    ensures TrimLeftSpace(s) == s[|s| - |TrimLeftSpace(s)|..]
    ensures forall k :: 0 <= k < |s| - |TrimLeftSpace(s)| ==> IsSpace(s[k])
  {
    SkipSpaceCuts(s, 0);
  }

  /** Trimming the back keeps a prefix, and only white space is cut. */
  lemma {:induction false} TrimRightCutsSpace(s: string)
    ensures TrimRightSpace(s) == s[..|TrimRightSpace(s)|]
    ensures forall k :: |TrimRightSpace(s)| <= k < |s| ==> IsSpace(s[k])
  {
    BackSpaceCuts(s, |s|);
  }

  /** `strings.TrimSpace` */
  function TrimSpace(s: string): string
  {
    TrimRightSpace(TrimLeftSpace(s))
  }

  /** The trimmed string is a slice of the input with no white space at either end, and only white space was cut. */
  lemma {:induction false} TrimSpaceSlice(s: string)
    ensures exists i, j ::
      (&& 0 <= i <= j <= |s| && TrimSpace(s) == s[i..j]
       && (forall k :: 0 <= k < i ==> IsSpace(s[k]))
       && (forall k :: j <= k < |s| ==> IsSpace(s[k])))
    ensures TrimSpace(s) != [] ==> !IsSpace(TrimSpace(s)[0]) && !IsSpace(TrimSpace(s)[|TrimSpace(s)| - 1])
  {
    var l := TrimLeftSpace(s);
    var r := TrimRightSpace(l);
    var i := |s| - |l|;
    var j := i + |r|;
    TrimLeftCutsSpace(s);
    TrimRightCutsSpace(l);
    assert r == s[i..j];
    forall k | j <= k < |s| ensures IsSpace(s[k]) {
      assert s[k] == l[k - i];
    }
  }

  /** `strings.Fields`: the maximal runs of non-space runes. */
  function Fields(s: string): (fields: seq<string>)
    ensures forall k :: 0 <= k < |fields| ==> fields[k] != [] && NoSpace(fields[k])
  {
    FieldsFrom(s, [])
  }

  /** A string is a prefix of any extension of itself. */
  lemma {:induction false} PrefixOfConcat(a: string, b: string)
    ensures HasPrefix(a + b, a)
  {
    assert (a + b)[..|a|] == a;
  }

  /** A string is a suffix of anything extended by it. */
  lemma {:induction false} SuffixOfConcat(a: string, b: string)
    ensures HasSuffix(a + b, b)
  {
    assert (a + b)[|a + b| - |b|..] == b;
  }

  /** Fields of `s`, with `cur` the part of the current field already scanned. */
  function FieldsFrom(s: string, cur: string): (fields: seq<string>)
    requires NoSpace(cur)
    ensures forall k :: 0 <= k < |fields| ==> fields[k] != [] && NoSpace(fields[k])
    decreases |s|
  {
    if s == [] then (if cur == [] then [] else [cur])
    else if IsSpace(s[0]) then (if cur == [] then [] else [cur]) + FieldsFrom(s[1..], [])
    else FieldsFrom(s[1..], cur + [s[0]])
  }

  /** The runes of `s` that are not white space, in order. */
  function NonSpace(s: string): string
  {
    if s == [] then [] else (if IsSpace(s[0]) then [] else [s[0]]) + NonSpace(s[1..])
  }

  /** Concatenation of a sequence of strings. */
  function Flatten(parts: seq<string>): string
  {
    if parts == [] then [] else parts[0] + Flatten(parts[1..])
  }

  lemma {:induction false} FlattenAppend(a: seq<string>, b: seq<string>)
    ensures Flatten(a + b) == Flatten(a) + Flatten(b)
    decreases |a|
  {
    if a != [] {
      assert (a + b)[1..] == a[1..] + b;
      FlattenAppend(a[1..], b);
    } else {
      assert a + b == b;
    }
  }

  /** The fields hold every non-space rune of the input, in order, and nothing else. */
  lemma {:induction false} FieldsKeepContent(s: string)
    ensures Flatten(Fields(s)) == NonSpace(s)
  {
    FieldsFromKeepContent(s, []);
  }

  lemma {:induction false} FieldsFromKeepContent(s: string, cur: string)
    requires NoSpace(cur)
    ensures Flatten(FieldsFrom(s, cur)) == cur + NonSpace(s)
    decreases |s|
  {
    if s == [] {
    } else if IsSpace(s[0]) {
      var head: seq<string> := if cur == [] then [] else [cur];
      FieldsFromKeepContent(s[1..], []);
      FlattenAppend(head, FieldsFrom(s[1..], []));
    } else {
      FieldsFromKeepContent(s[1..], cur + [s[0]]);
    }
  }

  /** Upper case of an ASCII letter; every other rune is unchanged. */
  function UpperAscii(c: char): char
  {
    if 'a' <= c <= 'z' then (c as int - 32) as char else c
  }

  /** `strings.ToUpper`, restricted to ASCII letters. */
  function ToUpper(s: string): string
  {
    seq(|s|, i requires 0 <= i < |s| => UpperAscii(s[i]))
  }

  /** Upper-casing keeps the length, leaves no ASCII lower-case letter and is idempotent. */
  lemma {:induction false} ToUpperProperties(s: string)
    ensures |ToUpper(s)| == |s|
    ensures forall k :: 0 <= k < |s| ==> !('a' <= ToUpper(s)[k] <= 'z')
    ensures ToUpper(ToUpper(s)) == ToUpper(s)
  {
  }
}
