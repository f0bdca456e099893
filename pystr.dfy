/**
 * The handful of Python `str` operations the bot relies on, with Python's
 * semantics: `startswith`, the `in` substring test, `replace` with and without
 * a count, `strip`, and `split`/`join` on a one-character separator.
 */
module PyStr {
  import opened Wrappers

  /** Python truthiness of an optional string: present and non-empty. */
  predicate Truthy(s: Option<string>) {
    s.Some? && s.value != ""
  }

  /** `s.startswith(prefix)` */
  predicate StartsWith(s: string, prefix: string) {
    |prefix| <= |s| && s[..|prefix|] == prefix
  }

  /** A text does not start with a prefix whose first character it lacks at the front. */
  lemma FirstCharMismatch(s: string, prefix: string)
    requires |s| > 0 && |prefix| > 0 && s[0] != prefix[0]
    ensures !StartsWith(s, prefix)
  {
    assert |prefix| > |s| || s[..|prefix|][0] != prefix[0];
  }

  /** `sub in s` */
  predicate Contains(s: string, sub: string)
    decreases |s|
  {
    StartsWith(s, sub) || (|s| > 0 && Contains(s[1..], sub))
  }

  /** `c` does not occur in `s`. */
  predicate Lacks(s: string, c: char) {
    forall i :: 0 <= i < |s| ==> s[i] != c
  }

  /**
   * `s.replace(pat, repl, count)`: a left-to-right scan that replaces
   * non-overlapping occurrences of `pat` and never rescans inserted text;
   * a negative count (Python's default -1) replaces every occurrence.
   */
  function Replace(s: string, pat: string, repl: string, count: int): string
    requires pat != ""
    decreases |s|
  {
    if count == 0 || |s| < |pat| then s
    else if s[..|pat|] == pat then
      repl + Replace(s[|pat|..], pat, repl, if count > 0 then count - 1 else count)
    else [s[0]] + Replace(s[1..], pat, repl, count)
  }

  /** `s.replace(pat, repl)` */
  function ReplaceAll(s: string, pat: string, repl: string): string
    requires pat != ""
  {
    Replace(s, pat, repl, -1)
  }

  /** Replacing once in a string that starts with the pattern swaps exactly that prefix. */
  lemma ReplaceFirstAtStart(s: string, pat: string, repl: string)
    requires pat != "" && StartsWith(s, pat)
    ensures Replace(s, pat, repl, 1) == repl + s[|pat|..]
  {
    assert Replace(s[|pat|..], pat, repl, 0) == s[|pat|..];
  }

  /** A string shorter than the pattern cannot contain it and is left alone. */
  lemma ReplaceAllShort(s: string, pat: string, repl: string)
    requires pat != "" && |s| < |pat|
    ensures ReplaceAll(s, pat, repl) == s
  {
  }

  /**
   * When the pattern opens with a character `a` does not contain, the scan
   * passes over `a` unchanged: replacing in `a + b` is `a` followed by
   * replacing in `b`.
   */
  lemma {:induction false} ReplaceAllSkips(a: string, b: string, pat: string, repl: string)
    requires pat != "" && Lacks(a, pat[0])
    ensures ReplaceAll(a + b, pat, repl) == a + ReplaceAll(b, pat, repl)
    decreases |a|
  {
    if a == [] {
      assert a + b == b;
    } else if |a + b| < |pat| {
      ReplaceAllShort(a + b, pat, repl);
      ReplaceAllShort(b, pat, repl);
    } else {
      assert (a + b)[0] == a[0] != pat[0];
      assert (a + b)[..|pat|] != pat by {
        assert (a + b)[..|pat|][0] == a[0];
      }
      assert (a + b)[1..] == a[1..] + b;
      ReplaceAllSkips(a[1..], b, pat, repl);
      assert a == [a[0]] + a[1..];
    }
  }

  /** A string without the pattern's first character is unchanged by replace-all. */
  lemma ReplaceAllAbsent(s: string, pat: string, repl: string)
    requires pat != "" && Lacks(s, pat[0])
    ensures ReplaceAll(s, pat, repl) == s
  {
    ReplaceAllSkips(s, "", pat, repl);
    assert s + "" == s;
    ReplaceAllShort("", pat, repl);
  }

  /** A string without the first character of `sub` does not contain `sub`. */
  lemma {:induction false} LacksNotContains(s: string, sub: string)
    requires sub != "" && Lacks(s, sub[0])
    ensures !Contains(s, sub)
    decreases |s|
  {
    if |sub| <= |s| {
      assert s[..|sub|][0] == s[0];
    }
    if |s| > 0 {
      LacksNotContains(s[1..], sub);
    }
  }

  /** Python's `str.isspace` for a single character. */
  predicate IsSpace(c: char) {
    || c == ' '
    || '\t' <= c <= '\r'
    || '\U{1C}' <= c <= '\U{1F}'
    || c == '\U{85}' || c == '\U{A0}' || c == '\U{1680}'
    || '\U{2000}' <= c <= '\U{200A}'
    || c == '\U{2028}' || c == '\U{2029}' || c == '\U{202F}'
    || c == '\U{205F}' || c == '\U{3000}'
  }

  /** `s.lstrip()`: the suffix left after dropping leading whitespace. */
  function StripLeft(s: string): (r: string)
    ensures |r| <= |s| && r == s[|s| - |r|..]
    ensures r == [] || !IsSpace(r[0])
    ensures forall i :: 0 <= i < |s| - |r| ==> IsSpace(s[i])
    decreases |s|
  {
    if s != [] && IsSpace(s[0]) then StripLeft(s[1..]) else s
  }

  /** `s.rstrip()`: the prefix left after dropping trailing whitespace. */
  function StripRight(s: string): (r: string)
    ensures |r| <= |s| && r == s[..|r|]
    ensures r == [] || !IsSpace(r[|r| - 1])
    ensures forall i :: |r| <= i < |s| ==> IsSpace(s[i])
    decreases |s|
  {
    if s != [] && IsSpace(s[|s| - 1]) then StripRight(s[..|s| - 1]) else s
  }

  /** `s.strip()` */
  function Strip(s: string): string {
    StripRight(StripLeft(s))
  }

  /** Neither end of `s` is whitespace. */
  predicate Trimmed(s: string) {
    s == [] || (!IsSpace(s[0]) && !IsSpace(s[|s| - 1]))
  }

  /** `strip` leaves alone exactly the strings whose ends are not whitespace. */
  lemma StripTrimmed(s: string)
    ensures Strip(s) == s <==> Trimmed(s)
  {
    var l := StripLeft(s);
    if Trimmed(s) {
      assert l == s;
      assert StripRight(l) == s;
    } else if IsSpace(s[0]) {
      assert |l| < |s|;
    } else {
      assert l == s;
      assert |StripRight(l)| < |l|;
    }
  }

  /** Stripping keeps a prefix that neither starts nor ends with whitespace. */
  lemma StripKeepsPrefix(s: string, prefix: string)
    requires |prefix| > 0 && !IsSpace(prefix[0]) && !IsSpace(prefix[|prefix| - 1])
    requires StartsWith(s, prefix)
    ensures StartsWith(Strip(s), prefix)
  {
    assert s[0] == prefix[0] && s[|prefix| - 1] == prefix[|prefix| - 1];
    assert StripLeft(s) == s;
    var r := StripRight(s);
    assert |r| >= |prefix| by {
      assert !IsSpace(s[|prefix| - 1]);
    }
    assert r[..|prefix|] == s[..|prefix|];
  }

  /** `sep.join(parts)` for a one-character separator. */
  function Join(parts: seq<string>, sep: char): string
    decreases |parts|
  {
    if parts == [] then ""
    else if |parts| == 1 then parts[0]
    else parts[0] + [sep] + Join(parts[1..], sep)
  }

  /**
   * `s.split(sep)` for a one-character separator: always at least one part,
   * no part holds the separator, and joining the parts gives `s` back.
   */
  function Split(s: string, sep: char): (parts: seq<string>)
    ensures |parts| >= 1
    ensures forall i :: 0 <= i < |parts| ==> Lacks(parts[i], sep)
    ensures Join(parts, sep) == s
    decreases |s|
  {
    if s == [] then [""]
    else
      var rest := Split(s[1..], sep);
      if s[0] == sep then
        assert Join([""] + rest, sep) == [sep] + Join(rest, sep);
        [""] + rest
      else
        var head := [s[0]] + rest[0];
        assert Lacks(head, sep) by {
          forall i | 0 <= i < |head| ensures head[i] != sep {
            if i > 0 { assert head[i] == rest[0][i - 1]; }
          }
        }
        assert ([head] + rest[1..])[1..] == rest[1..];
        assert |rest| > 1 ==> Join(rest, sep) == rest[0] + [sep] + Join(rest[1..], sep);
        [head] + rest[1..]
  }

  /** Splitting a separator-free string yields that string as the only part. */
  lemma {:induction false} SplitLacking(a: string, sep: char)
    requires Lacks(a, sep)
    ensures Split(a, sep) == [a]
    decreases |a|
  {
    if a != [] {
      SplitLacking(a[1..], sep);
      assert a == [a[0]] + a[1..];
    }
  }

  /** A separator-free part followed by the separator is split off as one part. */
  lemma {:induction false} SplitAfterPart(a: string, rest: string, sep: char)
    requires Lacks(a, sep)
    ensures Split(a + [sep] + rest, sep) == [a] + Split(rest, sep)
    decreases |a|
  {
    var s := a + [sep] + rest;
    if a == [] {
      assert s == [sep] + rest;
      assert s[1..] == rest;
    } else {
      assert s[0] == a[0] && s[1..] == a[1..] + [sep] + rest;
      SplitAfterPart(a[1..], rest, sep);
      assert a == [a[0]] + a[1..];
    }
  }

  /** `split` undoes `join` when no part holds the separator. */
  lemma {:induction false} SplitJoin(parts: seq<string>, sep: char)
    requires |parts| >= 1
    requires forall i :: 0 <= i < |parts| ==> Lacks(parts[i], sep)
    ensures Split(Join(parts, sep), sep) == parts
    decreases |parts|
  {
    if |parts| == 1 {
      SplitLacking(parts[0], sep);
    } else {
      SplitJoin(parts[1..], sep);
      SplitAfterPart(parts[0], Join(parts[1..], sep), sep);
      assert parts == [parts[0]] + parts[1..];
    }
  }
}
