/** The string operations the TypeScript code relies on: `trim`, the
    trailing-slash `replace(/\/+$/, "")`, `endsWith`, `startsWith`,
    `Array.prototype.join`, and `toLowerCase` as it matters for ASCII words. */
module Text {

  /** The code points `String.prototype.trim` removes: ECMAScript WhiteSpace
      (tab, vertical tab, form feed, space, no-break space, byte order mark and
      the Unicode space separators) and LineTerminator (LF, CR, LS, PS). */
  predicate IsWhitespace(c: char) {
    || c == '\t' || c == '\U{0B}' || c == '\U{0C}' || c == ' ' || c == '\U{A0}'
    || c == '\U{FEFF}' || c == '\n' || c == '\r' || c == '\U{2028}' || c == '\U{2029}'
    || c == '\U{1680}' || ('\U{2000}' <= c <= '\U{200A}') || c == '\U{202F}'
    || c == '\U{205F}' || c == '\U{3000}'
  }

  /** No whitespace at either end: what `trim` leaves behind. */
  predicate IsTrimmed(s: string) {
    s == [] || (!IsWhitespace(s[0]) && !IsWhitespace(s[|s| - 1]))
  }

  /** Drops the leading whitespace: the result is the longest suffix of `s`
      that does not start with whitespace. */
  function TrimStart(s: string): (r: string)
    ensures |r| <= |s| && r == s[|s| - |r|..]
    ensures r == [] || !IsWhitespace(r[0])
    ensures forall i :: 0 <= i < |s| - |r| ==> IsWhitespace(s[i])
    decreases |s|
  {
    if |s| > 0 && IsWhitespace(s[0]) then TrimStart(s[1..]) else s
  }

  /** Drops the trailing whitespace: the result is the longest prefix of `s`
      that does not end with whitespace. */
  function TrimEnd(s: string): (r: string)
    ensures |r| <= |s| && r == s[..|r|]
    ensures r == [] || !IsWhitespace(r[|r| - 1])
    ensures forall i :: |r| <= i < |s| ==> IsWhitespace(s[i])
    decreases |s|
  {
    if |s| > 0 && IsWhitespace(s[|s| - 1]) then TrimEnd(s[..|s| - 1]) else s
  }

  /** `s.trim()`. */
  function Trim(s: string): (r: string)
    ensures IsTrimmed(r)
    ensures |r| <= |s|
  {
    TrimEnd(TrimStart(s))
  }

  /** A string with no whitespace at either end is left alone by `trim`. */
  lemma TrimKeepsTrimmed(s: string)
    requires IsTrimmed(s)
    ensures Trim(s) == s
  {
    if s == [] {
      assert TrimStart(s) == s;
    } else {
      TrimStartKeeps(s);
      TrimEndKeeps(s);
    }
  }

  lemma TrimStartKeeps(s: string)
    requires s != [] && !IsWhitespace(s[0])
    ensures TrimStart(s) == s
  {}

  lemma TrimEndKeeps(s: string)
    requires s != [] && !IsWhitespace(s[|s| - 1])
    ensures TrimEnd(s) == s
  {}

  /** `trim` drops one whitespace character after a string that is already trimmed. */
  lemma TrimDropsTrailingWhitespace(a: string, c: char)
    requires a != [] && IsTrimmed(a) && IsWhitespace(c)
    ensures Trim(a + [c]) == a
  {
    var u := a + [c];
    TrimStartKeeps(u);
    assert u[..|a|] == a;
    assert TrimEnd(u) == TrimEnd(a);
    TrimEndKeeps(a);
  }

  /** `s.replace(/\/+$/, "")`: removes every `/` at the end of `s`. */
  function StripTrailingSlashes(s: string): (r: string)
    ensures |r| <= |s| && r == s[..|r|]
    ensures r == [] || r[|r| - 1] != '/'
    ensures forall i :: |r| <= i < |s| ==> s[i] == '/'
    decreases |s|
  {
    if |s| > 0 && s[|s| - 1] == '/' then StripTrailingSlashes(s[..|s| - 1]) else s
  }

  /** Stripping slashes from the end of a trimmed string keeps its clean start. */
  lemma StripKeepsCleanStart(t: string)
    requires IsTrimmed(t)
    ensures var s := StripTrailingSlashes(t); s == [] || !IsWhitespace(s[0])
  {
    var s := StripTrailingSlashes(t);
    if s != [] {
      assert s[0] == t[0];
    }
  }

  /** Facts about a string with a clean start and a suffix without whitespace
      at its ends: ending in the suffix makes it trimmed, and appending the
      suffix gives a longer trimmed string ending in it. */
  lemma SuffixFacts(s: string, suffix: string)
    requires s == [] || !IsWhitespace(s[0])
    requires suffix != [] && !IsWhitespace(suffix[0]) && !IsWhitespace(suffix[|suffix| - 1])
    ensures EndsWith(s, suffix) ==> IsTrimmed(s) && s[|s| - 1] == suffix[|suffix| - 1]
    ensures var r := s + suffix;
            && |r| == |s| + |suffix| && EndsWith(r, suffix) && IsTrimmed(r)
            && r[|r| - 1] == suffix[|suffix| - 1]
  {
    var r := s + suffix;
    assert r[|r| - 1] == suffix[|suffix| - 1];
    assert r[|s|..] == suffix;
    if s == [] {
      assert r == suffix;
    } else {
      assert r[0] == s[0];
    }
    if EndsWith(s, suffix) {
      assert s[|s| - 1] == s[|s| - |suffix|..][|suffix| - 1];
    }
  }

  /** A string not ending in `/` is left alone by the slash stripping. */
  lemma StripKeeps(a: string)
    requires a != [] && a[|a| - 1] != '/'
    ensures StripTrailingSlashes(a) == a
  {
  }

  /** One trailing `/` after a string that does not end in `/` is removed. */
  lemma StripOne(a: string)
    requires a != [] && a[|a| - 1] != '/'
    ensures StripTrailingSlashes(a + "/") == a
  {
    assert (a + "/")[..|a|] == a;
    StripKeeps(a);
  }

  /** `s.endsWith(suffix)`. */
  predicate EndsWith(s: string, suffix: string) {
    |suffix| <= |s| && s[|s| - |suffix|..] == suffix
  }

  /** `s.startsWith(prefix)`. */
  predicate StartsWith(s: string, prefix: string) {
    prefix <= s
  }

  /** `parts.join(sep)`: the parts with `sep` between neighbours; `[]` joins to `""`. */
  function Join(parts: seq<string>, sep: string): string
    decreases |parts|
  {
    if |parts| == 0 then ""
    else if |parts| == 1 then parts[0]
    else parts[0] + sep + Join(parts[1..], sep)
  }

  /** Joining two parts puts one separator between them. */
  lemma JoinTwo(a: string, b: string, sep: string)
    ensures Join([a, b], sep) == a + sep + b
  {
    assert [a, b][1..] == [b];
  }

  /** Joining three parts puts one separator between each neighbouring pair. */
  lemma JoinThree(a: string, b: string, c: string, sep: string)
    ensures Join([a, b, c], sep) == a + sep + b + sep + c
  {
    assert [a, b, c][1..] == [b, c];
    JoinTwo(b, c, sep);
  }

  /** `s.split(c)` for a one-character separator: the pieces between the
      occurrences of `c`; `""` splits into `[""]`. The inverse of `Join`. */
  function Split(s: string, c: char): (r: seq<string>)
    ensures |r| >= 1
    decreases |s|
  {
    if |s| == 0 then [""]
    else
      var rest := Split(s[1..], c);
      if s[0] == c then [""] + rest else [[s[0]] + rest[0]] + rest[1..]
  }

  /** Splitting `a + [c] + b` at its first separator, when `a` holds no `c`. */
  lemma {:induction false} SplitAtFirst(a: string, b: string, c: char)
    requires c !in a
    ensures Split(a + [c] + b, c) == [a] + Split(b, c)
    decreases |a|
  {
    var s := a + [c] + b;
    if |a| == 0 {
      assert s[0] == c && s[1..] == b;
    } else {
      assert s[0] == a[0] && s[1..] == a[1..] + [c] + b;
      SplitAtFirst(a[1..], b, c);
      assert [a[0]] + a[1..] == a;
    }
  }

  /** Splitting a joined sequence of separator-free parts gives the parts back:
      the joined string determines the parts, empty ones included. */
  lemma {:induction false} SplitJoin(parts: seq<string>, c: char)
    requires |parts| >= 1
    requires forall i :: 0 <= i < |parts| ==> c !in parts[i]
    ensures Split(Join(parts, [c]), c) == parts
    decreases |parts|
  {
    if |parts| == 1 {
      SplitAtFirstNone(parts[0], c);
    } else {
      SplitJoin(parts[1..], c);
      SplitAtFirst(parts[0], Join(parts[1..], [c]), c);
      assert [parts[0]] + parts[1..] == parts;
    }
  }

  /** A string without the separator splits into itself alone. */
  lemma {:induction false} SplitAtFirstNone(a: string, c: char)
    requires c !in a
    ensures Split(a, c) == [a]
    decreases |a|
  {
    if |a| > 0 {
      SplitAtFirstNone(a[1..], c);
      assert [a[0]] + a[1..] == a;
    }
  }

  /** `toLowerCase` on one ASCII letter; every other character is returned as it is. */
  function AsciiLowerChar(c: char): char {
    if 'A' <= c <= 'Z' then (c as int + 32) as char else c
  }

  /** The upper-case form of an ASCII lower-case letter. */
  function AsciiUpperChar(c: char): char {
    if 'a' <= c <= 'z' then (c as int - 32) as char else c
  }

  /** `s.toLowerCase()` restricted to ASCII letters. */
  function AsciiLower(s: string): (r: string)
    ensures |r| == |s|
    ensures forall i :: 0 <= i < |s| ==> r[i] == AsciiLowerChar(s[i])
  {
    seq(|s|, i requires 0 <= i < |s| => AsciiLowerChar(s[i]))
  }

  /** `s` spells the lower-case ASCII word `w` in some mixture of cases. */
  predicate CaseVariantOf(s: string, w: string) {
    |s| == |w| && forall i :: 0 <= i < |s| ==> s[i] == w[i] || s[i] == AsciiUpperChar(w[i])
  }

  /** For a lower-case ASCII word, lower-casing yields it exactly for its case variants. */
  lemma LowerEqualsIffCaseVariant(s: string, w: string)
    requires forall i :: 0 <= i < |w| ==> 'a' <= w[i] <= 'z'
    ensures AsciiLower(s) == w <==> CaseVariantOf(s, w)
  {
    if CaseVariantOf(s, w) {
      forall i | 0 <= i < |s| ensures AsciiLower(s)[i] == w[i] {}
    }
  }

  /** The decimal digits of `n`. */
  function NatToString(n: nat): (r: string)
    ensures |r| >= 1
    ensures forall i :: 0 <= i < |r| ==> '0' <= r[i] <= '9'
    decreases n
  {
    if n < 10 then [(n + 48) as char] else NatToString(n / 10) + [(n % 10 + 48) as char]
  }
}
