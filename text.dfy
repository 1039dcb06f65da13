/** Character and string helpers shared by the validators: whitespace as
    JavaScript's `trim` and Python's `str.strip` see it, ASCII lower-casing,
    and searching, counting, splitting and joining on one character. */
module Text {

  /** Which runtime's notion of whitespace a trim uses. */
  datatype Flavor = Js | Py

  /** JavaScript WhiteSpace and LineTerminator code points (what `trim` removes). */
  predicate IsJsSpace(c: char) {
    c == '\t' || c == '\n' || c == '\U{B}' || c == '\U{C}' || c == '\r' || c == ' '
    || c == '\U{A0}' || c == '\U{1680}' || ('\U{2000}' <= c <= '\U{200A}')
    || c == '\U{2028}' || c == '\U{2029}' || c == '\U{202F}' || c == '\U{205F}'
    || c == '\U{3000}' || c == '\U{FEFF}'
  }

  /** Python `str.isspace` code points (what `str.strip()` removes). */
  predicate IsPySpace(c: char) {
    c == '\t' || c == '\n' || c == '\U{B}' || c == '\U{C}' || c == '\r'
    || ('\U{1C}' <= c <= '\U{1F}') || c == ' ' || c == '\U{85}' || c == '\U{A0}'
    || c == '\U{1680}' || ('\U{2000}' <= c <= '\U{200A}') || c == '\U{2028}'
    || c == '\U{2029}' || c == '\U{202F}' || c == '\U{205F}' || c == '\U{3000}'
  }

  predicate IsSpace(f: Flavor, c: char) {
    match f
    case Js => IsJsSpace(c)
    case Py => IsPySpace(c)
  }

  /** JavaScript regular-expression line terminators: what `.` never matches. */
  predicate IsLineTerminator(c: char) {
    c == '\n' || c == '\r' || c == '\U{2028}' || c == '\U{2029}'
  }

  /** Every character is whitespace (the empty string included). */
  predicate IsBlank(f: Flavor, s: string) {
    forall i :: 0 <= i < |s| ==> IsSpace(f, s[i])
  }

  /** Drops leading whitespace: the result is the longest suffix starting with a non-space. */
  function TrimStart(f: Flavor, s: string): (r: string)
    ensures |r| <= |s| && r == s[|s| - |r|..]
    ensures forall i :: 0 <= i < |s| - |r| ==> IsSpace(f, s[i])
    ensures r != [] ==> !IsSpace(f, r[0])
    decreases |s|
  {
    if s != [] && IsSpace(f, s[0]) then TrimStart(f, s[1..]) else s
  }

  /** Drops trailing whitespace: the result is the longest prefix ending with a non-space. */
  function TrimEnd(f: Flavor, s: string): (r: string)
    ensures |r| <= |s| && r == s[..|r|]
    ensures forall i :: |r| <= i < |s| ==> IsSpace(f, s[i])
    ensures r != [] ==> !IsSpace(f, r[|r| - 1])
    decreases |s|
  {
    if s != [] && IsSpace(f, s[|s| - 1]) then TrimEnd(f, s[..|s| - 1]) else s
  }

  /** `s.trim()` (Js) or `s.strip()` (Py). */
  function Trim(f: Flavor, s: string): string {
    TrimEnd(f, TrimStart(f, s))
  }

  /** Trimming leaves nothing exactly when the string is all whitespace:
      this is what the sources' `!s.trim()` and `not s.strip()` test. */
  lemma TrimEmptyIffBlank(f: Flavor, s: string)
    ensures Trim(f, s) == [] <==> IsBlank(f, s)
  {
    var t := TrimStart(f, s);
    if Trim(f, s) == [] && t != [] {
      // `t` would start with a non-space that `TrimEnd` removed.
      assert false;
    }
  }

  /** The sources' `!s.trim()` and `not s.strip()` test. */
  function TrimsToEmpty(f: Flavor, s: string): (r: bool)
    ensures r <==> IsBlank(f, s)
  {
    TrimEmptyIffBlank(f, s);
    Trim(f, s) == []
  }

  /** ASCII lower-casing. */
  function LowerChar(c: char): char {
    if 'A' <= c <= 'Z' then (c as int + 32) as char else c
  }

  function ToLower(s: string): (r: string)
    ensures |r| == |s| && forall i :: 0 <= i < |s| ==> r[i] == LowerChar(s[i])
  {
    seq(|s|, i requires 0 <= i < |s| => LowerChar(s[i]))
  }

  /** `s` ends, ignoring ASCII case, with the lower-case `suffix`. */
  predicate EndsWithIgnoringCase(s: string, suffix: string) {
    |suffix| <= |s| && ToLower(s[|s| - |suffix|..]) == suffix
  }

  /** A character that is not a letter is the lower-casing of itself and of nothing else. */
  lemma LowerKeeps(x: char, c: char)
    requires !('A' <= c <= 'Z') && !('a' <= c <= 'z')
    ensures LowerChar(x) == c <==> x == c
  {
  }

  /** JavaScript `s.lastIndexOf(c)`: the last position of `c`, or -1. */
  function LastIndexOf(s: string, c: char): (r: int)
    ensures -1 <= r < |s|
    ensures r >= 0 ==> s[r] == c
    ensures forall i :: r < i < |s| ==> s[i] != c
    decreases |s|
  {
    if s == [] then -1
    else if s[|s| - 1] == c then |s| - 1
    else LastIndexOf(s[..|s| - 1], c)
  }

  /** Number of occurrences of `c` in `s`. */
  function Count(s: string, c: char): nat
    decreases |s|
  {
    if s == [] then 0 else (if s[0] == c then 1 else 0) + Count(s[1..], c)
  }

  /** Python `s.split(sep)` with an explicit one-character separator: every
      occurrence cuts, empty pieces are kept. */
  function Split(s: string, sep: char): (r: seq<string>)
    ensures |r| == Count(s, sep) + 1
    ensures forall i :: 0 <= i < |r| ==> sep !in r[i]
    decreases |s|
  {
    if s == [] then [[]]
    else
      var rest := Split(s[1..], sep);
      if s[0] == sep then [[]] + rest else [[s[0]] + rest[0]] + rest[1..]
  }

  /** `sep.join(parts)`. */
  function Join(parts: seq<string>, sep: char): string
    decreases |parts|
  {
    if parts == [] then []
    else if |parts| == 1 then parts[0]
    else parts[0] + [sep] + Join(parts[1..], sep)
  }

  lemma JoinConsHead(c: char, parts: seq<string>, sep: char)
    requires parts != []
    ensures Join([[c] + parts[0]] + parts[1..], sep) == [c] + Join(parts, sep)
  {
    var q := [[c] + parts[0]] + parts[1..];
    assert q[1..] == parts[1..];
  }

  /** Joining the pieces of a split gives back the string. */
  lemma {:induction false} JoinSplit(s: string, sep: char)
    ensures Join(Split(s, sep), sep) == s
    decreases |s|
  {
    if s != [] {
      var rest := Split(s[1..], sep);
      JoinSplit(s[1..], sep);
      if s[0] == sep {
        assert ([[]] + rest)[1..] == rest;
      } else {
        JoinConsHead(s[0], rest, sep);
      }
      assert [s[0]] + s[1..] == s;
    }
  }

  /** A leading separator closes an empty first piece. */
  lemma SplitAfterSep(rest: string, sep: char)
    ensures Split([sep] + rest, sep) == [[]] + Split(rest, sep)
  {
    assert ([sep] + rest)[1..] == rest;
  }

  /** Any other leading character joins the first piece. */
  lemma SplitAfterChar(c: char, rest: string, sep: char)
    requires c != sep
    ensures Split([c] + rest, sep) == [[c] + Split(rest, sep)[0]] + Split(rest, sep)[1..]
  {
    assert ([c] + rest)[1..] == rest;
  }

  /** Splitting a join of separator-free pieces gives back the pieces. */
  lemma {:induction false} SplitJoin(parts: seq<string>, sep: char)
    requires parts != []
    requires forall i :: 0 <= i < |parts| ==> sep !in parts[i]
    ensures Split(Join(parts, sep), sep) == parts
    decreases |parts|, |parts[0]|
  {
    if |parts| == 1 {
      SplitNoSep(parts[0], sep);
    } else if parts[0] == [] {
      SplitJoin(parts[1..], sep);
      assert Join(parts, sep) == [sep] + Join(parts[1..], sep);
      SplitAfterSep(Join(parts[1..], sep), sep);
      assert [[]] + parts[1..] == parts;
    } else {
      var c := parts[0][0];
      var tail := [parts[0][1..]] + parts[1..];
      assert tail[1..] == parts[1..];
      SplitJoin(tail, sep);
      assert [c] + parts[0][1..] == parts[0];
      JoinConsHead(c, tail, sep);
      assert [[c] + tail[0]] + tail[1..] == parts;
      SplitAfterChar(c, Join(tail, sep), sep);
    }
  }

  lemma {:induction false} SplitNoSep(s: string, sep: char)
    requires sep !in s
    ensures Split(s, sep) == [s]
    decreases |s|
  {
    if s != [] {
      SplitNoSep(s[1..], sep);
      assert [s[0]] + s[1..] == s;
    }
  }

  /** Lower-casing moves no non-letter, so its last position is unchanged. */
  lemma {:induction false} LastIndexOfLower(s: string, c: char)
    requires !('A' <= c <= 'Z') && !('a' <= c <= 'z')
    ensures LastIndexOf(ToLower(s), c) == LastIndexOf(s, c)
    decreases |s|
  {
    if s != [] {
      var t := ToLower(s);
      LowerKeeps(s[|s| - 1], c);
      assert t[..|t| - 1] == ToLower(s[..|s| - 1]);
      LastIndexOfLower(s[..|s| - 1], c);
    }
  }

  /** When `s` ends, ignoring case, with a suffix whose only '.' is its
      first character, that '.' is the last one of `s`. */
  lemma DottedSuffixIsLast(s: string, suffix: string)
    requires EndsWithIgnoringCase(s, suffix)
    requires |suffix| > 0 && suffix[0] == '.' && '.' !in suffix[1..]
    ensures LastIndexOf(s, '.') == |s| - |suffix|
  {
    var k := |s| - |suffix|;
    var tail := s[k..];
    assert LowerChar(s[k]) == '.' by {
      assert tail[0] == s[k];
      assert ToLower(tail)[0] == suffix[0];
    }
    LowerKeeps(s[k], '.');
    forall i | k < i < |s| ensures s[i] != '.' {
      assert LowerChar(s[i]) == suffix[1..][i - k - 1] by {
        assert tail[i - k] == s[i];
        assert ToLower(tail)[i - k] == suffix[i - k];
      }
      LowerKeeps(s[i], '.');
    }
    LastIndexOfAt(s, '.', k);
  }


  lemma LastIndexOfAt(s: string, c: char, i: nat)
    requires i < |s| && s[i] == c
    requires forall j :: i < j < |s| ==> s[j] != c
    ensures LastIndexOf(s, c) == i
  {
  }

  lemma LastIndexOfAbsent(s: string, c: char)
    requires c !in s
    ensures LastIndexOf(s, c) == -1
  {
  }

  /** A character outside every piece and different from the separator is outside the join. */
  lemma {:induction false} JoinExcludes(parts: seq<string>, sep: char, c: char)
    requires c != sep && forall i :: 0 <= i < |parts| ==> c !in parts[i]
    ensures c !in Join(parts, sep)
    decreases |parts|
  {
    if |parts| > 1 {
      JoinExcludes(parts[1..], sep, c);
    }
  }

  /** JavaScript's `length`: UTF-16 code units, two for a character beyond the Basic Multilingual Plane. */
  function JsLength(s: string): (n: nat)
    ensures |s| <= n <= 2 * |s|
    decreases |s|
  {
    if s == [] then 0 else (if s[0] as int > 0xFFFF then 2 else 1) + JsLength(s[1..])
  }
}
