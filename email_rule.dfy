/** The email rule both authentication forms apply: required after
    trimming, then the pattern "local part, '@', one or more labels each
    followed by '.', and a final label of two to four characters", where the
    local part is drawn from letters, digits, '_', '-' and '.', and labels
    from letters, digits, '_' and '-'. */
module EmailRule {
  import opened Text

  /** `\w`: an ASCII letter, digit or underscore. */
  predicate IsWordChar(c: char) {
    ('A' <= c <= 'Z') || ('a' <= c <= 'z') || ('0' <= c <= '9') || c == '_'
  }

  predicate IsLocalChar(c: char) {
    IsWordChar(c) || c == '-' || c == '.'
  }

  predicate IsLabelChar(c: char) {
    IsWordChar(c) || c == '-'
  }

  predicate LocalPart(s: string) {
    s != [] && forall i :: 0 <= i < |s| ==> IsLocalChar(s[i])
  }

  predicate Label(s: string) {
    s != [] && forall i :: 0 <= i < |s| ==> IsLabelChar(s[i])
  }

  predicate TopLabel(s: string) {
    2 <= |s| <= 4 && forall i :: 0 <= i < |s| ==> IsLabelChar(s[i])
  }

  /** The part after the '@': at least two '.'-separated pieces, every one
      but the last a label, the last a top-level label. */
  predicate Domain(d: string) {
    var parts := Split(d, '.');
    |parts| >= 2 && (forall i :: 0 <= i < |parts| - 1 ==> Label(parts[i])) && TopLabel(parts[|parts| - 1])
  }

  /** The pattern test: no character class admits '@', so splitting at it
      must give exactly the local part and the domain. */
  predicate Matches(s: string) {
    var at := Split(s, '@');
    |at| == 2 && LocalPart(at[0]) && Domain(at[1])
  }

  /** The constructive reading of the pattern: a local part, '@', the
      labels and the top-level label joined with '.'. */
  predicate Built(s: string, local: string, labels: seq<string>, top: string) {
    && LocalPart(local) && |labels| >= 1 && (forall i :: 0 <= i < |labels| ==> Label(labels[i])) && TopLabel(top)
    && s == local + "@" + Join(labels + [top], '.')
  }

  lemma JoinPair(a: string, b: string, sep: char)
    ensures Join([a, b], sep) == a + [sep] + b
  {
    assert [a, b][1..] == [b];
  }

  /** Every address of the constructive form passes the test. */
  lemma {:induction false} BuiltMatches(s: string, local: string, labels: seq<string>, top: string)
    requires Built(s, local, labels, top)
    ensures Matches(s)
  {
    var parts := labels + [top];
    forall i | 0 <= i < |parts| ensures '.' !in parts[i] && '@' !in parts[i] {
      if i < |labels| { assert parts[i] == labels[i]; }
    }
    SplitJoin(parts, '.');
    var d := Join(parts, '.');
    JoinExcludes(parts, '.', '@');
    JoinPair(local, d, '@');
    SplitJoin([local, d], '@');
  }

  /** Every address that passes the test has the constructive form. */
  lemma {:induction false} MatchesBuilt(s: string)
    requires Matches(s)
    ensures exists local, labels, top :: Built(s, local, labels, top)
  {
    var at := Split(s, '@');
    JoinSplit(s, '@');
    JoinPair(at[0], at[1], '@');
    assert at == [at[0], at[1]];
    var parts := Split(at[1], '.');
    JoinSplit(at[1], '.');
    var labels := parts[..|parts| - 1];
    var top := parts[|parts| - 1];
    assert labels + [top] == parts;
    assert Built(s, at[0], labels, top);
  }

  lemma MatchesIffBuilt(s: string)
    ensures Matches(s) <==> exists local, labels, top :: Built(s, local, labels, top)
  {
    if Matches(s) {
      MatchesBuilt(s);
    }
    if exists local, labels, top :: Built(s, local, labels, top) {
      var local, labels, top :| Built(s, local, labels, top);
      BuiltMatches(s, local, labels, top);
    }
  }

  const EmailRequired: string := "Email is required"
  const EmailInvalid: string := "Email is invalid"

  /** The email field's check: the empty string when it passes. */
  function EmailError(value: string): (r: string)
    ensures r == EmailRequired <==> IsBlank(Js, value)
    ensures r == EmailInvalid <==> !IsBlank(Js, value) && !Matches(value)
    ensures r == "" <==> !IsBlank(Js, value) && Matches(value)
  {
    TrimEmptyIffBlank(Js, value);
    if Trim(Js, value) == "" then EmailRequired
    else if !Matches(value) then EmailInvalid
    else ""
  }
}
