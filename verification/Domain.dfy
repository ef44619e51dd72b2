/** The host-name check of MetricStorage: a regular expression, the language it
    stands for, and a linear scanner that decides it. */
module Domain {

  // ---------------------------------------------------------------- the expression

  /** Characters matched by [a-z0-9-] under (?i): simple case folding also maps the
      long s (U+017F) to s and the Kelvin sign (U+212A) to k. */
  predicate InClass(c: char) {
    || 'a' <= c <= 'z' || 'A' <= c <= 'Z' || '0' <= c <= '9' || c == '-'
    || c == '\U{017F}' || c == '\U{212A}'
  }

  datatype Regex = Class | Dot | Cat(left: Regex, right: Regex) | Plus(body: Regex) | Opt(body: Regex)

  /** Whole-string matching. */
  ghost predicate Matches(r: Regex, s: string)
    decreases |s|, r
  {
    match r
    case Class => |s| == 1 && InClass(s[0])
    case Dot => s == "."
    case Cat(a, b) => exists i :: 0 <= i <= |s| && Matches(a, s[..i]) && Matches(b, s[i..])
    case Plus(a) => Matches(a, s) || exists i :: 0 < i < |s| && Matches(a, s[..i]) && Matches(Plus(a), s[i..])
    case Opt(a) => s == [] || Matches(a, s)
  }

  const WORD := Plus(Class)
  const DOT_WORD := Cat(Dot, WORD)

  /** ^(?i)[a-z0-9-]+(\.[a-z0-9-]+)+\.?$ */
  const DOMAIN := Cat(WORD, Cat(Plus(DOT_WORD), Opt(Dot)))

  // ---------------------------------------------------------------- the language

  predicate IsWord(s: string) {
    s != [] && forall i :: 0 <= i < |s| ==> InClass(s[i])
  }

  /** Put a character in front of, or after, a split string. */
  function Prepend(a: char, labels: seq<string>): (r: seq<string>)
    requires labels != []
    ensures r != []
  {
    if a == '.' then [[]] + labels else [[a] + labels[0]] + labels[1..]
  }

  function Append(labels: seq<string>, c: char): (r: seq<string>)
    requires labels != []
    ensures r != []
  {
    if c == '.' then labels + [[]] else labels[..|labels| - 1] + [labels[|labels| - 1] + [c]]
  }

  /** The pieces between the dots; always at least one. */
  function Split(s: string): (labels: seq<string>)
    ensures labels != []
    decreases |s|
  {
    if s == [] then [[]]
    else
      Prepend(s[0], Split(s[1..]))
  }

  predicate AllWords(labels: seq<string>) {
    forall i :: 0 <= i < |labels| ==> IsWord(labels[i])
  }

  function DropFinalDot(s: string): string {
    if s != [] && s[|s| - 1] == '.' then s[..|s| - 1] else s
  }

  /** Drop one optional final dot and split on the dots: at least two labels, all
      non-empty, all in the folded class. */
  predicate IsDomain(s: string) {
    var labels := Split(DropFinalDot(s));
    |labels| >= 2 && AllWords(labels)
  }

  // ---------------------------------------------------------------- words

  lemma {:induction false} WordMatches(s: string)
    ensures Matches(WORD, s) <==> IsWord(s)
    decreases |s|
  {
    if Matches(WORD, s) {
      if !Matches(Class, s) {
        var i :| 0 < i < |s| && Matches(Class, s[..i]) && Matches(WORD, s[i..]);
        WordMatches(s[i..]);
        assert i == 1 && s[..1][0] == s[0];
        assert forall j :: 1 <= j < |s| ==> s[j] == s[1..][j - 1];
      }
    }
    if IsWord(s) {
      if |s| > 1 {
        assert s[..1][0] == s[0] && Matches(Class, s[..1]);
        WordMatches(s[1..]);
        assert IsWord(s[1..]);
      }
    }
  }

  lemma {:induction false} SplitWord(w: string, rest: string)
    requires '.' !in w
    ensures Split(w) == [w]
    ensures Split(w + "." + rest) == [w] + Split(rest)
    decreases |w|
  {
    var s := w + "." + rest;
    if w == [] {
      assert s == "." + rest && s[1..] == rest;
    } else {
      assert s[1..] == w[1..] + "." + rest;
      assert s[0] == w[0] && w[0] in w;
      SplitWord(w[1..], rest);
      assert [w[0]] + w[1..] == w;
    }
  }

  lemma WordHasNoDot(w: string)
    requires IsWord(w)
    ensures '.' !in w
  {
  }

  /** The first label, and what follows it. */
  lemma {:induction false} SplitFirst(s: string)
    ensures var w := Split(s)[0];
            && '.' !in w
            && (|Split(s)| == 1 ==> s == w)
            && (|Split(s)| > 1 ==> |w| < |s| && s[..|w|] == w && s[|w|] == '.' && Split(s[|w| + 1..]) == Split(s)[1..])
    decreases |s|
  {
    if s != [] {
      SplitFirst(s[1..]);
      var w := Split(s)[0];
      if s[0] != '.' {
        var v := Split(s[1..])[0];
        assert w == [s[0]] + v;
        if |Split(s)| > 1 {
          assert s[|w|] == s[1..][|v|];
          assert s[|w| + 1..] == s[1..][|v| + 1..];
          assert s[..|w|] == [s[0]] + s[1..][..|v|];
        } else {
          assert s == [s[0]] + s[1..];
        }
      }
    }
  }

  // ---------------------------------------------------------------- the repeated part

  predicate IsTail(t: string) {
    t != [] && t[0] == '.' && AllWords(Split(t[1..]))
  }

  lemma DotWordMatches(t: string)
    ensures Matches(DOT_WORD, t) <==> t != [] && t[0] == '.' && IsWord(t[1..])
  {
    if Matches(DOT_WORD, t) {
      var i :| 0 <= i <= |t| && Matches(Dot, t[..i]) && Matches(WORD, t[i..]);
      assert i == 1 && t[..1][0] == t[0];
      WordMatches(t[1..]);
    }
    if t != [] && t[0] == '.' && IsWord(t[1..]) {
      WordMatches(t[1..]);
      assert t[..1] == ".";
    }
  }

  lemma TailOfOne(t: string)
    requires t != [] && t[0] == '.' && IsWord(t[1..])
    ensures IsTail(t)
  {
    WordHasNoDot(t[1..]);
    SplitWord(t[1..], []);
  }

  lemma TailOfMore(t: string, i: nat)
    requires 0 < i < |t| && t[0] == '.' && IsWord(t[1..i]) && IsTail(t[i..])
    ensures IsTail(t)
  {
    var w, u := t[1..i], t[i..];
    WordHasNoDot(w);
    SplitWord(w, u[1..]);
    assert t[1..] == w + "." + u[1..];
  }

  lemma {:induction false} TailMatches(t: string)
    ensures Matches(Plus(DOT_WORD), t) <==> IsTail(t)
    decreases |t|
  {
    DotWordMatches(t);
    if Matches(Plus(DOT_WORD), t) {
      if Matches(DOT_WORD, t) {
        TailOfOne(t);
      } else {
        var i :| 0 < i < |t| && Matches(DOT_WORD, t[..i]) && Matches(Plus(DOT_WORD), t[i..]);
        DotWordMatches(t[..i]);
        TailMatches(t[i..]);
        assert t[..i][1..] == t[1..i] && t[..i][0] == t[0];
        TailOfMore(t, i);
      }
    }
    if IsTail(t) {
      SplitFirst(t[1..]);
      var w := Split(t[1..])[0];
      assert IsWord(w);
      if |Split(t[1..])| > 1 {
        var i := |w| + 1;
        assert t[i] == '.' && t[i + 1..] == t[1..][|w| + 1..];
        assert t[..i][1..] == t[1..][..|w|] == w && t[..i][0] == '.';
        DotWordMatches(t[..i]);
        assert t[i..][1..] == t[i + 1..];
        assert AllWords(Split(t[1..])[1..]);
        TailMatches(t[i..]);
      }
    }
  }

  lemma {:induction false} LastOfTail(t: string)
    requires IsTail(t)
    ensures t[|t| - 1] != '.'
    decreases |t|
  {
    SplitFirst(t[1..]);
    var w := Split(t[1..])[0];
    assert IsWord(w);
    if |Split(t[1..])| > 1 {
      var u := t[|w| + 1..];
      assert u[0] == t[1..][|w|] && u[1..] == t[1..][|w| + 1..];
      assert AllWords(Split(t[1..])[1..]);
      LastOfTail(u);
      assert u[|u| - 1] == t[|t| - 1];
    } else {
      assert t[1..] == w && t[|t| - 1] == w[|w| - 1] && InClass(w[|w| - 1]);
    }
  }

  // ---------------------------------------------------------------- equivalence

  /** A word and a tail are the dotted names with at least two labels. */
  lemma DottedName(w: string, t: string)
    requires IsWord(w) && IsTail(t)
    ensures Split(w + t) == [w] + Split(t[1..]) && AllWords(Split(w + t)) && |Split(w + t)| >= 2
  {
    WordHasNoDot(w);
    SplitWord(w, t[1..]);
    assert w + t == w + "." + t[1..];
  }

  lemma EndsMatch(s: string, i: nat, j: nat)
    requires 0 < i < j <= |s| && (s[j..] == [] || s[j..] == ".")
    requires IsTail(s[i..j])
    ensures DropFinalDot(s) == s[..i] + s[i..j]
  {
    LastOfTail(s[i..j]);
    hide IsTail;
    assert s[i..j][j - i - 1] == s[j - 1];
    if s[j..] == "." {
      assert s[j..][0] == s[|s| - 1];
      assert s[..|s| - 1] == s[..i] + s[i..j];
    } else {
      assert s == s[..i] + s[i..j];
    }
  }

  lemma OptDotMatches(s: string)
    ensures Matches(Opt(Dot), s) <==> s == [] || s == "."
  {
  }

  /** The three parts of a match. */
  lemma MatchParts(s: string) returns (i: nat, j: nat)
    requires Matches(DOMAIN, s)
    ensures i <= j <= |s| && Matches(WORD, s[..i]) && Matches(Plus(DOT_WORD), s[i..j]) && Matches(Opt(Dot), s[j..])
  {
    i :| 0 <= i <= |s| && Matches(WORD, s[..i]) && Matches(Cat(Plus(DOT_WORD), Opt(Dot)), s[i..]);
    var u := s[i..];
    var k :| 0 <= k <= |u| && Matches(Plus(DOT_WORD), u[..k]) && Matches(Opt(Dot), u[k..]);
    j := i + k;
    assert u[..k] == s[i..j] && u[k..] == s[j..];
  }

  lemma MatchIsDomain(s: string)
    requires Matches(DOMAIN, s)
    ensures IsDomain(s)
  {
    hide Matches, AllWords;
    var i, j := MatchParts(s);
    WordMatches(s[..i]);
    TailMatches(s[i..j]);
    OptDotMatches(s[j..]);
    EndsMatch(s, i, j);
    DottedName(s[..i], s[i..j]);
  }

  lemma DomainMatches(s: string)
    requires IsDomain(s)
    ensures Matches(DOMAIN, s)
  {
    var body := DropFinalDot(s);
    SplitFirst(body);
    var w := Split(body)[0];
    var i := |w|;
    var t := body[i..];
    assert AllWords(Split(body)[1..]);
    assert t[1..] == body[i + 1..];
    assert IsTail(t) && IsWord(w);
    var u := s[i..];
    assert body == s[..|body|];
    assert u[..|t|] == t && s[..i] == w;
    assert u[|t|..] == [] || u[|t|..] == ".";
    WordMatches(w);
    TailMatches(t);
    OptDotMatches(u[|t|..]);
    assert Matches(Cat(Plus(DOT_WORD), Opt(Dot)), u);
  }

  /** The expression matches exactly the dotted names. */
  lemma RegexIsDomain(s: string)
    ensures Matches(DOMAIN, s) <==> IsDomain(s)
  {
    if Matches(DOMAIN, s) { MatchIsDomain(s); }
    if IsDomain(s) { DomainMatches(s); }
  }

  /** What every accepted name looks like: letters, digits, hyphens and the two characters
      that fold to letters, in labels between single dots, with a dot before the last
      label. */
  lemma AcceptedNames(s: string)
    requires Matches(DOMAIN, s)
    ensures forall i :: 0 <= i < |s| ==> NameCharacter(s[i])
    ensures s != [] && s[0] != '.' && (forall i :: 0 < i < |s| ==> s[i] != '.' || s[i - 1] != '.')
    ensures exists i :: 0 < i < |s| - 1 && s[i] == '.'
  {
    hide Matches;
    RegexIsDomain(s);
    var body := DropFinalDot(s);
    DottedWords(body);
    assert body == s[..|body|];
    SplitFirst(body);
    var w := Split(body)[0];
    assert IsWord(w) && s[|w|] == body[|w|] == '.';
  }

  predicate NameCharacter(c: char) {
    || 'a' <= c <= 'z' || 'A' <= c <= 'Z' || '0' <= c <= '9' || c == '-' || c == '.'
    || c == '\U{017F}' || c == '\U{212A}'
  }

  /** Words between single dots. */
  lemma {:induction false} DottedWords(s: string)
    requires AllWords(Split(s))
    ensures s != [] && s[0] != '.' && s[|s| - 1] != '.'
    ensures forall i :: 0 <= i < |s| ==> NameCharacter(s[i])
    ensures forall i :: 0 < i < |s| ==> s[i] != '.' || s[i - 1] != '.'
    decreases |s|
  {
    SplitFirst(s);
    var w := Split(s)[0];
    assert IsWord(w);
    if |Split(s)| > 1 {
      var t := s[|w| + 1..];
      assert AllWords(Split(s)[1..]);
      DottedWords(t);
      assert s == w + "." + t;
    }
  }

  // ---------------------------------------------------------------- the scanner

  lemma {:induction false} SplitSnoc(p: string, c: char)
    ensures Split(p + [c]) == Append(Split(p), c)
    decreases |p|
  {
    if p == [] {
      assert p + [c] == [c] && [c][1..] == [];
      assert Split(p) == [[]] && [c] + [] == [] + [c];
      assert Split([c]) == Prepend(c, [[]]) == Append([[]], c);
    } else {
      assert (p + [c])[1..] == p[1..] + [c] && (p + [c])[0] == p[0];
      SplitSnoc(p[1..], c);
      PrependSnoc(p[0], Split(p[1..]), c);
    }
  }

  /** Putting a character in front commutes with putting one at the end. */
  lemma PrependSnoc(a: char, labels: seq<string>, c: char)
    requires labels != []
    ensures Append(Prepend(a, labels), c) == Prepend(a, Append(labels, c))
  {
    var n := |labels|;
    var x, y := Append(Prepend(a, labels), c), Prepend(a, Append(labels, c));
    if a == '.' {
      if c != '.' { assert ([[]] + labels)[..n] == [[]] + labels[..n - 1]; }
    } else if c == '.' {
      assert (labels + [[]])[1..] == labels[1..] + [[]];
    } else if n == 1 {
      assert [a] + (labels[0] + [c]) == ([a] + labels[0]) + [c];
      assert x == [[a] + labels[0] + [c]] == y;
    } else {
      var last := labels[n - 1] + [c];
      assert ([[a] + labels[0]] + labels[1..])[..n - 1] == [[a] + labels[0]] + labels[1..n - 1];
      assert (labels[..n - 1] + [last])[1..] == labels[1..n - 1] + [last];
    }
  }

  /** What the scanner knows of a prefix: its labels are words up to the last one,
      which has `len` characters of the class. */
  predicate Scanned(p: string, dots: nat, len: nat) {
    var labels := Split(p);
    && |labels| == dots + 1 && |labels[dots]| == len
    && AllWords(labels[..dots])
    && (len > 0 ==> IsWord(labels[dots]))
  }

  lemma ScanNext(p: string, c: char, dots: nat, len: nat)
    requires Scanned(p, dots, len)
    ensures c == '.' && len > 0 ==> Scanned(p + [c], dots + 1, 0)
    ensures InClass(c) ==> Scanned(p + [c], dots, len + 1)
  {
    SplitSnoc(p, c);
    var labels := Split(p);
    if c == '.' && len > 0 {
      assert Split(p + [c])[..dots + 1] == labels[..dots] + [labels[dots]];
    } else if InClass(c) {
      assert Split(p + [c])[..dots] == labels[..dots];
    }
  }

  /** Once an inner label is broken, no continuation is a domain. */
  lemma {:induction false} Broken(p: string, rest: string, i: nat)
    requires i + 1 < |Split(p)| && !IsWord(Split(p)[i])
    ensures i + 1 < |Split(p + rest)| && !IsWord(Split(p + rest)[i])
    decreases |rest|
  {
    if rest == [] {
      assert p + rest == p;
    } else {
      SplitSnoc(p, rest[0]);
      assert p + rest == (p + [rest[0]]) + rest[1..];
      Broken(p + [rest[0]], rest[1..], i);
    }
  }

  lemma BrokenIsNoDomain(s: string, i: nat)
    requires i + 1 < |Split(s)| && !IsWord(Split(s)[i])
    ensures !IsDomain(s)
  {
    if DropFinalDot(s) != s {
      var body := DropFinalDot(s);
      assert s == body + ['.'];
      SplitSnoc(body, '.');
      assert Split(body)[i] == Split(s)[i];
    }
  }

  /** A character outside the class and not a dot. */
  lemma {:induction false} Foreign(p: string, c: char, rest: string)
    requires !InClass(c) && c != '.'
    ensures !IsDomain(p + [c] + rest)
    decreases |rest|
  {
    var s := p + [c] + rest;
    var body := DropFinalDot(s);
    assert s[|p|] == c;
    assert c in body by { assert body[|p|] == c; }
    var i := LabelWith(body, c);
    assert !IsWord(Split(body)[i]);
  }

  lemma {:induction false} LabelWith(s: string, c: char) returns (i: nat)
    requires c in s && c != '.'
    ensures i < |Split(s)| && c in Split(s)[i]
    decreases |s|
  {
    if s[0] == c {
      i := 0;
    } else {
      assert s == [s[0]] + s[1..];
      i := LabelWith(s[1..], c);
      if s[0] == '.' { i := i + 1; }
    }
  }

  lemma ScanEnd(s: string, dots: nat, len: nat)
    requires Scanned(s, dots, len)
    ensures IsDomain(s) <==> if len > 0 then dots >= 1 else dots >= 2
  {
    var labels := Split(s);
    if s == [] {
      assert labels == [[]];
    } else {
      var body, c := s[..|s| - 1], s[|s| - 1];
      assert s == body + [c];
      SplitSnoc(body, c);
      if c == '.' {
        assert labels[..dots] == Split(body);
      } else {
        assert labels[dots] != [];
        assert labels == labels[..dots] + [labels[dots]];
      }
    }
  }

  /** One pass over the string decides the expression. */
  method IsValidDomain(s: string) returns (valid: bool)
    ensures valid <==> Matches(DOMAIN, s)
  {
    RegexIsDomain(s);
    hide Matches, IsDomain;
    var dots, len := 0, 0;
    assert s[..0] == [];
    for i := 0 to |s|
      invariant Scanned(s[..i], dots, len)
    {
      var c := s[i];
      assert s[..i + 1] == s[..i] + [c];
      ScanNext(s[..i], c, dots, len);
      if InClass(c) {
        len := len + 1;
      } else if c != '.' {
        Foreign(s[..i], c, s[i + 1..]);
        assert s == s[..i] + [c] + s[i + 1..];
        return false;
      } else if len == 0 {
        SplitSnoc(s[..i], c);
        assert s == s[..i + 1] + s[i + 1..];
        Broken(s[..i + 1], s[i + 1..], dots);
        BrokenIsNoDomain(s, dots);
        return false;
      } else {
        dots, len := dots + 1, 0;
      }
    }
    assert s[..|s|] == s;
    ScanEnd(s, dots, len);
    valid := if len > 0 then dots >= 1 else dots >= 2;
  }

  // ---------------------------------------------------------------- host names

  predicate Alphanumeric(c: char) {
    'a' <= c <= 'z' || 'A' <= c <= 'Z' || '0' <= c <= '9'
  }

  /** A label of section 2.3.1 of RFC 1035, which section 2.1 of RFC 1123 lets start
      with a digit as well. */
  predicate IsLabel(s: string) {
    && s != [] && Alphanumeric(s[0]) && Alphanumeric(s[|s| - 1])
    && forall i :: 0 <= i < |s| ==> Alphanumeric(s[i]) || s[i] == '-'
  }

  function Join(labels: seq<string>): string
    requires labels != []
    decreases |labels|
  {
    if |labels| == 1 then labels[0] else labels[0] + "." + Join(labels[1..])
  }

  lemma {:induction false} SplitJoin(labels: seq<string>)
    requires labels != [] && forall i :: 0 <= i < |labels| ==> IsLabel(labels[i])
    ensures Split(Join(labels)) == labels && Join(labels) != [] && Join(labels)[|Join(labels)| - 1] != '.'
    decreases |labels|
  {
    var w := labels[0];
    assert IsLabel(w) && '.' !in w;
    if |labels| == 1 {
      SplitWord(w, []);
    } else {
      SplitJoin(labels[1..]);
      SplitWord(w, Join(labels[1..]));
    }
  }

  /** Every host name of two or more labels is accepted, with or without the final
      dot of a fully qualified name. */
  lemma HostNamesAreDomains(labels: seq<string>)
    requires |labels| >= 2 && forall i :: 0 <= i < |labels| ==> IsLabel(labels[i])
    ensures Matches(DOMAIN, Join(labels)) && Matches(DOMAIN, Join(labels) + ".")
  {
    hide Matches;
    SplitJoin(labels);
    var s := Join(labels);
    assert AllWords(labels);
    assert (s + ".")[..|s|] == s;
    RegexIsDomain(s);
    RegexIsDomain(s + ".");
  }
}
