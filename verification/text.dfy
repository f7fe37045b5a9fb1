/** The string operations of Python that the routes use: str.isspace, strip, upper, lower,
    startswith, the `in` substring test, split() and split(":"), and the order `sorted` puts
    strings in. Case mapping covers ASCII letters only. */
module Text {

  /** Python's str.isspace for one character: the characters Unicode gives the White_Space
      property or the bidirectional classes B and S, which includes the four ASCII separators
      0x1C to 0x1F. */
  predicate IsSpace(c: char)
    ensures c == ' ' || c == '\t' || c == '\n' || c == '\r' || c == '\U{A0}' ==> IsSpace(c)
    ensures '0' <= c <= '9' || 'A' <= c <= 'Z' || 'a' <= c <= 'z' || c == ':' || c == '-' ==> !IsSpace(c)
  {
    ('\t' <= c <= '\r') || ('\U{1C}' <= c <= '\U{1F}') || c == ' ' || c == '\U{85}' ||
    c == '\U{A0}' || c == '\U{1680}' || ('\U{2000}' <= c <= '\U{200A}') ||
    c == '\U{2028}' || c == '\U{2029}' || c == '\U{202F}' || c == '\U{205F}' || c == '\U{3000}'
  }

  /** s without its leading whitespace. */
  function TrimStart(s: string): (r: string)
    ensures |r| <= |s| && r == s[|s| - |r|..]
    ensures forall i :: 0 <= i < |s| - |r| ==> IsSpace(s[i])
    ensures r == [] || !IsSpace(r[0])
  {
    if |s| > 0 && IsSpace(s[0]) then
      var r := TrimStart(s[1..]);
      assert r == s[|s| - |r|..];
      assert forall i :: 1 <= i < |s| - |r| ==> s[i] == s[1..][i - 1];
      r
    else s
  }

  /** s without its trailing whitespace. */
  function TrimEnd(s: string): (r: string)
    ensures |r| <= |s| && r == s[..|r|]
    ensures forall i :: |r| <= i < |s| ==> IsSpace(s[i])
    ensures r == [] || !IsSpace(r[|r| - 1])
  {
    if |s| > 0 && IsSpace(s[|s| - 1]) then
      TrimEnd(s[..|s| - 1])
    else s
  }

  /** Python's str.strip() with no argument. */
  function Strip(s: string): (r: string)
    ensures r == [] || (!IsSpace(r[0]) && !IsSpace(r[|r| - 1]))
  {
    TrimEnd(TrimStart(s))
  }

  /** A string that has no surrounding whitespace is left alone by strip. */
  lemma StripStripped(s: string)
    requires Stripped(s)
    ensures Strip(s) == s
  {
  }

  function UpperChar(c: char): char
  {
    if 'a' <= c <= 'z' then (c as int - 32) as char else c
  }

  function LowerChar(c: char): char
  {
    if 'A' <= c <= 'Z' then (c as int + 32) as char else c
  }

  /** Python's str.upper() on ASCII letters. */
  function Upper(s: string): (r: string)
    ensures |r| == |s|
    ensures forall i :: 0 <= i < |s| ==> r[i] == UpperChar(s[i])
  {
    seq(|s|, i requires 0 <= i < |s| => UpperChar(s[i]))
  }

  /** Python's str.lower() on ASCII letters. */
  function Lower(s: string): (r: string)
    ensures |r| == |s|
    ensures forall i :: 0 <= i < |s| ==> r[i] == LowerChar(s[i])
  {
    seq(|s|, i requires 0 <= i < |s| => LowerChar(s[i]))
  }

  /** str.startswith(prefix). */
  predicate StartsWith(s: string, prefix: string)
    ensures StartsWith(s, prefix) <==> |prefix| <= |s| && s == prefix + s[|prefix|..]
  {
    |prefix| <= |s| && s[..|prefix|] == prefix
  }

  /** Python's `needle in hay` for two strings. */
  predicate Contains(hay: string, needle: string)
    ensures Contains(hay, needle) ==> |needle| <= |hay|
    ensures |needle| == 0 ==> Contains(hay, needle)
    decreases |hay|
  {
    StartsWith(hay, needle) || (|hay| > 0 && Contains(hay[1..], needle))
  }

  /** `needle in hay` holds exactly when the needle occurs at some position of hay. */
  lemma {:induction false} ContainsAt(hay: string, needle: string)
    ensures Contains(hay, needle) <==> exists i :: 0 <= i <= |hay| - |needle| && StartsWith(hay[i..], needle)
    decreases |hay|
  {
    if Contains(hay, needle) {
      if !StartsWith(hay, needle) {
        ContainsAt(hay[1..], needle);
        var i :| 0 <= i <= |hay[1..]| - |needle| && StartsWith(hay[1..][i..], needle);
        assert hay[1..][i..] == hay[i + 1..];
      } else {
        assert hay[0..] == hay;
      }
    } else if exists i :: 0 <= i <= |hay| - |needle| && StartsWith(hay[i..], needle) {
      var i :| 0 <= i <= |hay| - |needle| && StartsWith(hay[i..], needle);
      assert i != 0 by { assert hay[0..] == hay; }
      assert hay[1..][i - 1..] == hay[i..];
      ContainsAt(hay[1..], needle);
      assert false;
    }
  }

  /** A needle without upper-case letters found in a string is found in its lower-cased copy. */
  lemma {:induction false} LowerKeepsContains(hay: string, needle: string)
    requires forall i :: 0 <= i < |needle| ==> LowerChar(needle[i]) == needle[i]
    ensures Contains(hay, needle) ==> Contains(Lower(hay), needle)
    decreases |hay|
  {
    if StartsWith(hay, needle) {
      assert Lower(hay)[..|needle|] == needle;
    } else if |hay| > 0 && Contains(hay[1..], needle) {
      LowerKeepsContains(hay[1..], needle);
      assert Lower(hay)[1..] == Lower(hay[1..]);
    }
  }

  /** The longest prefix of s that holds no whitespace. */
  function Word(s: string): (w: string)
    ensures |w| <= |s| && w == s[..|w|]
    ensures forall i :: 0 <= i < |w| ==> !IsSpace(w[i])
    ensures |w| == |s| || IsSpace(s[|w|])
  {
    if |s| == 0 || IsSpace(s[0]) then [] else [s[0]] + Word(s[1..])
  }

  /** Python's str.split() with no argument: the maximal runs of non-whitespace. */
  function SplitWs(s: string): (r: seq<string>)
    ensures forall i :: 0 <= i < |r| ==> r[i] != []
    decreases |s|
  {
    if s == [] then []
    else if IsSpace(s[0]) then SplitWs(s[1..])
    else
      var w := Word(s);
      [w] + SplitWs(s[|w|..])
  }

  /** The first word of s is its first n characters when those hold no whitespace and the next
      one is whitespace or the end. */
  lemma {:induction false} WordOf(s: string, n: nat)
    requires n <= |s| && (n == |s| || IsSpace(s[n]))
    requires forall i :: 0 <= i < n ==> !IsSpace(s[i])
    ensures Word(s) == s[..n]
    decreases n
  {
    if n > 0 {
      WordOf(s[1..], n - 1);
      assert s[..n] == [s[0]] + s[1..][..n - 1];
    }
  }

  /** s holds no whitespace. */
  predicate NoSpace(s: string)
  {
    forall i :: 0 <= i < |s| ==> !IsSpace(s[i])
  }

  lemma NoSpaceConcat(a: string, b: string)
    requires NoSpace(a) && NoSpace(b)
    ensures NoSpace(a + b)
  {
    assert forall i :: |a| <= i < |a + b| ==> (a + b)[i] == b[i - |a|];
  }

  /** Two runs of non-whitespace with one space between them split into those two words. */
  lemma SplitWsPair(a: string, b: string)
    requires a != [] && b != [] && NoSpace(a) && NoSpace(b)
    ensures SplitWs(a + " " + b) == [a, b]
  {
    var s := a + " " + b;
    assert forall i :: 0 <= i < |a| ==> s[i] == a[i];
    assert s[|a|] == ' ';
    WordOf(s, |a|);
    assert s[..|a|] == a;
    var rest := s[|a|..];
    assert rest == " " + b;
    assert SplitWs(rest) == SplitWs(b) by {
      assert IsSpace(rest[0]) && rest[1..] == b;
    }
    WordOf(b, |b|);
    assert b[..|b|] == b && b[|b|..] == [];
    assert SplitWs(b) == [b];
  }

  /** s holds a character that is not whitespace, so that s.split() is not empty. */
  predicate HasWord(s: string)
  {
    exists k :: 0 <= k < |s| && !IsSpace(s[k])
  }

  /** s.split()[0]: the first maximal run of non-whitespace. */
  function FirstWord(s: string): (w: string)
    requires HasWord(s)
    ensures SplitWs(s) != [] && w == SplitWs(s)[0]
    decreases |s|
  {
    if IsSpace(s[0]) then
      assert HasWord(s[1..]) by {
        var k :| 0 <= k < |s| && !IsSpace(s[k]);
        assert s[1..][k - 1] == s[k];
      }
      FirstWord(s[1..])
    else Word(s)
  }

  /** Python's str.split(sep) for a one-character separator: never empty. */
  function SplitOn(s: string, sep: char): (r: seq<string>)
    ensures |r| >= 1
    ensures forall i :: 0 <= i < |r| ==> sep !in r[i]
  {
    if |s| == 0 then [""]
    else
      var rest := SplitOn(s[1..], sep);
      if s[0] == sep then [""] + rest else [[s[0]] + rest[0]] + rest[1..]
  }

  /** Splitting at the first separator, at index n: the text before it, then the split of the
      rest. */
  lemma {:induction false} SplitOnAt(s: string, sep: char, n: nat)
    requires n < |s| && s[n] == sep
    requires forall i :: 0 <= i < n ==> s[i] != sep
    ensures SplitOn(s, sep) == [s[..n]] + SplitOn(s[n + 1..], sep)
    decreases n
  {
    if n > 0 {
      SplitOnAt(s[1..], sep, n - 1);
      assert s[1..][n..] == s[n + 1..];
      assert s[..n] == [s[0]] + s[1..][..n - 1];
    }
  }

  /** Text without the separator, then the separator, splits into that text and the split of
      what follows. */
  lemma SplitOnPrefix(a: string, sep: char, rest: string)
    requires sep !in a
    ensures SplitOn(a + [sep] + rest, sep) == [a] + SplitOn(rest, sep)
  {
    var s := a + [sep] + rest;
    assert forall i :: 0 <= i < |a| ==> s[i] == a[i];
    SplitOnAt(s, sep, |a|);
    assert s[..|a|] == a && s[|a| + 1..] == rest;
  }

  /** Python's order on str: code point by code point, a proper prefix first. */
  predicate StrLess(a: string, b: string)
    ensures StrLess(a, b) ==> a != b
    ensures |a| < |b| && StartsWith(b, a) ==> StrLess(a, b)
    decreases |a|
  {
    if |a| == 0 then |b| > 0
    else if |b| == 0 then false
    else if a[0] == b[0] then StrLess(a[1..], b[1..])
    else a[0] < b[0]
  }

  lemma {:induction false} StrLessIrreflexive(a: string)
    ensures !StrLess(a, a)
    decreases |a|
  {
    if |a| > 0 {
      StrLessIrreflexive(a[1..]);
    }
  }

  lemma {:induction false} StrLessAsymmetric(a: string, b: string)
    requires StrLess(a, b)
    ensures !StrLess(b, a)
    decreases |a|
  {
    if |a| > 0 && |b| > 0 && a[0] == b[0] {
      StrLessAsymmetric(a[1..], b[1..]);
    }
  }

  lemma {:induction false} StrLessTransitive(a: string, b: string, c: string)
    requires StrLess(a, b) && StrLess(b, c)
    ensures StrLess(a, c)
    decreases |a|
  {
    if |a| > 0 && a[0] == b[0] && b[0] == c[0] {
      StrLessTransitive(a[1..], b[1..], c[1..]);
    }
  }

  lemma {:induction false} StrLessTotal(a: string, b: string)
    requires a != b
    ensures StrLess(a, b) || StrLess(b, a)
    decreases |a|
  {
    if |a| > 0 && |b| > 0 && a[0] == b[0] {
      assert a == [a[0]] + a[1..] && b == [b[0]] + b[1..];
      StrLessTotal(a[1..], b[1..]);
    }
  }

  /** Strictly ascending in Python's string order (so also free of duplicates). */
  ghost predicate StrictlySorted(s: seq<string>)
  {
    forall i, j :: 0 <= i < j < |s| ==> StrLess(s[i], s[j])
  }

  /** Python's str.upper() on a stripped string, as the quote route normalises symbols. */
  function Normalize(s: string): (r: string)
    ensures |r| <= |s|
    ensures Stripped(r)
    ensures forall i :: 0 <= i < |r| ==> !('a' <= r[i] <= 'z')
  {
    var t := Strip(s);
    UpperStripped(t);
    UpperHasNoLower(t);
    Upper(t)
  }

  lemma UpperCharFacts(c: char)
    ensures UpperChar(UpperChar(c)) == UpperChar(c)
    ensures IsSpace(UpperChar(c)) <==> IsSpace(c)
    ensures !('a' <= UpperChar(c) <= 'z')
  {
  }

  lemma UpperHasNoLower(t: string)
    ensures forall i :: 0 <= i < |t| ==> !('a' <= Upper(t)[i] <= 'z')
  {
    forall i | 0 <= i < |t|
      ensures !('a' <= Upper(t)[i] <= 'z')
    {
      UpperCharFacts(t[i]);
    }
  }

  ghost predicate Stripped(s: string)
  {
    s == [] || (!IsSpace(s[0]) && !IsSpace(s[|s| - 1]))
  }

  lemma UpperStripped(t: string)
    requires Stripped(t)
    ensures Stripped(Upper(t))
  {
    if t != [] {
      UpperCharFacts(t[0]);
      UpperCharFacts(t[|t| - 1]);
    }
  }

  lemma UpperIdempotent(t: string)
    ensures Upper(Upper(t)) == Upper(t)
  {
    var u := Upper(t);
    var v := Upper(u);
    forall i | 0 <= i < |u|
      ensures v[i] == u[i]
    {
      UpperCharFacts(t[i]);
    }
  }

  /** Normalising twice gives what normalising once gave: a normalised symbol is its own key. */
  lemma NormalizeIdempotent(s: string)
    ensures Normalize(Normalize(s)) == Normalize(s)
  {
    var t := Strip(s);
    var u := Upper(t);
    UpperStripped(t);
    StripStripped(u);
    UpperIdempotent(t);
  }
}
