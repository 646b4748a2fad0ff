/**
 * The string operations the bot applies through Python's `str` methods:
 * `lower()`, `title()`, `replace("_", " ")`, `strip()`, `startswith` and
 * `sep.join(...)`. The case operations follow Python on ASCII letters and
 * leave every other character alone; Unicode case mapping is not modelled.
 */
module Ascii {

  predicate IsUpper(c: char) { 'A' <= c <= 'Z' }
  predicate IsLower(c: char) { 'a' <= c <= 'z' }

  /** A cased character, in the sense of Python's `str.title()`, restricted to ASCII. */
  predicate IsLetter(c: char) { IsUpper(c) || IsLower(c) }

  function LowerChar(c: char): (d: char)
    ensures !IsUpper(d)
    ensures IsLetter(c) <==> IsLetter(d)
    ensures !IsLetter(c) ==> d == c
  {
    if IsUpper(c) then (c as int + 32) as char else c
  }

  function UpperChar(c: char): (d: char)
    ensures !IsLower(d)
    ensures IsLetter(c) <==> IsLetter(d)
    ensures !IsLetter(c) ==> d == c
  {
    if IsLower(c) then (c as int - 32) as char else c
  }

  /** Python `s.lower()` over ASCII. */
  function Lower(s: string): (r: string)
  {
    seq(|s|, i requires 0 <= i < |s| => LowerChar(s[i]))
  }

  /** Python `s.upper()` over ASCII. */
  function Upper(s: string): (r: string)
  {
    seq(|s|, i requires 0 <= i < |s| => UpperChar(s[i]))
  }

  /** Lower-casing forgets exactly the case of letters: it maps `s`,
      `upper(s)` and `lower(s)` to the same string. */
  lemma LowerForgetsCase(s: string)
    ensures Lower(Upper(s)) == Lower(s)
    ensures Lower(Lower(s)) == Lower(s)
  {
    forall i | 0 <= i < |s|
      ensures Lower(Upper(s))[i] == Lower(s)[i] && Lower(Lower(s))[i] == Lower(s)[i]
    {
      var c := s[i];
      if IsUpper(c) {
        assert UpperChar(c) == c;
      } else if IsLower(c) {
        assert LowerChar(UpperChar(c)) as int == c as int;
      }
    }
  }

  lemma LowerPrefix(s: string, n: nat)
    requires n <= |s|
    ensures Lower(s)[..n] == Lower(s[..n])
  {
  }

  lemma LowerAppend(s: string, t: string)
    ensures Lower(s + t) == Lower(s) + Lower(t)
  {
  }

  /** Python `s.replace(old, new)` for single-character `old` and `new`. */
  function ReplaceChar(s: string, from: char, to: char): (r: string)
  {
    seq(|s|, i requires 0 <= i < |s| => if s[i] == from then to else s[i])
  }

  /**
   * Python `str.title()` over ASCII, as CPython computes it: one pass that
   * remembers whether the previous character was cased, lower-casing a
   * letter that follows a cased character and upper-casing any other letter.
   */
  function TitleFrom(s: string, previousIsCased: bool): (r: string)
    ensures |r| == |s|
  {
    if s == [] then []
    else
      var c := s[0];
      var d := if !IsLetter(c) then c else if previousIsCased then LowerChar(c) else UpperChar(c);
      [d] + TitleFrom(s[1..], IsLetter(c))
  }

  /** The closed form of the scan: a letter is lower-cased exactly when the
      character before it (or the initial state, at the start) is cased, and
      upper-cased otherwise; any other character is kept. */
  lemma {:induction false} TitleFromAt(s: string, previousIsCased: bool, i: nat)
    requires i < |s|
    ensures TitleFrom(s, previousIsCased)[i] ==
      (if !IsLetter(s[i]) then s[i]
       else if (if i == 0 then previousIsCased else IsLetter(s[i - 1]))
       then LowerChar(s[i]) else UpperChar(s[i]))
  {
    if i > 0 {
      TitleFromAt(s[1..], IsLetter(s[0]), i - 1);
      assert s[1..][i - 1] == s[i];
      assert i - 1 > 0 ==> s[1..][i - 2] == s[i - 1];
    }
  }

  /** The scan carries only one bit across a cut: title-casing `a + b` is
      title-casing `a`, then `b` from whether `a` ended in a cased character. */
  lemma {:induction false} TitleFromAppend(a: string, b: string, previousIsCased: bool)
    ensures TitleFrom(a + b, previousIsCased) ==
      TitleFrom(a, previousIsCased) + TitleFrom(b, if a == [] then previousIsCased else IsLetter(a[|a| - 1]))
  {
    if a == [] {
      assert a + b == b;
    } else {
      assert (a + b)[0] == a[0];
      assert (a + b)[1..] == a[1..] + b;
      TitleFromAppend(a[1..], b, IsLetter(a[0]));
    }
  }

  function Title(s: string): (r: string)
  {
    TitleFrom(s, false)
  }

  /** A section key shown as a field name: `key.replace("_", " ").title()`. */
  function Humanize(key: string): (r: string)
  {
    Title(ReplaceChar(key, '_', ' '))
  }

  /** What a humanized key looks like: as long as the key, no underscore left,
      and each word capitalised with the rest of its letters in lower case. */
  lemma HumanizeAt(key: string, i: nat)
    requires i < |key|
    ensures |Humanize(key)| == |key|
    ensures key[i] == '_' ==> Humanize(key)[i] == ' '
    ensures IsLetter(key[i]) && (i == 0 || !IsLetter(key[i - 1])) ==> Humanize(key)[i] == UpperChar(key[i])
    ensures IsLetter(key[i]) && i > 0 && IsLetter(key[i - 1]) ==> Humanize(key)[i] == LowerChar(key[i])
    ensures !IsLetter(key[i]) && key[i] != '_' ==> Humanize(key)[i] == key[i]
    ensures Humanize(key)[i] != '_'
  {
    var spaced := ReplaceChar(key, '_', ' ');
    assert spaced[i] == (if key[i] == '_' then ' ' else key[i]);
    assert i > 0 ==> spaced[i - 1] == (if key[i - 1] == '_' then ' ' else key[i - 1]);
    TitleFromAt(spaced, false, i);
  }

  /** Python's `str.isspace()` on ASCII: space, `\t`, `\n`, `\v`, `\f`, `\r`
      and the four separators `\x1c`-`\x1f`. */
  predicate IsSpace(c: char)
  {
    c == ' ' || ('\t' <= c <= '\r') || ('\U{1C}' <= c <= '\U{1F}')
  }

  /** How many whitespace characters `s` starts with. */
  function LeadingSpaces(s: string): (n: nat)
    ensures n <= |s|
    ensures forall k :: 0 <= k < n ==> IsSpace(s[k])
    ensures n < |s| ==> !IsSpace(s[n])
  {
    if s != [] && IsSpace(s[0]) then 1 + LeadingSpaces(s[1..]) else 0
  }

  /** How long `s` is once its trailing whitespace is cut off. */
  function KeptLength(s: string): (n: nat)
    ensures n <= |s|
    ensures forall k :: n <= k < |s| ==> IsSpace(s[k])
    ensures n > 0 ==> !IsSpace(s[n - 1])
  {
    if s != [] && IsSpace(s[|s| - 1]) then KeptLength(s[..|s| - 1]) else |s|
  }

  /** Python `s.lstrip()`. */
  function TrimLeft(s: string): string
  {
    s[LeadingSpaces(s)..]
  }

  /** Python `s.rstrip()`. */
  function TrimRight(s: string): string
  {
    s[..KeptLength(s)]
  }

  /** Python `s.strip()`. */
  function Trim(s: string): (r: string)
  {
    TrimRight(TrimLeft(s))
  }

  predicate AllSpace(s: string)
  {
    forall k :: 0 <= k < |s| ==> IsSpace(s[k])
  }

  /** `strip()` cuts whitespace off both ends and nothing else: the result
      is the piece of `s` after its leading whitespace, and everything before
      and after that piece is whitespace. */
  lemma TrimSpec(s: string)
    ensures LeadingSpaces(s) + |Trim(s)| <= |s|
    ensures Trim(s) == s[LeadingSpaces(s)..LeadingSpaces(s) + |Trim(s)|]
    ensures AllSpace(s[..LeadingSpaces(s)])
    ensures AllSpace(s[LeadingSpaces(s) + |Trim(s)|..])
  {
    var i := LeadingSpaces(s);
    var l := s[i..];
    var j := KeptLength(l);
    assert Trim(s) == s[i..i + j];
    assert AllSpace(s[i + j..]) by {
      forall k | i + j <= k < |s| ensures IsSpace(s[k]) {
        assert s[k] == l[k - i];
      }
    }
  }

  /** What `strip()` leaves neither begins nor ends with whitespace. */
  lemma TrimEnds(s: string)
    ensures Trim(s) != [] ==> !IsSpace(Trim(s)[0]) && !IsSpace(Trim(s)[|Trim(s)| - 1])
  {
    var i := LeadingSpaces(s);
    var l := s[i..];
    var j := KeptLength(l);
    if j > 0 {
      assert Trim(s)[0] == l[0];
    }
  }

  /** Stripping twice is stripping once. */
  lemma TrimIdempotent(s: string)
    ensures Trim(Trim(s)) == Trim(s)
  {
    TrimEnds(s);
    TrimStable(Trim(s));
  }

  /** A string with no whitespace at either end is its own `strip()`. */
  lemma TrimStable(s: string)
    requires s != [] ==> !IsSpace(s[0]) && !IsSpace(s[|s| - 1])
    ensures Trim(s) == s
  {
  }

  predicate StartsWith(s: string, prefix: string)
  {
    |prefix| <= |s| && s[..|prefix|] == prefix
  }

  /** Python `sep.join(xs)`. */
  function Join(sep: string, xs: seq<string>): (r: string)
  {
    if xs == [] then ""
    else if |xs| == 1 then xs[0]
    else xs[0] + sep + Join(sep, xs[1..])
  }

  /** Joining is a left fold: one more element adds a separator and the element. */
  lemma {:induction false} JoinSnoc(sep: string, xs: seq<string>, x: string)
    requires xs != []
    ensures Join(sep, xs + [x]) == Join(sep, xs) + sep + x
  {
    if |xs| == 1 {
      assert xs + [x] == [xs[0], x];
    } else {
      assert (xs + [x])[1..] == xs[1..] + [x];
      JoinSnoc(sep, xs[1..], x);
    }
  }

  /** The length of a join: every element plus one separator between each pair. */
  lemma {:induction false} JoinLength(sep: string, xs: seq<string>)
    ensures |Join(sep, xs)| == TotalLength(xs) + (if xs == [] then 0 else |sep| * (|xs| - 1))
  {
    if |xs| > 1 {
      JoinLength(sep, xs[1..]);
    }
  }

  function TotalLength(xs: seq<string>): nat
  {
    if xs == [] then 0 else |xs[0]| + TotalLength(xs[1..])
  }

  /** The strings of `ss` written one after another. */
  function Flatten(ss: seq<string>): string
  {
    if ss == [] then "" else ss[0] + Flatten(ss[1..])
  }

  lemma {:induction false} FlattenAppend(a: seq<string>, b: seq<string>)
    ensures Flatten(a + b) == Flatten(a) + Flatten(b)
  {
    if a == [] {
      assert a + b == b;
    } else {
      assert (a + b)[1..] == a[1..] + b;
      FlattenAppend(a[1..], b);
    }
  }
}
