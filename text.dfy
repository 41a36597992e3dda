/** The string operations the storefront calls: case folding, `includes`, `trim`,
    `split(' ')`/`join(' ')`, number-to-text and the non-digit filter `replace(/\D/g, '')`. */
module Text {

  import Seqs

  /** Case folding is modelled on the ASCII letters only; every other character is its own fold. */
  function LowerChar(c: char): char
  {
    if 'A' <= c <= 'Z' then (c as int + 32) as char else c
  }

  function UpperChar(c: char): char
  {
    if 'a' <= c <= 'z' then (c as int - 32) as char else c
  }

  /** `toLowerCase`. */
  function Lower(s: string): (r: string)
    ensures |r| == |s|
  {
    seq(|s|, i requires 0 <= i < |s| => LowerChar(s[i]))
  }

  /** `toUpperCase`. */
  function Upper(s: string): (r: string)
    ensures |r| == |s|
  {
    seq(|s|, i requires 0 <= i < |s| => UpperChar(s[i]))
  }

  /** Upper-casing an upper-cased text changes nothing more. */
  lemma UpperIdempotent(s: string)
    ensures Upper(Upper(s)) == Upper(s)
  {
    forall i | 0 <= i < |s|
      ensures Upper(Upper(s))[i] == Upper(s)[i]
    {
      var c := s[i];
      assert Upper(s)[i] == UpperChar(c);
    }
  }

  /** `s.includes(q)`: `q` occurs in `s` as a contiguous piece (the empty text occurs everywhere). */
  predicate Contains(s: string, q: string)
  {
    exists i :: 0 <= i <= |s| - |q| && OccursAt(s, q, i)
  }

  predicate OccursAt(s: string, q: string, i: int)
    requires 0 <= i <= |s| - |q|
  {
    s[i..i + |q|] == q
  }

  /** The characters `trim` removes: the white space of section 12.2 of ECMA-262 (tab, vertical
      tab, form feed, the byte-order mark and every space separator of category Zs) and the line
      terminators of section 12.3 (line feed, carriage return, line and paragraph separator). */
  predicate IsSpace(c: char)
  {
    || c == '\t' || c == '\U{000B}' || c == '\U{000C}' || c == '\U{FEFF}'
    || c == '\n' || c == '\r' || c == '\U{2028}' || c == '\U{2029}'
    || c == ' ' || c == '\U{00A0}' || c == '\U{1680}' || ('\U{2000}' <= c <= '\U{200A}')
    || c == '\U{202F}' || c == '\U{205F}' || c == '\U{3000}'
  }

  function TrimStart(s: string): (r: string)
    ensures r == [] || !IsSpace(r[0])
    ensures exists k :: 0 <= k <= |s| && r == s[k..] && forall j :: 0 <= j < k ==> IsSpace(s[j])
  {
    if s != [] && IsSpace(s[0]) then
      var r := TrimStart(s[1..]);
      var k :| 0 <= k <= |s[1..]| && r == s[1..][k..] && forall j :: 0 <= j < k ==> IsSpace(s[1..][j]);
      assert r == s[k + 1..];
      r
    else
      assert s == s[0..];
      s
  }

  function TrimEnd(s: string): (r: string)
    ensures r == [] || !IsSpace(r[|r| - 1])
    ensures exists k :: 0 <= k <= |s| && r == s[..k] && forall j :: k <= j < |s| ==> IsSpace(s[j])
  {
    if s != [] && IsSpace(s[|s| - 1]) then
      var r := TrimEnd(s[..|s| - 1]);
      var k :| 0 <= k <= |s| - 1 && r == s[..|s| - 1][..k] && forall j :: k <= j < |s| - 1 ==> IsSpace(s[j]);
      assert r == s[..k];
      r
    else
      assert s == s[..|s|];
      s
  }

  /** `trim`. */
  function Trim(s: string): string
  {
    TrimEnd(TrimStart(s))
  }

  lemma {:induction false} TrimStartEmptyIffBlank(s: string)
    ensures TrimStart(s) == [] <==> forall i :: 0 <= i < |s| ==> IsSpace(s[i])
  {
    if s != [] && IsSpace(s[0]) {
      TrimStartEmptyIffBlank(s[1..]);
      assert forall i :: 0 < i < |s| ==> s[i] == s[1..][i - 1];
    }
  }

  lemma {:induction false} TrimEndEmptyIffBlank(s: string)
    ensures TrimEnd(s) == [] <==> forall i :: 0 <= i < |s| ==> IsSpace(s[i])
  {
    if s != [] && IsSpace(s[|s| - 1]) {
      TrimEndEmptyIffBlank(s[..|s| - 1]);
      assert forall i :: 0 <= i < |s| - 1 ==> s[i] == s[..|s| - 1][i];
    }
  }

  /** A text trims to nothing exactly when every character of it is white space. */
  lemma TrimEmptyIffBlank(s: string)
    ensures Trim(s) == [] <==> forall i :: 0 <= i < |s| ==> IsSpace(s[i])
  {
    var t := TrimStart(s);
    TrimStartEmptyIffBlank(s);
    TrimEndEmptyIffBlank(t);
  }

  /** An ideographic space before a code is trimmed away, and one alone trims to nothing. */
  lemma TrimIdeographicSpace()
    ensures Trim("\U{3000}ESEN10") == "ESEN10"
    ensures Trim("\U{3000}") == ""
  {
    TrimLeadingSpace("\U{3000}ESEN10");
    TrimPlainCode();
    TrimLeadingSpace("\U{3000}");
  }

  lemma TrimLeadingSpace(s: string)
    requires s != [] && IsSpace(s[0])
    ensures Trim(s) == Trim(s[1..])
  {
  }

  lemma TrimPlainCode()
    ensures Trim("ESEN10") == "ESEN10"
  {
    assert !IsSpace("ESEN10"[0]) && !IsSpace("ESEN10"[5]);
  }

  /** The position of the first `sep` in `s`, if any. */
  function IndexOf(s: string, sep: char): (r: Seqs.Option<nat>)
    ensures r.Some? ==> r.value < |s| && s[r.value] == sep && sep !in s[..r.value]
    ensures r.None? <==> sep !in s
  {
    Seqs.FindIndex(c => c == sep, s)
  }

  /** `s.split(' ')`: the pieces between the spaces, empty pieces included. */
  function Split(s: string): (r: seq<string>)
    ensures |r| >= 1
    decreases |s|
  {
    match IndexOf(s, ' ')
    case None => [s]
    case Some(i) => [s[..i]] + Split(s[i + 1..])
  }

  /** `parts.join(' ')`. */
  function Join(parts: seq<string>): string
  {
    if parts == [] then ""
    else if |parts| == 1 then parts[0]
    else parts[0] + " " + Join(parts[1..])
  }

  lemma SplitAt(s: string, i: nat)
    requires IndexOf(s, ' ') == Seqs.Some(i)
    ensures Split(s) == [s[..i]] + Split(s[i + 1..])
  {
  }

  lemma JoinCons(head: string, rest: seq<string>)
    requires |rest| >= 1
    ensures Join([head] + rest) == head + " " + Join(rest)
  {
    assert ([head] + rest)[1..] == rest;
  }

  /** Splitting on spaces and joining with spaces gives back the text. */
  lemma {:induction false} JoinSplit(s: string)
    ensures Join(Split(s)) == s
    decreases |s|
  {
    match IndexOf(s, ' ')
    case None =>
    case Some(i) =>
      var head, rest := s[..i], s[i + 1..];
      JoinSplit(rest);
      SplitAt(s, i);
      JoinCons(head, Split(rest));
      assert s == head + " " + rest;
  }

  predicate IsDigit(c: char)
  {
    '0' <= c <= '9'
  }

  /** `replace(/\D/g, '')`: the digits of `s`, in order. */
  function DigitsOnly(s: string): (r: string)
    ensures |r| <= |s|
    ensures forall i :: 0 <= i < |r| ==> IsDigit(r[i])
    ensures forall i :: 0 <= i < |s| && IsDigit(s[i]) ==> s[i] in r
  {
    Seqs.Filter(IsDigit, s)
  }

  /** A text of digits only is its own digit filter. */
  lemma DigitsOnlyKeepsDigits(s: string)
    requires forall i :: 0 <= i < |s| ==> IsDigit(s[i])
    ensures DigitsOnly(s) == s
  {
    Seqs.FilterKeepsAll(IsDigit, s);
  }

  function DigitChar(d: nat): char
    requires d < 10
  {
    ('0' as int + d) as char
  }

  /** The decimal text of a natural number, as template literals print it. */
  function NatToString(n: nat): (r: string)
    ensures |r| >= 1
    ensures forall i :: 0 <= i < |r| ==> IsDigit(r[i])
  {
    if n < 10 then [DigitChar(n)] else NatToString(n / 10) + [DigitChar(n % 10)]
  }

  function IntToString(n: int): (r: string)
  {
    if n < 0 then "-" + NatToString(-n) else NatToString(n)
  }
}
