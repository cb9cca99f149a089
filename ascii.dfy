/**
 * Python's `str.upper`, `str.lower`, `str.title`, `str.join` and `str.split(sep)`,
 * restricted to ASCII: characters outside 'a'..'z' and 'A'..'Z' are never re-cased.
 */
module Ascii {

  predicate IsLowerLetter(c: char) { 'a' <= c <= 'z' }

  predicate IsUpperLetter(c: char) { 'A' <= c <= 'Z' }

  /** A cased character, in Python's sense, restricted to ASCII. */
  predicate IsLetter(c: char) { IsLowerLetter(c) || IsUpperLetter(c) }

  function UpperChar(c: char): char {
    if IsLowerLetter(c) then (c as int - 32) as char else c
  }

  function LowerChar(c: char): char {
    if IsUpperLetter(c) then (c as int + 32) as char else c
  }

  function Upper(s: string): string {
    seq(|s|, i requires 0 <= i < |s| => UpperChar(s[i]))
  }

  function Lower(s: string): string {
    seq(|s|, i requires 0 <= i < |s| => LowerChar(s[i]))
  }

  /** The character `str.title` puts at position i: a letter that starts a word
      (it is first, or follows a non-letter) is uppercased, any other letter is
      lowercased, and a non-letter is kept. */
  function TitleChar(s: string, i: nat): char
    requires i < |s|
  {
    if !IsLetter(s[i]) then s[i]
    else if i == 0 || !IsLetter(s[i - 1]) then UpperChar(s[i])
    else LowerChar(s[i])
  }

  function Title(s: string): string {
    seq(|s|, i requires 0 <= i < |s| => TitleChar(s, i))
  }

  /** No lowercase letter in s. */
  predicate IsUpperCase(s: string) {
    forall i :: 0 <= i < |s| ==> !IsLowerLetter(s[i])
  }

  /** No uppercase letter in s. */
  predicate IsLowerCase(s: string) {
    forall i :: 0 <= i < |s| ==> !IsUpperLetter(s[i])
  }

  /** Two strings that differ at most in the case of their letters. */
  predicate SameUpToCase(a: string, b: string) {
    Upper(a) == Upper(b)
  }

  /** `sep.join(parts)`. */
  function Join(sep: string, parts: seq<string>): string
  {
    if |parts| == 0 then ""
    else if |parts| == 1 then parts[0]
    else parts[0] + sep + Join(sep, parts[1..])
  }

  /** `s.split(sep)` for a one-character separator: never empty, and empty fields are kept. */
  function Split(s: string, sep: char): (r: seq<string>)
    ensures |r| > 0
  {
    if |s| == 0 then [""]
    else
      var rest := Split(s[1..], sep);
      if s[0] == sep then [""] + rest
      else [[s[0]] + rest[0]] + rest[1..]
  }

  // ---------------------------------------------------------------------------
  // Case mapping

  lemma UpperCharIdempotent(c: char)
    ensures UpperChar(UpperChar(c)) == UpperChar(c)
    ensures UpperChar(LowerChar(c)) == UpperChar(c)
    ensures LowerChar(UpperChar(c)) == LowerChar(c)
  {
  }

  /** Re-casing keeps the length and the letters: only their case changes. */
  lemma CaseMapsKeepLetters(s: string)
    ensures |Upper(s)| == |s| && |Lower(s)| == |s| && |Title(s)| == |s|
    ensures SameUpToCase(Upper(s), s) && SameUpToCase(Lower(s), s) && SameUpToCase(Title(s), s)
    ensures IsUpperCase(Upper(s)) && IsLowerCase(Lower(s))
  {
    assert forall i :: 0 <= i < |s| ==> Upper(Upper(s))[i] == Upper(s)[i];
    assert forall i :: 0 <= i < |s| ==> Upper(Lower(s))[i] == Upper(s)[i];
    assert forall i :: 0 <= i < |s| ==> Upper(Title(s))[i] == Upper(s)[i];
  }

  lemma UpperConcat(a: string, b: string)
    ensures Upper(a + b) == Upper(a) + Upper(b)
  {
  }

  lemma LowerConcat(a: string, b: string)
    ensures Lower(a + b) == Lower(a) + Lower(b)
  {
  }

  /** Letters are the same up to case on both sides of `sep.join`: joining parts that
      agree up to case gives strings that agree up to case. */
  lemma {:induction false} JoinSameUpToCase(sep: string, xs: seq<string>, ys: seq<string>)
    requires |xs| == |ys|
    requires forall i :: 0 <= i < |xs| ==> SameUpToCase(xs[i], ys[i])
    ensures SameUpToCase(Join(sep, xs), Join(sep, ys))
  {
    if |xs| >= 2 {
      JoinSameUpToCase(sep, xs[1..], ys[1..]);
      UpperConcat(xs[0] + sep, Join(sep, xs[1..]));
      UpperConcat(ys[0] + sep, Join(sep, ys[1..]));
      UpperConcat(xs[0], sep);
      UpperConcat(ys[0], sep);
    }
  }

  /** `sep.join` of lowercased parts is the lowercased `sep.join`, for a separator without letters. */
  lemma {:induction false} LowerJoin(sep: string, xs: seq<string>)
    requires Lower(sep) == sep
    ensures Lower(Join(sep, xs)) == Join(sep, seq(|xs|, i requires 0 <= i < |xs| => Lower(xs[i])))
  {
    var lowered := seq(|xs|, i requires 0 <= i < |xs| => Lower(xs[i]));
    if |xs| >= 2 {
      LowerJoin(sep, xs[1..]);
      assert seq(|xs[1..]|, i requires 0 <= i < |xs[1..]| => Lower(xs[1..][i])) == lowered[1..];
      LowerConcat(xs[0] + sep, Join(sep, xs[1..]));
      LowerConcat(xs[0], sep);
    }
  }

  /** Concatenation of a first part with the join of the rest, for the empty separator. */
  lemma ConcatCons(parts: seq<string>)
    requires |parts| > 0
    ensures Join("", parts) == parts[0] + Join("", parts[1..])
  {
  }

  // ---------------------------------------------------------------------------
  // Split and join

  /** No field of `s.split(sep)` contains the separator. */
  lemma {:induction false} SplitFieldsHaveNoSeparator(s: string, sep: char)
    ensures forall k :: 0 <= k < |Split(s, sep)| ==> sep !in Split(s, sep)[k]
  {
    if |s| > 0 {
      SplitFieldsHaveNoSeparator(s[1..], sep);
    }
  }

  /** `sep.join(s.split(sep)) == s`. */
  lemma {:induction false} JoinSplit(s: string, sep: char)
    ensures Join([sep], Split(s, sep)) == s
  {
    if |s| > 0 {
      JoinSplit(s[1..], sep);
      var rest := Split(s[1..], sep);
      if s[0] == sep {
        assert Split(s, sep) == [""] + rest;
        assert ([""] + rest)[1..] == rest;
      } else {
        var r := Split(s, sep);
        assert r == [[s[0]] + rest[0]] + rest[1..];
        if |rest| == 1 {
          assert Join([sep], rest) == rest[0];
        } else {
          assert r[1..] == rest[1..];
          assert Join([sep], rest) == rest[0] + [sep] + Join([sep], rest[1..]);
        }
      }
    }
  }

  /** A string without the separator splits into itself. */
  lemma {:induction false} SplitNoSeparator(s: string, sep: char)
    requires sep !in s
    ensures Split(s, sep) == [s]
  {
    if |s| > 0 {
      SplitNoSeparator(s[1..], sep);
      assert [s[0]] + s[1..] == s;
    }
  }

  /** Splitting at the first separator: the field before it, then the split of the rest. */
  lemma {:induction false} SplitAround(a: string, b: string, sep: char)
    requires sep !in a
    ensures Split(a + [sep] + b, sep) == [a] + Split(b, sep)
  {
    if |a| == 0 {
      assert a + [sep] + b == [sep] + b;
      assert ([sep] + b)[1..] == b;
    } else {
      SplitAround(a[1..], b, sep);
      var s := a + [sep] + b;
      assert s[0] == a[0] && s[1..] == a[1..] + [sep] + b;
      assert [a[0]] + a[1..] == a;
    }
  }

  /** Splitting a join of separator-free parts recovers the parts. */
  lemma {:induction false} SplitJoin(parts: seq<string>, sep: char)
    requires |parts| > 0
    requires forall k :: 0 <= k < |parts| ==> sep !in parts[k]
    ensures Split(Join([sep], parts), sep) == parts
  {
    if |parts| == 1 {
      SplitNoSeparator(parts[0], sep);
    } else {
      SplitJoin(parts[1..], sep);
      SplitAround(parts[0], Join([sep], parts[1..]), sep);
      assert [parts[0]] + parts[1..] == parts;
    }
  }

  /** The first field of `s.split(sep)` is the longest prefix of s without the separator. */
  lemma {:induction false} SplitFirstField(s: string, sep: char)
    ensures var f := Split(s, sep)[0];
      |f| <= |s| && s[..|f|] == f && sep !in f && (|f| < |s| ==> s[|f|] == sep)
  {
    if |s| > 0 {
      SplitFirstField(s[1..], sep);
      SplitFieldsHaveNoSeparator(s, sep);
    }
  }

  /** `sep.join(parts)` is the first part followed by every later part with the
      separator in front of it. */
  lemma {:induction false} JoinAsPrefixed(sep: string, parts: seq<string>)
    requires |parts| > 0
    ensures Join(sep, parts) == parts[0] + Join("", seq(|parts| - 1, i requires 0 <= i < |parts| - 1 => sep + parts[i + 1]))
  {
    var tail := seq(|parts| - 1, i requires 0 <= i < |parts| - 1 => sep + parts[i + 1]);
    if |parts| >= 2 {
      JoinAsPrefixed(sep, parts[1..]);
      var rest := parts[1..];
      var tail2 := seq(|rest| - 1, i requires 0 <= i < |rest| - 1 => sep + rest[i + 1]);
      assert tail[0] == sep + parts[1];
      if |parts| > 2 {
        assert tail[1..] == tail2;
        assert Join("", tail) == tail[0] + "" + Join("", tail[1..]);
      } else {
        assert tail2 == [];
      }
    }
  }

  /** A string of two separator-free fields splits into them. */
  lemma SplitTwo(x: string, y: string, sep: char)
    requires sep !in x && sep !in y
    ensures Split(x + [sep] + y, sep) == [x, y]
  {
    SplitNoSeparator(y, sep);
    SplitAround(x, y, sep);
  }

  /** A string of three separator-free fields splits into them. */
  lemma SplitThree(x: string, y: string, z: string, sep: char)
    requires sep !in x && sep !in y && sep !in z
    ensures Split(x + [sep] + y + [sep] + z, sep) == [x, y, z]
  {
    var tail := y + [sep] + z;
    SplitTwo(y, z, sep);
    SplitAround(x, tail, sep);
    assert x + [sep] + y + [sep] + z == x + [sep] + tail;
  }
}
