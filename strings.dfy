/** String operations of the JavaScript runtime that the core relies on:
    `String.prototype.trim`, the default string order of `Array.prototype.sort`,
    and the "array index" keys that `Object.entries` lists first. */
module Strings {
  import opened Seqs

  /** ECMAScript WhiteSpace and LineTerminator code points (what `trim` removes). */
  predicate IsWhitespace(c: char)
  {
    c == '\t' || c == '\n' || c == '\U{000B}' || c == '\U{000C}' || c == '\r' || c == ' '
    || c == '\U{00A0}' || c == '\U{1680}' || ('\U{2000}' <= c <= '\U{200A}')
    || c == '\U{2028}' || c == '\U{2029}' || c == '\U{202F}' || c == '\U{205F}'
    || c == '\U{3000}' || c == '\U{FEFF}'
  }

  /** Drops the leading whitespace. */
  function TrimStart(s: string): (r: string)
    ensures |r| <= |s| && r == s[|s| - |r|..]
    ensures r == [] || !IsWhitespace(r[0])
    ensures forall i :: 0 <= i < |s| - |r| ==> IsWhitespace(s[i])
    decreases |s|
  {
    if s != [] && IsWhitespace(s[0]) then TrimStart(s[1..]) else s
  }

  /** Drops the trailing whitespace. */
  function TrimEnd(s: string): (r: string)
    ensures |r| <= |s| && r == s[..|r|]
    ensures r == [] || !IsWhitespace(r[|r| - 1])
    ensures forall i :: |r| <= i < |s| ==> IsWhitespace(s[i])
    decreases |s|
  {
    if s != [] && IsWhitespace(s[|s| - 1]) then TrimEnd(s[..|s| - 1]) else s
  }

  /** `s.trim()`: the slice of `s` left after removing whitespace at both ends. */
  function Trim(s: string): (r: string)
    ensures exists i, j :: 0 <= i <= j <= |s| && r == s[i..j]
              && (forall k :: 0 <= k < i ==> IsWhitespace(s[k]))
              && (forall k :: j <= k < |s| ==> IsWhitespace(s[k]))
    ensures r == [] || (!IsWhitespace(r[0]) && !IsWhitespace(r[|r| - 1]))
  {
    var a := TrimStart(s);
    var r := TrimEnd(a);
    var i := |s| - |a|;
    assert r == s[i..i + |r|];
    r
  }

  /** The trimmed string is empty exactly when the string is all whitespace. */
  lemma TrimEmpty(s: string)
    ensures Trim(s) == [] <==> forall k :: 0 <= k < |s| ==> IsWhitespace(s[k])
  {
  }

  /** Trimming twice is trimming once. */
  lemma TrimIdempotent(s: string)
    ensures Trim(Trim(s)) == Trim(s)
  {
    var r := Trim(s);
    if r != [] {
      assert TrimStart(r) == r;
      assert TrimEnd(r) == r;
    }
  }

  /** Code-point lexicographic order: the order of `Array.prototype.sort`
      without a comparator on strings. */
  predicate Less(a: string, b: string)
    decreases |a|
  {
    if a == [] then b != []
    else if b == [] then false
    else if a[0] != b[0] then a[0] < b[0]
    else Less(a[1..], b[1..])
  }

  lemma {:induction false} LessIrreflexive(a: string)
    ensures !Less(a, a)
    decreases |a|
  {
    if a != [] {
      LessIrreflexive(a[1..]);
    }
  }

  lemma {:induction false} LessTransitive(a: string, b: string, c: string)
    requires Less(a, b) && Less(b, c)
    ensures Less(a, c)
    decreases |a|
  {
    if a != [] && b != [] && c != [] && a[0] == b[0] && b[0] == c[0] {
      LessTransitive(a[1..], b[1..], c[1..]);
    }
  }

  lemma {:induction false} LessTotal(a: string, b: string)
    requires a != b
    ensures Less(a, b) || Less(b, a)
    decreases |a|
  {
    if a != [] && b != [] && a[0] == b[0] {
      assert a == [a[0]] + a[1..] && b == [b[0]] + b[1..];
      LessTotal(a[1..], b[1..]);
    }
  }

  /** Less is a strict order, so no two strings precede each other. */
  lemma LessAsymmetric(a: string, b: string)
    requires Less(a, b)
    ensures !Less(b, a)
  {
    if Less(b, a) {
      LessTransitive(a, b, a);
      LessIrreflexive(a);
    }
  }

  predicate IsDigit(c: char)
  {
    '0' <= c <= '9'
  }

  /** The value of a string of decimal digits. */
  function DigitsValue(s: string): (n: nat)
    requires forall i :: 0 <= i < |s| ==> IsDigit(s[i])
    decreases |s|
  {
    if s == [] then 0
    else
      assert IsDigit(s[|s| - 1]);
      DigitsValue(s[..|s| - 1]) * 10 + (s[|s| - 1] as int - '0' as int)
  }

  /** A canonical numeric string below 2^32 - 1: the keys that an object
      enumerates first, in ascending numeric order. */
  predicate IsArrayIndex(s: string)
  {
    && |s| > 0
    && (forall i :: 0 <= i < |s| ==> IsDigit(s[i]))
    && (|s| == 1 || s[0] != '0')
    && DigitsValue(s) < 0xFFFF_FFFF
  }

  predicate IsNotArrayIndex(s: string)
  {
    !IsArrayIndex(s)
  }

  /** A key's place in `Object.entries` order: an array index ranks by its
      value, and every other key ranks after all of them. */
  function EntryRank(s: string): (r: real)
    ensures IsArrayIndex(s) ==> r < 4294967295.0
    ensures !IsArrayIndex(s) ==> r == 4294967295.0
  {
    if IsArrayIndex(s) then DigitsValue(s) as real else 4294967295.0
  }

  /** Strictly increasing in code-point order, hence without repeats. */
  ghost predicate Ascending(s: seq<string>)
  {
    forall i, j :: 0 <= i < j < |s| ==> Less(s[i], s[j])
  }

  /** Places `x` before the first element that it precedes. */
  function InsertString(x: string, s: seq<string>): (r: seq<string>)
    ensures multiset(r) == multiset(s) + multiset{x}
    decreases |s|
  {
    if s == [] || Less(x, s[0]) then [x] + s
    else
      assert s == [s[0]] + s[1..];
      [s[0]] + InsertString(x, s[1..])
  }

  /** `Array.prototype.sort()` without a comparator, on strings. */
  function SortStrings(s: seq<string>): (r: seq<string>)
    ensures multiset(r) == multiset(s)
    decreases |s|
  {
    if s == [] then []
    else
      assert s == [s[0]] + s[1..];
      InsertString(s[0], SortStrings(s[1..]))
  }

  /** Sorting keeps exactly the strings it was given. */
  lemma SortStringsMembers(s: seq<string>, x: string)
    ensures x in SortStrings(s) <==> x in s
  {
    assert x in SortStrings(s) <==> x in multiset(SortStrings(s));
    assert x in s <==> x in multiset(s);
  }

  lemma {:induction false} InsertStringAscending(x: string, s: seq<string>)
    requires Ascending(s) && x !in s
    ensures Ascending(InsertString(x, s))
    decreases |s|
  {
    if s != [] {
      if Less(x, s[0]) {
        forall j | 0 < j < |s| ensures Less(x, s[j]) {
          LessTransitive(x, s[0], s[j]);
        }
      } else {
        var tail := s[1..];
        assert forall i, j :: 0 <= i < j < |tail| ==> tail[i] == s[i + 1] && tail[j] == s[j + 1];
        InsertStringAscending(x, tail);
        LessTotal(x, s[0]);
        var r := InsertString(x, tail);
        forall k | 0 <= k < |r| ensures Less(s[0], r[k]) {
          assert r[k] in multiset(r);
          if r[k] != x {
            assert r[k] in multiset(tail);
            var j :| 0 <= j < |tail| && tail[j] == r[k];
            assert s[j + 1] == r[k];
          }
        }
        assert InsertString(x, s) == [s[0]] + r;
      }
    }
  }

  /** Sorting distinct strings gives them in strictly increasing order. */
  lemma {:induction false} SortStringsAscending(s: seq<string>)
    requires NoDup(s)
    ensures Ascending(SortStrings(s))
    decreases |s|
  {
    if s != [] {
      var tail := s[1..];
      assert forall i, j :: 0 <= i < j < |tail| ==> tail[i] == s[i + 1] && tail[j] == s[j + 1];
      SortStringsAscending(tail);
      assert s[0] !in tail by {
        forall j | 0 <= j < |tail| ensures tail[j] != s[0] {
          assert tail[j] == s[j + 1];
        }
      }
      assert s[0] !in multiset(SortStrings(tail));
      InsertStringAscending(s[0], SortStrings(tail));
    }
  }

  /** Strictly increasing sequences repeat nothing. */
  lemma AscendingNoDup(s: seq<string>)
    requires Ascending(s)
    ensures NoDup(s)
  {
    forall i, j | 0 <= i < j < |s| ensures s[i] != s[j] {
      LessIrreflexive(s[i]);
    }
  }
}
