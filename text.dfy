/** String helpers shared by every build script: Python's `startswith`,
    `endswith`, `in`, `str.replace`, `str.split`, `str.join` and `lower()`,
    stated on `seq<char>`. */
module Text {

  datatype Option<+T> = None | Some(value: T)

  /** Python's `s.startswith(p)`. */
  predicate StartsWith(s: string, p: string) {
    |p| <= |s| && s[..|p|] == p
  }

  /** Python's `s.endswith(p)`. */
  predicate EndsWith(s: string, p: string) {
    |p| <= |s| && s[|s| - |p|..] == p
  }

  /** Python's `p in s` for strings: `p` occurs somewhere in `s`. */
  predicate Contains(s: string, p: string)
    decreases |s|
  {
    StartsWith(s, p) || (s != [] && Contains(s[1..], p))
  }

  /** `pre` is a prefix of `s`, compared one character at a time. */
  predicate IsPrefix(pre: string, s: string)
    decreases |pre|
  {
    pre == [] || (s != [] && pre[0] == s[0] && IsPrefix(pre[1..], s[1..]))
  }

  /** The character-wise prefix test is `startswith`. */
  lemma {:induction false} IsPrefixStartsWith(pre: string, s: string)
    ensures IsPrefix(pre, s) <==> StartsWith(s, pre)
    decreases |pre|
  {
    if pre != [] && s != [] {
      IsPrefixStartsWith(pre[1..], s[1..]);
      if StartsWith(s, pre) {
        assert s[1..][..|pre| - 1] == s[..|pre|][1..];
      }
      if StartsWith(s[1..], pre[1..]) && pre[0] == s[0] {
        assert s[..|pre|] == [s[0]] + s[1..][..|pre| - 1];
      }
    }
  }

  lemma StartsWithConcat(a: string, b: string, p: string)
    requires StartsWith(a, p)
    ensures StartsWith(a + b, p)
  {
    assert (a + b)[..|p|] == a[..|p|];
  }

  lemma EndsWithConcat(a: string, p: string)
    ensures EndsWith(a + p, p)
  {
    assert (a + p)[|a + p| - |p|..] == p;
  }

  /** Two suffixes that differ in their `k`-th character from the end cannot
      both end a string. */
  lemma EndsWithDiffer(s: string, p: string, q: string, k: nat)
    requires k < |p| && k < |q| && p[|p| - 1 - k] != q[|q| - 1 - k]
    ensures !(EndsWith(s, p) && EndsWith(s, q))
  {
    assert EndsWith(s, p) ==> s[|s| - 1 - k] == p[|p| - 1 - k];
    assert EndsWith(s, q) ==> s[|s| - 1 - k] == q[|q| - 1 - k];
  }

  /** Python's `s.replace(pat, rep)` for a non-empty pattern: occurrences are
      found left to right and never overlap. */
  function Replace(s: string, pat: string, rep: string): string
    requires pat != []
    decreases |s|
  {
    if StartsWith(s, pat) then rep + Replace(s[|pat|..], pat, rep)
    else if s == [] then []
    else [s[0]] + Replace(s[1..], pat, rep)
  }

  /** Python's `s.split(sep)` for a non-empty separator. */
  function Split(s: string, sep: string): (parts: seq<string>)
    requires sep != []
    ensures |parts| >= 1
    decreases |s|
  {
    if StartsWith(s, sep) then [""] + Split(s[|sep|..], sep)
    else if s == [] then [""]
    else
      var rest := Split(s[1..], sep);
      [[s[0]] + rest[0]] + rest[1..]
  }

  /** Python's `sep.join(parts)`. */
  function Join(parts: seq<string>, sep: string): string
    decreases |parts|
  {
    if |parts| == 0 then ""
    else if |parts| == 1 then parts[0]
    else parts[0] + sep + Join(parts[1..], sep)
  }

  lemma JoinHead(c: char, parts: seq<string>, sep: string)
    requires |parts| >= 1
    ensures Join([[c] + parts[0]] + parts[1..], sep) == [c] + Join(parts, sep)
  {
    var ps := [[c] + parts[0]] + parts[1..];
    assert ps[1..] == parts[1..];
  }

  /** Joining the pieces of a split with the same separator gives the
      string back. */
  lemma {:induction false} JoinSplit(s: string, sep: string)
    requires sep != []
    ensures Join(Split(s, sep), sep) == s
    decreases |s|
  {
    if StartsWith(s, sep) {
      var tail := s[|sep|..];
      JoinSplit(tail, sep);
      var ps := [""] + Split(tail, sep);
      assert ps[1..] == Split(tail, sep);
      assert s == sep + tail;
    } else if s == [] {
    } else {
      JoinSplit(s[1..], sep);
      JoinHead(s[0], Split(s[1..], sep), sep);
      assert s == [s[0]] + s[1..];
    }
  }

  /** The first piece of a split is a prefix of the split string. */
  lemma FirstPieceIsPrefix(s: string, sep: string)
    requires sep != []
    ensures StartsWith(s, Split(s, sep)[0])
  {
    var parts := Split(s, sep);
    JoinSplit(s, sep);
    if |parts| > 1 {
      assert s == parts[0] + (sep + Join(parts[1..], sep));
    }
  }

  /** No piece of a split contains the separator: every occurrence of the
      separator has been consumed as a boundary. */
  lemma {:induction false} SplitPiecesFree(s: string, sep: string)
    requires sep != []
    ensures forall i :: 0 <= i < |Split(s, sep)| ==> !Contains(Split(s, sep)[i], sep)
    decreases |s|
  {
    var parts := Split(s, sep);
    if StartsWith(s, sep) {
      SplitPiecesFree(s[|sep|..], sep);
      assert !StartsWith("", sep);
      forall i | 0 <= i < |parts| ensures !Contains(parts[i], sep) {
        if i > 0 { assert parts[i] == Split(s[|sep|..], sep)[i - 1]; }
      }
    } else if s == [] {
      assert !StartsWith("", sep);
    } else {
      var rest := Split(s[1..], sep);
      SplitPiecesFree(s[1..], sep);
      FirstPieceIsPrefix(s[1..], sep);
      var head := [s[0]] + rest[0];
      assert !StartsWith(head, sep);
      assert head[1..] == rest[0];
      forall i | 0 <= i < |parts| ensures !Contains(parts[i], sep) {
        if i > 0 { assert parts[i] == rest[i]; }
      }
    }
  }

  /** Python's replace is split-then-join: the pieces between occurrences of
      the pattern are kept and every occurrence becomes the replacement. */
  lemma {:induction false} ReplaceIsSplitJoin(s: string, pat: string, rep: string)
    requires pat != []
    ensures Replace(s, pat, rep) == Join(Split(s, pat), rep)
    decreases |s|
  {
    if StartsWith(s, pat) {
      var tail := s[|pat|..];
      ReplaceIsSplitJoin(tail, pat, rep);
      var ps := [""] + Split(tail, pat);
      assert ps[1..] == Split(tail, pat);
    } else if s == [] {
    } else {
      ReplaceIsSplitJoin(s[1..], pat, rep);
      JoinHead(s[0], Split(s[1..], pat), rep);
    }
  }

  /** Replacing a pattern by itself changes nothing. */
  lemma ReplaceBySelf(s: string, pat: string)
    requires pat != []
    ensures Replace(s, pat, pat) == s
  {
    ReplaceIsSplitJoin(s, pat, pat);
    JoinSplit(s, pat);
  }

  /** A string that does not contain the pattern is left as it is. */
  lemma {:induction false} ReplaceAbsent(s: string, pat: string, rep: string)
    requires pat != [] && !Contains(s, pat)
    ensures Replace(s, pat, rep) == s
    decreases |s|
  {
    if s != [] {
      ReplaceAbsent(s[1..], pat, rep);
    }
  }

  /** Replacing one character by a text that lacks it removes every
      occurrence of that character. */
  lemma {:induction false} ReplaceCharRemoves(s: string, c: char, rep: string)
    requires c !in rep
    ensures c !in Replace(s, [c], rep)
    decreases |s|
  {
    if StartsWith(s, [c]) {
      ReplaceCharRemoves(s[1..], c, rep);
    } else if s != [] {
      ReplaceCharRemoves(s[1..], c, rep);
      assert s[0] != c;
    }
  }

  /** ASCII lower-casing, the part of Python's `str.lower()` that host
      names use. */
  function LowerChar(c: char): char {
    if 'A' <= c <= 'Z' then (c as int + 32) as char else c
  }

  function Lower(s: string): (r: string)
    ensures |r| == |s|
    ensures forall i :: 0 <= i < |s| ==> r[i] == LowerChar(s[i])
  {
    if s == [] then [] else [LowerChar(s[0])] + Lower(s[1..])
  }

  /** Lower-casing twice is lower-casing once. */
  lemma LowerIdempotent(s: string)
    ensures Lower(Lower(s)) == Lower(s)
  {
  }

  /** Python's `str(n)` for a natural number: decimal digits, with no
      leading zero except in "0" itself. */
  function NatToString(n: nat): (r: string)
    ensures r != []
    ensures forall i :: 0 <= i < |r| ==> '0' <= r[i] <= '9'
    ensures |r| > 1 ==> r[0] != '0'
    decreases n
  {
    if n < 10 then [(48 + n) as char]
    else NatToString(n / 10) + [(48 + n % 10) as char]
  }

  /** The number a string of decimal digits denotes, as `int(s)` reads it. */
  function DecimalValue(s: string): nat
    requires forall i :: 0 <= i < |s| ==> '0' <= s[i] <= '9'
    decreases |s|
  {
    if s == [] then 0
    else 10 * DecimalValue(s[..|s| - 1]) + (s[|s| - 1] as int - 48)
  }

  /** `int(str(n)) == n`: the digits written are those of the count. */
  lemma {:induction false} NatToStringValue(n: nat)
    ensures DecimalValue(NatToString(n)) == n
    decreases n
  {
    var r := NatToString(n);
    if n >= 10 {
      NatToStringValue(n / 10);
      assert r[..|r| - 1] == NatToString(n / 10);
    }
  }
}
