/**
 * The POSIX path and string helpers the build script calls: os.path.join with
 * two components, os.path.dirname, os.path.splitext (its extension half) and
 * str.split with an explicit separator. Strings are sequences of characters.
 */
module Paths {

  /** The directory separator, os.sep. */
  const Sep: char := '/'
  /** The separator between entries of the executable search path, os.pathsep. */
  const PathSep: char := ':'
  /** The extension separator, os.extsep. */
  const ExtSep: char := '.'

  predicate AllChar(s: string, c: char)
  {
    forall k :: 0 <= k < |s| ==> s[k] == c
  }

  /** str.rfind for one character: the last index of c in s, or -1. */
  function LastIndexOf(s: string, c: char): (r: int)
    ensures -1 <= r < |s|
    ensures 0 <= r ==> s[r] == c
    ensures forall k :: r < k < |s| ==> s[k] != c
  {
    if |s| == 0 then -1
    else if s[|s| - 1] == c then |s| - 1
    else LastIndexOf(s[..|s| - 1], c)
  }

  /** The three postconditions of LastIndexOf single out its result. */
  lemma LastIndexOfUnique(s: string, c: char, r: int)
    requires -1 <= r < |s|
    requires 0 <= r ==> s[r] == c
    requires forall k :: r < k < |s| ==> s[k] != c
    ensures LastIndexOf(s, c) == r
  {
  }

  /** str.rstrip for one character: s without its trailing run of c. */
  function RStrip(s: string, c: char): (r: string)
    ensures |r| <= |s| && r == s[..|r|]
    ensures r == [] || r[|r| - 1] != c
    ensures AllChar(s[|r|..], c)
  {
    if |s| > 0 && s[|s| - 1] == c then
      var r := RStrip(s[..|s| - 1], c);
      assert s[|r|..] == s[..|s| - 1][|r|..] + [c];
      r
    else s
  }

  /** posixpath.join(a, b): an absolute b replaces a; no separator is doubled. */
  function Join(a: string, b: string): string
  {
    if |b| > 0 && b[0] == Sep then b
    else if a == [] || a[|a| - 1] == Sep then a + b
    else a + [Sep] + b
  }

  /**
   * An absolute b is the whole result; otherwise the result is a, then at most one
   * separator, then b, and the separator is inserted only when a lacks a trailing one.
   */
  lemma JoinShape(a: string, b: string)
    ensures |b| > 0 && b[0] == Sep ==> Join(a, b) == b
    ensures var r := Join(a, b);
      (b == [] || b[0] != Sep) ==>
        |a| + |b| <= |r| <= |a| + |b| + 1 && r[..|a|] == a && r[|r| - |b|..] == b
    ensures var r := Join(a, b);
      |r| == |a| + |b| + 1 ==> a != [] && a[|a| - 1] != Sep && r[|a|] == Sep
    ensures (b == [] || b[0] != Sep) && a != [] && a[|a| - 1] != Sep ==> |Join(a, b)| == |a| + |b| + 1
  {
  }

  /** posixpath.dirname: everything before the last separator, trailing separators removed unless the head is only separators. */
  function Dirname(p: string): string
  {
    var head := p[..LastIndexOf(p, Sep) + 1];
    if head != [] && !AllChar(head, Sep) then RStrip(head, Sep) else head
  }

  /**
   * The directory part is a prefix of the path, is empty for a path without a separator,
   * and ends in a separator only when it consists of separators alone.
   */
  lemma DirnameShape(p: string)
    ensures var r := Dirname(p); |r| <= |p| && r == p[..|r|]
    ensures Sep !in p ==> Dirname(p) == []
    ensures var r := Dirname(p); r == [] || AllChar(r, Sep) || r[|r| - 1] != Sep
  {
  }

  /**
   * For a path with a separator, the directory part is the text up to its last separator,
   * less only the separators that end that text; a text of separators alone is kept whole.
   */
  lemma DirnameIsHead(p: string)
    requires Sep in p
    ensures var i := LastIndexOf(p, Sep); var r := Dirname(p);
      r != [] && |r| <= i + 1 && r == p[..|r|] && AllChar(p[|r|..i + 1], Sep)
      && (AllChar(p[..i + 1], Sep) ==> r == p[..i + 1])
  {
    var i := LastIndexOf(p, Sep);
    var head := p[..i + 1];
    var r := Dirname(p);
    assert head[i] == Sep;
    if !AllChar(head, Sep) {
      assert r == RStrip(head, Sep);
      assert p[|r|..i + 1] == head[|r|..];
    }
  }

  /** True when the path is empty or its last character is not a separator. */
  predicate NoTrailingSep(d: string)
  {
    d == [] || d[|d| - 1] != Sep
  }

  /** The directory part of dir/name is dir again, for a plain file name. */
  lemma DirnameOfJoin(d: string, n: string)
    requires n != [] && Sep !in n
    requires NoTrailingSep(d)
    ensures Dirname(Join(d, n)) == d
  {
    if d == [] {
      assert Join(d, n) == n;
      LastIndexOfUnique(n, Sep, -1);
    } else {
      var p := d + [Sep] + n;
      assert Join(d, n) == p;
      LastIndexOfUnique(p, Sep, |d|);
      assert p[..|d| + 1] == d + [Sep];
      assert !AllChar(d + [Sep], Sep) by { assert (d + [Sep])[|d| - 1] != Sep; }
      assert (d + [Sep])[..|d|] == d;
    }
  }

  /** The extension of a basename is only nonempty if the basename has a non-dot character before its last dot. */
  predicate HasStem(p: string, sepIndex: int, dotIndex: int)
    requires -1 <= sepIndex < dotIndex <= |p|
  {
    !AllChar(p[sepIndex + 1..dotIndex], ExtSep)
  }

  /** os.path.splitext(p)[1]: from the last dot of the basename, unless the basename is dots up to there. */
  function Ext(p: string): (r: string)
    ensures r == [] || (|r| < |p| && r == p[|p| - |r|..] && r[0] == ExtSep)
    ensures ExtSep !in p ==> r == []
    ensures r != [] ==> exists k :: LastIndexOf(p, Sep) < k < |p| - |r| && p[k] != ExtSep
  {
    var sepIndex := LastIndexOf(p, Sep);
    var dotIndex := LastIndexOf(p, ExtSep);
    if sepIndex < dotIndex && HasStem(p, sepIndex, dotIndex) then
      StemWitness(p, sepIndex, dotIndex);
      p[dotIndex..]
    else []
  }

  /** A stem that is not all dots has a character other than a dot. */
  lemma StemWitness(p: string, sepIndex: int, dotIndex: int)
    requires -1 <= sepIndex < dotIndex <= |p|
    requires HasStem(p, sepIndex, dotIndex)
    ensures exists k :: sepIndex < k < dotIndex && p[k] != ExtSep
  {
    var stem := p[sepIndex + 1..dotIndex];
    var j :| 0 <= j < |stem| && stem[j] != ExtSep;
    assert p[sepIndex + 1 + j] == stem[j];
  }

  /** A nonempty extension starts with a dot, contains no further dot and no separator, and ends the path. */
  lemma ExtIsSuffix(p: string)
    ensures var e := Ext(p);
      e == [] || (|e| <= |p| && e == p[|p| - |e|..] && e[0] == ExtSep
                  && ExtSep !in e[1..] && Sep !in e)
  {
    var e := Ext(p);
    if e != [] {
      var dotIndex := LastIndexOf(p, ExtSep);
      assert e == p[dotIndex..];
      forall k | 0 <= k < |e| ensures e[k] != Sep && (k > 0 ==> e[k] != ExtSep) {
        assert e[k] == p[dotIndex + k];
      }
    }
  }

  /** Appending characters other than c leaves the last index of c where it was. */
  lemma LastIndexOfAppend(s: string, t: string, c: char)
    requires c !in t
    ensures LastIndexOf(s + t, c) == LastIndexOf(s, c)
  {
    var p := s + t;
    var r := LastIndexOf(s, c);
    forall k | r < k < |p| ensures p[k] != c {
      if k >= |s| { assert p[k] == t[k - |s|]; } else { assert p[k] == s[k]; }
    }
    LastIndexOfUnique(p, c, r);
  }

  /** stem + ext splits back into that ext when the stem ends in a character that is neither a separator nor a dot. */
  lemma ExtOfAppend(stem: string, e: string)
    requires |e| >= 1 && e[0] == ExtSep && ExtSep !in e[1..] && Sep !in e
    requires |stem| >= 1 && stem[|stem| - 1] != Sep && stem[|stem| - 1] != ExtSep
    ensures Ext(stem + e) == e
  {
    var p := stem + e;
    LastIndexOfAppend(stem, e, Sep);
    var s := LastIndexOf(stem, Sep);
    assert e == [ExtSep] + e[1..];
    assert p == (stem + [ExtSep]) + e[1..];
    LastIndexOfAppend(stem + [ExtSep], e[1..], ExtSep);
    LastIndexOfUnique(stem + [ExtSep], ExtSep, |stem|);
    var q := LastIndexOf(p, ExtSep);
    assert LastIndexOf(p, Sep) == s && q == |stem|;
    assert s < |stem| - 1;
    assert p[s + 1..q][q - s - 2] == stem[|stem| - 1];
    assert p[q..] == e;
  }

  /** str.split(c): the pieces between occurrences of c, empty pieces kept; never an empty list. */
  function Split(s: string, c: char): (r: seq<string>)
    ensures |r| >= 1
  {
    if |s| == 0 then [[]]
    else
      var rest := Split(s[1..], c);
      if s[0] == c then [[]] + rest else [[s[0]] + rest[0]] + rest[1..]
  }

  /** A string without the separator splits into itself alone. */
  lemma {:induction false} SplitWithoutSep(s: string, c: char)
    requires c !in s
    ensures Split(s, c) == [s]
  {
    if |s| > 0 {
      SplitWithoutSep(s[1..], c);
      assert [s[0]] + s[1..] == s;
    }
  }

  /** str.join: the pieces with c between consecutive ones. */
  function JoinWith(parts: seq<string>, c: char): string
  {
    if |parts| == 0 then []
    else if |parts| == 1 then parts[0]
    else parts[0] + [c] + JoinWith(parts[1..], c)
  }

  /** Splitting loses nothing: the pieces hold no separator and joining them gives back s. */
  lemma {:induction false} SplitJoin(s: string, c: char)
    ensures forall i :: 0 <= i < |Split(s, c)| ==> c !in Split(s, c)[i]
    ensures JoinWith(Split(s, c), c) == s
  {
    if |s| > 0 {
      var rest := Split(s[1..], c);
      SplitJoin(s[1..], c);
      if s[0] == c {
        assert Split(s, c) == [[]] + rest;
        assert ([[]] + rest)[1..] == rest;
        assert JoinWith([[]] + rest, c) == [] + [c] + JoinWith(rest, c);
        assert [c] + s[1..] == s;
      } else {
        var r := Split(s, c);
        assert r == [[s[0]] + rest[0]] + rest[1..];
        forall i | 0 <= i < |r| ensures c !in r[i] {
          if i > 0 { assert r[i] == rest[i]; }
        }
        if |rest| == 1 {
          assert JoinWith(rest, c) == rest[0];
          assert [s[0]] + s[1..] == s;
        } else {
          assert r[1..] == rest[1..];
          assert JoinWith(rest, c) == rest[0] + [c] + JoinWith(rest[1..], c);
          assert [s[0]] + s[1..] == s;
        }
      }
    }
  }
}
