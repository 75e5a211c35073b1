/**
 * The string operations the worker relies on: `Array.prototype.join`, its
 * inverse `split` (how a consumer reads `name:alias`, `host:container` or a
 * script body back), and the last-segment part of `Path.basename`.
 */
module Strings {

  /** `parts.join(sep)` for a one-character separator. */
  function Join(parts: seq<string>, sep: char): string
  {
    if parts == [] then []
    else if |parts| == 1 then parts[0]
    else parts[0] + [sep] + Join(parts[1..], sep)
  }

  lemma JoinTwo(a: string, b: string, sep: char)
    ensures Join([a, b], sep) == a + [sep] + b
  {
    assert [a, b][1..] == [b];
  }

  lemma JoinThree(a: string, b: string, c: string, sep: char)
    ensures Join([a, b, c], sep) == a + [sep] + b + [sep] + c
  {
    assert [a, b, c][1..] == [b, c];
    JoinTwo(b, c, sep);
  }

  /** Gluing a prefix onto the first part is the same as prefixing the joined text. */
  lemma JoinGlue(a: string, parts: seq<string>, sep: char)
    requires parts != []
    ensures a + Join(parts, sep) == Join([a + parts[0]] + parts[1..], sep)
  {
    var glued := [a + parts[0]] + parts[1..];
    assert glued[1..] == parts[1..];
  }

  /** No part contains the separator. */
  predicate Free(parts: seq<string>, sep: char)
  {
    forall i :: 0 <= i < |parts| ==> sep !in parts[i]
  }

  /**
   * `s.split(sep)`: the maximal separator-free pieces of `s`, in order. The
   * worker only joins; this is how a consumer reads a joined value back.
   */
  function Split(s: string, sep: char): (r: seq<string>)
    ensures |r| >= 1
  {
    if s == [] then [[]]
    else
      var rest := Split(s[1..], sep);
      if s[0] == sep then [[]] + rest
      else [[s[0]] + rest[0]] + rest[1..]
  }

  lemma {:induction false} SplitFree(s: string, sep: char)
    requires sep !in s
    ensures Split(s, sep) == [s]
  {
    if s != [] {
      SplitFree(s[1..], sep);
      assert s[0] != sep;
      assert [s[0]] + s[1..] == s;
    }
  }

  /** A separator-free piece followed by the separator splits off as one whole piece. */
  lemma {:induction false} SplitAfterPiece(p: string, r: string, sep: char)
    requires sep !in p
    ensures Split(p + [sep] + r, sep) == [p] + Split(r, sep)
  {
    var s := p + [sep] + r;
    if p == [] {
      assert s[0] == sep && s[1..] == r;
    } else {
      var t := p[1..] + [sep] + r;
      SplitAfterPiece(p[1..], r, sep);
      assert s[0] == p[0] && s[1..] == t;
      assert [p[0]] + p[1..] == p;
    }
  }

  /** `join` followed by `split` is the identity on separator-free parts. */
  lemma {:induction false} SplitJoin(parts: seq<string>, sep: char)
    requires |parts| >= 1 && Free(parts, sep)
    ensures Split(Join(parts, sep), sep) == parts
  {
    if |parts| == 1 {
      SplitFree(parts[0], sep);
    } else {
      assert Free(parts[1..], sep) by {
        forall i | 0 <= i < |parts[1..]| ensures sep !in parts[1..][i] {
          assert parts[1..][i] == parts[i + 1];
        }
      }
      SplitJoin(parts[1..], sep);
      SplitAfterPiece(parts[0], Join(parts[1..], sep), sep);
      assert parts == [parts[0]] + parts[1..];
    }
  }

  /**
   * The final `/`-separated segment of a path: the longest suffix free of `/`.
   * (Node's `path.basename` also drops trailing separators first; that is
   * not modelled.)
   */
  function Basename(p: string): string
  {
    if p == [] then []
    else if p[|p| - 1] == '/' then []
    else Basename(p[..|p| - 1]) + [p[|p| - 1]]
  }

  /**
   * The base name holds no `/`, is a suffix of the path, and is either the
   * whole path or directly preceded by a `/`.
   */
  lemma {:induction false} BasenameSuffix(p: string)
    ensures var r := Basename(p);
      '/' !in r && |r| <= |p| && r == p[|p| - |r|..] && (|r| == |p| || p[|p| - |r| - 1] == '/')
  {
    if p != [] && p[|p| - 1] != '/' {
      var init := p[..|p| - 1];
      BasenameSuffix(init);
      var r0 := Basename(init);
      assert r0 == init[|init| - |r0|..];
      assert Basename(p) == r0 + [p[|p| - 1]];
      assert p[|p| - |r0| - 1..] == init[|init| - |r0|..] + [p[|p| - 1]];
    }
  }

  /** The basename of `dir/p` is the basename of `p`, whatever `dir` is. */
  lemma {:induction false} BasenameUnder(dir: string, p: string)
    ensures Basename(dir + "/" + p) == Basename(p)
  {
    var full := dir + "/" + p;
    if p == [] {
      assert full[|full| - 1] == '/';
    } else {
      var init := p[..|p| - 1];
      assert full[..|full| - 1] == dir + "/" + init;
      assert full[|full| - 1] == p[|p| - 1];
      BasenameUnder(dir, init);
    }
  }

  /** A name without `/` is its own base name. */
  lemma {:induction false} BasenameOfName(p: string)
    requires '/' !in p
    ensures Basename(p) == p
  {
    if p != [] {
      BasenameOfName(p[..|p| - 1]);
      assert p[..|p| - 1] + [p[|p| - 1]] == p;
    }
  }
}
