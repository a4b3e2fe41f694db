/**
 * The part of Node's POSIX `path` module the core relies on: the last path
 * segment, its extension, the segment with a suffix removed, a file placed
 * next to another, and the joining of a directory with a file name.
 * Paths are strings of characters; `/` separates segments.
 */
module Paths {

  /** The index of the last occurrence of `c` in `s`, or -1. */
  function LastIndexOf(s: string, c: char): (r: int)
    ensures -1 <= r < |s|
    ensures r >= 0 ==> s[r] == c
    ensures forall j :: r < j < |s| ==> s[j] != c
  {
    if s == [] then -1
    else if s[|s| - 1] == c then |s| - 1
    else LastIndexOf(s[..|s| - 1], c)
  }

  /** Everything up to and including the last `/`: the directory part of `p`. */
  function DirPrefix(p: string): (d: string)
    ensures d <= p
    ensures d == [] || d[|d| - 1] == '/'
  {
    p[..LastIndexOf(p, '/') + 1]
  }

  /** `path.basename(p)`: the last segment of `p`. */
  function Basename(p: string): (b: string)
    ensures DirPrefix(p) + b == p
    ensures '/' !in b
  {
    var k := LastIndexOf(p, '/') + 1;
    NoneAfterLast(p, '/');
    assert p[..k] + p[k..] == p;
    p[k..]
  }

  /**
   * `path.extname(p)`: the last segment from its last `.` on, unless that
   * `.` opens the segment or the segment is `..`.
   */
  function Extname(p: string): (e: string)
    ensures e == [] || (e[0] == '.' && '.' !in e[1..] && |e| < |Basename(p)|)
    ensures e == Basename(p)[|Basename(p)| - |e|..] && '/' !in e
  {
    var b := Basename(p);
    var e := SegmentExt(b);
    NotInSuffix(b, |b| - |e|, '/');
    e
  }

  /** The extension of one segment `b`: empty, or a `.` with no other `.` that ends `b` and is shorter than it. */
  function SegmentExt(b: string): (e: string)
    ensures e == [] || (e[0] == '.' && '.' !in e[1..] && |e| < |b|)
    ensures e == b[|b| - |e|..]
  {
    var k := LastIndexOf(b, '.');
    if k <= 0 || b == ".." then ""
    else
      LastTail(b, '.');
      b[k..]
  }

  /** `path.basename(p, suffix)`: the last segment with `suffix` removed when it ends with it. */
  function BasenameWithout(p: string, suffix: string): (b: string)
    ensures b <= Basename(p) && '/' !in b
    ensures b == Basename(p) || b + suffix == Basename(p) || b == []
  {
    var b := if p == suffix && suffix != [] then "" else StripSuffix(Basename(p), suffix);
    assert forall i :: 0 <= i < |b| ==> b[i] == Basename(p)[i];
    b
  }

  /** `base` without `suffix` when it ends with it and is longer than it; a prefix of `base` either way. */
  function StripSuffix(base: string, suffix: string): (b: string)
    ensures b <= base
    ensures b == base || b + suffix == base
  {
    if |suffix| < |base| && base[|base| - |suffix|..] == suffix then
      assert base[..|base| - |suffix|] + suffix == base;
      base[..|base| - |suffix|]
    else base
  }

  /** Removing a suffix shorter than the last segment leaves something of it. */
  lemma StemNonEmpty(p: string, suffix: string)
    requires |suffix| < |Basename(p)|
    ensures BasenameWithout(p, suffix) != []
  {
    assert |DirPrefix(p) + Basename(p)| == |p|;
  }

  /** `path.join(path.dirname(p), name)`: the file `name` in the directory of `p`. */
  function Sibling(p: string, name: string): (q: string)
    ensures '/' !in name ==> DirPrefix(q) == DirPrefix(p) && Basename(q) == name
  {
    var q := DirPrefix(p) + name;
    assert '/' !in name ==> DirPrefix(q) == DirPrefix(p) && Basename(q) == name by {
      if '/' !in name {
        BasenameAfterDir(DirPrefix(p), name);
      }
    }
    q
  }

  /** `path.join(dir, name)` for a file name `name`: one `/` between the two. */
  function Join(dir: string, name: string): (q: string)
    ensures |dir| + |name| <= |q| <= |dir| + |name| + 1
    ensures q[..|dir|] == dir && q[|q| - |name|..] == name
    ensures dir != [] ==> q[|q| - |name| - 1] == '/'
  {
    if dir == [] then name
    else if dir[|dir| - 1] == '/' then dir + name
    else dir + "/" + name
  }

  /** `toLowerCase` on one character (ASCII letters only). */
  function LowerChar(c: char): (l: char)
    ensures 'A' <= c <= 'Z' ==> 'a' <= l <= 'z'
    ensures !('A' <= c <= 'Z') ==> l == c
  {
    if 'A' <= c <= 'Z' then (c as int - 'A' as int + 'a' as int) as char else c
  }

  /** `toLowerCase` (ASCII letters only). */
  function ToLower(s: string): (l: string)
    ensures |l| == |s|
    ensures forall i :: 0 <= i < |s| ==> l[i] == LowerChar(s[i])
  {
    seq(|s|, i requires 0 <= i < |s| => LowerChar(s[i]))
  }

  /** A character not in a string is not in any of its suffixes. */
  lemma NotInSuffix(s: string, k: nat, c: char)
    requires k <= |s| && c !in s
    ensures c !in s[k..]
  {
    assert forall i :: 0 <= i < |s[k..]| ==> s[k..][i] == s[k + i];
  }

  /** A character in neither part is not in their concatenation. */
  lemma NotInConcat(a: string, b: string, c: char)
    requires c !in a && c !in b
    ensures c !in a + b
  {
    forall i | 0 <= i < |a + b|
      ensures (a + b)[i] != c
    {
      if i < |a| { assert (a + b)[i] == a[i]; } else { assert (a + b)[i] == b[i - |a|]; }
    }
  }

  /** From the last `c` on, a segment starts with `c` and holds no other `c`. */
  lemma LastTail(s: string, c: char)
    requires LastIndexOf(s, c) >= 0
    ensures var t := s[LastIndexOf(s, c)..];
      t[0] == c && c !in t[1..] && t == s[|s| - |t|..]
  {
    var k := LastIndexOf(s, c);
    NoneAfterLast(s, c);
    assert s[k..][1..] == s[k + 1..];
  }

  /** Nothing after the last `c` is a `c`. */
  lemma NoneAfterLast(s: string, c: char)
    ensures c !in s[LastIndexOf(s, c) + 1..]
  {
    var k := LastIndexOf(s, c) + 1;
    var t := s[k..];
    assert forall i :: 0 <= i < |t| ==> t[i] == s[k + i];
    NotInIndices(t, c);
  }

  /** A character at no index is not in the string. */
  lemma NotInIndices(t: string, c: char)
    requires forall i :: 0 <= i < |t| ==> t[i] != c
    ensures c !in t
  {
  }

  /** The three properties of `LastIndexOf` pin its value down. */
  lemma LastIndexOfUnique(s: string, c: char, r: int)
    requires -1 <= r < |s|
    requires r >= 0 ==> s[r] == c
    requires forall j :: r < j < |s| ==> s[j] != c
    ensures r == LastIndexOf(s, c)
  {
  }

  /** Appending text without `c` leaves the last `c` where it was; otherwise the last `c` is in the appended text. */
  lemma LastIndexOfAppend(a: string, b: string, c: char)
    ensures LastIndexOf(a + b, c)
         == if LastIndexOf(b, c) >= 0 then |a| + LastIndexOf(b, c) else LastIndexOf(a, c)
  {
    var r := if LastIndexOf(b, c) >= 0 then |a| + LastIndexOf(b, c) else LastIndexOf(a, c);
    assert forall j :: |a| <= j < |a + b| ==> (a + b)[j] == b[j - |a|];
    LastIndexOfUnique(a + b, c, r);
  }

  /** A join is the directory, closed by one separator unless empty or already closed, followed by the name. */
  lemma JoinDirectory(dir: string, name: string) returns (d: string)
    ensures d == [] || d[|d| - 1] == '/'
    ensures Join(dir, name) == d + name
  {
    d := if dir == [] || dir[|dir| - 1] == '/' then dir else dir + "/";
  }

  /** A file name without `/` placed in a directory is the last segment of the result. */
  lemma BasenameOfJoin(dir: string, name: string)
    requires '/' !in name
    ensures Basename(Join(dir, name)) == name
  {
    var q := Join(dir, name);
    var front := q[..|q| - |name|];
    assert q == front + name;
    LastIndexOfAppend(front, name, '/');
    if dir != [] {
      assert front[|front| - 1] == '/';
      assert LastIndexOf(front, '/') == |front| - 1;
    } else {
      assert front == [];
    }
  }

  /** Behind a directory prefix, a segment without `/` is the last segment. */
  lemma BasenameAfterDir(dir: string, b: string)
    requires dir == [] || dir[|dir| - 1] == '/'
    requires '/' !in b
    ensures DirPrefix(dir + b) == dir
    ensures Basename(dir + b) == b
  {
    LastIndexOfAppend(dir, b, '/');
    assert LastIndexOf(b, '/') == -1;
    if dir != [] {
      assert LastIndexOf(dir, '/') == |dir| - 1;
    }
    assert (dir + b)[..|dir|] == dir;
  }

  /** The last `.` of a stem followed by a dot-free extension is the one that opens the extension. */
  lemma LastDotOfStemExt(stem: string, ext: string)
    requires |ext| >= 1 && ext[0] == '.' && '.' !in ext[1..]
    ensures LastIndexOf(stem + ext, '.') == |stem|
  {
    LastIndexOfAppend([ext[0]], ext[1..], '.');
    assert [ext[0]] + ext[1..] == ext;
    assert LastIndexOf(ext[1..], '.') == -1;
    LastIndexOfAppend(stem, ext, '.');
  }

  /** A segment made of a non-empty stem and a dot-free extension splits back into the two. */
  lemma ExtnameOfStemExt(dir: string, stem: string, ext: string)
    requires dir == [] || dir[|dir| - 1] == '/'
    requires stem != [] && '/' !in stem
    requires |ext| >= 2 && ext[0] == '.' && '.' !in ext[1..] && '/' !in ext
    ensures DirPrefix(dir + (stem + ext)) == dir
    ensures Basename(dir + (stem + ext)) == stem + ext
    ensures Extname(dir + (stem + ext)) == ext
  {
    var b := stem + ext;
    NotInConcat(stem, ext, '/');
    BasenameAfterDir(dir, b);
    LastDotOfStemExt(stem, ext);
    assert |b| >= 3;
    assert b[|stem|..] == ext;
  }

  /**
   * Removing a suffix of the extension's length from `stem + ext`: the
   * stem when the suffix is the extension, the whole segment otherwise.
   */
  lemma BasenameWithoutExt(dir: string, stem: string, ext: string, suffix: string)
    requires dir == [] || dir[|dir| - 1] == '/'
    requires stem != [] && '/' !in stem
    requires |ext| >= 2 && ext[0] == '.' && '.' !in ext[1..] && '/' !in ext
    requires |suffix| == |ext|
    ensures BasenameWithout(dir + (stem + ext), suffix) == if suffix == ext then stem else stem + ext
  {
    var p, b := dir + (stem + ext), stem + ext;
    NotInConcat(stem, ext, '/');
    BasenameAfterDir(dir, b);
    assert Basename(p) == b;
    assert p != suffix by { assert |p| > |suffix|; }
    assert b[|b| - |suffix|..] == ext;
    if suffix == ext {
      assert b[..|b| - |suffix|] == stem;
      assert StripSuffix(b, suffix) == stem;
    } else {
      assert StripSuffix(b, suffix) == b;
    }
  }
}
