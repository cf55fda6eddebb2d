/**
 * The path arithmetic of `writeFileSync`: JavaScript's `path.split("/")`,
 * `parts.slice(0, -1)` and `parts.join("/")` on strings, and the parent
 * folder they compute together.
 */
module Paths {

  /** The separator `writeFileSync` splits and joins on. */
  const Sep: char := '/'

  /**
   * `s.split("/")` as JavaScript computes it: the maximal separator-free
   * pieces between separators, so there is always at least one part (the
   * empty string gives `[""]`) and leading, trailing or doubled separators
   * give empty parts.
   */
  function Split(s: string): (parts: seq<string>)
    ensures |parts| >= 1
    ensures forall i :: 0 <= i < |parts| ==> Sep !in parts[i]
  {
    if s == [] then [""]
    else
      var rest := Split(s[1..]);
      if s[0] == Sep then [""] + rest
      else [[s[0]] + rest[0]] + rest[1..]
  }

  /** `parts.join("/")`: the parts with one separator between neighbours; `[]` joins to `""`. */
  function Join(parts: seq<string>): string
  {
    if |parts| == 0 then ""
    else if |parts| == 1 then parts[0]
    else parts[0] + [Sep] + Join(parts[1..])
  }

  /**
   * The folder part of a path: all `/`-segments but the last, re-joined
   * (lines 82-83). It is everything before the last separator, and empty
   * when there is none.
   */
  function ParentFolder(path: string): (folder: string)
    ensures var k := LastSlash(path);
      folder == (if k < 0 then "" else path[..k])
  {
    var parts := Split(path);
    var k := LastSlash(path);
    if k < 0 then
      SplitWithoutSlash(path);
      Join(parts[..|parts| - 1])
    else
      SplitAtLastSlash(path);
      assert parts[..|parts| - 1] == Split(path[..k]);
      JoinSplit(path[..k]);
      Join(parts[..|parts| - 1])
  }

  /**
   * The last `/`-segment of a path, the one `ParentFolder` drops: everything
   * after the last separator, and so free of separators.
   */
  function LastSegment(path: string): (last: string)
    ensures last == path[LastSlash(path) + 1..]
    ensures Sep !in last
  {
    var parts := Split(path);
    if LastSlash(path) < 0 then
      SplitWithoutSlash(path);
      parts[|parts| - 1]
    else
      SplitAtLastSlash(path);
      parts[|parts| - 1]
  }

  /** `s.lastIndexOf("/")`: the index of the last separator, or -1 when there is none. */
  function LastSlash(s: string): (k: int)
    ensures -1 <= k < |s|
    ensures k >= 0 ==> s[k] == Sep
    ensures forall j :: k < j < |s| ==> s[j] != Sep
  {
    if s == [] then -1
    else if s[|s| - 1] == Sep then |s| - 1
    else LastSlash(s[..|s| - 1])
  }

  /** A string without separators splits into itself alone. */
  lemma {:induction false} SplitNoSep(s: string)
    requires Sep !in s
    ensures Split(s) == [s]
  {
    if s != [] {
      assert Sep !in s[1..] by {
        forall j | 0 <= j < |s[1..]| ensures s[1..][j] != Sep {
          assert s[1..][j] == s[j + 1];
        }
      }
      SplitNoSep(s[1..]);
      assert [s[0]] + s[1..] == s;
    }
  }

  /** Splitting at a separator splits each side on its own. */
  lemma {:induction false} SplitAround(a: string, b: string)
    ensures Split(a + [Sep] + b) == Split(a) + Split(b)
  {
    if a == [] {
      assert a + [Sep] + b == [Sep] + b;
      assert ([Sep] + b)[1..] == b;
    } else {
      var s := a + [Sep] + b;
      assert s[0] == a[0];
      assert s[1..] == a[1..] + [Sep] + b;
      SplitAround(a[1..], b);
    }
  }

  /** Joining what `Split` produced gives back the original string. */
  lemma {:induction false} JoinSplit(s: string)
    ensures Join(Split(s)) == s
  {
    if s != [] {
      var rest := Split(s[1..]);
      JoinSplit(s[1..]);
      if s[0] == Sep {
        assert ([""] + rest)[1..] == rest;
        assert s == [Sep] + s[1..];
      } else {
        var parts := [[s[0]] + rest[0]] + rest[1..];
        assert parts[1..] == rest[1..];
        if |rest| == 1 {
          assert s == [s[0]] + s[1..];
        } else {
          assert Join(rest) == rest[0] + [Sep] + Join(rest[1..]);
          assert s == [s[0]] + s[1..];
        }
      }
    }
  }

  /** Splitting what `Join` produced gives back the parts, when no part holds a separator. */
  lemma {:induction false} SplitJoin(parts: seq<string>)
    requires |parts| >= 1
    requires forall i :: 0 <= i < |parts| ==> Sep !in parts[i]
    ensures Split(Join(parts)) == parts
  {
    SplitNoSep(parts[0]);
    if |parts| > 1 {
      var rest := parts[1..];
      assert forall i :: 0 <= i < |rest| ==> Sep !in rest[i] by {
        forall i | 0 <= i < |rest| ensures Sep !in rest[i] {
          assert rest[i] == parts[i + 1];
        }
      }
      SplitJoin(rest);
      assert Join(parts) == parts[0] + [Sep] + Join(rest);
      SplitAround(parts[0], Join(rest));
      assert [parts[0]] + rest == parts;
    }
  }

  /** A path with no separator is a single segment. */
  lemma SplitWithoutSlash(path: string)
    requires LastSlash(path) < 0
    ensures Split(path) == [path]
  {
    assert Sep !in path by {
      forall j | 0 <= j < |path| ensures path[j] != Sep { }
    }
    SplitNoSep(path);
  }

  /** Splitting at the last separator: the segments before it, then the separator-free rest. */
  lemma SplitAtLastSlash(path: string)
    requires LastSlash(path) >= 0
    ensures var k := LastSlash(path);
      Split(path) == Split(path[..k]) + [path[k + 1..]]
  {
    var k := LastSlash(path);
    var a, b := path[..k], path[k + 1..];
    assert path == a + [Sep] + b;
    assert Sep !in b by {
      forall j | 0 <= j < |b| ensures b[j] != Sep {
        assert b[j] == path[k + 1 + j];
      }
    }
    SplitAround(a, b);
    SplitNoSep(b);
  }

  /**
   * The parent folder is everything before the last separator, and empty
   * when there is none; the last segment is everything after it. The
   * folder is non-empty exactly when the last separator is not the first
   * character.
   */
  lemma ParentFolderBeforeLastSlash(path: string)
    ensures var k := LastSlash(path);
      && ParentFolder(path) == (if k < 0 then "" else path[..k])
      && LastSegment(path) == path[k + 1..]
      && (ParentFolder(path) != "" <==> k > 0)
  {
  }

  /** With a separator present, the folder, a separator and the last segment rebuild the path. */
  lemma ParentFolderThenLastSegment(path: string)
    requires Sep in path
    ensures ParentFolder(path) + [Sep] + LastSegment(path) == path
    ensures Sep !in LastSegment(path)
  {
    var k := LastSlash(path);
    assert path == path[..k] + [Sep] + path[k + 1..];
  }
}
