/**
  The application preferences: the ordered list of root folders to scan,
  kept free of duplicates by `addPath` / `removePath`, and the handful of
  other settings the modelled code reads.
 */
module Preferences {
  import opened Common
  import opened PathNames

  /** The settings the modelled code reads. `publicKeyPath` and
      `privateKeyPath` are optional paths chosen in the authentication pane. */
  datatype Prefs = Prefs(
    paths: seq<Path>,
    smartOpen: bool,
    publicKeyPath: Option<Path>,
    privateKeyPath: Option<Path>)

  /** Declared defaults: no roots, smart open on, no key paths. */
  const Defaults: Prefs := Prefs([], true, None, None)

  predicate NoDuplicates<T(==)>(s: seq<T>) {
    forall i, j :: 0 <= i < j < |s| ==> s[i] != s[j]
  }

  /** A list headed by `h` is duplicate-free exactly when its tail is and
      does not contain `h`. */
  lemma NoDuplicatesSplit<T>(h: T, t: seq<T>)
    ensures NoDuplicates([h] + t) <==> NoDuplicates(t) && h !in t
  {
    var s := [h] + t;
    assert forall k :: 0 <= k < |t| ==> s[k + 1] == t[k];
    if NoDuplicates(t) && h !in t {
      forall i, j | 0 <= i < j < |s|
        ensures s[i] != s[j]
      {
        if i > 0 {
          assert s[i] == t[i - 1] && s[j] == t[j - 1];
        } else {
          assert s[j] == t[j - 1];
        }
      }
    }
    if NoDuplicates(s) {
      forall k | 0 <= k < |t|
        ensures t[k] != h
      {
        assert s[k + 1] != s[0];
      }
    }
  }

  /** `addPath`: a path already present is ignored, a new one is appended. */
  function AddPath(paths: seq<Path>, p: Path): (r: seq<Path>)
    ensures p in r
    ensures forall x :: x in r <==> x in paths || x == p
    ensures |paths| <= |r| <= |paths| + 1
    ensures |r| == |paths| <==> p in paths
    ensures r[..|paths|] == paths
    ensures NoDuplicates(paths) ==> NoDuplicates(r)
  {
    if p in paths then paths else paths + [p]
  }

  /** `removePath`: every occurrence of `p` is dropped. */
  function RemovePath(paths: seq<Path>, p: Path): (r: seq<Path>)
    ensures p !in r
    ensures forall x :: x in r <==> x in paths && x != p
    ensures |r| <= |paths|
    ensures NoDuplicates(paths) ==> NoDuplicates(r)
    decreases |paths|
  {
    if |paths| == 0 then []
    else
      var rest := RemovePath(paths[1..], p);
      NoDuplicatesSplit(paths[0], paths[1..]);
      NoDuplicatesSplit(paths[0], rest);
      assert paths == [paths[0]] + paths[1..];
      (if paths[0] == p then [] else [paths[0]]) + rest
  }

  /** Removal keeps the multiplicity of every other path and leaves none of
      `p`. */
  lemma {:induction false} RemovePathCounts(paths: seq<Path>, p: Path)
    ensures multiset(RemovePath(paths, p))[p] == 0
    ensures forall x :: x != p ==> multiset(RemovePath(paths, p))[x] == multiset(paths)[x]
    decreases |paths|
  {
    if |paths| > 0 {
      RemovePathCounts(paths[1..], p);
      assert paths == [paths[0]] + paths[1..];
    }
  }

  /** Removal works piecewise, so the surviving entries keep their relative
      order. */
  lemma {:induction false} RemovePathAppend(a: seq<Path>, b: seq<Path>, p: Path)
    ensures RemovePath(a + b, p) == RemovePath(a, p) + RemovePath(b, p)
    decreases |a|
  {
    if |a| > 0 {
      assert (a + b)[1..] == a[1..] + b;
      RemovePathAppend(a[1..], b, p);
    } else {
      assert a + b == b;
    }
  }

  /** Removing a path that is not there changes nothing. */
  lemma {:induction false} RemovePathAbsent(paths: seq<Path>, p: Path)
    requires p !in paths
    ensures RemovePath(paths, p) == paths
    decreases |paths|
  {
    if |paths| > 0 {
      RemovePathAbsent(paths[1..], p);
      assert paths == [paths[0]] + paths[1..];
    }
  }

  /** Adding twice is adding once. */
  lemma AddPathIdempotent(paths: seq<Path>, p: Path)
    ensures AddPath(AddPath(paths, p), p) == AddPath(paths, p)
  {
  }

  /** Removing twice is removing once. */
  lemma RemovePathIdempotent(paths: seq<Path>, p: Path)
    ensures RemovePath(RemovePath(paths, p), p) == RemovePath(paths, p)
  {
    RemovePathAbsent(RemovePath(paths, p), p);
  }

  /** Removing a freshly added path restores the list. */
  lemma RemoveUndoesAdd(paths: seq<Path>, p: Path)
    requires p !in paths
    ensures RemovePath(AddPath(paths, p), p) == paths
  {
    RemovePathAppend(paths, [p], p);
    RemovePathAbsent(paths, p);
    assert RemovePath([p], p) == [] + RemovePath([], p);
  }

  /** An edit of the root list, as the preference panes issue them. */
  datatype PathEdit = Add(path: Path) | Remove(path: Path)

  function ApplyEdits(paths: seq<Path>, edits: seq<PathEdit>): seq<Path>
    decreases |edits|
  {
    if |edits| == 0 then paths
    else
      var next := match edits[0]
        case Add(p) => AddPath(paths, p)
        case Remove(p) => RemovePath(paths, p);
      ApplyEdits(next, edits[1..])
  }

  /** Starting from any list without duplicates, any series of edits leaves
      a list without duplicates. */
  lemma {:induction false} EditsKeepNoDuplicates(paths: seq<Path>, edits: seq<PathEdit>)
    requires NoDuplicates(paths)
    ensures NoDuplicates(ApplyEdits(paths, edits))
    decreases |edits|
  {
    if |edits| > 0 {
      var next := match edits[0]
        case Add(p) => AddPath(paths, p)
        case Remove(p) => RemovePath(paths, p);
      EditsKeepNoDuplicates(next, edits[1..]);
    }
  }

  /** In particular the root list, which starts empty, never holds a path
      twice whatever edits are made to it. */
  lemma EditsFromDefaults(edits: seq<PathEdit>)
    ensures NoDuplicates(ApplyEdits(Defaults.paths, edits))
  {
    EditsKeepNoDuplicates(Defaults.paths, edits);
  }
}
