/**
  File-URL path arithmetic on plain strings: the parts of Foundation's `URL`
  that the repository scanner and `RepositoryItem` rely on
  (`appendingPathComponent`, `lastPathComponent`,
  `deletingLastPathComponent().path`, and `NSString.pathExtension`).
  Paths use '/' as separator and carry no trailing separator unless they are
  the file-system root "/".
 */
module PathNames {

  type Path = string

  /** A single path component, as a directory enumerator yields it for an
      immediate child: non-empty and without separator. */
  predicate IsComponent(name: string) {
    |name| > 0 && '/' !in name
  }

  /** A directory path in the normal form Foundation produces: the root "/",
      or a non-empty path that does not end in a separator. */
  predicate IsNormalDirectory(dir: Path) {
    dir == "/" || (|dir| > 0 && dir[|dir| - 1] != '/')
  }

  /** Index of the last occurrence of `c` in `s`, or -1 when there is none. */
  function LastIndexOf(s: string, c: char): (r: int)
    ensures -1 <= r < |s|
    ensures r >= 0 ==> s[r] == c
    ensures forall i :: r < i < |s| ==> s[i] != c
    decreases |s|
  {
    if |s| == 0 then -1
    else if s[|s| - 1] == c then |s| - 1
    else LastIndexOf(s[..|s| - 1], c)
  }

  /** The three postconditions of LastIndexOf pin the index down uniquely. */
  lemma LastIndexOfUnique(s: string, c: char, k: int)
    requires -1 <= k < |s|
    requires k >= 0 ==> s[k] == c
    requires forall i :: k < i < |s| ==> s[i] != c
    ensures LastIndexOf(s, c) == k
  {
  }

  /** `URL.appendingPathComponent`: one separator between directory and name. */
  function Join(dir: Path, name: string): Path {
    if |dir| > 0 && dir[|dir| - 1] == '/' then dir + name else dir + "/" + name
  }

  /** `URL.lastPathComponent`: everything after the last separator. */
  function LastComponent(p: Path): string {
    p[LastIndexOf(p, '/') + 1..]
  }

  /** `URL.deletingLastPathComponent().path`: everything before the last
      separator; the root "/" when that separator is the leading one. A path
      without any separator has no parent and gives the empty path. */
  function Parent(p: Path): Path {
    var i := LastIndexOf(p, '/');
    if i == 0 then "/" else if i < 0 then "" else p[..i]
  }

  /** `NSString.pathExtension` of a single component: the text after its last
      dot, or "" when it has no dot or its only dot opens the name (a hidden
      file such as ".vscode"). */
  function PathExtension(name: string): string {
    var i := LastIndexOf(name, '.');
    if i <= 0 then "" else name[i + 1..]
  }

  /** Splitting a joined path gives back its two halves: the name is the last
      component and, for a directory in normal form, the parent is the
      directory. */
  lemma JoinSplit(dir: Path, name: string)
    requires IsComponent(name)
    ensures LastComponent(Join(dir, name)) == name
    ensures IsNormalDirectory(dir) ==> Parent(Join(dir, name)) == dir
  {
    var p := Join(dir, name);
    var k := |p| - |name| - 1;
    assert p[k] == '/';
    assert p[k + 1..] == name;
    forall i | k < i < |p|
      ensures p[i] != '/'
    {
      assert p[i] == name[i - k - 1];
    }
    LastIndexOfUnique(p, '/', k);
    if IsNormalDirectory(dir) {
      if dir == "/" {
        assert k == 0;
      } else {
        assert p[..k] == dir;
      }
    }
  }

  /** A component has a non-empty extension `ext` (itself dot-free) exactly when it ends
      in "." + ext with at least one character before the dot. */
  lemma PathExtensionIs(name: string, ext: string)
    requires |ext| > 0 && '.' !in ext
    ensures PathExtension(name) == ext <==>
              |name| > |ext| + 1 && name[|name| - |ext| - 1..] == "." + ext
  {
    var i := LastIndexOf(name, '.');
    var k := |name| - |ext| - 1;
    if |name| > |ext| + 1 && name[|name| - |ext| - 1..] == "." + ext {
      assert name[k] == '.';
      forall j | k < j < |name|
        ensures name[j] != '.'
      {
        assert name[j] == ext[j - k - 1];
      }
      LastIndexOfUnique(name, '.', k);
      assert name[k + 1..] == ext;
    }
    if PathExtension(name) == ext {
      assert i == k;
      assert name[k..] == [name[k]] + name[k + 1..];
    }
  }
}
