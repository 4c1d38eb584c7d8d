/**
  The outside world the scanner and the repository items consult, reduced to
  plain values: the file system as a map from path to node, the outcome of
  opening a path as a git repository, and the set of installed applications.
 */
module Environment {
  import opened Common
  import opened PathNames

  /** A file-system entry: a plain file, or a directory with its immediate
      children's names in enumeration order. */
  datatype Node = File | Directory(children: seq<string>)

  /** The head of a repository: a checked-out branch, or a detached commit. */
  datatype Head = Branch(name: string) | Detached(hash: string)

  /** `nodes` is the file system. `repositories` holds every path that opens
      as a repository, mapped to its head (None when the repository has no
      head, e.g. an empty one); a path absent from it fails to open.
      `installed` holds the bundle identifiers of installed applications. */
  datatype Env = Env(
    nodes: map<Path, Node>,
    repositories: map<Path, Option<Head>>,
    installed: set<string>)

  /** `FileManager.fileExists(atPath:)`. */
  predicate Exists(env: Env, p: Path) {
    p in env.nodes
  }

  /** `fileExists(atPath:isDirectory:)` with the flag set. */
  predicate IsDirectory(env: Env, p: Path) {
    p in env.nodes && env.nodes[p].Directory?
  }

  /** The names a directory enumerator yields for `p` when every descent is
      skipped: the immediate children of a directory, nothing otherwise. */
  function Listing(env: Env, p: Path): seq<string> {
    if IsDirectory(env, p) then env.nodes[p].children else []
  }

  /** Whether `Repository(url:)` succeeds for `p`. */
  predicate Opens(env: Env, p: Path) {
    p in env.repositories
  }
}
