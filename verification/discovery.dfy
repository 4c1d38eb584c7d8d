/**
  Repository discovery for the main view: scanning each configured root for
  immediate children that are git repositories, and the reload that replaces
  the displayed list with the result of scanning every root.
 */
module Discovery {
  import opened Common
  import opened PathNames
  import opened Environment
  import opened RepositoryItems
  import opened Preferences

  const GitEntry := ".git"

  /** A child of `root` is tried only when it holds a ".git" entry. */
  predicate HasGitEntry(env: Env, root: Path, name: string) {
    Exists(env, Join(Join(root, name), GitEntry))
  }

  /** A child of `root` is listed: it has a ".git" entry and opens. */
  predicate Qualifies(env: Env, root: Path, name: string) {
    HasGitEntry(env, root, name) && Opens(env, Join(root, name))
  }

  /** What one enumerated child contributes: its item, or nothing. */
  function ChildItems(env: Env, root: Path, name: string): seq<RepositoryItem> {
    if !HasGitEntry(env, root, name) then []
    else
      match MakeItem(env, Join(root, name))
      case None => []
      case Some(item) => [item]
  }

  /** A child contributes exactly its item when it qualifies, else nothing. */
  lemma ChildItemsQualifying(env: Env, root: Path, name: string)
    ensures Qualifies(env, root, name) ==> ChildItems(env, root, name) == [MakeItem(env, Join(root, name)).value]
    ensures !Qualifies(env, root, name) ==> ChildItems(env, root, name) == []
  {
  }

  /** `ChildItems` for the children of one root. */
  function ChildItemsOf(env: Env, root: Path): string -> seq<RepositoryItem> {
    n => ChildItems(env, root, n)
  }

  /** The items contributed by `names`, in enumeration order. */
  function Scan(env: Env, root: Path, names: seq<string>): (r: seq<RepositoryItem>)
    ensures |r| <= |names|
  {
    FlatMapAtMostOne(names, ChildItemsOf(env, root));
    FlatMap(names, ChildItemsOf(env, root))
  }

  /** A child that does not qualify (no ".git" entry, or the repository fails
      to open) is skipped and the scan carries on with the rest. */
  lemma SkipsNonQualifying(env: Env, root: Path, a: seq<string>, c: string, b: seq<string>)
    requires !Qualifies(env, root, c)
    ensures Scan(env, root, a + [c] + b) == Scan(env, root, a) + Scan(env, root, b)
  {
    var f := ChildItemsOf(env, root);
    FlatMapAppend(a + [c], b, f);
    FlatMapAppend(a, [c], f);
    assert [c][..0] == [];
    assert FlatMap([c], f) == FlatMap([], f) + f(c);
    ChildItemsQualifying(env, root, c);
  }

  /** The reference meaning of `findRepositories(in:)`: nothing for a root
      that is missing or not a directory, else the scan of its immediate
      children. */
  function Repositories(env: Env, root: Path): (r: seq<RepositoryItem>)
    ensures !IsDirectory(env, root) ==> r == []
    ensures |r| <= |Listing(env, root)|
  {
    if IsDirectory(env, root) then Scan(env, root, Listing(env, root)) else []
  }

  /** The repositories found under a root are exactly the items of its
      immediate children that have a ".git" entry and open. */
  lemma RepositoriesExactly(env: Env, root: Path, item: RepositoryItem)
    ensures item in Repositories(env, root) <==>
              IsDirectory(env, root)
              && exists i :: 0 <= i < |Listing(env, root)| && Qualifies(env, root, Listing(env, root)[i])
                   && MakeItem(env, Join(root, Listing(env, root)[i])) == Some(item)
  {
    if IsDirectory(env, root) {
      var names := Listing(env, root);
      FlatMapMembers(names, ChildItemsOf(env, root), item);
      forall i | 0 <= i < |names| {
        ChildItemsQualifying(env, root, names[i]);
      }
    }
  }

  /** Under a root in normal form whose children are plain names, every item
      found is named after one of those children, sits in the root, and its
      repository opens. */
  lemma RepositoriesUnderRoot(env: Env, root: Path, item: RepositoryItem)
    requires IsNormalDirectory(root)
    requires forall n :: n in Listing(env, root) ==> IsComponent(n)
    requires item in Repositories(env, root)
    ensures item.name in Listing(env, root)
    ensures item.path == root
    ensures item.url == Join(root, item.name) && Opens(env, item.url)
  {
    RepositoriesExactly(env, root, item);
    var names := Listing(env, root);
    var i :| 0 <= i < |names| && Qualifies(env, root, names[i])
               && MakeItem(env, Join(root, names[i])) == Some(item);
    ItemOfChild(env, root, names[i]);
  }

  /** `findRepositories(in:)`: enumerates the root's immediate children and
      keeps those with a ".git" entry whose repository opens. */
  method FindRepositories(env: Env, root: Path) returns (items: seq<RepositoryItem>)
    ensures items == Repositories(env, root)
  {
    if !IsDirectory(env, root) {
      return [];
    }
    var names := Listing(env, root);
    items := [];
    var i := 0;
    while i < |names|
      invariant 0 <= i <= |names|
      invariant items == Scan(env, root, names[..i])
    {
      var url := Join(root, names[i]);
      if Exists(env, Join(url, GitEntry)) {
        var item := MakeItem(env, url);
        if item.Some? {
          items := items + [item.value];
        }
      }
      assert names[..i + 1][..i] == names[..i];
      i := i + 1;
    }
    assert names[..i] == names;
  }

  /** `Repositories` as a function of the root. */
  function RepositoriesOf(env: Env): Path -> seq<RepositoryItem> {
    root => Repositories(env, root)
  }

  /** The items of all roots, concatenated in root order. */
  function Collect(env: Env, roots: seq<Path>): seq<RepositoryItem> {
    FlatMap(roots, RepositoriesOf(env))
  }

  /** Collecting is piecewise over the roots, so root order is kept. */
  lemma CollectAppend(env: Env, a: seq<Path>, b: seq<Path>)
    ensures Collect(env, a + b) == Collect(env, a) + Collect(env, b)
  {
    FlatMapAppend(a, b, RepositoriesOf(env));
  }

  /** An item is collected exactly when some root yields it. */
  lemma CollectMembers(env: Env, roots: seq<Path>, item: RepositoryItem)
    ensures item in Collect(env, roots) <==>
              exists k :: 0 <= k < |roots| && item in Repositories(env, roots[k])
  {
    FlatMapMembers(roots, RepositoriesOf(env), item);
  }

  /** The background part of `reload(_:)`: every configured root is scanned
      in turn and the results are appended. */
  method ScanAll(env: Env, roots: seq<Path>) returns (items: seq<RepositoryItem>)
    ensures items == Collect(env, roots)
  {
    items := [];
    var k := 0;
    while k < |roots|
      invariant 0 <= k <= |roots|
      invariant items == Collect(env, roots[..k])
    {
      var found := FindRepositories(env, roots[k]);
      items := items + found;
      assert roots[..k + 1][..k] == roots[..k];
      k := k + 1;
    }
    assert roots[..k] == roots;
  }

  /** The main view's state: whether a reload is running, and the displayed
      repositories. */
  datatype MainView = MainView(updating: bool, items: seq<RepositoryItem>)

  /** The first step of `reload(_:)`: the request is dropped while a reload
      is running, otherwise the configured roots are read and `updating` is
      raised. */
  function BeginReload(view: MainView, prefs: Prefs): (r: Option<(MainView, seq<Path>)>)
    ensures r.None? <==> view.updating
    ensures r.Some? ==> r.value.0 == MainView(true, view.items) && r.value.1 == prefs.paths
  {
    if view.updating then None else Some((view.(updating := true), prefs.paths))
  }

  /** The last step of `reload(_:)`: the displayed list is replaced by the
      scan result and `updating` is lowered. */
  function FinishReload(view: MainView, items: seq<RepositoryItem>): MainView {
    MainView(false, items)
  }

  /** A whole reload, with the scan run to completion between its two steps. */
  function Reload(view: MainView, prefs: Prefs, env: Env): (r: MainView)
    ensures view.updating ==> r == view
    ensures !view.updating ==> !r.updating
    ensures !view.updating ==>
              forall item :: item in r.items <==>
                exists k :: 0 <= k < |prefs.paths| && item in Repositories(env, prefs.paths[k])
  {
    match BeginReload(view, prefs)
    case None => view
    case Some((running, roots)) =>
      var items := Collect(env, roots);
      assert forall item :: item in items <==>
        exists k :: 0 <= k < |roots| && item in Repositories(env, roots[k]) by {
        forall item {
          CollectMembers(env, roots, item);
        }
      }
      FinishReload(running, items)
  }

  /** A reload requested while another one runs does nothing. */
  lemma ReloadWhileUpdating(view: MainView, prefs: Prefs, prefs': Prefs, env: Env)
    requires BeginReload(view, prefs).Some?
    ensures Reload(BeginReload(view, prefs).value.0, prefs', env) == BeginReload(view, prefs).value.0
  {
  }

  /** A completed reload discards whatever was displayed before. */
  lemma ReloadReplacesAll(a: seq<RepositoryItem>, b: seq<RepositoryItem>, prefs: Prefs, env: Env)
    ensures Reload(MainView(false, a), prefs, env) == Reload(MainView(false, b), prefs, env)
  {
  }

  /** Reloading again over unchanged preferences and file system changes
      nothing. */
  lemma ReloadIdempotent(view: MainView, prefs: Prefs, env: Env)
    ensures Reload(Reload(view, prefs, env), prefs, env) == Reload(view, prefs, env)
  {
  }
}
