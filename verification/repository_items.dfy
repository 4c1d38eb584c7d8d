/**
  One row of the repository list: its name and parent folder, its icon, the
  rendering of its head, and the choice of application that opens it.
 */
module RepositoryItems {
  import opened Common
  import opened PathNames
  import opened Environment

  /** The image shown for a repository, by asset name. */
  datatype Icon = XcodeIcon | VSCodeIcon | PublicIcon

  /** The colour of the head label: secondary label colour for a branch,
      system orange for a detached commit. */
  datatype HeadColor = SecondaryLabel | SystemOrange

  /** `url` stands for the opened repository; `name` and `path` are the
      displayed last component and parent folder. */
  datatype RepositoryItem = RepositoryItem(
    url: Path,
    name: string,
    path: Path,
    icon: Icon,
    head: Option<string>,
    headColor: Option<HeadColor>)

  /** Number of hash characters shown for a detached head. */
  const ShortHashLength: nat := 7
  const XcodeBundle := "com.apple.dt.Xcode"
  const VSCodeBundle := "com.microsoft.VSCode"
  const XcodeProjectExtension := "xcodeproj"
  const VSCodeFolder := ".vscode"

  function Min(a: nat, b: nat): nat {
    if a < b then a else b
  }

  /** `String(hash.prefix(7))`: at most the first seven characters. */
  function ShortHash(hash: string): (r: string)
    ensures |r| == Min(ShortHashLength, |hash|)
    ensures r <= hash
  {
    hash[..Min(ShortHashLength, |hash|)]
  }

  /** The head label: the branch name, the short hash of a detached commit,
      or nothing without a head. */
  function HeadText(head: Option<Head>): (r: Option<string>)
    ensures r.None? <==> head.None?
    ensures head.Some? && head.value.Branch? ==> r == Some(head.value.name)
    ensures head.Some? && head.value.Detached? ==>
              r.Some? && r.value <= head.value.hash
              && |r.value| == Min(ShortHashLength, |head.value.hash|)
  {
    match head
    case None => None
    case Some(Branch(name)) => Some(name)
    case Some(Detached(hash)) => Some(ShortHash(hash))
  }

  /** The head label's colour, present exactly when the label is. */
  function HeadColorOf(head: Option<Head>): (r: Option<HeadColor>)
    ensures r.None? <==> HeadText(head).None?
    ensures r == Some(SystemOrange) <==> head.Some? && head.value.Detached?
  {
    match head
    case None => None
    case Some(Branch(_)) => Some(SecondaryLabel)
    case Some(Detached(_)) => Some(SystemOrange)
  }

  /** Position of the first name that `accept` admits, if any. */
  function FirstMatch(names: seq<string>, accept: string -> bool): (r: Option<nat>)
    ensures r.None? ==> forall i :: 0 <= i < |names| ==> !accept(names[i])
    ensures r.Some? ==> r.value < |names| && accept(names[r.value])
    ensures r.Some? ==> forall i :: 0 <= i < r.value ==> !accept(names[i])
    decreases |names|
  {
    if |names| == 0 then None
    else if accept(names[0]) then Some(0)
    else
      match FirstMatch(names[1..], accept)
      case None => None
      case Some(k) => Some(k + 1)
  }

  /** Whether a child's name marks an Xcode project. */
  predicate IsXcodeProjectName(n: string) {
    PathExtension(n) == XcodeProjectExtension
  }

  /** `xcodeProject(for:)`: the first immediate child whose extension is
      "xcodeproj", joined onto the repository path; nothing when there is
      none. */
  function XcodeProject(env: Env, url: Path): (r: Option<Path>)
    ensures r.None? <==>
              forall n :: n in Listing(env, url) ==> !IsXcodeProjectName(n)
    ensures r.Some? ==>
              exists i :: 0 <= i < |Listing(env, url)|
                && r.value == Join(url, Listing(env, url)[i])
                && IsXcodeProjectName(Listing(env, url)[i])
                && (forall j :: 0 <= j < i ==> !IsXcodeProjectName(Listing(env, url)[j]))
  {
    var names := Listing(env, url);
    match FirstMatch(names, IsXcodeProjectName)
    case None => None
    case Some(i) => Some(Join(url, names[i]))
  }

  /** A child marks an Xcode project exactly when its name is
      "<something>.xcodeproj". */
  lemma XcodeProjectNameIff(n: string)
    ensures IsXcodeProjectName(n) <==> |n| > 10 && n[|n| - 10..] == ".xcodeproj"
  {
    assert '.' !in XcodeProjectExtension;
    PathExtensionIs(n, XcodeProjectExtension);
  }

  /** `hasVSCode`: the repository holds a ".vscode" entry. */
  predicate HasVSCode(env: Env, url: Path) {
    Exists(env, Join(url, VSCodeFolder))
  }

  /** `icon(for:)`: an Xcode project wins over a ".vscode" folder, which wins
      over the default image. */
  function IconFor(env: Env, url: Path): (r: Icon)
    ensures r == XcodeIcon <==> XcodeProject(env, url).Some?
    ensures r == VSCodeIcon <==> XcodeProject(env, url).None? && HasVSCode(env, url)
    ensures r == PublicIcon <==> XcodeProject(env, url).None? && !HasVSCode(env, url)
  {
    if XcodeProject(env, url).Some? then XcodeIcon
    else if HasVSCode(env, url) then VSCodeIcon
    else PublicIcon
  }

  /** `init?(url:)`: nothing when the repository fails to open; otherwise an
      item named after the URL's last component, placed in its parent folder,
      with the icon chosen for the URL and the head rendered from the
      repository's head. */
  function MakeItem(env: Env, url: Path): (r: Option<RepositoryItem>)
    ensures r.None? <==> !Opens(env, url)
    ensures r.Some? ==>
              && r.value.url == url
              && r.value.name == LastComponent(url)
              && r.value.path == Parent(url)
              && r.value.icon == IconFor(env, url)
              && r.value.head == HeadText(env.repositories[url])
              && r.value.headColor == HeadColorOf(env.repositories[url])
  {
    if !Opens(env, url) then None
    else
      var head := env.repositories[url];
      Some(RepositoryItem(url, LastComponent(url), Parent(url), IconFor(env, url),
                          HeadText(head), HeadColorOf(head)))
  }

  /** For a child `n` of a folder `dir` in normal form, the item is named `n`,
      sits in `dir`, and shows the repository's head. */
  lemma ItemOfChild(env: Env, dir: Path, n: string)
    requires IsComponent(n) && IsNormalDirectory(dir)
    requires Opens(env, Join(dir, n))
    ensures MakeItem(env, Join(dir, n)).Some?
    ensures MakeItem(env, Join(dir, n)).value.name == n
    ensures MakeItem(env, Join(dir, n)).value.path == dir
    ensures MakeItem(env, Join(dir, n)).value.head == HeadText(env.repositories[Join(dir, n)])
  {
    JoinSplit(dir, n);
  }

  /** What an open request does: launch an application on a target, reveal
      the folder with the default handler, or nothing at all. */
  datatype OpenEffect = Launch(bundle: string, target: Path) | Reveal(target: Path) | NoEffect

  /** `openIn(bundleID:url:)`: launches when the application is installed,
      reports false and does nothing otherwise. */
  function OpenIn(env: Env, bundle: string, target: Path): (r: (bool, OpenEffect))
    ensures r.0 <==> bundle in env.installed
    ensures r.0 ==> r.1 == Launch(bundle, target)
    ensures !r.0 ==> r.1 == NoEffect
  {
    if bundle in env.installed then (true, Launch(bundle, target)) else (false, NoEffect)
  }

  /** `openInXcode()`: opens the project in Xcode; false when there is no
      project or Xcode is missing. */
  function OpenInXcode(env: Env, url: Path): (r: (bool, OpenEffect))
    ensures r.0 <==> XcodeProject(env, url).Some? && XcodeBundle in env.installed
    ensures r.0 ==> r.1 == Launch(XcodeBundle, XcodeProject(env, url).value)
    ensures XcodeProject(env, url).None? ==> r == (false, NoEffect)
  {
    match XcodeProject(env, url)
    case Some(project) => OpenIn(env, XcodeBundle, project)
    case None => (false, NoEffect)
  }

  /** `open()`. With smart open: the Xcode project in Xcode when both exist,
      else VS Code when the repository has a ".vscode" folder (nothing happens
      if VS Code is missing), else the default handler. Without smart open:
      always the default handler. */
  function Open(env: Env, url: Path, smartOpen: bool): (r: OpenEffect)
    ensures !smartOpen ==> r == Reveal(url)
    ensures r == Reveal(url) <==>
              !smartOpen
              || (!(XcodeProject(env, url).Some? && XcodeBundle in env.installed) && !HasVSCode(env, url))
    ensures r.Launch? && r.bundle == XcodeBundle <==>
              smartOpen && XcodeProject(env, url).Some? && XcodeBundle in env.installed
    ensures r.Launch? && r.bundle == XcodeBundle ==> r.target == XcodeProject(env, url).value
    ensures r.Launch? && r.bundle != XcodeBundle ==> r == Launch(VSCodeBundle, url)
    ensures r.NoEffect? <==>
              smartOpen && !(XcodeProject(env, url).Some? && XcodeBundle in env.installed)
              && HasVSCode(env, url) && VSCodeBundle !in env.installed
  {
    if smartOpen && XcodeProject(env, url).Some? && XcodeBundle in env.installed then
      Launch(XcodeBundle, XcodeProject(env, url).value)
    else if smartOpen && HasVSCode(env, url) then
      OpenIn(env, VSCodeBundle, url).1
    else
      Reveal(url)
  }

  /** The icon tells what smart open does: the default image means the
      folder is revealed, the VS Code image means VS Code (or nothing when it
      is missing), and the Xcode image means the project opens in Xcode when
      Xcode is installed, falling back as if there were no project when it is
      not. */
  lemma IconPredictsOpen(env: Env, url: Path)
    ensures IconFor(env, url) == PublicIcon ==> Open(env, url, true) == Reveal(url)
    ensures IconFor(env, url) == VSCodeIcon ==>
              Open(env, url, true)
                == (if VSCodeBundle in env.installed then Launch(VSCodeBundle, url) else NoEffect)
    ensures IconFor(env, url) == XcodeIcon && XcodeBundle in env.installed ==>
              OpenInXcode(env, url).0 && Open(env, url, true) == OpenInXcode(env, url).1
    ensures IconFor(env, url) == XcodeIcon && XcodeBundle !in env.installed ==>
              !OpenInXcode(env, url).0
              && Open(env, url, true)
                   == (if !HasVSCode(env, url) then Reveal(url)
                       else if VSCodeBundle in env.installed then Launch(VSCodeBundle, url)
                       else NoEffect)
  {
  }

  /** A repository "/r" holding "App.xcodeproj" but no ".vscode" folder, on a
      machine without Xcode: the item shows the Xcode image, yet smart open
      reveals the folder. */
  lemma XcodeIconMayReveal()
    ensures var env := Env(map["/r" := Directory(["App.xcodeproj"]), "/r/App.xcodeproj" := File],
                           map["/r" := None], {});
            IconFor(env, "/r") == XcodeIcon && Open(env, "/r", true) == Reveal("/r")
  {
    var env := Env(map["/r" := Directory(["App.xcodeproj"]), "/r/App.xcodeproj" := File],
                   map["/r" := None], {});
    var name := "App.xcodeproj";
    LastIndexOfUnique(name, '.', 3);
    assert PathExtension(name) == name[4..] == XcodeProjectExtension;
    assert Listing(env, "/r") == [name];
    assert XcodeProject(env, "/r") == Some(Join("/r", name));
    assert Join("/r", VSCodeFolder) == "/r/.vscode";
    assert !HasVSCode(env, "/r");
  }
}
