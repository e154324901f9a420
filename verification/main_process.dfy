/** Decisions the main process makes at start-up and when it creates its
    window: which environment file to load, where public assets live, how
    links that ask for a new window are handled, and which page the window
    loads. */
module MainProcess {
  import opened Wrappers
  import opened Text
  import opened Paths
  import IndexSearch

  const ProductionEnvFile := ".env.production"
  const DevelopmentEnvFile := ".env.development"

  /** `getEnvPaths()`: packaged, the resources directory's file (when that
      directory is known) then the one beside the executable; otherwise only
      the development file in the working directory. */
  function EnvPaths(isProd: bool, resourcesPath: Option<Path>, exe: Path, cwd: Path): (ps: seq<Path>)
    ensures !isProd ==> ps == [cwd + [DevelopmentEnvFile]]
    ensures isProd ==> 1 <= |ps| && ps[|ps| - 1] == Parent(exe) + [ProductionEnvFile]
    ensures isProd ==> (|ps| == 2 <==> resourcesPath.Some?) && (|ps| == 1 <==> resourcesPath.None?)
    ensures isProd && resourcesPath.Some? ==> ps[0] == resourcesPath.value + [ProductionEnvFile]
    ensures forall i :: 0 <= i < |ps| ==>
      |ps[i]| >= 1 && ps[i][|ps[i]| - 1] == (if isProd then ProductionEnvFile else DevelopmentEnvFile)
  {
    if isProd then
      var fromResources := if resourcesPath.Some? then [resourcesPath.value + [ProductionEnvFile]] else [];
      fromResources + [Parent(exe) + [ProductionEnvFile]]
    else
      [cwd + [DevelopmentEnvFile]]
  }

  /** The env-file loop: load the first candidate that exists and stop; when
      none exists, default NODE_ENV from whether the app is packaged. */
  method LoadEnvironment(paths: seq<Path>, pathExists: Path -> bool, isProd: bool)
    returns (loadedFrom: Option<Path>, defaultNodeEnv: Option<string>)
    ensures loadedFrom == FirstExisting(paths, pathExists)
    ensures loadedFrom.Some? ==> exists i :: FirstExistingAt(paths, pathExists, i) && loadedFrom.value == paths[i]
    ensures loadedFrom.None? <==> forall i :: 0 <= i < |paths| ==> !pathExists(paths[i])
    ensures defaultNodeEnv.Some? <==> loadedFrom.None?
    ensures defaultNodeEnv.Some? ==> defaultNodeEnv.value == (if isProd then "production" else "development")
  {
    loadedFrom := None;
    var i := 0;
    while i < |paths|
      invariant 0 <= i <= |paths|
      invariant forall j :: 0 <= j < i ==> !pathExists(paths[j])
      invariant loadedFrom.None?
    {
      if pathExists(paths[i]) {
        loadedFrom := Some(paths[i]);
        break;
      }
      i := i + 1;
    }
    var first := FirstExisting(paths, pathExists);
    if loadedFrom.Some? {
      assert FirstExistingAt(paths, pathExists, i);
      ghost var k :| FirstExistingAt(paths, pathExists, k) && first.value == paths[k];
      assert k == i;
    }
    defaultNodeEnv := if loadedFrom.Some? then None
      else Some(if isProd then "production" else "development");
  }

  /** APP_ROOT: two directories above the compiled main code. */
  function AppRoot(dirname: Path): (root: Path)
    ensures |dirname| >= 2 ==> root == dirname[..|dirname| - 2]
    ensures |dirname| < 2 ==> root == []
  {
    Parent(Parent(dirname))
  }

  /** DIST: the `dist` directory directly under APP_ROOT. */
  function Dist(appRoot: Path): (d: Path)
    ensures |d| == |appRoot| + 1 && d[..|appRoot|] == appRoot && d[|appRoot|] == "dist"
  {
    appRoot + ["dist"]
  }

  /** VITE_PUBLIC: the project's `public` directory while a dev server is
      configured (a non-empty URL), the built `dist` otherwise. */
  function VitePublic(devServerUrl: Option<string>, appRoot: Path): (p: Path)
    ensures |p| == |appRoot| + 1 && p[..|appRoot|] == appRoot
    ensures p[|appRoot|] == "public" <==> devServerUrl.Some? && devServerUrl.value != ""
    ensures p[|appRoot|] == "dist" <==> devServerUrl.None? || devServerUrl.value == ""
  {
    if devServerUrl.Some? && devServerUrl.value != "" then appRoot + ["public"] else Dist(appRoot)
  }

  /** The window-open handler's answer and, possibly, the URL it hands to the
      system browser. */
  datatype WindowOpenDecision = WindowOpenDecision(action: string, openExternally: Option<string>)

  /** Every request for a new window is denied; only `https:` URLs are opened
      in the system browser, unchanged. */
  function OnWindowOpen(url: string): (d: WindowOpenDecision)
    ensures d.action == "deny"
    ensures d.openExternally.Some? <==> StartsWith(url, "https:")
    ensures d.openExternally.Some? ==> d.openExternally.value == url
  {
    WindowOpenDecision("deny", if StartsWith(url, "https:") then Some(url) else None)
  }

  /** What the main window loads. */
  datatype Target = LoadUrl(url: string) | LoadFile(path: Path) | ErrorPage(searchedIn: Path)

  datatype WindowLoad = WindowLoad(target: Target, devTools: bool)

  /** The load decision of `createWindow()`: the dev server when configured;
      else `dist/index.html` when it exists; else the first `index.html` the
      search under APP_ROOT finds; else an error page naming DIST. */
  function ChooseWindowLoad(
    devServerUrl: Option<string>, appRoot: Path, distIndexExists: bool,
    appRootTree: IndexSearch.Listing, nodeEnv: Option<string>): (w: WindowLoad)
    ensures devServerUrl.Some? && devServerUrl.value != "" ==> w == WindowLoad(LoadUrl(devServerUrl.value), true)
    ensures (devServerUrl.None? || devServerUrl.value == "") && distIndexExists ==>
      w == WindowLoad(LoadFile(Dist(appRoot) + [IndexSearch.IndexHtml]), nodeEnv == Some("production"))
    ensures w.target.ErrorPage? ==> w.target.searchedIn == Dist(appRoot) && !w.devTools
    ensures w.target.ErrorPage? <==>
      (devServerUrl.None? || devServerUrl.value == "") && !distIndexExists
      && IndexSearch.Find(appRootTree, appRoot, 0) == []
    ensures (devServerUrl.None? || devServerUrl.value == "") && !distIndexExists && w.target.LoadFile? ==>
      w.target.path == IndexSearch.Find(appRootTree, appRoot, 0)[0]
      && IndexSearch.Shaped(appRoot, 0, w.target.path)
      && IndexSearch.Reaches(appRootTree, w.target.path[|appRoot|..])
  {
    if devServerUrl.Some? && devServerUrl.value != "" then
      WindowLoad(LoadUrl(devServerUrl.value), true)
    else if distIndexExists then
      WindowLoad(LoadFile(Dist(appRoot) + [IndexSearch.IndexHtml]), nodeEnv == Some("production"))
    else
      var found := IndexSearch.Find(appRootTree, appRoot, 0);
      if |found| > 0 then
        IndexSearch.FindSound(appRootTree, appRoot, 0, found[0]);
        WindowLoad(LoadFile(found[0]), false)
      else
        WindowLoad(ErrorPage(Dist(appRoot)), false)
  }

  /** Without a dev server or `dist/index.html`, the window opens the
      `index.html` that comes first in depth-first order: when nothing is
      found before the `i`-th entry of APP_ROOT, it is that entry itself
      or the first file found in its subtree. */
  lemma WindowLoadsFirstInDepthFirstOrder(
    devServerUrl: Option<string>, appRoot: Path, tree: IndexSearch.Listing, nodeEnv: Option<string>, i: nat)
    requires tree.Entries? && i < |tree.entries| && IndexSearch.StatableBefore(tree.entries, i)
    requires IndexSearch.Scan(tree.entries[..i], appRoot, 0) == []
    ensures var w := ChooseWindowLoad(devServerUrl, appRoot, false, tree, nodeEnv);
      var e := tree.entries[i];
      && (devServerUrl.None? || devServerUrl.value == "") && e == IndexSearch.File(IndexSearch.IndexHtml) ==>
          w.target == LoadFile(appRoot + [IndexSearch.IndexHtml])
    ensures var w := ChooseWindowLoad(devServerUrl, appRoot, false, tree, nodeEnv);
      var e := tree.entries[i];
      && (devServerUrl.None? || devServerUrl.value == "") && e.Dir?
      && IndexSearch.Find(e.listing, appRoot + [e.name], 1) != [] ==>
          w.target == LoadFile(IndexSearch.Find(e.listing, appRoot + [e.name], 1)[0])
  {
    IndexSearch.ScanSplitsAt(tree.entries, i, appRoot, 0);
  }

  /** When the tree under APP_ROOT holds an `index.html` within three
      directories that the search can reach (the listings on the way are
      readable and no unstatable entry precedes the one taken), the error
      page is never shown, whatever fails elsewhere in the tree. */
  lemma NoErrorPageWhenIndexReachable(
    devServerUrl: Option<string>, appRoot: Path, distIndexExists: bool,
    tree: IndexSearch.Listing, nodeEnv: Option<string>, rel: seq<string>)
    requires IndexSearch.Reaches(tree, rel)
    requires 1 <= |rel| <= IndexSearch.MaxDepth + 1 && rel[|rel| - 1] == IndexSearch.IndexHtml
    ensures !ChooseWindowLoad(devServerUrl, appRoot, distIndexExists, tree, nodeEnv).target.ErrorPage?
  {
    IndexSearch.FindComplete(tree, appRoot, 0, rel);
  }

  /** The env file that gets loaded: packaged, the resources file whenever it
      exists, else the one beside the executable when that exists; in
      development only the working directory's file can ever be loaded. */
  lemma EnvFileLoaded(isProd: bool, resourcesPath: Option<Path>, exe: Path, cwd: Path, pathExists: Path -> bool)
    ensures var loaded := FirstExisting(EnvPaths(isProd, resourcesPath, exe, cwd), pathExists);
      && (isProd && resourcesPath.Some? && pathExists(resourcesPath.value + [ProductionEnvFile]) ==>
            loaded == Some(resourcesPath.value + [ProductionEnvFile]))
      && (isProd && (resourcesPath.None? || !pathExists(resourcesPath.value + [ProductionEnvFile])) ==>
            loaded == (if pathExists(Parent(exe) + [ProductionEnvFile]) then Some(Parent(exe) + [ProductionEnvFile]) else None))
      && (!isProd ==>
            loaded == (if pathExists(cwd + [DevelopmentEnvFile]) then Some(cwd + [DevelopmentEnvFile]) else None))
  {
    var ps := EnvPaths(isProd, resourcesPath, exe, cwd);
    if isProd && resourcesPath.Some? {
      assert ps[1..] == [Parent(exe) + [ProductionEnvFile]];
      assert ps[1..][1..] == [];
    } else {
      assert ps[1..] == [];
    }
  }

  /** VITE_PUBLIC and the window agree on the mode: VITE_PUBLIC is the
      project's `public` directory exactly when the window loads the dev
      server, and otherwise it is DIST, the directory whose `index.html` the
      window tries first. */
  lemma PublicFollowsWindow(devServerUrl: Option<string>, dirname: Path, distIndexExists: bool,
                            tree: IndexSearch.Listing, nodeEnv: Option<string>)
    ensures var root := AppRoot(dirname);
      var w := ChooseWindowLoad(devServerUrl, root, distIndexExists, tree, nodeEnv);
      var pub := VitePublic(devServerUrl, root);
      && (pub[|root|] == "public" <==> w.target.LoadUrl?)
      && (!w.target.LoadUrl? ==> pub == Dist(root))
      && (!w.target.LoadUrl? && distIndexExists ==> w.target == LoadFile(pub + [IndexSearch.IndexHtml]))
  {
  }

  /** Only the exact lower-case `https:` scheme is opened externally: plain
      `http:` and an upper-case `HTTPS:` are denied and dropped. */
  lemma WindowOpenSchemes(rest: string)
    ensures OnWindowOpen("https:" + rest).openExternally == Some("https:" + rest)
    ensures OnWindowOpen("http:" + rest).openExternally.None?
    ensures OnWindowOpen("HTTPS:" + rest).openExternally.None?
  {
    assert ("https:" + rest)[..6] == "https:";
    assert ("http:" + rest)[4] == ':';
    assert ("HTTPS:" + rest)[0] == 'H';
  }
}
