/**
 * Plugin discovery (browser/src/Plugins/PluginManager.ts): every immediate
 * sub-directory of a plugin root is one plugin, and roots are scanned in the
 * order they were configured. The file system is a read-only snapshot.
 */
module PluginDiscovery {

  /** One entry of a directory listing, with what a `stat` of its joined path says. */
  datatype DirEntry = DirEntry(name: string, isDirectory: bool)

  /** Existing directories and their listings, in listing order; a path that is not a key does not exist. */
  type FileSystem = map<string, seq<DirEntry>>

  /** Joining two path segments; normalisation is not modelled. */
  function Join(dir: string, name: string): string {
    dir + "/" + name
  }

  /** The joined paths of the entries that are directories, in listing order. */
  function DirectoryPaths(root: string, entries: seq<DirEntry>): (r: seq<string>)
    ensures |r| <= |entries|
    ensures forall p :: p in r <==> exists e :: e in entries && e.isDirectory && p == Join(root, e.name)
    decreases |entries|
  {
    if entries == [] then []
    else
      var rest := DirectoryPaths(root, entries[1..]);
      assert forall e :: e in entries <==> e == entries[0] || e in entries[1..];
      if entries[0].isDirectory then [Join(root, entries[0].name)] + rest else rest
  }

  /** Listing a concatenation yields the paths of the first part, then those of the second. */
  lemma {:induction false} DirectoryPathsAppend(root: string, a: seq<DirEntry>, b: seq<DirEntry>)
    ensures DirectoryPaths(root, a + b) == DirectoryPaths(root, a) + DirectoryPaths(root, b)
    decreases |a|
  {
    if a == [] {
      assert a + b == b;
    } else {
      assert (a + b)[1..] == a[1..] + b;
      DirectoryPathsAppend(root, a[1..], b);
    }
  }

  /** A single entry yields its joined path exactly when it is a directory. */
  lemma DirectoryPathsSingleton(root: string, e: DirEntry)
    ensures DirectoryPaths(root, [e]) == if e.isDirectory then [Join(root, e.name)] else []
  {
  }

  /** The number of entries that are directories. */
  function DirectoryEntryCount(entries: seq<DirEntry>): nat
    decreases |entries|
  {
    if entries == [] then 0
    else (if entries[0].isDirectory then 1 else 0) + DirectoryEntryCount(entries[1..])
  }

  /** Exactly one path per directory entry: a sub-directory listed twice is found twice. */
  lemma {:induction false} DirectoryPathsLength(root: string, entries: seq<DirEntry>)
    ensures |DirectoryPaths(root, entries)| == DirectoryEntryCount(entries)
    decreases |entries|
  {
    if entries != [] {
      DirectoryPathsLength(root, entries[1..]);
    }
  }

  /** The plugin directories directly under `root`; a missing root has none. */
  function GetDirectories(fs: FileSystem, root: string): (r: seq<string>)
    ensures root !in fs ==> r == []
    ensures root in fs ==> |r| <= |fs[root]|
    ensures forall p :: p in r <==> root in fs && exists e :: e in fs[root] && e.isDirectory && p == Join(root, e.name)
  {
    if root !in fs then [] else DirectoryPaths(root, fs[root])
  }

  /** The plugin directories of all roots: each root's, concatenated in root order. */
  function AllPluginPaths(fs: FileSystem, roots: seq<string>): (r: seq<string>)
    ensures forall p :: p in r <==> exists root :: root in roots && p in GetDirectories(fs, root)
    decreases |roots|
  {
    if roots == [] then []
    else
      var rest := AllPluginPaths(fs, roots[1..]);
      assert forall root :: root in roots <==> root == roots[0] || root in roots[1..];
      GetDirectories(fs, roots[0]) + rest
  }

  /** Discovery over concatenated root lists is the concatenation of the discoveries, in order. */
  lemma {:induction false} AllPluginPathsAppend(fs: FileSystem, a: seq<string>, b: seq<string>)
    ensures AllPluginPaths(fs, a + b) == AllPluginPaths(fs, a) + AllPluginPaths(fs, b)
    decreases |a|
  {
    if a == [] {
      assert a + b == b;
    } else {
      assert (a + b)[1..] == a[1..] + b;
      AllPluginPathsAppend(fs, a[1..], b);
    }
  }

  lemma AllPluginPathsSingleton(fs: FileSystem, root: string)
    ensures AllPluginPaths(fs, [root]) == GetDirectories(fs, root)
  {
  }

  /** Adding a root at the end appends its directories after those of every earlier root. */
  lemma AllPluginPathsSnoc(fs: FileSystem, roots: seq<string>, root: string)
    ensures AllPluginPaths(fs, roots + [root]) == AllPluginPaths(fs, roots) + GetDirectories(fs, root)
  {
    AllPluginPathsAppend(fs, roots, [root]);
    AllPluginPathsSingleton(fs, root);
  }

  /** Roots that do not exist contribute nothing: dropping them changes nothing. */
  lemma {:induction false} MissingRootsContributeNothing(fs: FileSystem, roots: seq<string>, missing: string)
    requires missing !in fs
    ensures AllPluginPaths(fs, roots + [missing]) == AllPluginPaths(fs, roots)
    ensures AllPluginPaths(fs, [missing] + roots) == AllPluginPaths(fs, roots)
  {
    AllPluginPathsSnoc(fs, roots, missing);
    assert ([missing] + roots)[1..] == roots;
  }

  /** The number of plugins found is the sum over the roots of their directory counts. */
  function DirectoryCount(fs: FileSystem, roots: seq<string>): nat
    decreases |roots|
  {
    if roots == [] then 0 else |GetDirectories(fs, roots[0])| + DirectoryCount(fs, roots[1..])
  }

  lemma {:induction false} AllPluginPathsLength(fs: FileSystem, roots: seq<string>)
    ensures |AllPluginPaths(fs, roots)| == DirectoryCount(fs, roots)
    decreases |roots|
  {
    if roots != [] {
      AllPluginPathsLength(fs, roots[1..]);
    }
  }
}
