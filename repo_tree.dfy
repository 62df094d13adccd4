/** An immutable snapshot of the repository tree the analyzer walks, standing for the
    calls `os.listdir`, `os.walk`, `os.path.exists`, `os.path.isfile` and `open(...).read()`
    of scripts/repo_analyzer.py and scripts/copilot_integration.py. */
module RepoTree {
  import opened Strings

  /** What reading a regular file as text gives: its text, or a decoding failure
      (a binary file) with the exception's message. */
  datatype Content = Text(text: string) | Undecodable(reason: string)

  /** One entry that `os.walk` yields: the directory it is in and the file's name. */
  datatype WalkEntry = WalkEntry(dir: string, name: string)

  datatype Tree = Tree(
    root: string,                          // REPO_ROOT
    roles: seq<string>,                    // the role directories under roles/, in listing order
    dirs: set<string>,                     // paths of all existing directories
    files: map<string, Content>,           // paths of all existing regular files
    listings: map<string, seq<string>>,    // entry names of a directory, in `os.listdir` order
    walks: map<string, seq<WalkEntry>>)    // the files `os.walk` yields under a directory, in walk order

  /** `os.path.join(a, b)` for a relative `b`. */
  function PathJoin(a: string, b: string): string
  {
    if a == "" || EndsWith(a, "/") then a + b else a + "/" + b
  }

  /** The joined path starts with the directory and ends with the name. */
  lemma PathJoinEnds(a: string, b: string)
    ensures EndsWith(PathJoin(a, b), b)
    ensures StartsWith(PathJoin(a, b), a)
  {
    EndsWithConcat(a, b);
    StartsWithConcat(a, b);
    EndsWithConcat(a + "/", b);
    StartsWithConcat(a, "/" + b);
    assert a + "/" + b == a + ("/" + b);
  }

  /** `os.path.relpath(p, root)` for a path below `root`; other paths are kept as they are. */
  function RelPath(root: string, p: string): string
  {
    if StartsWith(p, root + "/") then p[|root| + 1..] else p
  }

  function RolesDir(t: Tree): string { PathJoin(t.root, "roles") }

  function TestsDir(t: Tree): string { PathJoin(t.root, "tests") }

  function RolePath(t: Tree, role: string): string { PathJoin(RolesDir(t), role) }

  /** `os.path.exists`: a file or a directory. */
  predicate Exists(t: Tree, p: string) { p in t.dirs || p in t.files }

  /** `os.path.isfile`. */
  predicate IsFile(t: Tree, p: string) { p in t.files }

  /** What `open(p, 'r')` followed by `f.read()` does. */
  datatype ReadResult =
    | Read(text: string)           // the text of the file
    | DecodeError(reason: string)  // `read()` raised UnicodeDecodeError
    | OpenError                    // `open()` raised (the path is a directory or does not exist)

  function ReadFile(t: Tree, p: string): (r: ReadResult)
    ensures r.OpenError? <==> !IsFile(t, p)
  {
    if p in t.files then
      match t.files[p]
      case Text(s) => Read(s)
      case Undecodable(e) => DecodeError(e)
    else OpenError
  }

  /** `os.listdir(d)`: `None` when it raises because `d` is not a directory. */
  function ListDir(t: Tree, d: string): (r: Option<seq<string>>)
    ensures r.Some? <==> d in t.dirs
  {
    if d in t.dirs then Some(if d in t.listings then t.listings[d] else []) else None
  }

  /** The files `os.walk(d)` yields; nothing below a path that is not a directory. */
  function Walk(t: Tree, d: string): seq<WalkEntry>
  {
    if d in t.dirs && d in t.walks then t.walks[d] else []
  }
}
