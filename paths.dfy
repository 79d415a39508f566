/** Path and name helpers of the logger: separator conversion, the trailing
    separator rule, logger-name validation and directory resolution. */
module Paths {
  import opened Environment

  /** One character of linuxPathToWindowsPath: '/' becomes '\'. */
  function ToBackslash(c: char): char
  {
    if c == '/' then '\\' else c
  }

  /** The string linuxPathToWindowsPath builds: every '/' replaced by '\',
      every other character kept, in place. */
  function Backslashed(path: string): (r: string)
    ensures |r| == |path|
    ensures forall i :: 0 <= i < |path| ==> r[i] == ToBackslash(path[i])
    ensures '/' !in r
    decreases |path|
  {
    if path == [] then []
    else Backslashed(path[..|path| - 1]) + [ToBackslash(path[|path| - 1])]
  }

  /** Converting twice is converting once. */
  lemma BackslashedIdempotent(path: string)
    ensures Backslashed(Backslashed(path)) == Backslashed(path)
  {
  }

  /** A path that has no '/' is left as it is. */
  lemma BackslashedKeepsWindowsPath(path: string)
    requires '/' !in path
    ensures Backslashed(path) == path
  {
  }

  /** linuxPathToWindowsPath: builds the result one character at a time. */
  method LinuxPathToWindowsPath(path: string) returns (tempPath: string)
    ensures tempPath == Backslashed(path)
  {
    tempPath := "";
    for i := 0 to |path|
      invariant tempPath == Backslashed(path[..i])
    {
      assert path[..i + 1][..i] == path[..i];
      if path[i] == '/' {
        tempPath := tempPath + "\\";
      } else {
        tempPath := tempPath + [path[i]];
      }
    }
    assert path[..|path|] == path;
  }

  /** validatePathEnding: drops one trailing '\', and only one; a path that is
      a lone '\' becomes empty. */
  function ValidatePathEnding(path: string): (r: string)
    ensures path == r || path == r + "\\"
    ensures r == path <==> (|path| == 0 || path[|path| - 1] != '\\')
  {
    if |path| > 1 && path[|path| - 1] == '\\' then path[..|path| - 1]
    else if |path| == 1 && path[|path| - 1] == '\\' then ""
    else path
  }

  /** validateName: a name that contains '.' is replaced by the current
      directory; any other name, the empty one included, is kept. */
  function ValidateName(name: string, cwd: string): (r: string)
    ensures '.' !in name ==> r == name
    ensures '.' in name ==> r == cwd
    ensures '.' !in cwd ==> '.' !in r
  {
    if '.' in name then cwd else name
  }

  /** Validating a validated name changes nothing. */
  lemma ValidateNameIdempotent(name: string, cwd: string)
    ensures ValidateName(ValidateName(name, cwd), cwd) == ValidateName(name, cwd)
  {
  }

  /** The path validatePath hands to Directory.CreateDirectory. */
  function Normalised(path: string): (r: string)
    ensures '/' !in r
    ensures |r| == |path| || |r| + 1 == |path|
  {
    ValidatePathEnding(Backslashed(path))
  }

  /** The directory validatePath returns, given the directories that exist
      and the paths whose creation throws: an existing path is returned as it
      was given (not normalised); otherwise the normalised path, or "" when
      normalisation leaves nothing, or the current directory when creation
      fails. */
  function ResolvedPath(path: string, dirs: set<string>, failing: set<string>, cwd: string): (r: string)
    ensures cwd in dirs ==> r == "" || r in DirsAfter(path, dirs, failing)
    ensures path !in dirs ==> r == cwd || '/' !in r
  {
    if path in dirs then path
    else if Normalised(path) == "" then ""
    else if Normalised(path) in failing then cwd
    else Normalised(path)
  }

  /** The directories that exist after validatePath: the normalised path is
      added exactly when it is created. */
  function DirsAfter(path: string, dirs: set<string>, failing: set<string>): (r: set<string>)
    ensures dirs <= r
    ensures r - dirs <= {Normalised(path)}
  {
    if path in dirs || Normalised(path) == "" || Normalised(path) in failing then dirs
    else dirs + {Normalised(path)}
  }

  /** An empty path, or one that is a single separator, resolves to "" and
      creates nothing (unless Directory.Exists already accepts it). */
  lemma SeparatorOnlyResolvesEmpty(path: string, dirs: set<string>, failing: set<string>, cwd: string)
    requires path == "" || path == "/" || path == "\\"
    requires path !in dirs
    ensures ResolvedPath(path, dirs, failing, cwd) == ""
    ensures DirsAfter(path, dirs, failing) == dirs
  {
  }

  /** A path that already exists, or the empty path, resolves to itself and
      creates nothing. */
  lemma ResolvedPathFixesExisting(path: string, dirs: set<string>, failing: set<string>, cwd: string)
    requires path == "" || path in dirs
    ensures ResolvedPath(path, dirs, failing, cwd) == path
    ensures DirsAfter(path, dirs, failing) == dirs
  {
  }

  /** Resolving the result of a resolution again returns it unchanged and
      creates nothing, as long as the current directory exists. */
  lemma ResolvedPathIdempotent(path: string, dirs: set<string>, failing: set<string>, cwd: string)
    requires cwd in dirs
    ensures var r, d := ResolvedPath(path, dirs, failing, cwd), DirsAfter(path, dirs, failing);
      ResolvedPath(r, d, failing, cwd) == r && DirsAfter(r, d, failing) == d
  {
  }

  /** validatePath. */
  method ValidatePath(path: string, cwd: string, fs: FileSystem) returns (r: string)
    modifies fs
    ensures r == ResolvedPath(path, old(fs.dirs), fs.failing, cwd)
    ensures fs.dirs == DirsAfter(path, old(fs.dirs), fs.failing)
    ensures fs.files == old(fs.files)
  {
    r := path;
    if path !in fs.dirs {
      r := LinuxPathToWindowsPath(r);
      r := ValidatePathEnding(r);
      if r != "" {
        if r in fs.failing {
          // Directory.CreateDirectory threw: the message is printed and the
          // current directory is returned instead.
          return cwd;
        }
        fs.dirs := fs.dirs + {r};
      }
    }
  }
}
