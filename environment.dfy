/** What the logger reads from and writes to outside itself: the process's
    current directory and name, and the file system, reduced to the set of
    directories that exist and the lines held by each file. */
module Environment {

  /** Directory.GetCurrentDirectory() and Process.GetCurrentProcess().ProcessName. */
  datatype Host = Host(cwd: string, processName: string)

  /** The file system as the logger sees it. `dirs` is every string for which
      Directory.Exists answers true; `files` maps a file name to its lines;
      `failing` holds the paths for which Directory.CreateDirectory throws. */
  class FileSystem {
    var dirs: set<string>
    var files: map<string, seq<string>>
    const failing: set<string>

    constructor (dirs: set<string>, files: map<string, seq<string>>, failing: set<string>)
      ensures this.dirs == dirs && this.files == files && this.failing == failing
    {
      this.dirs := dirs;
      this.files := files;
      this.failing := failing;
    }
  }

  /** The lines of file `name`; a file that does not exist reads as empty. */
  function Lines(files: map<string, seq<string>>, name: string): seq<string>
  {
    if name in files then files[name] else []
  }

  /** The files after opening `name` for append (creating it if absent) and
      writing one line: that file gains exactly `line` at its end and every
      other file is untouched. */
  function Appended(files: map<string, seq<string>>, name: string, line: string): (r: map<string, seq<string>>)
    ensures r.Keys == files.Keys + {name}
    ensures Lines(r, name) == Lines(files, name) + [line]
    ensures |Lines(r, name)| == |Lines(files, name)| + 1
    ensures forall n :: n != name ==> Lines(r, n) == Lines(files, n)
  {
    files[name := Lines(files, name) + [line]]
  }

  /** The files after opening `name` for overwrite and closing it at once:
      that file exists and is empty, every other file is untouched. */
  function Truncated(files: map<string, seq<string>>, name: string): (r: map<string, seq<string>>)
    ensures r.Keys == files.Keys + {name}
    ensures name in r && r[name] == []
    ensures forall n :: n != name ==> Lines(r, n) == Lines(files, n)
  {
    files[name := []]
  }
}
