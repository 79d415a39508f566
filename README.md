# CSLogger in Dafny

A model of the `Logger` class of CSLogger, a small leveled file logger. A
logger holds a working directory, a program name, a level filter
(`LogMessageType`: `ALL`, `INFO`, `DEBUG`, `WARN`, `ERROR`) and the log file
name derived from the first two. Each write appends one line
made of a prefix, the timestamp, a bar and the text to that file when the filter accepts the
line's level. `clear` empties the file. Loggers are built by three
constructors and four `CreateFilteredLogger` overloads, one of which reads
command-line tokens (`--type/-t`, `--path/-p`, `--logname/-ln`,
`--clear/-c`).

Modules, in dependency order:

- `Levels` (`levels.dfy`): the enumeration, `Enum.TryParse` on level names,
  the per-level line prefixes and the line format.
- `Environment` (`environment.dfy`): what the logger reads and changes
  outside itself. `Host` holds the current directory and the process name.
  The `FileSystem` class holds three things: the directories
  `Directory.Exists` accepts, the lines of every file, and the paths whose
  creation throws.
- `Paths` (`paths.dfy`): `linuxPathToWindowsPath` (a loop method proved
  against the function `Backslashed`), `validatePathEnding`, `validateName`,
  and `validatePath`. `validatePath` is a method that may create a
  directory. It is proved against the functions `ResolvedPath` and
  `DirsAfter`.
- `Commands` (`commands.dfy`): `parseCommands` (a loop method proved against
  the function `Parsed`) and the walk over the pairs in
  `CreateFilteredLogger(string[])`. The walk is specified by `Fold`, with
  lemmas saying which pair decides each option.
- `Logging` (`logging.dfy`): the `Logger` class with its fields,
  constructors, factory methods, `clear` and the `log*` writes.

Ambient inputs are parameters. These are the current directory, the process
name (`Host`), the timestamp string of each write, the file system and the
set of paths whose directory creation fails (`FileSystem`).

Quirks of the source that the model keeps:

- `validatePath` tests existence on the path as given. It normalises only
  when that test fails, so an existing path comes back unnormalised.
- An empty normalised path skips creation and resolves to `""`.
- In `CreateFilteredLogger(string[])`, `Enum.TryParse` resets its
  out-parameter to `ALL` when parsing fails. So a later unparseable `--type`
  undoes an earlier valid one.
- When pairs exist but no `--path` (or no `--logname`) is among them, the
  logger is built with the directory `""` (or the name `""`), not the
  default logger's. Its log file is then `\<name>_log.txt` without a
  `--path`, `<dir>\_log.txt` without a `--logname`, and `\_log.txt`
  without either.
- The path and the name go through validation twice: once in the walk over
  the pairs and once more in the constructor. `ResolvedPathFixesExisting` and
  `ValidateNameIdempotent` show that the second pass changes nothing when
  the current directory exists.

## Model

| member | source | states |
|---|---|---|
| `Levels.TryParseLevel` | CSLogger/Logger.cs:6-13 | a result is returned exactly when the string is one of the five member names, and it is the member with that name |
| `Levels.ParseOrDefault` | CSLogger/Logger.cs:104 | the out-parameter of `Enum.TryParse`: the named level, or `ALL` when the string names no level |
| `Levels.ParseOrDefaultRoundTrip` | CSLogger/Logger.cs:104 | every level's name parses back to that level |
| `Levels.Prefix` | CSLogger/Logger.cs:286-341 | `ALL` gets two tabs; every other level gets 8 characters: its name padded with spaces to 5 characters, then a space, a bar and a space |
| `Levels.FormatLine` | CSLogger/Logger.cs:286 | a line is the prefix, then the timestamp, then a space-bar-space separator, then the caller's text, with that exact length |
| `Levels.FormatLineTellsLevel` | CSLogger/Logger.cs:286-341 | the first character of a formatted line identifies its level, so lines of different levels never coincide |
| `Environment.Appended` | CSLogger/Logger.cs:288-291 | appending creates the file if absent and adds exactly the one entry (one `WriteLine`) at its end; no other file changes |
| `Environment.Truncated` | CSLogger/Logger.cs:248 | truncating leaves the file present with zero lines; no other file changes |
| `Paths.Backslashed` | CSLogger/Logger.cs:138-154 | same length as the input; each `/` becomes `\` and every other character is kept in place; no `/` remains |
| `Paths.BackslashedIdempotent` | CSLogger/Logger.cs:138-154 | converting twice equals converting once |
| `Paths.BackslashedKeepsWindowsPath` | CSLogger/Logger.cs:138-154 | a path with no `/` is returned unchanged |
| `Paths.LinuxPathToWindowsPath` | CSLogger/Logger.cs:138-154 | the character-by-character loop builds exactly `Backslashed(path)` |
| `Paths.ValidatePathEnding` | CSLogger/Logger.cs:227-239 | the input is unchanged iff it is empty or does not end in `\`; otherwise exactly one trailing `\` is dropped (so `"\"` becomes `""`) |
| `Paths.ValidateName` | CSLogger/Logger.cs:191-199 | a name without `.` is returned unchanged; a name with `.` yields the current directory; the result has no `.` when the current directory has none |
| `Paths.ValidateNameIdempotent` | CSLogger/Logger.cs:191-199 | validating an already validated name changes nothing |
| `Paths.Normalised` | CSLogger/Logger.cs:208-209 | the path handed to directory creation has no `/` and is at most one character shorter than the input |
| `Paths.ResolvedPath` | CSLogger/Logger.cs:202-224 | when the current directory exists, the result is `""` or a directory that exists afterwards; for a path not already existing, the result is the current directory or has no `/` |
| `Paths.DirsAfter` | CSLogger/Logger.cs:211-214 | validation creates at most one directory, the normalised path, and removes none |
| `Paths.SeparatorOnlyResolvesEmpty` | CSLogger/Logger.cs:209-214 | `""`, `"/"` or `"\"` that does not exist resolves to `""` and creates nothing |
| `Paths.ResolvedPathFixesExisting` | CSLogger/Logger.cs:204-223 | an existing path, or `""`, resolves to itself (unnormalised) and creates nothing |
| `Paths.ResolvedPathIdempotent` | CSLogger/Logger.cs:202-224 | when the current directory exists, resolving a resolved path again returns it and creates nothing |
| `Paths.ValidatePath` | CSLogger/Logger.cs:202-224 | returns `ResolvedPath` of the old directories and leaves the directories as `DirsAfter`; file contents unchanged |
| `Commands.PositionsMatchPairs` | CSLogger/Logger.cs:159-181 | there is exactly one source position per produced pair |
| `Commands.ParsedAt` | CSLogger/Logger.cs:159-181 | each pair comes from a recognised flag at its position; a value flag's pair carries the very next token, so a value flag needs a following token; a clear flag's pair carries `""` |
| `Commands.ParsedComplete` | CSLogger/Logger.cs:159-181 | every recognised flag the loop stops at yields a pair at its own position: a clear flag gives (flag, `""`), a value flag with a following token gives (flag, that token) |
| `Commands.PositionsVisited` | CSLogger/Logger.cs:159-181 | every pair's position is one the loop stops at, stepping over the token after each value flag |
| `Commands.ParsedInOrder` | CSLogger/Logger.cs:165-172 | consecutive pairs come from increasing positions, and the token a value flag takes is skipped, never the source of the next pair |
| `Commands.ParsedFromLength` | CSLogger/Logger.cs:157-182 | parsing from position `i` yields at most as many pairs as tokens remain |
| `Commands.DanglingFlagIgnored` | CSLogger/Logger.cs:165-171 | a value flag alone yields no pair |
| `Commands.ParseCommands` | CSLogger/Logger.cs:157-182 | the index loop (with its skip of value tokens) produces exactly `Parsed(args)`, at most one pair per token |
| `Commands.LastValue` | CSLogger/Logger.cs:100-118 | there is no last value for a set of flags iff no pair has one of those flags |
| `Commands.FoldLevel` | CSLogger/Logger.cs:102-105 | the filter comes from the last `--type`/`-t` pair alone (`ALL` if it names no level); it is left alone when there is no such pair |
| `Commands.FoldName` | CSLogger/Logger.cs:114-117 | the name is the validated value of the last `--logname`/`-ln` pair; it is left alone when there is no such pair |
| `Commands.FoldClear` | CSLogger/Logger.cs:106-109 | the clear flag ends set iff it started set or some pair is `--clear`/`-c` |
| `Commands.FoldPath` | CSLogger/Logger.cs:110-113 | directories only grow; with no `--path`/`-p` pair, path and directories are unchanged |
| `Commands.FoldPathLast` | CSLogger/Logger.cs:110-113 | when pair j is the last `--path`/`-p` pair, the path is its value resolved against the directories left by the pairs before j, the directories are those `validatePath` leaves for it, and later pairs change neither |
| `Commands.FoldKeepsResolved` | CSLogger/Logger.cs:100-118 | with an existing current directory, the chosen path stays `""` or an existing directory, and the chosen name stays validated |
| `Commands.ErrorExampleParsed` | CSLogger/Logger.cs:157-182 | the tokens `--type ERROR --path /tmp/x --logname svc` give exactly three pairs, in that order |
| `Commands.ErrorExampleFold` | CSLogger/Logger.cs:100-118 | those pairs give the filter `ERROR`, no clear, the created directory `\tmp\x` and the name `svc`, whenever the path does not exist yet and can be created |
| `Logging.Logger.GetName` | CSLogger/Logger.cs:252-255 | the file name splits into the directory, `\`, the program name and `_log.txt` |
| `Logging.Logger.constructor` | CSLogger/Logger.cs:31-36 | current directory, unvalidated process name, filter `ALL`, file name derived from both |
| `Logging.Logger.Named` | CSLogger/Logger.cs:40-45 | current directory, validated name, filter `ALL`, derived file name |
| `Logging.Logger.AtPath` | CSLogger/Logger.cs:49-54 | resolved directory (created if needed), validated name, filter `ALL`, derived file name; file contents unchanged |
| `Logging.Logger.SetFilter` | CSLogger/Logger.cs:185-188 | only the filter changes; the file name stays derived |
| `Logging.Logger.CreateFilteredLogger` | CSLogger/Logger.cs:57-62 | the default logger with the given filter |
| `Logging.Logger.CreateFilteredNamedLogger` | CSLogger/Logger.cs:65-70 | the named logger with the given filter |
| `Logging.Logger.CreateFilteredPathLogger` | CSLogger/Logger.cs:73-78 | the path-and-name logger with the given filter |
| `Logging.Logger.CreateLoggerFromArgs` | CSLogger/Logger.cs:81-131 | no pairs: the default logger and nothing touched; otherwise the directory, name, filter and created directories are those of the fold over the pairs, and the log file is truncated iff a clear pair is present |
| `Logging.Logger.ApplyCommands` | CSLogger/Logger.cs:88-118 | the foreach over the pairs, starting from `ALL`, no clear, `""` and `""`, ends in the state `Fold` gives and creates the directories `Fold` gives; files unchanged |
| `Logging.Logger.Clear` | CSLogger/Logger.cs:246-249 | the log file is present with zero lines; nothing else changes |
| `Logging.Logger.WriteLine` | CSLogger/Logger.cs:288-291 | exactly one entry (the text of one `WriteLine`) is appended to the log file |
| `Logging.Logger.WriteIfAccepted` | CSLogger/Logger.cs:297-305 | one formatted line is appended iff the filter accepts the level; otherwise no file changes |
| `Logging.Logger.LogAll` | CSLogger/Logger.cs:284-292 | always appends exactly one two-tab-prefixed line |
| `Logging.Logger.LogInfo` | CSLogger/Logger.cs:295-306 | appends one entry with the `INFO` tag iff the filter is `ALL` or `INFO`; otherwise no file changes |
| `Logging.Logger.LogDebug` | CSLogger/Logger.cs:309-320 | appends one entry with the `DEBUG` tag iff the filter is `ALL` or `DEBUG`; otherwise no file changes |
| `Logging.Logger.LogWarn` | CSLogger/Logger.cs:323-334 | appends one entry with the `WARN` tag iff the filter is `ALL` or `WARN`; otherwise no file changes |
| `Logging.Logger.LogError` | CSLogger/Logger.cs:337-348 | appends one entry with the `ERROR` tag iff the filter is `ALL` or `ERROR`; otherwise no file changes |
| `Logging.Logger.Log` | CSLogger/Logger.cs:258-281 | always appends exactly one entry, formatted at the configured level; the directories are unchanged |
| `Logging.ErrorFilterScenario` | CSLogger/Logger.cs:81-131 | a caller passes `--type ERROR --path /tmp/x --logname svc`, then logs one error line and one info line; the logger writes into `\tmp\x` and its file holds only the error line |

## Left out

- Real file I/O: encoding, line endings, the open and close of the
  `StreamWriter`, and write failures (which the source does not catch). A
  file is a sequence of entries, one per `WriteLine` call, each holding the
  text that call wrote. Line breaks inside a message, which would put
  several physical lines in the file, are not modelled.
- `DateTime.Now.ToString()`: the timestamp is an opaque string parameter of
  each write.
- `Directory.GetCurrentDirectory()` and the process name: fields of `Host`,
  fixed for the run.
- `Directory.Exists` is membership of the exact string in `FileSystem.dirs`.
  Equivalent spellings of one directory (`a\` and `a`, relative and
  absolute) are distinct strings here.
- `Directory.CreateDirectory` either succeeds and adds its path to
  `FileSystem.dirs`, or throws, for the paths in `FileSystem.failing`.
  Parent directories it would also create are not added. Partial creation
  before a failure is not modelled.
- The message that `validatePath` prints on a failed creation: console
  output is not modelled.
- `Enum.TryParse` is limited to exact, case-sensitive matches of the five
  names. Numeric strings, comma-separated names and surrounding whitespace
  are not modelled.
- Logging.Logger.CreateLoggerFromArgs: requires that the current directory
  is in `FileSystem.dirs`. This holds of every running process. Without it,
  the second validation in the constructor could create a directory that
  the first validation did not.
- CSLogger/LoggerTester.cs, the demonstration harness: its `Main` calls
  nothing.
