/** The Logger class: its four fields, its constructors and factory methods,
    and the level-filtered writes to its log file. */
module Logging {
  import opened Levels
  import opened Environment
  import opened Paths
  import opened Commands

  class Logger {
    var logFileName: string
    var programName: string
    var messageType: Level
    var workingDirectory: string

    /** The stored file name is always the one derived from the directory and
        the program name. */
    ghost predicate Valid()
      reads this
    {
      logFileName == GetName()
    }

    /** getName: directory, a backslash, the program name and "_log.txt". */
    function GetName(): (r: string)
      reads this
      ensures |r| == |workingDirectory| + 1 + |programName| + 8
      ensures r[..|workingDirectory|] == workingDirectory
      ensures r[|workingDirectory|] == '\\'
      ensures r[|workingDirectory| + 1..|r| - 8] == programName
      ensures r[|r| - 8..] == "_log.txt"
    {
      workingDirectory + "\\" + programName + "_log.txt"
    }

    /** Logger(): the current directory and the process name, unvalidated. */
    constructor (host: Host)
      ensures Valid()
      ensures workingDirectory == host.cwd && programName == host.processName && messageType == ALL
    {
      workingDirectory := host.cwd;
      programName := host.processName;
      messageType := ALL;
      logFileName := "";
      new;
      logFileName := GetName();
    }

    /** Logger(loggerName): the current directory and the validated name. */
    constructor Named(loggerName: string, host: Host)
      ensures Valid()
      ensures workingDirectory == host.cwd && programName == ValidateName(loggerName, host.cwd)
      ensures messageType == ALL
    {
      workingDirectory := host.cwd;
      programName := ValidateName(loggerName, host.cwd);
      messageType := ALL;
      logFileName := "";
      new;
      logFileName := GetName();
    }

    /** Logger(directoryPath, loggerName): the resolved directory (which may be
        created) and the validated name. */
    constructor AtPath(directoryPath: string, loggerName: string, host: Host, fs: FileSystem)
      modifies fs
      ensures Valid()
      ensures workingDirectory == ResolvedPath(directoryPath, old(fs.dirs), fs.failing, host.cwd)
      ensures programName == ValidateName(loggerName, host.cwd)
      ensures messageType == ALL
      ensures fs.dirs == DirsAfter(directoryPath, old(fs.dirs), fs.failing)
      ensures fs.files == old(fs.files)
    {
      var dir := ValidatePath(directoryPath, host.cwd, fs);
      workingDirectory := dir;
      programName := ValidateName(loggerName, host.cwd);
      messageType := ALL;
      logFileName := "";
      new;
      logFileName := GetName();
    }

    /** setFilter. */
    method SetFilter(t: Level)
      modifies this
      ensures messageType == t
      ensures logFileName == old(logFileName) && programName == old(programName)
      ensures workingDirectory == old(workingDirectory)
      ensures old(Valid()) ==> Valid()
    {
      messageType := t;
    }

    /** CreateFilteredLogger(type). */
    static method CreateFilteredLogger(t: Level, host: Host) returns (logger: Logger)
      ensures fresh(logger) && logger.Valid()
      ensures logger.workingDirectory == host.cwd && logger.programName == host.processName
      ensures logger.messageType == t
    {
      logger := new Logger(host);
      logger.SetFilter(t);
    }

    /** CreateFilteredLogger(loggerName, type). */
    static method CreateFilteredNamedLogger(loggerName: string, t: Level, host: Host) returns (logger: Logger)
      ensures fresh(logger) && logger.Valid()
      ensures logger.workingDirectory == host.cwd
      ensures logger.programName == ValidateName(loggerName, host.cwd)
      ensures logger.messageType == t
    {
      logger := new Logger.Named(loggerName, host);
      logger.SetFilter(t);
    }

    /** CreateFilteredLogger(directoryPath, loggerName, type). */
    static method CreateFilteredPathLogger(directoryPath: string, loggerName: string, t: Level, host: Host, fs: FileSystem)
      returns (logger: Logger)
      modifies fs
      ensures fresh(logger) && logger.Valid()
      ensures logger.workingDirectory == ResolvedPath(directoryPath, old(fs.dirs), fs.failing, host.cwd)
      ensures logger.programName == ValidateName(loggerName, host.cwd)
      ensures logger.messageType == t
      ensures fs.dirs == DirsAfter(directoryPath, old(fs.dirs), fs.failing)
      ensures fs.files == old(fs.files)
    {
      logger := new Logger.AtPath(directoryPath, loggerName, host, fs);
      logger.SetFilter(t);
    }

    /** CreateFilteredLogger(string[]): no recognised pair gives the default
        logger and touches nothing; otherwise the logger carries the folded
        options (the last --type, --path and --logname win; with no --path
        the directory is "" and with no --logname the name is ""), and the
        log file is emptied when a --clear/-c pair is present. */
    static method CreateLoggerFromArgs(commandArgs: seq<string>, host: Host, fs: FileSystem) returns (logger: Logger)
      requires host.cwd in fs.dirs
      modifies fs
      ensures fresh(logger) && logger.Valid()
      ensures Parsed(commandArgs) == [] ==>
        logger.workingDirectory == host.cwd && logger.programName == host.processName &&
        logger.messageType == ALL && fs.dirs == old(fs.dirs) && fs.files == old(fs.files)
      ensures Parsed(commandArgs) != [] ==>
        var st := Fold(Parsed(commandArgs), Initial(old(fs.dirs)), fs.failing, host.cwd);
        logger.workingDirectory == st.path && logger.programName == st.name &&
        logger.messageType == st.level && fs.dirs == st.dirs &&
        fs.files == if st.clear then Truncated(old(fs.files), logger.logFileName) else old(fs.files)
    {
      var commands := ParseCommands(commandArgs);
      // If no commands (or an invalid command line), the default logger.
      if |commands| == 0 {
        logger := new Logger(host);
        return;
      }
      var t, clear, path, filename := ApplyCommands(commands, host, fs);
      FoldKeepsResolved(commands, Initial(old(fs.dirs)), fs.failing, host.cwd);
      // The constructor validates the path and the name a second time; both
      // are already in their validated form, so nothing changes.
      ResolvedPathFixesExisting(path, fs.dirs, fs.failing, host.cwd);
      ValidateNameIdempotent(filename, host.cwd);
      logger := CreateFilteredPathLogger(path, filename, t, host, fs);
      if clear {
        logger.Clear(fs);
      }
    }

    /** The foreach of CreateFilteredLogger(string[]) over the pairs, from the
        defaults ALL, no clear, empty path and empty name. */
    static method ApplyCommands(commands: seq<Pair>, host: Host, fs: FileSystem)
      returns (t: Level, clear: bool, path: string, filename: string)
      modifies fs
      ensures ArgState(t, clear, path, filename, fs.dirs) == Fold(commands, Initial(old(fs.dirs)), fs.failing, host.cwd)
      ensures fs.files == old(fs.files)
    {
      t, clear, path, filename := ALL, false, "", "";
      for i := 0 to |commands|
        invariant ArgState(t, clear, path, filename, fs.dirs) == Fold(commands[..i], Initial(old(fs.dirs)), fs.failing, host.cwd)
        invariant fs.files == old(fs.files)
      {
        assert commands[..i + 1][..i] == commands[..i];
        var command := commands[i];
        if command.key == "--type" || command.key == "-t" {
          // Enum.TryParse resets its out-parameter to ALL when parsing fails.
          t := ParseOrDefault(command.value);
        } else if command.key == "--clear" || command.key == "-c" {
          clear := true;
        } else if command.key == "--path" || command.key == "-p" {
          path := ValidatePath(command.value, host.cwd, fs);
        } else if command.key == "--logname" || command.key == "-ln" {
          filename := ValidateName(command.value, host.cwd);
        }
      }
      assert commands[..|commands|] == commands;
    }

    /** clear: the log file exists afterwards and holds no line. */
    method Clear(fs: FileSystem)
      modifies fs
      ensures fs.files == Truncated(old(fs.files), logFileName)
      ensures fs.dirs == old(fs.dirs)
    {
      fs.files := fs.files[logFileName := []];
    }

    /** Opens the log file for append and writes one line. */
    method WriteLine(line: string, fs: FileSystem)
      modifies fs
      ensures fs.files == Appended(old(fs.files), logFileName, line)
      ensures fs.dirs == old(fs.dirs)
    {
      fs.files := fs.files[logFileName := Lines(fs.files, logFileName) + [line]];
    }

    /** The write shared by logInfo, logDebug, logWarn and logError: one
        formatted line when the filter accepts `level`, nothing otherwise. */
    method WriteIfAccepted(level: Level, line: string, timestamp: string, fs: FileSystem)
      modifies fs
      ensures fs.files == if Accepts(messageType, level)
        then Appended(old(fs.files), logFileName, FormatLine(level, timestamp, line))
        else old(fs.files)
      ensures fs.dirs == old(fs.dirs)
    {
      if messageType == level || messageType == ALL {
        WriteLine(FormatLine(level, timestamp, line), fs);
      }
    }

    /** logAll: always writes, with the two-tab prefix. */
    method LogAll(line: string, timestamp: string, fs: FileSystem)
      modifies fs
      ensures fs.files == Appended(old(fs.files), logFileName, FormatLine(ALL, timestamp, line))
      ensures fs.dirs == old(fs.dirs)
    {
      WriteLine(FormatLine(ALL, timestamp, line), fs);
    }

    /** logInfo. */
    method LogInfo(line: string, timestamp: string, fs: FileSystem)
      modifies fs
      ensures fs.files == if messageType in {ALL, INFO}
        then Appended(old(fs.files), logFileName, FormatLine(INFO, timestamp, line))
        else old(fs.files)
      ensures fs.dirs == old(fs.dirs)
    {
      WriteIfAccepted(INFO, line, timestamp, fs);
    }

    /** logDebug. */
    method LogDebug(line: string, timestamp: string, fs: FileSystem)
      modifies fs
      ensures fs.files == if messageType in {ALL, DEBUG}
        then Appended(old(fs.files), logFileName, FormatLine(DEBUG, timestamp, line))
        else old(fs.files)
      ensures fs.dirs == old(fs.dirs)
    {
      WriteIfAccepted(DEBUG, line, timestamp, fs);
    }

    /** logWarn. */
    method LogWarn(line: string, timestamp: string, fs: FileSystem)
      modifies fs
      ensures fs.files == if messageType in {ALL, WARN}
        then Appended(old(fs.files), logFileName, FormatLine(WARN, timestamp, line))
        else old(fs.files)
      ensures fs.dirs == old(fs.dirs)
    {
      WriteIfAccepted(WARN, line, timestamp, fs);
    }

    /** logError. */
    method LogError(line: string, timestamp: string, fs: FileSystem)
      modifies fs
      ensures fs.files == if messageType in {ALL, ERROR}
        then Appended(old(fs.files), logFileName, FormatLine(ERROR, timestamp, line))
        else old(fs.files)
      ensures fs.dirs == old(fs.dirs)
    {
      WriteIfAccepted(ERROR, line, timestamp, fs);
    }

    /** log: writes exactly one line, at the level the logger is configured
        for, whatever that level is. */
    method Log(line: string, timestamp: string, fs: FileSystem)
      modifies fs
      ensures fs.files == Appended(old(fs.files), logFileName, FormatLine(messageType, timestamp, line))
      ensures fs.dirs == old(fs.dirs)
    {
      if messageType == ALL {
        LogAll(line, timestamp, fs);
      } else if messageType == INFO {
        LogInfo(line, timestamp, fs);
      } else if messageType == DEBUG {
        LogDebug(line, timestamp, fs);
      } else if messageType == WARN {
        LogWarn(line, timestamp, fs);
      } else if messageType == ERROR {
        LogError(line, timestamp, fs);
      }
    }
  }

  /** A caller's view: a logger configured from the command line
      "--type ERROR --path /tmp/x --logname svc" in a fresh file system keeps
      an error line and drops an info line. The directory it writes into is
      the normalised path, which it creates. */
  method ErrorFilterScenario(timestamp: string) returns (dir: string, lines: seq<string>)
    ensures dir == "\\tmp\\x"
    ensures |lines| == 1 && lines[0] == FormatLine(ERROR, timestamp, "boom")
  {
    var host := Host("C:\\work", "app");
    var fs := new FileSystem({host.cwd}, map[], {});
    var args := ["--type", "ERROR", "--path", "/tmp/x", "--logname", "svc"];
    ErrorExampleParsed();
    ErrorExampleFold(fs.dirs, fs.failing, host.cwd);
    var logger := Logger.CreateLoggerFromArgs(args, host, fs);
    assert logger.messageType == ERROR && fs.files == map[];
    logger.LogError("boom", timestamp, fs);
    assert Lines(fs.files, logger.logFileName) == [FormatLine(ERROR, timestamp, "boom")];
    logger.LogInfo("skip", timestamp, fs);
    dir := logger.workingDirectory;
    lines := Lines(fs.files, logger.logFileName);
  }
}
