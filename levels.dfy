/** Message levels of the logger: the LogMessageType enumeration, how a level
    name on the command line is read back, and the text each level puts in
    front of a line. */
module Levels {

  datatype Option<T> = None | Some(value: T)

  /** LogMessageType. ALL is both the unprefixed level and the filter that
      accepts every level; it is the enumeration's default value. */
  datatype Level = ALL | INFO | DEBUG | WARN | ERROR

  /** The identifier of each enumeration member, as Enum.TryParse reads it. */
  function LevelName(l: Level): (r: string)
    ensures r != []
  {
    match l
    case ALL => "ALL"
    case INFO => "INFO"
    case DEBUG => "DEBUG"
    case WARN => "WARN"
    case ERROR => "ERROR"
  }

  /** Enum.TryParse restricted to exact, case-sensitive member names:
      Some(level) on success, None when the string names no member. */
  function TryParseLevel(s: string): (r: Option<Level>)
    ensures r.Some? ==> LevelName(r.value) == s
    ensures (exists l :: LevelName(l) == s) ==> r.Some?
  {
    if s == "ALL" then Some(ALL)
    else if s == "INFO" then Some(INFO)
    else if s == "DEBUG" then Some(DEBUG)
    else if s == "WARN" then Some(WARN)
    else if s == "ERROR" then Some(ERROR)
    else None
  }

  /** The level left in the out-parameter of Enum.TryParse: the parsed member,
      or the default ALL when parsing fails (whatever was there before). */
  function ParseOrDefault(s: string): (r: Level)
    ensures TryParseLevel(s).None? ==> r == ALL
    ensures TryParseLevel(s).Some? ==> LevelName(r) == s
  {
    match TryParseLevel(s)
    case Some(l) => l
    case None => ALL
  }

  lemma ParseOrDefaultRoundTrip(l: Level)
    ensures ParseOrDefault(LevelName(l)) == l
  {
  }

  /** A logger whose filter is `filter` writes a line of `level`. */
  predicate Accepts(filter: Level, level: Level)
  {
    filter == ALL || filter == level
  }

  /** What each level writes before the timestamp: two tabs for ALL, otherwise
      the level name padded with spaces to a fixed column and a bar. */
  function Prefix(l: Level): (r: string)
    ensures l == ALL ==> r == "\t\t"
    ensures l != ALL ==> |r| == 8 && r[5..] == " | "
    ensures l != ALL ==> r[..|LevelName(l)|] == LevelName(l)
    ensures l != ALL ==> forall i :: |LevelName(l)| <= i < 6 ==> r[i] == ' '
  {
    match l
    case ALL => "\t\t"
    case INFO => "INFO  | "
    case DEBUG => "DEBUG | "
    case WARN => "WARN  | "
    case ERROR => "ERROR | "
  }

  /** One log line: prefix, timestamp, a bar, then the caller's text. */
  function FormatLine(l: Level, timestamp: string, line: string): (r: string)
    ensures |r| == |Prefix(l)| + |timestamp| + 3 + |line|
    ensures r[..|Prefix(l)|] == Prefix(l)
    ensures r[|Prefix(l)|..|Prefix(l)| + |timestamp|] == timestamp
    ensures r[|r| - |line| - 3..|r| - |line|] == " | "
    ensures r[|r| - |line|..] == line
  {
    Prefix(l) + timestamp + " | " + line
  }

  /** The first character of a line tells its level. */
  function LevelMark(l: Level): char
  {
    match l
    case ALL => '\t'
    case INFO => 'I'
    case DEBUG => 'D'
    case WARN => 'W'
    case ERROR => 'E'
  }

  /** Lines of different levels never look alike: the first character of a
      formatted line is the mark of its level. */
  lemma FormatLineTellsLevel(l: Level, timestamp: string, line: string)
    ensures FormatLine(l, timestamp, line)[0] == LevelMark(l)
    ensures forall l' :: LevelMark(l') == LevelMark(l) ==> l' == l
  {
  }
}
