/** Command-line handling of CreateFilteredLogger(string[]): parseCommands
    turns the tokens into (flag, value) pairs, and the pairs are folded, in
    order, into the options the logger is built from. */
module Commands {
  import opened Levels
  import opened Paths

  /** A KeyValuePair<string, string> produced by parseCommands. */
  datatype Pair = Pair(key: string, value: string)

  const TypeFlags: set<string> := {"--type", "-t"}
  const PathFlags: set<string> := {"--path", "-p"}
  const NameFlags: set<string> := {"--logname", "-ln"}
  const ClearFlags: set<string> := {"--clear", "-c"}

  /** A flag that takes the token after it as its value. */
  predicate IsValueFlag(s: string)
  {
    s in TypeFlags || s in PathFlags || s in NameFlags
  }

  /** Every token parseCommands recognises. */
  predicate IsFlag(s: string)
  {
    IsValueFlag(s) || s in ClearFlags
  }

  /** The pairs parseCommands adds for the tokens from position `i` on. A
      value flag takes the next token, whatever it is, and skips it; a value
      flag in last position adds nothing; a clear flag carries ""; any other
      token is passed over. */
  function ParsedFrom(args: seq<string>, i: nat): seq<Pair>
    decreases |args| - i
  {
    if i >= |args| then []
    else if IsValueFlag(args[i]) then
      (if i + 1 < |args| then [Pair(args[i], args[i + 1])] else []) + ParsedFrom(args, i + 2)
    else if args[i] in ClearFlags then [Pair(args[i], "")] + ParsedFrom(args, i + 1)
    else ParsedFrom(args, i + 1)
  }

  function Parsed(args: seq<string>): seq<Pair>
  {
    ParsedFrom(args, 0)
  }

  /** For each pair of ParsedFrom(args, i), the position of the flag it came from. */
  ghost function PositionsFrom(args: seq<string>, i: nat): seq<nat>
    decreases |args| - i
  {
    if i >= |args| then []
    else if IsValueFlag(args[i]) then
      (if i + 1 < |args| then [i] else []) + PositionsFrom(args, i + 2)
    else if args[i] in ClearFlags then [i] + PositionsFrom(args, i + 1)
    else PositionsFrom(args, i + 1)
  }

  /** There is one position per pair. */
  lemma {:induction false} PositionsMatchPairs(args: seq<string>, i: nat)
    ensures |PositionsFrom(args, i)| == |ParsedFrom(args, i)|
    decreases |args| - i
  {
    if i < |args| {
      if IsValueFlag(args[i]) {
        PositionsMatchPairs(args, i + 2);
      } else {
        PositionsMatchPairs(args, i + 1);
      }
    }
  }

  /** Where the k-th pair parseCommands produces comes from: a recognised
      flag at its position; for a value flag, the very next token is its
      value (so a value flag in last position gives no pair); for a clear
      flag, the value is "". */
  lemma {:induction false} ParsedAt(args: seq<string>, i: nat, k: nat)
    requires k < |ParsedFrom(args, i)|
    ensures var ps, pos := ParsedFrom(args, i), PositionsFrom(args, i);
      k < |pos| && i <= pos[k] < |args| && args[pos[k]] == ps[k].key && IsFlag(ps[k].key) &&
      (IsValueFlag(ps[k].key) ==> pos[k] + 1 < |args| && ps[k].value == args[pos[k] + 1]) &&
      (ps[k].key in ClearFlags ==> ps[k].value == "")
    decreases |args| - i
  {
    PositionsMatchPairs(args, i);
    var ps, pos := ParsedFrom(args, i), PositionsFrom(args, i);
    if IsValueFlag(args[i]) {
      if i + 1 < |args| {
        assert ps == [Pair(args[i], args[i + 1])] + ParsedFrom(args, i + 2);
        assert pos == [i] + PositionsFrom(args, i + 2);
        if k > 0 {
          ParsedAt(args, i + 2, k - 1);
          assert ps[k] == ParsedFrom(args, i + 2)[k - 1];
          assert pos[k] == PositionsFrom(args, i + 2)[k - 1];
        }
      }
    } else if args[i] in ClearFlags {
      assert ps == [Pair(args[i], "")] + ParsedFrom(args, i + 1);
      assert pos == [i] + PositionsFrom(args, i + 1);
      if k > 0 {
        ParsedAt(args, i + 1, k - 1);
        assert ps[k] == ParsedFrom(args, i + 1)[k - 1];
        assert pos[k] == PositionsFrom(args, i + 1)[k - 1];
      }
    } else {
      ParsedAt(args, i + 1, k);
    }
  }

  /** Consecutive pairs appear in input order, and the token a value flag
      takes is never itself the source of the next pair. */
  lemma {:induction false} ParsedInOrder(args: seq<string>, i: nat, k: nat)
    requires k + 1 < |ParsedFrom(args, i)|
    ensures var ps, pos := ParsedFrom(args, i), PositionsFrom(args, i);
      k + 1 < |pos| && pos[k] + (if IsValueFlag(ps[k].key) then 1 else 0) < pos[k + 1]
    decreases |args| - i
  {
    PositionsMatchPairs(args, i);
    if IsValueFlag(args[i]) {
      if i + 1 >= |args| {
        // No pair comes from a value flag in last position.
      } else if k > 0 {
        ParsedInOrder(args, i + 2, k - 1);
      } else {
        ParsedAt(args, i + 2, 0);
      }
    } else if args[i] in ClearFlags {
      if k > 0 {
        ParsedInOrder(args, i + 1, k - 1);
      } else {
        ParsedAt(args, i + 1, 0);
      }
    } else {
      ParsedInOrder(args, i + 1, k);
    }
  }

  /** The positions parseCommands's loop stops at, from `i` on: every
      position it reaches, stepping over the token after a value flag. */
  ghost predicate Visited(args: seq<string>, i: nat, j: nat)
    decreases |args| - i
  {
    i <= j < |args| &&
    (j == i || Visited(args, if IsValueFlag(args[i]) then i + 2 else i + 1, j))
  }

  /** No recognised flag the loop stops at is lost: a clear flag yields
      (flag, ""), and a value flag with a token after it yields (flag, that
      token), at the flag's own position. */
  lemma {:induction false} ParsedComplete(args: seq<string>, i: nat, j: nat)
    requires Visited(args, i, j) && IsFlag(args[j])
    requires IsValueFlag(args[j]) ==> j + 1 < |args|
    ensures exists k :: (0 <= k < |ParsedFrom(args, i)| && k < |PositionsFrom(args, i)| &&
      PositionsFrom(args, i)[k] == j &&
      ParsedFrom(args, i)[k] == Pair(args[j], if IsValueFlag(args[j]) then args[j + 1] else ""))
    decreases |args| - i
  {
    var ps, pos := ParsedFrom(args, i), PositionsFrom(args, i);
    var next := if IsValueFlag(args[i]) then i + 2 else i + 1;
    var emitted := (IsValueFlag(args[i]) && i + 1 < |args|) || args[i] in ClearFlags;
    if j == i {
      assert pos[0] == j && ps[0] == Pair(args[j], if IsValueFlag(args[j]) then args[j + 1] else "");
    } else {
      ParsedComplete(args, next, j);
      var k' :| 0 <= k' < |ParsedFrom(args, next)| && k' < |PositionsFrom(args, next)| &&
        PositionsFrom(args, next)[k'] == j &&
        ParsedFrom(args, next)[k'] == Pair(args[j], if IsValueFlag(args[j]) then args[j + 1] else "");
      if emitted {
        assert ps == [ps[0]] + ParsedFrom(args, next) && pos == [i] + PositionsFrom(args, next);
        assert pos[k' + 1] == j && ps[k' + 1] == ParsedFrom(args, next)[k'];
      } else {
        assert ps == ParsedFrom(args, next) && pos == PositionsFrom(args, next);
      }
    }
  }

  /** Conversely, every pair comes from a position the loop stops at. */
  lemma {:induction false} PositionsVisited(args: seq<string>, i: nat, k: nat)
    requires k < |PositionsFrom(args, i)|
    ensures Visited(args, i, PositionsFrom(args, i)[k])
    decreases |args| - i
  {
    var pos := PositionsFrom(args, i);
    var next := if IsValueFlag(args[i]) then i + 2 else i + 1;
    if (IsValueFlag(args[i]) && i + 1 < |args|) || args[i] in ClearFlags {
      assert pos == [i] + PositionsFrom(args, next);
      if k > 0 {
        PositionsVisited(args, next, k - 1);
        assert pos[k] == PositionsFrom(args, next)[k - 1];
        PositionsMatchPairs(args, next);
        ParsedAt(args, next, k - 1);
      }
    } else {
      PositionsVisited(args, next, k);
      PositionsMatchPairs(args, next);
      ParsedAt(args, next, k);
    }
  }

  /** parseCommands never yields more pairs than there are tokens past `i`. */
  lemma {:induction false} ParsedFromLength(args: seq<string>, i: nat)
    ensures |ParsedFrom(args, i)| <= if i <= |args| then |args| - i else 0
    decreases |args| - i
  {
    if i < |args| {
      if IsValueFlag(args[i]) {
        ParsedFromLength(args, i + 2);
      } else {
        ParsedFromLength(args, i + 1);
      }
    }
  }

  /** A value flag with nothing after it adds no pair. */
  lemma DanglingFlagIgnored(flag: string)
    requires IsValueFlag(flag)
    ensures Parsed([flag]) == []
  {
    assert ParsedFrom([flag], 2) == [];
  }

  /** parseCommands: an index loop that appends pairs and skips the value
      token after a value flag. */
  method ParseCommands(commandArgs: seq<string>) returns (pairList: seq<Pair>)
    ensures pairList == Parsed(commandArgs)
    ensures |pairList| <= |commandArgs|
  {
    pairList := [];
    var i := 0;
    while i < |commandArgs|
      invariant 0 <= i <= |commandArgs| + 1
      invariant pairList + ParsedFrom(commandArgs, i) == Parsed(commandArgs)
      decreases |commandArgs| + 1 - i
    {
      if IsValueFlag(commandArgs[i]) {
        if i + 1 < |commandArgs| {
          pairList := pairList + [Pair(commandArgs[i], commandArgs[i + 1])];
        }
        // The value token is skipped.
        i := i + 1;
      } else if commandArgs[i] in ClearFlags {
        pairList := pairList + [Pair(commandArgs[i], "")];
      }
      i := i + 1;
    }
    ParsedFromLength(commandArgs, 0);
  }

  /** The locals of CreateFilteredLogger(string[]) while it walks the pairs,
      together with the directories that exist at that point (validatePath
      may create one per --path pair). */
  datatype ArgState = ArgState(level: Level, clear: bool, path: string, name: string, dirs: set<string>)

  /** The defaults set before the walk: ALL, no clear, empty path and name. */
  function Initial(dirs: set<string>): ArgState
  {
    ArgState(ALL, false, "", "", dirs)
  }

  /** One iteration of the foreach over the pairs. */
  function FoldStep(st: ArgState, p: Pair, failing: set<string>, cwd: string): ArgState
  {
    if p.key in TypeFlags then st.(level := ParseOrDefault(p.value))
    else if p.key in ClearFlags then st.(clear := true)
    else if p.key in PathFlags then
      st.(path := ResolvedPath(p.value, st.dirs, failing, cwd), dirs := DirsAfter(p.value, st.dirs, failing))
    else if p.key in NameFlags then st.(name := ValidateName(p.value, cwd))
    else st
  }

  /** The state after walking all of `pairs` in order. */
  function Fold(pairs: seq<Pair>, st: ArgState, failing: set<string>, cwd: string): ArgState
    decreases |pairs|
  {
    if pairs == [] then st
    else FoldStep(Fold(pairs[..|pairs| - 1], st, failing, cwd), pairs[|pairs| - 1], failing, cwd)
  }

  /** The value of the last pair whose flag is in `flags`, if any. */
  function LastValue(pairs: seq<Pair>, flags: set<string>): (r: Option<string>)
    ensures r.None? <==> forall k :: 0 <= k < |pairs| ==> pairs[k].key !in flags
    decreases |pairs|
  {
    if pairs == [] then None
    else if pairs[|pairs| - 1].key in flags then Some(pairs[|pairs| - 1].value)
    else LastValue(pairs[..|pairs| - 1], flags)
  }

  /** The filter is set by the last --type/-t pair alone: its value parsed,
      or ALL when it names no level, even if an earlier pair named one. */
  lemma {:induction false} FoldLevel(pairs: seq<Pair>, st: ArgState, failing: set<string>, cwd: string)
    ensures Fold(pairs, st, failing, cwd).level ==
      match LastValue(pairs, TypeFlags)
      case None => st.level
      case Some(v) => ParseOrDefault(v)
    decreases |pairs|
  {
    if pairs != [] {
      FoldLevel(pairs[..|pairs| - 1], st, failing, cwd);
    }
  }

  /** The logger name is set by the last --logname/-ln pair alone. */
  lemma {:induction false} FoldName(pairs: seq<Pair>, st: ArgState, failing: set<string>, cwd: string)
    ensures Fold(pairs, st, failing, cwd).name ==
      match LastValue(pairs, NameFlags)
      case None => st.name
      case Some(v) => ValidateName(v, cwd)
    decreases |pairs|
  {
    if pairs != [] {
      FoldName(pairs[..|pairs| - 1], st, failing, cwd);
    }
  }

  /** A clear happens exactly when some --clear/-c pair is present. */
  lemma {:induction false} FoldClear(pairs: seq<Pair>, st: ArgState, failing: set<string>, cwd: string)
    ensures Fold(pairs, st, failing, cwd).clear <==>
      st.clear || exists k :: 0 <= k < |pairs| && pairs[k].key in ClearFlags
    decreases |pairs|
  {
    if pairs != [] {
      var init := pairs[..|pairs| - 1];
      FoldClear(init, st, failing, cwd);
      if exists k :: 0 <= k < |init| && init[k].key in ClearFlags {
        var k :| 0 <= k < |init| && init[k].key in ClearFlags;
        assert pairs[k] == init[k];
      }
    }
  }

  /** Without a --path/-p pair the path and the directories are as before;
      with or without one, the directories only grow. */
  lemma {:induction false} FoldPath(pairs: seq<Pair>, st: ArgState, failing: set<string>, cwd: string)
    ensures st.dirs <= Fold(pairs, st, failing, cwd).dirs
    ensures LastValue(pairs, PathFlags).None? ==>
      Fold(pairs, st, failing, cwd).path == st.path && Fold(pairs, st, failing, cwd).dirs == st.dirs
    decreases |pairs|
  {
    if pairs != [] {
      FoldPath(pairs[..|pairs| - 1], st, failing, cwd);
    }
  }

  /** The directory is set by the last --path/-p pair alone: when pair `j`
      is that pair, the path is its value resolved against the directories
      that exist after the pairs before it, and the directories afterwards
      are those validatePath leaves for it; the pairs after it change
      neither. */
  lemma {:induction false} FoldPathLast(pairs: seq<Pair>, st: ArgState, failing: set<string>, cwd: string, j: nat)
    requires j < |pairs| && pairs[j].key in PathFlags
    requires forall k :: j < k < |pairs| ==> pairs[k].key !in PathFlags
    ensures var before := Fold(pairs[..j], st, failing, cwd);
      Fold(pairs, st, failing, cwd).path == ResolvedPath(pairs[j].value, before.dirs, failing, cwd) &&
      Fold(pairs, st, failing, cwd).dirs == DirsAfter(pairs[j].value, before.dirs, failing)
    decreases |pairs|
  {
    var init := pairs[..|pairs| - 1];
    if j < |pairs| - 1 {
      assert init[..j] == pairs[..j];
      FoldPathLast(init, st, failing, cwd, j);
    } else {
      assert init == pairs[..j];
    }
  }

  /** When the current directory exists, the fold keeps the chosen directory
      existing (or empty) and the chosen name validated. */
  lemma {:induction false} FoldKeepsResolved(pairs: seq<Pair>, st: ArgState, failing: set<string>, cwd: string)
    requires cwd in st.dirs
    requires st.path == "" || st.path in st.dirs
    requires ValidateName(st.name, cwd) == st.name
    ensures var r := Fold(pairs, st, failing, cwd);
      cwd in r.dirs && (r.path == "" || r.path in r.dirs) && ValidateName(r.name, cwd) == r.name
    decreases |pairs|
  {
    if pairs != [] {
      FoldKeepsResolved(pairs[..|pairs| - 1], st, failing, cwd);
      var before := Fold(pairs[..|pairs| - 1], st, failing, cwd);
      var p := pairs[|pairs| - 1];
      ValidateNameIdempotent(p.value, cwd);
      if p.key !in TypeFlags && p.key !in ClearFlags && p.key in PathFlags {
        assert Fold(pairs, st, failing, cwd).dirs == DirsAfter(p.value, before.dirs, failing);
      }
    }
  }

  /** parseCommands on "--type ERROR --path /tmp/x --logname svc": three
      pairs, in order. */
  lemma ErrorExampleParsed()
    ensures Parsed(["--type", "ERROR", "--path", "/tmp/x", "--logname", "svc"])
      == [Pair("--type", "ERROR"), Pair("--path", "/tmp/x"), Pair("--logname", "svc")]
  {
  }

  /** The pairs of that command line, folded in any file system where
      neither spelling of the path exists yet and the normalised one can be
      created: filter ERROR, no clear, the directory \tmp\x (created), the
      name svc. */
  lemma ErrorExampleFold(dirs: set<string>, failing: set<string>, cwd: string)
    requires "/tmp/x" !in dirs && "\\tmp\\x" !in dirs && "\\tmp\\x" !in failing
    ensures Fold([Pair("--type", "ERROR"), Pair("--path", "/tmp/x"), Pair("--logname", "svc")], Initial(dirs), failing, cwd)
      == ArgState(ERROR, false, "\\tmp\\x", "svc", dirs + {"\\tmp\\x"})
  {
    var pairs := [Pair("--type", "ERROR"), Pair("--path", "/tmp/x"), Pair("--logname", "svc")];
    assert Normalised("/tmp/x") == "\\tmp\\x" by {
      assert Backslashed("/tmp/x") == "\\tmp\\x";
    }
    var d := "\\tmp\\x";
    var st0 := Initial(dirs);
    var st1 := ArgState(ERROR, false, "", "", dirs);
    var st2 := ArgState(ERROR, false, d, "", dirs + {d});
    assert ParseOrDefault("ERROR") == ERROR;
    assert FoldStep(st0, pairs[0], failing, cwd) == st1;
    assert ResolvedPath("/tmp/x", dirs, failing, cwd) == d;
    assert FoldStep(st1, pairs[1], failing, cwd) == st2;
    assert pairs[..1] == [pairs[0]] && pairs[..2] == [pairs[0], pairs[1]] && pairs[..3] == pairs;
    assert [pairs[0]][..0] == [];
    assert Fold(pairs[..1], st0, failing, cwd) == st1;
    assert Fold(pairs[..2], st0, failing, cwd) == st2;
    assert Fold(pairs, st0, failing, cwd) == FoldStep(st2, pairs[2], failing, cwd);
  }
}
