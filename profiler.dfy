/** profiler.c: the earlier, reduced REPL. Its `parse_cmd_line` knows only `quit`,
    `exit`, `legend`, `xlabel`, `ylabel` and `plot`, always prints its confirmations,
    and reads from the CSV file named on the command line. */
module Profiler {
  import opened Base
  import opened Strtok
  import opened Numerals
  import opened CsvReader
  import opened Effects
  import PlotCsv

  /** Size of the local `arg` and `lg_title` buffers. */
  const LabelCapacity: nat := 64
  const TitleCapacity: nat := 64

  /** What this `parse_cmd_line` needs to have defined behaviour: a verb, an argument
      after `legend`, arguments that fit the 64-byte buffers after `xlabel`, `ylabel`
      and `plot` (a title is required: an empty one is indexed at -1), a column number
      `atoi` can represent, a CSV file name (`main` leaves it uninitialised unless one
      was given) and, when the file exists, the column on every line. */
  predicate Defined(csvFile: Option<string>, cmd: seq<string>, fs: FileSystem) {
    cmd != [] &&
    var verb, args := cmd[0], cmd[1..];
    (verb == "legend" ==> args != []) &&
    (verb == "xlabel" || verb == "ylabel" ==> PlotCsv.Fits(args, LabelCapacity)) &&
    (verb == "plot" ==>
      |args| >= 2 && AtoiDefined(args[0]) && PlotCsv.Fits(args[1..], TitleCapacity) &&
      csvFile.Some? &&
      (csvFile.value in fs ==> ColumnDefined(fs[csvFile.value], ToUint8(Atoi(args[0])))))
  }

  /** What one command does: whether the REPL goes on, what is sent to gnuplot and
      what is printed. */
  datatype Effect = Effect(outcome: Outcome, sent: seq<GpCmd>, printed: seq<Msg>)

  /** The reference behaviour of `parse_cmd_line` on the tokens of one line. */
  function Step(csvFile: Option<string>, cmd: seq<string>, fs: FileSystem): Effect
    requires Defined(csvFile, cmd, fs)
  {
    var verb, args := cmd[0], cmd[1..];
    if verb == "quit" || verb == "exit" then Effect(Stop, [], [])
    else if verb == "legend" then
      var on := args[0] != "off";
      Effect(Continue, [SetKey(on)], [LegendTurned(on)])
    else if verb == "xlabel" || verb == "ylabel" then
      var axis := if verb[0] == 'x' then X else Y;
      var text := Join(args, ' ');
      Effect(Continue, [SetLabel(axis, text)], [LabelSet(axis, text)])
    else if verb == "plot" then
      var path := csvFile.value;
      if path !in fs then Effect(ExitFailure, [], [CouldntOpenFile(path)])
      else
        var col := ToUint8(Atoi(args[0]));
        Effect(Continue, [SetStyle("lines"), PlotSeries(Column(Lines(fs[path]), col), Join(args[1..], ' '))], [])
    else Effect(Continue, [], [InvalidCommand(verb)])
  }

  /** `parse_cmd_line`: builds the label or title with `strcat` loops, reads the
      column with `read_csv_col` and reports what it sent and printed. */
  method ParseCmdLine(cmd: seq<string>, csvFile: Option<string>, fs: FileSystem)
    returns (cont: Outcome, sent: seq<GpCmd>, printed: seq<Msg>)
    requires Defined(csvFile, cmd, fs)
    ensures Effect(cont, sent, printed) == Step(csvFile, cmd, fs)
  {
    var verb, args := cmd[0], cmd[1..];
    cont, sent, printed := Continue, [], [];
    if verb == "quit" || verb == "exit" {
      cont := Stop;
    } else if verb == "legend" {
      if args[0] == "off" {
        sent, printed := [SetKey(false)], [LegendTurned(false)];
      } else {
        sent, printed := [SetKey(true)], [LegendTurned(true)];
      }
    } else if verb == "xlabel" || verb == "ylabel" {
      var arg := ParseSpacedArg(args, LabelCapacity);
      var xy := verb[0];
      printed := [LabelSet(if xy == 'x' then X else Y, arg)];
      if xy == 'x' {
        sent := [SetLabel(X, arg)];
      } else if xy == 'y' {
        sent := [SetLabel(Y, arg)];
      }
    } else if verb == "plot" {
      cont, sent, printed := Plot(args, csvFile.value, fs);
    } else {
      printed := [InvalidCommand(verb)];
    }
  }

  /** The `plot` branch: the column number and title from the arguments, then the
      column of the CSV file, or the end of the process when the file is missing. */
  method Plot(args: seq<string>, path: string, fs: FileSystem)
    returns (cont: Outcome, sent: seq<GpCmd>, printed: seq<Msg>)
    requires Defined(Some(path), ["plot"] + args, fs)
    ensures Effect(cont, sent, printed) == Step(Some(path), ["plot"] + args, fs)
  {
    assert (["plot"] + args)[1..] == args;
    var col := ToUint8(Atoi(args[0]));
    var title := ParseSpacedArg(args[1..], TitleCapacity);
    if path !in fs {
      return ExitFailure, [], [CouldntOpenFile(path)];
    }
    var items, n := ReadCsvCol(fs[path], col);
    assert items[..n] == items[..];
    return Continue, [SetStyle("lines"), PlotSeries(items[..n], title)], [];
  }

  /** The REPL stops exactly on `quit` and `exit`, and the process ends exactly when
      `plot` names a file that does not exist. */
  lemma StopsExactlyOnQuit(csvFile: Option<string>, cmd: seq<string>, fs: FileSystem)
    requires Defined(csvFile, cmd, fs)
    ensures Step(csvFile, cmd, fs).outcome == Stop <==> cmd[0] == "quit" || cmd[0] == "exit"
    ensures Step(csvFile, cmd, fs).outcome == ExitFailure <==>
      cmd[0] == "plot" && csvFile.value !in fs
  {
  }

  /** `gp` and `load` are not verbs of this REPL: they are reported as invalid and
      nothing is sent. */
  lemma GpAndLoadAreInvalid(csvFile: Option<string>, cmd: seq<string>, fs: FileSystem)
    requires cmd != [] && (cmd[0] == "gp" || cmd[0] == "load")
    ensures Defined(csvFile, cmd, fs)
    ensures Step(csvFile, cmd, fs) == Effect(Continue, [], [InvalidCommand(cmd[0])])
  {
  }

  /** On the verbs both REPLs know, this one does what the plotcsv REPL does when it
      is not quiet: same outcome, same gnuplot commands, same messages. */
  lemma AgreesWithPlotCsv(st: PlotCsv.State, cmd: seq<string>, fs: FileSystem)
    requires Defined(st.csvFile, cmd, fs)
    requires cmd[0] in {"quit", "exit", "legend", "xlabel", "ylabel", "plot"}
    ensures PlotCsv.Defined(st, cmd, fs)
    ensures var e := Step(st.csvFile, cmd, fs);
      PlotCsv.Dispatch(st, cmd, false, fs) ==
        (e.outcome, st.(plot := st.plot + e.sent, console := st.console + e.printed))
  {
    var verb := cmd[0];
    if verb == "quit" || verb == "exit" {
      assert st.plot + [] == st.plot && st.console + [] == st.console;
    } else if verb == "plot" && st.csvFile.value in fs {
      assert st.console + [] == st.console;
    } else if verb == "plot" {
      assert st.plot + [] == st.plot;
    }
  }
}
