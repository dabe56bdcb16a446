/** What the plotcsv.c REPL guarantees, stated over `PlotCsv.Dispatch` and the script
    runner. */
module PlotCsvLaws {
  import opened Base
  import opened Strtok
  import opened Numerals
  import opened CsvReader
  import opened Effects
  import opened PlotCsv

  /** The verbs `parse_cmd_line` recognises. */
  predicate Known(verb: string) {
    verb in {"quit", "exit", "legend", "xlabel", "ylabel", "plot", "gp", "load"}
  }

  /** Only `quit` and `exit` stop the REPL, and they change nothing; the process ends
      only when `plot` cannot open the CSV file. */
  lemma StopsExactlyOnQuit(st: State, cmd: seq<string>, quiet: bool, fs: FileSystem)
    requires Defined(st, cmd, fs)
    ensures Dispatch(st, cmd, quiet, fs).0 == Stop <==> cmd[0] == "quit" || cmd[0] == "exit"
    ensures Dispatch(st, cmd, quiet, fs).0 == ExitFailure <==>
      cmd[0] == "plot" && st.csvFile.value !in fs
    ensures Dispatch(st, cmd, quiet, fs).0 == Stop ==> Dispatch(st, cmd, quiet, fs).1 == st
  {
  }

  /** An unrecognised verb only reports "Invalid command", quiet or not, and the
      session continues. */
  lemma UnknownVerbContinues(st: State, cmd: seq<string>, quiet: bool, fs: FileSystem)
    requires Defined(st, cmd, fs) && !Known(cmd[0])
    ensures Dispatch(st, cmd, quiet, fs) ==
      (Continue, st.(console := st.console + [InvalidCommand(cmd[0])]))
  {
  }

  /** `legend off` hides the key, `legend` with anything else shows it; the labels,
      the CSV path and the prompt stay. */
  lemma LegendSetsKey(st: State, cmd: seq<string>, quiet: bool, fs: FileSystem)
    requires Defined(st, cmd, fs) && cmd[0] == "legend"
    ensures var r := Dispatch(st, cmd, quiet, fs);
      r.0 == Continue &&
      LegendOf(r.1.plot) == Some(cmd[1] != "off") &&
      LabelOf(r.1.plot, X) == LabelOf(st.plot, X) && LabelOf(r.1.plot, Y) == LabelOf(st.plot, Y) &&
      r.1.csvFile == st.csvFile && r.1.prompt == st.prompt
  {
    SetKeyEffect(st.plot, cmd[1] != "off");
  }

  /** `xlabel`/`ylabel` set the axis named by the verb's first letter to the remaining
      tokens joined by single spaces, which tokenise back to those tokens; the other
      axis, the key, the CSV path and the prompt stay. */
  lemma LabelSetsAxis(st: State, cmd: seq<string>, quiet: bool, fs: FileSystem)
    requires Defined(st, cmd, fs) && (cmd[0] == "xlabel" || cmd[0] == "ylabel")
    requires Separable(cmd, ' ')
    ensures var r := Dispatch(st, cmd, quiet, fs);
      var axis := if cmd[0] == "xlabel" then X else Y;
      var other := if cmd[0] == "xlabel" then Y else X;
      r.0 == Continue &&
      LabelOf(r.1.plot, axis) == Some(Join(cmd[1..], ' ')) &&
      Tokens(Join(cmd[1..], ' '), ' ') == cmd[1..] &&
      LabelOf(r.1.plot, other) == LabelOf(st.plot, other) &&
      LegendOf(r.1.plot) == LegendOf(st.plot) &&
      r.1.csvFile == st.csvFile && r.1.prompt == st.prompt
  {
    var axis := if cmd[0] == "xlabel" then X else Y;
    SetLabelEffect(st.plot, axis, Join(cmd[1..], ' '));
    TokensJoin(cmd[1..], ' ');
  }

  /** `plot` draws, as lines, one value per line of the CSV file: the field of that
      line selected by the column number, titled by the rest of the command. */
  lemma PlotDrawsColumn(st: State, cmd: seq<string>, quiet: bool, fs: FileSystem)
    requires Defined(st, cmd, fs) && cmd[0] == "plot" && st.csvFile.value in fs
    ensures var r := Dispatch(st, cmd, quiet, fs);
      var lines, col := Lines(fs[st.csvFile.value]), ToUint8(Atoi(cmd[1]));
      var n := |st.plot|;
      r.0 == Continue && |r.1.plot| == n + 2 && r.1.plot[..n] == st.plot &&
      r.1.plot[n] == SetStyle("lines") &&
      r.1.plot[n + 1].PlotSeries? && r.1.plot[n + 1].title == Join(cmd[2..], ' ') &&
      |r.1.plot[n + 1].values| == |lines| &&
      (forall i :: 0 <= i < |lines| ==> r.1.plot[n + 1].values[i] == Tokens(lines[i], ',')[col]) &&
      r.1.csvFile == st.csvFile && r.1.prompt == st.prompt && r.1.console == st.console
  {
    assert cmd[1..][1..] == cmd[2..];
  }

  /** `gp` sends the remaining tokens joined by single spaces: runs of spaces in the
      typed line do not reach gnuplot. */
  lemma GpSendsJoinedTokens(st: State, cmd: seq<string>, quiet: bool, fs: FileSystem)
    requires Defined(st, cmd, fs) && cmd[0] == "gp" && Separable(cmd, ' ')
    ensures var r := Dispatch(st, cmd, quiet, fs);
      r == (Continue, st.(plot := st.plot + [Raw(Join(cmd[1..], ' '))])) &&
      Tokens(Join(cmd[1..], ' '), ' ') == cmd[1..]
  {
    TokensJoin(cmd[1..], ' ');
  }

  /** `load` makes the joined argument the CSV path and rebuilds the prompt from it;
      for a path not ending in '/' the prompt is its base name and "> ". */
  lemma LoadReplacesCsvFile(st: State, cmd: seq<string>, quiet: bool, fs: FileSystem)
    requires Defined(st, cmd, fs) && cmd[0] == "load"
    ensures var r := Dispatch(st, cmd, quiet, fs);
      var path := Join(cmd[1..], ' ');
      r.0 == Continue &&
      r.1 == st.(csvFile := Some(path), prompt := Prompt(path, st.prompt)) &&
      (path != [] && path[|path| - 1] != '/' ==> r.1.prompt == AfterLast(path, '/') + "> ")
  {
    var path := Join(cmd[1..], ' ');
    if path != [] && path[|path| - 1] != '/' {
      PromptBasename(path, st.prompt);
    }
  }

  /** No verb but `load` touches the CSV path or the prompt. */
  lemma OnlyLoadMovesCsvFile(st: State, cmd: seq<string>, quiet: bool, fs: FileSystem)
    requires Defined(st, cmd, fs) && cmd[0] != "load"
    ensures Dispatch(st, cmd, quiet, fs).1.csvFile == st.csvFile
    ensures Dispatch(st, cmd, quiet, fs).1.prompt == st.prompt
  {
  }

  /** Quiet mode drops exactly the confirmations: outcome, path, prompt and gnuplot
      commands are the same, quiet output is a prefix of the loud one, what quiet
      mode adds is never a confirmation and what it leaves out always is. */
  lemma QuietDropsOnlyConfirmations(st: State, cmd: seq<string>, fs: FileSystem)
    requires Defined(st, cmd, fs)
    ensures var quiet, loud := Dispatch(st, cmd, true, fs), Dispatch(st, cmd, false, fs);
      quiet.0 == loud.0 &&
      quiet.1.(console := []) == loud.1.(console := []) &&
      st.console <= quiet.1.console <= loud.1.console &&
      (forall i :: |st.console| <= i < |quiet.1.console| ==> !IsConfirmation(quiet.1.console[i])) &&
      (forall i :: |quiet.1.console| <= i < |loud.1.console| ==> IsConfirmation(loud.1.console[i]))
  {
  }

  // ------------------------------------------------------------ scripts

  /** Running two pieces of a script one after the other is running the whole script,
      and nothing after a command that stops is dispatched. */
  lemma {:induction false} RunLinesAppend(st: State, a: seq<string>, b: seq<string>, fs: FileSystem)
    requires ScriptSafe(st, a + b, fs)
    ensures ScriptSafe(st, a, fs)
    ensures var r := RunLines(st, a, fs);
      (r.0 == Continue ==> ScriptSafe(r.1, b, fs) && RunLines(st, a + b, fs) == RunLines(r.1, b, fs)) &&
      (r.0 != Continue ==> RunLines(st, a + b, fs) == r)
    decreases |a|
  {
    if a == [] {
      assert a + b == b;
    } else {
      assert (a + b)[0] == a[0];
      assert (a + b)[1..] == a[1..] + b;
      var line := StripLast(a[0]);
      if Skipped(line) {
        RunLinesAppend(st, a[1..], b, fs);
      } else {
        var r := Dispatch(st, Tokens(line, ' '), true, fs);
        if r.0 == Continue {
          RunLinesAppend(r.1, a[1..], b, fs);
        }
      }
    }
  }

  /** A line holding just `quit` (or `exit`) stops the script there, state unchanged. */
  lemma QuitLine(st: State, lines: seq<string>, fs: FileSystem)
    requires lines != []
    requires Tokens(StripLast(lines[0]), ' ') == ["quit"] || Tokens(StripLast(lines[0]), ' ') == ["exit"]
    ensures ScriptSafe(st, lines, fs) && RunLines(st, lines, fs) == (Stop, st)
  {
    var line := StripLast(lines[0]);
    assert !Skipped(line) by {
      if line != [] && line[0] == '#' {
        TokensHead(line, ' ');
      }
    }
  }

  /** Lines after a `quit` (or `exit`) have no effect, whatever they hold. */
  lemma NothingAfterQuit(st: State, a: seq<string>, b: seq<string>, fs: FileSystem)
    requires ScriptSafe(st, a + b, fs)
    requires b != [] && (Tokens(StripLast(b[0]), ' ') == ["quit"] || Tokens(StripLast(b[0]), ' ') == ["exit"])
    ensures ScriptSafe(st, a, fs)
    ensures RunLines(st, a, fs).0 == Continue ==> RunLines(st, a + b, fs) == (Stop, RunLines(st, a, fs).1)
  {
    RunLinesAppend(st, a, b, fs);
    var r := RunLines(st, a, fs);
    if r.0 == Continue {
      QuitLine(r.1, b, fs);
    }
  }
}
