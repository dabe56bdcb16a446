/** Worked sessions: concrete commands and scripts and what the model says they do. */
module Scenarios {
  import opened Base
  import opened Strtok
  import opened CsvReader
  import opened Effects
  import opened PlotCsv
  import opened Samples

  lemma XlabelDefined(st: State, fs: FileSystem)
    ensures Defined(st, ["xlabel", "Time", "(s)"], fs)
  {
    assert Join(["Time", "(s)"], ' ') == "Time (s)";
  }

  /** The line `xlabel Time (s)` labels the x axis "Time (s)". */
  lemma XlabelExample(st: State, fs: FileSystem)
    requires Defined(st, ["xlabel", "Time", "(s)"], fs)
    ensures LabelOf(Dispatch(st, ["xlabel", "Time", "(s)"], false, fs).1.plot, X) == Some("Time (s)")
  {
    assert Join(["Time", "(s)"], ' ') == "Time (s)";
    SetLabelEffect(st.plot, X, "Time (s)");
  }

  lemma GpDefined(st: State, fs: FileSystem)
    ensures Defined(st, ["gp", "set", "grid"], fs)
  {
    assert Join(["set", "grid"], ' ') == "set grid";
  }

  /** The line `gp set  grid` sends "set grid": the double space does not survive. */
  lemma GpExample(st: State, fs: FileSystem)
    requires Defined(st, ["gp", "set", "grid"], fs)
    ensures Dispatch(st, ["gp", "set", "grid"], false, fs).1.plot == st.plot + [Raw("set grid")]
  {
    assert Join(["set", "grid"], ' ') == "set grid";
  }

  /** The prompt for `data/sample.csv` is its last component. */
  lemma SamplePrompt(path: string, previous: string)
    requires path == "data/sample.csv"
    ensures Prompt(path, previous) == "sample.csv> "
  {
    SamplePathTokens(path);
  }

  /** The prompt for `data/sample.csv` fits the prompt buffer. */
  lemma SamplePromptFits(path: string, previous: string)
    requires path == "data/sample.csv"
    ensures PromptFits(path, previous)
  {
    SamplePathTokens(path);
    SamplePathText(path);
  }

  lemma LoadDefined(st: State, fs: FileSystem)
    ensures Defined(st, ["load", "data/sample.csv"], fs)
  {
    assert Join(["data/sample.csv"], ' ') == "data/sample.csv";
    SamplePromptFits("data/sample.csv", st.prompt);
  }

  /** `load data/sample.csv` makes that the CSV file and the prompt "sample.csv> ". */
  lemma LoadExample(st: State, fs: FileSystem)
    requires Defined(st, ["load", "data/sample.csv"], fs)
    ensures Dispatch(st, ["load", "data/sample.csv"], false, fs).1 ==
      st.(csvFile := Some("data/sample.csv"), prompt := "sample.csv> ")
  {
    assert Join(["data/sample.csv"], ' ') == "data/sample.csv";
    SamplePrompt("data/sample.csv", st.prompt);
  }

  /** `legend off` then `legend on` leaves the key shown. */
  lemma LegendOffThenOn(st: State, fs: FileSystem)
    ensures var off := Dispatch(st, ["legend", "off"], false, fs).1;
      LegendOf(Dispatch(off, ["legend", "on"], false, fs).1.plot) == Some(true)
  {
    var off := Dispatch(st, ["legend", "off"], false, fs).1;
    SetKeyEffect(off.plot, true);
  }

  /** The last line, `quit`, stops the script with the state unchanged. */
  lemma ScriptQuitLine(st: State, fs: FileSystem)
    ensures ScriptSafe(st, ["quit\n"], fs)
    ensures RunLines(st, ["quit\n"], fs) == (Stop, st)
  {
    assert StripLast("quit\n") == "quit";
    TokensSingle("quit", ' ');
  }

  /** `xlabel X` sets the x label quietly; then `quit` stops. */
  lemma ScriptLabelLine(st: State, fs: FileSystem)
    ensures ScriptSafe(st, ["xlabel X\n", "quit\n"], fs)
    ensures RunLines(st, ["xlabel X\n", "quit\n"], fs) ==
      (Stop, st.(plot := st.plot + [SetLabel(X, "X")]))
  {
    var lines := ["xlabel X\n", "quit\n"];
    assert StripLast(lines[0]) == "xlabel X";
    assert "xlabel X" == Join(["xlabel", "X"], ' ');
    TokensJoin(["xlabel", "X"], ' ');
    assert Join(["X"], ' ') == "X";
    var after := st.(plot := st.plot + [SetLabel(X, "X")]);
    assert Dispatch(st, ["xlabel", "X"], true, fs) == (Continue, after);
    assert lines[1..] == ["quit\n"];
    ScriptQuitLine(after, fs);
  }

  /** The comment and the empty line are passed over. */
  lemma ScriptSkippedLines(st: State, fs: FileSystem)
    ensures ScriptSafe(st, ["# comment\n", "\n", "xlabel X\n", "quit\n"], fs)
    ensures RunLines(st, ["# comment\n", "\n", "xlabel X\n", "quit\n"], fs) ==
      (Stop, st.(plot := st.plot + [SetLabel(X, "X")]))
  {
    var lines := ["# comment\n", "\n", "xlabel X\n", "quit\n"];
    assert StripLast(lines[0])[0] == '#';
    assert StripLast(lines[1]) == [];
    assert lines[1..][1..] == ["xlabel X\n", "quit\n"];
    ScriptLabelLine(st, fs);
  }

  lemma LabelledDemo(st: State)
    requires st == Opened(Initial, "demo.pc")
    ensures st.(plot := st.plot + [SetLabel(X, "X")]) ==
      Initial.(plot := [SetLabel(X, "X")], console := [Reading("demo.pc")])
  {
    assert st.plot + [SetLabel(X, "X")] == [SetLabel(X, "X")];
  }

  /** A script that opens and whose lines are known runs those lines. */
  lemma RunScriptOf(st: State, path: string, fs: FileSystem, lines: seq<string>)
    requires path in fs && Lines(fs[path]) == lines && ScriptSafe(Opened(st, path), lines, fs)
    ensures ScriptDefined(st, path, fs)
    ensures RunScript(st, path, fs) == RunLines(Opened(st, path), lines, fs)
  {
  }

  /** A script with a comment, an empty line, `xlabel X` and `quit` dispatches two
      commands, sets the x label quietly and stops. */
  lemma ScriptExample(fs: FileSystem)
    requires fs == map["demo.pc" := "# comment\n\nxlabel X\nquit\n"]
    ensures ScriptDefined(Initial, "demo.pc", fs)
    ensures RunScript(Initial, "demo.pc", fs) ==
      (Stop, Initial.(plot := [SetLabel(X, "X")], console := [Reading("demo.pc")]))
  {
    var lines := ["# comment\n", "\n", "xlabel X\n", "quit\n"];
    DemoScriptLines(fs["demo.pc"]);
    var st := Opened(Initial, "demo.pc");
    ScriptSkippedLines(st, fs);
    RunScriptOf(Initial, "demo.pc", fs, lines);
    LabelledDemo(st);
  }

  /** A script whose last line has no newline loses that line's last real character:
      a final "quit" is read as the unknown verb "qui" and the REPL keeps running. */
  lemma UnterminatedScriptLine(st: State, fs: FileSystem)
    ensures ScriptSafe(st, Lines("quit"), fs)
    ensures RunLines(st, Lines("quit"), fs) ==
      (Continue, st.(console := st.console + [InvalidCommand("qui")]))
  {
    SpanAppend("quit", [], '\n');
    assert "quit" + [] == "quit";
    assert Lines("quit") == ["quit"];
    assert StripLast("quit") == "qui";
    TokensSingle("qui", ' ');
  }
}
