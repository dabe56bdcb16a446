/** plotcsv.c: the scripting REPL. A session holds the current CSV path and the
    prompt buffer; `parse_cmd_line` interprets one tokenised command line and
    `parse_script` replays a script file through it. */
module PlotCsv {
  import opened Base
  import opened Strtok
  import opened CBuffer
  import opened Numerals
  import opened CsvReader
  import opened Effects

  /** `char prompt[64]` in `main`. */
  const PromptSize: nat := 64
  /** `generate_prompt` copies at most this many characters of the file name. */
  const PromptCopy: nat := 60
  /** The local buffers the joined arguments are built in. */
  const LabelCapacity: nat := 64
  const TitleCapacity: nat := 64
  const GpCapacity: nat := 1024
  const FilenameCapacity: nat := 2048

  // ---------------------------------------------------------------- script names

  /** The test in `main`: the argument's last three characters are ".pc". */
  function IsScriptName(arg: string): (r: bool)
    requires |arg| >= 3
    ensures r <==> arg[|arg| - 3..] == ".pc"
  {
    arg[|arg| - 3] == '.' && arg[|arg| - 2] == 'p' && arg[|arg| - 1] == 'c'
  }

  lemma ScriptNames(stem: string)
    ensures IsScriptName(stem + ".pc")
    ensures !IsScriptName(stem + ".csv")
  {
    assert (stem + ".pc")[|stem|..] == ".pc";
    assert (stem + ".csv")[|stem| + 1..] == "csv";
  }

  // ---------------------------------------------------------------- the prompt

  /** The prompt `generate_prompt` leaves: the last non-empty '/'-separated component
      of the path followed by "> "; with no component the previous prompt stays and
      gets "> " appended. */
  function Prompt(path: string, previous: string): string
  {
    var comps := Tokens(path, '/');
    (if comps == [] then previous else comps[|comps| - 1]) + "> "
  }

  /** What `generate_prompt` needs to stay inside the 64-byte buffer: a last component
      shorter than the 60 bytes `strncpy` copies (otherwise no NUL is copied), or room
      for "> " after the previous prompt. The path is a C string, so has no NUL. */
  predicate PromptFits(path: string, previous: string) {
    '\0' !in path &&
    var comps := Tokens(path, '/');
    if comps == [] then |previous| + 3 <= PromptSize else |comps[|comps| - 1]| < PromptCopy
  }

  /** For a path that does not end in '/', the prompt is its base name and "> ". */
  lemma PromptBasename(path: string, previous: string)
    requires path != [] && path[|path| - 1] != '/'
    ensures Prompt(path, previous) == AfterLast(path, '/') + "> "
  {
    LastToken(path, '/');
  }

  /** `generate_prompt`: overwrites the buffer with each '/' component in turn
      (`strncpy` of at most 60 bytes), so the last one stays, then appends "> ". */
  method GeneratePrompt(prompt: array<char>, path: string)
    requires prompt.Length == PromptSize && '\0' in prompt[..]
    requires PromptFits(path, CStr(prompt[..]))
    modifies prompt
    ensures '\0' in prompt[..]
    ensures CStr(prompt[..]) == Prompt(path, CStr(old(prompt[..])))
  {
    var comps := Tokens(path, '/');
    TokensAvoid(path, '/', '\0');
    var i := 0;
    while i < |comps|
      invariant 0 <= i <= |comps|
      invariant i == 0 ==> prompt[..] == old(prompt[..])
      invariant i > 0 && |comps[i - 1]| < PromptCopy ==>
        '\0' in prompt[..] && CStr(prompt[..]) == comps[i - 1]
    {
      var c := comps[i];
      StrNCpy(prompt, c, PromptCopy);
      if |c| < PromptCopy {
        assert prompt[..|c|] == c;
        assert prompt[|c|] == '\0';
        CStrAt(prompt[..], |c|);
      }
      i := i + 1;
    }
    StrCat(prompt, "> ");
  }

  // ---------------------------------------------------------------- the session

  /** The session as a value: the current CSV path (NULL until one is given), the
      prompt text, and the logs of gnuplot commands and console messages. */
  datatype State = State(csvFile: Option<string>, prompt: string, plot: seq<GpCmd>, console: seq<Msg>)

  /** `main`'s starting point: no CSV file and the prompt "> ". */
  const Initial := State(None, "> ", [], [])

  /** The remaining tokens can be joined into a buffer of `capacity` bytes. */
  predicate Fits(args: seq<string>, capacity: nat) {
    args != [] && |Join(args, ' ')| + 2 <= capacity
  }

  /** What `parse_cmd_line` needs to have defined behaviour: a verb (else `strcmp`
      gets NULL), an argument after `legend`, a non-empty join that fits its buffer,
      for `plot` a column number `atoi` can read, a CSV path, and a file whose every
      line has that column, and for `load` a prompt that fits. */
  predicate Defined(st: State, cmd: seq<string>, fs: FileSystem) {
    cmd != [] &&
    var verb, args := cmd[0], cmd[1..];
    (verb == "legend" ==> args != []) &&
    (verb == "xlabel" || verb == "ylabel" ==> Fits(args, LabelCapacity)) &&
    (verb == "plot" ==>
      |args| >= 2 && AtoiDefined(args[0]) && Fits(args[1..], TitleCapacity) &&
      st.csvFile.Some? &&
      (st.csvFile.value in fs ==> ColumnDefined(fs[st.csvFile.value], ToUint8(Atoi(args[0]))))) &&
    (verb == "gp" ==> Fits(args, GpCapacity)) &&
    (verb == "load" ==> Fits(args, FilenameCapacity) && PromptFits(Join(args, ' '), st.prompt))
  }

  /** A confirmation is printed unless the session is quiet. */
  function Confirm(console: seq<Msg>, quiet: bool, m: Msg): seq<Msg> {
    if quiet then console else console + [m]
  }

  /** `parse_cmd_line` on the tokens of one command line. */
  function Dispatch(st: State, cmd: seq<string>, quiet: bool, fs: FileSystem): (Outcome, State)
    requires Defined(st, cmd, fs)
  {
    var verb, args := cmd[0], cmd[1..];
    if verb == "quit" || verb == "exit" then (Stop, st)
    else if verb == "legend" then
      var on := args[0] != "off";
      (Continue, st.(plot := st.plot + [SetKey(on)], console := Confirm(st.console, quiet, LegendTurned(on))))
    else if verb == "xlabel" || verb == "ylabel" then
      var axis := if verb[0] == 'x' then X else Y;
      var text := Join(args, ' ');
      (Continue, st.(plot := st.plot + [SetLabel(axis, text)], console := Confirm(st.console, quiet, LabelSet(axis, text))))
    else if verb == "plot" then
      var col := ToUint8(Atoi(args[0]));
      var title := Join(args[1..], ' ');
      var path := st.csvFile.value;
      if path !in fs then (ExitFailure, st.(console := st.console + [CouldntOpenFile(path)]))
      else (Continue, st.(plot := st.plot + [SetStyle("lines"), PlotSeries(Column(Lines(fs[path]), col), title)]))
    else if verb == "gp" then
      (Continue, st.(plot := st.plot + [Raw(Join(args, ' '))]))
    else if verb == "load" then
      var filename := Join(args, ' ');
      (Continue, st.(csvFile := Some(filename), prompt := Prompt(filename, st.prompt)))
    else
      (Continue, st.(console := st.console + [InvalidCommand(verb)]))
  }

  // ---------------------------------------------------------------- scripts

  /** `line[strlen(line) - 1] = '\0'`: the last character goes, newline or not. */
  function StripLast(line: string): (r: string)
    ensures r <= line && |r| == if line == [] then 0 else |line| - 1
  {
    if line == [] then [] else line[..|line| - 1]
  }

  /** A comment or an empty line, which the script runner passes over. */
  predicate Skipped(line: string) {
    line == [] || line[0] == '#'
  }

  /** Every command the script reaches, up to the first one that stops, is defined. */
  predicate ScriptSafe(st: State, lines: seq<string>, fs: FileSystem)
    decreases |lines|
  {
    lines != [] ==>
      var line := StripLast(lines[0]);
      if Skipped(line) then ScriptSafe(st, lines[1..], fs)
      else
        var cmd := Tokens(line, ' ');
        Defined(st, cmd, fs) &&
        (Dispatch(st, cmd, true, fs).0 == Continue ==> ScriptSafe(Dispatch(st, cmd, true, fs).1, lines[1..], fs))
  }

  /** The loop of `parse_script`: each line stripped of its last character, comments
      and empty lines passed over, the rest dispatched quietly in file order until one
      does not continue. */
  function RunLines(st: State, lines: seq<string>, fs: FileSystem): (Outcome, State)
    requires ScriptSafe(st, lines, fs)
    decreases |lines|
  {
    if lines == [] then (Continue, st)
    else
      var line := StripLast(lines[0]);
      if Skipped(line) then RunLines(st, lines[1..], fs)
      else
        var (o, next) := Dispatch(st, Tokens(line, ' '), true, fs);
        if o == Continue then RunLines(next, lines[1..], fs) else (o, next)
  }

  /** The session once "Reading <path>..." is printed. */
  function Opened(st: State, path: string): State {
    st.(console := st.console + [Reading(path)])
  }

  predicate ScriptDefined(st: State, path: string, fs: FileSystem) {
    path in fs ==> ScriptSafe(Opened(st, path), Lines(fs[path]), fs)
  }

  /** `parse_script`: a script that cannot be opened ends the process. */
  function RunScript(st: State, path: string, fs: FileSystem): (Outcome, State)
    requires ScriptDefined(st, path, fs)
  {
    if path !in fs then (ExitFailure, st.(console := st.console + [CouldntOpenScript(path)]))
    else RunLines(Opened(st, path), Lines(fs[path]), fs)
  }

  /** `main`'s state, updated in place by `parse_cmd_line` through its `csv_file` and
      `prompt` pointers; gnuplot and the console are logs. */
  class Session {
    var csvFile: Option<string>
    const prompt: array<char>
    var plot: seq<GpCmd>
    var console: seq<Msg>

    ghost predicate Valid()
      reads this, prompt
    {
      prompt.Length == PromptSize && '\0' in prompt[..]
    }

    function Snapshot(): State
      reads this, prompt
    {
      State(csvFile, CStr(prompt[..]), plot, console)
    }

    /** The locals of `main` before the arguments are looked at. */
    constructor ()
      ensures Valid() && fresh(prompt)
      ensures Snapshot() == Initial
    {
      csvFile := None;
      prompt := new char[PromptSize](i => if i == 0 then '>' else if i == 1 then ' ' else '\0');
      plot := [];
      console := [];
      new;
      assert prompt[..2] == "> " && prompt[2] == '\0';
      CStrAt(prompt[..], 2);
    }

    /** `parse_cmd_line`: interprets one command; `quit` and `exit` stop, everything
        else, unknown verbs included, continues. */
    method ParseCmdLine(cmd: seq<string>, fs: FileSystem, quiet: bool) returns (cont: Outcome)
      requires Valid() && Defined(Snapshot(), cmd, fs)
      modifies this, prompt
      ensures Valid()
      ensures (cont, Snapshot()) == Dispatch(old(Snapshot()), cmd, quiet, fs)
    {
      var verb, args := cmd[0], cmd[1..];
      cont := Continue;
      if verb == "quit" || verb == "exit" {
        cont := Stop;
      } else if verb == "legend" {
        var on := args[0] != "off";
        plot := plot + [SetKey(on)];
        if !quiet {
          console := console + [LegendTurned(on)];
        }
      } else if verb == "xlabel" || verb == "ylabel" {
        var arg := ParseSpacedArg(args, LabelCapacity);
        var xy := verb[0];
        var axis := if xy == 'x' then X else Y;
        if !quiet {
          console := console + [LabelSet(axis, arg)];
        }
        if xy == 'x' {
          plot := plot + [SetLabel(X, arg)];
        } else if xy == 'y' {
          plot := plot + [SetLabel(Y, arg)];
        }
      } else if verb == "plot" {
        var col := ToUint8(Atoi(args[0]));
        var title := ParseSpacedArg(args[1..], TitleCapacity);
        var path := csvFile.value;
        if path !in fs {
          console := console + [CouldntOpenFile(path)];
          cont := ExitFailure;
        } else {
          var items, n := ReadCsvCol(fs[path], col);
          assert items[..n] == items[..];
          plot := plot + [SetStyle("lines"), PlotSeries(items[..n], title)];
        }
      } else if verb == "gp" {
        var gpCmd := ParseSpacedArg(args, GpCapacity);
        plot := plot + [Raw(gpCmd)];
      } else if verb == "load" {
        var filename := ParseSpacedArg(args, FilenameCapacity);
        csvFile := Some(filename);
        GeneratePrompt(prompt, filename);
      } else {
        console := console + [InvalidCommand(verb)];
      }
    }

    /** `parse_script`: runs the script's lines through `parse_cmd_line` in quiet mode
        while it continues, and returns the last answer. */
    method ParseScript(path: string, fs: FileSystem) returns (cont: Outcome)
      requires Valid() && ScriptDefined(Snapshot(), path, fs)
      modifies this, prompt
      ensures Valid()
      ensures (cont, Snapshot()) == RunScript(old(Snapshot()), path, fs)
    {
      if path !in fs {
        console := console + [CouldntOpenScript(path)];
        return ExitFailure;
      }
      console := console + [Reading(path)];
      var lines := Lines(fs[path]);
      ghost var start := Snapshot();
      cont := Continue;
      var i := 0;
      while i < |lines| && cont == Continue
        invariant Valid()
        invariant 0 <= i <= |lines|
        invariant cont == Continue ==>
          ScriptSafe(Snapshot(), lines[i..], fs) &&
          RunLines(start, lines, fs) == RunLines(Snapshot(), lines[i..], fs)
        invariant cont != Continue ==> RunLines(start, lines, fs) == (cont, Snapshot())
        decreases |lines| - i
      {
        assert lines[i..][1..] == lines[i + 1..];
        var line := StripLast(lines[i]);
        i := i + 1;
        if Skipped(line) {
          continue;
        }
        cont := ParseCmdLine(Tokens(line, ' '), fs, true);
      }
    }
  }

  /** The start of `main`: one argument ending in ".pc" is run as a script, any other
      single argument becomes the CSV path and names the prompt. */
  method Startup(argv: seq<string>, fs: FileSystem) returns (session: Session, running: Outcome)
    requires |argv| == 2 ==>
      |argv[1]| >= 3 &&
      if IsScriptName(argv[1]) then ScriptDefined(Initial, argv[1], fs)
      else PromptFits(argv[1], "> ")
    ensures fresh(session) && fresh(session.prompt) && session.Valid()
    ensures |argv| != 2 ==> running == Continue && session.Snapshot() == Initial
    ensures |argv| == 2 && IsScriptName(argv[1]) ==>
      (running, session.Snapshot()) == RunScript(Initial, argv[1], fs)
    ensures |argv| == 2 && !IsScriptName(argv[1]) ==>
      running == Continue &&
      session.Snapshot() == Initial.(csvFile := Some(argv[1]), prompt := Prompt(argv[1], "> "))
  {
    session := new Session();
    running := Continue;
    if |argv| == 2 {
      if IsScriptName(argv[1]) {
        running := session.ParseScript(argv[1], fs);
      } else {
        session.csvFile := Some(argv[1]);
        GeneratePrompt(session.prompt, argv[1]);
      }
    }
  }
}
