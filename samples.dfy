/** Concrete files and command lines: how they split into lines and tokens. Each fact
    is its own small lemma so that the solver sees one literal at a time. */
module Samples {
  import opened Strtok
  import opened CsvReader

  /** The tokens of a string written as a join of separable tokens are those tokens. */
  lemma TokensOf(s: string, ts: seq<string>, d: char)
    requires Separable(ts, d) && s == Join(ts, d)
    ensures Tokens(s, d) == ts
  {
    TokensJoin(ts, d);
  }

  /** The demo CSV file is two newline-terminated lines. */
  lemma DemoCsvLines(content: string)
    requires content == "1,10.5,20\n2,11.0,21\n"
    ensures Lines(content) == ["1,10.5,20\n", "2,11.0,21\n"]
  {
    var ls := ["1,10.5,20\n", "2,11.0,21\n"];
    assert Concat(ls) == content;
    ConcatLines(ls);
  }

  lemma FirstRowFields()
    ensures Tokens("1,10.5,20\n", ',') == ["1", "10.5", "20\n"]
  {
    TokensOf("1,10.5,20\n", ["1", "10.5", "20\n"], ',');
  }

  lemma SecondRowFields()
    ensures Tokens("2,11.0,21\n", ',') == ["2", "11.0", "21\n"]
  {
    TokensOf("2,11.0,21\n", ["2", "11.0", "21\n"], ',');
  }

  /** Column 1 of the demo file is "10.5" then "11.0"; the last field of a line keeps
      its newline, so column 2 is "20\n" then "21\n". */
  lemma CsvColumnExample(content: string)
    requires content == "1,10.5,20\n2,11.0,21\n"
    ensures ColumnDefined(content, 2)
    ensures Column(Lines(content), 1) == ["10.5", "11.0"]
    ensures Column(Lines(content), 2) == ["20\n", "21\n"]
  {
    DemoCsvLines(content);
    FirstRowFields();
    SecondRowFields();
  }

  lemma XlabelTokens()
    ensures Tokens("xlabel Time (s)", ' ') == ["xlabel", "Time", "(s)"]
  {
    assert "xlabel Time (s)" == Join(["xlabel", "Time", "(s)"], ' ');
    TokensJoin(["xlabel", "Time", "(s)"], ' ');
  }

  lemma GridTail(t: string)
    requires t == " grid"
    ensures Tokens(t, ' ') == ["grid"]
  {
    TokensSkip(t, ' ');
    assert t[1..] == "grid";
    TokensSingle("grid", ' ');
  }

  lemma GpSet(t: string)
    requires t == "gp set"
    ensures Tokens(t, ' ') == ["gp", "set"]
  {
    TokensOf(t, ["gp", "set"], ' ');
  }

  /** `gp set  grid` splits into three tokens: the double space does not survive. */
  lemma GpTokens(line: string)
    requires line == "gp set  grid"
    ensures Tokens(line, ' ') == ["gp", "set", "grid"]
  {
    var a, b := line[..6], line[7..];
    assert line == a + [' '] + b;
    TokensSplit(a, b, ' ');
    GpSet(a);
    GridTail(b);
  }

  /** The sample path is a C string: it holds no NUL. */
  lemma SamplePathText(path: string)
    requires path == "data/sample.csv"
    ensures '\0' !in path
  {
    assert forall i :: 0 <= i < |path| ==> path[i] != '\0';
  }

  lemma SamplePathTokens(path: string)
    requires path == "data/sample.csv"
    ensures Tokens(path, '/') == ["data", "sample.csv"]
  {
    TokensOf(path, ["data", "sample.csv"], '/');
  }

  /** The demo script is four newline-terminated lines. */
  lemma DemoScriptLines(content: string)
    requires content == "# comment\n\nxlabel X\nquit\n"
    ensures Lines(content) == ["# comment\n", "\n", "xlabel X\n", "quit\n"]
  {
    var ls := ["# comment\n", "\n", "xlabel X\n", "quit\n"];
    assert Concat(ls) == content;
    ConcatLines(ls);
  }
}
