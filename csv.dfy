/** The CSV column reader: `csv_lines` counts the records, `read_csv_col` picks one
    comma-separated field out of every line. The file is its content, already read. */
module CsvReader {
  import opened Strtok

  /** What `csv_lines` counts: the newline characters of the file. */
  function NewlineCount(content: string): nat {
    multiset(content)['\n']
  }

  /** A non-empty file whose last character is not a newline. */
  predicate Unterminated(content: string) {
    content != [] && content[|content| - 1] != '\n'
  }

  /** The lines `getline` returns one after the other: each keeps its newline, and a
      last line without one is returned as well. */
  function Lines(content: string): (ls: seq<string>)
    ensures forall i :: 0 <= i < |ls| ==> ls[i] != [] && '\n' !in ls[i][..|ls[i]| - 1]
    ensures forall i :: 0 <= i < |ls| - 1 ==> ls[i][|ls[i]| - 1] == '\n'
    decreases |content|
  {
    if content == [] then []
    else
      var n := Span(content, '\n');
      assert '\n' !in content[..n] by {
        forall i | 0 <= i < n ensures content[..n][i] != '\n' { }
      }
      if n == |content| then [content]
      else
        assert content[..n + 1][..n] == content[..n];
        [content[..n + 1]] + Lines(content[n + 1..])
  }

  function Concat(ls: seq<string>): string {
    if ls == [] then [] else ls[0] + Concat(ls[1..])
  }

  /** The lines are the file, cut after each newline. */
  lemma {:induction false} LinesConcat(content: string)
    ensures Concat(Lines(content)) == content
    decreases |content|
  {
    if content != [] {
      var n := Span(content, '\n');
      if n < |content| {
        LinesConcat(content[n + 1..]);
        assert content == content[..n + 1] + content[n + 1..];
      }
    }
  }

  /** `getline` yields one line per newline, plus one for an unterminated last line. */
  lemma {:induction false} LinesCount(content: string)
    ensures |Lines(content)| == NewlineCount(content) + if Unterminated(content) then 1 else 0
    decreases |content|
  {
    if content != [] {
      var n := Span(content, '\n');
      assert '\n' !in content[..n] by {
        forall i | 0 <= i < n ensures content[..n][i] != '\n' { }
      }
      if n == |content| {
        assert content[..n] == content;
      } else {
        var rest := content[n + 1..];
        assert content == content[..n] + [content[n]] + rest;
        assert multiset(content) == multiset(content[..n]) + multiset{'\n'} + multiset(rest);
        LinesCount(rest);
        if rest == [] {
          assert content[|content| - 1] == '\n';
        } else {
          assert content[|content| - 1] == rest[|rest| - 1];
        }
      }
    }
  }

  /** Lines of a file that ends in a newline do not run into what follows. */
  /** A file that holds a newline starts with the line up to and including it. */
  lemma LinesStep(content: string, n: nat)
    requires n == Span(content, '\n') && n < |content|
    ensures Lines(content) == [content[..n + 1]] + Lines(content[n + 1..])
  {
  }

  /** The first line of a file is not changed by what follows it. */
  lemma LinesFront(a: string, b: string, n: nat)
    requires n == Span(a, '\n') && n < |a|
    ensures Lines(a + b) == [a[..n + 1]] + Lines(a[n + 1..] + b)
  {
    SpanPrefix(a, b, '\n');
    LinesStep(a + b, n);
    assert (a + b)[..n + 1] == a[..n + 1];
    assert (a + b)[n + 1..] == a[n + 1..] + b;
  }

  /** In a file ending with a newline, the first line ends before the end, and what
      follows it ends with a newline too. */
  lemma FirstLineEnds(a: string)
    requires a != [] && !Unterminated(a)
    ensures Span(a, '\n') < |a| && !Unterminated(a[Span(a, '\n') + 1..])
  {
    var n := Span(a, '\n');
    var rest := a[n + 1..];
    if rest != [] {
      assert rest[|rest| - 1] == a[|a| - 1];
    }
  }

  /** Appending after the first line carries over to the whole file. */
  lemma LinesAppendStep(a: string, b: string, n: nat)
    requires n == Span(a, '\n') && n < |a|
    requires Lines(a[n + 1..] + b) == Lines(a[n + 1..]) + Lines(b)
    ensures Lines(a + b) == Lines(a) + Lines(b)
  {
    LinesFront(a, b, n);
    LinesStep(a, n);
    AppendAssoc([a[..n + 1]], Lines(a[n + 1..]), Lines(b));
  }
  lemma {:induction false} LinesAppend(a: string, b: string)
    requires !Unterminated(a)
    ensures Lines(a + b) == Lines(a) + Lines(b)
    decreases |a|
  {
    if a == [] {
      assert a + b == b;
    } else {
      FirstLineEnds(a);
      var n := Span(a, '\n');
      LinesAppend(a[n + 1..], b);
      LinesAppendStep(a, b, n);
    }
  }

  /** A line with its newline and no other is one `getline` line. */
  lemma LinesSingle(body: string)
    requires '\n' !in body
    ensures Lines(body + "\n") == [body + "\n"]
  {
    var line := body + "\n";
    SpanAppend(body, "\n", '\n');
    assert Span(line, '\n') == |body|;
    assert line[..|body| + 1] == line;
    assert line[|body| + 1..] == [];
    assert Lines(line) == [line[..|body| + 1]] + Lines(line[|body| + 1..]);
  }

  /** A line as `getline` returns it when a newline ends it. */
  predicate Terminated(line: string) {
    line != [] && line[|line| - 1] == '\n' && '\n' !in line[..|line| - 1]
  }

  /** Newline-terminated lines written one after the other are read back as
      themselves: the converse of `LinesConcat`. */
  lemma {:induction false} ConcatLines(ls: seq<string>)
    requires forall i :: 0 <= i < |ls| ==> Terminated(ls[i])
    ensures Lines(Concat(ls)) == ls
  {
    if ls != [] {
      var first := ls[0];
      var body := first[..|first| - 1];
      assert first == body + "\n";
      LinesSingle(body);
      assert Concat(ls) == first + Concat(ls[1..]);
      LinesAppend(first, Concat(ls[1..]));
      ConcatLines(ls[1..]);
    }
  }

  /** The line has a `col`-th comma token (numbering from 0). */
  predicate HasColumn(line: string, col: nat) {
    col < |Tokens(line, ',')|
  }

  predicate AllHaveColumn(lines: seq<string>, col: nat) {
    forall i :: 0 <= i < |lines| ==> HasColumn(lines[i], col)
  }

  /** Every line of the file has the column: without it `strtok` runs out of fields and
      the field passed on is NULL. */
  predicate ColumnDefined(content: string, col: nat) {
    AllHaveColumn(Lines(content), col)
  }

  /** The `col`-th comma token of every line, in order. */
  function Column(lines: seq<string>, col: nat): (items: seq<string>)
    requires AllHaveColumn(lines, col)
    ensures |items| == |lines|
    ensures forall i :: 0 <= i < |lines| ==> items[i] == Tokens(lines[i], ',')[col]
  {
    if lines == [] then [] else [Tokens(lines[0], ',')[col]] + Column(lines[1..], col)
  }

  /** The selection of each line is independent of the lines before it. */
  lemma ColumnAppend(a: seq<string>, b: seq<string>, col: nat)
    requires AllHaveColumn(a, col) && AllHaveColumn(b, col)
    ensures AllHaveColumn(a + b, col)
    ensures Column(a + b, col) == Column(a, col) + Column(b, col)
  {
    assert AllHaveColumn(a + b, col) by {
      forall i | 0 <= i < |a + b| ensures HasColumn((a + b)[i], col) {
        if i >= |a| { assert (a + b)[i] == b[i - |a|]; }
      }
    }
  }

  /** The column of two files read one after the other, the first ending in a newline,
      is the column of the first followed by the column of the second. */
  lemma ColumnOfAppend(a: string, b: string, col: nat)
    requires !Unterminated(a) && ColumnDefined(a, col) && ColumnDefined(b, col)
    ensures ColumnDefined(a + b, col)
    ensures Column(Lines(a + b), col) == Column(Lines(a), col) + Column(Lines(b), col)
  {
    LinesAppend(a, b);
    ColumnAppend(Lines(a), Lines(b), col);
  }

  /** `csv_lines`: reads the file a character at a time and counts the newlines. */
  method CsvLines(content: string) returns (n: nat)
    ensures n == NewlineCount(content)
  {
    n := 0;
    var i := 0;
    while i < |content|
      invariant i <= |content|
      invariant n == multiset(content[..i])['\n']
    {
      assert content[..i + 1] == content[..i] + [content[i]];
      if content[i] == '\n' {
        n := n + 1;
      }
      i := i + 1;
    }
    assert content[..i] == content;
  }

  /** The inner loop of `read_csv_col`: the first `strtok` call gives field 0, and each
      further call, counted by `citem`, the next field until `citem` reaches `col`. */
  method SelectField(line: string, col: nat) returns (sitem: string)
    requires HasColumn(line, col)
    ensures sitem == Tokens(line, ',')[col]
  {
    var fields := Tokens(line, ',');
    sitem := fields[0];
    var citem := 0;
    while citem != col
      invariant citem <= col
      invariant sitem == fields[citem]
    {
      citem := citem + 1;
      sitem := fields[citem];
    }
  }

  /** The number of items `read_csv_col` allocates: `csv_lines`, corrected by one
      slot for a last line that has no newline. */
  method ItemSlots(content: string) returns (size: nat)
    ensures size == |Lines(content)|
  {
    size := CsvLines(content);
    if content != [] && content[|content| - 1] != '\n' {
      size := size + 1;
    }
    LinesCount(content);
  }

  /** `read_csv_col`: sizes the array by counting newlines, then stores the `col`-th comma
      token of each `getline` line, restarting the token count on every line, and
      returns how many it stored. The size comes from `ItemSlots`, which adds the slot
      for an unterminated last line that the source writes past the end of. */
  method ReadCsvCol(content: string, col: nat) returns (items: array<string>, nitems: nat)
    requires col < 0x100
    requires ColumnDefined(content, col)
    ensures fresh(items)
    ensures nitems == items.Length == |Lines(content)|
    ensures items[..] == Column(Lines(content), col)
  {
    var size := ItemSlots(content);
    var lines := Lines(content);
    items := new string[size];
    nitems := 0;
    while nitems < |lines|
      invariant nitems <= |lines| == items.Length
      invariant forall j :: 0 <= j < nitems ==> items[j] == Tokens(lines[j], ',')[col]
    {
      items[nitems] := SelectField(lines[nitems], col);
      nitems := nitems + 1;
    }
  }

  /** As written, `read_csv_col` allocates `csv_lines` items but stores one per
      `getline` line: a file whose last line has no newline gets one store past the
      end of the array. For "1,2" the array has no slot and one item is stored. */
  lemma SourceSizingOverflows(content: string)
    ensures Unterminated(content) ==> |Lines(content)| == NewlineCount(content) + 1
    ensures content == "1,2" ==> NewlineCount(content) == 0 && |Lines(content)| == 1
  {
    LinesCount(content);
    if content == "1,2" {
      assert '\n' !in content;
    }
  }

  /** For an empty file or one ending in a newline the corrected size is the
      source's: exactly `csv_lines` slots, each written once. */
  lemma SizingAgreesWhenTerminated(content: string)
    requires !Unterminated(content)
    ensures |Lines(content)| == NewlineCount(content)
  {
    LinesCount(content);
  }
}
