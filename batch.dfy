/** src/profiler.c: the batch tool. It prints the third comma-separated field of every
    line of the CSV file named on the command line, each followed by " - ". Standard
    output is modelled as the text written to it. */
module BatchProfiler {
  import opened Base
  import opened Strtok
  import opened CsvReader

  /** The column `main` asks for. */
  const ReportedColumn: nat := 2

  /** The text printed for the fields `items`: each followed by " - ". */
  function Listing(items: seq<string>): string
  {
    if items == [] then [] else Listing(items[..|items| - 1]) + items[|items| - 1] + " - "
  }

  /** The listing of two runs of fields is the listing of the first, then of the second. */
  lemma {:induction false} ListingAppend(a: seq<string>, b: seq<string>)
    ensures Listing(a + b) == Listing(a) + Listing(b)
    decreases |b|
  {
    if b == [] {
      assert a + b == a;
    } else {
      var c := b[..|b| - 1];
      assert (a + b)[..|a + b| - 1] == a + c;
      ListingAppend(a, c);
    }
  }

  /** A single field is printed as itself followed by " - ". */
  lemma ListingSingle(item: string)
    ensures Listing([item]) == item + " - "
  {
    assert [item][..0] == [];
  }

  /** One more line prints its field and " - " after what the earlier lines printed. */
  lemma NextLine(lines: seq<string>, i: nat, col: nat)
    requires i < |lines| && AllHaveColumn(lines, col)
    ensures AllHaveColumn(lines[..i], col) && AllHaveColumn(lines[..i + 1], col)
    ensures Listing(Column(lines[..i + 1], col)) ==
      Listing(Column(lines[..i], col)) + Tokens(lines[i], ',')[col] + " - "
  {
    var item := Tokens(lines[i], ',')[col];
    assert lines[..i + 1] == lines[..i] + [lines[i]];
    ColumnAppend(lines[..i], [lines[i]], col);
    ListingAppend(Column(lines[..i], col), [item]);
    ListingSingle(item);
  }

  /** Because the field counter starts again at every line, the text printed for a file
      is the text for its first part followed by the text for the rest, when the first
      part ends with a newline. */
  lemma PerLine(a: string, b: string, col: nat)
    requires !Unterminated(a) && ColumnDefined(a, col) && ColumnDefined(b, col)
    ensures ColumnDefined(a + b, col)
    ensures Listing(Column(Lines(a + b), col)) ==
      Listing(Column(Lines(a), col)) + Listing(Column(Lines(b), col))
  {
    ColumnOfAppend(a, b, col);
    ListingAppend(Column(Lines(a), col), Column(Lines(b), col));
  }

  /** `read_csv_col`: a missing file prints "Couldn't open file: ..." and ends the process
      with EXIT_FAILURE before any field is printed; otherwise the `col`-th field of each
      line is printed in file order. `ok` is false when the process ended. */
  method ReadCsvCol(path: string, fs: FileSystem, col: nat) returns (out: string, ok: bool)
    requires col < 0x100
    requires path in fs ==> ColumnDefined(fs[path], col)
    ensures ok <==> path in fs
    ensures ok ==> out == Listing(Column(Lines(fs[path]), col))
    ensures !ok ==> out == "Couldn't open file: " + path + "\n"
  {
    if path !in fs {
      return "Couldn't open file: " + path + "\n", false;
    }
    var lines := Lines(fs[path]);
    out := "";
    var i := 0;
    while i < |lines|
      invariant 0 <= i <= |lines|
      invariant out == Listing(Column(lines[..i], col))
    {
      var item := SelectField(lines[i], col);
      NextLine(lines, i, col);
      out := out + item + " - ";
      i := i + 1;
    }
    assert lines[..i] == lines;
    ok := true;
  }

  /** `main`: with no file argument it prints the usage line and fails; otherwise it
      prints the third field of every line and succeeds, unless the file is missing. */
  method Run(argv: seq<string>, fs: FileSystem) returns (out: string, status: int)
    requires |argv| >= 1
    requires |argv| >= 2 && argv[1] in fs ==> ColumnDefined(fs[argv[1]], ReportedColumn)
    ensures |argv| < 2 ==> out == "Usage: " + argv[0] + " <file.csv>\n" && status == EXIT_FAILURE
    ensures |argv| >= 2 ==> (status == EXIT_SUCCESS <==> argv[1] in fs)
    ensures |argv| >= 2 && argv[1] !in fs ==>
      out == "Couldn't open file: " + argv[1] + "\n" && status == EXIT_FAILURE
    ensures |argv| >= 2 && argv[1] in fs ==>
      out == Listing(Column(Lines(fs[argv[1]]), ReportedColumn))
  {
    if |argv| < 2 {
      return "Usage: " + argv[0] + " <file.csv>\n", EXIT_FAILURE;
    }
    var ok;
    out, ok := ReadCsvCol(argv[1], fs, ReportedColumn);
    status := if ok then EXIT_SUCCESS else EXIT_FAILURE;
  }
}
