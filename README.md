# plotcsv in Dafny

plotcsv is a small C program that plots a column of a CSV file with gnuplot. It has
two front ends:

- `plotcsv.c` is a REPL with a prompt named after the current CSV file. It understands
  these commands:
  - `legend on|off`
  - `xlabel <text>` and `ylabel <text>`
  - `plot <column> <title>`
  - `gp <raw gnuplot command>`
  - `load <csv path>`
  - `quit` and `exit`

  It can also replay a `.pc` script quietly at start-up.
- `profiler.c` is an earlier REPL with a smaller set of commands: no `gp` and no `load`.

`src/profiler.c` is a batch tool. It prints the third field of every line of a CSV
file.

Three pieces of C behaviour are modelled exactly:

- `strtok`: runs of delimiters collapse, and no token is empty.
- `getline`: every line keeps its newline, and an unterminated last line is still read.
- `atoi` followed by the conversion to `uint8_t`.

The model is made of these modules:

- **Strtok**: `strtok` as the list of tokens it yields, and the argument joining of
  `parse_spaced_arg`.
- **CBuffer**: NUL-terminated `char` buffers with `strlen`, `strncpy` and `strcat` on
  arrays.
- **Numerals**: `atoi` and `uint8_t`.
- **CsvReader**: `getline` lines, `csv_lines`, and `read_csv_col` filling an array.
- **Effects**: gnuplot calls and `printf` output, recorded as logs.
- **PlotCsv**: the session as a class. `Session.ParseCmdLine` and `Session.ParseScript`
  update it in place. Each is proved against a reference function (`Dispatch` and
  `RunScript`). `GeneratePrompt` rewrites the 64-byte prompt array.
- **PlotCsvLaws**: what a command or a script does, stated over `Dispatch` and
  `RunLines`.
- **Profiler**: the `profiler.c` REPL, proved against its reference `Step`, and its
  agreement with plotcsv on the verbs they share.
- **BatchProfiler**: `src/profiler.c`, with standard output as the text it receives.
- **Samples** and **Scenarios**: concrete files, command lines and sessions.

The outside world is passed in or recorded:

- The file system is a parameter `fs: map<string, string>` from path to contents. A
  missing key is a file that `fopen` cannot open.
- gnuplot is a log of `GpCmd` values.
- The console is a log of `Msg` values.
- Ending the process with `exit(EXIT_FAILURE)` is the outcome `ExitFailure`.

## Model

| member | source | states |
|---|---|---|
| Strtok.Span | plotcsv.c:264 | the length of the longest prefix without the delimiter: no delimiter before it, and a delimiter right at it unless the text ends there |
| Strtok.Tokens | plotcsv.c:243-249 | every token `strtok` yields is non-empty and holds no delimiter |
| Strtok.TokensSplit | plotcsv.c:219-222 | a delimiter cuts the text into two parts whose tokens are tokenised independently, so a run of delimiters yields no empty token |
| Strtok.TokensSkip | plotcsv.c:243 | a leading delimiter produces no token |
| Strtok.TokensStep | plotcsv.c:243 | the first token of a text that starts with a non-delimiter runs up to the next delimiter |
| Strtok.TokensHead | plotcsv.c:161 | a text that starts with a non-delimiter has a first token starting with that character (so a line whose tokens are just `quit` or `exit` cannot start with '#' and is not passed over as a comment) |
| Strtok.TokensSingle | plotcsv.c:264 | a non-empty text without the delimiter is exactly one token |
| Strtok.TokensJoin | plotcsv.c:242-253 | round trip: tokenising the space-joined argument gives back the tokens |
| Strtok.Join | plotcsv.c:242-253 | reference: the tokens written out with one delimiter between neighbours and none at either end, which `parse_spaced_arg` builds; `TokensJoin` shows it loses nothing |
| Strtok.JoinAppend | plotcsv.c:245-247 | joining two non-empty runs of tokens puts one delimiter between their joins |
| Strtok.TokensAvoid | plotcsv.c:264-268 | no token holds a character the text does not hold |
| Strtok.AfterLast | plotcsv.c:264-269 | the text after the last delimiter holds no delimiter |
| Strtok.AfterLastFree | plotcsv.c:264-269 | a text without the delimiter is its own tail |
| Strtok.AfterLastPast | plotcsv.c:264-269 | the tail after the last delimiter does not depend on what comes before any delimiter |
| Strtok.LastToken | plotcsv.c:264-269 | the last token of a text that does not end in the delimiter is the text after its last delimiter |
| Strtok.ParseSpacedArg | plotcsv.c:242-253 | `parse_spaced_arg`: `strcat`s each token and a space, then removes the last space, leaving the tokens joined by single spaces |
| CBuffer.CStr | plotcsv.c:23 | the C string a buffer holds is NUL-free and a prefix of the buffer, and a NUL ends it |
| CBuffer.CStrAt | plotcsv.c:23 | the first NUL of a buffer ends its C string there |
| CBuffer.StrLen | plotcsv.c:271 | `strlen` returns the length of the buffer's C string, which lies below the buffer's size |
| CBuffer.StrNCpy | plotcsv.c:267 | `strncpy(dst, src, 60)` writes the source and then NUL padding into the first 60 bytes and leaves the rest |
| CBuffer.StrCat | plotcsv.c:271 | `strcat` makes the buffer's C string the old one followed by the appended text |
| Numerals.SkipSpace | plotcsv.c:102 | what `atoi` reads after the leading white space is a suffix of the token that starts with no white space |
| Numerals.DigitPrefix | plotcsv.c:102 | `atoi` reads the longest run of leading digits |
| Numerals.Atoi | plotcsv.c:102 | reference: `atoi` skips leading white space, reads an optional sign and then as many digits as follow, giving 0 when no digit follows; `AtoiDigits`, `AtoiLeadingDigits`, `AtoiMinus`, `AtoiDecimal` and `AtoiNonNumeric` state it for digit runs, digit runs followed by other text, negated digit runs, canonical numerals and text without a leading number |
| Numerals.ToUint8 | plotcsv.c:102 | the conversion to `uint8_t` is the value modulo 256 |
| Numerals.DigitPrefixAll | plotcsv.c:102 | a run of digits is read whole |
| Numerals.NoLeadingSpace | plotcsv.c:102 | text that does not start with white space has none to skip |
| Numerals.AtoiDigits | plotcsv.c:102 | `atoi` of a run of digits is its value |
| Numerals.DigitPrefixAppend | plotcsv.c:102 | the digits `atoi` reads stop where the run of digits stops, whatever text follows |
| Numerals.AtoiLeadingDigits | plotcsv.c:102 | a run of digits followed by text that does not start with a digit reads as the run, so `plot 2x` plots column 2 |
| Numerals.AtoiMinus | plotcsv.c:102 | `atoi` of "-" followed by digits is the negated value |
| Numerals.AtoiDecimal | plotcsv.c:102 | round trip: `atoi` reads back every numeral, with or without a minus sign |
| Numerals.AtoiNonNumeric | plotcsv.c:102 | a token that does not start with white space, a sign or a digit reads as 0, so `plot x` plots column 0 |
| Numerals.ColumnNumber | plotcsv.c:102 | a column number below 256 written in decimal selects that very column |
| CsvReader.Lines | plotcsv.c:218 | each `getline` line is non-empty, holds a newline only as its last character, and every line but the last ends in one |
| CsvReader.LinesConcat | plotcsv.c:218-228 | the lines written one after the other are the file |
| CsvReader.LinesCount | plotcsv.c:209-218 | there is one line per newline, plus one for an unterminated last line |
| CsvReader.LinesStep | plotcsv.c:218 | a file holding a newline starts with the line up to and including it |
| CsvReader.LinesFront | plotcsv.c:218 | the first line of a file does not change when text is appended |
| CsvReader.FirstLineEnds | plotcsv.c:218 | in a file that ends in a newline, the first line ends before the end of the file, and so does the rest |
| CsvReader.LinesAppendStep | plotcsv.c:218 | appending after the first line carries over to the whole file |
| CsvReader.LinesAppend | plotcsv.c:218-228 | after a newline-terminated part, the lines of the rest follow unchanged |
| CsvReader.LinesSingle | plotcsv.c:218 | a body followed by its newline is a single line |
| CsvReader.ConcatLines | plotcsv.c:218-228 | round trip: newline-terminated lines written out are read back as the same lines |
| CsvReader.Column | plotcsv.c:218-228 | one item per line, and item i is the `col`-th comma token of line i |
| CsvReader.ColumnAppend | plotcsv.c:226 | because the field counter is reset after every line, the selection on each line does not depend on earlier lines |
| CsvReader.ColumnOfAppend | plotcsv.c:218-228 | the column of two files read one after the other, the first ending in a newline, is the first file's column followed by the second's |
| CsvReader.CsvLines | plotcsv.c:175-193 | `csv_lines` returns the number of newline characters in the file |
| CsvReader.SelectField | plotcsv.c:219-223 | after `col` further `strtok` calls the field is the `col`-th comma token of the line |
| CsvReader.ItemSlots | plotcsv.c:209-210 | the corrected allocation size is exactly the number of `getline` lines |
| CsvReader.ReadCsvCol | plotcsv.c:203-234 | `read_csv_col` fills a fresh array whose length is the returned count, one item per line holding that line's `col`-th field, in file order |
| CsvReader.SourceSizingOverflows | plotcsv.c:209-227 | as written, an unterminated last line makes the stored items one more than the `csv_lines` allocation, for example on "1,2" |
| CsvReader.SizingAgreesWhenTerminated | plotcsv.c:209-227 | for an empty file or one ending in a newline, the `csv_lines` count equals the number of lines |
| Effects.NeutralCommands | plotcsv.c:106-109 | the style and series that `plot` sends leave the labels and the key as they were; raw `gp` text is excluded, since it may hold any gnuplot command |
| Effects.SetLabelEffect | plotcsv.c:92-98 | setting one axis label shows it on that axis and leaves the other axis and the key alone |
| Effects.SetKeyEffect | plotcsv.c:71-81 | `set key on/off` decides the legend and leaves both labels alone |
| PlotCsv.IsScriptName | plotcsv.c:26-28 | an argument is a script exactly when its last three characters are ".pc" |
| PlotCsv.ScriptNames | plotcsv.c:26-28 | "x.pc" is taken as a script and "x.csv" as a CSV file |
| PlotCsv.Prompt | plotcsv.c:261-273 | reference: the last non-empty '/'-separated component of the path followed by "> ", or the previous prompt followed by "> " when the path has no component |
| PlotCsv.PromptBasename | plotcsv.c:261-273 | for a path that does not end in '/', the prompt is its last component followed by "> " |
| PlotCsv.GeneratePrompt | plotcsv.c:261-273 | `generate_prompt` leaves in the prompt array the C string that the reference `Prompt` gives for the path and the previous prompt |
| PlotCsv.Dispatch | plotcsv.c:65-129 | reference for `parse_cmd_line`, verb by verb: `quit`/`exit` stop; `legend` sends `set key off` for "off" and `set key on` otherwise; `xlabel`/`ylabel` set the axis named by the verb's first letter; `plot` sends the style "lines" and the column, or ends the process when the file is missing; `gp` sends the joined text; `load` replaces the path and the prompt; anything else prints "Invalid command". Confirmations are printed only when not quiet |
| PlotCsv.StripLast | plotcsv.c:153 | the last character of a script line goes, whether it is a newline or not: the result is the line's prefix one character shorter |
| PlotCsv.Skipped | plotcsv.c:156 | reference: a stripped line that is empty or starts with '#' is passed over |
| PlotCsv.RunLines | plotcsv.c:152-163 | reference for the loop of `parse_script`: strip each line, pass over comments and empty lines, dispatch the rest quietly in file order, and stop at the first command that does not continue |
| PlotCsv.RunScript | plotcsv.c:140-167 | reference for `parse_script`: a missing script prints "Couldn't open script" and ends the process; otherwise "Reading <path>..." is printed and the lines are run |
| PlotCsv.Session.constructor | plotcsv.c:18-23 | `main` starts with no CSV file, the prompt "> " and empty logs |
| PlotCsv.Session.ParseCmdLine | plotcsv.c:65-129 | `parse_cmd_line` updates the session in place as the reference `Dispatch` says, and returns its outcome |
| PlotCsv.Session.ParseScript | plotcsv.c:140-167 | `parse_script` leaves the session and outcome that the reference `RunScript` gives: a missing script ends the process; otherwise it prints "Reading", passes over comments and empty lines, and dispatches the other lines quietly until one stops |
| PlotCsv.Startup | plotcsv.c:17-37 | one argument ending in ".pc" runs that script; any other single argument becomes the CSV path and names the prompt; otherwise the session starts as initialised |
| PlotCsvLaws.StopsExactlyOnQuit | plotcsv.c:67-68 | a command stops the REPL exactly when it is `quit` or `exit`, and it then changes nothing; the process ends exactly when `plot` names a missing file |
| PlotCsvLaws.UnknownVerbContinues | plotcsv.c:124-126 | an unknown verb only prints "Invalid command", even in quiet mode, and the REPL continues |
| PlotCsvLaws.LegendSetsKey | plotcsv.c:69-81 | `legend off` hides the key and `legend <anything else>` shows it; labels, path and prompt are unchanged |
| PlotCsvLaws.LabelSetsAxis | plotcsv.c:82-98 | `xlabel`/`ylabel` set the axis the verb names to the remaining tokens joined by single spaces, and leave the other axis and the key |
| PlotCsvLaws.PlotDrawsColumn | plotcsv.c:99-109 | `plot n title` sets the style "lines" and draws the n-th (mod 256) field of every line, titled with the joined title tokens |
| PlotCsvLaws.GpSendsJoinedTokens | plotcsv.c:110-115 | `gp` sends the remaining tokens joined by single spaces as one raw gnuplot command, and the tokens can be recovered from it |
| PlotCsvLaws.LoadReplacesCsvFile | plotcsv.c:116-123 | `load` makes the joined argument the CSV path and rebuilds the prompt from it, without sending or printing anything |
| PlotCsvLaws.OnlyLoadMovesCsvFile | plotcsv.c:65-129 | no verb but `load` changes the CSV path or the prompt |
| PlotCsvLaws.QuietDropsOnlyConfirmations | plotcsv.c:73-90 | quiet mode changes only the console, and it drops exactly the confirmation messages |
| PlotCsvLaws.RunLinesAppend | plotcsv.c:152-163 | running a script in two pieces is running it whole; the second piece runs only if the first continues |
| PlotCsvLaws.QuitLine | plotcsv.c:152-163 | a script line holding only `quit` or `exit` stops the script with the session unchanged |
| PlotCsvLaws.NothingAfterQuit | plotcsv.c:152-166 | lines after a `quit` line have no effect, whatever they hold |
| Profiler.Step | profiler.c:64-120 | reference for the `profiler.c` `parse_cmd_line`: the same verbs as plotcsv's but `gp` and `load`, with every confirmation printed |
| Profiler.ParseCmdLine | profiler.c:64-120 | the `profiler.c` `parse_cmd_line` has exactly the outcome, gnuplot commands and messages of the reference `Step` |
| Profiler.Plot | profiler.c:97-114 | `plot` reads the column of the CSV file and draws it as lines, or ends the process when the file is missing |
| Profiler.StopsExactlyOnQuit | profiler.c:65-66 | this REPL stops exactly on `quit`/`exit`, and the process ends exactly when `plot` names a missing file |
| Profiler.GpAndLoadAreInvalid | profiler.c:115-117 | `gp` and `load` are invalid commands here: nothing is sent |
| Profiler.AgreesWithPlotCsv | profiler.c:64-120 | on the verbs both REPLs know, this REPL behaves like plotcsv's in non-quiet mode |
| BatchProfiler.Listing | src/profiler.c:40 | reference: the printed text is each field in order, each followed by " - " |
| BatchProfiler.ListingAppend | src/profiler.c:33-42 | the text printed for two runs of fields is the text for the first followed by the text for the second |
| BatchProfiler.ListingSingle | src/profiler.c:40 | one field is printed followed by " - " |
| BatchProfiler.NextLine | src/profiler.c:33-42 | each further line prints its `col`-th field and " - " after what the earlier lines printed |
| BatchProfiler.PerLine | src/profiler.c:35-41 | the field counter starts again at every line, so a file splits at any newline into independently printed parts |
| BatchProfiler.ReadCsvCol | src/profiler.c:21-48 | a missing file prints "Couldn't open file" and ends the process; otherwise the `col`-th field of every line is printed in file order |
| BatchProfiler.Run | src/profiler.c:57-66 | with no argument the usage line is printed and the status is failure; otherwise the status is success exactly when the file exists, and the third field of each line is printed |
| Samples.TokensOf | plotcsv.c:243-249 | a string written as a join of separable tokens tokenises to those tokens |
| Samples.DemoCsvLines | plotcsv.c:218 | "1,10.5,20\n2,11.0,21\n" is read as two lines |
| Samples.FirstRowFields | plotcsv.c:219-222 | the first demo row splits into "1", "10.5" and "20\n" |
| Samples.SecondRowFields | plotcsv.c:219-222 | the second demo row splits into "2", "11.0" and "21\n" |
| Samples.CsvColumnExample | plotcsv.c:218-228 | column 1 of the demo file is "10.5", "11.0"; the last column keeps each line's newline |
| Samples.XlabelTokens | plotcsv.c:45 | `xlabel Time (s)` splits into three tokens |
| Samples.GridTail | plotcsv.c:45 | " grid" is the single token "grid" |
| Samples.GpSet | plotcsv.c:45 | "gp set" splits into "gp" and "set" |
| Samples.GpTokens | plotcsv.c:45 | `gp set  grid` splits into three tokens: the double space leaves no empty token |
| Samples.SamplePathText | plotcsv.c:262-264 | the sample path holds no NUL |
| Samples.SamplePathTokens | plotcsv.c:264-268 | "data/sample.csv" splits on '/' into "data" and "sample.csv" |
| Samples.DemoScriptLines | plotcsv.c:152 | the demo script is read as four lines |
| Scenarios.XlabelDefined | plotcsv.c:82-98 | `xlabel Time (s)` fits the label buffer |
| Scenarios.XlabelExample | plotcsv.c:82-98 | `xlabel Time (s)` labels the x axis exactly "Time (s)" |
| Scenarios.GpDefined | plotcsv.c:110-115 | `gp set grid` fits the command buffer |
| Scenarios.GpExample | plotcsv.c:110-115 | `gp set  grid` sends "set grid" |
| Scenarios.SamplePrompt | plotcsv.c:261-273 | the prompt for "data/sample.csv" is "sample.csv> " |
| Scenarios.SamplePromptFits | plotcsv.c:261-273 | that prompt fits the 64-byte buffer |
| Scenarios.LoadDefined | plotcsv.c:116-123 | `load data/sample.csv` is within the buffers |
| Scenarios.LoadExample | plotcsv.c:116-123 | `load data/sample.csv` sets that path and the prompt "sample.csv> " |
| Scenarios.LegendOffThenOn | plotcsv.c:69-81 | `legend off` then `legend on` leaves the key shown |
| Scenarios.ScriptQuitLine | plotcsv.c:152-163 | a `quit` line stops the script |
| Scenarios.ScriptLabelLine | plotcsv.c:152-163 | `xlabel X` then `quit` sets the label quietly and stops |
| Scenarios.ScriptSkippedLines | plotcsv.c:155-158 | the comment and the empty line are passed over |
| Scenarios.RunScriptOf | plotcsv.c:140-167 | a script that opens runs its `getline` lines |
| Scenarios.ScriptExample | plotcsv.c:140-167 | the demo script prints "Reading demo.pc...", sets the x label to "X" quietly and stops |
| Scenarios.UnterminatedScriptLine | plotcsv.c:152-153 | an unterminated last line loses its last real character: a final "quit" becomes the unknown verb "qui", and the REPL goes on |

## Left out

- The interactive loops of both REPLs' `main` are not modelled:
  - `readline` and `add_history` (also the `add_history` of each script line in
    `parse_script`, plotcsv.c:160, which has no effect the model observes);
  - passing over empty input lines;
  - closing gnuplot.

  They are I/O around the modelled `parse_cmd_line`. Only the start-up of `plotcsv.c`'s
  `main` is modelled, as `PlotCsv.Startup`.
- gnuplot_i and `printf` are left out. Their calls are recorded as `GpCmd` and `Msg`
  values; the exact gnuplot protocol and the `printf` formatting are not modelled.
- `atof` is left out. Fields are kept as the text `strtok` returns, and the conversion
  to `double` is a foreign floating-point routine.
- `plot()` and `sleep(5)` in `src/profiler.c` are left out: that code is never called
  from `main`.
- Memory is not modelled:
  - `malloc`, `free`, `fclose` and the leaks;
  - the one-byte-short `malloc(strlen(csv_file))` in `generate_prompt`
    (plotcsv.c:262), into which `strcpy` writes the path and its NUL.

  `generate_prompt`'s copy of the path and the CSV path that `load` allocates are
  modelled as values.
- Undefined behaviour becomes preconditions (`PlotCsv.Defined`, `Profiler.Defined`,
  `PlotCsv.Startup`):
  - a NULL verb or a missing `legend` argument;
  - `plot` with no column token, which calls `atoi(NULL)` (plotcsv.c:102,
    profiler.c:99);
  - an empty `gp` or `load` argument, which makes `strlen(arg) - 1` index before the
    buffer just as an empty label does (plotcsv.c:114, 119);
  - a start-up argument shorter than 3 characters, on which the `.pc` test
    (plotcsv.c:26-28) indexes before the string;
  - an empty `xlabel`/`plot` title, which makes `strlen(arg) - 1` index before the
    buffer;
  - `plot` before any CSV file was given, which dereferences NULL in plotcsv and reads
    an uninitialised pointer in profiler.c;
  - a line without the requested field, which hands NULL to `atof`;
  - an `atoi` argument outside the 32-bit `int` range.
- Local fixed-size buffers are modelled differently:
  - `arg[64]`, `lg_title[64]`, `gp_cmd[1024]` and `filename[2048]` are strings, with a
    precondition that the joined text fits. The prompt buffer is an array.
- Strtok.ParseSpacedArg: builds its result as a string rather than in the caller's
  buffer; the buffer's capacity appears only as a precondition.
- `strtok`'s hidden cursor is modelled as the list of tokens it yields. Interleaved
  `strtok` calls on different strings are not modelled. The source starts a new
  `strtok` only after the command's tokens have been consumed: in `generate_prompt`
  (plotcsv.c:264, after `load` has joined its argument) and in `read_csv_col`
  (plotcsv.c:219 and profiler.c:172, after `plot` has read its column and title).
- PlotCsv.GeneratePrompt: requires the last path component to be shorter than 60
  characters, so the case where `strncpy` copies 60 bytes without a NUL is not
  modelled. There the prompt keeps whatever follows in the buffer; from the zero-filled
  start-up prompt that is the first 60 characters followed by "> ".
- gnuplot commands sent as raw `gp` text are not interpreted: `Effects.LabelOf` and
  `Effects.LegendOf` follow only the labels and key settings the verbs send, so a
  `gp set key off` is not seen by them.
- Every `char` of the model stands for one C byte (0 to 255), and text is never
  decoded. A multi-byte UTF-8 character is several `char`s, so the buffer sizes, the
  60-byte `strncpy` and the stripping of a script line's last byte count bytes, as
  the C code does.
- NUL bytes inside a file line are not modelled: `strlen` would stop at them.
- CsvReader.CsvLines: the `unsigned int` counters of `csv_lines` and `read_csv_col`
  are unbounded naturals, so a wrap after 2^32 lines is not modelled.
- Files that exist but cannot be read are not modelled: a missing key in `fs` is the
  only way `fopen` fails.
- Four behaviours of the code are modelled as written, though a user might expect
  otherwise:
  - `csv_lines` undercounts a file whose last line is unterminated (see Findings);
  - `plot` without a loaded file is undefined behaviour, not a reported error;
  - the script runner removes the last character of every line, newline or not
    (`Scenarios.UnterminatedScriptLine`);
  - the label, title and `gp` buffers have fixed sizes, and longer text overflows them.
- `profiler.c`'s `csv_lines` (128-146) and `read_csv_col` (156-187) are the same code as
  `plotcsv.c`'s. They are modelled once, in CsvReader, and `Profiler.Plot` uses them.

## Findings

| source | as written | input that shows it | evidently intended | confidence | as-written member | corrected member |
|---|---|---|---|---|---|---|
| plotcsv.c:209-227 (also profiler.c:162-180) | `read_csv_col` allocates `csv_lines(file)` items, which is the number of newline characters. It then stores one item per `getline` line, and `getline` also returns an unterminated last line. | a CSV file holding "1,2" (no final newline): `csv_lines` gives 0, one item is stored, and the write goes past the allocation | allocate one slot per line, including an unterminated last line | high, not executed | CsvReader.SourceSizingOverflows | CsvReader.ItemSlots |
