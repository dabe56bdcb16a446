/** Values shared by every part of the model. */
module Base {

  datatype Option<+T> = None | Some(value: T)

  /** What a call into the command dispatcher leads to: the REPL keeps going (`true`
      from parse_cmd_line), it stops (`false`), or the process ends through
      `exit(EXIT_FAILURE)` because a file could not be opened. */
  datatype Outcome = Continue | Stop | ExitFailure

  /** The files the program can open, already read: path to content. A path that
      is not a key is a file that `fopen` fails on. */
  type FileSystem = map<string, string>

  const EXIT_SUCCESS: int := 0
  const EXIT_FAILURE: int := 1
}
