/** What the REPLs do to the outside world, recorded as logs: the commands sent to the
    gnuplot process and the messages printed on the console. */
module Effects {
  import opened Base

  datatype Axis = X | Y

  /** One gnuplot_i call: `gnuplot_cmd(gp, "set key on|off")`, `gnuplot_set_xlabel` or
      `gnuplot_set_ylabel`, `gnuplot_setstyle`, `gnuplot_plot_x` (its values kept as the
      field texts `atof` would read), or a raw `gnuplot_cmd`. */
  datatype GpCmd =
    | SetKey(on: bool)
    | SetLabel(axis: Axis, text: string)
    | SetStyle(style: string)
    | PlotSeries(values: seq<string>, title: string)
    | Raw(text: string)

  /** One `printf` of the REPLs. */
  datatype Msg =
    | LegendTurned(on: bool)             // "Legend turned on." / "Legend turned off."
    | LabelSet(axis: Axis, text: string) // "xlabel set to \"...\""
    | InvalidCommand(verb: string)       // "Invalid command: ..."
    | CouldntOpenFile(path: string)      // "Couldn't open file: ..."
    | CouldntOpenScript(path: string)    // "Couldn't open script: ..."
    | Reading(path: string)              // "Reading ...\n"

  /** The messages that only confirm a command; quiet mode drops exactly these. */
  predicate IsConfirmation(m: Msg) {
    m.LegendTurned? || m.LabelSet?
  }

  /** The label the verbs last set on `axis` in `log`: the last `SetLabel` for that
      axis. Raw `gp` text is not interpreted, so a label it sets is not seen here. */
  function LabelOf(log: seq<GpCmd>, axis: Axis): Option<string>
  {
    if log == [] then None
    else
      var c := log[|log| - 1];
      if c.SetLabel? && c.axis == axis then Some(c.text) else LabelOf(log[..|log| - 1], axis)
  }

  /** The key (legend) setting the verbs last sent in `log`: the last `SetKey`. Raw
      `gp` text is not interpreted, so a `set key` it sends is not seen here. */
  function LegendOf(log: seq<GpCmd>): Option<bool>
  {
    if log == [] then None
    else
      var c := log[|log| - 1];
      if c.SetKey? then Some(c.on) else LegendOf(log[..|log| - 1])
  }

  /** Styles and plotted series set neither a label nor the key, so they leave both as
      they were. Raw text is excluded: it may hold any gnuplot command. */
  lemma {:induction false} NeutralCommands(log: seq<GpCmd>, more: seq<GpCmd>)
    requires forall i :: 0 <= i < |more| ==> !more[i].SetLabel? && !more[i].SetKey? && !more[i].Raw?
    ensures LabelOf(log + more, X) == LabelOf(log, X)
    ensures LabelOf(log + more, Y) == LabelOf(log, Y)
    ensures LegendOf(log + more) == LegendOf(log)
    decreases |more|
  {
    if more != [] {
      var shorter := more[..|more| - 1];
      assert (log + more)[..|log + more| - 1] == log + shorter;
      NeutralCommands(log, shorter);
    } else {
      assert log + more == log;
    }
  }

  /** Setting one axis label shows it on that axis and leaves the other axis and the
      key alone. */
  lemma SetLabelEffect(log: seq<GpCmd>, axis: Axis, text: string)
    ensures LabelOf(log + [SetLabel(axis, text)], axis) == Some(text)
    ensures forall other :: other != axis ==>
      LabelOf(log + [SetLabel(axis, text)], other) == LabelOf(log, other)
    ensures LegendOf(log + [SetLabel(axis, text)]) == LegendOf(log)
  {
    assert (log + [SetLabel(axis, text)])[..|log|] == log;
  }

  /** Setting the key decides the legend and leaves both labels alone. */
  lemma SetKeyEffect(log: seq<GpCmd>, on: bool)
    ensures LegendOf(log + [SetKey(on)]) == Some(on)
    ensures LabelOf(log + [SetKey(on)], X) == LabelOf(log, X)
    ensures LabelOf(log + [SetKey(on)], Y) == LabelOf(log, Y)
  {
    assert (log + [SetKey(on)])[..|log|] == log;
  }
}
