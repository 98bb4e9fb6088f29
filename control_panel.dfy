/**
 * The control-panel keyboard (`create_control_panel`) and the status report
 * of the button handler, as data: rows of (label, callback string).
 */
module ControlPanel {
  import opened BotConfig
  import opened ScriptTable
  import opened ProcessRegistry
  import opened CallbackData

  /** What a button shows; the emoji texts themselves are not modelled. */
  datatype Label =
    | StartLabel(script: string)
    | StopLabel(script: string)
    | RunningLabel
    | StoppedLabel
    | RefreshLabel
    | SettingsLabel

  datatype Key = Key(caption: Label, callback: string)

  type Row = seq<Key>

  /** The row of one script: a toggle for its current state, then its status indicator. */
  function ScriptRow(name: string, running: bool): (row: Row)
    ensures |row| == 2
    ensures row[0].callback == if running then STOP_PREFIX + name else START_PREFIX + name
    ensures row[1].callback == STATUS
  {
    if running then [Key(StopLabel(name), STOP_PREFIX + name), Key(RunningLabel, STATUS)]
    else [Key(StartLabel(name), START_PREFIX + name), Key(StoppedLabel, STATUS)]
  }

  /** The last row: refresh and settings. */
  function UtilityRow(): Row {
    [Key(RefreshLabel, REFRESH), Key(SettingsLabel, SETTINGS)]
  }

  /** The rows the loop of `create_control_panel` has appended after these names. */
  function ScriptRows(names: seq<string>, reg: Registry): (rows: seq<Row>)
    ensures |rows| == |names|
    ensures forall i :: 0 <= i < |names| ==> rows[i] == ScriptRow(names[i], IsRunning(reg, names[i]))
    decreases |names|
  {
    if |names| == 0 then []
    else
      var last := names[|names| - 1];
      ScriptRows(names[..|names| - 1], reg) + [ScriptRow(last, IsRunning(reg, last))]
  }

  /**
   * `create_control_panel`: no keyboard for an empty script map; otherwise one
   * row per script, in the map's order, offering `stop_<name>` when the script
   * is running and `start_<name>` otherwise, then the refresh/settings row.
   */
  function Panel(t: Table, reg: Registry): (p: Option<seq<Row>>)
    ensures p.None? <==> |t.names| == 0
    ensures p.Some? ==>
              && |p.value| == |t.names| + 1
              && p.value[|t.names|] == UtilityRow()
              && forall i :: 0 <= i < |t.names| ==> p.value[i] == ScriptRow(t.names[i], IsRunning(reg, t.names[i]))
  {
    if |t.names| == 0 then None else Some(ScriptRows(t.names, reg) + [UtilityRow()])
  }

  /** Every button of the keyboard routes, through `Parse`, to the action it offers. */
  lemma PanelRoutes(t: Table, reg: Registry, i: nat)
    requires i < |t.names|
    ensures var rows := Panel(t, reg).value;
            && Parse(rows[i][0].callback) == (if IsRunning(reg, t.names[i]) then StopScript(t.names[i]) else StartScript(t.names[i]))
            && Parse(rows[i][1].callback) == Status
            && Parse(rows[|t.names|][0].callback) == Refresh
            && Parse(rows[|t.names|][1].callback) == Settings
  {
    ParseStart(t.names[i]);
    ParseStop(t.names[i]);
  }

  /** The loop of `create_control_panel`. */
  method CreateControlPanel(t: Table, reg: Registry) returns (keyboard: Option<seq<Row>>)
    ensures keyboard == Panel(t, reg)
  {
    if |t.names| == 0 {
      return None;
    }
    var rows: seq<Row> := [];
    for i := 0 to |t.names|
      invariant |rows| == i
      invariant forall j :: 0 <= j < i ==> rows[j] == ScriptRow(t.names[j], IsRunning(reg, t.names[j]))
    {
      var name := t.names[i];
      var running := IsRunning(reg, name);
      rows := rows + [ScriptRow(name, running)];
    }
    assert rows == ScriptRows(t.names, reg);
    rows := rows + [UtilityRow()];
    keyboard := Some(rows);
  }

  datatype StatusLine = StatusLine(script: string, running: bool)

  /** The `status` report: one line per script of the map, in its order, saying whether it runs. */
  method StatusReport(t: Table, reg: Registry) returns (lines: seq<StatusLine>)
    ensures |lines| == |t.names|
    ensures forall i :: 0 <= i < |t.names| ==> lines[i] == StatusLine(t.names[i], IsRunning(reg, t.names[i]))
  {
    lines := [];
    for i := 0 to |t.names|
      invariant |lines| == i
      invariant forall j :: 0 <= j < i ==> lines[j] == StatusLine(t.names[j], IsRunning(reg, t.names[j]))
    {
      var name := t.names[i];
      var running := IsRunning(reg, name);
      lines := lines + [StatusLine(name, running)];
    }
  }
}
