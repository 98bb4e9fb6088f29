/**
 * The `callback_data` strings of the control panel and how the button
 * handler reads them: three exact commands, then the `start_` and `stop_`
 * prefixes followed by a script name.
 */
module CallbackData {

  const REFRESH: string := "refresh"
  const SETTINGS: string := "settings"
  const STATUS: string := "status"
  const START_PREFIX: string := "start_"
  const STOP_PREFIX: string := "stop_"

  datatype Action =
    | Refresh
    | Settings
    | Status
    | StartScript(name: string)
    | StopScript(name: string)
    | Unmatched

  /** Python's `s.startswith(prefix)`. */
  predicate StartsWith(s: string, prefix: string) {
    |prefix| <= |s| && s[..|prefix|] == prefix
  }

  /** The dispatch order of the button handler; the script name is the text after the prefix. */
  function Parse(data: string): (a: Action)
    ensures a == Refresh <==> data == REFRESH
    ensures a == Settings <==> data == SETTINGS
    ensures a == Status <==> data == STATUS
    ensures a.StartScript? ==> data == START_PREFIX + a.name
    ensures a.StopScript? ==> data == STOP_PREFIX + a.name
    ensures a == Unmatched <==>
              data !in [REFRESH, SETTINGS, STATUS] && !StartsWith(data, START_PREFIX) && !StartsWith(data, STOP_PREFIX)
  {
    if data == REFRESH then Refresh
    else if data == SETTINGS then Settings
    else if data == STATUS then Status
    else if StartsWith(data, START_PREFIX) then StartScript(data[|START_PREFIX|..])
    else if StartsWith(data, STOP_PREFIX) then StopScript(data[|STOP_PREFIX|..])
    else Unmatched
  }

  /** `"start_" + n` always reaches the start branch with script name exactly `n`. */
  lemma ParseStart(n: string)
    ensures Parse(START_PREFIX + n) == StartScript(n)
  {
    var d := START_PREFIX + n;
    assert d[0] == 's' && d[1] == 't' && d[3] == 'r';
    assert d != REFRESH && d != SETTINGS && d != STATUS;
    assert d[..|START_PREFIX|] == START_PREFIX;
    assert d[|START_PREFIX|..] == n;
  }

  /** `"stop_" + n` always reaches the stop branch with script name exactly `n`. */
  lemma ParseStop(n: string)
    ensures Parse(STOP_PREFIX + n) == StopScript(n)
  {
    var d := STOP_PREFIX + n;
    assert d[0] == 's' && d[1] == 't' && d[2] == 'o';
    assert d != REFRESH && d != SETTINGS && d != STATUS && !StartsWith(d, START_PREFIX);
    assert d[..|STOP_PREFIX|] == STOP_PREFIX;
    assert d[|STOP_PREFIX|..] == n;
  }
}
