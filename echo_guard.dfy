/** Echo protection: after the controller switches its lights it expects each
    light to report the matching power change, and must not mistake that report
    for a person at the wall switch (apps/lights.py:295-332). */
module EchoGuard {
  import opened Common
  import opened Text
  import opened Numeric

  /** One entry of `_expected_echo`. */
  datatype Expectation = Expectation(until: real, expected: Power, logged: bool)

  /** One entry of `_last_cmd_by_entity`: the power last commanded and when. */
  datatype LastCommand = LastCommand(state: Power, at: real)

  type EchoTable = map<string, Expectation>
  type LastCommands = map<string, LastCommand>

  /** `min(now + echo_window, now + echo_max_window)`: the echo window, capped. */
  function EchoUntil(now: real, window: real, maxWindow: real): (u: real)
    ensures u <= now + window && u <= now + maxWindow
    ensures u == now + window || u == now + maxWindow
  {
    MinReal(now + window, now + maxWindow)
  }

  /** The expectation `_mark_expected_echo` records for each light. */
  function Fresh(state: Power, now: real, window: real, maxWindow: real): Expectation {
    Expectation(EchoUntil(now, window, maxWindow), state, false)
  }

  /** The echo table after marking `lights` with `state` at `now`. */
  function MarkedEchoes(table: EchoTable, lights: seq<string>, state: Power, now: real, window: real, maxWindow: real): EchoTable {
    Assign(table, lights, Fresh(state, now, window, maxWindow))
  }

  /** The last-command table after marking `lights` with `state` at `now`. */
  function MarkedCommands(last: LastCommands, lights: seq<string>, state: Power, now: real): LastCommands {
    Assign(last, lights, LastCommand(state, now))
  }

  /** Marking gives every listed light a fresh, unlogged expectation and a last
      command at `now`, and leaves every other entity's entries as they were. */
  lemma MarkingCoversEveryLight(table: EchoTable, last: LastCommands, lights: seq<string>, state: Power, now: real, window: real, maxWindow: real, e: string)
    ensures e in lights ==> Get(MarkedEchoes(table, lights, state, now, window, maxWindow), e) == Some(Fresh(state, now, window, maxWindow))
    ensures e in lights ==> Get(MarkedCommands(last, lights, state, now), e) == Some(LastCommand(state, now))
    ensures e !in lights ==> Get(MarkedEchoes(table, lights, state, now, window, maxWindow), e) == Get(table, e)
    ensures e !in lights ==> Get(MarkedCommands(last, lights, state, now), e) == Get(last, e)
  {
    AssignLookup(table, lights, Fresh(state, now, window, maxWindow), e);
    AssignLookup(last, lights, LastCommand(state, now), e);
  }

  /** The power transition an expectation waits for: off to on for "on", on to
      off for "off". Anything but "on" (any case) counts as off. */
  predicate Matches(expected: Power, before: Option<string>, after: Option<string>) {
    match expected
    case On => !IsOnText(before) && IsOnText(after)
    case Off => IsOnText(before) && !IsOnText(after)
  }

  /** `_ignore_if_expected_echo`'s answer together with its echo table. */
  datatype EchoVerdict = EchoVerdict(ignore: bool, table: EchoTable)

  /** `_ignore_if_expected_echo`. An expired expectation is dropped; a matching
      report is ignored and its expectation marked as logged (and kept); any other
      report leaves the table as it is. */
  function CheckEcho(table: EchoTable, entity: string, before: Option<string>, after: Option<string>, now: real): (v: EchoVerdict)
    ensures v.ignore <==> entity in table && now <= table[entity].until && Matches(table[entity].expected, before, after)
    ensures v.ignore ==> v.table == table[entity := table[entity].(logged := true)]
    ensures entity in table && now > table[entity].until ==> v.table == table - {entity}
    ensures !v.ignore && (entity !in table || now <= table[entity].until) ==> v.table == table
  {
    if entity !in table then EchoVerdict(false, table)
    else
      var exp := table[entity];
      if now > exp.until then EchoVerdict(false, table - {entity})
      else if Matches(exp.expected, before, after) then EchoVerdict(true, table[entity := exp.(logged := true)])
      else EchoVerdict(false, table)
  }

  /** After marking `state`, the matching report from a marked light is ignored at
      any moment up to the end of the window. */
  lemma MarkedEchoIsIgnored(table: EchoTable, lights: seq<string>, state: Power, t0: real, window: real, maxWindow: real,
                            e: string, before: Option<string>, after: Option<string>, now: real)
    requires e in lights && now <= EchoUntil(t0, window, maxWindow)
    requires Matches(state, before, after)
    ensures CheckEcho(MarkedEchoes(table, lights, state, t0, window, maxWindow), e, before, after, now).ignore
  {
    AssignLookup(table, lights, Fresh(state, t0, window, maxWindow), e);
  }

  /** Ignoring keeps the expectation: the same report again, before the window
      ends, is ignored again and leaves the table exactly as the first one did. */
  lemma RepeatedEchoStaysSuppressed(table: EchoTable, e: string, before: Option<string>, after: Option<string>, now: real, later: real)
    requires CheckEcho(table, e, before, after, now).ignore
    requires later <= table[e].until
    ensures var t1 := CheckEcho(table, e, before, after, now).table;
            CheckEcho(t1, e, before, after, later).ignore && CheckEcho(t1, e, before, after, later).table == t1
  {
  }

  /** An expired expectation never suppresses a report and is evicted. */
  lemma ExpiredNeverIgnored(table: EchoTable, e: string, before: Option<string>, after: Option<string>, now: real)
    requires e in table && now > table[e].until
    ensures !CheckEcho(table, e, before, after, now).ignore
    ensures e !in CheckEcho(table, e, before, after, now).table
  {
  }

  /** The check only ever touches the reporting entity's entry. */
  lemma CheckEchoIsLocal(table: EchoTable, e: string, before: Option<string>, after: Option<string>, now: real, k: string)
    requires k != e
    ensures Get(CheckEcho(table, e, before, after, now).table, k) == Get(table, k)
  {
  }

  /** The check never adds an expectation. */
  lemma CheckEchoAddsNothing(table: EchoTable, e: string, before: Option<string>, after: Option<string>, now: real)
    ensures CheckEcho(table, e, before, after, now).table.Keys <= table.Keys
  {
  }

  /** A report in the wrong direction (an "off" report while "on" is expected,
      say) is not ignored and changes nothing. */
  lemma WrongDirectionUntouched(table: EchoTable, e: string, now: real)
    requires e in table && table[e].expected == On && now <= table[e].until
    ensures CheckEcho(table, e, Some("on"), Some("off"), now) == EchoVerdict(false, table)
  {
    assert Lower("on") == "on";
    assert Lower("off") != "on" by { assert |Lower("off")| == 3; }
  }

  /** `_recent_app_change` with its default grace period `max(echo_window, 3.0)`:
      a command was sent to `entity` no more than `seconds` ago. */
  predicate RecentAppChange(last: LastCommands, entity: string, now: real, seconds: real) {
    entity in last && now - last[entity].at <= seconds
  }

  /** After marking, a light counts as recently commanded for the whole grace
      period, and no longer afterwards (unless marked again). */
  lemma RecentAfterMarking(last: LastCommands, lights: seq<string>, state: Power, t0: real, e: string, now: real, seconds: real)
    requires e in lights
    ensures RecentAppChange(MarkedCommands(last, lights, state, t0), e, now, seconds) <==> now <= t0 + seconds
  {
    AssignLookup(last, lights, LastCommand(state, t0), e);
  }
}
