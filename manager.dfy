/** `LightAutomationManager`: one summary sensor that is on while any managed
    zone is under manual control, listing those zones' re-automate buttons. */
module Manager {
  import opened Common
  import opened Text
  import Settings
  import opened Transitions

  /** A zone's status entity as `get_state(..., attribute="all")` returns it.
      `hasState` is false when the entity is missing or has no `state` key;
      a missing attribute, or a missing attribute map, is `None`. */
  datatype Status = Status(hasState: bool, state: Option<string>, manualState: Option<string>, button: Option<string>)

  /** The status entity each controller keeps up to date. */
  function StatusEntity(app: string): string {
    "sensor.light_status_" + app
  }

  /** `(attrs.get("manual_state") or state).lower()`, where `state` is the
      lower-cased state text (`None` read as the empty text). */
  function ManualStateOf(st: Status): string {
    var state := Lower(st.state.GetOr(""));
    Lower(if Configured(st.manualState) then st.manualState.value else state)
  }

  /** The button one managed zone adds to the list, if any: its status must
      exist with a state, read as `manual_on` or `manual_off`, and name a
      non-empty button. */
  function ButtonOf(app: string, statuses: map<string, Status>): Option<string> {
    var st := Get(statuses, StatusEntity(app));
    if st.None? || !st.value.hasState then None
    else if (ManualStateOf(st.value) == "manual_on" || ManualStateOf(st.value) == "manual_off") && Configured(st.value.button)
    then st.value.button
    else None
  }

  /** The buttons the zones contribute, in the order the zones are managed. */
  function Buttons(managed: seq<string>, statuses: map<string, Status>): seq<string> {
    if managed == [] then []
    else
      var b := ButtonOf(managed[|managed| - 1], statuses);
      Buttons(managed[..|managed| - 1], statuses) + (if b.Some? then [b.value] else [])
  }

  /** A button is listed exactly when some managed zone contributes it. */
  lemma {:induction false} ButtonsListed(managed: seq<string>, statuses: map<string, Status>, b: string)
    ensures b in Buttons(managed, statuses) <==> exists i :: 0 <= i < |managed| && ButtonOf(managed[i], statuses) == Some(b)
  {
    if managed != [] {
      var n := |managed|;
      var p := managed[..n - 1];
      ButtonsListed(p, statuses, b);
      if exists i :: 0 <= i < |managed| && ButtonOf(managed[i], statuses) == Some(b) {
        var i :| 0 <= i < |managed| && ButtonOf(managed[i], statuses) == Some(b);
        if i < n - 1 {
          assert p[i] == managed[i];
        }
      }
      if exists i :: 0 <= i < |p| && ButtonOf(p[i], statuses) == Some(b) {
        var i :| 0 <= i < |p| && ButtonOf(p[i], statuses) == Some(b);
        assert managed[i] == p[i];
      }
    }
  }

  /** Every zone adds at most one button, and no listed button is empty. */
  lemma {:induction false} ButtonsShape(managed: seq<string>, statuses: map<string, Status>)
    ensures |Buttons(managed, statuses)| <= |managed|
    ensures forall k :: 0 <= k < |Buttons(managed, statuses)| ==> Buttons(managed, statuses)[k] != ""
  {
    if managed != [] {
      ButtonsShape(managed[..|managed| - 1], statuses);
    }
  }

  /** Some button is listed (the sensor is on) exactly when some managed zone
      contributes one. */
  lemma ButtonsNonEmpty(managed: seq<string>, statuses: map<string, Status>)
    ensures Buttons(managed, statuses) != [] <==> exists i :: 0 <= i < |managed| && ButtonOf(managed[i], statuses).Some?
  {
    var bs := Buttons(managed, statuses);
    if bs != [] {
      ButtonsListed(managed, statuses, bs[0]);
    }
    if exists i :: 0 <= i < |managed| && ButtonOf(managed[i], statuses).Some? {
      var i :| 0 <= i < |managed| && ButtonOf(managed[i], statuses).Some?;
      ButtonsListed(managed, statuses, ButtonOf(managed[i], statuses).value);
    }
  }

  /** The text a controller publishes for its mode. */
  function ModeText(m: Mode): string {
    match m
    case Auto => "auto"
    case ManualOn => "manual_on"
    case ManualOff => "manual_off"
  }

  /** The status entity a controller named `app` publishes in `mode`: both the
      state and the `manual_state` attribute carry the mode. */
  function Published(app: string, mode: Mode): Status {
    Status(true, Some(ModeText(mode)), Some(ModeText(mode)), Some(Settings.ReautoButton(app)))
  }

  /** A controller's own status is read back correctly: the zone adds its
      button exactly when it is in one of the manual modes. */
  lemma PublishedStatusRead(app: string, mode: Mode, statuses: map<string, Status>)
    requires StatusEntity(app) in statuses && statuses[StatusEntity(app)] == Published(app, mode)
    ensures ButtonOf(app, statuses) == if mode == Auto then None else Some(Settings.ReautoButton(app))
  {
    var text := ModeText(mode);
    assert Lower(text) == text by {
      assert forall i :: 0 <= i < |text| ==> !('A' <= text[i] <= 'Z');
    }
    assert |Settings.ReautoButton(app)| > 0;
  }

  class LightAutomationManager {
    /** The zones (controller app names) whose status is read. */
    const managed: seq<string>
    /** The summary sensor: its state and its `reautomate_buttons` attribute. */
    var sensorState: string
    var sensorButtons: seq<string>

    /** `initialize`: the zone list from the `apps` setting, the sensor off
        with no buttons. */
    constructor (apps: ConfigValue<string>)
      ensures managed == AsList(apps)
      ensures sensorState == "off" && sensorButtons == []
    {
      managed := AsList(apps);
      sensorState := "off";
      sensorButtons := [];
    }

    /** The loop of `_refresh`. */
    method CollectButtons(statuses: map<string, Status>) returns (buttons: seq<string>)
      ensures buttons == Buttons(managed, statuses)
    {
      buttons := [];
      var i := 0;
      while i < |managed|
        invariant 0 <= i <= |managed|
        invariant buttons == Buttons(managed[..i], statuses)
      {
        var app := managed[i];
        assert managed[..i + 1][..i] == managed[..i];
        var st := Get(statuses, StatusEntity(app));
        if st.Some? && st.value.hasState {
          var state := Lower(st.value.state.GetOr(""));
          var btn := st.value.button;
          var manualState := Lower(if Configured(st.value.manualState) then st.value.manualState.value else state);
          if (manualState == "manual_on" || manualState == "manual_off") && Configured(btn) {
            buttons := buttons + [btn.value];
          }
        }
        i := i + 1;
      }
      assert managed[..i] == managed;
    }

    /** `_refresh`: the sensor is on exactly when some button is listed. */
    method Refresh(statuses: map<string, Status>)
      modifies this
      ensures sensorButtons == Buttons(managed, statuses)
      ensures sensorState == if sensorButtons != [] then "on" else "off"
    {
      var buttons := CollectButtons(statuses);
      sensorState := if buttons != [] then "on" else "off";
      sensorButtons := buttons;
    }
  }
}
