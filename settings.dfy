/** A zone's typed configuration, the readings the controller takes from Home
    Assistant while it handles one event, and the small rules that interpret
    them: which lights and sensors are configured (apps/lights.py:24-34), the
    Adaptive Lighting reset period (apps/lights.py:63-68), darkness
    (apps/lights.py:259-272) and presence (apps/lights.py:274-284). */
module Settings {
  import opened Common
  import opened Text
  import opened Numeric
  import opened BlockWindows
  import opened Adaptive

  datatype Config = Config(
    appName: string,
    lights: seq<string>,
    motionEntities: seq<string>,
    luxSensor: Option<string>,
    luxThreshold: Option<real>,
    onlyWhenDark: bool,
    delayOff: real,
    manualOffReautoDelay: real,
    motionReautoSeconds: real,
    bootGrace: real,
    echoWindow: real,
    echoMaxWindow: real,
    mediaDimPct: Option<int>,
    autoBrightnessPct: Option<int>,
    alSwitch: Option<string>,
    alUseTargets: bool,
    alTakeOverOnManual: bool,
    alManualResetSeconds: Option<int>,
    alAdaptBrightness: Option<bool>,
    alAdaptColor: Option<bool>,
    blocking: BlockConfig)

  /** The zone's re-automate button entity. */
  function ReautoButton(appName: string): string {
    "button.reautomate_" + appName
  }

  /** What the controller reads from Home Assistant while handling one event:
      the clock, the local minute of the day and the lower-cased weekday name,
      entity states, light brightness attributes, the lux reading as a number
      (None when missing or not numeric) and the Adaptive Lighting switch's
      attributes. */
  datatype Env = Env(
    now: real,
    minute: int,
    today: string,
    states: map<string, string>,
    brightness: map<string, real>,
    lux: Option<real>,
    al: AlAttrs)

  /** `cfg.get("light") or cfg.get("lights")`, as a list; an empty list is the
      configuration error `initialize` raises (None here). Duplicates are kept. */
  function LoadLights(light: ConfigValue<string>, lights: ConfigValue<string>): (r: Option<seq<string>>)
    ensures r.Some? ==> r.value != []
    ensures TruthyText(light) ==> r == Some(AsList(light))
  {
    var ls := AsList(if TruthyText(light) then light else lights);
    if ls == [] then None else Some(ls)
  }

  /** Loading fails exactly when neither key gives a non-empty list. */
  lemma LoadLightsFails(light: ConfigValue<string>, lights: ConfigValue<string>)
    ensures LoadLights(light, lights).None? <==> !TruthyText(light) && (lights.Absent? || lights == Items([]))
  {
  }

  /** Every light the chosen setting names is controlled, and nothing else is. */
  lemma LoadLightsListsEveryLight(light: ConfigValue<string>, lights: ConfigValue<string>, x: string)
    requires LoadLights(light, lights).Some?
    ensures x in LoadLights(light, lights).value <==> Names(if TruthyText(light) then light else lights, x)
  {
  }

  /** A light listed twice stays listed twice. */
  lemma LoadLightsKeepsDuplicates(x: string)
    requires x != ""
    ensures LoadLights(Absent, Items([x, x])) == Some([x, x])
    ensures LoadLights(Scalar(x), Items([])) == Some([x])
  {
  }

  /** One entry of `triggers`: a mapping with a `presence` key, or anything else. */
  datatype Trigger = Presence(presence: ConfigValue<string>) | OtherTrigger

  /** The presence entities of the triggers, concatenated in order. */
  function PresenceLists(ts: seq<Trigger>): (r: seq<string>)
    ensures forall t, e :: t in ts && t.Presence? && e in AsList(t.presence) ==> e in r
    ensures forall e :: e in r ==> exists t :: t in ts && t.Presence? && e in AsList(t.presence)
  {
    if ts == [] then []
    else
      var last := ts[|ts| - 1];
      var p := ts[..|ts| - 1];
      assert forall t :: t in p ==> t in ts;
      PresenceLists(p) + (if last.Presence? then AsList(last.presence) else [])
  }

  /** `_motion_entities`: the presence entities of all triggers, without
      repetitions, in the order they first appear. */
  function MotionEntities(triggers: ConfigValue<Trigger>): (r: seq<string>)
    ensures NoDups(r)
    ensures forall e :: e in r <==> e in PresenceLists(AsList(triggers))
  {
    var all := PresenceLists(AsList(triggers));
    var r := Dedup(all);
    assert forall e :: e in all ==> e in r by {
      forall e | e in all ensures e in r {
        var i :| 0 <= i < |all| && all[i] == e;
      }
    }
    r
  }

  /** Each sensor keeps the position of its first mention across the triggers. */
  lemma MotionEntitiesOrder(triggers: ConfigValue<Trigger>)
    ensures var all := PresenceLists(AsList(triggers));
            var r := MotionEntities(triggers);
            forall i, j :: 0 <= i < j < |r| ==> FirstIndex(all, r[i]) < FirstIndex(all, r[j])
  {
    DedupKeepsFirstOccurrenceOrder(PresenceLists(AsList(triggers)));
  }

  /** A configuration value as the file delivers it, for `al_manual_reset_seconds`. */
  datatype Raw = Missing | Null | Number(x: real) | Text(s: string)

  /** `al_manual_reset_seconds`: missing is 900, null is None, anything else goes
      through `int()`, falling back to 900 when that raises. */
  function ManualResetSeconds(v: Raw): (r: Option<int>)
    ensures r.None? <==> v.Null?
    ensures v.Missing? ==> r == Some(900)
    ensures v.Number? ==> r == Some(Trunc(v.x))
    ensures v.Text? ==> r == (if PyInt(v.s).Some? then PyInt(v.s) else Some(900))
  {
    match v
    case Missing => Some(900)
    case Null => None
    case Number(x) => Some(Trunc(x))
    case Text(s) => if PyInt(s).Some? then PyInt(s) else Some(900)
  }

  /** A two-digit text is read as its number; text that is not a number gives
      the default 900. */
  lemma ManualResetSecondsFromText(n: nat, s: string)
    requires n < 100
    requires s != [] && forall i :: 0 <= i < |s| ==> 'a' <= s[i] <= 'z'
    ensures ManualResetSeconds(Text(TwoDigits(n))) == Some(n)
    ensures ManualResetSeconds(Text(s)) == Some(900)
  {
    TwoDigitsRoundTrip(n);
    StripUnpadded(s);
    assert !DigitRun(s);
  }

  /** `_is_dark_enough`: without the darkness option, a lux sensor, a reading or
      a threshold it is always dark enough; otherwise the reading must not
      exceed the threshold. */
  function IsDarkEnough(cfg: Config, lux: Option<real>): (r: bool)
    ensures !cfg.onlyWhenDark || !Configured(cfg.luxSensor) || lux.None? || cfg.luxThreshold.None? ==> r
    ensures lux.Some? && cfg.luxThreshold.Some? && lux.value <= cfg.luxThreshold.value ==> r
  {
    if !cfg.onlyWhenDark || !Configured(cfg.luxSensor) then true
    else if lux.None? then true
    else if cfg.luxThreshold.None? then true
    else lux.value <= cfg.luxThreshold.value
  }

  /** Only a reading above the threshold, with the darkness option and a sensor,
      counts as too bright. */
  lemma TooBrightExactly(cfg: Config, lux: Option<real>)
    ensures !IsDarkEnough(cfg, lux) <==>
              cfg.onlyWhenDark && Configured(cfg.luxSensor) && lux.Some? && cfg.luxThreshold.Some? && lux.value > cfg.luxThreshold.value
  {
  }

  /** Darker is never less dark: lowering the reading keeps it dark enough. */
  lemma DarkIsMonotone(cfg: Config, x: real, y: real)
    requires y <= x && IsDarkEnough(cfg, Some(x))
    ensures IsDarkEnough(cfg, Some(y))
  {
  }

  /** States that count as presence, after lower-casing. */
  predicate IsPresenceText(s: Option<string>) {
    Lower(s.GetOr("")) in {"on", "home", "occupied", "true", "1"}
  }

  /** A light that is on is also presence-like; a missing state is neither. */
  lemma OnIsPresence(s: Option<string>)
    ensures IsOnText(s) ==> IsPresenceText(s)
    ensures !IsOnText(None) && !IsPresenceText(None)
  {
  }

  /** `_any_light_on`: some configured light reports "on". */
  predicate AnyLightOn(lights: seq<string>, states: map<string, string>) {
    exists i :: 0 <= i < |lights| && IsOnText(Get(states, lights[i]))
  }

  /** `_any_motion_on`: some presence entity reports a presence state. */
  predicate AnyMotionOn(sensors: seq<string>, states: map<string, string>) {
    exists i :: 0 <= i < |sensors| && IsPresenceText(Get(states, sensors[i]))
  }
}
