/** The service calls `_turn_on` and `_turn_off` make (apps/lights.py:439-476):
    the brightness and colour temperature chosen for an automatic turn-on, and
    the per-entity calls, `switch.*` entities through the switch domain. */
module Control {
  import opened Common
  import opened Text
  import opened Numeric
  import opened Effects
  import opened Adaptive
  import opened Settings

  predicate IsSwitch(e: string) {
    StartsWith(e, "switch.")
  }

  /** The `brightness_pct` and `color_temp_kelvin` an automatic turn-on sends. */
  datatype Levels = Levels(brightnessPct: Option<int>, colorTempKelvin: Option<int>)

  /** The Adaptive Lighting targets `_turn_on` consults: the switch's when one is
      configured and its targets are in use, else none, adapting both. */
  function TurnOnTargets(cfg: Config, al: AlAttrs): (t: Target)
    ensures !(Configured(cfg.alSwitch) && cfg.alUseTargets) ==> t == Target(None, None, true, true)
  {
    if Configured(cfg.alSwitch) && cfg.alUseTargets
    then CurrentTargets(cfg.alSwitch, cfg.alAdaptBrightness, cfg.alAdaptColor, al)
    else Target(None, None, true, true)
  }

  /** Media dimming takes precedence over the auto brightness, which takes
      precedence over the Adaptive Lighting target; the colour temperature is
      the target's, when colour adaptation is on. */
  function TurnOnLevels(cfg: Config, mediaPlaying: bool, al: AlAttrs): (r: Levels)
    ensures mediaPlaying && cfg.mediaDimPct.Some? ==> r.brightnessPct == cfg.mediaDimPct
    ensures (r.brightnessPct.Some? && r.brightnessPct != cfg.mediaDimPct && r.brightnessPct != cfg.autoBrightnessPct)
            ==> Configured(cfg.alSwitch) && cfg.alUseTargets
    ensures r.colorTempKelvin.Some? ==> Configured(cfg.alSwitch) && cfg.alUseTargets
    ensures var t := TurnOnTargets(cfg, al);
            r.colorTempKelvin == (if t.colorTempKelvin.Some? && t.adaptColor then Some(Trunc(t.colorTempKelvin.value)) else None)
  {
    var t := TurnOnTargets(cfg, al);
    var configured :=
      if mediaPlaying && cfg.mediaDimPct.Some? then cfg.mediaDimPct
      else if cfg.autoBrightnessPct.Some? then cfg.autoBrightnessPct
      else None;
    var bp := if configured.None? && t.brightnessPct.Some? && t.adaptBrightness then Some(Trunc(t.brightnessPct.value)) else configured;
    var ct := if t.colorTempKelvin.Some? && t.adaptColor then Some(Trunc(t.colorTempKelvin.value)) else None;
    Levels(bp, ct)
  }

  /** Where the brightness comes from, case by case. */
  lemma BrightnessPrecedence(cfg: Config, mediaPlaying: bool, al: AlAttrs)
    ensures var r := TurnOnLevels(cfg, mediaPlaying, al);
            var t := TurnOnTargets(cfg, al);
            && (mediaPlaying && cfg.mediaDimPct.Some? ==> r.brightnessPct == cfg.mediaDimPct)
            && (!(mediaPlaying && cfg.mediaDimPct.Some?) && cfg.autoBrightnessPct.Some? ==> r.brightnessPct == cfg.autoBrightnessPct)
            && (!(mediaPlaying && cfg.mediaDimPct.Some?) && cfg.autoBrightnessPct.None? ==>
                  r.brightnessPct == (if t.brightnessPct.Some? && t.adaptBrightness then Some(Trunc(t.brightnessPct.value)) else None))
  {
  }

  /** Without a switch whose targets are used, a turn-on never sets a colour
      temperature and its brightness comes from the configuration alone. */
  lemma NoAdaptiveLightingNoTargets(cfg: Config, mediaPlaying: bool, al: AlAttrs)
    requires !Configured(cfg.alSwitch) || !cfg.alUseTargets
    ensures TurnOnLevels(cfg, mediaPlaying, al).colorTempKelvin.None?
    ensures TurnOnLevels(cfg, mediaPlaying, al).brightnessPct ==
              (if mediaPlaying && cfg.mediaDimPct.Some? then cfg.mediaDimPct else cfg.autoBrightnessPct)
  {
  }

  /** With colour adaptation switched off in the configuration, no colour
      temperature is sent, whatever the switch reports. */
  lemma ColorAdaptationOff(cfg: Config, mediaPlaying: bool, al: AlAttrs)
    requires cfg.alAdaptColor == Some(false)
    ensures TurnOnLevels(cfg, mediaPlaying, al).colorTempKelvin.None?
  {
  }

  /** A switch whose targets are used and that reports a colour temperature in
      kelvin gets that temperature, truncated, sent with every turn-on, unless
      colour adaptation is off in the configuration or, left unset there, on
      the switch itself. */
  lemma ReportedKelvinSent(cfg: Config, mediaPlaying: bool, al: AlAttrs, k: real)
    requires Configured(cfg.alSwitch) && cfg.alUseTargets
    requires al.colorTempKelvin == Some(k)
    ensures TurnOnLevels(cfg, mediaPlaying, al).colorTempKelvin ==
              (if cfg.alAdaptColor.GetOr(al.adaptColor.GetOr(true)) then Some(Trunc(k)) else None)
  {
  }

  /** The call `_turn_on` makes for one entity. */
  function OnCommandFor(l: string, lv: Levels): Effect {
    if IsSwitch(l) then Call(SwitchTurnOn(l)) else Call(LightTurnOn(l, lv.brightnessPct, lv.colorTempKelvin))
  }

  /** The call `_turn_off` makes for one entity. */
  function OffCommandFor(l: string): Effect {
    if IsSwitch(l) then Call(SwitchTurnOff(l)) else Call(LightTurnOff(l))
  }

  /** `_turn_on`'s calls: one per configured entity, in order. */
  function OnCommands(lights: seq<string>, lv: Levels): (r: seq<Effect>)
    ensures |r| == |lights|
    ensures forall i :: 0 <= i < |lights| ==> r[i] == OnCommandFor(lights[i], lv)
  {
    if lights == [] then [] else OnCommands(lights[..|lights| - 1], lv) + [OnCommandFor(lights[|lights| - 1], lv)]
  }

  /** `_turn_off`'s calls: one per configured entity, in order. */
  function OffCommands(lights: seq<string>): (r: seq<Effect>)
    ensures |r| == |lights|
    ensures forall i :: 0 <= i < |lights| ==> r[i] == OffCommandFor(lights[i])
  {
    if lights == [] then [] else OffCommands(lights[..|lights| - 1]) + [OffCommandFor(lights[|lights| - 1])]
  }

  /** Every entity is switched through its own domain: a `switch.*` entity never
      receives a light call and carries no brightness or colour. */
  lemma DomainsRespected(l: string, lv: Levels)
    ensures IsSwitch(l) ==> OnCommandFor(l, lv) == Call(SwitchTurnOn(l)) && OffCommandFor(l) == Call(SwitchTurnOff(l))
    ensures !IsSwitch(l) ==> OnCommandFor(l, lv).command.LightTurnOn? && OffCommandFor(l) == Call(LightTurnOff(l))
    ensures OnCommandFor(l, lv).command.entity == l && OffCommandFor(l).command.entity == l
  {
  }
}
