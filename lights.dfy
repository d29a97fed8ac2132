/** `LightController` (apps/lights.py) as a class: the fields the controller
    owns, updated in place by one method per handler and helper. Each method is
    proved to leave the controller in exactly the state the matching function
    of `Transitions` computes; `Handle`, which dispatches one event to its
    handler, keeps the invariant proved there. */
module Lights {
  import opened Common
  import opened Text
  import opened Numeric
  import opened Effects
  import opened BlockWindows
  import opened Adaptive
  import opened EchoGuard
  import opened MediaDim
  import opened Settings
  import opened Control
  import opened Transitions

  class LightController {
    const cfg: Config
    const startedAt: real
    var mode: Mode
    var presence: bool
    var mediaPlaying: bool
    var expectedEcho: EchoTable
    var lastCmd: LastCommands
    var beforeMedia: PreDim
    var offTimer: Option<Token>
    var motionReautoTimer: Option<Token>
    var alManualTimers: map<string, Token>
    var nextToken: nat
    var outbox: seq<Effect>

    /** The owned state as a value. */
    function Snapshot(): State
      reads this
    {
      State(mode, presence, mediaPlaying, expectedEcho, lastCmd, beforeMedia,
            offTimer, motionReautoTimer, alManualTimers, nextToken, outbox, startedAt)
    }

    /** The timer bookkeeping and the tables are as `Transitions.Inv` requires. */
    ghost predicate Valid()
      reads this
    {
      Inv(Snapshot(), cfg)
    }

    /** `initialize`, for a configuration already read: `auto`, nobody present,
        no media, empty tables, no timers, nothing issued. */
    constructor (config: Config, now: real)
      ensures cfg == config
      ensures Snapshot() == Initial(now)
      ensures Valid()
    {
      cfg := config;
      startedAt := now;
      mode := Auto;
      presence := false;
      mediaPlaying := false;
      expectedEcho := map[];
      lastCmd := map[];
      beforeMedia := [];
      offTimer := None;
      motionReautoTimer := None;
      alManualTimers := map[];
      nextToken := 0;
      outbox := [];
      new;
      InitialInv(config, now);
    }

    // ---- Primitive steps ----

    /** `_cancel_timer_safe`. */
    method CancelTimerSafe(h: Option<Token>)
      modifies this
      ensures Snapshot() == CancelSafe(old(Snapshot()), h)
    {
      if h.Some? {
        outbox := outbox + [CancelTimer(h.value)];
      }
    }

    /** `run_in`: starts a timer and returns its fresh handle. */
    method RunIn(cb: Callback, delay: real) returns (tok: Token)
      modifies this
      ensures tok == old(nextToken)
      ensures Snapshot() == Arm(old(Snapshot()), cb, delay)
    {
      tok := nextToken;
      outbox := outbox + [StartTimer(tok, cb, delay)];
      nextToken := nextToken + 1;
    }

    // ---- Queries ----

    /** `_automation_allowed(action)` at the event's clock. */
    method AutomationAllowedNow(env: Env, action: Power) returns (r: bool)
      ensures r == Allowed(cfg, env, action)
    {
      var b := BlockedNow(cfg.blocking, env.minute, env.today);
      r := AutomationAllowed(action, b);
    }

    /** `_any_light_on`. */
    method AnyLightOn(states: map<string, string>) returns (r: bool)
      ensures r == Settings.AnyLightOn(cfg.lights, states)
    {
      var i := 0;
      while i < |cfg.lights|
        invariant 0 <= i <= |cfg.lights|
        invariant forall j :: 0 <= j < i ==> !IsOnText(Get(states, cfg.lights[j]))
      {
        if IsOnText(Get(states, cfg.lights[i])) {
          return true;
        }
        i := i + 1;
      }
      return false;
    }

    /** `_any_motion_on`. */
    method AnyMotionOn(states: map<string, string>) returns (r: bool)
      ensures r == Settings.AnyMotionOn(cfg.motionEntities, states)
    {
      var i := 0;
      while i < |cfg.motionEntities|
        invariant 0 <= i <= |cfg.motionEntities|
        invariant forall j :: 0 <= j < i ==> !IsPresenceText(Get(states, cfg.motionEntities[j]))
      {
        if IsPresenceText(Get(states, cfg.motionEntities[i])) {
          return true;
        }
        i := i + 1;
      }
      return false;
    }

    // ---- Echo protection ----

    /** `_mark_expected_echo`: every configured light expects the echo of `state`
        and records it as its last command. */
    method MarkExpectedEcho(state: Power, now: real)
      modifies this
      ensures Snapshot() == MarkEcho(old(Snapshot()), cfg, state, now)
    {
      var exp := Fresh(state, now, cfg.echoWindow, cfg.echoMaxWindow);
      var i := 0;
      while i < |cfg.lights|
        invariant 0 <= i <= |cfg.lights|
        invariant Snapshot() == old(Snapshot()).(expectedEcho := expectedEcho, lastCmd := lastCmd)
        invariant expectedEcho == Assign(old(expectedEcho), cfg.lights[..i], exp)
        invariant lastCmd == Assign(old(lastCmd), cfg.lights[..i], LastCommand(state, now))
      {
        var l := cfg.lights[i];
        assert cfg.lights[..i + 1][..i] == cfg.lights[..i];
        expectedEcho := expectedEcho[l := exp];
        lastCmd := lastCmd[l := LastCommand(state, now)];
        i := i + 1;
      }
      assert cfg.lights[..i] == cfg.lights;
    }

    /** `_ignore_if_expected_echo`: evicts an expired expectation, and marks a
        matching one as logged while answering that the report is an echo. */
    method IgnoreIfExpectedEcho(entity: string, before: Option<string>, after: Option<string>, now: real) returns (ignore: bool)
      modifies this
      ensures var v := CheckEcho(old(expectedEcho), entity, before, after, now);
              ignore == v.ignore && Snapshot() == old(Snapshot()).(expectedEcho := v.table)
    {
      if entity !in expectedEcho {
        return false;
      }
      var exp := expectedEcho[entity];
      if now > exp.until {
        expectedEcho := expectedEcho - {entity};
        return false;
      }
      var oldOn := IsOnText(before);
      var newOn := IsOnText(after);
      if exp.expected == On && !oldOn && newOn {
        expectedEcho := expectedEcho[entity := exp.(logged := true)];
        return true;
      }
      if exp.expected == Off && oldOn && !newOn {
        expectedEcho := expectedEcho[entity := exp.(logged := true)];
        return true;
      }
      return false;
    }

    // ---- Light control ----

    /** `_turn_on`: marks the echo, then one call per configured entity with the
        levels chosen for this turn-on. */
    method TurnOn(env: Env)
      modifies this
      ensures Snapshot() == Transitions.TurnOn(old(Snapshot()), cfg, env)
    {
      var lv := TurnOnLevels(cfg, mediaPlaying, env.al);
      MarkExpectedEcho(On, env.now);
      var sent: seq<Effect> := [];
      var i := 0;
      while i < |cfg.lights|
        invariant 0 <= i <= |cfg.lights|
        invariant sent == OnCommands(cfg.lights[..i], lv)
      {
        assert cfg.lights[..i + 1][..i] == cfg.lights[..i];
        sent := sent + [OnCommandFor(cfg.lights[i], lv)];
        i := i + 1;
      }
      assert cfg.lights[..i] == cfg.lights;
      outbox := outbox + sent;
    }

    /** `_turn_off`: marks the echo, then one call per configured entity. */
    method TurnOff(now: real)
      modifies this
      ensures Snapshot() == Transitions.TurnOff(old(Snapshot()), cfg, now)
    {
      MarkExpectedEcho(Off, now);
      var sent: seq<Effect> := [];
      var i := 0;
      while i < |cfg.lights|
        invariant 0 <= i <= |cfg.lights|
        invariant sent == OffCommands(cfg.lights[..i])
      {
        assert cfg.lights[..i + 1][..i] == cfg.lights[..i];
        sent := sent + [OffCommandFor(cfg.lights[i])];
        i := i + 1;
      }
      assert cfg.lights[..i] == cfg.lights;
      outbox := outbox + sent;
    }

    /** `_schedule_off`. */
    method ScheduleOff()
      modifies this
      ensures Snapshot() == Transitions.ScheduleOff(old(Snapshot()), cfg)
    {
      CancelTimerSafe(offTimer);
      var h := RunIn(Callback.AutoOffElapsed, cfg.delayOff);
      offTimer := Some(h);
    }

    /** The quick re-automation `_on_motion` arms during `manual_on`. */
    method ScheduleMotionReauto()
      modifies this
      ensures Snapshot() == Transitions.ScheduleMotionReauto(old(Snapshot()), cfg)
    {
      CancelTimerSafe(motionReautoTimer);
      var h := RunIn(Callback.ReautomateFromMotion, cfg.motionReautoSeconds);
      motionReautoTimer := Some(h);
    }

    // ---- Media handling ----

    /** `_apply_media_dimming`: each `light.*` light not yet saved has its
        current level saved, and every `light.*` light is dimmed. */
    method ApplyMediaDimming(env: Env)
      modifies this
      ensures Snapshot() == ApplyDim(old(Snapshot()), cfg, env)
    {
      if cfg.mediaDimPct.None? {
        return;
      }
      var target := cfg.mediaDimPct.value;
      var saved := beforeMedia;
      var sent: seq<Effect> := [];
      var i := 0;
      while i < |cfg.lights|
        invariant 0 <= i <= |cfg.lights|
        invariant saved == Capture(beforeMedia, cfg.lights[..i], env.brightness)
        invariant sent == BrightnessCommands(cfg.lights[..i], target)
      {
        var l := cfg.lights[i];
        assert cfg.lights[..i + 1][..i] == cfg.lights[..i];
        if IsLight(l) {
          if l !in Keys(saved) {
            saved := saved + [Saved(l, PreDimPct(Get(env.brightness, l)))];
          }
          sent := sent + [Call(LightTurnOn(l, Some(target), None))];
        }
        i := i + 1;
      }
      assert cfg.lights[..i] == cfg.lights;
      beforeMedia := saved;
      outbox := outbox + sent;
    }

    /** The loop of `_restore_from_media` over the configured lights: the auto
        brightness for every `light.*` light. */
    method SendAutoBrightness(pct: int)
      modifies this
      ensures Snapshot() == old(Snapshot()).(outbox := old(outbox) + BrightnessCommands(cfg.lights, pct))
    {
      var sent: seq<Effect> := [];
      var i := 0;
      while i < |cfg.lights|
        invariant 0 <= i <= |cfg.lights|
        invariant sent == BrightnessCommands(cfg.lights[..i], pct)
      {
        var l := cfg.lights[i];
        assert cfg.lights[..i + 1][..i] == cfg.lights[..i];
        if IsLight(l) {
          sent := sent + [Call(LightTurnOn(l, Some(pct), None))];
        }
        i := i + 1;
      }
      assert cfg.lights[..i] == cfg.lights;
      outbox := outbox + sent;
    }

    /** The loop of `_restore_from_media` over the saved levels, in the order
        they were saved. */
    method ReplaySaved()
      modifies this
      ensures Snapshot() == old(Snapshot()).(outbox := old(outbox) + RestoreCommands(beforeMedia))
    {
      var sent: seq<Effect> := [];
      var i := 0;
      while i < |beforeMedia|
        invariant 0 <= i <= |beforeMedia|
        invariant sent == RestoreCommands(beforeMedia[..i])
      {
        var e := beforeMedia[i];
        assert beforeMedia[..i + 1][..i] == beforeMedia[..i];
        if IsLight(e.light) && e.pct.Some? {
          sent := sent + [Call(LightTurnOn(e.light, e.pct, None))];
        }
        i := i + 1;
      }
      assert beforeMedia[..i] == beforeMedia;
      outbox := outbox + sent;
    }

    /** `_restore_from_media`: with nothing saved, the auto brightness when one
        is configured; otherwise every saved level is sent back and the table
        cleared. */
    method RestoreFromMedia()
      modifies this
      ensures Snapshot() == RestoreMedia(old(Snapshot()), cfg)
    {
      if beforeMedia == [] {
        if cfg.autoBrightnessPct.Some? {
          SendAutoBrightness(cfg.autoBrightnessPct.value);
        }
        return;
      }
      ReplaySaved();
      beforeMedia := [];
    }

    // ---- Adaptive Lighting ----

    /** `_al_set_manual_control(lights=[entity])`. */
    method AlTakeOver(entity: string)
      modifies this
      ensures Snapshot() == AlSetManual(old(Snapshot()), cfg, entity)
    {
      if Configured(cfg.alSwitch) && cfg.alTakeOverOnManual {
        outbox := outbox + [Call(AlSetManualControl(cfg.alSwitch.value, [entity]))];
      }
    }

    /** `_al_schedule_reset_for`. */
    method AlScheduleResetFor(entity: string)
      modifies this
      ensures Snapshot() == AlScheduleReset(old(Snapshot()), cfg, entity)
    {
      var h := Get(alManualTimers, entity);
      alManualTimers := alManualTimers - {entity};
      CancelTimerSafe(h);
      if cfg.alManualResetSeconds.None? || cfg.alManualResetSeconds.value == 0 {
        return;
      }
      var tok := RunIn(AlResetTimer(entity), cfg.alManualResetSeconds.value as real);
      alManualTimers := alManualTimers[entity := tok];
    }

    // ---- Event handlers ----

    /** The branch of `_on_motion` taken in `auto` when presence is reported:
        the pending auto-off is cancelled, then, when ON is allowed and it is
        dark, the lights are turned on, or dimmed for the playing media when
        some are on already. */
    method MotionPresent(env: Env)
      modifies this
      ensures Snapshot() == Transitions.MotionPresent(old(Snapshot()), cfg, env)
    {
      CancelTimerSafe(offTimer);
      var allowed := AutomationAllowedNow(env, On);
      if allowed && IsDarkEnough(cfg, env.lux) {
        var anyOn := AnyLightOn(env.states);
        if !anyOn {
          TurnOn(env);
        } else if mediaPlaying && cfg.mediaDimPct.Some? {
          ApplyMediaDimming(env);
        }
      }
    }

    /** `_al_set_manual_control` followed by `_al_schedule_reset_for`. */
    method TakeOver(entity: string)
      modifies this
      ensures Snapshot() == Transitions.TakeOver(old(Snapshot()), cfg, entity)
    {
      AlTakeOver(entity);
      AlScheduleResetFor(entity);
    }

    /** `_on_motion` once the reported state is read as presence or absence. */
    method MotionReport(env: Env, isOn: bool)
      modifies this
      ensures Snapshot() == Transitions.MotionReport(old(Snapshot()), cfg, env, isOn)
    {
      presence := isOn;
      if mode == ManualOn && isOn {
        ScheduleMotionReauto();
      }
      if mode == Auto {
        if isOn {
          MotionPresent(env);
        } else {
          var anyMotion := AnyMotionOn(env.states);
          if !anyMotion {
            var allowed := AutomationAllowedNow(env, Off);
            if allowed {
              ScheduleOff();
            }
          }
        }
      }
    }

    /** `_on_motion`. */
    method OnMotion(env: Env, reported: Option<string>)
      modifies this
      ensures Snapshot() == Transitions.OnMotion(old(Snapshot()), cfg, env, reported)
    {
      var isOn := IsPresenceText(reported);
      MotionReport(env, isOn);
    }

    /** `_on_light_power`. The handle of the manual-off re-automation timer is
        not kept, as in the source. */
    method OnLightPower(env: Env, entity: string, before: Option<string>, after: Option<string>)
      modifies this
      ensures Snapshot() == Transitions.OnLightPower(old(Snapshot()), cfg, env, entity, before, after)
    {
      if env.now - startedAt < cfg.bootGrace {
        return;
      }
      var ignore := IgnoreIfExpectedEcho(entity, before, after, env.now);
      if !ignore {
        var newOn := IsOnText(after);
        var oldOn := IsOnText(before);
        if newOn && !oldOn {
          if mode != ManualOn {
            mode := ManualOn;
            CancelTimerSafe(offTimer);
            TakeOver(entity);
          }
        } else if !newOn && oldOn {
          if mode != ManualOff {
            mode := ManualOff;
            CancelTimerSafe(offTimer);
            var discarded := RunIn(Callback.ReautomateFromManualOff, cfg.manualOffReautoDelay);
          }
        }
      }
    }

    /** `_on_light_attr`. */
    method OnLightAttr(env: Env, entity: string, attr: Attr, before: Option<real>, after: Option<real>)
      modifies this
      ensures Snapshot() == Transitions.OnLightAttr(old(Snapshot()), cfg, env, entity, attr, before, after)
    {
      if env.now - startedAt < cfg.bootGrace {
        return;
      }
      if RecentAppChange(lastCmd, entity, env.now, MaxReal(cfg.echoWindow, 3.0)) {
        return;
      }
      if IsChangeLikeAl(cfg.alSwitch, CurrentTargets(cfg.alSwitch, cfg.alAdaptBrightness, cfg.alAdaptColor, env.al), attr, after) {
        return;
      }
      if !ChangedMeaningfully(attr, before, after) {
        return;
      }
      if !IsOnText(Get(env.states, entity)) {
        return;
      }
      if mode != ManualOn {
        mode := ManualOn;
        CancelTimerSafe(offTimer);
      }
      TakeOver(entity);
    }

    /** `_on_lux_changed`; the reading is `env.lux`. */
    method OnLuxChanged(env: Env)
      modifies this
      ensures Snapshot() == OnLux(old(Snapshot()), cfg, env)
    {
      if mode == Auto && presence && IsDarkEnough(cfg, env.lux) {
        var anyOn := AnyLightOn(env.states);
        if !anyOn {
          var allowed := AutomationAllowedNow(env, On);
          if allowed {
            TurnOn(env);
          }
        } else if mediaPlaying && cfg.mediaDimPct.Some? {
          ApplyMediaDimming(env);
        }
      }
    }

    /** `_on_media_state`. */
    method OnMediaState(env: Env, reported: Option<string>)
      modifies this
      ensures Snapshot() == OnMedia(old(Snapshot()), cfg, env, reported)
    {
      var playing := Lower(reported.GetOr("")) == "playing";
      mediaPlaying := playing;
      if mode == Auto {
        if playing {
          if IsDarkEnough(cfg, env.lux) {
            var anyOn := AnyLightOn(env.states);
            if anyOn {
              ApplyMediaDimming(env);
            }
          }
        } else {
          var anyOn := AnyLightOn(env.states);
          if anyOn {
            RestoreFromMedia();
          }
        }
      }
    }

    /** `_on_button_press`: no block is checked. */
    method OnButtonPress(env: Env, ev: ButtonEvent)
      modifies this
      ensures Snapshot() == ButtonPress(old(Snapshot()), cfg, env, ev)
    {
      if !ButtonAccepted(cfg, ev) {
        return;
      }
      mode := Auto;
      if presence && IsDarkEnough(cfg, env.lux) {
        TurnOn(env);
      } else {
        TurnOff(env.now);
      }
    }

    // ---- Timer callbacks ----

    /** `_auto_off_elapsed`. */
    method AutoOffElapsed(env: Env)
      modifies this
      ensures Snapshot() == AutoOff(old(Snapshot()), cfg, env)
    {
      if mode == Auto && !presence {
        var allowed := AutomationAllowedNow(env, Off);
        if allowed {
          TurnOff(env.now);
        }
      }
      offTimer := None;
    }

    /** `_reautomate_from_motion`: back to `auto`, then on when someone is
        present in the dark and ON is allowed, off otherwise. */
    method ReautomateFromMotion(env: Env)
      modifies this
      ensures Snapshot() == ReautoFromMotion(old(Snapshot()), cfg, env)
    {
      motionReautoTimer := None;
      mode := Auto;
      if presence && IsDarkEnough(cfg, env.lux) {
        var allowed := AutomationAllowedNow(env, On);
        if allowed {
          TurnOn(env);
        }
      } else {
        TurnOff(env.now);
      }
    }

    /** `_reautomate_from_manual_off`: the same decision, leaving the motion
        re-automation slot alone. */
    method ReautomateFromManualOff(env: Env)
      modifies this
      ensures Snapshot() == ReautoFromManualOff(old(Snapshot()), cfg, env)
    {
      mode := Auto;
      if presence && IsDarkEnough(cfg, env.lux) {
        var allowed := AutomationAllowedNow(env, On);
        if allowed {
          TurnOn(env);
        }
      } else {
        TurnOff(env.now);
      }
    }

    /** `_al_reset_timer_cb`. */
    method AlResetTimerCb(entity: string)
      modifies this
      ensures Snapshot() == AlResetFired(old(Snapshot()), cfg, entity)
    {
      alManualTimers := alManualTimers - {entity};
      if Configured(cfg.alSwitch) {
        outbox := outbox + [Call(AlReset(cfg.alSwitch.value, [entity]))];
      }
    }

    /** One event, dispatched to its handler. */
    method Handle(env: Env, ev: Event)
      modifies this
      requires Valid()
      ensures Valid()
      ensures Snapshot() == Step(old(Snapshot()), cfg, env, ev)
    {
      ghost var s0 := Snapshot();
      match ev {
        case Motion(r) => OnMotion(env, r);
        case LightPower(e, b, a) => OnLightPower(env, e, b, a);
        case LightAttr(e, at, b, a) => OnLightAttr(env, e, at, b, a);
        case LuxChanged => OnLuxChanged(env);
        case MediaState(m) => OnMediaState(env, m);
        case Press(b) => OnButtonPress(env, b);
        case TimerFired(cb) =>
          match cb {
            case AutoOffElapsed => AutoOffElapsed(env);
            case ReautomateFromMotion => ReautomateFromMotion(env);
            case ReautomateFromManualOff => ReautomateFromManualOff(env);
            case AlResetTimer(e) => AlResetTimerCb(e);
          }
      }
      StepOk(s0, cfg, env, ev);
    }
  }
}
