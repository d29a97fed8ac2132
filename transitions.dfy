/** The controller as a state machine on values: its owned state, one function
    per event handler and timer callback of `LightController`, and what they
    preserve. The class `Lights.LightController` performs the same steps in
    place and is proved to end in exactly the states computed here. */
module Transitions {
  import opened Common
  import opened Text
  import opened Numeric
  import opened Effects
  import opened BlockWindows
  import opened Adaptive
  import opened EchoGuard
  import opened MediaDim
  import opened Settings
  import opened Control

  datatype Mode = Auto | ManualOn | ManualOff

  /** Everything a controller owns between two events. Timer slots hold the
      token of the timer last armed there; the outbox is every service call,
      timer start and timer cancellation issued so far, oldest first. */
  datatype State = State(
    mode: Mode,
    presence: bool,
    mediaPlaying: bool,
    expectedEcho: EchoTable,
    lastCmd: LastCommands,
    beforeMedia: PreDim,
    offTimer: Option<Token>,
    motionReautoTimer: Option<Token>,
    alManualTimers: map<string, Token>,
    nextToken: nat,
    outbox: seq<Effect>,
    startedAt: real)

  /** The state `initialize` leaves behind. */
  function Initial(startedAt: real): State {
    State(Auto, false, false, map[], map[], [], None, None, map[], 0, [], startedAt)
  }

  // ---- Primitive steps ----

  function Emit(s: State, effs: seq<Effect>): State {
    s.(outbox := s.outbox + effs)
  }

  /** `_cancel_timer_safe`: cancels the timer, if there is one. The slot keeps
      its stale token, as the source's attribute does. */
  function CancelSafe(s: State, h: Option<Token>): State {
    if h.Some? then Emit(s, [CancelTimer(h.value)]) else s
  }

  /** `run_in`: starts a timer under the next fresh token. */
  function Arm(s: State, cb: Callback, delay: real): (r: State)
    ensures r.nextToken == s.nextToken + 1
    ensures r.outbox == s.outbox + [StartTimer(s.nextToken, cb, delay)]
  {
    s.(nextToken := s.nextToken + 1, outbox := s.outbox + [StartTimer(s.nextToken, cb, delay)])
  }

  /** `_automation_allowed` at the event's clock. */
  predicate Allowed(cfg: Config, env: Env, action: Power) {
    AutomationAllowed(action, BlockedAt(cfg.blocking, env.minute, env.today))
  }

  predicate Dark(cfg: Config, env: Env) {
    IsDarkEnough(cfg, env.lux)
  }

  /** `_mark_expected_echo`. */
  function MarkEcho(s: State, cfg: Config, p: Power, now: real): State {
    s.(expectedEcho := MarkedEchoes(s.expectedEcho, cfg.lights, p, now, cfg.echoWindow, cfg.echoMaxWindow),
       lastCmd := MarkedCommands(s.lastCmd, cfg.lights, p, now))
  }

  /** `_turn_on`. */
  function TurnOn(s: State, cfg: Config, env: Env): State {
    Emit(MarkEcho(s, cfg, On, env.now), OnCommands(cfg.lights, TurnOnLevels(cfg, s.mediaPlaying, env.al)))
  }

  /** `_turn_off`. */
  function TurnOff(s: State, cfg: Config, now: real): State {
    Emit(MarkEcho(s, cfg, Off, now), OffCommands(cfg.lights))
  }

  /** `_schedule_off`. */
  function ScheduleOff(s: State, cfg: Config): State {
    var s1 := CancelSafe(s, s.offTimer);
    Arm(s1, AutoOffElapsed, cfg.delayOff).(offTimer := Some(s1.nextToken))
  }

  /** The quick re-automation `_on_motion` arms during `manual_on`. */
  function ScheduleMotionReauto(s: State, cfg: Config): State {
    var s1 := CancelSafe(s, s.motionReautoTimer);
    Arm(s1, ReautomateFromMotion, cfg.motionReautoSeconds).(motionReautoTimer := Some(s1.nextToken))
  }

  /** `_apply_media_dimming`. */
  function ApplyDim(s: State, cfg: Config, env: Env): State {
    if cfg.mediaDimPct.None? then s
    else s.(beforeMedia := Capture(s.beforeMedia, cfg.lights, env.brightness),
            outbox := s.outbox + BrightnessCommands(cfg.lights, cfg.mediaDimPct.value))
  }

  /** `_restore_from_media`. */
  function RestoreMedia(s: State, cfg: Config): State {
    var r := Restore(s.beforeMedia, cfg.lights, cfg.autoBrightnessPct);
    s.(beforeMedia := r.table, outbox := s.outbox + r.commands)
  }

  /** `_al_set_manual_control(lights=[entity])`. */
  function AlSetManual(s: State, cfg: Config, entity: string): State {
    if Configured(cfg.alSwitch) && cfg.alTakeOverOnManual
    then Emit(s, [Call(AlSetManualControl(cfg.alSwitch.value, [entity]))])
    else s
  }

  /** `_al_schedule_reset_for`: drop and cancel the entity's pending reset, then
      arm a new one unless the reset period is unset or zero. */
  function AlScheduleReset(s: State, cfg: Config, entity: string): State {
    var s1 := CancelSafe(s.(alManualTimers := s.alManualTimers - {entity}), Get(s.alManualTimers, entity));
    if cfg.alManualResetSeconds.None? || cfg.alManualResetSeconds.value == 0 then s1
    else Arm(s1, AlResetTimer(entity), cfg.alManualResetSeconds.value as real)
           .(alManualTimers := s1.alManualTimers[entity := s1.nextToken])
  }

  // ---- Event handlers ----

  /** `_on_motion` in `auto` with presence: cancel the pending auto-off, then,
      when ON is allowed and it is dark, switch on or dim for media. */
  function MotionPresent(s: State, cfg: Config, env: Env): State {
    var s1 := CancelSafe(s, s.offTimer);
    if !Allowed(cfg, env, On) || !Dark(cfg, env) then s1
    else if !AnyLightOn(cfg.lights, env.states) then TurnOn(s1, cfg, env)
    else if s1.mediaPlaying && cfg.mediaDimPct.Some? then ApplyDim(s1, cfg, env)
    else s1
  }

  /** `_on_motion` once the report is read: presence follows the sensor that
      fired. */
  function MotionReport(s: State, cfg: Config, env: Env, isOn: bool): State {
    var s1 := s.(presence := isOn);
    var s2 := if s1.mode == ManualOn && isOn then ScheduleMotionReauto(s1, cfg) else s1;
    if s2.mode != Auto then s2
    else if isOn then MotionPresent(s2, cfg, env)
    else if !AnyMotionOn(cfg.motionEntities, env.states) && Allowed(cfg, env, Off) then ScheduleOff(s2, cfg)
    else s2
  }

  /** `_on_motion`. */
  function OnMotion(s: State, cfg: Config, env: Env, reported: Option<string>): State {
    MotionReport(s, cfg, env, IsPresenceText(reported))
  }

  predicate InBootGrace(s: State, cfg: Config, env: Env) {
    env.now - s.startedAt < cfg.bootGrace
  }

  /** A light leaves automatic control: Adaptive Lighting is told to stop
      adapting it and the timer that hands it back is (re)armed. */
  function TakeOver(s: State, cfg: Config, entity: string): State {
    AlScheduleReset(AlSetManual(s, cfg, entity), cfg, entity)
  }

  /** `_on_light_power` once the report is known not to be an echo: a switch-on
      enters `manual_on` and hands the light over, a switch-off enters
      `manual_off` and arms the re-automation timer without keeping its handle. */
  function PowerChange(s: State, cfg: Config, entity: string, newOn: bool, oldOn: bool): State {
    if newOn && !oldOn then
      if s.mode == ManualOn then s
      else TakeOver(CancelSafe(s.(mode := ManualOn), s.offTimer), cfg, entity)
    else if !newOn && oldOn then
      if s.mode == ManualOff then s
      else Arm(CancelSafe(s.(mode := ManualOff), s.offTimer), ReautomateFromManualOff, cfg.manualOffReautoDelay)
    else s
  }

  /** `_on_light_power`. */
  function OnLightPower(s: State, cfg: Config, env: Env, entity: string, before: Option<string>, after: Option<string>): State {
    if InBootGrace(s, cfg, env) then s
    else
      var v := CheckEcho(s.expectedEcho, entity, before, after, env.now);
      var s1 := s.(expectedEcho := v.table);
      if v.ignore then s1 else PowerChange(s1, cfg, entity, IsOnText(after), IsOnText(before))
  }

  /** `_on_light_attr`. */
  function OnLightAttr(s: State, cfg: Config, env: Env, entity: string, attr: Attr, before: Option<real>, after: Option<real>): State {
    if InBootGrace(s, cfg, env) then s
    else if RecentAppChange(s.lastCmd, entity, env.now, MaxReal(cfg.echoWindow, 3.0)) then s
    else if IsChangeLikeAl(cfg.alSwitch, CurrentTargets(cfg.alSwitch, cfg.alAdaptBrightness, cfg.alAdaptColor, env.al), attr, after) then s
    else if !ChangedMeaningfully(attr, before, after) then s
    else if !IsOnText(Get(env.states, entity)) then s
    else
      var s1 := if s.mode != ManualOn then CancelSafe(s.(mode := ManualOn), s.offTimer) else s;
      TakeOver(s1, cfg, entity)
  }

  /** `_on_lux_changed`; the reading itself is taken from `env`. */
  function OnLux(s: State, cfg: Config, env: Env): State {
    if s.mode == Auto && s.presence && Dark(cfg, env) then
      if !AnyLightOn(cfg.lights, env.states) then
        if Allowed(cfg, env, On) then TurnOn(s, cfg, env) else s
      else if s.mediaPlaying && cfg.mediaDimPct.Some? then ApplyDim(s, cfg, env)
      else s
    else s
  }

  /** `_on_media_state`. */
  function OnMedia(s: State, cfg: Config, env: Env, reported: Option<string>): State {
    var playing := Lower(reported.GetOr("")) == "playing";
    var s1 := s.(mediaPlaying := playing);
    if s1.mode != Auto then s1
    else if playing then
      if Dark(cfg, env) && AnyLightOn(cfg.lights, env.states) then ApplyDim(s1, cfg, env) else s1
    else if AnyLightOn(cfg.lights, env.states) then RestoreMedia(s1, cfg)
    else s1
  }

  /** `_auto_off_elapsed`. */
  function AutoOff(s: State, cfg: Config, env: Env): State {
    var s1 := if s.mode == Auto && !s.presence && Allowed(cfg, env, Off) then TurnOff(s, cfg, env.now) else s;
    s1.(offTimer := None)
  }

  /** The decision both re-automation paths and the button share once `auto` is
      set: on if someone is present and it is dark (and ON is not blocked),
      otherwise off, with no check whether OFF is blocked. */
  function Reevaluate(s: State, cfg: Config, env: Env): State {
    if s.presence && Dark(cfg, env) then
      if Allowed(cfg, env, On) then TurnOn(s, cfg, env) else s
    else TurnOff(s, cfg, env.now)
  }

  /** `_reautomate_from_motion`. */
  function ReautoFromMotion(s: State, cfg: Config, env: Env): State {
    Reevaluate(s.(motionReautoTimer := None, mode := Auto), cfg, env)
  }

  /** `_reautomate_from_manual_off`. */
  function ReautoFromManualOff(s: State, cfg: Config, env: Env): State {
    Reevaluate(s.(mode := Auto), cfg, env)
  }

  /** The `call_service` event `_on_button_press` receives. */
  datatype ButtonEvent = ButtonEvent(domain: Option<string>, service: Option<string>, entityIds: ConfigValue<string>)

  /** The event is a press of this zone's re-automate button. */
  predicate ButtonAccepted(cfg: Config, ev: ButtonEvent) {
    && ev.domain == Some("button") && ev.service == Some("press")
    && TruthyText(ev.entityIds)
    && ReautoButton(cfg.appName) in AsList(ev.entityIds)
  }

  /** `_on_button_press`: no block is checked, in either direction. */
  function ButtonPress(s: State, cfg: Config, env: Env, ev: ButtonEvent): State {
    if !ButtonAccepted(cfg, ev) then s
    else
      var s1 := s.(mode := Auto);
      if s1.presence && Dark(cfg, env) then TurnOn(s1, cfg, env) else TurnOff(s1, cfg, env.now)
  }

  /** `_al_reset_timer_cb`. */
  function AlResetFired(s: State, cfg: Config, entity: string): State {
    var s1 := s.(alManualTimers := s.alManualTimers - {entity});
    if Configured(cfg.alSwitch) then Emit(s1, [Call(AlReset(cfg.alSwitch.value, [entity]))]) else s1
  }

  /** A timer firing runs its callback. */
  function Fire(s: State, cfg: Config, env: Env, cb: Callback): State {
    match cb
    case AutoOffElapsed => AutoOff(s, cfg, env)
    case ReautomateFromMotion => ReautoFromMotion(s, cfg, env)
    case ReautomateFromManualOff => ReautoFromManualOff(s, cfg, env)
    case AlResetTimer(e) => AlResetFired(s, cfg, e)
  }

  datatype Event =
    | Motion(reported: Option<string>)
    | LightPower(entity: string, before: Option<string>, after: Option<string>)
    | LightAttr(entity: string, attr: Attr, attrBefore: Option<real>, attrAfter: Option<real>)
    | LuxChanged
    | MediaState(media: Option<string>)
    | Press(button: ButtonEvent)
    | TimerFired(callback: Callback)

  /** One event, handled with the readings `env` gives. */
  function Step(s: State, cfg: Config, env: Env, ev: Event): State {
    match ev
    case Motion(r) => OnMotion(s, cfg, env, r)
    case LightPower(e, b, a) => OnLightPower(s, cfg, env, e, b, a)
    case LightAttr(e, at, b, a) => OnLightAttr(s, cfg, env, e, at, b, a)
    case LuxChanged => OnLux(s, cfg, env)
    case MediaState(m) => OnMedia(s, cfg, env, m)
    case Press(b) => ButtonPress(s, cfg, env, b)
    case TimerFired(cb) => Fire(s, cfg, env, cb)
  }

  datatype Input = Input(env: Env, event: Event)

  /** The events of `ins` handled one after another. */
  function Run(s: State, cfg: Config, ins: seq<Input>): State {
    if ins == [] then s
    else
      var last := ins[|ins| - 1];
      Step(Run(s, cfg, ins[..|ins| - 1]), cfg, last.env, last.event)
  }

  // ---- Invariants ----

  /** The tokens the timer slots hold. */
  function SlotTokens(s: State): set<Token> {
    (if s.offTimer.Some? then {s.offTimer.value} else {})
    + (if s.motionReautoTimer.Some? then {s.motionReautoTimer.value} else {})
    + s.alManualTimers.Values
  }

  /** An issued effect names a handed-out token, and a manual-off
      re-automation timer is in no slot and never cancelled. */
  predicate EffectOk(s: State, e: Effect) {
    && (!e.Call? ==> e.token < s.nextToken)
    && (e.StartTimer? && e.callback == ReautomateFromManualOff ==>
          e.token !in SlotTokens(s) && CancelTimer(e.token) !in s.outbox)
  }

  /** Timer bookkeeping, for the slots and for everything issued. */
  predicate TimersOk(s: State) {
    && (forall t :: t in SlotTokens(s) ==> t < s.nextToken)
    && (forall e :: e in s.outbox ==> EffectOk(s, e))
  }

  /** The tables only ever hold configured lights, and the pre-dim table is
      well formed. */
  ghost predicate TablesOk(s: State, cfg: Config) {
    && WellFormed(s.beforeMedia, cfg.lights)
    && (forall k :: k in s.expectedEcho || k in s.lastCmd ==> k in cfg.lights)
  }

  ghost predicate Inv(s: State, cfg: Config) {
    TimersOk(s) && TablesOk(s, cfg)
  }

  lemma InitialInv(cfg: Config, t: real)
    ensures Inv(Initial(t), cfg)
  {
    assert SlotTokens(Initial(t)) == {};
  }

  predicate CallsOnly(effs: seq<Effect>) {
    forall e :: e in effs ==> e.Call?
  }

  // ---- Timer bookkeeping, step by step ----

  /** With the outbox and the counter as they were, dropping slot tokens keeps
      the bookkeeping. */
  lemma FewerSlotsOk(s: State, r: State)
    requires TimersOk(s)
    requires r.outbox == s.outbox && r.nextToken == s.nextToken && SlotTokens(r) <= SlotTokens(s)
    ensures TimersOk(r)
  {
    forall e | e in r.outbox ensures EffectOk(r, e) {
      assert EffectOk(s, e);
    }
  }

  lemma EmitCallsOk(s: State, effs: seq<Effect>)
    requires TimersOk(s) && CallsOnly(effs)
    ensures TimersOk(Emit(s, effs))
  {
    var r := Emit(s, effs);
    assert SlotTokens(r) == SlotTokens(s);
    forall e | e in r.outbox ensures EffectOk(r, e) {
      if e in s.outbox {
        assert EffectOk(s, e);
        if e.StartTimer? && e.callback == ReautomateFromManualOff {
          assert CancelTimer(e.token) !in effs;
          assert CancelTimer(e.token) !in r.outbox;
        }
      } else {
        assert e in effs;
      }
    }
  }

  /** Cancelling the token held in a slot keeps the bookkeeping. */
  lemma CancelSafeOk(s: State, h: Option<Token>)
    requires TimersOk(s) && (h.Some? ==> h.value in SlotTokens(s))
    ensures TimersOk(CancelSafe(s, h))
  {
    if h.Some? {
      var r := CancelSafe(s, h);
      forall e | e in r.outbox ensures EffectOk(r, e) {
        if e in s.outbox {
          assert EffectOk(s, e);
        }
      }
    }
  }

  /** Arming a timer whose token goes straight into a slot keeps the bookkeeping. */
  lemma ArmIntoSlotOk(s: State, cb: Callback, delay: real, r: State)
    requires TimersOk(s) && cb != ReautomateFromManualOff
    requires r.outbox == s.outbox + [StartTimer(s.nextToken, cb, delay)] && r.nextToken == s.nextToken + 1
    requires SlotTokens(r) <= SlotTokens(s) + {s.nextToken}
    ensures TimersOk(r)
  {
    forall e | e in r.outbox ensures EffectOk(r, e) {
      if e in s.outbox {
        assert EffectOk(s, e);
      }
    }
  }

  /** The discarded manual-off timer: fresh, in no slot, never cancelled. */
  lemma ArmManualOffOk(s: State, delay: real)
    requires TimersOk(s)
    ensures TimersOk(Arm(s, ReautomateFromManualOff, delay))
  {
    var r := Arm(s, ReautomateFromManualOff, delay);
    assert SlotTokens(r) == SlotTokens(s);
    forall e | e in r.outbox ensures EffectOk(r, e) {
      if e in s.outbox {
        assert EffectOk(s, e);
      }
    }
  }

  lemma ScheduleOffOk(s: State, cfg: Config)
    requires TimersOk(s)
    ensures TimersOk(ScheduleOff(s, cfg))
  {
    var s1 := CancelSafe(s, s.offTimer);
    CancelSafeOk(s, s.offTimer);
    ArmIntoSlotOk(s1, AutoOffElapsed, cfg.delayOff, ScheduleOff(s, cfg));
  }

  lemma ScheduleMotionReautoOk(s: State, cfg: Config)
    requires TimersOk(s)
    ensures TimersOk(ScheduleMotionReauto(s, cfg))
  {
    var s1 := CancelSafe(s, s.motionReautoTimer);
    CancelSafeOk(s, s.motionReautoTimer);
    ArmIntoSlotOk(s1, ReautomateFromMotion, cfg.motionReautoSeconds, ScheduleMotionReauto(s, cfg));
  }

  lemma AlSetManualOk(s: State, cfg: Config, entity: string)
    requires TimersOk(s)
    ensures TimersOk(AlSetManual(s, cfg, entity))
  {
    if Configured(cfg.alSwitch) && cfg.alTakeOverOnManual {
      EmitCallsOk(s, [Call(AlSetManualControl(cfg.alSwitch.value, [entity]))]);
    }
  }

  /** Dropping and cancelling an entity's pending reset keeps the bookkeeping. */
  lemma DropResetOk(s: State, entity: string)
    requires TimersOk(s)
    ensures TimersOk(CancelSafe(s.(alManualTimers := s.alManualTimers - {entity}), Get(s.alManualTimers, entity)))
  {
    var h := Get(s.alManualTimers, entity);
    var c := CancelSafe(s, h);
    CancelSafeOk(s, h);
    var s1 := CancelSafe(s.(alManualTimers := s.alManualTimers - {entity}), h);
    assert s1 == c.(alManualTimers := c.alManualTimers - {entity});
    ValuesOfRemoval(s.alManualTimers, entity);
    FewerSlotsOk(c, s1);
  }

  lemma AlScheduleResetOk(s: State, cfg: Config, entity: string)
    requires TimersOk(s)
    ensures TimersOk(AlScheduleReset(s, cfg, entity))
  {
    var s1 := CancelSafe(s.(alManualTimers := s.alManualTimers - {entity}), Get(s.alManualTimers, entity));
    DropResetOk(s, entity);
    if !(cfg.alManualResetSeconds.None? || cfg.alManualResetSeconds.value == 0) {
      ValuesOfUpdate(s1.alManualTimers, entity, s1.nextToken);
      ArmIntoSlotOk(s1, AlResetTimer(entity), cfg.alManualResetSeconds.value as real, AlScheduleReset(s, cfg, entity));
    }
  }

  lemma OnOffCallsOnly(cfg: Config, lv: Levels)
    ensures CallsOnly(OnCommands(cfg.lights, lv)) && CallsOnly(OffCommands(cfg.lights))
  {
  }

  lemma TurnOnTimers(s: State, cfg: Config, env: Env)
    requires TimersOk(s)
    ensures TimersOk(TurnOn(s, cfg, env))
  {
    var m := MarkEcho(s, cfg, On, env.now);
    FewerSlotsOk(s, m);
    OnOffCallsOnly(cfg, TurnOnLevels(cfg, s.mediaPlaying, env.al));
    EmitCallsOk(m, OnCommands(cfg.lights, TurnOnLevels(cfg, s.mediaPlaying, env.al)));
  }

  lemma TurnOffTimers(s: State, cfg: Config, now: real)
    requires TimersOk(s)
    ensures TimersOk(TurnOff(s, cfg, now))
  {
    var m := MarkEcho(s, cfg, Off, now);
    FewerSlotsOk(s, m);
    OnOffCallsOnly(cfg, Levels(None, None));
    EmitCallsOk(m, OffCommands(cfg.lights));
  }

  lemma ApplyDimTimers(s: State, cfg: Config, env: Env)
    requires TimersOk(s)
    ensures TimersOk(ApplyDim(s, cfg, env))
  {
    if cfg.mediaDimPct.Some? {
      var m := s.(beforeMedia := Capture(s.beforeMedia, cfg.lights, env.brightness));
      FewerSlotsOk(s, m);
      BrightnessCommandsExactly(cfg.lights, cfg.mediaDimPct.value);
      EmitCallsOk(m, BrightnessCommands(cfg.lights, cfg.mediaDimPct.value));
    }
  }

  lemma RestoreMediaTimers(s: State, cfg: Config)
    requires TimersOk(s)
    ensures TimersOk(RestoreMedia(s, cfg))
  {
    var m := s.(beforeMedia := []);
    FewerSlotsOk(s, m);
    RestoreReplaysSaved(s.beforeMedia);
    if cfg.autoBrightnessPct.Some? {
      BrightnessCommandsExactly(cfg.lights, cfg.autoBrightnessPct.value);
    }
    EmitCallsOk(m, Restore(s.beforeMedia, cfg.lights, cfg.autoBrightnessPct).commands);
  }

  /** Handing a light to manual control in Adaptive Lighting. */
  lemma TakeOverTimers(s: State, cfg: Config, entity: string)
    requires TimersOk(s)
    ensures TimersOk(AlScheduleReset(AlSetManual(s, cfg, entity), cfg, entity))
  {
    AlSetManualOk(s, cfg, entity);
    AlScheduleResetOk(AlSetManual(s, cfg, entity), cfg, entity);
  }

  /** Entering `manual_on`: the off timer is cancelled and the light handed over. */
  lemma ManualOnTimers(s: State, cfg: Config, entity: string)
    requires TimersOk(s)
    ensures TimersOk(AlScheduleReset(AlSetManual(CancelSafe(s.(mode := ManualOn), s.offTimer), cfg, entity), cfg, entity))
  {
    var s0 := s.(mode := ManualOn);
    FewerSlotsOk(s, s0);
    CancelSafeOk(s0, s.offTimer);
    TakeOverTimers(CancelSafe(s0, s.offTimer), cfg, entity);
  }

  lemma MotionPresentTimers(s: State, cfg: Config, env: Env)
    requires TimersOk(s)
    ensures TimersOk(MotionPresent(s, cfg, env))
  {
    var s1 := CancelSafe(s, s.offTimer);
    CancelSafeOk(s, s.offTimer);
    TurnOnTimers(s1, cfg, env);
    ApplyDimTimers(s1, cfg, env);
  }

  lemma OnMotionTimers(s: State, cfg: Config, env: Env, reported: Option<string>)
    requires TimersOk(s)
    ensures TimersOk(OnMotion(s, cfg, env, reported))
  {
    var isOn := IsPresenceText(reported);
    var s1 := s.(presence := isOn);
    FewerSlotsOk(s, s1);
    if s1.mode == ManualOn && isOn {
      ScheduleMotionReautoOk(s1, cfg);
    } else if s1.mode == Auto {
      if isOn {
        MotionPresentTimers(s1, cfg, env);
      } else {
        ScheduleOffOk(s1, cfg);
      }
    }
  }

  lemma PowerChangeTimers(s: State, cfg: Config, entity: string, newOn: bool, oldOn: bool)
    requires TimersOk(s)
    ensures TimersOk(PowerChange(s, cfg, entity, newOn, oldOn))
  {
    if newOn && !oldOn && s.mode != ManualOn {
      ManualOnTimers(s, cfg, entity);
    } else if !newOn && oldOn && s.mode != ManualOff {
      var s2 := s.(mode := ManualOff);
      FewerSlotsOk(s, s2);
      CancelSafeOk(s2, s2.offTimer);
      ArmManualOffOk(CancelSafe(s2, s2.offTimer), cfg.manualOffReautoDelay);
    }
  }

  lemma OnLightPowerTimers(s: State, cfg: Config, env: Env, entity: string, before: Option<string>, after: Option<string>)
    requires TimersOk(s)
    ensures TimersOk(OnLightPower(s, cfg, env, entity, before, after))
  {
    if !InBootGrace(s, cfg, env) {
      var v := CheckEcho(s.expectedEcho, entity, before, after, env.now);
      var s1 := s.(expectedEcho := v.table);
      FewerSlotsOk(s, s1);
      PowerChangeTimers(s1, cfg, entity, IsOnText(after), IsOnText(before));
    }
  }

  lemma OnLightAttrTimers(s: State, cfg: Config, env: Env, entity: string, attr: Attr, before: Option<real>, after: Option<real>)
    requires TimersOk(s)
    ensures TimersOk(OnLightAttr(s, cfg, env, entity, attr, before, after))
  {
    if s.mode != ManualOn {
      ManualOnTimers(s, cfg, entity);
    } else {
      TakeOverTimers(s, cfg, entity);
    }
  }

  lemma OnMediaTimers(s: State, cfg: Config, env: Env, reported: Option<string>)
    requires TimersOk(s)
    ensures TimersOk(OnMedia(s, cfg, env, reported))
  {
    var s1 := s.(mediaPlaying := Lower(reported.GetOr("")) == "playing");
    FewerSlotsOk(s, s1);
    ApplyDimTimers(s1, cfg, env);
    RestoreMediaTimers(s1, cfg);
  }

  /** Entering `auto`, with the motion re-automation slot cleared or not, then
      switching on or off. */
  lemma AutoThenSwitchTimers(s: State, s1: State, cfg: Config, env: Env)
    requires TimersOk(s)
    requires s1 == s.(mode := Auto) || s1 == s.(motionReautoTimer := None, mode := Auto)
    ensures TimersOk(TurnOn(s1, cfg, env)) && TimersOk(TurnOff(s1, cfg, env.now)) && TimersOk(s1)
  {
    FewerSlotsOk(s, s1);
    TurnOnTimers(s1, cfg, env);
    TurnOffTimers(s1, cfg, env.now);
  }

  lemma AutoOffTimers(s: State, cfg: Config, env: Env)
    requires TimersOk(s)
    ensures TimersOk(AutoOff(s, cfg, env))
  {
    TurnOffTimers(s, cfg, env.now);
    var s1 := if s.mode == Auto && !s.presence && Allowed(cfg, env, Off) then TurnOff(s, cfg, env.now) else s;
    FewerSlotsOk(s1, s1.(offTimer := None));
  }

  lemma AlResetFiredTimers(s: State, cfg: Config, entity: string)
    requires TimersOk(s)
    ensures TimersOk(AlResetFired(s, cfg, entity))
  {
    var s1 := s.(alManualTimers := s.alManualTimers - {entity});
    ValuesOfRemoval(s.alManualTimers, entity);
    FewerSlotsOk(s, s1);
    if Configured(cfg.alSwitch) {
      EmitCallsOk(s1, [Call(AlReset(cfg.alSwitch.value, [entity]))]);
    }
  }

  lemma FireTimers(s: State, cfg: Config, env: Env, cb: Callback)
    requires TimersOk(s)
    ensures TimersOk(Fire(s, cfg, env, cb))
  {
    match cb
    case AutoOffElapsed => AutoOffTimers(s, cfg, env);
    case ReautomateFromMotion => AutoThenSwitchTimers(s, s.(motionReautoTimer := None, mode := Auto), cfg, env);
    case ReautomateFromManualOff => AutoThenSwitchTimers(s, s.(mode := Auto), cfg, env);
    case AlResetTimer(e) => AlResetFiredTimers(s, cfg, e);
  }

  lemma StepTimers(s: State, cfg: Config, env: Env, ev: Event)
    requires TimersOk(s)
    ensures TimersOk(Step(s, cfg, env, ev))
  {
    match ev
    case Motion(r) => OnMotionTimers(s, cfg, env, r);
    case LightPower(e, b, a) => OnLightPowerTimers(s, cfg, env, e, b, a);
    case LightAttr(e, at, b, a) => OnLightAttrTimers(s, cfg, env, e, at, b, a);
    case LuxChanged =>
      TurnOnTimers(s, cfg, env);
      ApplyDimTimers(s, cfg, env);
    case MediaState(m) => OnMediaTimers(s, cfg, env, m);
    case Press(b) => AutoThenSwitchTimers(s, s.(mode := Auto), cfg, env);
    case TimerFired(cb) => FireTimers(s, cfg, env, cb);
  }

  // ---- The tables, step by step ----

  /** The two states hold the same tables. */
  predicate SameTables(r: State, s: State) {
    r.beforeMedia == s.beforeMedia && r.expectedEcho == s.expectedEcho && r.lastCmd == s.lastCmd
  }

  /** Marking keeps the echo tables within the configured lights. */
  lemma MarkEchoTables(s: State, cfg: Config, p: Power, now: real)
    requires TablesOk(s, cfg)
    ensures TablesOk(MarkEcho(s, cfg, p, now), cfg)
  {
    var r := MarkEcho(s, cfg, p, now);
    forall k | k in r.expectedEcho || k in r.lastCmd ensures k in cfg.lights {
      AssignLookup(s.expectedEcho, cfg.lights, Fresh(p, now, cfg.echoWindow, cfg.echoMaxWindow), k);
      AssignLookup(s.lastCmd, cfg.lights, LastCommand(p, now), k);
    }
  }

  lemma SwitchTables(s: State, cfg: Config, env: Env)
    requires TablesOk(s, cfg)
    ensures TablesOk(TurnOn(s, cfg, env), cfg) && TablesOk(TurnOff(s, cfg, env.now), cfg)
  {
    MarkEchoTables(s, cfg, On, env.now);
    MarkEchoTables(s, cfg, Off, env.now);
  }

  lemma ApplyDimTables(s: State, cfg: Config, env: Env)
    requires TablesOk(s, cfg)
    ensures TablesOk(ApplyDim(s, cfg, env), cfg)
  {
    if cfg.mediaDimPct.Some? {
      CaptureWellFormed(s.beforeMedia, cfg.lights, cfg.lights, env.brightness);
    }
  }

  /** Handing a light over leaves the tables alone. */
  lemma TakeOverTables(s: State, cfg: Config, entity: string)
    ensures SameTables(AlScheduleReset(AlSetManual(s, cfg, entity), cfg, entity), s)
  {
    var b := AlSetManual(s, cfg, entity);
    assert SameTables(b, s);
    var c := CancelSafe(b.(alManualTimers := b.alManualTimers - {entity}), Get(b.alManualTimers, entity));
    assert SameTables(c, s);
  }

  lemma MotionPresentTables(s: State, cfg: Config, env: Env)
    requires TablesOk(s, cfg)
    ensures TablesOk(MotionPresent(s, cfg, env), cfg)
  {
    var s1 := CancelSafe(s, s.offTimer);
    assert SameTables(s1, s);
    SwitchTables(s1, cfg, env);
    ApplyDimTables(s1, cfg, env);
  }

  /** Arming the auto-off or the motion re-automation timer leaves the tables alone. */
  lemma SchedulingKeepsTables(s: State, cfg: Config)
    ensures SameTables(ScheduleOff(s, cfg), s) && SameTables(ScheduleMotionReauto(s, cfg), s)
  {
  }

  lemma MotionReportTables(s: State, cfg: Config, env: Env, isOn: bool)
    requires TablesOk(s, cfg)
    ensures TablesOk(MotionReport(s, cfg, env, isOn), cfg)
  {
    var s1 := s.(presence := isOn);
    SchedulingKeepsTables(s1, cfg);
    if s.mode == Auto && isOn {
      MotionPresentTables(s1, cfg, env);
    }
  }

  lemma OnMotionTables(s: State, cfg: Config, env: Env, reported: Option<string>)
    requires TablesOk(s, cfg)
    ensures TablesOk(OnMotion(s, cfg, env, reported), cfg)
  {
    MotionReportTables(s, cfg, env, IsPresenceText(reported));
  }

  /** A power change leaves the tables alone. */
  lemma PowerChangeTables(s: State, cfg: Config, entity: string, newOn: bool, oldOn: bool)
    ensures SameTables(PowerChange(s, cfg, entity, newOn, oldOn), s)
  {
    if newOn && !oldOn && s.mode != ManualOn {
      var a := CancelSafe(s.(mode := ManualOn), s.offTimer);
      assert SameTables(a, s);
      TakeOverTables(a, cfg, entity);
    }
  }

  lemma OnLightPowerTables(s: State, cfg: Config, env: Env, entity: string, before: Option<string>, after: Option<string>)
    requires TablesOk(s, cfg)
    ensures TablesOk(OnLightPower(s, cfg, env, entity, before, after), cfg)
  {
    if !InBootGrace(s, cfg, env) {
      var v := CheckEcho(s.expectedEcho, entity, before, after, env.now);
      CheckEchoAddsNothing(s.expectedEcho, entity, before, after, env.now);
      PowerChangeTables(s.(expectedEcho := v.table), cfg, entity, IsOnText(after), IsOnText(before));
    }
  }

  lemma OnLightAttrTables(s: State, cfg: Config, env: Env, entity: string, attr: Attr, before: Option<real>, after: Option<real>)
    requires TablesOk(s, cfg)
    ensures TablesOk(OnLightAttr(s, cfg, env, entity, attr, before, after), cfg)
  {
    var s1 := if s.mode != ManualOn then CancelSafe(s.(mode := ManualOn), s.offTimer) else s;
    assert SameTables(s1, s);
    TakeOverTables(s1, cfg, entity);
  }

  lemma OnLuxTables(s: State, cfg: Config, env: Env)
    requires TablesOk(s, cfg)
    ensures TablesOk(OnLux(s, cfg, env), cfg)
  {
    SwitchTables(s, cfg, env);
    ApplyDimTables(s, cfg, env);
  }

  lemma OnMediaTables(s: State, cfg: Config, env: Env, reported: Option<string>)
    requires TablesOk(s, cfg)
    ensures TablesOk(OnMedia(s, cfg, env, reported), cfg)
  {
    var s1 := s.(mediaPlaying := Lower(reported.GetOr("")) == "playing");
    ApplyDimTables(s1, cfg, env);
  }

  lemma FireTables(s: State, cfg: Config, env: Env, cb: Callback)
    requires TablesOk(s, cfg)
    ensures TablesOk(Fire(s, cfg, env, cb), cfg)
  {
    match cb
    case AutoOffElapsed => SwitchTables(s, cfg, env);
    case ReautomateFromMotion => SwitchTables(s.(motionReautoTimer := None, mode := Auto), cfg, env);
    case ReautomateFromManualOff => SwitchTables(s.(mode := Auto), cfg, env);
    case AlResetTimer(e) =>
  }

  lemma StepTables(s: State, cfg: Config, env: Env, ev: Event)
    requires TablesOk(s, cfg)
    ensures TablesOk(Step(s, cfg, env, ev), cfg)
  {
    match ev
    case Motion(r) => OnMotionTables(s, cfg, env, r);
    case LightPower(e, b, a) => OnLightPowerTables(s, cfg, env, e, b, a);
    case LightAttr(e, at, b, a) => OnLightAttrTables(s, cfg, env, e, at, b, a);
    case LuxChanged => OnLuxTables(s, cfg, env);
    case MediaState(m) => OnMediaTables(s, cfg, env, m);
    case Press(b) => SwitchTables(s.(mode := Auto), cfg, env);
    case TimerFired(cb) => FireTables(s, cfg, env, cb);
  }

  lemma StepOk(s: State, cfg: Config, env: Env, ev: Event)
    requires Inv(s, cfg)
    ensures Inv(Step(s, cfg, env, ev), cfg)
  {
    StepTimers(s, cfg, env, ev);
    StepTables(s, cfg, env, ev);
  }

  /** Every state reachable from a fresh controller satisfies the invariant. */
  lemma {:induction false} RunOk(cfg: Config, t: real, ins: seq<Input>)
    ensures Inv(Run(Initial(t), cfg, ins), cfg)
  {
    if ins == [] {
      InitialInv(cfg, t);
    } else {
      RunOk(cfg, t, ins[..|ins| - 1]);
      var last := ins[|ins| - 1];
      StepOk(Run(Initial(t), cfg, ins[..|ins| - 1]), cfg, last.env, last.event);
    }
  }

  /** Whatever happens, a manual-off re-automation timer is never cancelled and
      never held in a slot: once a manual OFF is seen, automation will resume. */
  lemma ManualOffTimerNeverCancelled(cfg: Config, t: real, ins: seq<Input>, tok: Token, delay: real)
    requires StartTimer(tok, ReautomateFromManualOff, delay) in Run(Initial(t), cfg, ins).outbox
    ensures CancelTimer(tok) !in Run(Initial(t), cfg, ins).outbox
    ensures tok !in SlotTokens(Run(Initial(t), cfg, ins))
  {
    RunOk(cfg, t, ins);
    assert EffectOk(Run(Initial(t), cfg, ins), StartTimer(tok, ReautomateFromManualOff, delay));
  }

  // ---- Properties of the handlers ----

  /** During boot grace power and attribute reports change nothing at all. */
  lemma BootGraceIgnoresReports(s: State, cfg: Config, env: Env, e: string, b: Option<string>, a: Option<string>,
                                at: Attr, rb: Option<real>, ra: Option<real>)
    requires InBootGrace(s, cfg, env)
    ensures OnLightPower(s, cfg, env, e, b, a) == s
    ensures OnLightAttr(s, cfg, env, e, at, rb, ra) == s
  {
  }

  /** An echo of the controller's own command changes nothing but the logged
      flag of its expectation: not the mode, not a timer, no call. */
  lemma EchoChangesOnlyLoggedFlag(s: State, cfg: Config, env: Env, e: string, b: Option<string>, a: Option<string>)
    requires !InBootGrace(s, cfg, env)
    requires CheckEcho(s.expectedEcho, e, b, a, env.now).ignore
    ensures OnLightPower(s, cfg, env, e, b, a) == s.(expectedEcho := s.expectedEcho[e := s.expectedEcho[e].(logged := true)])
  {
  }

  /** Scheduling a reset only appends to the outbox and keeps the mode. */
  lemma AlScheduleResetExtends(s: State, cfg: Config, entity: string)
    ensures var r := AlScheduleReset(s, cfg, entity);
            && r.mode == s.mode
            && |s.outbox| <= |r.outbox| && r.outbox[..|s.outbox|] == s.outbox
  {
    var s1 := CancelSafe(s.(alManualTimers := s.alManualTimers - {entity}), Get(s.alManualTimers, entity));
    assert s1.outbox[..|s.outbox|] == s.outbox;
    var r := AlScheduleReset(s, cfg, entity);
    if r != s1 {
      assert r.outbox == s1.outbox + [StartTimer(s1.nextToken, AlResetTimer(entity), cfg.alManualResetSeconds.value as real)];
      assert r.outbox[..|s.outbox|] == s1.outbox[..|s.outbox|];
    }
  }

  /** Handing a light over only appends to the outbox and keeps the mode. */
  lemma TakeOverExtends(s: State, cfg: Config, entity: string)
    ensures var r := AlScheduleReset(AlSetManual(s, cfg, entity), cfg, entity);
            && r.mode == s.mode
            && |s.outbox| <= |r.outbox| && r.outbox[..|s.outbox|] == s.outbox
  {
    var d := AlSetManual(s, cfg, entity);
    assert d.outbox[..|s.outbox|] == s.outbox;
    AlScheduleResetExtends(d, cfg, entity);
    var r := AlScheduleReset(d, cfg, entity);
    assert r.outbox[..|s.outbox|] == r.outbox[..|d.outbox|][..|s.outbox|];
  }

  /** A manual switch-on (off to on, not an echo) enters `manual_on`; coming from
      another mode it cancels the pending auto-off. */
  lemma ManualOnDetected(s: State, cfg: Config, env: Env, e: string, b: Option<string>, a: Option<string>)
    requires !InBootGrace(s, cfg, env)
    requires !CheckEcho(s.expectedEcho, e, b, a, env.now).ignore
    requires IsOnText(a) && !IsOnText(b)
    ensures OnLightPower(s, cfg, env, e, b, a).mode == ManualOn
    ensures s.mode != ManualOn && s.offTimer.Some? ==> CancelTimer(s.offTimer.value) in OnLightPower(s, cfg, env, e, b, a).outbox
  {
    if s.mode != ManualOn && s.offTimer.Some? {
      var s1 := s.(expectedEcho := CheckEcho(s.expectedEcho, e, b, a, env.now).table);
      var c := CancelSafe(s1.(mode := ManualOn), s1.offTimer);
      assert c.outbox == s.outbox + [CancelTimer(s.offTimer.value)];
      TakeOverExtends(c, cfg, e);
      var r := AlScheduleReset(AlSetManual(c, cfg, e), cfg, e);
      assert r.outbox[|s.outbox|] == c.outbox[|s.outbox|];
    } else if s.mode != ManualOn {
      TakeOverExtends(CancelSafe(s.(expectedEcho := CheckEcho(s.expectedEcho, e, b, a, env.now).table, mode := ManualOn), s.offTimer), cfg, e);
    }
  }

  /** A manual switch-off (on to off, not an echo) from another mode enters
      `manual_off`, cancels the auto-off and starts the re-automation timer
      without keeping its handle: every slot is left as it was. */
  lemma ManualOffDetected(s: State, cfg: Config, env: Env, e: string, b: Option<string>, a: Option<string>)
    requires !InBootGrace(s, cfg, env)
    requires !CheckEcho(s.expectedEcho, e, b, a, env.now).ignore
    requires !IsOnText(a) && IsOnText(b) && s.mode != ManualOff
    ensures var r := OnLightPower(s, cfg, env, e, b, a);
            && r.mode == ManualOff
            && r.outbox == s.outbox + (if s.offTimer.Some? then [CancelTimer(s.offTimer.value)] else [])
                           + [StartTimer(s.nextToken, ReautomateFromManualOff, cfg.manualOffReautoDelay)]
            && r.offTimer == s.offTimer && r.motionReautoTimer == s.motionReautoTimer
            && r.alManualTimers == s.alManualTimers && r.nextToken == s.nextToken + 1
  {
  }

  /** Every re-automation path and an accepted button press end in `auto`. */
  lemma ReautomationSetsAuto(s: State, cfg: Config, env: Env, ev: ButtonEvent)
    ensures ReautoFromMotion(s, cfg, env).mode == Auto
    ensures ReautoFromManualOff(s, cfg, env).mode == Auto
    ensures ButtonAccepted(cfg, ev) ==> ButtonPress(s, cfg, env, ev).mode == Auto
  {
  }

  /** The manual-off timer forces `auto` whatever the mode is by the time it
      fires, including `manual_on` entered after it was armed. */
  lemma ManualOffTimerOverridesManualOn(s: State, cfg: Config, env: Env)
    requires s.mode == ManualOn
    ensures Fire(s, cfg, env, ReautomateFromManualOff).mode == Auto
  {
  }

  /** With no one present, both re-automation paths switch every light off even
      when OFF is blocked right now. */
  lemma ReautomationIgnoresOffBlock(s: State, cfg: Config, env: Env)
    requires !s.presence
    requires !Allowed(cfg, env, Off)
    ensures ReautoFromManualOff(s, cfg, env).outbox == s.outbox + OffCommands(cfg.lights)
    ensures ReautoFromMotion(s, cfg, env).outbox == s.outbox + OffCommands(cfg.lights)
  {
  }

  /** An accepted button press with presence in the dark turns the lights on
      even while ON is blocked. */
  lemma ButtonIgnoresOnBlock(s: State, cfg: Config, env: Env, ev: ButtonEvent)
    requires ButtonAccepted(cfg, ev) && s.presence && Dark(cfg, env)
    requires !Allowed(cfg, env, On)
    ensures ButtonPress(s, cfg, env, ev).outbox == s.outbox + OnCommands(cfg.lights, TurnOnLevels(cfg, s.mediaPlaying, env.al))
  {
  }

  /** Presence is taken from the sensor that fired alone: a clear report sets it
      false even while another sensor still reports presence, and then no
      auto-off is scheduled. */
  lemma PresenceFromFiringSensor(s: State, cfg: Config, env: Env, reported: Option<string>)
    requires s.mode == Auto && !IsPresenceText(reported)
    requires AnyMotionOn(cfg.motionEntities, env.states)
    ensures OnMotion(s, cfg, env, reported) == s.(presence := false)
  {
  }

  /** Motion in the dark with every light off, while ON is allowed, turns all
      lights on and expects an "on" echo from each of them. */
  lemma MotionTurnsLightsOn(s: State, cfg: Config, env: Env, reported: Option<string>, l: string)
    requires s.mode == Auto && IsPresenceText(reported)
    requires Allowed(cfg, env, On) && Dark(cfg, env) && !AnyLightOn(cfg.lights, env.states)
    requires l in cfg.lights
    ensures var r := OnMotion(s, cfg, env, reported);
            && r.presence
            && r.outbox == s.outbox + (if s.offTimer.Some? then [CancelTimer(s.offTimer.value)] else [])
                           + OnCommands(cfg.lights, TurnOnLevels(cfg, s.mediaPlaying, env.al))
            && Get(r.expectedEcho, l) == Some(Fresh(On, env.now, cfg.echoWindow, cfg.echoMaxWindow))
            && Get(r.lastCmd, l) == Some(LastCommand(On, env.now))
  {
    var s3 := CancelSafe(s.(presence := true), s.offTimer);
    MarkingCoversEveryLight(s3.expectedEcho, s3.lastCmd, cfg.lights, On, env.now, cfg.echoWindow, cfg.echoMaxWindow, l);
  }

  /** After the controller turns the lights on, each light's own "on" report
      within the echo window is ignored and leaves the mode alone. */
  lemma OwnTurnOnIsNotManual(s: State, cfg: Config, env: Env, env2: Env, l: string, b: Option<string>, a: Option<string>)
    requires l in cfg.lights && Matches(On, b, a)
    requires var s1 := TurnOn(s, cfg, env); !InBootGrace(s1, cfg, env2)
    requires env2.now <= EchoUntil(env.now, cfg.echoWindow, cfg.echoMaxWindow)
    ensures OnLightPower(TurnOn(s, cfg, env), cfg, env2, l, b, a).mode == s.mode
    ensures OnLightPower(TurnOn(s, cfg, env), cfg, env2, l, b, a).outbox == TurnOn(s, cfg, env).outbox
  {
    MarkedEchoIsIgnored(s.expectedEcho, cfg.lights, On, env.now, cfg.echoWindow, cfg.echoMaxWindow, l, b, a, env2.now);
  }

  /** Media dimming neither marks echoes nor records a last command. */
  lemma DimmingMarksNoEcho(s: State, cfg: Config, env: Env)
    ensures ApplyDim(s, cfg, env).expectedEcho == s.expectedEcho
    ensures ApplyDim(s, cfg, env).lastCmd == s.lastCmd
    ensures ApplyDim(s, cfg, env).mode == s.mode
  {
  }

  /** A meaningful manual tweak of a lit light, that neither follows the
      controller's own command nor looks like Adaptive Lighting, enters
      `manual_on` and hands the light to manual control. */
  lemma TweakEntersManualOn(s: State, cfg: Config, env: Env, e: string, at: Attr, b: Option<real>, a: Option<real>)
    requires !InBootGrace(s, cfg, env)
    requires !RecentAppChange(s.lastCmd, e, env.now, MaxReal(cfg.echoWindow, 3.0))
    requires !IsChangeLikeAl(cfg.alSwitch, CurrentTargets(cfg.alSwitch, cfg.alAdaptBrightness, cfg.alAdaptColor, env.al), at, a)
    requires ChangedMeaningfully(at, b, a) && IsOnText(Get(env.states, e))
    requires Configured(cfg.alSwitch) && cfg.alTakeOverOnManual
    ensures OnLightAttr(s, cfg, env, e, at, b, a).mode == ManualOn
    ensures Call(AlSetManualControl(cfg.alSwitch.value, [e])) in OnLightAttr(s, cfg, env, e, at, b, a).outbox
  {
    var s1 := if s.mode != ManualOn then CancelSafe(s.(mode := ManualOn), s.offTimer) else s;
    var d := AlSetManual(s1, cfg, e);
    assert d.outbox == s1.outbox + [Call(AlSetManualControl(cfg.alSwitch.value, [e]))];
    AlScheduleResetExtends(d, cfg, e);
    var r := AlScheduleReset(d, cfg, e);
    assert r.outbox[|s1.outbox|] == r.outbox[..|d.outbox|][|s1.outbox|];
  }
  /** A call that switches an entity off. */
  predicate SwitchesOff(e: Effect) {
    e.Call? && (e.command.LightTurnOff? || e.command.SwitchTurnOff?)
  }

  /** `_auto_off_elapsed` always forgets the auto-off handle and changes no mode:
      it switches every light off exactly when the mode is `auto`, nobody is
      present and OFF is allowed, otherwise it issues nothing, and it never
      switches anything on. */
  lemma AutoOffBehaviour(s: State, cfg: Config, env: Env)
    ensures var r := AutoOff(s, cfg, env);
            && r.offTimer.None? && r.mode == s.mode && r.presence == s.presence
            && r.motionReautoTimer == s.motionReautoTimer && r.nextToken == s.nextToken
            && r.outbox == s.outbox + (if s.mode == Auto && !s.presence && Allowed(cfg, env, Off) then OffCommands(cfg.lights) else [])
            && forall i :: |s.outbox| <= i < |r.outbox| ==> SwitchesOff(r.outbox[i])
  {
    var r := AutoOff(s, cfg, env);
    forall i | |s.outbox| <= i < |r.outbox|
      ensures SwitchesOff(r.outbox[i])
    {
      assert r.outbox[i] == OffCommands(cfg.lights)[i - |s.outbox|];
    }
  }

  /** `_on_lux_changed` never changes the mode, presence or any timer, only
      appends to the outbox, and does nothing at all unless the mode is `auto`,
      someone is present and it is dark. */
  lemma OnLuxKeepsControl(s: State, cfg: Config, env: Env)
    ensures var r := OnLux(s, cfg, env);
            && r.mode == s.mode && r.presence == s.presence
            && r.offTimer == s.offTimer && r.motionReautoTimer == s.motionReautoTimer
            && r.alManualTimers == s.alManualTimers && r.nextToken == s.nextToken
            && |s.outbox| <= |r.outbox| && r.outbox[..|s.outbox|] == s.outbox
            && (!(s.mode == Auto && s.presence && Dark(cfg, env)) ==> r == s)
  {
  }

  /** With `auto`, presence, darkness, every light off and ON allowed, a lux
      report switches all lights on. */
  lemma OnLuxTurnsOn(s: State, cfg: Config, env: Env)
    requires s.mode == Auto && s.presence && Dark(cfg, env)
    requires !AnyLightOn(cfg.lights, env.states) && Allowed(cfg, env, On)
    ensures OnLux(s, cfg, env).outbox == s.outbox + OnCommands(cfg.lights, TurnOnLevels(cfg, s.mediaPlaying, env.al))
  {
  }

  /** A lux report never switches a light off. */
  /** A turn-on's calls switch nothing off. */
  lemma OnCommandsSwitchNothingOff(ls: seq<string>, lv: Levels)
    ensures forall i :: 0 <= i < |OnCommands(ls, lv)| ==> !SwitchesOff(OnCommands(ls, lv)[i])
  {
    forall i | 0 <= i < |OnCommands(ls, lv)| ensures !SwitchesOff(OnCommands(ls, lv)[i]) {
      assert OnCommands(ls, lv)[i] == OnCommandFor(ls[i], lv);
    }
  }

  lemma OnLuxNeverSwitchesOff(s: State, cfg: Config, env: Env)
    ensures var r := OnLux(s, cfg, env);
            forall i :: |s.outbox| <= i < |r.outbox| ==> !SwitchesOff(r.outbox[i])
  {
    var r := OnLux(s, cfg, env);
    OnLuxKeepsControl(s, cfg, env);
    var added := r.outbox[|s.outbox|..];
    assert r.outbox == s.outbox + added;
    if r != s {
      if !AnyLightOn(cfg.lights, env.states) {
        var lv := TurnOnLevels(cfg, s.mediaPlaying, env.al);
        assert added == OnCommands(cfg.lights, lv);
        OnCommandsSwitchNothingOff(cfg.lights, lv);
      } else {
        BrightnessCommandsExactly(cfg.lights, cfg.mediaDimPct.value);
        assert added == BrightnessCommands(cfg.lights, cfg.mediaDimPct.value);
        forall i | 0 <= i < |added| ensures !SwitchesOff(added[i]) {
          assert added[i] in added;
        }
      }
    }
    forall i | |s.outbox| <= i < |r.outbox| ensures !SwitchesOff(r.outbox[i]) {
      assert r.outbox[i] == added[i - |s.outbox|];
    }
  }

  /** Outside `auto` a media report only records whether media is playing. */
  lemma MediaOutsideAuto(s: State, cfg: Config, env: Env, reported: Option<string>)
    requires s.mode != Auto
    ensures OnMedia(s, cfg, env, reported) == s.(mediaPlaying := Lower(reported.GetOr("")) == "playing")
  {
  }

  /** In `auto`, media stopping while a light is on restores the levels saved
      before dimming and empties the table. */
  lemma MediaStopRestores(s: State, cfg: Config, env: Env, reported: Option<string>)
    requires s.mode == Auto && Lower(reported.GetOr("")) != "playing"
    requires AnyLightOn(cfg.lights, env.states)
    ensures var r := OnMedia(s, cfg, env, reported);
            && !r.mediaPlaying && r.beforeMedia == [] && r.mode == Auto
            && r.outbox == s.outbox + Restore(s.beforeMedia, cfg.lights, cfg.autoBrightnessPct).commands
  {
  }

  /** Motion while in `manual_on` keeps the mode and (re)arms the quick
      re-automation under a fresh token, cancelling the previous one; any other
      report outside `auto` only records presence. */
  lemma MotionOutsideAuto(s: State, cfg: Config, env: Env, reported: Option<string>)
    requires s.mode != Auto
    ensures var r := OnMotion(s, cfg, env, reported);
            && r.mode == s.mode && r.presence == IsPresenceText(reported)
            && (s.mode == ManualOn && IsPresenceText(reported) ==>
                  && r.motionReautoTimer == Some(s.nextToken) && r.nextToken == s.nextToken + 1
                  && r.offTimer == s.offTimer
                  && r.outbox == s.outbox + (if s.motionReautoTimer.Some? then [CancelTimer(s.motionReautoTimer.value)] else [])
                                 + [StartTimer(s.nextToken, ReautomateFromMotion, cfg.motionReautoSeconds)])
            && (!(s.mode == ManualOn && IsPresenceText(reported)) ==> r == s.(presence := IsPresenceText(reported)))
  {
  }

  /** In `auto`, a clear report when no sensor reports presence any more
      schedules the auto-off under a fresh token, cancelling the previous one,
      when OFF is allowed; when OFF is blocked it only records the absence. */
  lemma PresenceClearsSchedulesOff(s: State, cfg: Config, env: Env, reported: Option<string>)
    requires s.mode == Auto && !IsPresenceText(reported)
    requires !AnyMotionOn(cfg.motionEntities, env.states)
    ensures var r := OnMotion(s, cfg, env, reported);
            && (Allowed(cfg, env, Off) ==>
                  && r.mode == Auto && !r.presence
                  && r.offTimer == Some(s.nextToken) && r.nextToken == s.nextToken + 1
                  && r.outbox == s.outbox + (if s.offTimer.Some? then [CancelTimer(s.offTimer.value)] else [])
                                 + [StartTimer(s.nextToken, AutoOffElapsed, cfg.delayOff)])
            && (!Allowed(cfg, env, Off) ==> r == s.(presence := false))
  {
  }

  /** `_al_reset_timer_cb` forgets the light's reset timer, keeps every other
      one, and hands the light back to Adaptive Lighting when a switch is
      configured; nothing else changes. */
  lemma AlResetFiredBehaviour(s: State, cfg: Config, entity: string)
    ensures var r := AlResetFired(s, cfg, entity);
            && r.alManualTimers == s.alManualTimers - {entity}
            && r.outbox == s.outbox + (if Configured(cfg.alSwitch) then [Call(AlReset(cfg.alSwitch.value, [entity]))] else [])
            && r.(alManualTimers := s.alManualTimers, outbox := s.outbox) == s
  {
  }
}
