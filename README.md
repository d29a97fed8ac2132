# Lighting automation controller, modelled in Dafny

This project models the per-zone lighting controller `LightController` of
`apps/lights.py`, an AppDaemon app for Home Assistant, and the status roll-up
`LightAutomationManager._refresh` of the same file.

A zone has lights (`light.*` and `switch.*` entities) and presence sensors, and
optionally a lux sensor, media players and an Adaptive Lighting switch. The
controller switches the lights on when someone is present in the dark, and off
a while after presence clears. It steps back when a person switches or adjusts
a light by hand (`manual_on` / `manual_off`). It returns to `auto` through a
quick re-automation on motion, a long timer after a manual switch-off, or a
button. It suppresses automatic ON and/or OFF inside configured quiet-hour
windows. It tells its own commands' echoes apart from a person at the wall
switch, and dims `light.*` lights while media plays, restoring them afterwards.

The model has three layers:

- **Pure rules**, one module each:
  - `BlockWindows`: `_norm_actions`, `_parse_hhmm`, `_within_window`,
    `_blocked_now` and `_automation_allowed`.
  - `Adaptive`: `_mireds_to_kelvin`, `_al_current_targets`,
    `_al_is_change_like_al` and `_changed_meaningfully`.
  - `EchoGuard`: the echo and last-command tables.
  - `MediaDim`: the pre-dim table, dimming and restore.
  - `Control`: `_turn_on`'s brightness and colour choice, and its per-entity
    calls.
  - `Settings`: the typed configuration, the event readings, darkness and
    presence.
  - `Text` and `Numeric`: the Python string and number conversions these rely
    on.
- **`Transitions`**: the controller as a state machine on values.
  - A `State` record holds what the controller owns.
  - There is one function per event handler and timer callback, plus `Step`
    (one event) and `Run` (a sequence of events).
  - The invariant `Inv` is proved to hold in every reachable state. Every
    issued timer token was handed out. The manual-off re-automation timer is
    never held in a slot and never cancelled. The tables only ever hold
    configured lights.
  - The behaviours the source documents are proved as lemmas about the
    handlers.
- **`Lights.LightController`**: a class with the source's fields, updated in
  place.
  - It has one method per handler and helper. Each method is proved to end in
    exactly the state the matching `Transitions` function computes. Those
    functions are the specification the class is proved against, and the
    lemmas about them state the behaviour.
  - `Handle` dispatches one event and keeps `Valid()`, which is `Inv` of the
    fields.
  - `Manager.LightAutomationManager` is the manager's class. Its `_refresh`
    loop is proved equal to the fold `Manager.Buttons`.

Effects on Home Assistant are appended to the `outbox`, oldest first:

- service calls;
- timer starts (`run_in`), each under a fresh token;
- timer cancellations.

Readings are passed in as an `Env`: the clock, the minute of the day, the
weekday, entity states, brightness, lux and Adaptive Lighting attributes.

Timer slots behave as in the source. `_cancel_timer_safe` cancels but does not
clear the attribute, so a slot keeps its stale token until it is overwritten.
The manual-off re-automation handle is not stored anywhere.

Several behaviours of the code as written are modelled as they are, with
lemmas that state them:

- `_presence` is taken from the sensor that fired alone.
- Lights keep duplicates; motion sensors are de-duplicated in order.
- Both re-automation paths switch off without checking an OFF block.
- The button checks no block.
- Media dimming marks no echo.
- A missing `brightness_pct` makes the raw 0-255 `brightness` the
  Adaptive Lighting percentage.
- A block window whose actions are only `on` or only `off` blocks nothing. Its
  reason text starts with the bare word, and `_automation_allowed` searches
  for the word after a blank.

## Model

| member | source | states |
|---|---|---|
| Common.AsList | apps/lights.py:10-15 | `_as_list`: the list holds exactly the values the entry names; a list is kept as it is, with its order and repetitions, and a missing or single value gives at most one element |
| Common.Dedup | apps/lights.py:34 | `list(dict.fromkeys(...))` has no repetitions, the same elements as its input, and is no longer |
| Common.DedupKeepsFirstOccurrenceOrder | apps/lights.py:34 | the distinct elements appear in the order of their first occurrences |
| Common.DedupOfDistinct | apps/lights.py:34 | a list without repetitions is returned unchanged |
| Common.AssignLookup | apps/lights.py:298-300 | after the assignment loop every listed key maps to the new value and every other key keeps its entry or its absence |
| Text.LowerMeaning | apps/lights.py:198 | `lower()` turns each upper-case letter into the same letter in lower case and keeps every other character: no upper-case letter is left, and text without one is unchanged |
| Text.LowerIdempotent | apps/lights.py:198 | lower-casing twice is lower-casing once |
| Text.StripShape | apps/lights.py:198 | `str.strip()` leaves text that neither starts nor ends with white space |
| Text.StripUnpadded | apps/lights.py:198 | text without surrounding white space is left unchanged by `strip()` |
| Text.SplitTwoFields | apps/lights.py:205 | `"a:b".split(":")` gives exactly the two fields when neither contains a colon |
| Text.TwoDigitsRoundTrip | apps/lights.py:206 | `int()` reads a zero-padded two-digit field back as the number it was written from |
| Numeric.Trunc | apps/lights.py:355 | `int(x)` on a float truncates toward zero: the result is within one of `x`, on the side of zero |
| Numeric.RoundHalfEven | apps/lights.py:339 | `round(x)` is within one half of `x`, and a tie goes to the even integer |
| Numeric.RoundHalfEvenUnique | apps/lights.py:339 | only one integer meets the two properties of `round`, so they define it |
| Numeric.Clamp | apps/lights.py:636 | `max(1, min(100, v))` lies in the range and keeps a value already in range |
| BlockWindows.NormActions | apps/lights.py:193-201 | `True` gives both actions and `False` none; a string is accepted exactly when, stripped and lower-cased, it is `on`, `off` or `on_off`, and then names that action; anything else is no setting |
| BlockWindows.NormActionsRoundTrip | apps/lights.py:193-201 | each action word normalises back to the action it names |
| BlockWindows.NormActionsExamples | apps/lights.py:193-201 | " ON " and "On_Off\n" are accepted, "both" is not, `True` gives both actions and `False` none |
| BlockWindows.ParseHHMMOfFields | apps/lights.py:203-209 | two fields that `int()` accepts give hours times sixty plus minutes |
| BlockWindows.ParseClockText | apps/lights.py:203-209 | parsing "HH:MM" gives the minute of the day back, with no range check on hours or minutes |
| BlockWindows.WithinWindow | apps/lights.py:215-222 | no bound or equal bounds match nothing |
| BlockWindows.SameDayWindowIsHalfOpen | apps/lights.py:215-222 | with start < end the window matches exactly [start, end) |
| BlockWindows.WrappingIsComplement | apps/lights.py:215-222 | with start > end the window wraps past midnight: it matches exactly what the swapped same-day window does not |
| BlockWindows.NightWindowExamples | apps/lights.py:215-222 | 22:00-07:00 matches 23:30, 00:00 and 06:59 but not 07:00 or 21:59; 07:00-07:00 matches nothing |
| BlockWindows.DefaultActions | apps/lights.py:83 | a boolean or missing `block_actions` defaults to `on_off`, since `False` normalises to nothing; a word gives the action it names, or `on_off` when it names none |
| BlockWindows.DayKeys | apps/lights.py:232 | one key per listed day: its first three characters (the whole day when shorter), lower-cased |
| BlockWindows.DayKeysExample | apps/lights.py:232 | "Monday", "TUE" and "sa" give the keys "mon", "tue" and "sa" |
| BlockWindows.OtherDayWindowSkipped | apps/lights.py:232-233 | a window whose days do not include today's three-letter weekday never matches |
| BlockWindows.WindowReason | apps/lights.py:236-237 | a matching window's reason starts with its action word followed by a blank |
| BlockWindows.LegacyBlocked | apps/lights.py:239-242 | the quiet_start/quiet_end pair can only block when both bounds are non-empty |
| BlockWindows.FirstMatchWins | apps/lights.py:226-237 | windows are scanned in order and the first matching one decides the result |
| BlockWindows.NoWindowMatches | apps/lights.py:224-244 | with no matching window the legacy pair decides, else nothing is blocked |
| BlockWindows.BlockedNow | apps/lights.py:224-244 | the loop with its `continue`s and early return computes the specified block result |
| BlockWindows.AutomationAllowed | apps/lights.py:246-257 | nothing blocked means allowed |
| BlockWindows.OnOffWindowBlocksBoth | apps/lights.py:246-257 | a window with actions `on_off` blocks both ON and OFF |
| BlockWindows.SingleActionWindowBlocksNothing | apps/lights.py:236-257 | a window with actions just `on` or just `off` (and clock-like bounds) blocks neither action, as written |
| Adaptive.MiredsToKelvin | apps/lights.py:335-342 | None exactly for a missing or non-positive value, otherwise within one half of 1,000,000 / mireds |
| Adaptive.MiredsExamples | apps/lights.py:335-342 | 250 mireds is 4000 K and 153 mireds is 6536 K |
| Adaptive.MiredsToKelvinAntitone | apps/lights.py:335-342 | more mireds never gives more Kelvin |
| Adaptive.CurrentTargets | apps/lights.py:349-368 | without a switch there are no targets; with one, `brightness_pct` and `color_temp_kelvin` are passed through, a missing `brightness_pct` falls back to `int(brightness)`, and nothing reported gives no target; a configured adapt flag wins, else the switch's attribute, else true |
| Adaptive.RawBrightnessTakenAsPercent | apps/lights.py:352-356 | without `brightness_pct` the raw 0-255 brightness, truncated, is the target percentage unscaled: any raw value of 101 or more gives a target above 100, and 255 gives 255 |
| Adaptive.ColorTargetFromMireds | apps/lights.py:357-361 | without `color_temp_kelvin`, a positive `color_temp` gives the rounded Kelvin target and a non-positive one gives none |
| Adaptive.ChangedMeaningfully | apps/lights.py:554-566 | a brightness (raw or percent) or mired value counts as changed exactly when it moved by at least 5, a Kelvin value when it moved by at least 100 K (missing values read as 0); any other attribute always counts |
| Adaptive.ChangedMeaningfullyProperties | apps/lights.py:554-566 | the test is symmetric, a value that did not move never counts, and a missing value is read as 0 |
| Adaptive.ObservedPct | apps/lights.py:417-422 | an observed brightness exists exactly when the report has a value |
| Adaptive.ObservedKelvin | apps/lights.py:426-431 | an observed Kelvin report exists exactly when the report has a value |
| Adaptive.IsChangeLikeAl | apps/lights.py:411-436 | true only with a switch, for a brightness or colour attribute, with a target and a reported value |
| Adaptive.PercentReportBand | apps/lights.py:411-425 | with a switch and a brightness target, a `brightness_pct` report looks like the service exactly when the whole parts of report and target differ by at most 3 |
| Adaptive.KelvinReportBand | apps/lights.py:411-433 | with a switch and a colour target, a `color_temp_kelvin` report looks like the service exactly when the whole parts of report and target differ by at most 150 K |
| Adaptive.FortyToFortyTwoIsAdaptation | apps/lights.py:416-424 | target 40 %: a move to 42 % looks like the service, a move to 44 % does not |
| Adaptive.RawBrightnessBand | apps/lights.py:416-424 | for raw 0-255 reports, within 2.5 points of the target always matches and beyond 3.5 points never does |
| Adaptive.MiredsBand | apps/lights.py:425-432 | for mired reports, within 149.5 K of the target always matches and beyond 150.5 K never does; non-positive reports never match |
| EchoGuard.EchoUntil | apps/lights.py:297 | the echo deadline is `now + echo_window` capped at `now + echo_max_window` |
| EchoGuard.MarkingCoversEveryLight | apps/lights.py:295-300 | every configured light gets a fresh unlogged expectation and a last command at `now`; other entities are untouched |
| EchoGuard.CheckEcho | apps/lights.py:302-323 | ignored exactly when an expectation exists, has not expired and the report goes in its direction; expired entries are evicted, a match sets `logged` and keeps the entry, anything else leaves the table |
| EchoGuard.MarkedEchoIsIgnored | apps/lights.py:295-323 | after marking, a marked light's matching report is ignored until the deadline |
| EchoGuard.RepeatedEchoStaysSuppressed | apps/lights.py:311-315 | the same report again before the deadline is ignored again and changes nothing more |
| EchoGuard.ExpiredNeverIgnored | apps/lights.py:307-309 | an expired expectation never suppresses a report and is removed |
| EchoGuard.CheckEchoIsLocal | apps/lights.py:302-323 | only the reporting entity's entry can change |
| EchoGuard.CheckEchoAddsNothing | apps/lights.py:302-323 | the check never adds an expectation |
| EchoGuard.WrongDirectionUntouched | apps/lights.py:312-323 | an on-to-off report while "on" is expected is not ignored and leaves the table as it was |
| EchoGuard.RecentAfterMarking | apps/lights.py:325-333 | after marking, a light counts as recently commanded exactly until the grace period ends |
| Control.TurnOnTargets | apps/lights.py:441-446 | without a switch whose targets are used, there are no targets and both adapt flags are on |
| Control.TurnOnLevels | apps/lights.py:441-465 | with media playing and a dim level configured the brightness is that level; any other brightness than the dim or auto level, and any colour temperature, comes from an Adaptive Lighting switch whose targets are used; the colour temperature sent is the target's, truncated, exactly when a target exists and colour adaptation holds, and none otherwise |
| Control.BrightnessPrecedence | apps/lights.py:448-455 | media dim level first, then auto brightness, then the adapted Adaptive Lighting target, truncated |
| Control.NoAdaptiveLightingNoTargets | apps/lights.py:441-464 | without Adaptive Lighting targets no colour temperature is sent and the brightness comes from the configuration alone |
| Control.ColorAdaptationOff | apps/lights.py:464-465 | with colour adaptation configured off no colour temperature is sent |
| Control.ReportedKelvinSent | apps/lights.py:443-465 | with a switch whose targets are used and that reports a kelvin value, a turn-on sends that value truncated, unless colour adaptation is off in the configuration or, if unset there, on the switch |
| Control.OnCommands | apps/lights.py:457-466 | one call per configured entity, in order |
| Control.OffCommands | apps/lights.py:471-475 | one call per configured entity, in order |
| Control.DomainsRespected | apps/lights.py:457-475 | `switch.*` entities get switch calls without levels, others get light calls, each addressed to the entity itself |
| MediaDim.PreDimPct | apps/lights.py:633-636 | a saved level exists exactly when the light reports a brightness, and lies between 1 and 100 |
| MediaDim.PreDimPctIsNearestPercent | apps/lights.py:633-636 | within range the saved level is the brightness as the nearest percentage |
| MediaDim.PreDimPctExamples | apps/lights.py:633-636 | 204 saves 80 %, 153 saves 60 %, 255 saves 100 % and 0 is clamped to 1 % |
| MediaDim.BrightnessCommandsExactly | apps/lights.py:625-644 | the dimming calls go exactly to the configured `light.*` lights, at the dim level, without colour |
| MediaDim.BrightnessCommandsNone | apps/lights.py:628-630 | without a `light.*` light no call is made |
| MediaDim.CaptureKeys | apps/lights.py:628-637 | dimming adds exactly the `light.*` lights to the table |
| MediaDim.CaptureExtends | apps/lights.py:632-637 | dimming only appends: saved levels are never overwritten |
| MediaDim.CaptureNoop | apps/lights.py:632-637 | a table that holds every light already is left unchanged |
| MediaDim.CaptureIdempotent | apps/lights.py:625-644 | dimming again records nothing new, whatever the brightness then |
| MediaDim.CaptureWellFormed | apps/lights.py:625-644 | the table keeps one entry per light, all of them configured `light.*` lights |
| MediaDim.CaptureRecordsLevel | apps/lights.py:632-637 | a light seen for the first time is saved at its current level |
| MediaDim.RestoreReplaysSaved | apps/lights.py:653-658 | restore re-sends exactly the saved non-None levels, and nothing else |
| MediaDim.Restore | apps/lights.py:646-661 | the table is empty after restore |
| MediaDim.SecondRestore | apps/lights.py:646-661 | a second restore in a row issues nothing exactly when no auto brightness is configured or no light is a `light.*` entity |
| MediaDim.DimThenRestoreScenario | apps/lights.py:625-661 | two lights at 204 and 153 dimmed to 20 % are saved at 80 % and 60 %, and restore sends those two levels back |
| Settings.LoadLights | apps/lights.py:24-27 | `light` wins when truthy; an empty result is the configuration error |
| Settings.LoadLightsFails | apps/lights.py:24-27 | loading fails exactly when neither key gives a non-empty list |
| Settings.LoadLightsListsEveryLight | apps/lights.py:24-27 | the controlled lights are exactly those named by `light` when it is truthy, else by `lights` |
| Settings.LoadLightsKeepsDuplicates | apps/lights.py:25 | a light listed twice stays listed twice |
| Settings.PresenceLists | apps/lights.py:30-32 | exactly the presence entities of the triggers are collected |
| Settings.MotionEntities | apps/lights.py:29-34 | the motion sensors are those presence entities, without repetitions |
| Settings.MotionEntitiesOrder | apps/lights.py:34 | each sensor keeps the position of its first mention |
| Settings.ManualResetSeconds | apps/lights.py:63-68 | missing is 900, null is no reset period, a number is truncated, and text is read by `int()` with 900 when that fails |
| Settings.ManualResetSecondsFromText | apps/lights.py:63-68 | a two-digit text is read as its number, and a word gives 900 |
| Settings.IsDarkEnough | apps/lights.py:259-272 | without the darkness option, a lux sensor, a reading or a threshold it is dark enough, and so is any reading at or below the threshold |
| Settings.TooBrightExactly | apps/lights.py:259-272 | only a reading above the threshold, with the darkness option, a sensor and a threshold, is too bright |
| Settings.DarkIsMonotone | apps/lights.py:259-272 | a lower reading is never less dark |
| Settings.OnIsPresence | apps/lights.py:274-284 | a light's "on" is a presence state; a missing state is neither |
| Transitions.InitialInv | apps/lights.py:47-75 | the state after `initialize` satisfies the invariant |
| Transitions.StepOk | apps/lights.py:483-709 | every handler and timer callback preserves the invariant |
| Transitions.RunOk | apps/lights.py:483-709 | every state reachable from a fresh controller satisfies the invariant |
| Transitions.ManualOffTimerNeverCancelled | apps/lights.py:543-550 | a started manual-off re-automation timer is never cancelled and never held in a slot |
| Transitions.BootGraceIgnoresReports | apps/lights.py:526-529 | during boot grace power and attribute reports change nothing |
| Transitions.EchoChangesOnlyLoggedFlag | apps/lights.py:530-531 | an echo changes only the logged flag of its expectation: no mode change, timer or call |
| Transitions.ManualOnDetected | apps/lights.py:536-542 | a manual switch-on enters `manual_on`, cancelling the pending auto-off when coming from another mode |
| Transitions.ManualOffDetected | apps/lights.py:543-550 | a manual switch-off enters `manual_off`, cancels the auto-off and starts the re-automation timer without storing its handle |
| Transitions.AlScheduleResetExtends | apps/lights.py:396-403 | scheduling a reset keeps the mode and only appends to what was issued |
| Transitions.TakeOverExtends | apps/lights.py:370-403 | handing a light to manual control keeps the mode and only appends |
| Transitions.TweakEntersManualOn | apps/lights.py:568-591 | a meaningful manual tweak of a lit light, not just after a command and not like Adaptive Lighting, enters `manual_on` and tells Adaptive Lighting |
| Transitions.PresenceFromFiringSensor | apps/lights.py:494-495 | a clear report sets presence false even while another sensor reports presence |
| Transitions.MotionTurnsLightsOn | apps/lights.py:493-517 | motion in the dark with all lights off, ON allowed, turns every light on and expects an "on" echo from each |
| Transitions.OwnTurnOnIsNotManual | apps/lights.py:526-531 | each light's own "on" report after the controller's turn-on is ignored |
| Transitions.DimmingMarksNoEcho | apps/lights.py:625-642 | media dimming marks no echo, records no last command and keeps the mode |
| Transitions.ReautomationSetsAuto | apps/lights.py:664-709 | both re-automation paths and an accepted button press end in `auto` |
| Transitions.ManualOffTimerOverridesManualOn | apps/lights.py:678-679 | the manual-off timer forces `auto` even from `manual_on` |
| Transitions.ReautomationIgnoresOffBlock | apps/lights.py:664-689 | without presence both re-automation paths switch every light off even while OFF is blocked |
| Transitions.AutoOffBehaviour | apps/lights.py:483-491 | the auto-off timer always forgets its handle and keeps the mode; it switches every light off exactly when the mode is `auto`, nobody is present and OFF is allowed, otherwise issues nothing, and never switches anything on |
| Transitions.OnLuxKeepsControl | apps/lights.py:593-608 | a lux report never changes the mode, presence or a timer, only appends to the outbox, and changes nothing unless the mode is `auto`, someone is present and it is dark |
| Transitions.OnLuxTurnsOn | apps/lights.py:599-602 | in `auto` with presence, darkness, every light off and ON allowed, a lux report switches all lights on |
| Transitions.OnLuxNeverSwitchesOff | apps/lights.py:593-608 | a lux report never issues a switch-off |
| Transitions.MediaOutsideAuto | apps/lights.py:610-615 | outside `auto` a media report only records whether media is playing |
| Transitions.MediaStopRestores | apps/lights.py:620-622 | in `auto`, media stopping while a light is on replays the saved levels (or the auto brightness) and empties the table |
| Transitions.MotionOutsideAuto | apps/lights.py:494-503 | outside `auto` a motion report keeps the mode and records presence; presence during `manual_on` also cancels and re-arms the quick re-automation under a fresh token |
| Transitions.PresenceClearsSchedulesOff | apps/lights.py:518-522 | in `auto`, a clear report with no sensor reporting presence cancels and re-arms the auto-off under a fresh token when OFF is allowed, and only records the absence when OFF is blocked |
| Transitions.AlResetFiredBehaviour | apps/lights.py:405-409 | the reset timer forgets the light's handle, keeps every other one, and resets Adaptive Lighting for that light when a switch is configured; nothing else changes |
| Transitions.ButtonIgnoresOnBlock | apps/lights.py:691-709 | an accepted button press with presence in the dark turns the lights on even while ON is blocked |
| Lights.LightController.constructor | apps/lights.py:19-89 | a fresh controller holds the initial state and is valid |
| Lights.LightController.CancelTimerSafe | apps/lights.py:286-293 | a cancel is issued when there is a handle; the slot is not cleared |
| Lights.LightController.RunIn | apps/lights.py:480 | a timer starts under the next fresh token, which is returned |
| Lights.LightController.AutomationAllowedNow | apps/lights.py:246-257 | the answer is the specified one for the current block result |
| Lights.LightController.AnyLightOn | apps/lights.py:274-278 | true exactly when some configured light reports "on" |
| Lights.LightController.AnyMotionOn | apps/lights.py:280-284 | true exactly when some motion sensor reports a presence state |
| Lights.LightController.MarkExpectedEcho | apps/lights.py:295-300 | the two tables become exactly the marked tables; nothing else changes |
| Lights.LightController.IgnoreIfExpectedEcho | apps/lights.py:302-323 | the answer and the new echo table are those of the specified check; nothing else changes |
| Lights.LightController.TurnOn | apps/lights.py:439-467 | marks the "on" echo, then issues the specified call per entity |
| Lights.LightController.TurnOff | apps/lights.py:469-476 | marks the "off" echo, then issues the specified call per entity |
| Lights.LightController.ScheduleOff | apps/lights.py:478-481 | cancels the old auto-off and stores a fresh one |
| Lights.LightController.ScheduleMotionReauto | apps/lights.py:497-499 | cancels the old quick re-automation and stores a fresh one |
| Lights.LightController.ApplyMediaDimming | apps/lights.py:625-644 | the pre-dim table and the calls become the specified ones |
| Lights.LightController.SendAutoBrightness | apps/lights.py:647-652 | the auto brightness goes to every `light.*` light |
| Lights.LightController.ReplaySaved | apps/lights.py:653-658 | the saved levels are replayed in table order |
| Lights.LightController.RestoreFromMedia | apps/lights.py:646-661 | the state becomes the specified restore result |
| Lights.LightController.AlTakeOver | apps/lights.py:370-381 | Adaptive Lighting is told to stop adapting the light, when a switch and take-over are configured |
| Lights.LightController.AlScheduleResetFor | apps/lights.py:396-403 | the light's old reset timer is dropped and cancelled, and a new one stored unless the period is unset or zero |
| Lights.LightController.TakeOver | apps/lights.py:539-540 | the two Adaptive Lighting steps, in order |
| Lights.LightController.MotionPresent | apps/lights.py:509-517 | the presence branch of `_on_motion` ends in the specified state |
| Lights.LightController.MotionReport | apps/lights.py:495-524 | `_on_motion` after the report is read ends in the specified state |
| Lights.LightController.OnMotion | apps/lights.py:493-524 | `_on_motion` ends in the specified state |
| Lights.LightController.OnLightPower | apps/lights.py:526-552 | `_on_light_power` ends in the specified state |
| Lights.LightController.OnLightAttr | apps/lights.py:568-591 | `_on_light_attr` ends in the specified state |
| Lights.LightController.OnLuxChanged | apps/lights.py:593-608 | `_on_lux_changed` ends in the specified state |
| Lights.LightController.OnMediaState | apps/lights.py:610-623 | `_on_media_state` ends in the specified state |
| Lights.LightController.OnButtonPress | apps/lights.py:691-709 | `_on_button_press` ends in the specified state |
| Lights.LightController.AutoOffElapsed | apps/lights.py:483-491 | `_auto_off_elapsed` ends in the specified state |
| Lights.LightController.ReautomateFromMotion | apps/lights.py:664-676 | `_reautomate_from_motion` ends in the specified state |
| Lights.LightController.ReautomateFromManualOff | apps/lights.py:678-689 | `_reautomate_from_manual_off` ends in the specified state |
| Lights.LightController.AlResetTimerCb | apps/lights.py:405-409 | the light's reset slot is dropped and Adaptive Lighting reset for it, when a switch is configured |
| Lights.LightController.Handle | apps/lights.py:118-133 | one event, dispatched as the listeners route it, ends in the specified state and keeps the invariant |
| Manager.ButtonsListed | apps/lights.py:725-739 | a button is listed exactly when some managed zone is in a manual state and names a non-empty button |
| Manager.ButtonsShape | apps/lights.py:725-739 | each zone adds at most one button, and no listed button is empty |
| Manager.ButtonsNonEmpty | apps/lights.py:737-739 | the sensor is on exactly when some managed zone contributes a button |
| Manager.PublishedStatusRead | apps/lights.py:163-177 | a controller's own published status is read back: its button is listed exactly when its mode is manual |
| Manager.LightAutomationManager.constructor | apps/lights.py:713-717 | the zone list comes from the `apps` setting, and the sensor starts off with no buttons |
| Manager.LightAutomationManager.CollectButtons | apps/lights.py:726-736 | the loop collects exactly the specified button list |
| Manager.LightAutomationManager.Refresh | apps/lights.py:725-739 | the sensor holds the button list and is on exactly when the list is non-empty |

## Left out

- Home Assistant plumbing is not modelled. This covers `get_state`, `set_state`, `listen_state`, `listen_event`, `call_service`, `run_in`, `cancel_timer` and `run_every`.
  - Readings are the `Env` parameter.
  - Calls, timer starts and cancellations are outbox entries.
  - Timers never fire on their own. A firing is the event `TimerFired(callback)`, with the callback's own arguments.
- `_publish_status` and `_publish_debug_state` are not modelled, except for the status fields `_refresh` reads (`Manager.Published`). Logging (`_logx`) and the virtual entities created in `initialize` are left out too.
- The wall clock, `datetime.now()` and `strftime("%a")` are inputs: `now` in seconds, the minute of the day and the lower-cased weekday name.
- Exceptions are not modelled. Service calls never fail, and the exception guards around them and in `_cancel_timer_safe` have nothing to catch.
  - Block windows are typed records. A window that is not a mapping, or whose `days` are not strings, cannot be written down. A window whose bounds do not parse is still skipped.
- Floating point is exact real arithmetic.
  - `round` is modelled as round-half-to-even and `int()` as truncation, as Python does them.
  - Rounding differences between binary floats and exact reals are not modelled.
- Numeric attributes are `Option<real>`.
  - A non-numeric `brightness` or colour-temperature value is not representable. This covers the `isinstance` checks and the exceptions `float()` and `int()` would raise on such values.
  - The lux reading arrives already converted, so parsing its text is left out.
- Text handling is limited:
  - `str.lower()` is modelled on ASCII letters only.
  - `int(text)` accepts ASCII digits only, not other Unicode digits.
  - `str.strip()` uses Python's white-space set.
- Configuration loading in `initialize` is reduced to a typed `Config`.
  - Still modelled: the light list (`Settings.LoadLights`), the motion sensors (`Settings.MotionEntities`), the Adaptive Lighting reset period (`Settings.ManualResetSeconds`), the default block actions (`BlockWindows.DefaultActions`) and `_as_list`.
  - The `float()`/`bool()` coercions of the other settings are not modelled.
- The periodic scheduling of `LightAutomationManager` is not modelled. The statuses `_refresh` reads are given as a map from status entity to `Manager.Status`. A status attribute is assumed to be text.
- Lights.LightController.Handle: this is the only method that proves the invariant is kept. The individual handler methods state only their new state, which `Transitions.StepOk` covers.
- Media dimming, restore and the turn-on/turn-off loops accumulate their calls in a local sequence and append it once after the loop. The source issues one call per iteration. No other state is read or changed between those calls, so the outbox ends the same.
- BlockWindows.ParseHHMM: its own contract only says a result needs two fields. Its meaning is stated by `BlockWindows.ParseHHMMOfFields` and `BlockWindows.ParseClockText`.
- Adaptive.CurrentTargets: the switch's `adapt_brightness` and `adapt_color` are booleans or missing. The source applies `bool()` to whatever value is there, so a present `None`, `0` or empty text reads as false and other text as true. Those values are not representable here.
- Text.Lower: its own contract only keeps the length. Its meaning is stated by `Text.LowerMeaning` and `Text.LowerIdempotent`.
- Text.PyInt: its own contract only says an accepted text is not blank. Its meaning is stated through `Text.TwoDigitsRoundTrip` and `Settings.ManualResetSecondsFromText`.
