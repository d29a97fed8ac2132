/** Media dimming: while a media player plays, `light.*` lights are dimmed to a
    fixed level, and the level each had before the first dimming is remembered
    so that it can be put back when playback stops (apps/lights.py:625-661). */
module MediaDim {
  import opened Common
  import opened Text
  import opened Numeric
  import opened Effects

  /** Entities of the `light` domain: the only ones dimmed and restored. */
  predicate IsLight(e: string) {
    StartsWith(e, "light.")
  }

  /** One entry of `_before_media_brightness_pct`. */
  datatype Saved = Saved(light: string, pct: Option<int>)

  /** The pre-dim table in insertion order, which is the order restore replays it. */
  type PreDim = seq<Saved>

  function Keys(t: PreDim): (r: seq<string>)
    ensures |r| == |t|
    ensures forall i :: 0 <= i < |t| ==> r[i] == t[i].light
  {
    seq(|t|, i requires 0 <= i < |t| => t[i].light)
  }

  /** A table as the controller builds it: one entry per light, every key a
      configured `light.*` entity. */
  predicate WellFormed(t: PreDim, lights: seq<string>) {
    && NoDups(Keys(t))
    && forall i :: 0 <= i < |t| ==> IsLight(t[i].light) && t[i].light in lights
  }

  /** `max(1, min(100, round(bri / 255 * 100)))` for a numeric brightness, and
      None when the light reports no brightness. */
  function PreDimPct(bri: Option<real>): (r: Option<int>)
    ensures r.Some? <==> bri.Some?
    ensures r.Some? ==> 1 <= r.value <= 100
  {
    if bri.None? then None else Some(Clamp(1, 100, RoundHalfEven(bri.value / 255.0 * 100.0)))
  }

  /** Within range the saved level is the brightness as the nearest percentage. */
  lemma PreDimPctIsNearestPercent(b: real)
    requires 1.0 <= b / 255.0 * 100.0 <= 100.0
    ensures var p := PreDimPct(Some(b)).value as real; b / 255.0 * 100.0 - 0.5 <= p <= b / 255.0 * 100.0 + 0.5
  {
    var r := RoundHalfEven(b / 255.0 * 100.0);
    assert 1 <= r <= 100;
  }

  /** 204 is 80 %, 153 is 60 %; full brightness is 100 % and an off light is
      clamped up to 1 %. */
  lemma PreDimPctExamples()
    ensures PreDimPct(Some(204.0)) == Some(80)
    ensures PreDimPct(Some(153.0)) == Some(60)
    ensures PreDimPct(Some(255.0)) == Some(100)
    ensures PreDimPct(Some(0.0)) == Some(1)
  {
    assert 204.0 / 255.0 * 100.0 == 80.0;
    RoundOfInteger(80);
    assert 153.0 / 255.0 * 100.0 == 60.0;
    RoundOfInteger(60);
    RoundOfInteger(100);
    RoundOfInteger(0);
  }

  /** The pre-dim table after `_apply_media_dimming` walks `lights`: each
      `light.*` light not yet in the table is appended with its current level. */
  function Capture(t: PreDim, lights: seq<string>, bri: map<string, real>): PreDim {
    if lights == [] then t
    else
      var t0 := Capture(t, lights[..|lights| - 1], bri);
      var l := lights[|lights| - 1];
      if IsLight(l) && l !in Keys(t0) then t0 + [Saved(l, PreDimPct(Get(bri, l)))] else t0
  }

  /** `light/turn_on` with `brightness_pct` for every `light.*` light, in order. */
  function BrightnessCommands(lights: seq<string>, pct: int): seq<Effect> {
    if lights == [] then []
    else
      var l := lights[|lights| - 1];
      BrightnessCommands(lights[..|lights| - 1], pct)
        + (if IsLight(l) then [Call(LightTurnOn(l, Some(pct), None))] else [])
  }

  /** The brightness calls go exactly to the `light.*` lights, at the level given. */
  lemma {:induction false} BrightnessCommandsExactly(lights: seq<string>, pct: int)
    ensures forall l :: Call(LightTurnOn(l, Some(pct), None)) in BrightnessCommands(lights, pct) <==> l in lights && IsLight(l)
    ensures forall c :: c in BrightnessCommands(lights, pct) ==>
              c.Call? && c.command.LightTurnOn? && c.command.brightnessPct == Some(pct) && c.command.colorTempKelvin.None?
  {
    if lights != [] {
      var p := lights[..|lights| - 1];
      BrightnessCommandsExactly(p, pct);
      assert lights == p + [lights[|lights| - 1]];
    }
  }

  /** Without a `light.*` light there is nothing to send. */
  lemma {:induction false} BrightnessCommandsNone(lights: seq<string>, pct: int)
    requires forall l :: l in lights ==> !IsLight(l)
    ensures BrightnessCommands(lights, pct) == []
  {
    if lights != [] {
      var p := lights[..|lights| - 1];
      assert forall l :: l in p ==> l in lights;
      BrightnessCommandsNone(p, pct);
    }
  }

  /** What capturing adds: exactly the `light.*` lights walked over. */
  lemma {:induction false} CaptureKeys(t: PreDim, lights: seq<string>, bri: map<string, real>, l: string)
    ensures l in Keys(Capture(t, lights, bri)) <==> l in Keys(t) || (IsLight(l) && l in lights)
  {
    if lights != [] {
      var p := lights[..|lights| - 1];
      CaptureKeys(t, p, bri, l);
      assert lights == p + [lights[|lights| - 1]];
      var t0 := Capture(t, p, bri);
      if IsLight(lights[|lights| - 1]) && lights[|lights| - 1] !in Keys(t0) {
        assert Keys(t0 + [Saved(lights[|lights| - 1], PreDimPct(Get(bri, lights[|lights| - 1])))]) == Keys(t0) + [lights[|lights| - 1]];
      }
    }
  }

  /** Capturing only appends: earlier entries are never overwritten. */
  lemma {:induction false} CaptureExtends(t: PreDim, lights: seq<string>, bri: map<string, real>)
    ensures |t| <= |Capture(t, lights, bri)| && Capture(t, lights, bri)[..|t|] == t
  {
    if lights != [] {
      CaptureExtends(t, lights[..|lights| - 1], bri);
    }
  }

  /** A table that already holds every `light.*` light walked over is left alone. */
  lemma {:induction false} CaptureNoop(t: PreDim, lights: seq<string>, bri: map<string, real>)
    requires forall l :: l in lights && IsLight(l) ==> l in Keys(t)
    ensures Capture(t, lights, bri) == t
  {
    if lights != [] {
      var p := lights[..|lights| - 1];
      assert forall l :: l in p ==> l in lights;
      CaptureNoop(t, p, bri);
    }
  }

  /** Dimming twice records nothing new, whatever the brightness at the second
      call: the saved levels are those of the first dimming. */
  lemma CaptureIdempotent(t: PreDim, lights: seq<string>, b1: map<string, real>, b2: map<string, real>)
    ensures Capture(Capture(t, lights, b1), lights, b2) == Capture(t, lights, b1)
  {
    forall l | l in lights && IsLight(l)
      ensures l in Keys(Capture(t, lights, b1))
    {
      CaptureKeys(t, lights, b1, l);
    }
    CaptureNoop(Capture(t, lights, b1), lights, b2);
  }

  /** Capturing the configured lights keeps the table well formed. */
  lemma {:induction false} CaptureWellFormed(t: PreDim, lights: seq<string>, all: seq<string>, bri: map<string, real>)
    requires WellFormed(t, all)
    requires forall l :: l in lights ==> l in all
    ensures WellFormed(Capture(t, lights, bri), all)
  {
    if lights != [] {
      var p := lights[..|lights| - 1];
      var l := lights[|lights| - 1];
      assert forall x :: x in p ==> x in lights;
      CaptureWellFormed(t, p, all, bri);
      var t0 := Capture(t, p, bri);
      if IsLight(l) && l !in Keys(t0) {
        var t1 := t0 + [Saved(l, PreDimPct(Get(bri, l)))];
        assert Keys(t1) == Keys(t0) + [l];
      }
    }
  }

  /** A `light.*` light seen for the first time is saved at its current level. */
  lemma {:induction false} CaptureRecordsLevel(t: PreDim, lights: seq<string>, bri: map<string, real>, l: string)
    requires l in lights && IsLight(l) && l !in Keys(t)
    ensures Saved(l, PreDimPct(Get(bri, l))) in Capture(t, lights, bri)
  {
    var p := lights[..|lights| - 1];
    var t0 := Capture(t, p, bri);
    if l in p {
      CaptureRecordsLevel(t, p, bri, l);
      CaptureExtends(t0, [lights[|lights| - 1]], bri);
      assert Capture(t0, [lights[|lights| - 1]], bri) == Capture(t, lights, bri) by {
        assert [lights[|lights| - 1]][..0] == [];
      }
      assert Saved(l, PreDimPct(Get(bri, l))) in Capture(t0, [lights[|lights| - 1]], bri)[..|t0|];
    } else {
      assert l == lights[|lights| - 1];
      CaptureKeys(t, p, bri, l);
    }
  }

  /** The calls `_restore_from_media` makes for a non-empty table: one per saved
      `light.*` entry with a level, in table order. */
  function RestoreCommands(t: PreDim): seq<Effect> {
    if t == [] then []
    else
      var s := t[|t| - 1];
      RestoreCommands(t[..|t| - 1])
        + (if IsLight(s.light) && s.pct.Some? then [Call(LightTurnOn(s.light, s.pct, None))] else [])
  }

  /** Restore re-sends exactly the saved levels, and nothing else. */
  lemma {:induction false} RestoreReplaysSaved(t: PreDim)
    ensures forall l, p :: Call(LightTurnOn(l, Some(p), None)) in RestoreCommands(t) <==> IsLight(l) && Saved(l, Some(p)) in t
    ensures forall c :: c in RestoreCommands(t) ==>
              c.Call? && c.command.LightTurnOn? && c.command.brightnessPct.Some? && c.command.colorTempKelvin.None?
  {
    if t != [] {
      var p := t[..|t| - 1];
      var s := t[|t| - 1];
      RestoreReplaysSaved(p);
      assert t == p + [s];
      forall l, q
        ensures Call(LightTurnOn(l, Some(q), None)) in RestoreCommands(t) <==> IsLight(l) && Saved(l, Some(q)) in t
      {
        var tail := if IsLight(s.light) && s.pct.Some? then [Call(LightTurnOn(s.light, s.pct, None))] else [];
        assert RestoreCommands(t) == RestoreCommands(p) + tail;
        assert Call(LightTurnOn(l, Some(q), None)) in tail <==> IsLight(l) && s == Saved(l, Some(q));
        assert Saved(l, Some(q)) in t <==> Saved(l, Some(q)) in p || s == Saved(l, Some(q));
      }
    } else {
      assert RestoreCommands(t) == [];
    }
  }

  /** The outcome of `_restore_from_media`: the calls made and the table after. */
  datatype Restored = Restored(commands: seq<Effect>, table: PreDim)

  /** `_restore_from_media`. An empty table falls back to the auto brightness,
      when one is configured; a non-empty one is replayed and then cleared. */
  function Restore(t: PreDim, lights: seq<string>, autoPct: Option<int>): (r: Restored)
    ensures r.table == []
  {
    if t == [] then Restored(if autoPct.Some? then BrightnessCommands(lights, autoPct.value) else [], [])
    else Restored(RestoreCommands(t), [])
  }

  /** A second restore in a row issues nothing exactly when no auto brightness
      is configured or no configured light is a `light.*` entity. */
  lemma SecondRestore(t: PreDim, lights: seq<string>, autoPct: Option<int>)
    ensures var second := Restore(Restore(t, lights, autoPct).table, lights, autoPct);
            second.table == [] &&
            (second.commands == [] <==> autoPct.None? || forall l :: l in lights ==> !IsLight(l))
  {
    if autoPct.Some? {
      BrightnessCommandsExactly(lights, autoPct.value);
      var cs := BrightnessCommands(lights, autoPct.value);
      if exists l :: l in lights && IsLight(l) {
        var l :| l in lights && IsLight(l);
        assert Call(LightTurnOn(l, Some(autoPct.value), None)) in cs;
      } else {
        BrightnessCommandsNone(lights, autoPct.value);
      }
    }
  }

  /** Two lights at 204 and 153 dimmed to 20 % are saved at 80 % and 60 %, in
      that order, and restore sends exactly those two levels back. */
  lemma DimThenRestoreScenario(a: string, b: string)
    requires IsLight(a) && IsLight(b) && a != b
    ensures var t := Capture([], [a, b], map[a := 204.0, b := 153.0]);
            t == [Saved(a, Some(80)), Saved(b, Some(60))] &&
            BrightnessCommands([a, b], 20) == [Call(LightTurnOn(a, Some(20), None)), Call(LightTurnOn(b, Some(20), None))] &&
            Restore(t, [a, b], None) == Restored([Call(LightTurnOn(a, Some(80), None)), Call(LightTurnOn(b, Some(60), None))], [])
  {
    PreDimPctExamples();
    var bri := map[a := 204.0, b := 153.0];
    assert [a, b][..1] == [a];
    assert [a][..0] == [];
    assert Get(bri, a) == Some(204.0) && Get(bri, b) == Some(153.0);
    assert Keys([]) == [];
    var t1 := Capture([], [a], bri);
    assert Capture([], [a][..0], bri) == [];
    assert t1 == [Saved(a, Some(80))];
    assert Keys(t1) == [a];
    var t := [Saved(a, Some(80)), Saved(b, Some(60))];
    assert t[..1] == [Saved(a, Some(80))];
    assert t[..1][..0] == [];
    assert Capture([], [a, b], bri) == t;
    assert BrightnessCommands([a], 20) == [Call(LightTurnOn(a, Some(20), None))];
    assert RestoreCommands(t[..1]) == [Call(LightTurnOn(a, Some(80), None))];
  }
}
