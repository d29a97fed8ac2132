/** Quiet hours: configured time windows during which automatic ON, OFF or both
    are suppressed (apps/lights.py:193-257). */
module BlockWindows {
  import opened Common
  import opened Text

  /** The normalised `actions` of a window. */
  datatype Actions = BlockOn | BlockOff | BlockOnOff

  /** The word the controller writes into a block reason. */
  function ActionsWord(a: Actions): string {
    match a
    case BlockOn => "on"
    case BlockOff => "off"
    case BlockOnOff => "on_off"
  }

  /** An `actions` setting as configured: a boolean, a string, or missing (or of
      any other type, which the normalisation treats the same way). */
  datatype RawActions = Flag(b: bool) | Words(s: string) | NoActions

  /** `_norm_actions`: `True` means both, a string is trimmed and lower-cased and
      must then be one of the three words; everything else is no setting. */
  function NormActions(v: RawActions): (r: Option<Actions>)
    ensures v.Flag? ==> r == (if v.b then Some(BlockOnOff) else None)
    ensures v.Words? ==> (r.Some? <==> Lower(Strip(v.s)) in {"on", "off", "on_off"})
    ensures r.Some? && v.Words? ==> Lower(Strip(v.s)) == ActionsWord(r.value)
    ensures v.NoActions? ==> r.None?
  {
    match v
    case Flag(b) => if b then Some(BlockOnOff) else None
    case Words(s) =>
      var w := Lower(Strip(s));
      if w == "on" then Some(BlockOn)
      else if w == "off" then Some(BlockOff)
      else if w == "on_off" then Some(BlockOnOff)
      else None
    case NoActions => None
  }

  /** Each action word normalises back to the action it names. */
  lemma NormActionsRoundTrip(a: Actions)
    ensures NormActions(Words(ActionsWord(a))) == Some(a)
  {
    var w := ActionsWord(a);
    StripUnpadded(w);
    assert Lower(w) == w;
  }

  /** Surrounding white space and upper case do not matter; `False` and a
      word that is not an action are no setting. */
  lemma NormActionsExamples()
    ensures NormActions(Words(" ON ")) == Some(BlockOn)
    ensures NormActions(Words("On_Off\n")) == Some(BlockOnOff)
    ensures NormActions(Words("both")) == None
    ensures NormActions(Flag(true)) == Some(BlockOnOff) && NormActions(Flag(false)) == None
  {
    assert StripRight(" ON ") == " ON";
    assert StripLeft(" ON") == "ON";
    assert Lower("ON") == "on";
    assert StripRight("On_Off\n") == "On_Off";
    StripUnpadded("On_Off");
    assert Lower("On_Off") == "on_off";
    StripUnpadded("both");
  }

  /** `str(value)`: a missing setting is the text "None". */
  function PyStr(o: Option<string>): string {
    match o
    case None => "None"
    case Some(s) => s
  }

  /** `_parse_hhmm`: `h * 60 + m` from the first two colon-separated fields read
      with `int()`; no range check. A missing field or a field `int()` rejects gives None. */
  function ParseHHMM(text: string): (r: Option<int>)
    ensures r.Some? ==> |SplitColon(text)| >= 2
  {
    var parts := SplitColon(text);
    if |parts| < 2 then None
    else
      var h, m := PyInt(parts[0]), PyInt(parts[1]);
      if h.Some? && m.Some? then Some(h.value * 60 + m.value) else None
  }

  /** The clock text "HH:MM" of two numbers below 100. */
  function ClockText(h: nat, m: nat): string
    requires h < 100 && m < 100
  {
    TwoDigits(h) + ":" + TwoDigits(m)
  }

  /** Two fields `int()` accepts give hours times sixty plus minutes. */
  lemma ParseHHMMOfFields(text: string, h: int, m: int)
    requires |SplitColon(text)| >= 2
    requires PyInt(SplitColon(text)[0]) == Some(h) && PyInt(SplitColon(text)[1]) == Some(m)
    ensures ParseHHMM(text) == Some(h * 60 + m)
  {
  }

  /** Writing a time as "HH:MM" and parsing it gives its minute of the day back;
      hours and minutes are not range-checked, so "25:99" is minute 1599. */
  lemma ParseClockText(h: nat, m: nat)
    requires h < 100 && m < 100
    ensures ParseHHMM(ClockText(h, m)) == Some(h * 60 + m)
  {
    var a, b := TwoDigits(h), TwoDigits(m);
    assert ':' !in a && ':' !in b;
    SplitTwoFields(a, b);
    var parts := SplitColon(ClockText(h, m));
    assert parts == [a, b];
    TwoDigitsRoundTrip(h);
    TwoDigitsRoundTrip(m);
    ParseHHMMOfFields(ClockText(h, m), h, m);
  }

  /** `_within_window`: the half-open range [start, end), wrapping past midnight
      when start > end; no match when a bound is missing or both are equal. */
  function WithinWindow(start: Option<int>, end: Option<int>, now: int): (r: bool)
    ensures r ==> start.Some? && end.Some? && start.value != end.value
  {
    if start.None? || end.None? then false
    else if start.value == end.value then false
    else if start.value < end.value then start.value <= now < end.value
    else now >= start.value || now < end.value
  }

  /** A window that wraps past midnight matches exactly the times the same-day
      window with its bounds swapped does not match. */
  lemma WrappingIsComplement(s: int, e: int, t: int)
    requires s > e
    ensures WithinWindow(Some(s), Some(e), t) <==> !WithinWindow(Some(e), Some(s), t)
  {
  }

  /** A same-day window matches exactly the minutes from its start up to, and not
      including, its end. */
  lemma SameDayWindowIsHalfOpen(s: int, e: int, t: int)
    requires s < e
    ensures WithinWindow(Some(s), Some(e), t) <==> s <= t < e
  {
  }

  /** The 22:00-07:00 window as configured text: 23:30, 00:00 and 06:59 fall in
      it, 07:00 and 21:59 do not; the empty window 07:00-07:00 matches nothing. */
  lemma NightWindowExamples(t: int)
    ensures WithinWindow(ParseHHMM(ClockText(22, 0)), ParseHHMM(ClockText(7, 0)), 23 * 60 + 30)
    ensures WithinWindow(ParseHHMM(ClockText(22, 0)), ParseHHMM(ClockText(7, 0)), 0)
    ensures WithinWindow(ParseHHMM(ClockText(22, 0)), ParseHHMM(ClockText(7, 0)), 6 * 60 + 59)
    ensures !WithinWindow(ParseHHMM(ClockText(22, 0)), ParseHHMM(ClockText(7, 0)), 7 * 60)
    ensures !WithinWindow(ParseHHMM(ClockText(22, 0)), ParseHHMM(ClockText(7, 0)), 21 * 60 + 59)
    ensures !WithinWindow(ParseHHMM(ClockText(7, 0)), ParseHHMM(ClockText(7, 0)), t)
  {
    ParseClockText(22, 0);
    ParseClockText(7, 0);
  }

  /** One configured block window. `days` is a weekday name or a list of them. */
  datatype BlockWindow = BlockWindow(start: Option<string>, end: Option<string>, days: ConfigValue<string>, actions: RawActions)

  /** The blocking part of the configuration: the windows in order, the legacy
      `quiet_start`/`quiet_end` pair and the default actions. */
  datatype BlockConfig = BlockConfig(windows: seq<BlockWindow>, quietStart: Option<string>, quietEnd: Option<string>, defaultActions: Actions)

  /** `self._norm_actions(cfg.get("block_actions")) or "on_off"`. */
  function DefaultActions(v: RawActions): (a: Actions)
    ensures v.Flag? || v.NoActions? ==> a == BlockOnOff
    ensures v.Words? ==> ActionsWord(a) == Lower(Strip(v.s)) || (a == BlockOnOff && Lower(Strip(v.s)) !in {"on", "off", "on_off"})
  {
    NormActions(v).GetOr(BlockOnOff)
  }

  /** `text[:3]`. */
  function Prefix3(s: string): (r: string)
    ensures |r| <= 3 && StartsWith(s, r)
  {
    if |s| <= 3 then s else s[..3]
  }

  /** `[d.lower()[:3] for d in days]`: each key is the day's first three
      characters (or the whole day when shorter), lower-cased. */
  function DayKeys(ds: seq<string>): (r: seq<string>)
    ensures |r| == |ds|
    ensures forall i :: 0 <= i < |ds| ==> |r[i]| == (if |ds[i]| < 3 then |ds[i]| else 3)
    ensures forall i :: 0 <= i < |ds| ==> r[i] == Lower(ds[i])[..|r[i]|]
  {
    seq(|ds|, i requires 0 <= i < |ds| => Prefix3(Lower(ds[i])))
  }

  /** Listed days are matched on their first three letters, in any case. */
  lemma DayKeysExample()
    ensures DayKeys(["Monday", "TUE", "sa"]) == ["mon", "tue", "sa"]
  {
    assert Lower("Monday")[..3] == "mon";
    assert Lower("TUE") == "tue";
    assert Lower("sa") == "sa";
  }

  /** A window without (truthy) days applies every day; otherwise today's
      three-letter weekday must be among the listed days' first three letters. */
  predicate DaysAdmit(days: ConfigValue<string>, today: string) {
    !TruthyText(days) || Prefix3(today) in DayKeys(AsList(days))
  }

  predicate WindowMatches(w: BlockWindow, minute: int, today: string) {
    && WithinWindow(ParseHHMM(PyStr(w.start)), ParseHHMM(PyStr(w.end)), minute)
    && DaysAdmit(w.days, today)
  }

  /** `f"{actions} {start}-{end}"` for a matching window. */
  function WindowReason(w: BlockWindow, default: Actions): (r: string)
    ensures StartsWith(r, ActionsWord(NormActions(w.actions).GetOr(default)) + " ")
  {
    ActionsWord(NormActions(w.actions).GetOr(default)) + " " + PyStr(w.start) + "-" + PyStr(w.end)
  }

  /** `(blocked, reason)`, with the reason text the controller later searches. */
  datatype BlockResult = NotBlocked | Blocked(reason: string)

  /** The legacy pair, tried when no window matches; each bound counts only
      when it is a non-empty string. */
  function LegacyBlocked(cfg: BlockConfig, minute: int): (r: BlockResult)
    ensures r.Blocked? ==> Configured(cfg.quietStart) && Configured(cfg.quietEnd)
  {
    var s := if Configured(cfg.quietStart) then ParseHHMM(cfg.quietStart.value) else None;
    var e := if Configured(cfg.quietEnd) then ParseHHMM(cfg.quietEnd.value) else None;
    if WithinWindow(s, e, minute) then
      Blocked(ActionsWord(cfg.defaultActions) + " " + PyStr(cfg.quietStart) + "-" + PyStr(cfg.quietEnd))
    else NotBlocked
  }

  /** The scan of `_blocked_now` from the window list `ws` on. */
  function BlockedFrom(ws: seq<BlockWindow>, cfg: BlockConfig, minute: int, today: string): BlockResult {
    if ws == [] then LegacyBlocked(cfg, minute)
    else if WindowMatches(ws[0], minute, today) then Blocked(WindowReason(ws[0], cfg.defaultActions))
    else BlockedFrom(ws[1..], cfg, minute, today)
  }

  /** `_blocked_now` at a given minute of the day and weekday. */
  function BlockedAt(cfg: BlockConfig, minute: int, today: string): BlockResult {
    BlockedFrom(cfg.windows, cfg, minute, today)
  }

  /** The first matching window decides the result; later windows are not consulted. */
  lemma {:induction false} FirstMatchWins(ws: seq<BlockWindow>, cfg: BlockConfig, minute: int, today: string, i: nat)
    requires i < |ws| && WindowMatches(ws[i], minute, today)
    requires forall j :: 0 <= j < i ==> !WindowMatches(ws[j], minute, today)
    ensures BlockedFrom(ws, cfg, minute, today) == Blocked(WindowReason(ws[i], cfg.defaultActions))
  {
    if i > 0 {
      assert !WindowMatches(ws[0], minute, today);
      assert ws[1..][i - 1] == ws[i];
      forall j | 0 <= j < i - 1
        ensures !WindowMatches(ws[1..][j], minute, today)
      {
        assert ws[1..][j] == ws[j + 1];
      }
      FirstMatchWins(ws[1..], cfg, minute, today, i - 1);
    }
  }

  /** Without a matching window the legacy pair decides. */
  lemma {:induction false} NoWindowMatches(ws: seq<BlockWindow>, cfg: BlockConfig, minute: int, today: string)
    requires forall j :: 0 <= j < |ws| ==> !WindowMatches(ws[j], minute, today)
    ensures BlockedFrom(ws, cfg, minute, today) == LegacyBlocked(cfg, minute)
  {
    if ws != [] {
      NoWindowMatches(ws[1..], cfg, minute, today);
    }
  }

  /** A window restricted to other weekdays is skipped. */
  lemma OtherDayWindowSkipped(w: BlockWindow, minute: int, today: string)
    requires TruthyText(w.days) && Prefix3(today) !in DayKeys(AsList(w.days))
    ensures !WindowMatches(w, minute, today)
  {
  }

  /** The loop of `_blocked_now`, with its early return. */
  method BlockedNow(cfg: BlockConfig, minute: int, today: string) returns (r: BlockResult)
    ensures r == BlockedAt(cfg, minute, today)
    ensures r.Blocked? && (forall j :: 0 <= j < |cfg.windows| ==> !WindowMatches(cfg.windows[j], minute, today))
            ==> r == LegacyBlocked(cfg, minute)
  {
    var ws := cfg.windows;
    var i := 0;
    while i < |ws|
      invariant 0 <= i <= |ws|
      invariant BlockedFrom(ws[i..], cfg, minute, today) == BlockedAt(cfg, minute, today)
      invariant forall j :: 0 <= j < i ==> !WindowMatches(ws[j], minute, today)
    {
      var w := ws[i];
      var s := ParseHHMM(PyStr(w.start));
      var e := ParseHHMM(PyStr(w.end));
      if !WithinWindow(s, e, minute) {
        assert ws[i..][1..] == ws[i + 1..];
        i := i + 1;
        continue;
      }
      if TruthyText(w.days) && Prefix3(today) !in DayKeys(AsList(w.days)) {
        assert ws[i..][1..] == ws[i + 1..];
        i := i + 1;
        continue;
      }
      var actions := NormActions(w.actions).GetOr(cfg.defaultActions);
      return Blocked(ActionsWord(actions) + " " + PyStr(w.start) + "-" + PyStr(w.end));
    }
    NoWindowMatches(ws, cfg, minute, today);
    var s := if Configured(cfg.quietStart) then ParseHHMM(cfg.quietStart.value) else None;
    var e := if Configured(cfg.quietEnd) then ParseHHMM(cfg.quietEnd.value) else None;
    if WithinWindow(s, e, minute) {
      return Blocked(ActionsWord(cfg.defaultActions) + " " + PyStr(cfg.quietStart) + "-" + PyStr(cfg.quietEnd));
    }
    return NotBlocked;
  }

  /** `_automation_allowed(action)`: searches the reason text for "on_off", and
      for " on" or " off" with a leading blank. */
  function AutomationAllowed(action: Power, b: BlockResult): (r: bool)
    ensures b.NotBlocked? ==> r
  {
    if b.NotBlocked? then true
    else if Contains(b.reason, "on_off") then false
    else if action == On && Contains(b.reason, " on") then false
    else if action == Off && Contains(b.reason, " off") then false
    else true
  }

  /** A window whose actions are "on_off" blocks both ON and OFF. */
  lemma OnOffWindowBlocksBoth(w: BlockWindow, default: Actions)
    requires NormActions(w.actions).GetOr(default) == BlockOnOff
    ensures !AutomationAllowed(On, Blocked(WindowReason(w, default)))
    ensures !AutomationAllowed(Off, Blocked(WindowReason(w, default)))
  {
    assert StartsWith(WindowReason(w, default), "on_off");
  }

  /** A text without a character of the needle cannot contain the needle. */
  lemma {:induction false} MissingCharNotContained(hay: string, needle: string, c: char)
    requires c in needle && c !in hay
    ensures !Contains(hay, needle)
  {
    if hay != [] {
      MissingCharNotContained(hay[1..], needle, c);
    }
  }

  /** No occurrence starts before position k, and none in the rest. */
  lemma {:induction false} NoEarlyStart(hay: string, needle: string, k: nat)
    requires k <= |hay|
    requires forall i :: 0 <= i < k ==> !StartsWith(hay[i..], needle)
    requires !Contains(hay[k..], needle)
    ensures !Contains(hay, needle)
  {
    if k > 0 {
      assert hay[0..] == hay;
      forall i | 0 <= i < k - 1
        ensures !StartsWith(hay[1..][i..], needle)
      {
        assert hay[1..][i..] == hay[i + 1..];
      }
      assert hay[1..][k - 1..] == hay[k..];
      NoEarlyStart(hay[1..], needle, k - 1);
    }
  }

  /** Text made of digits, colons, blanks and dashes, as a time range is written. */
  predicate ClockLike(t: string) {
    forall i :: 0 <= i < |t| ==> IsDigit(t[i]) || t[i] in {':', ' ', '-'}
  }

  /** The reason of an "on" or "off" window followed by text without the letter
      'o' contains none of the words `_automation_allowed` looks for. */
  lemma {:induction false} BareWordReason(word: string, tail: string, n: string)
    requires word == "on" || word == "off"
    requires 'o' !in tail && tail != []
    requires n == " on" || n == " off" || n == "on_off"
    ensures !Contains(word + " " + tail, n)
  {
    var r := word + " " + tail;
    MissingCharNotContained(tail, n, 'o');
    assert r[|word| + 1..] == tail;
    forall i | 0 <= i <= |word|
      ensures !StartsWith(r[i..], n)
    {
      assert r[i..][0] == r[i];
      assert r[i..][1] == r[i + 1];
      if i == |word| {
        assert r[i + 1] == tail[0];
      } else {
        assert r[i..][2] == r[i + 2];
      }
    }
    NoEarlyStart(r, n, |word| + 1);
  }

  /** A window whose actions are just "on" or just "off" blocks nothing: its reason
      starts with the bare word, so neither " on" nor " off" nor "on_off" occurs. */
  lemma SingleActionWindowBlocksNothing(w: BlockWindow, default: Actions)
    requires NormActions(w.actions).GetOr(default) != BlockOnOff
    requires ClockLike(PyStr(w.start)) && ClockLike(PyStr(w.end))
    ensures AutomationAllowed(On, Blocked(WindowReason(w, default)))
    ensures AutomationAllowed(Off, Blocked(WindowReason(w, default)))
  {
    var word := ActionsWord(NormActions(w.actions).GetOr(default));
    var tail := PyStr(w.start) + "-" + PyStr(w.end);
    assert WindowReason(w, default) == word + " " + tail;
    assert ClockLike(tail);
    assert 'o' !in tail;
    BareWordReason(word, tail, " on");
    BareWordReason(word, tail, " off");
    BareWordReason(word, tail, "on_off");
  }
}
