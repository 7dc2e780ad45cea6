/**
 * What the personal timer and the group room share: the three timer states,
 * the arithmetic of their handlers (start value, committed seconds, the
 * long-break rule, break lengths) and `formatTime`.
 */
module TimerCore {
  import opened Wrappers
  import opened Text
  import opened Settings

  datatype TimerState = Idle | Focusing | Resting

  /** The counter `handleStart` sets: a countdown in pomodoro mode, else zero. */
  function FocusStartValue(s: AppSettings): (v: int)
    ensures s.pomodoroEnabled ==> v == s.pomodoroDuration * 60
    ensures !s.pomodoroEnabled ==> v == 0
  {
    if s.pomodoroEnabled then s.pomodoroDuration * 60 else 0
  }

  /**
   * The seconds `handleEnd`/`handleRest` credit: the counter itself when it
   * counts up, the part of the pomodoro already spent when it counts down.
   */
  function CommittedSeconds(s: AppSettings, counter: int): (c: int)
    ensures c == (if s.pomodoroEnabled then FocusStartValue(s) - counter else counter - FocusStartValue(s))
    ensures counter == FocusStartValue(s) ==> c == 0
  {
    if s.pomodoroEnabled then s.pomodoroDuration * 60 - counter else counter
  }

  /**
   * `newCount % longBreakInterval === 0` with JavaScript's `%`; an interval of
   * zero gives `NaN`, which is never `=== 0`.
   */
  predicate LongBreakDue(count: int, interval: int)
    ensures interval > 0 && count >= 0 ==> (LongBreakDue(count, interval) <==> count % interval == 0)
    ensures interval == 0 ==> !LongBreakDue(count, interval)
  {
    interval != 0 && JsRem(count, interval) == 0
  }

  /** The break a completed pomodoro starts, in seconds. */
  function BreakSeconds(s: AppSettings, long: bool): int {
    (if long then s.longBreak else s.shortBreak) * 60
  }

  /** The rest counter a finished break is reset to, for the next break. */
  function RestResetSeconds(s: AppSettings, long: bool): int {
    if s.pomodoroEnabled then BreakSeconds(s, long) else s.restDuration
  }

  /** For a positive interval, a long break is due exactly on the multiples of the interval. */
  lemma {:induction false} LongBreakOnMultiples(k: int, interval: int)
    requires interval > 0
    ensures LongBreakDue(k * interval, interval)
    ensures 0 < k * interval ==> !LongBreakDue(k * interval - 1, interval) || interval == 1
  {
    var n := k * interval;
    if n >= 0 {
      assert n % interval == 0 by { MultipleMod(k, interval); }
    } else {
      assert (-n) % interval == 0 by { MultipleMod(-k, interval); }
    }
    if 0 < n && interval > 1 {
      assert k > 0;
      var m := n - 1;
      assert m == (k - 1) * interval + (interval - 1);
      assert m % interval == interval - 1 by { ModOfSum(k - 1, interval, interval - 1); }
    }
  }

  // ----- formatTime -----

  /** The hours, minutes and seconds `formatTime` prints. */
  datatype Clock = Clock(hours: nat, minutes: nat, seconds: nat)

  /** The decomposition `formatTime` makes of `Math.abs(x)`. */
  function ClockOf(x: int): (c: Clock)
    ensures c.hours * 3600 + c.minutes * 60 + c.seconds == Abs(x)
    ensures c.minutes < 60 && c.seconds < 60
  {
    var a := Abs(x);
    var c := Clock(a / 3600, (a % 3600) / 60, a % 60);
    DecomposeSeconds(a);
    c
  }

  lemma DecomposeSeconds(a: nat)
    ensures (a / 3600) * 3600 + ((a % 3600) / 60) * 60 + a % 60 == a
    ensures (a % 3600) / 60 < 60
  {
    var h := a / 3600;
    var r := a % 3600;
    assert a == h * 3600 + r;
    var m := r / 60;
    var s := r % 60;
    assert r == m * 60 + s;
    assert a == (h * 60 + m) * 60 + s;
    ModOfSum(h * 60 + m, 60, s);
  }

  /** One field of `formatTime`: `String(n).padStart(2, '0')`. */
  function Field(n: nat): string {
    PadStart2(NatToString(n))
  }

  lemma TwoDigitField(n: nat)
    ensures n < 100 ==> |Field(n)| == 2
  {
    if n >= 10 {
      assert NatToString(n) == NatToString(n / 10) + [DigitChar(n % 10)];
    }
  }

  /**
   * `formatTime(x)`: `HH:MM:SS` of the absolute value; the minutes and the
   * seconds always take two characters, so the colons sit 3 and 6 from the
   * end, and below 100 hours the text is exactly 8 long.
   */
  function FormatTime(x: int): (t: string)
    ensures |t| >= 8 && t[|t| - 3] == ':' && t[|t| - 6] == ':'
    ensures Abs(x) < 360000 ==> |t| == 8
  {
    var c := ClockOf(x);
    TwoDigitField(c.minutes);
    TwoDigitField(c.seconds);
    TwoDigitField(c.hours);
    Field(c.hours) + ":" + Field(c.minutes) + ":" + Field(c.seconds)
  }

  /**
   * The three fields of `formatTime(x)` read back as hours, minutes (below 60)
   * and seconds (below 60) that add up to `|x|` seconds.
   */
  lemma FormatTimeReadsBack(x: int)
    ensures var t := FormatTime(x);
      var h := Field(ClockOf(x).hours);
      |t| == |h| + 6 && t[|h|] == ':' && t[|h| + 3] == ':'
      && exists hours: nat, minutes: nat, seconds: nat ::
        && ParseInt(t[..|h|]) == Some(hours)
        && ParseInt(t[|h| + 1..|h| + 3]) == Some(minutes)
        && ParseInt(t[|h| + 4..]) == Some(seconds)
        && minutes < 60 && seconds < 60
        && hours * 3600 + minutes * 60 + seconds == Abs(x)
  {
    var c := ClockOf(x);
    var h, m, s := Field(c.hours), Field(c.minutes), Field(c.seconds);
    TwoDigitField(c.minutes);
    TwoDigitField(c.seconds);
    SplitAtColons(h, m, s);
    assert FormatTime(x) == h + ":" + m + ":" + s;
    ParseIntOfPadded(c.hours);
    ParseIntOfPadded(c.minutes);
    ParseIntOfPadded(c.seconds);
    var t := FormatTime(x);
    assert t[..|h|] == h && t[|h| + 1..|h| + 3] == m && t[|h| + 4..] == s;
    assert ParseInt(t[..|h|]) == Some(c.hours);
    assert ParseInt(t[|h| + 1..|h| + 3]) == Some(c.minutes);
    assert ParseInt(t[|h| + 4..]) == Some(c.seconds);
  }

  lemma SplitAtColons(h: string, m: string, s: string)
    requires |m| == 2 && |s| == 2
    ensures var t := h + ":" + m + ":" + s;
      && |t| == |h| + 6 && t[|h|] == ':' && t[|h| + 3] == ':'
      && t[..|h|] == h && t[|h| + 1..|h| + 3] == m && t[|h| + 4..] == s
  {
  }
}
