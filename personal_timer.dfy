/**
 * The personal focus timer: an idle/focusing/resting machine driven by the
 * user's start, end, rest and end-rest buttons and by a one-second tick, which
 * credits focused seconds to today's total and keeps that total in the store
 * under `focusTimer` as `{ date, total }`.
 *
 * `Model` is the component's state as a value and each handler is a function
 * on it; the class `Timer` below holds the same state in fields and its
 * methods are proved to perform exactly those functions.
 */
module PersonalTimer {
  import opened Wrappers
  import opened Storage
  import opened Settings
  import opened TimerCore

  /** `timerState`, `elapsedTime`, `restTime`, `todayTotal`, `pomodoroCount`, `isLongBreak`, and the store. */
  datatype Model = Model(
    state: TimerState,
    elapsed: int,
    rest: int,
    total: int,
    count: int,
    longBreak: bool,
    store: Store)

  /** The `useState` initial values. */
  function Initial(store: Store): Model {
    Model(Idle, 0, 600, 0, 0, false, store)
  }

  /** Writing `{ date: today, total }` under `focusTimer`. */
  function Persist(store: Store, today: DayId, total: int): Store {
    store[FocusTimerKey := DayBlob(DayRecord(today, total))]
  }

  /** The stored record holds `day` and the model's total. */
  ghost predicate Synced(m: Model, day: DayId) {
    FocusTimerKey in m.store && m.store[FocusTimerKey] == DayBlob(DayRecord(day, m.total))
  }

  /**
   * The load effect: the day-rollover rule, then the rest counter from the
   * settings. `None` when the stored value is `null`, where reading its
   * `date` throws before anything is set or written.
   */
  function Mounted(m: Model, today: DayId, s: AppSettings): Option<Model> {
    if FocusTimerKey !in m.store then
      Some(m.(store := Persist(m.store, today, 0), rest := s.restDuration))
    else match m.store[FocusTimerKey]
      case JsonNull => None
      case DayBlob(r) =>
        if r.date == today then Some(m.(total := r.total, rest := s.restDuration))
        else Some(m.(store := Persist(m.store, today, 0), total := 0, rest := s.restDuration))
      case _ => Some(m.(store := Persist(m.store, today, 0), total := 0, rest := s.restDuration))
  }

  /** `handleStart`. */
  function Started(m: Model, s: AppSettings): Model {
    m.(elapsed := FocusStartValue(s), state := Focusing)
  }

  /** The commit `handleEnd` and `handleRest` both make. */
  function Committed(m: Model, s: AppSettings, today: DayId): Model {
    var total := m.total + CommittedSeconds(s, m.elapsed);
    m.(total := total, store := Persist(m.store, today, total), elapsed := 0)
  }

  /** `handleEnd`. */
  function Ended(m: Model, s: AppSettings, today: DayId): Model {
    Committed(m, s, today).(state := Idle)
  }

  /** `handleRest`. */
  function Rested(m: Model, s: AppSettings, today: DayId): Model {
    Committed(m, s, today).(rest := s.restDuration, state := Resting)
  }

  /** `handleEndRest`. */
  function RestEnded(m: Model, s: AppSettings): Model {
    m.(rest := s.restDuration, longBreak := false, state := Idle)
  }

  /** `handlePomodoroComplete`. */
  function Completed(m: Model, s: AppSettings, today: DayId): Model {
    var count := m.count + 1;
    var total := m.total + s.pomodoroDuration * 60;
    var long := LongBreakDue(count, s.longBreakInterval);
    m.(count := count, total := total, store := Persist(m.store, today, total),
       longBreak := long, rest := BreakSeconds(s, long), state := Resting)
  }

  /**
   * One tick of the interval. `effect` is the settings snapshot the effect read
   * when the interval started; `current` is what `getSettings()` returns at
   * the moment of the tick (read by the completion handler and at the end of a break).
   */
  function Ticked(m: Model, effect: AppSettings, current: AppSettings, today: DayId): Model
    requires m.state != Idle
  {
    if m.state == Focusing then
      var newTime := if effect.pomodoroEnabled then m.elapsed - 1 else m.elapsed + 1;
      if effect.pomodoroEnabled && newTime <= 0 then Completed(m, current, today).(elapsed := 0)
      else m.(elapsed := newTime)
    else if m.rest <= 1 then
      m.(state := Idle, rest := RestResetSeconds(current, m.longBreak), longBreak := false)
    else m.(rest := m.rest - 1)
  }

  /** `n` seconds of the interval with unchanged settings; it stops once the state is idle. */
  function Run(m: Model, s: AppSettings, today: DayId, n: nat): Model {
    if n == 0 then m
    else
      var before := Run(m, s, today, n - 1);
      if before.state == Idle then before else Ticked(before, s, s, today)
  }

  // ----- day rollover -----

  /**
   * Loading: a stored `null` makes the effect throw; a record of today is
   * loaded as it is; a record of another day, or a value that is no record,
   * resets the total to 0 and writes `{today, 0}`; no record at all writes
   * `{today, 0}` and keeps the total.
   */
  lemma DayRollover(m: Model, today: DayId, s: AppSettings)
    ensures Mounted(m, today, s).None? <==> FocusTimerKey in m.store && m.store[FocusTimerKey] == JsonNull
    ensures Mounted(m, today, s).Some? ==> var r := Mounted(m, today, s).value;
      && r.rest == s.restDuration
      && r.state == m.state && r.elapsed == m.elapsed && r.count == m.count && r.longBreak == m.longBreak
      && (FocusTimerKey in m.store || m.total == 0 ==> Synced(r, today))
      && (if FocusTimerKey in m.store && m.store[FocusTimerKey].DayBlob? && m.store[FocusTimerKey].record.date == today
          then r.total == m.store[FocusTimerKey].record.total && r.store == m.store
          else r.store == Persist(m.store, today, 0) && r.total == (if FocusTimerKey in m.store then 0 else m.total))
  {
  }

  /** On a new day the component starts from zero, whatever yesterday's total was. */
  lemma NewDayStartsAtZero(store: Store, yesterday: DayId, today: DayId, total: int, s: AppSettings)
    requires yesterday != today
    requires FocusTimerKey in store && store[FocusTimerKey] == DayBlob(DayRecord(yesterday, total))
    ensures Mounted(Initial(store), today, s).Some?
    ensures Mounted(Initial(store), today, s).value.total == 0
    ensures Mounted(Initial(store), today, s).value.store[FocusTimerKey] == DayBlob(DayRecord(today, 0))
  {
  }

  // ----- focusing -----

  /** Counting up: each tick adds one second to the counter and nothing to the total. */
  lemma {:induction false} RunCountsUp(m: Model, s: AppSettings, today: DayId, n: nat)
    requires m.state == Focusing && !s.pomodoroEnabled
    ensures Run(m, s, today, n) == m.(elapsed := m.elapsed + n)
  {
    if n > 0 {
      RunCountsUp(m, s, today, n - 1);
    }
  }

  /** Counting down: before the counter reaches zero, ticks only lower it. */
  lemma {:induction false} RunCountsDown(m: Model, s: AppSettings, today: DayId, n: nat)
    requires m.state == Focusing && s.pomodoroEnabled && n < m.elapsed
    ensures Run(m, s, today, n) == m.(elapsed := m.elapsed - n)
  {
    if n > 0 {
      RunCountsDown(m, s, today, n - 1);
    }
  }

  /** Start, `n` ticks and End without pomodoro: exactly `n` seconds are credited and stored. */
  lemma CountUpSessionCommits(m: Model, s: AppSettings, today: DayId, n: nat)
    requires !s.pomodoroEnabled
    ensures var f := Run(Started(m, s), s, today, n);
      && f.state == Focusing && f.elapsed == n && f.total == m.total && f.store == m.store
      && var e := Ended(f, s, today);
      && e.total == m.total + n && e.store == Persist(m.store, today, m.total + n)
      && e.state == Idle && e.elapsed == 0 && e.count == m.count
  {
    RunCountsUp(Started(m, s), s, today, n);
  }

  /**
   * Start, `k` ticks and End in pomodoro mode, before the countdown runs out:
   * the `k` seconds spent are credited, i.e. the duration minus what was left.
   */
  lemma CountdownSessionCommitsSpent(m: Model, s: AppSettings, today: DayId, k: nat)
    requires s.pomodoroEnabled && k < s.pomodoroDuration * 60
    ensures var f := Run(Started(m, s), s, today, k);
      && f.state == Focusing && f.elapsed == s.pomodoroDuration * 60 - k && f.total == m.total
      && var e := Ended(f, s, today);
      && e.total == m.total + k && e.store == Persist(m.store, today, m.total + k) && e.state == Idle
  {
    RunCountsDown(Started(m, s), s, today, k);
  }

  /**
   * A pomodoro left to run out: after exactly its duration in ticks the counter
   * is 0, one more pomodoro is counted, the full duration is credited and
   * stored, and the break that starts is long exactly on a multiple of the interval.
   */
  lemma PomodoroRunsOut(m: Model, s: AppSettings, today: DayId)
    requires s.pomodoroEnabled && s.pomodoroDuration >= 1
    ensures var d := s.pomodoroDuration * 60;
      var f := Run(Started(m, s), s, today, d);
      && f.state == Resting && f.elapsed == 0
      && f.count == m.count + 1
      && f.total == m.total + d && f.store == Persist(m.store, today, f.total)
      && f.longBreak == LongBreakDue(m.count + 1, s.longBreakInterval)
      && f.rest == (if f.longBreak then s.longBreak * 60 else s.shortBreak * 60)
  {
    var d := s.pomodoroDuration * 60;
    RunCountsDown(Started(m, s), s, today, d - 1);
  }

  /** The tick before a pomodoro runs out never touches the total or the store. */
  lemma FocusTickKeepsTotal(m: Model, effect: AppSettings, current: AppSettings, today: DayId)
    requires m.state == Focusing
    requires !(effect.pomodoroEnabled && m.elapsed - 1 <= 0)
    ensures Ticked(m, effect, current, today)
      == m.(elapsed := if effect.pomodoroEnabled then m.elapsed - 1 else m.elapsed + 1)
  {
  }

  // ----- resting -----

  /**
   * A break, ticked for any number of seconds, never credits anything: the
   * total, the store and the pomodoro count stay as they were; if it is over,
   * the timer is idle and the long-break flag is cleared.
   */
  lemma {:induction false} RestNeverCommits(m: Model, s: AppSettings, today: DayId, n: nat)
    requires m.state == Resting
    ensures var r := Run(m, s, today, n);
      && r.total == m.total && r.store == m.store && r.count == m.count && r.elapsed == m.elapsed
      && r.state != Focusing
      && (r.state == Idle ==> !r.longBreak)
      && (r.state == Resting ==> r.rest == m.rest - n && r.longBreak == m.longBreak)
      && (n < m.rest ==> r.state == Resting)
  {
    if n > 0 {
      RestNeverCommits(m, s, today, n - 1);
    }
  }

  /** A break of `b >= 1` seconds ends after exactly `b` ticks, and the rest counter is reset for the next one. */
  lemma {:induction false} BreakEndsOnTime(m: Model, s: AppSettings, today: DayId)
    requires m.state == Resting && m.rest >= 1
    ensures var r := Run(m, s, today, m.rest - 1);
      r.state == Resting && r.rest == 1
    ensures var r := Run(m, s, today, m.rest);
      && r.state == Idle && !r.longBreak
      && r.rest == RestResetSeconds(s, m.longBreak) && r.total == m.total
  {
    RestNeverCommits(m, s, today, m.rest - 1);
  }

  /** End-rest credits nothing, and pressing it again changes nothing at all. */
  lemma EndRestCommitsNothing(m: Model, s: AppSettings)
    ensures var r := RestEnded(m, s);
      && r.total == m.total && r.store == m.store && r.count == m.count
      && r.state == Idle && !r.longBreak && r.rest == s.restDuration
      && RestEnded(r, s) == r
  {
  }

  /** The long-break rule with the default interval of 4: pomodoros 1 to 3 give short breaks, the 4th a long one. */
  lemma EveryFourthBreakIsLong(m: Model, s: AppSettings, today: DayId)
    requires s.longBreakInterval == 4 && 0 <= m.count < 4
    ensures Completed(m, s, today).longBreak <==> m.count == 3
    ensures Completed(m, s, today).rest == (if m.count == 3 then s.longBreak * 60 else s.shortBreak * 60)
  {
  }

  // ----- the store -----

  /**
   * Every handler either leaves the store alone or writes `{today, total}`
   * under `focusTimer` and nothing else; the latter exactly when it credits time.
   */
  lemma CommitsAreStored(m: Model, s: AppSettings, today: DayId)
    ensures Ended(m, s, today).store == Persist(m.store, today, Ended(m, s, today).total)
    ensures Rested(m, s, today).store == Persist(m.store, today, Rested(m, s, today).total)
    ensures Completed(m, s, today).store == Persist(m.store, today, Completed(m, s, today).total)
    ensures Synced(Ended(m, s, today), today) && Synced(Rested(m, s, today), today)
    ensures Synced(Completed(m, s, today), today)
    ensures Started(m, s).store == m.store && Started(m, s).total == m.total
    ensures RestEnded(m, s).store == m.store && RestEnded(m, s).total == m.total
  {
  }

  /**
   * The total is only reset when the component loads: a session ended after
   * midnight credits its time on top of the previous day's total and stores
   * the sum under the new date.
   */
  lemma CommitAfterMidnight(store: Store, day: DayId, total: int, s: AppSettings, n: nat)
    requires !s.pomodoroEnabled
    requires FocusTimerKey in store && store[FocusTimerKey] == DayBlob(DayRecord(day, total))
    ensures Mounted(Initial(store), day, s).Some?
    ensures var m := Mounted(Initial(store), day, s).value;
      var e := Ended(Run(Started(m, s), s, day + 1, n), s, day + 1);
      e.store[FocusTimerKey] == DayBlob(DayRecord(day + 1, total + n))
  {
    CountUpSessionCommits(Mounted(Initial(store), day, s).value, s, day + 1, n);
  }

  /**
   * The commit the day rollover evidently intends: the running total only
   * carries over while the stored record is of the day the commit is made
   * on; after midnight the new day's record starts from the seconds credited.
   */
  function CommittedIntended(m: Model, s: AppSettings, today: DayId): Model {
    var sameDay := FocusTimerKey in m.store && m.store[FocusTimerKey].DayBlob?
                   && m.store[FocusTimerKey].record.date == today;
    var total := (if sameDay then m.total else 0) + CommittedSeconds(s, m.elapsed);
    m.(total := total, store := Persist(m.store, today, total), elapsed := 0)
  }

  /** `handleEnd` with the intended commit. */
  function EndedIntended(m: Model, s: AppSettings, today: DayId): Model {
    CommittedIntended(m, s, today).(state := Idle)
  }

  /**
   * With the intended commit, the record written is always the current
   * day's own focused time: on the day the total was loaded it is the same
   * commit as before, and a session ended after midnight stores only its
   * own seconds under the new date.
   */
  lemma IntendedCommitKeepsDaysApart(store: Store, day: DayId, total: int, s: AppSettings, n: nat)
    requires !s.pomodoroEnabled
    requires FocusTimerKey in store && store[FocusTimerKey] == DayBlob(DayRecord(day, total))
    ensures Mounted(Initial(store), day, s).Some?
    ensures var m := Mounted(Initial(store), day, s).value;
      && EndedIntended(Run(Started(m, s), s, day, n), s, day) == Ended(Run(Started(m, s), s, day, n), s, day)
      && EndedIntended(Run(Started(m, s), s, day + 1, n), s, day + 1).store[FocusTimerKey]
           == DayBlob(DayRecord(day + 1, n))
  {
    var m := Mounted(Initial(store), day, s).value;
    assert m.store == store;
    CountUpSessionCommits(m, s, day, n);
    IntendedCommitSameDay(Run(Started(m, s), s, day, n), s, day);
    CountUpSessionCommits(m, s, day + 1, n);
    IntendedCommitNextDay(Run(Started(m, s), s, day + 1, n), s, day + 1);
  }

  /** While the stored record is of the day the commit is made on, the corrected commit is the original one. */
  lemma IntendedCommitSameDay(f: Model, s: AppSettings, today: DayId)
    requires FocusTimerKey in f.store && f.store[FocusTimerKey].DayBlob?
    requires f.store[FocusTimerKey].record.date == today
    ensures EndedIntended(f, s, today) == Ended(f, s, today)
  {
  }

  /** Once the stored record is of an earlier day, the corrected commit stores only the seconds credited. */
  lemma IntendedCommitNextDay(f: Model, s: AppSettings, today: DayId)
    requires FocusTimerKey in f.store && f.store[FocusTimerKey].DayBlob?
    requires f.store[FocusTimerKey].record.date != today
    ensures EndedIntended(f, s, today).store[FocusTimerKey] == DayBlob(DayRecord(today, CommittedSeconds(s, f.elapsed)))
  {
  }

  // ----- the component -----

  /** `PersonalTimer`'s state, updated in place by its handlers and its interval. */
  class Timer {
    var timerState: TimerState
    var elapsedTime: int
    var restTime: int
    var todayTotal: int
    var pomodoroCount: int
    var isLongBreak: bool
    var store: Store

    function View(): Model
      reads this
    {
      Model(timerState, elapsedTime, restTime, todayTotal, pomodoroCount, isLongBreak, store)
    }

    constructor(store: Store)
      ensures View() == Initial(store)
    {
      timerState := Idle;
      elapsedTime := 0;
      restTime := 600;
      todayTotal := 0;
      pomodoroCount := 0;
      isLongBreak := false;
      this.store := store;
    }

    /** The load effect; `ok` is false when it throws, and then nothing has changed. */
    method Mount(today: DayId, s: AppSettings) returns (ok: bool)
      modifies this
      ensures ok <==> Mounted(old(View()), today, s).Some?
      ensures ok ==> View() == Mounted(old(View()), today, s).value
      ensures !ok ==> View() == old(View())
      ensures ok && (FocusTimerKey in old(store) || old(todayTotal) == 0) ==> Synced(View(), today)
    {
      if FocusTimerKey in store {
        var data := store[FocusTimerKey];
        if data.JsonNull? {
          return false;
        }
        if data.DayBlob? && data.record.date == today {
          todayTotal := data.record.total;
        } else {
          store := Persist(store, today, 0);
          todayTotal := 0;
        }
      } else {
        store := Persist(store, today, 0);
      }
      restTime := s.restDuration;
      DayRollover(old(View()), today, s);
      ok := true;
    }

    method HandleStart(s: AppSettings)
      modifies this
      ensures View() == Started(old(View()), s)
    {
      if s.pomodoroEnabled {
        elapsedTime := s.pomodoroDuration * 60;
      } else {
        elapsedTime := 0;
      }
      timerState := Focusing;
    }

    method HandleEnd(s: AppSettings, today: DayId)
      modifies this
      ensures View() == Ended(old(View()), s, today)
      ensures Synced(View(), today)
    {
      var timeToAdd := if s.pomodoroEnabled then s.pomodoroDuration * 60 - elapsedTime else elapsedTime;
      var newTotal := todayTotal + timeToAdd;
      todayTotal := newTotal;
      store := Persist(store, today, newTotal);
      elapsedTime := 0;
      timerState := Idle;
    }

    method HandleRest(s: AppSettings, today: DayId)
      modifies this
      ensures View() == Rested(old(View()), s, today)
      ensures Synced(View(), today)
    {
      var timeToAdd := if s.pomodoroEnabled then s.pomodoroDuration * 60 - elapsedTime else elapsedTime;
      var newTotal := todayTotal + timeToAdd;
      todayTotal := newTotal;
      store := Persist(store, today, newTotal);
      elapsedTime := 0;
      restTime := s.restDuration;
      timerState := Resting;
    }

    method HandleEndRest(s: AppSettings)
      modifies this
      ensures View() == RestEnded(old(View()), s)
    {
      restTime := s.restDuration;
      isLongBreak := false;
      timerState := Idle;
    }

    method HandlePomodoroComplete(s: AppSettings, today: DayId)
      modifies this
      ensures View() == Completed(old(View()), s, today)
      ensures Synced(View(), today)
    {
      var newCount := pomodoroCount + 1;
      pomodoroCount := newCount;
      var newTotal := todayTotal + s.pomodoroDuration * 60;
      todayTotal := newTotal;
      store := Persist(store, today, newTotal);
      var shouldBeLongBreak := LongBreakDue(newCount, s.longBreakInterval);
      isLongBreak := shouldBeLongBreak;
      restTime := BreakSeconds(s, shouldBeLongBreak);
      timerState := Resting;
    }

    /** One call of the interval callback; the interval only runs while focusing or resting. */
    method Tick(effect: AppSettings, current: AppSettings, today: DayId)
      requires timerState != Idle
      modifies this
      ensures View() == Ticked(old(View()), effect, current, today)
    {
      if timerState == Focusing {
        var newTime := if effect.pomodoroEnabled then elapsedTime - 1 else elapsedTime + 1;
        if effect.pomodoroEnabled && newTime <= 0 {
          HandlePomodoroComplete(current, today);
          elapsedTime := 0;
        } else {
          elapsedTime := newTime;
        }
      } else if restTime <= 1 {
        timerState := Idle;
        var resetTime := RestResetSeconds(current, isLongBreak);
        restTime := resetTime;
        isLongBreak := false;
      } else {
        restTime := restTime - 1;
      }
    }
  }
}
