/**
 * Application settings: the defaults, `getSettings` (stored fields merged over
 * the defaults), the `NumberInput` stepper/text field, and the settings page
 * whose handlers save a new record on every change.
 */
module Settings {
  import opened Wrappers
  import opened Text
  import opened Storage

  /** Durations: `restDuration` in seconds, the pomodoro ones in minutes. */
  datatype AppSettings = AppSettings(
    nickname: string,
    restDuration: int,
    pomodoroEnabled: bool,
    pomodoroDuration: int,
    shortBreak: int,
    longBreak: int,
    longBreakInterval: int)

  /** The default nickname, "나" ("me"). */
  const DefaultNickname := "\U{B098}"

  const DefaultSettings := AppSettings(DefaultNickname, 600, false, 25, 5, 15, 4)

  /** `{ ...DEFAULT_SETTINGS, ...stored }` for a stored settings record. */
  function MergeOverDefaults(p: StoredSettings): (r: AppSettings)
    ensures p == StoredSettings(None, None, None, None, None, None, None) ==> r == DefaultSettings
    ensures && (p.nickname.Some? ==> r.nickname == p.nickname.value)
            && (p.restDuration.Some? ==> r.restDuration == p.restDuration.value)
            && (p.pomodoroEnabled.Some? ==> r.pomodoroEnabled == p.pomodoroEnabled.value)
            && (p.pomodoroDuration.Some? ==> r.pomodoroDuration == p.pomodoroDuration.value)
            && (p.shortBreak.Some? ==> r.shortBreak == p.shortBreak.value)
            && (p.longBreak.Some? ==> r.longBreak == p.longBreak.value)
            && (p.longBreakInterval.Some? ==> r.longBreakInterval == p.longBreakInterval.value)
  {
    AppSettings(
      p.nickname.GetOr(DefaultSettings.nickname),
      p.restDuration.GetOr(DefaultSettings.restDuration),
      p.pomodoroEnabled.GetOr(DefaultSettings.pomodoroEnabled),
      p.pomodoroDuration.GetOr(DefaultSettings.pomodoroDuration),
      p.shortBreak.GetOr(DefaultSettings.shortBreak),
      p.longBreak.GetOr(DefaultSettings.longBreak),
      p.longBreakInterval.GetOr(DefaultSettings.longBreakInterval))
  }

  /** The record `saveSettings` writes: every field present. */
  function ToStored(s: AppSettings): (p: StoredSettings)
    ensures MergeOverDefaults(p) == s
  {
    StoredSettings(Some(s.nickname), Some(s.restDuration), Some(s.pomodoroEnabled),
      Some(s.pomodoroDuration), Some(s.shortBreak), Some(s.longBreak), Some(s.longBreakInterval))
  }

  /**
   * `getSettings()`. Spreading a stored value that is not a settings record
   * (an array, a number, a record of another shape) contributes none of the
   * seven fields, so the defaults come back.
   */
  function GetSettings(store: Store): (r: AppSettings)
    ensures AppSettingsKey !in store ==> r == DefaultSettings
    ensures AppSettingsKey in store && !store[AppSettingsKey].SettingsBlob? ==> r == DefaultSettings
    ensures AppSettingsKey in store && store[AppSettingsKey].SettingsBlob? ==>
      r == MergeOverDefaults(store[AppSettingsKey].settings)
  {
    if AppSettingsKey in store then
      match store[AppSettingsKey]
      case SettingsBlob(p) => MergeOverDefaults(p)
      case _ => DefaultSettings
    else DefaultSettings
  }

  /** What `saveSettings(s)` leaves in the store. */
  function SaveTo(store: Store, s: AppSettings): (r: Store)
    ensures r.Keys == store.Keys + {AppSettingsKey}
    ensures forall k :: k in store && k != AppSettingsKey ==> r[k] == store[k]
  {
    store[AppSettingsKey := SettingsBlob(ToStored(s))]
  }

  /** A stored field overrides its default; a missing field keeps the default. */
  lemma GetSettingsFieldByField(store: Store, p: StoredSettings)
    requires AppSettingsKey in store && store[AppSettingsKey] == SettingsBlob(p)
    ensures var s := GetSettings(store);
      && (if p.nickname.Some? then s.nickname == p.nickname.value else s.nickname == DefaultSettings.nickname)
      && (if p.restDuration.Some? then s.restDuration == p.restDuration.value else s.restDuration == 600)
      && (if p.pomodoroEnabled.Some? then s.pomodoroEnabled == p.pomodoroEnabled.value else !s.pomodoroEnabled)
      && (if p.pomodoroDuration.Some? then s.pomodoroDuration == p.pomodoroDuration.value else s.pomodoroDuration == 25)
      && (if p.shortBreak.Some? then s.shortBreak == p.shortBreak.value else s.shortBreak == 5)
      && (if p.longBreak.Some? then s.longBreak == p.longBreak.value else s.longBreak == 15)
      && (if p.longBreakInterval.Some? then s.longBreakInterval == p.longBreakInterval.value else s.longBreakInterval == 4)
  {
  }

  /** What `saveSettings` writes, `getSettings` reads back unchanged. */
  lemma GetSettingsAfterSave(store: Store, s: AppSettings)
    ensures GetSettings(SaveTo(store, s)) == s
  {
  }

  // ----- NumberInput -----

  /** The bounds and step of one `NumberInput`. */
  datatype NumberField = NumberField(min: int, max: int, step: int)

  /** Rest duration, edited in minutes. */
  const RestMinutesField := NumberField(1, 120, 5)
  const PomodoroDurationField := NumberField(1, 240, 5)
  const ShortBreakField := NumberField(1, 60, 5)
  const LongBreakField := NumberField(1, 120, 5)
  const LongBreakIntervalField := NumberField(2, 20, 1)

  /** What the user does to a `NumberInput`: the minus button, the plus button, or typing. */
  datatype InputEvent = DecrementClick | IncrementClick | TextEdited(text: string)

  function Max(a: int, b: int): int { if a < b then b else a }
  function Min(a: int, b: int): int { if a < b then a else b }

  /**
   * The value a `NumberInput` passes to `onChange`, or `None` when it does not
   * call it (typed text that `parseInt` reads as `NaN`). The buttons clamp to
   * the bounds; typed text is clamped from below only.
   */
  function NumberInputChange(f: NumberField, value: int, e: InputEvent): (r: Option<int>)
    ensures e.DecrementClick? ==> r.Some? && r.value >= f.min && r.value >= value - f.step
    ensures e.DecrementClick? ==> r.value == f.min || r.value == value - f.step
    ensures e.IncrementClick? ==> r.Some? && r.value <= f.max && r.value <= value + f.step
    ensures e.IncrementClick? ==> r.value == f.max || r.value == value + f.step
    ensures e == TextEdited("") ==> r == Some(f.min)
    ensures e.TextEdited? && e.text != "" ==> (r.None? <==> ParseInt(e.text).None?)
    ensures e.TextEdited? && e.text != "" && ParseInt(e.text).Some? ==>
      r == Some(Max(f.min, ParseInt(e.text).value))
  {
    match e
    case DecrementClick => Some(Max(f.min, value - f.step))
    case IncrementClick => Some(Min(f.max, value + f.step))
    case TextEdited(text) =>
      if text == "" then Some(f.min)
      else
        match ParseInt(text)
        case Some(n) => Some(Max(f.min, n))
        case None => None
  }

  /** From a value within the bounds, the buttons never leave them. */
  lemma ButtonsStayInBounds(f: NumberField, value: int, e: InputEvent)
    requires f.min <= value <= f.max && f.step >= 0
    requires e.DecrementClick? || e.IncrementClick?
    ensures var r := NumberInputChange(f, value, e); r.Some? && f.min <= r.value <= f.max
  {
  }

  /**
   * Typing the decimal text of any number `n` sets `max(min, n)`: there is no
   * upper clamp, and retyping the shown value (at least `min`) changes nothing.
   */
  lemma TypedNumber(f: NumberField, value: int, n: int)
    ensures NumberInputChange(f, value, TextEdited(IntToString(n))) == Some(Max(f.min, n))
  {
    ParseIntOfString(n);
  }

  /** The minute value the rest-duration input shows for a duration in seconds. */
  function RestMinutes(s: AppSettings): int {
    s.restDuration / 60
  }

  /** A whole number of minutes saved as seconds is shown again as that number. */
  lemma RestMinutesRoundTrip(s: AppSettings, minutes: int)
    ensures RestMinutes(s.(restDuration := minutes * 60)) == minutes
    ensures s.restDuration % 60 == 0 ==> RestMinutes(s) * 60 == s.restDuration
  {
  }

  // ----- the settings page -----

  /** The settings page: its `settings` state and the store it saves to. */
  class SettingsPage {
    var settings: AppSettings
    var store: Store

    /** The page shows what a fresh `getSettings()` would read. */
    ghost predicate InSync()
      reads this
    {
      GetSettings(store) == settings
    }

    /** Mounting: the state starts as the defaults. */
    constructor(store: Store)
      ensures settings == DefaultSettings && this.store == store
    {
      settings := DefaultSettings;
      this.store := store;
    }

    /** The load effect: a stored record is merged over the defaults. */
    method Load()
      modifies this
      ensures store == old(store)
      ensures AppSettingsKey in store ==> settings == GetSettings(store)
      ensures AppSettingsKey !in store ==> settings == old(settings)
      ensures old(settings) == DefaultSettings ==> InSync()
    {
      if AppSettingsKey in store {
        settings := match store[AppSettingsKey]
          case SettingsBlob(p) => MergeOverDefaults(p)
          case _ => DefaultSettings;
      }
    }

    /** `saveSettings`: replace the state and write the whole record. */
    method Save(n: AppSettings)
      modifies this
      ensures settings == n && store == SaveTo(old(store), n)
      ensures InSync()
    {
      settings := n;
      store := SaveTo(store, n);
      GetSettingsAfterSave(old(store), n);
    }

    /** Editing the nickname; an emptied field saves the default nickname. */
    method ChangeNickname(value: string)
      modifies this
      ensures settings == old(settings).(nickname := if value == "" then DefaultNickname else value)
      ensures settings.nickname != ""
      ensures store == SaveTo(old(store), settings) && InSync()
    {
      Save(settings.(nickname := if value == "" then DefaultNickname else value));
    }

    /** The pomodoro switch flips only `pomodoroEnabled`. */
    method TogglePomodoro()
      modifies this
      ensures settings == old(settings).(pomodoroEnabled := !old(settings).pomodoroEnabled)
      ensures store == SaveTo(old(store), settings) && InSync()
    {
      Save(settings.(pomodoroEnabled := !settings.pomodoroEnabled));
    }

    /** The rest-duration input works in minutes and saves seconds. */
    method EditRestDuration(e: InputEvent)
      modifies this
      ensures var r := NumberInputChange(RestMinutesField, RestMinutes(old(settings)), e);
        if r.Some? then
          && settings == old(settings).(restDuration := r.value * 60)
          && RestMinutes(settings) == r.value && settings.restDuration % 60 == 0
          && store == SaveTo(old(store), settings) && InSync()
        else settings == old(settings) && store == old(store)
    {
      var r := NumberInputChange(RestMinutesField, settings.restDuration / 60, e);
      if r.Some? {
        Save(settings.(restDuration := r.value * 60));
        RestMinutesRoundTrip(old(settings), r.value);
      }
    }

    method EditPomodoroDuration(e: InputEvent)
      modifies this
      ensures var r := NumberInputChange(PomodoroDurationField, old(settings).pomodoroDuration, e);
        if r.Some? then settings == old(settings).(pomodoroDuration := r.value) && store == SaveTo(old(store), settings)
        else settings == old(settings) && store == old(store)
    {
      var r := NumberInputChange(PomodoroDurationField, settings.pomodoroDuration, e);
      if r.Some? {
        Save(settings.(pomodoroDuration := r.value));
      }
    }

    method EditShortBreak(e: InputEvent)
      modifies this
      ensures var r := NumberInputChange(ShortBreakField, old(settings).shortBreak, e);
        if r.Some? then settings == old(settings).(shortBreak := r.value) && store == SaveTo(old(store), settings)
        else settings == old(settings) && store == old(store)
    {
      var r := NumberInputChange(ShortBreakField, settings.shortBreak, e);
      if r.Some? {
        Save(settings.(shortBreak := r.value));
      }
    }

    method EditLongBreak(e: InputEvent)
      modifies this
      ensures var r := NumberInputChange(LongBreakField, old(settings).longBreak, e);
        if r.Some? then settings == old(settings).(longBreak := r.value) && store == SaveTo(old(store), settings)
        else settings == old(settings) && store == old(store)
    {
      var r := NumberInputChange(LongBreakField, settings.longBreak, e);
      if r.Some? {
        Save(settings.(longBreak := r.value));
      }
    }

    method EditLongBreakInterval(e: InputEvent)
      modifies this
      ensures var r := NumberInputChange(LongBreakIntervalField, old(settings).longBreakInterval, e);
        if r.Some? then settings == old(settings).(longBreakInterval := r.value) && store == SaveTo(old(store), settings)
        else settings == old(settings) && store == old(store)
    {
      var r := NumberInputChange(LongBreakIntervalField, settings.longBreakInterval, e);
      if r.Some? {
        Save(settings.(longBreakInterval := r.value));
      }
    }

    /** "Reset to defaults" saves exactly the defaults. */
    method ResetToDefaults()
      modifies this
      ensures settings == DefaultSettings && store == SaveTo(old(store), DefaultSettings)
      ensures InSync()
    {
      Save(DefaultSettings);
    }
  }
}
