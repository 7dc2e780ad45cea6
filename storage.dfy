/**
 * The browser's local key-value store, seen as a map from keys to the
 * already-parsed JSON records the application keeps under them.
 */
module Storage {
  import opened Wrappers

  /** A calendar day (what `new Date().toDateString()` identifies), as an integer. */
  type DayId = int

  /** The `appSettings` record as stored: any field may be missing. */
  datatype StoredSettings = StoredSettings(
    nickname: Option<string>,
    restDuration: Option<int>,
    pomodoroEnabled: Option<bool>,
    pomodoroDuration: Option<int>,
    shortBreak: Option<int>,
    longBreak: Option<int>,
    longBreakInterval: Option<int>)

  /** The `focusTimer` record: the focused seconds of one day. */
  datatype DayRecord = DayRecord(date: DayId, total: int)

  /** One entry of the `groupRooms` list. */
  datatype Room = Room(code: string, name: string)

  /**
   * A parsed JSON value under some key. `JsonNull` is the text `null`, on
   * which reading a property throws; `OtherJson` is any other value of none
   * of the three shapes (a number, a string, an object without those fields).
   */
  datatype Blob =
    | SettingsBlob(settings: StoredSettings)
    | DayBlob(record: DayRecord)
    | RoomsBlob(rooms: seq<Room>)
    | JsonNull
    | OtherJson

  type Store = map<string, Blob>

  const AppSettingsKey := "appSettings"
  const FocusTimerKey := "focusTimer"
  const GroupRoomsKey := "groupRooms"
}
