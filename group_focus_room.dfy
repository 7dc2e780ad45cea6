/**
 * The group focus room: the same idle/focusing/resting machine as the
 * personal timer, but nothing is persisted. The user's own running total
 * `myTotalTime` grows by one on every count-up tick and again by the whole
 * counter when the session is ended or turned into a rest, so count-up time
 * is credited twice. The other participants are a fixed list that nothing
 * changes, and the room's name is looked up in the stored `groupRooms` list.
 */
module GroupFocusRoom {
  import opened Wrappers
  import opened Storage
  import opened Settings
  import opened TimerCore

  datatype Participant = Participant(id: string, name: string, status: TimerState, totalTime: int)

  /** The three placeholder participants the room shows ("참여자 1" to "참여자 3"). */
  const PlaceholderParticipants: seq<Participant> := [
    Participant("2", "\U{CC38}\U{C5EC}\U{C790} 1", Focusing, 3600),
    Participant("3", "\U{CC38}\U{C5EC}\U{C790} 2", Resting, 1800),
    Participant("4", "\U{CC38}\U{C5EC}\U{C790} 3", Idle, 5400)
  ]

  /** `timerState`, `elapsedTime`, `restTime`, `myTotalTime`, `pomodoroCount`, `isLongBreak`, `roomName`. */
  datatype Model = Model(
    state: TimerState,
    elapsed: int,
    rest: int,
    myTotal: int,
    count: int,
    longBreak: bool,
    roomName: string)

  function Initial(): Model {
    Model(Idle, 0, 600, 0, 0, false, "")
  }

  /** `rooms.find(r => r.code === code)`: the first room with that code. */
  function FindRoom(rooms: seq<Room>, code: string): (r: Option<Room>)
    ensures r.Some? ==> r.value in rooms && r.value.code == code
    ensures r.Some? ==>
      exists i :: 0 <= i < |rooms| && rooms[i] == r.value && (forall j :: 0 <= j < i ==> rooms[j].code != code)
    ensures r.None? <==> forall room :: room in rooms ==> room.code != code
  {
    if rooms == [] then None
    else if rooms[0].code == code then Some(rooms[0])
    else
      var rest := FindRoom(rooms[1..], code);
      if rest.Some? then
        ghost var i :| 0 <= i < |rooms[1..]| && rooms[1..][i] == rest.value
          && forall j :: 0 <= j < i ==> rooms[1..][j].code != code;
        assert rooms[i + 1] == rest.value;
        rest
      else rest
  }

  /**
   * The load effect. The stored `groupRooms` value (an empty list when absent)
   * is searched for the room code; `None` when that value is not a list
   * (`null` included), where the source's `rooms.find` throws.
   */
  function Mounted(m: Model, store: Store, roomCode: string, s: AppSettings): Option<Model> {
    var rooms :=
      if GroupRoomsKey !in store then Some([])
      else match store[GroupRoomsKey]
        case RoomsBlob(rs) => Some(rs)
        case _ => None;
    match rooms
    case None => None
    case Some(rs) =>
      var found := FindRoom(rs, roomCode);
      var named := if found.Some? then m.(roomName := found.value.name) else m;
      Some(named.(rest := s.restDuration))
  }

  function Started(m: Model, s: AppSettings): Model {
    m.(elapsed := FocusStartValue(s), state := Focusing)
  }

  function Ended(m: Model, s: AppSettings): Model {
    m.(myTotal := m.myTotal + CommittedSeconds(s, m.elapsed), elapsed := 0, state := Idle)
  }

  function Rested(m: Model, s: AppSettings): Model {
    m.(myTotal := m.myTotal + CommittedSeconds(s, m.elapsed), elapsed := 0,
       rest := s.restDuration, state := Resting)
  }

  function RestEnded(m: Model, s: AppSettings): Model {
    m.(rest := s.restDuration, longBreak := false, state := Idle)
  }

  function Completed(m: Model, s: AppSettings): Model {
    var count := m.count + 1;
    var long := LongBreakDue(count, s.longBreakInterval);
    m.(count := count, myTotal := m.myTotal + s.pomodoroDuration * 60,
       longBreak := long, rest := BreakSeconds(s, long), state := Resting)
  }

  /** One tick; `effect` and `current` as for the personal timer. */
  function Ticked(m: Model, effect: AppSettings, current: AppSettings): Model
    requires m.state != Idle
  {
    if m.state == Focusing then
      var newTime := if effect.pomodoroEnabled then m.elapsed - 1 else m.elapsed + 1;
      var counted := if !effect.pomodoroEnabled then m.(myTotal := m.myTotal + 1) else m;
      if effect.pomodoroEnabled && newTime <= 0 then Completed(counted, current).(elapsed := 0)
      else counted.(elapsed := newTime)
    else if m.rest <= 1 then
      m.(state := Idle, rest := RestResetSeconds(current, m.longBreak), longBreak := false)
    else m.(rest := m.rest - 1)
  }

  /** `n` seconds of the interval with unchanged settings; it stops once the state is idle. */
  function Run(m: Model, s: AppSettings, n: nat): Model {
    if n == 0 then m
    else
      var before := Run(m, s, n - 1);
      if before.state == Idle then before else Ticked(before, s, s)
  }

  /** `getStatusText`: the label of a participant's state. */
  function StatusText(st: TimerState): (text: string)
    ensures text == "\U{C9D1}\U{C911}" <==> st == Focusing
    ensures text == "\U{D734}\U{C2DD}" <==> st == Resting
    ensures text == "\U{B300}\U{AE30}" <==> st == Idle
  {
    match st
    case Focusing => "\U{C9D1}\U{C911}"
    case Resting => "\U{D734}\U{C2DD}"
    case Idle => "\U{B300}\U{AE30}"
  }

  /** Different states get different labels. */
  lemma StatusTextDistinct(a: TimerState, b: TimerState)
    ensures StatusText(a) == StatusText(b) <==> a == b
  {
    if a != b {
      assert StatusText(a)[0] != StatusText(b)[0];
    }
  }

  // ----- lemmas -----

  /** Counting up: every tick adds one second to the counter and one to `myTotalTime`. */
  lemma {:induction false} RunCountsUp(m: Model, s: AppSettings, n: nat)
    requires m.state == Focusing && !s.pomodoroEnabled
    ensures Run(m, s, n) == m.(elapsed := m.elapsed + n, myTotal := m.myTotal + n)
  {
    if n > 0 {
      RunCountsUp(m, s, n - 1);
    }
  }

  /** Counting down: before the counter reaches zero, ticks lower it and credit nothing. */
  lemma {:induction false} RunCountsDown(m: Model, s: AppSettings, n: nat)
    requires m.state == Focusing && s.pomodoroEnabled && n < m.elapsed
    ensures Run(m, s, n) == m.(elapsed := m.elapsed - n)
  {
    if n > 0 {
      RunCountsDown(m, s, n - 1);
    }
  }

  /**
   * Start, `n` count-up ticks, then End or Rest: `myTotalTime` rises by `2n`,
   * `n` from the ticks and `n` again from the commit.
   */
  lemma CountUpSessionCountsTwice(m: Model, s: AppSettings, n: nat)
    requires !s.pomodoroEnabled
    ensures var f := Run(Started(m, s), s, n);
      && f.state == Focusing && f.elapsed == n && f.myTotal == m.myTotal + n
      && Ended(f, s).myTotal == m.myTotal + 2 * n && Ended(f, s).state == Idle
      && Rested(f, s).myTotal == m.myTotal + 2 * n && Rested(f, s).state == Resting
  {
    RunCountsUp(Started(m, s), s, n);
  }

  /**
   * In pomodoro mode the ticks credit nothing until the countdown runs out;
   * then exactly the duration is credited, once, and a break starts.
   */
  lemma PomodoroCreditsOnce(m: Model, s: AppSettings, k: nat)
    requires s.pomodoroEnabled && s.pomodoroDuration >= 1 && k < s.pomodoroDuration * 60
    ensures Run(Started(m, s), s, k).myTotal == m.myTotal
    ensures Ended(Run(Started(m, s), s, k), s).myTotal == m.myTotal + k
    ensures var f := Run(Started(m, s), s, s.pomodoroDuration * 60);
      && f.state == Resting && f.elapsed == 0
      && f.myTotal == m.myTotal + s.pomodoroDuration * 60
      && f.count == m.count + 1
      && f.longBreak == LongBreakDue(m.count + 1, s.longBreakInterval)
      && f.rest == (if f.longBreak then s.longBreak * 60 else s.shortBreak * 60)
  {
    RunCountsDown(Started(m, s), s, k);
    RunCountsDown(Started(m, s), s, s.pomodoroDuration * 60 - 1);
  }

  /** End-rest leaves the total and the pomodoro count alone. */
  lemma EndRestKeepsTotals(m: Model, s: AppSettings)
    ensures var r := RestEnded(m, s);
      r.myTotal == m.myTotal && r.count == m.count && r.state == Idle && !r.longBreak
  {
  }

  /** A break, ticked for any number of seconds, credits nothing. */
  lemma {:induction false} RestCreditsNothing(m: Model, s: AppSettings, n: nat)
    requires m.state == Resting
    ensures var r := Run(m, s, n);
      r.myTotal == m.myTotal && r.count == m.count && r.state != Focusing
  {
    if n > 0 {
      RestCreditsNothing(m, s, n - 1);
    }
  }

  /** The seconds `handleEnd`/`handleRest` should credit: only what the ticks have not already counted. */
  function UncountedSeconds(s: AppSettings, counter: int): int {
    if s.pomodoroEnabled then CommittedSeconds(s, counter) else 0
  }

  /** `handleEnd` crediting each focused second once. */
  function EndedIntended(m: Model, s: AppSettings): Model {
    m.(myTotal := m.myTotal + UncountedSeconds(s, m.elapsed), elapsed := 0, state := Idle)
  }

  /** `handleRest` crediting each focused second once. */
  function RestedIntended(m: Model, s: AppSettings): Model {
    m.(myTotal := m.myTotal + UncountedSeconds(s, m.elapsed), elapsed := 0,
       rest := s.restDuration, state := Resting)
  }

  /**
   * With the corrected commit, a session of `k` focused seconds ended or
   * turned into a rest before any pomodoro runs out raises `myTotalTime` by
   * exactly `k`, counting up or down.
   */
  lemma IntendedSessionCountsOnce(m: Model, s: AppSettings, k: nat)
    requires !s.pomodoroEnabled || k < s.pomodoroDuration * 60
    ensures EndedIntended(Run(Started(m, s), s, k), s).myTotal == m.myTotal + k
    ensures RestedIntended(Run(Started(m, s), s, k), s).myTotal == m.myTotal + k
  {
    if s.pomodoroEnabled {
      RunCountsDown(Started(m, s), s, k);
    } else {
      RunCountsUp(Started(m, s), s, k);
    }
  }

  /** Loading names the room after the first stored room with the code, and reads the rest duration. */
  lemma MountFindsRoom(m: Model, rooms: seq<Room>, roomCode: string, s: AppSettings, i: nat)
    requires i < |rooms| && rooms[i].code == roomCode
    requires forall j :: 0 <= j < i ==> rooms[j].code != roomCode
    ensures Mounted(m, map[GroupRoomsKey := RoomsBlob(rooms)], roomCode, s)
      == Some(m.(roomName := rooms[i].name, rest := s.restDuration))
  {
    var found := FindRoom(rooms, roomCode);
    assert found.Some?;
    var k :| 0 <= k < |rooms| && rooms[k] == found.value
      && forall j :: 0 <= j < k ==> rooms[j].code != roomCode;
    assert k == i;
  }

  // ----- the component -----

  /** `GroupFocusRoom`'s state. It holds no store: nothing here can write one. */
  class FocusRoom {
    const participants: seq<Participant> := PlaceholderParticipants
    var timerState: TimerState
    var elapsedTime: int
    var restTime: int
    var myTotalTime: int
    var pomodoroCount: int
    var isLongBreak: bool
    var roomName: string

    function View(): Model
      reads this
    {
      Model(timerState, elapsedTime, restTime, myTotalTime, pomodoroCount, isLongBreak, roomName)
    }

    constructor()
      ensures View() == Initial() && participants == PlaceholderParticipants
    {
      timerState := Idle;
      elapsedTime := 0;
      restTime := 600;
      myTotalTime := 0;
      pomodoroCount := 0;
      isLongBreak := false;
      roomName := "";
    }

    /** The load effect; `ok` is false where the source throws. */
    method Mount(store: Store, roomCode: string, s: AppSettings) returns (ok: bool)
      modifies this
      ensures var r := Mounted(old(View()), store, roomCode, s);
        ok == r.Some? && (ok ==> View() == r.value)
      ensures !ok ==> View() == old(View())
    {
      var rooms: seq<Room>;
      if GroupRoomsKey !in store {
        rooms := [];
      } else if store[GroupRoomsKey].RoomsBlob? {
        rooms := store[GroupRoomsKey].rooms;
      } else {
        return false;
      }
      var room := FindRoom(rooms, roomCode);
      if room.Some? {
        roomName := room.value.name;
      }
      restTime := s.restDuration;
      ok := true;
    }

    method HandleStart(s: AppSettings)
      modifies this
      ensures View() == Started(old(View()), s)
    {
      if s.pomodoroEnabled {
        elapsedTime := s.pomodoroDuration * 60;
      } else {
        elapsedTime := 0;
      }
      timerState := Focusing;
    }

    method HandleEnd(s: AppSettings)
      modifies this
      ensures View() == Ended(old(View()), s)
    {
      var timeToAdd := if s.pomodoroEnabled then s.pomodoroDuration * 60 - elapsedTime else elapsedTime;
      myTotalTime := myTotalTime + timeToAdd;
      elapsedTime := 0;
      timerState := Idle;
    }

    method HandleRest(s: AppSettings)
      modifies this
      ensures View() == Rested(old(View()), s)
    {
      var timeToAdd := if s.pomodoroEnabled then s.pomodoroDuration * 60 - elapsedTime else elapsedTime;
      myTotalTime := myTotalTime + timeToAdd;
      elapsedTime := 0;
      restTime := s.restDuration;
      timerState := Resting;
    }

    method HandleEndRest(s: AppSettings)
      modifies this
      ensures View() == RestEnded(old(View()), s)
    {
      restTime := s.restDuration;
      isLongBreak := false;
      timerState := Idle;
    }

    method HandlePomodoroComplete(s: AppSettings)
      modifies this
      ensures View() == Completed(old(View()), s)
    {
      var newCount := pomodoroCount + 1;
      pomodoroCount := newCount;
      myTotalTime := myTotalTime + s.pomodoroDuration * 60;
      var shouldBeLongBreak := LongBreakDue(newCount, s.longBreakInterval);
      isLongBreak := shouldBeLongBreak;
      restTime := BreakSeconds(s, shouldBeLongBreak);
      timerState := Resting;
    }

    method Tick(effect: AppSettings, current: AppSettings)
      requires timerState != Idle
      modifies this
      ensures View() == Ticked(old(View()), effect, current)
    {
      if timerState == Focusing {
        var newTime := if effect.pomodoroEnabled then elapsedTime - 1 else elapsedTime + 1;
        if !effect.pomodoroEnabled {
          myTotalTime := myTotalTime + 1;
        }
        if effect.pomodoroEnabled && newTime <= 0 {
          HandlePomodoroComplete(current);
          elapsedTime := 0;
        } else {
          elapsedTime := newTime;
        }
      } else if restTime <= 1 {
        timerState := Idle;
        var resetTime := RestResetSeconds(current, isLongBreak);
        restTime := resetTime;
        isLongBreak := false;
      } else {
        restTime := restTime - 1;
      }
    }
  }
}
