/**
 * The countdown of src/views/screens/HomeScreen.js: start, one tick per
 * second, and stop (by the button, or by the tick that reaches the end).
 * Each tick is one step; the one-second scheduling is not modelled. The clock
 * reading taken at start is a parameter, and the start and end sounds are
 * left out (they change no state).
 */
module HomeTimer {
  import opened Wrappers
  import opened TimeFormatter
  import opened SessionModel
  import opened SessionController

  /** TOTAL_TIME, in seconds. */
  const TotalTime: int := 300

  /** The end instant stopMeditation computes from the start and the seconds still left. */
  function EndTime(start: int, timeLeft: int, completed: bool): (end: int)
    ensures completed ==> end == start + TotalTime * 1000
    ensures 0 <= timeLeft <= TotalTime ==> start <= end <= start + TotalTime * 1000
  {
    start + (if completed then TotalTime * 1000 else (TotalTime - timeLeft) * 1000)
  }

  /** actualDuration: the seconds reported in the "Session saved" alert. */
  function ActualDuration(timeLeft: int, completed: bool): (secs: int)
    ensures forall start :: secs * 1000 == EndTime(start, timeLeft, completed) - start
  {
    if completed then TotalTime else TotalTime - timeLeft
  }

  /** The record stopMeditation saves for a session started at `start` with `timeLeft` seconds still to go. */
  function RecordAtStop(username: string, start: int, timeLeft: int, completed: bool): (r: StoredSession)
    ensures r.username == username && r.completed == completed
    ensures r.date == EndTime(start, timeLeft, completed)
  {
    ToStorageObject(Session(username, start, EndTime(start, timeLeft, completed), completed))
  }

  /** The stored duration is exactly the text the alert shows. */
  lemma AlertMatchesStoredDuration(username: string, start: int, timeLeft: int, completed: bool)
    ensures RecordAtStop(username, start, timeLeft, completed).duration == FormatSeconds(ActualDuration(timeLeft, completed))
  {
    var s := Session(username, start, EndTime(start, timeLeft, completed), completed);
    var d := ActualDuration(timeLeft, completed);
    assert s.endTime - s.startTime == d * 1000;
    assert DurationSeconds(s) == d;
  }

  /**
   * Every completed record the timer saves (the one a final Tick saves) lasts
   * the full five minutes: it ends 300 000 ms after its start and its duration
   * reads "5:00", whatever the countdown showed.
   */
  lemma CompletedRecordIsFullLength(username: string, start: int, timeLeft: int)
    ensures RecordAtStop(username, start, timeLeft, true).date == start + TotalTime * 1000
    ensures RecordAtStop(username, start, timeLeft, true).duration == "5:00"
  {
    AlertMatchesStoredDuration(username, start, timeLeft, true);
    FormatSecondsExamples();
  }

  /** What the user is told when a stop is requested. */
  datatype Alert =
    | NotStartedProperly        // "Oops!": no start instant, nothing saved
    | SessionSaved(duration: string)  // "Meditation session of <duration> recorded"

  class HomeScreen {
    const username: string
    const store: SessionStore
    var timeLeft: int
    var running: bool
    var startTime: Option<int>

    /** Idle means a full countdown and no start instant; running means a start instant is held. */
    ghost predicate Valid()
      reads this
    {
      && 1 <= timeLeft <= TotalTime
      && (running <==> startTime.Some?)
      && (startTime.Some? ==> startTime.value > 0)
      && (!running ==> timeLeft == TotalTime)
    }

    constructor (username: string, store: SessionStore)
      ensures Valid() && this.username == username && this.store == store
      ensures timeLeft == TotalTime && !running && startTime == None
    {
      this.username := username;
      this.store := store;
      timeLeft := TotalTime;
      running := false;
      startTime := None;
    }

    /** startMeditation at clock reading `now` (epoch milliseconds); offered only while idle. */
    method StartMeditation(now: int)
      requires Valid() && !running && now > 0
      modifies this
      ensures Valid() && running && startTime == Some(now) && timeLeft == TotalTime
    {
      startTime := Some(now);
      running := true;
    }

    /** stopMeditation: saves one record when a start instant is held, then returns to idle. */
    method StopMeditation(completed: bool) returns (alert: Alert)
      requires Valid()
      modifies this, store
      ensures Valid() && !running && startTime == None && timeLeft == TotalTime
      ensures old(startTime).None? ==> store.items == old(store.items) && alert == NotStartedProperly
      ensures old(startTime).Some? ==>
        var start := old(startTime).value;
        var args := SaveArgs(username, Some(start), Some(EndTime(start, old(timeLeft), completed)), completed);
        && Accepts(args)
        && store.items == SaveInto(old(store.items), args)
        && RecordOf(args) == RecordAtStop(username, start, old(timeLeft), completed)
        && store.History() == old(store.History()) + [RecordAtStop(username, start, old(timeLeft), completed)]
        && alert == SessionSaved(FormatSeconds(ActualDuration(old(timeLeft), completed)))
        && alert.duration == RecordAtStop(username, start, old(timeLeft), completed).duration
    {
      running := false;
      if !IsPresent(startTime) {
        alert := NotStartedProperly;
        return;
      }
      var start := startTime.value;
      var endTime := EndTime(start, timeLeft, completed);
      var actualDuration := ActualDuration(timeLeft, completed);
      AlertMatchesStoredDuration(username, start, timeLeft, completed);
      store.SaveSession(SaveArgs(username, Some(start), Some(endTime), completed));
      timeLeft := TotalTime;
      startTime := None;
      alert := SessionSaved(FormatSeconds(actualDuration));
    }

    /**
     * One tick of the interval, which exists only while running: count down,
     * or, at the last second, stop as completed and reset to the full time.
     */
    method Tick() returns (alert: Option<Alert>)
      requires Valid() && running
      modifies this, store
      ensures Valid()
      ensures old(timeLeft) > 1 ==>
        && timeLeft == old(timeLeft) - 1 && running && startTime == old(startTime)
        && store.items == old(store.items) && alert == None
      ensures old(timeLeft) <= 1 ==>
        var start := old(startTime).value;
        && !running && startTime == None && timeLeft == TotalTime
        && store.items == SaveInto(old(store.items), SaveArgs(username, Some(start), Some(EndTime(start, old(timeLeft), true)), true))
        && store.History() == old(store.History()) + [RecordAtStop(username, start, old(timeLeft), true)]
        && alert == Some(SessionSaved(RecordAtStop(username, start, old(timeLeft), true).duration))
    {
      if timeLeft <= 1 {
        var a := StopMeditation(true);
        timeLeft := TotalTime;
        alert := Some(a);
      } else {
        timeLeft := timeLeft - 1;
        alert := None;
      }
    }
  }

  /** A second stop without a new start saves nothing: one start, at most one record. */
  method StartStopStop(screen: HomeScreen, now: int) returns (first: Alert, second: Alert)
    requires screen.Valid() && !screen.running && now > 0
    modifies screen, screen.store
    ensures screen.Valid() && !screen.running
    ensures |screen.store.History()| == |old(screen.store.History())| + 1
    ensures first.SessionSaved? && second == NotStartedProperly
  {
    screen.StartMeditation(now);
    first := screen.StopMeditation(false);
    second := screen.StopMeditation(false);
  }
}
