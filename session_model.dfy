/**
 * One meditation attempt (src/models/Session.js) and the form it takes in the
 * history store. Timestamps are epoch milliseconds; the stored `date`, which the
 * app renders with toLocaleString, is kept here as the end instant itself.
 */
module SessionModel {
  import opened Wrappers
  import opened NumberText
  import opened TimeFormatter

  datatype Session = Session(username: string, startTime: int, endTime: int, completed: bool)

  datatype StoredSession = StoredSession(username: string, date: int, duration: string, completed: bool)

  /** Math.floor((endTime - startTime) / 1000): whole seconds, the sub-second rest dropped. */
  function DurationSeconds(s: Session): (d: int)
    ensures d * 1000 <= s.endTime - s.startTime < d * 1000 + 1000
    ensures s.endTime >= s.startTime ==> d >= 0
  {
    (s.endTime - s.startTime) / 1000
  }

  /** getFormattedDuration: the same minutes-colon-padded-seconds text, written out as the model class does. */
  function FormattedDuration(s: Session): (r: string)
    ensures r == FormatSeconds(DurationSeconds(s))
  {
    var durationSeconds := (s.endTime - s.startTime) / 1000;
    var minutes := durationSeconds / 60;
    var seconds := JsRemainder(durationSeconds, 60);
    assert durationSeconds == DurationSeconds(s);
    IntToString(minutes) + ":" + PadStart2(IntToString(seconds))
  }

  /** toStorageObject: keeps the name and the flag, dates the record by its end, formats its length. */
  function ToStorageObject(s: Session): (r: StoredSession)
    ensures r.username == s.username && r.completed == s.completed
    ensures r.date == s.endTime
    ensures r.duration == FormatSeconds(DurationSeconds(s))
  {
    StoredSession(s.username, s.endTime, FormattedDuration(s), s.completed)
  }

  /**
   * The stored form forgets the start instant: two sessions that end together
   * and last the same whole number of seconds are stored identically.
   */
  lemma StoredFormForgetsStart(a: Session, b: Session)
    requires a.username == b.username && a.completed == b.completed
    requires a.endTime == b.endTime && DurationSeconds(a) == DurationSeconds(b)
    ensures ToStorageObject(a) == ToStorageObject(b)
  {
  }

  /** The stored duration of a session that does not end before it starts reads back as its length in seconds. */
  lemma StoredDurationReadsBack(s: Session)
    requires s.endTime >= s.startTime
    ensures ReadBack(ToStorageObject(s).duration) == Some(DurationSeconds(s))
    ensures |AfterColon(ToStorageObject(s).duration)| == 2
    ensures DigitsValue(AfterColon(ToStorageObject(s).duration)) < 60
  {
    FormatSecondsReadBack(DurationSeconds(s));
    FormatSecondsShape(DurationSeconds(s));
  }
}
