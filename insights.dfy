/**
 * The aggregation of src/views/screens/InsightScreen.js: counts, minutes,
 * longest session and "streak" derived from the stored history, the six
 * threshold achievements and the recommendation text.
 *
 * The streak follows the code: `today.setDate(today.getDate() - 1)` runs inside
 * the filter callback, so the cutoff moves back one more day for every
 * completed record examined, and the k-th completed record (from 0) counts when
 * it is dated no earlier than now - (k + 1) days. A day is 86 400 000 ms.
 */
module Insights {
  import opened Wrappers
  import opened NumberText
  import opened TimeFormatter
  import opened SessionModel
  import opened SessionController

  const DayMs: int := 86_400_000

  /** The four numbers loadInsights keeps in component state. */
  datatype Metrics = Metrics(completedSessions: nat, totalMinutes: int, longestSession: int, currentStreak: nat)

  /** history.filter(session => session.completed), order kept. */
  function Completed(history: seq<StoredSession>): (c: seq<StoredSession>)
    ensures |c| <= |history|
    ensures forall r :: r in c ==> r in history && r.completed
    ensures forall r :: r in history && r.completed ==> r in c
  {
    if history == [] then []
    else (if history[0].completed then [history[0]] else []) + Completed(history[1..])
  }

  /**
   * The filter keeps every completed record as often as it occurs and drops
   * every other one, so completedSessions is the number of completed records.
   */
  lemma {:induction false} CompletedMultiplicity(history: seq<StoredSession>)
    ensures forall r :: multiset(Completed(history))[r] == if r.completed then multiset(history)[r] else 0
  {
    if history != [] {
      CompletedMultiplicity(history[1..]);
      assert history == [history[0]] + history[1..];
    }
  }

  /** parseInt(duration.split(':')[0]); None stands for NaN. */
  function MinutePart(duration: string): (r: Option<int>)
    ensures ':' !in duration ==> r == ParseInt(duration)
    ensures duration == [] || duration[0] == ':' ==> r == None
  {
    assert ':' !in duration ==> BeforeColon(duration) == duration[..|duration|] == duration;
    ParseInt(BeforeColon(duration))
  }

  /** A record's contribution to the total: its minutes, or 0 when they are not a number. */
  function MinutesOrZero(r: StoredSession): (m: int)
    ensures MinutePart(r.duration) == None ==> m == 0
    ensures MinutePart(r.duration).Some? ==> m == MinutePart(r.duration).value
  {
    match MinutePart(r.duration)
    case Some(m) => m
    case None => 0
  }

  /** The reduce that sums minutes, taken left to right from 0. */
  function TotalMinutes(completed: seq<StoredSession>): (t: int)
    ensures (forall i :: 0 <= i < |completed| ==> MinutesOrZero(completed[i]) >= 0) ==> t >= 0
  {
    if completed == [] then 0
    else
      var prefix := completed[..|completed| - 1];
      assert forall i :: 0 <= i < |prefix| ==> prefix[i] == completed[i];
      TotalMinutes(prefix) + MinutesOrZero(completed[|completed| - 1])
  }

  /**
   * The reduce `mins > max ? mins : max` seeded with 0, over the numbers that
   * `field` reads from the elements; an element it reads NaN from (None) never
   * wins the comparison. The result is at least 0, at least every number read,
   * and either 0 or one of the numbers read.
   */
  function LargestField<T>(xs: seq<T>, field: T -> Option<int>): (r: int)
    ensures r >= 0
    ensures forall i :: 0 <= i < |xs| && field(xs[i]).Some? ==> field(xs[i]).value <= r
    ensures r == 0 || exists i :: 0 <= i < |xs| && field(xs[i]) == Some(r)
  {
    if xs == [] then 0
    else
      var prefix := xs[..|xs| - 1];
      assert forall i :: 0 <= i < |prefix| ==> prefix[i] == xs[i];
      var max := LargestField(prefix, field);
      var mins := field(xs[|xs| - 1]);
      if mins.Some? && mins.value > max then mins.value else max
  }

  /** The longest session: the largest minutes field among the completed records, or 0. */
  function Longest(completed: seq<StoredSession>): (r: int)
    ensures r >= 0
    ensures forall i :: 0 <= i < |completed| && MinutePart(completed[i].duration).Some? ==>
      MinutePart(completed[i].duration).value <= r
    ensures r == 0 || exists i :: 0 <= i < |completed| && MinutePart(completed[i].duration) == Some(r)
  {
    LargestField(completed, MinutesField)
  }

  /** `parseInt` of the text before the first ':' of a record's duration. */
  function MinutesField(r: StoredSession): Option<int> {
    MinutePart(r.duration)
  }

  /**
   * The streak filter started with `today` as given: each record first moves
   * the cutoff back a day, then counts when dated at or after it.
   */
  function MovingCutoffCount(completed: seq<StoredSession>, today: int): (n: nat)
    ensures n <= |completed|
  {
    if completed == [] then 0
    else
      var cutoff := today - DayMs;
      (if completed[0].date >= cutoff then 1 else 0) + MovingCutoffCount(completed[1..], cutoff)
  }

  /** The streak loop of loadInsights, with the cutoff variable it mutates. */
  method CurrentStreak(completed: seq<StoredSession>, now: int) returns (streak: nat)
    ensures streak == MovingCutoffCount(completed, now)
  {
    var today := now;
    streak := 0;
    var i := 0;
    while i < |completed|
      invariant 0 <= i <= |completed|
      invariant today == now - i * DayMs
      invariant streak + MovingCutoffCount(completed[i..], today) == MovingCutoffCount(completed, now)
    {
      assert completed[i..][1..] == completed[i + 1..];
      today := today - DayMs;
      if completed[i].date >= today {
        streak := streak + 1;
      }
      i := i + 1;
    }
  }

  /** Everything loadInsights stores in component state, as a function of the history and the clock. */
  function ComputeInsights(history: seq<StoredSession>, now: int): (ins: Metrics)
    ensures ins.currentStreak <= ins.completedSessions <= |history|
    ensures ins.longestSession >= 0
  {
    var completed := Completed(history);
    Metrics(|completed|, TotalMinutes(completed), Longest(completed), MovingCutoffCount(completed, now))
  }

  // ---------------------------------------------------------------------------
  // Achievements and recommendation

  datatype Achievement = Achievement(id: nat, name: string, unlocked: bool)

  /** The achievements table; the icons are left out. */
  function Achievements(ins: Metrics): (r: seq<Achievement>)
    ensures |r| == 6
    ensures forall i :: 0 <= i < 6 ==> r[i].id == i + 1
    ensures r[0].unlocked <==> ins.completedSessions >= 1
    ensures r[1].unlocked <==> ins.completedSessions >= 5
    ensures r[2].unlocked <==> ins.completedSessions >= 10
    ensures r[3].unlocked <==> ins.totalMinutes >= 30
    ensures r[4].unlocked <==> ins.totalMinutes >= 60
    ensures r[5].unlocked <==> ins.currentStreak >= 3
  {
    [ Achievement(1, "First Session", ins.completedSessions >= 1),
      Achievement(2, "5 Sessions", ins.completedSessions >= 5),
      Achievement(3, "10 Sessions", ins.completedSessions >= 10),
      Achievement(4, "30 Minutes", ins.totalMinutes >= 30),
      Achievement(5, "1 Hour", ins.totalMinutes >= 60),
      Achievement(6, "3-Day Streak", ins.currentStreak >= 3) ]
  }

  const StartTip: string := "Try starting with a 5-minute session today!"
  const MinutesTip: string := "Aim for 30 total minutes this week!"
  const StreakTip: string := "Try meditating today to start a new streak!"
  const LongerTip: string := "Great job! Consider trying a longer session today."
  const PraiseTip: string := "You're doing amazing! Keep up the consistency!"

  /** getRecommendation: the first rule that matches wins. */
  function Recommendation(ins: Metrics): (r: string)
    ensures r == StartTip <==> ins.completedSessions == 0
    ensures r == MinutesTip <==> ins.completedSessions != 0 && ins.totalMinutes < 30
    ensures r == StreakTip <==> ins.completedSessions != 0 && ins.totalMinutes >= 30 && ins.currentStreak == 0
    ensures r == LongerTip <==>
      ins.completedSessions != 0 && ins.totalMinutes >= 30 && ins.currentStreak != 0 && ins.longestSession < 10
    ensures r == PraiseTip <==>
      ins.completedSessions != 0 && ins.totalMinutes >= 30 && ins.currentStreak != 0 && ins.longestSession >= 10
  {
    if ins.completedSessions == 0 then StartTip
    else if ins.totalMinutes < 30 then MinutesTip
    else if ins.currentStreak == 0 then StreakTip
    else if ins.longestSession < 10 then LongerTip
    else PraiseTip
  }

  // ---------------------------------------------------------------------------
  // Properties of the aggregation

  lemma {:induction false} CompletedAppend(a: seq<StoredSession>, b: seq<StoredSession>)
    ensures Completed(a + b) == Completed(a) + Completed(b)
  {
    if a == [] {
      assert a + b == b;
    } else {
      assert (a + b)[1..] == a[1..] + b;
      CompletedAppend(a[1..], b);
    }
  }

  /** The minutes read back from a formatted duration are its floor-divided minutes, for any count. */
  lemma MinutePartOfFormat(secs: int)
    ensures MinutePart(FormatSeconds(secs)) == Some(secs / 60)
  {
    FormatSecondsFields(secs);
    ParseIntRoundTrip(secs / 60);
  }

  /** An empty (or absent) history gives four zeros, every achievement locked and the starter tip. */
  lemma EmptyHistoryInsights(now: int)
    ensures ComputeInsights([], now) == Metrics(0, 0, 0, 0)
    ensures forall a :: a in Achievements(ComputeInsights([], now)) ==> !a.unlocked
    ensures Recommendation(ComputeInsights([], now)) == StartTip
  {
  }

  /** An incomplete record, wherever it sits in the history, changes none of the metrics. */
  lemma IncompleteRecordIgnored(before: seq<StoredSession>, r: StoredSession, after: seq<StoredSession>, now: int)
    requires !r.completed
    ensures ComputeInsights(before + [r] + after, now) == ComputeInsights(before + after, now)
  {
    CompletedAppend(before + [r], after);
    CompletedAppend(before, [r]);
    CompletedAppend(before, after);
    assert Completed([r]) == [];
    assert Completed(before + [r]) == Completed(before);
  }

  /** The streak examines records in order: the record at index k is held to now - (k + 1) days. */
  lemma {:induction false} MovingCutoffAppend(c: seq<StoredSession>, r: StoredSession, today: int)
    ensures MovingCutoffCount(c + [r], today) ==
      MovingCutoffCount(c, today) + (if r.date >= today - (|c| + 1) * DayMs then 1 else 0)
  {
    if c != [] {
      assert (c + [r])[1..] == c[1..] + [r];
      MovingCutoffAppend(c[1..], r, today - DayMs);
    }
  }

  /** Completed records dated at or after `cutoff`: a fixed one-day window when cutoff = now - 1 day. */
  function CountSince(c: seq<StoredSession>, cutoff: int): (n: nat)
    ensures n <= |c|
  {
    if c == [] then 0 else (if c[0].date >= cutoff then 1 else 0) + CountSince(c[1..], cutoff)
  }

  lemma {:induction false} CountSinceAntitone(c: seq<StoredSession>, early: int, late: int)
    requires early <= late
    ensures CountSince(c, late) <= CountSince(c, early)
  {
    if c != [] {
      CountSinceAntitone(c[1..], early, late);
    }
  }

  /**
   * The moving cutoff counts at least every record of the trailing day: the
   * streak is never smaller than a fixed window computed once would give.
   */
  lemma {:induction false} StreakCoversLastDay(c: seq<StoredSession>, today: int)
    ensures MovingCutoffCount(c, today) >= CountSince(c, today - DayMs)
  {
    if c != [] {
      StreakCoversLastDay(c[1..], today - DayMs);
      CountSinceAntitone(c[1..], today - 2 * DayMs, today - DayMs);
    }
  }

  /** A record a day and a half old, second in the list, counts toward the streak but not toward a fixed day window. */
  lemma StreakReachesPastOneDay(now: int)
    ensures var c := [StoredSession("a", now, "5:00", true), StoredSession("a", now - 3 * DayMs / 2, "5:00", true)];
      MovingCutoffCount(c, now) == 2 && CountSince(c, now - DayMs) == 1
  {
    var c := [StoredSession("a", now, "5:00", true), StoredSession("a", now - 3 * DayMs / 2, "5:00", true)];
    assert c[1..][1..] == [];
  }

  lemma {:induction false} LongestAtMostTotal(c: seq<StoredSession>)
    requires forall i :: 0 <= i < |c| ==> MinutesOrZero(c[i]) >= 0
    ensures Longest(c) <= TotalMinutes(c)
  {
    if c != [] {
      var p := c[..|c| - 1];
      assert forall i :: 0 <= i < |p| ==> p[i] == c[i];
      LongestAtMostTotal(p);
    }
  }

  /** For completed records whose minutes are non-negative, the longest session is at most the total. */
  lemma LongestAtMostTotalMinutes(history: seq<StoredSession>, now: int)
    requires forall r :: r in history ==> MinutesOrZero(r) >= 0
    ensures ComputeInsights(history, now).longestSession <= ComputeInsights(history, now).totalMinutes
  {
    var c := Completed(history);
    assert forall i :: 0 <= i < |c| ==> c[i] in history;
    LongestAtMostTotal(c);
  }

  lemma TotalOfSameMinutes(c: seq<StoredSession>, m: int)
    requires forall i :: 0 <= i < |c| ==> MinutePart(c[i].duration) == Some(m)
    ensures TotalMinutes(c) == m * |c|
  {
    TotalOfConstant(c, m);
  }

  lemma {:induction false} TotalOfConstant(c: seq<StoredSession>, m: int)
    requires forall i :: 0 <= i < |c| ==> MinutesOrZero(c[i]) == m
    ensures TotalMinutes(c) == m * |c|
  {
    if c != [] {
      var p := c[..|c| - 1];
      assert forall i :: 0 <= i < |p| ==> p[i] == c[i];
      TotalOfConstant(p, m);
      TotalStep(c);
      ProductStep(m, |p|);
    }
  }

  /** The reduce adds the last record's minutes to the total of the ones before it. */
  lemma TotalStep(c: seq<StoredSession>)
    requires c != []
    ensures TotalMinutes(c) == TotalMinutes(c[..|c| - 1]) + MinutesOrZero(c[|c| - 1])
  {
  }

  lemma ProductStep(m: int, n: nat)
    ensures m * n + m == m * (n + 1)
  {
  }

  /**
   * Histories written by the timer store "5:00" for every completed session.
   * For them the total is five minutes per session, the longest session is 5
   * (or 0), "30 Minutes" needs six sessions and "1 Hour" twelve, and the final
   * praise of the recommendation chain is never given.
   */
  lemma TimerHistoryInsights(history: seq<StoredSession>, now: int)
    requires forall r :: r in history && r.completed ==> r.duration == FormatSeconds(300)
    ensures var ins := ComputeInsights(history, now);
      && ins.totalMinutes == 5 * ins.completedSessions
      && ins.longestSession == (if ins.completedSessions == 0 then 0 else 5)
      && (Achievements(ins)[3].unlocked <==> ins.completedSessions >= 6)
      && (Achievements(ins)[4].unlocked <==> ins.completedSessions >= 12)
      && Recommendation(ins) != PraiseTip
  {
    var c := Completed(history);
    MinutePartOfFormat(300);
    assert forall i :: 0 <= i < |c| ==> c[i] in history && MinutePart(c[i].duration) == Some(5);
    TotalOfSameMinutes(c, 5);
    if |c| > 0 {
      assert MinutePart(c[0].duration) == Some(5);
    }
  }

  /** The minutes of a duration text that starts with one digit and a colon. */
  lemma MinutePartOfOneDigit(d: nat, rest: string)
    requires d < 10
    ensures MinutePart([DigitChar(d), ':'] + rest) == Some(d)
  {
    var c := DigitChar(d);
    var s := [c, ':'] + rest;
    assert s[0] == c && s[1] == ':' && c != ':';
    assert ColonIndex(s) == 1;
    assert BeforeColon(s) == [c];
    assert [c][..0] == [];
    assert DigitValue(c) == d;
    assert DigitsValue([c]) == d;
  }

  lemma FiveAndThreeMinutes()
    ensures MinutePart("5:00") == Some(5) && MinutePart("3:00") == Some(3)
  {
    assert "5:00" == [DigitChar(5), ':'] + "00";
    MinutePartOfOneDigit(5, "00");
    assert "3:00" == [DigitChar(3), ':'] + "00";
    MinutePartOfOneDigit(3, "00");
  }

  /**
   * Three completed sessions of 5, 5 and 3 minutes, all ending now: 3 sessions,
   * 13 minutes, longest 5, streak 3; "First Session" and "3-Day Streak" are
   * unlocked, "5 Sessions" and "30 Minutes" are not.
   */
  lemma ThreeSessionsToday(now: int)
    ensures var h := [StoredSession("a", now, "5:00", true), StoredSession("a", now, "5:00", true),
                      StoredSession("a", now, "3:00", true)];
      var ins := ComputeInsights(h, now);
      && ins == Metrics(3, 13, 5, 3)
      && Achievements(ins)[0].unlocked && !Achievements(ins)[1].unlocked
      && !Achievements(ins)[3].unlocked && Achievements(ins)[5].unlocked
  {
    var five, three := StoredSession("a", now, "5:00", true), StoredSession("a", now, "3:00", true);
    FiveAndThreeMinutes();
    ThreeRecordMetrics(five, five, three, now);
  }

  lemma ThreeRecordMetrics(a: StoredSession, b: StoredSession, c: StoredSession, now: int)
    requires a.completed && b.completed && c.completed
    requires a.date >= now - DayMs && b.date >= now - DayMs && c.date >= now - DayMs
    requires MinutePart(a.duration) == Some(5) && MinutePart(b.duration) == Some(5)
    requires MinutePart(c.duration) == Some(3)
    ensures ComputeInsights([a, b, c], now) == Metrics(3, 13, 5, 3)
  {
    AllCompleted([a, b, c]);
    ThreeRecordFolds(a, b, c);
    ThreeRecordStreak(a, b, c, now);
  }

  lemma {:induction false} AllCompleted(h: seq<StoredSession>)
    requires forall i :: 0 <= i < |h| ==> h[i].completed
    ensures Completed(h) == h
  {
    if h != [] {
      AllCompleted(h[1..]);
    }
  }

  lemma ThreeRecordStreak(a: StoredSession, b: StoredSession, c: StoredSession, now: int)
    requires a.date >= now - DayMs && b.date >= now - DayMs && c.date >= now - DayMs
    ensures MovingCutoffCount([a, b, c], now) == 3
  {
    assert [a, b, c][1..] == [b, c] && [b, c][1..] == [c] && [c][1..] == [];
    assert MovingCutoffCount([c], now - 2 * DayMs) == 1;
    assert MovingCutoffCount([b, c], now - DayMs) == 2;
  }

  lemma ThreeRecordFolds(a: StoredSession, b: StoredSession, c: StoredSession)
    requires MinutePart(a.duration) == Some(5) && MinutePart(b.duration) == Some(5)
    requires MinutePart(c.duration) == Some(3)
    ensures TotalMinutes([a, b, c]) == 13 && Longest([a, b, c]) == 5
  {
    assert [a, b, c][..2] == [a, b] && [a, b][..1] == [a] && [a][..0] == [];
    assert TotalMinutes([a]) == 5;
    assert TotalMinutes([a, b]) == 10;
    assert Longest([a]) == 5;
    assert Longest([a, b]) == 5;
  }

  /**
   * Saving one more record never re-locks an achievement, provided its minutes
   * are not negative and the insights are taken at the same instant.
   */
  lemma AppendNeverRelocks(history: seq<StoredSession>, r: StoredSession, now: int)
    requires MinutesOrZero(r) >= 0
    ensures var before, after := Achievements(ComputeInsights(history, now)), Achievements(ComputeInsights(history + [r], now));
      forall i :: 0 <= i < 6 && before[i].unlocked ==> after[i].unlocked
  {
    AppendGrowsMetrics(history, r, now);
    var before, after := Achievements(ComputeInsights(history, now)), Achievements(ComputeInsights(history + [r], now));
    forall i | 0 <= i < 6 && before[i].unlocked
      ensures after[i].unlocked
    {
      if i == 0 {
      } else if i == 1 {
      } else if i == 2 {
      } else if i == 3 {
      } else if i == 4 {
      } else {
        assert i == 5;
      }
    }
  }

  /** Appending a record with non-negative minutes can only raise the sessions, minutes and streak. */
  lemma AppendGrowsMetrics(history: seq<StoredSession>, r: StoredSession, now: int)
    requires MinutesOrZero(r) >= 0
    ensures var before, after := ComputeInsights(history, now), ComputeInsights(history + [r], now);
      && before.completedSessions <= after.completedSessions
      && before.totalMinutes <= after.totalMinutes
      && before.currentStreak <= after.currentStreak
  {
    var c := Completed(history);
    CompletedAppend(history, [r]);
    if r.completed {
      assert Completed([r]) == [r];
      assert (c + [r])[..|c|] == c;
      assert TotalMinutes(c + [r]) == TotalMinutes(c) + MinutesOrZero(r);
      MovingCutoffAppend(c, r, now);
    } else {
      assert Completed([r]) == [];
      assert c + [] == c;
    }
  }

  /** The recommendation agrees with the achievements shown beside it. */
  lemma RecommendationMatchesAchievements(ins: Metrics)
    ensures var r, a := Recommendation(ins), Achievements(ins);
      && (r == StartTip <==> !a[0].unlocked)
      && (r == MinutesTip ==> a[0].unlocked && !a[3].unlocked && !a[4].unlocked)
      && (r in {StreakTip, LongerTip, PraiseTip} ==> a[0].unlocked && a[3].unlocked && !(r == StreakTip && a[5].unlocked))
  {
  }

  /**
   * The body of loadInsights after the read: filter, the two reduces and the
   * streak loop, in that order.
   */
  method MeasureHistory(history: seq<StoredSession>, now: int) returns (ins: Metrics)
    ensures ins == ComputeInsights(history, now)
  {
    var completed := Completed(history);
    var totalMins := TotalMinutes(completed);
    var longest := Longest(completed);
    var streak := CurrentStreak(completed, now);
    ins := Metrics(|completed|, totalMins, longest, streak);
  }

  // ---------------------------------------------------------------------------
  // The screen's state

  class InsightScreen {
    const store: SessionStore
    var sessionHistory: seq<StoredSession>
    var completedSessions: nat
    var totalMinutes: int
    var longestSession: int
    var currentStreak: nat

    constructor (store: SessionStore)
      ensures this.store == store && sessionHistory == []
      ensures Snapshot() == Metrics(0, 0, 0, 0)
    {
      this.store := store;
      sessionHistory := [];
      completedSessions, totalMinutes, longestSession, currentStreak := 0, 0, 0, 0;
    }

    function Snapshot(): Metrics
      reads this
    {
      Metrics(completedSessions, totalMinutes, longestSession, currentStreak)
    }

    /** loadInsights at clock reading `now`: reads the history and sets the four metrics. */
    method LoadInsights(now: int)
      modifies this
      ensures sessionHistory == store.History()
      ensures Snapshot() == ComputeInsights(sessionHistory, now)
      ensures currentStreak <= completedSessions && longestSession >= 0
    {
      var history := store.GetSessionHistory();
      sessionHistory := history;
      var ins := MeasureHistory(history, now);
      completedSessions, totalMinutes, longestSession, currentStreak := ins.completedSessions, ins.totalMinutes, ins.longestSession, ins.currentStreak;
    }
  }
}
