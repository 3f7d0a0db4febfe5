/**
 * src/controllers/SessionController.js: the session history kept under one key,
 * "meditation_history", of the device's key-value store. Each save reads the
 * list, appends the new record and writes the list back; clearing removes the
 * key. The store is a map from keys to lists; serialising to JSON and back is
 * taken to be lossless, so a list is stored as itself.
 */
module SessionController {
  import opened Wrappers
  import opened SessionModel
  import TimeFormatter

  const HistoryKey: string := "meditation_history"

  /** The argument object of saveSession; a timestamp may be missing (null or undefined). */
  datatype SaveArgs = SaveArgs(username: string, startTime: Option<int>, endTime: Option<int>, completed: bool)

  /** JavaScript truthiness of a timestamp: missing and 0 are both falsy. */
  predicate IsPresent(t: Option<int>) {
    t.Some? && t.value != 0
  }

  /** The guard at the top of saveSession. */
  predicate Accepts(args: SaveArgs) {
    IsPresent(args.startTime) && IsPresent(args.endTime)
  }

  /** The stored form of the session that saveSession builds from accepted arguments. */
  function RecordOf(args: SaveArgs): (r: StoredSession)
    requires Accepts(args)
    ensures r.username == args.username && r.completed == args.completed && r.date == args.endTime.value
    ensures r.duration == TimeFormatter.FormatSeconds((args.endTime.value - args.startTime.value) / 1000)
  {
    var session := Session(args.username, args.startTime.value, args.endTime.value, args.completed);
    assert DurationSeconds(session) == (args.endTime.value - args.startTime.value) / 1000;
    ToStorageObject(session)
  }

  /** What `JSON.parse(getItem(key)) || []` yields: an absent key reads as the empty history. */
  function HistoryOf(items: map<string, seq<StoredSession>>): (h: seq<StoredSession>)
    ensures HistoryKey !in items ==> h == []
    ensures HistoryKey in items ==> h == items[HistoryKey]
  {
    if HistoryKey in items then items[HistoryKey] else []
  }

  /** The store after one saveSession call. */
  function SaveInto(items: map<string, seq<StoredSession>>, args: SaveArgs): (r: map<string, seq<StoredSession>>)
    ensures !Accepts(args) ==> r == items
    ensures Accepts(args) ==> HistoryOf(r) == HistoryOf(items) + [RecordOf(args)]
    ensures forall k :: k != HistoryKey ==> (k in r <==> k in items) && (k in r ==> r[k] == items[k])
  {
    if Accepts(args) then items[HistoryKey := HistoryOf(items) + [RecordOf(args)]] else items
  }

  /** The store after clearSessionHistory (AsyncStorage.removeItem of the history key). */
  function ClearFrom(items: map<string, seq<StoredSession>>): (r: map<string, seq<StoredSession>>)
    ensures HistoryOf(r) == [] && HistoryKey !in r
    ensures forall k :: k != HistoryKey ==> (k in r <==> k in items) && (k in r ==> r[k] == items[k])
  {
    items - {HistoryKey}
  }

  /** The state reached by applying `step` to each element of `xs` in turn. */
  function Run<S, A>(step: (S, A) -> S, s: S, xs: seq<A>): S
    decreases xs
  {
    if xs == [] then s else Run(step, step(s, xs[0]), xs[1..])
  }

  /** `f` applied to each element of `xs`, the results joined in order. */
  function Joined<A, T>(f: A -> seq<T>, xs: seq<A>): seq<T>
    decreases xs
  {
    if xs == [] then [] else f(xs[0]) + Joined(f, xs[1..])
  }

  /** When every step appends f(x) to the view of the state, a run appends the joined f(x)s. */
  lemma {:induction false} RunAppends<S, A, T>(step: (S, A) -> S, view: S -> seq<T>, f: A -> seq<T>, s: S, xs: seq<A>)
    requires forall t, x :: view(step(t, x)) == view(t) + f(x)
    ensures view(Run(step, s, xs)) == view(s) + Joined(f, xs)
    decreases xs
  {
    if xs != [] {
      RunAppends(step, view, f, step(s, xs[0]), xs[1..]);
      assert view(s) + f(xs[0]) + Joined(f, xs[1..]) == view(s) + (f(xs[0]) + Joined(f, xs[1..]));
    }
  }

  /** When no step changes a state's part outside the view, no run does. */
  lemma {:induction false} RunKeeps<S, A>(step: (S, A) -> S, rest: S -> S, s: S, xs: seq<A>)
    requires forall t, x :: rest(step(t, x)) == rest(t)
    ensures rest(Run(step, s, xs)) == rest(s)
    decreases xs
  {
    if xs != [] {
      RunKeeps(step, rest, step(s, xs[0]), xs[1..]);
    }
  }

  /** When f never yields more than one element, joining never outgrows the input. */
  lemma {:induction false} JoinedLength<A, T>(f: A -> seq<T>, xs: seq<A>)
    requires forall x :: |f(x)| <= 1
    ensures |Joined(f, xs)| <= |xs|
    decreases xs
  {
    if xs != [] {
      JoinedLength(f, xs[1..]);
    }
  }

  /** The records one saveSession call appends: its stored form if the guard accepts it, else none. */
  function Added(args: SaveArgs): (r: seq<StoredSession>)
    ensures |r| <= 1 && (r != [] <==> Accepts(args))
  {
    if Accepts(args) then [RecordOf(args)] else []
  }

  /** The records that the accepted calls among `calls` produce, in call order. */
  function AcceptedRecords(calls: seq<SaveArgs>): (r: seq<StoredSession>)
    ensures |r| <= |calls|
  {
    JoinedLength(Added, calls);
    Joined(Added, calls)
  }

  /** Each save appends its Added records to the history and leaves the other keys alone. */
  lemma SaveIntoSteps()
    ensures forall t, x :: HistoryOf(SaveInto(t, x)) == HistoryOf(t) + Added(x)
    ensures forall t, x :: ClearFrom(SaveInto(t, x)) == ClearFrom(t)
  {
    forall t, x ensures ClearFrom(SaveInto(t, x)) == ClearFrom(t) {
      assert forall k :: k in ClearFrom(SaveInto(t, x)) <==> k in ClearFrom(t);
    }
  }

  /** The store after saveSession has been called with each argument object in turn. */
  function SaveAll(items: map<string, seq<StoredSession>>, calls: seq<SaveArgs>): (r: map<string, seq<StoredSession>>)
    ensures HistoryOf(r) == HistoryOf(items) + AcceptedRecords(calls)
    ensures ClearFrom(r) == ClearFrom(items)
  {
    SaveIntoSteps();
    RunAppends(SaveInto, HistoryOf, Added, items, calls);
    RunKeeps(SaveInto, ClearFrom, items, calls);
    Run(SaveInto, items, calls)
  }

  /** After a clear, n successful saves leave exactly those n records, in save order. */
  lemma ClearThenSaves(items: map<string, seq<StoredSession>>, calls: seq<SaveArgs>)
    requires forall i :: 0 <= i < |calls| ==> Accepts(calls[i])
    ensures |HistoryOf(SaveAll(ClearFrom(items), calls))| == |calls|
    ensures forall i :: 0 <= i < |calls| ==> HistoryOf(SaveAll(ClearFrom(items), calls))[i] == RecordOf(calls[i])
  {
    assert HistoryOf(SaveAll(ClearFrom(items), calls)) == AcceptedRecords(calls);
    AllAcceptedRecords(calls);
  }

  /** When f yields exactly one element for each input, joining lists those elements in order. */
  lemma {:induction false} JoinedSingletons<A, T>(f: A -> seq<T>, xs: seq<A>)
    requires forall i :: 0 <= i < |xs| ==> |f(xs[i])| == 1
    ensures |Joined(f, xs)| == |xs|
    ensures forall i :: 0 <= i < |xs| ==> Joined(f, xs)[i] == f(xs[i])[0]
    decreases xs
  {
    if xs != [] {
      JoinedSingletons(f, xs[1..]);
      assert forall i :: 1 <= i < |xs| ==> xs[1..][i - 1] == xs[i];
    }
  }

  /** When every call is accepted, the records are the calls' records, one per call, in order. */
  lemma AllAcceptedRecords(calls: seq<SaveArgs>)
    requires forall i :: 0 <= i < |calls| ==> Accepts(calls[i])
    ensures |AcceptedRecords(calls)| == |calls|
    ensures forall i :: 0 <= i < |calls| ==> AcceptedRecords(calls)[i] == RecordOf(calls[i])
  {
    JoinedSingletons(Added, calls);
  }

  /** Clearing twice leaves the store as clearing once does. */
  lemma ClearIdempotent(items: map<string, seq<StoredSession>>)
    ensures ClearFrom(ClearFrom(items)) == ClearFrom(items)
  {
  }

  /** The device store, as the controller's three functions use it. */
  class SessionStore {
    var items: map<string, seq<StoredSession>>

    constructor ()
      ensures items == map[]
    {
      items := map[];
    }

    function History(): seq<StoredSession>
      reads this
    {
      HistoryOf(items)
    }

    /** saveSession: ignores arguments without both timestamps, else appends the new record. */
    method SaveSession(args: SaveArgs)
      modifies this
      ensures items == SaveInto(old(items), args)
      ensures Accepts(args) ==> History() == old(History()) + [RecordOf(args)]
      ensures !Accepts(args) ==> items == old(items)
    {
      if !IsPresent(args.startTime) || !IsPresent(args.endTime) {
        return;
      }
      var session := Session(args.username, args.startTime.value, args.endTime.value, args.completed);
      var newSession := ToStorageObject(session);
      var history := GetSessionHistory();
      history := history + [newSession];
      items := items[HistoryKey := history];
    }

    /** getSessionHistory: the stored list, or the empty list when the key is absent. */
    method GetSessionHistory() returns (history: seq<StoredSession>)
      ensures history == History()
      ensures HistoryKey !in items ==> history == []
    {
      if HistoryKey in items {
        history := items[HistoryKey];
      } else {
        history := [];
      }
    }

    /** AsyncStorage.removeItem. */
    method RemoveItem(key: string)
      modifies this
      ensures items == old(items) - {key}
    {
      items := items - {key};
    }

    /** clearSessionHistory: removes the history key and nothing else. */
    method ClearSessionHistory()
      modifies this
      ensures items == ClearFrom(old(items))
      ensures History() == []
    {
      RemoveItem(HistoryKey);
    }
  }
}
