/**
 * src/views/screens/HistoryScreen.js: the history shown newest first, and the
 * confirmed "Clear History" that removes the stored key and empties the list.
 * The 100 ms delay before the list is emptied is not modelled.
 */
module History {
  import opened SessionModel
  import opened SessionController

  /** Array.prototype.reverse as a value: the last element comes first. */
  function Reversed<T>(s: seq<T>): (r: seq<T>)
    ensures |r| == |s|
    ensures s != [] ==> r[0] == s[|s| - 1] && r[|r| - 1] == s[0]
  {
    if s == [] then [] else Reversed(s[1..]) + [s[0]]
  }

  lemma {:induction false} ReversedAt<T>(s: seq<T>, k: nat)
    requires k < |s|
    ensures |Reversed(s)| == |s| && Reversed(s)[k] == s[|s| - 1 - k]
  {
    if k < |s| - 1 {
      ReversedAt(s[1..], k);
    }
  }

  /** Nothing is dropped or added: the reversed list holds the same records, as often. */
  lemma {:induction false} ReversedSameRecords<T>(s: seq<T>)
    ensures multiset(Reversed(s)) == multiset(s)
  {
    if s != [] {
      ReversedSameRecords(s[1..]);
      assert s == [s[0]] + s[1..];
    }
  }

  /** A list that holds, at every index, the element mirrored from the other end is the reversed list. */
  lemma ReversedFromMirror<T>(was: seq<T>, now: seq<T>)
    requires |now| == |was|
    requires forall k :: 0 <= k < |was| ==> now[k] == was[|was| - 1 - k]
    ensures now == Reversed(was)
  {
    forall k | 0 <= k < |was|
      ensures now[k] == Reversed(was)[k]
    {
      ReversedAt(was, k);
    }
  }

  /** data.reverse(): swaps the ends of the freshly read array inward. */
  method ReverseInPlace(a: array<StoredSession>)
    modifies a
    ensures a[..] == Reversed(old(a[..]))
  {
    ghost var was := a[..];
    var n, i := a.Length, 0;
    while i < n / 2
      invariant 0 <= i <= n / 2 && |was| == n
      invariant forall k :: 0 <= k < i ==> a[k] == was[n - 1 - k]
      invariant forall k :: n - i <= k < n ==> a[k] == was[n - 1 - k]
      invariant forall k :: i <= k < n - i ==> a[k] == was[k]
    {
      a[i], a[n - 1 - i] := a[n - 1 - i], a[i];
      i := i + 1;
    }
    assert forall k :: 0 <= k < n ==> a[..][k] == was[n - 1 - k] by {
      forall k | 0 <= k < n
        ensures a[k] == was[n - 1 - k]
      {
        if i <= k < n - i {
          assert k == n - 1 - k;
        }
      }
    }
    ReversedFromMirror(was, a[..]);
  }

  class HistoryScreen {
    const store: SessionStore
    var history: seq<StoredSession>

    constructor (store: SessionStore)
      ensures this.store == store && history == []
    {
      this.store := store;
      history := [];
    }

    /** fetchHistory: the display becomes the stored list, newest first; the store is only read. */
    method FetchHistory()
      modifies this
      ensures history == Reversed(store.History())
      ensures |history| == |store.History()|
      ensures forall k :: 0 <= k < |history| ==> history[k] == store.History()[|history| - 1 - k]
      ensures store.items == old(store.items)
    {
      var data := store.GetSessionHistory();
      var a := new StoredSession[|data|](i requires 0 <= i < |data| => data[i]);
      assert a[..] == data;
      ReverseInPlace(a);
      history := a[..];
      forall k | 0 <= k < |history|
        ensures history[k] == data[|history| - 1 - k]
      {
        ReversedAt(data, k);
      }
    }

    /** handleClear: "Yes" removes the history key and empties the list; "Cancel" changes nothing. */
    method HandleClear(confirmed: bool)
      modifies this, store
      ensures confirmed ==> store.items == ClearFrom(old(store.items)) && store.History() == [] && history == []
      ensures !confirmed ==> store.items == old(store.items) && history == old(history)
    {
      if confirmed {
        store.RemoveItem(HistoryKey);
        history := [];
      }
    }
  }
}
