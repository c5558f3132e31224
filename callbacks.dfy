/**
 * The per-ticker callback table. A ticker has at most one callback: the
 * one-shot waiter installed by `getOrRetrieveTicker`, or the listener
 * installed by `onTickerUpdate`; installing either replaces whatever was there.
 *
 * Suspended coroutines and user callbacks are not code this model can run:
 * a waiter is named by the number of the `getOrRetrieveTicker` call that is
 * suspended on it, a listener by a handle its caller chooses, and what they
 * are handed is recorded as an event.
 */
module Callbacks {
  import opened TickerStore

  datatype Callback =
    | Waiter(required: seq<string>, call: nat)   // resumes call number `call` once complete
    | Listener(handle: nat)                       // hands every snapshot to the user's function

  datatype Event =
    | Resumed(call: nat, snapshot: Snapshot)      // a suspended getOrRetrieveTicker returned
    | Delivered(handle: nat, snapshot: Snapshot)  // a listener was called

  type Table = map<string, Callback>

  datatype Invocation = Invocation(table: Table, events: seq<Event>)

  /**
   * `tickerCallbacks[n]?.invoke(snapshot, null)`: nothing when `n` has no
   * callback; a listener is always called; a waiter removes itself and
   * resumes only when the snapshot has every required field.
   */
  function Invoke(table: Table, n: string, snapshot: Snapshot): (r: Invocation)
    ensures |r.events| <= 1 && (r.events != [] ==> n in table)
    ensures forall e <- r.events :: e.snapshot == snapshot
    ensures r.table.Keys <= table.Keys
    ensures forall k :: k in table && k != n ==> k in r.table && r.table[k] == table[k]
    ensures n in table && table[n].Listener? ==> r.table == table
  {
    if n !in table then Invocation(table, [])
    else match table[n]
      case Listener(h) => Invocation(table, [Delivered(h, snapshot)])
      case Waiter(required, call) =>
        if HasFields(snapshot, required) then Invocation(table - {n}, [Resumed(call, snapshot)])
        else Invocation(table, [])
  }

  /**
   * The one-shot waiter for `n` resolves, and its entry is removed, exactly
   * when every required field is present; otherwise it stays and nothing
   * happens. No other ticker's entry is touched.
   */
  lemma WaiterGating(table: Table, n: string, snapshot: Snapshot)
    requires n in table && table[n].Waiter?
    ensures var r := Invoke(table, n, snapshot);
      (r.events == [Resumed(table[n].call, snapshot)] && r.table == table - {n})
      <==> HasFields(snapshot, table[n].required)
    ensures var r := Invoke(table, n, snapshot);
      !HasFields(snapshot, table[n].required) ==> r.table == table && r.events == []
    ensures forall k :: k != n ==> (k in Invoke(table, n, snapshot).table <==> k in table)
  {
    var r := Invoke(table, n, snapshot);
    if !HasFields(snapshot, table[n].required) {
      assert n in r.table && n !in table - {n};
    }
  }

  /** A listener sees every snapshot and stays registered. */
  lemma ListenerAlwaysCalled(table: Table, n: string, snapshot: Snapshot)
    requires n in table && table[n].Listener?
    ensures Invoke(table, n, snapshot) == Invocation(table, [Delivered(table[n].handle, snapshot)])
  {
  }

  /** Without a callback for `n`, invoking it does nothing. */
  lemma NoCallbackNoEffect(table: Table, n: string, snapshot: Snapshot)
    requires n !in table
    ensures Invoke(table, n, snapshot) == Invocation(table, [])
  {
  }
}
