/**
 * Ticker snapshots: the JSON object of quote fields the client keeps per
 * ticker, and how a `qsd` quote delta is folded into it.
 */
module TickerStore {
  import opened Wrappers
  import opened JsonValues

  /** The fields of one ticker, as the object the server's deltas describe. */
  type Snapshot = map<string, Json>

  /**
   * The new snapshot built from the current one (if any) and the delta `v`:
   * the old entries whose key the delta does not mention, then every entry
   * of the delta.
   */
  function Merge(current: Option<Snapshot>, delta: Snapshot): (r: Snapshot)
    ensures r.Keys == delta.Keys + (if current.Some? then current.value.Keys else {})
    ensures forall k :: k in delta ==> r[k] == delta[k]
    ensures current.Some? ==> forall k :: k in current.value && k !in delta ==> r[k] == current.value[k]
  {
    match current
    case None => delta
    case Some(prev) => (map k | k in prev && k !in delta :: prev[k]) + delta
  }

  /** With no earlier snapshot, the delta is the snapshot. */
  lemma MergeFirst(delta: Snapshot)
    ensures Merge(None, delta) == delta
  {
  }

  /** Applying the same delta twice changes nothing more. */
  lemma MergeIdempotent(current: Option<Snapshot>, delta: Snapshot)
    ensures Merge(Some(Merge(current, delta)), delta) == Merge(current, delta)
  {
    var once := Merge(current, delta);
    var twice := Merge(Some(once), delta);
    assert twice.Keys == once.Keys;
    assert forall k :: k in once ==> twice[k] == once[k];
  }

  /** Two deltas in a row amount to one delta in which the later values win. */
  lemma MergeTwice(current: Option<Snapshot>, d1: Snapshot, d2: Snapshot)
    ensures Merge(Some(Merge(current, d1)), d2) == Merge(current, d1 + d2)
  {
    var lhs := Merge(Some(Merge(current, d1)), d2);
    var rhs := Merge(current, d1 + d2);
    assert lhs.Keys == rhs.Keys;
    forall k | k in lhs
      ensures lhs[k] == rhs[k]
    {
    }
  }

  /** Every field in `required` is a key of the snapshot (no required field is missing). */
  predicate HasFields(snapshot: Snapshot, required: seq<string>)
    ensures HasFields(snapshot, required) <==> forall f :: f in required ==> f in snapshot
  {
    forall i :: 0 <= i < |required| ==> required[i] in snapshot
  }

  /** The fields still missing, in the order they are required. */
  function MissingFields(snapshot: Snapshot, required: seq<string>): (r: seq<string>)
    ensures forall f :: f in r <==> f in required && f !in snapshot
    ensures |r| <= |required|
  {
    if required == [] then []
    else if required[0] in snapshot then MissingFields(snapshot, required[1..])
    else [required[0]] + MissingFields(snapshot, required[1..])
  }

  /** No field is missing exactly when all required fields are present. */
  lemma {:induction false} NothingMissing(snapshot: Snapshot, required: seq<string>)
    ensures MissingFields(snapshot, required) == [] <==> HasFields(snapshot, required)
  {
    if MissingFields(snapshot, required) == [] {
      forall i | 0 <= i < |required|
        ensures required[i] in snapshot
      {
        assert required[i] in required;
      }
    } else {
      var f := MissingFields(snapshot, required)[0];
      assert f in MissingFields(snapshot, required);
    }
  }

  /** A snapshot that has all the required fields keeps them through any later delta. */
  lemma MergeKeepsFields(current: Snapshot, delta: Snapshot, required: seq<string>)
    requires HasFields(current, required)
    ensures HasFields(Merge(Some(current), delta), required)
  {
  }

  /** Worked example: `{"lp": 9, "ch": 1}` updated by `{"lp": 10}` gives `{"lp": 10, "ch": 1}`. */
  lemma MergeExample()
    ensures Merge(Some(map["lp" := JNumber("9"), "ch" := JNumber("1")]), map["lp" := JNumber("10")])
      == map["lp" := JNumber("10"), "ch" := JNumber("1")]
  {
    var r := Merge(Some(map["lp" := JNumber("9"), "ch" := JNumber("1")]), map["lp" := JNumber("10")]);
    assert r.Keys == {"lp", "ch"};
  }
}
