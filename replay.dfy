/** Facts about replay: it is a left fold that can be split anywhere, and
    what it never undoes (registered batches, created locations) or breaks
    (positive ledgers). */
module ReplayFacts {
  import opened Optional
  import opened Ledgers
  import opened Events
  import opened WarehouseModel

  /** Replaying one event is attempting it. */
  lemma ReplaySingle(s: State, e: Event)
    ensures Replay(s, [e]) == Attempt(s, e)
  {
    assert [e][1..] == [];
  }

  /** Replaying `a + b` is replaying `b` from where replaying `a` left off,
      unless replaying `a` already threw. */
  lemma {:induction false} ReplayAppend(s: State, a: seq<Event>, b: seq<Event>)
    ensures Replay(s, a + b) ==
              (var first := Replay(s, a); if first.failure.Some? then first else Replay(first.state, b))
    decreases |a|
  {
    if a == [] {
      assert a + b == b;
    } else {
      assert (a + b)[0] == a[0];
      assert (a + b)[1..] == a[1..] + b;
      var run := Attempt(s, a[0]);
      if run.failure.None? {
        ReplayAppend(run.state, a[1..], b);
      }
    }
  }

  /** A replay that throws never gets past the event that threw: replaying
      only the prefix up to it gives the same run. */
  lemma ReplayStopsAtFailure(s: State, events: seq<Event>, i: nat)
    requires i <= |events|
    requires Replay(s, events[..i]).failure.Some?
    ensures Replay(s, events) == Replay(s, events[..i])
  {
    ReplayAppend(s, events[..i], events[i..]);
    assert events[..i] + events[i..] == events;
  }

  /** A replay in which every event succeeds, passing through the given
      states one event at a time, ends in the last of them. */
  lemma {:induction false} ReplayThrough(states: seq<State>, events: seq<Event>)
    requires |states| == |events| + 1
    requires forall i :: 0 <= i < |events| ==> Attempt(states[i], events[i]) == Run(states[i + 1], None)
    ensures Replay(states[0], events) == Run(states[|events|], None)
    decreases |events|
  {
    if events != [] {
      assert forall i :: 0 <= i < |events[1..]| ==> states[1..][i] == states[i + 1] && events[1..][i] == events[i + 1];
      ReplayThrough(states[1..], events[1..]);
    }
  }

  /** A registered batch stays registered with the same name and IsPharma:
      no event removes or rewrites an entry of the batch map. */
  lemma {:induction false} BatchesPersist(s: State, events: seq<Event>, b: int)
    requires b in s.batchesById
    ensures b in Replay(s, events).state.batchesById
    ensures Replay(s, events).state.batchesById[b] == s.batchesById[b]
    decreases |events|
  {
    if events != [] {
      var run := Attempt(s, events[0]);
      if run.failure.None? {
        BatchesPersist(run.state, events[1..], b);
      }
    }
  }

  /** A created location is never removed and keeps its name. */
  lemma {:induction false} LocationsPersist(s: State, events: seq<Event>, id: int)
    requires id in s.locationByLocationId
    ensures id in Replay(s, events).state.locationByLocationId
    ensures Replay(s, events).state.locationByLocationId[id].name == s.locationByLocationId[id].name
    decreases |events|
  {
    if events != [] {
      var run := Attempt(s, events[0]);
      if run.failure.None? {
        LocationsPersist(run.state, events[1..], id);
      }
    }
  }

  /** Every location's ledger holds only positive quantities. */
  ghost predicate Stocked(s: State) {
    forall id :: id in s.locationByLocationId ==> Positive(s.locationByLocationId[id].quantityByBatchId)
  }

  /** An event that cannot put a non-positive quantity into a ledger. */
  predicate Sound(e: Event) {
    e.AddedBatchToLocation? ==> e.batchId > 0 && e.quantity > 0
  }

  lemma AttemptKeepsStocked(s: State, e: Event)
    requires Stocked(s) && Sound(e)
    ensures Stocked(Attempt(s, e).state)
  {
    match e {
      case AddedBatchToLocation(id, b, q) =>
        if id in s.locationByLocationId {
          AddedKeepsPositive(s.locationByLocationId[id].quantityByBatchId, b, q);
        }
      case RemovedBatchFromLocation(id, b, q) =>
        if id in s.locationByLocationId && b in s.locationByLocationId[id].quantityByBatchId {
          RemovedKeepsPositive(s.locationByLocationId[id].quantityByBatchId, b, q);
        }
      case _ =>
    }
  }

  /** Replaying sound events keeps every ledger positive. */
  lemma {:induction false} ReplayKeepsStocked(s: State, events: seq<Event>)
    requires Stocked(s)
    requires forall i :: 0 <= i < |events| ==> Sound(events[i])
    ensures Stocked(Replay(s, events).state)
    decreases |events|
  {
    if events != [] {
      AttemptKeepsStocked(s, events[0]);
      var run := Attempt(s, events[0]);
      if run.failure.None? {
        ReplayKeepsStocked(run.state, events[1..]);
      }
    }
  }

  // ------------------------------------------------------ one event at a time

  /** AddedBatch adds q to the batch's total (0 when it had none) and
      touches nothing else. */
  lemma AddedBatchAdds(s: State, b: int, q: int)
    ensures var r := Attempt(s, AddedBatch(b, q));
      && r.failure == None
      && QuantityOf(r.state.quantityByBatchId, b) == QuantityOf(s.quantityByBatchId, b) + q
      && r.state.quantityByBatchId.Keys == s.quantityByBatchId.Keys + {b}
      && (forall k :: k in s.quantityByBatchId && k != b ==> r.state.quantityByBatchId[k] == s.quantityByBatchId[k])
      && r.state.locationByLocationId == s.locationByLocationId
      && r.state.batchesById == s.batchesById
  {
  }

  /** RemovedBatch needs a total entry for the batch, and afterwards the
      batch has none, whatever quantity was removed. */
  lemma RemovedBatchDrops(s: State, b: int, q: int)
    ensures var r := Attempt(s, RemovedBatch(b, q));
      r.failure.None? <==> b in s.quantityByBatchId
    ensures var r := Attempt(s, RemovedBatch(b, q));
      r.failure.None? ==>
        && r.state.quantityByBatchId.Keys == s.quantityByBatchId.Keys - {b}
        && (forall k :: k in r.state.quantityByBatchId ==> r.state.quantityByBatchId[k] == s.quantityByBatchId[k])
        && r.state.locationByLocationId == s.locationByLocationId
        && r.state.batchesById == s.batchesById
  {
  }

  /** CreatedLocation adds an empty location under an unused id; a used id
      throws. */
  lemma CreatedLocationAdds(s: State, id: int, name: string)
    ensures var r := Attempt(s, CreatedLocation(id, name));
      r.failure.None? <==> id !in s.locationByLocationId
    ensures var r := Attempt(s, CreatedLocation(id, name));
      r.failure.None? ==>
        && r.state.locationByLocationId.Keys == s.locationByLocationId.Keys + {id}
        && r.state.locationByLocationId[id] == LocationState(name, map[])
        && r.state.quantityByBatchId == s.quantityByBatchId
        && r.state.batchesById == s.batchesById
  {
  }

  /** The two ledger events need the location and change only its ledger:
      totals, batches, every name and every other ledger stay as they were. */
  lemma LedgerEventsAreLocal(s: State, e: Event)
    requires e.AddedBatchToLocation? || e.RemovedBatchFromLocation?
    ensures var r := Attempt(s, e);
      r.failure.None? <==>
        e.locationId in s.locationByLocationId
        && (e.RemovedBatchFromLocation? ==> e.batchId in s.locationByLocationId[e.locationId].quantityByBatchId)
    ensures var r := Attempt(s, e);
      && r.state.quantityByBatchId == s.quantityByBatchId
      && r.state.batchesById == s.batchesById
      && r.state.locationByLocationId.Keys == s.locationByLocationId.Keys
      && (forall id :: id in s.locationByLocationId ==>
            r.state.locationByLocationId[id].name == s.locationByLocationId[id].name)
      && (forall id :: id in s.locationByLocationId && id != e.locationId ==>
            r.state.locationByLocationId[id] == s.locationByLocationId[id])
  {
  }

  /** RegisteredBatch stores the event's name and IsPharma under an unused
      id; a used id throws. */
  lemma RegisteredBatchAdds(s: State, b: int, name: string, isPharma: bool)
    ensures var r := Attempt(s, RegisteredBatch(b, name, isPharma));
      r.failure.None? <==> b !in s.batchesById
    ensures var r := Attempt(s, RegisteredBatch(b, name, isPharma));
      r.failure.None? ==>
        && r.state.batchesById.Keys == s.batchesById.Keys + {b}
        && r.state.batchesById[b] == Batch(name, isPharma)
        && r.state.quantityByBatchId == s.quantityByBatchId
        && r.state.locationByLocationId == s.locationByLocationId
  {
  }
}
