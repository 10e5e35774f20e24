/** The given/when/then cases of the unit tests, over the model: the given
    events are replayed from the empty warehouse, the command runs with
    any admissible answer of the location lookup, and the published events
    or the exception are as the test expects. Names the tests draw at
    random are parameters. */
module Scenarios {
  import opened Optional
  import opened Exceptions
  import opened Ledgers
  import opened Events
  import opened Commands
  import opened WarehouseModel
  import opened Locations
  import ReplayFacts

  /** The four named locations most tests start from. */
  function Site(): seq<Event> {
    [CreatedLocation(1, "Receive"), CreatedLocation(2, "Ship"),
     CreatedLocation(3, "Assemble"), CreatedLocation(4, "Store")]
  }

  function Sites(): map<int, LocationState> {
    map[1 := LocationState("Receive", map[]), 2 := LocationState("Ship", map[]),
        3 := LocationState("Assemble", map[]), 4 := LocationState("Store", map[])]
  }

  lemma ReplaySite()
    ensures Replay(Empty(), Site()) == Run(State(map[], Sites(), map[]), None)
  {
    var e := Site();
    var l0 := map[];
    var l1 := l0[1 := LocationState("Receive", map[])];
    var l2 := l1[2 := LocationState("Ship", map[])];
    var l3 := l2[3 := LocationState("Assemble", map[])];
    var states := [Empty(), State(map[], l1, map[]), State(map[], l2, map[]), State(map[], l3, map[]),
                   State(map[], Sites(), map[])];
    forall i | 0 <= i < |e|
      ensures Attempt(states[i], e[i]) == Run(states[i + 1], None)
    {
      if i == 3 {
        assert l3[4 := LocationState("Store", map[])] == Sites();
      }
    }
    ReplayFacts.ReplayThrough(states, e);
  }

  /** Names are unique in the site, so the lookup has one answer. */
  lemma SiteLookup(s: State, name: string, id: int, site: Option<int>)
    requires s.locationByLocationId.Keys == {1, 2, 3, 4}
    requires forall k :: k in s.locationByLocationId ==> s.locationByLocationId[k].name == Sites()[k].name
    requires id in Sites() && Sites()[id].name == name
    requires Located(s, name, site)
    ensures site == Some(id)
  {
  }

  /** The site, then `tail` replayed through `states`. */
  lemma ReplaySiteThen(tail: seq<Event>, states: seq<State>)
    requires |states| == |tail| + 1 && states[0] == State(map[], Sites(), map[])
    requires forall i :: 0 <= i < |tail| ==> Attempt(states[i], tail[i]) == Run(states[i + 1], None)
    ensures Replay(Empty(), Site() + tail) == Run(states[|tail|], None)
  {
    ReplaySite();
    ReplayFacts.ReplayAppend(Empty(), Site(), tail);
    ReplayFacts.ReplayThrough(states, tail);
  }

  /** W001: receiving 10 of batch 1 adds it to the warehouse and to Receive. */
  lemma W001(site: Option<int>)
    requires Located(Replay(Empty(), Site()).state, "Receive", site)
    ensures var st := Receive(Replay(Empty(), Site()).state, 1, 10, site);
      st.failure == None && st.published == [AddedBatch(1, 10), AddedBatchToLocation(1, 1, 10)]
  {
    ReplaySite();
    SiteLookup(Replay(Empty(), Site()).state, "Receive", 1, site);
  }

  function ShipGiven(): seq<Event> {
    [AddedBatch(1, 10), AddedBatchToLocation(2, 1, 10)]
  }

  /** W002: shipping 7 of the 10 held at Ship publishes the removal pair;
      Ship then holds 3 and the batch has no warehouse total left. */
  lemma W002(site: Option<int>)
    requires Located(Replay(Empty(), Site() + ShipGiven()).state, "Ship", site)
    ensures var s := Replay(Empty(), Site() + ShipGiven()).state;
      var st := Ship(s, 1, 7, site);
      && st.failure == None
      && st.published == [RemovedBatchFromLocation(2, 1, 7), RemovedBatch(1, 7)]
      && Holding(st.state, 2, 1) == 3
      && 1 !in st.state.quantityByBatchId
  {
    var s0 := State(map[], Sites(), map[]);
    var s1 := s0.(quantityByBatchId := map[1 := 10]);
    var s2 := s1.(locationByLocationId := Sites()[2 := LocationState("Ship", map[1 := 10])]);
    ReplaySiteThen(ShipGiven(), [s0, s1, s2]);
    SiteLookup(s2, "Ship", 2, site);
  }

  function AssembleGiven(): seq<Event> {
    [AddedBatch(1, 10), AddedBatchToLocation(3, 1, 10), AddedBatch(2, 10), AddedBatchToLocation(3, 2, 10)]
  }

  function AssembleStock(): State {
    State(map[1 := 10, 2 := 10], Sites()[3 := LocationState("Assemble", map[1 := 10, 2 := 10])], map[])
  }

  lemma ReplayAssembleGiven()
    ensures Replay(Empty(), Site() + AssembleGiven()) == Run(AssembleStock(), None)
  {
    var s0 := State(map[], Sites(), map[]);
    var s1 := s0.(quantityByBatchId := map[1 := 10]);
    var s2 := s1.(locationByLocationId := Sites()[3 := LocationState("Assemble", map[1 := 10])]);
    var s3 := s2.(quantityByBatchId := map[1 := 10, 2 := 10]);
    var states := [s0, s1, s2, s3, AssembleStock()];
    forall i | 0 <= i < 4
      ensures Attempt(states[i], AssembleGiven()[i]) == Run(states[i + 1], None)
    {
    }
    ReplaySiteThen(AssembleGiven(), states);
  }

  /** The six events the W003 assembly is expected to publish. */
  function Assembled(): seq<Event> {
    [RemovedBatchFromLocation(3, 1, 2), RemovedBatch(1, 2),
     RemovedBatchFromLocation(3, 2, 4), RemovedBatch(2, 4),
     AddedBatch(3, 2), AddedBatchToLocation(3, 3, 2)]
  }

  /** The W003 order passes validation and builds the expected list. */
  lemma AssembleChecks()
    ensures var from := [Some(BatchQuantity(1, 1)), Some(BatchQuantity(2, 2))];
      Shortfall(AssembleStock(), 3, from, 2) == None && AssemblyEvents(3, 3, 2, from) == Assembled()
  {
    var from := [Some(BatchQuantity(1, 1)), Some(BatchQuantity(2, 2))];
    assert from[..1] == [from[0]] && from[..1][..0] == [];
  }

  /** The expected list applies without exception to the W003 stock. */
  lemma ReplayAssembled()
    ensures Replay(AssembleStock(), Assembled()).failure == None
  {
    var s := AssembleStock();
    var events := Assembled();
    var s1 := s.(locationByLocationId := Sites()[3 := LocationState("Assemble", map[1 := 8, 2 := 10])]);
    var s2 := s1.(quantityByBatchId := map[2 := 10]);
    var s3 := s2.(locationByLocationId := Sites()[3 := LocationState("Assemble", map[1 := 8, 2 := 6])]);
    var s4 := s3.(quantityByBatchId := map[]);
    var s5 := s4.(quantityByBatchId := map[3 := 2]);
    var s6 := s5.(locationByLocationId := Sites()[3 := LocationState("Assemble", map[1 := 8, 2 := 6, 3 := 2])]);
    var states := [s, s1, s2, s3, s4, s5, s6];
    forall i | 0 <= i < 6
      ensures Attempt(states[i], events[i]) == Run(states[i + 1], None)
    {
      // One case per event; each names the map its event leaves.
      if i == 0 {
        assert map[1 := 10, 2 := 10][1 := 8] == map[1 := 8, 2 := 10];
      } else if i == 1 {
        assert map[1 := 10, 2 := 10] - {1} == map[2 := 10];
      } else if i == 2 {
        assert map[1 := 8, 2 := 10][2 := 6] == map[1 := 8, 2 := 6];
      } else if i == 3 {
        assert map[2 := 10] - {2} == map[];
      }
    }
    ReplayFacts.ReplayThrough(states, events);
  }

  /** W003: assembling 2 of batch 3 from one of batch 1 and two of batch 2
      per unit publishes the six events in order. */
  lemma W003(site: Option<int>)
    requires Located(Replay(Empty(), Site() + AssembleGiven()).state, "Assemble", site)
    ensures var s := Replay(Empty(), Site() + AssembleGiven()).state;
      var st := Assemble(s, Some(AssembleOrder(3, 2, Some([Some(BatchQuantity(1, 1)), Some(BatchQuantity(2, 2))]))), site);
      && st.failure == None
      && st.published == [RemovedBatchFromLocation(3, 1, 2), RemovedBatch(1, 2),
                          RemovedBatchFromLocation(3, 2, 4), RemovedBatch(2, 4),
                          AddedBatch(3, 2), AddedBatchToLocation(3, 3, 2)]
  {
    ReplayAssembleGiven();
    SiteLookup(AssembleStock(), "Assemble", 3, site);
    AssembleChecks();
    ReplayAssembled();
  }

  /** W004: Ship holds 5 of batch 1, so shipping 7 is refused. */
  lemma W004(site: Option<int>)
    requires Located(Replay(Empty(), Site() + [AddedBatchToLocation(2, 1, 5)]).state, "Ship", site)
    ensures var s := Replay(Empty(), Site() + [AddedBatchToLocation(2, 1, 5)]).state;
      Ship(s, 1, 7, site) == Fail(s, InvalidOperation(NotEnough(7, 5)))
  {
    var s0 := State(map[], Sites(), map[]);
    var s1 := s0.(locationByLocationId := Sites()[2 := LocationState("Ship", map[1 := 5])]);
    ReplaySiteThen([AddedBatchToLocation(2, 1, 5)], [s0, s1]);
    SiteLookup(s1, "Ship", 2, site);
  }

  /** W005: an empty warehouse has no Ship location. */
  lemma W005(site: Option<int>)
    requires Located(Empty(), "Ship", site)
    ensures Ship(Empty(), 1, 7, site) == Fail(Empty(), InvalidOperation(NoLocationNamed("Ship")))
  {
  }

  function W006Given(n1: string, n2: string, n4: string, n5: string): seq<Event> {
    [RegisteredBatch(1, n1, true), RegisteredBatch(2, n2, false),
     CreatedLocation(4, n4), CreatedLocation(5, n5),
     AddedBatch(1, 10), AddedBatchToLocation(4, 1, 10),
     AddedBatch(2, 10), AddedBatchToLocation(5, 2, 10)]
  }

  function W006Stock(n1: string, n2: string, n4: string, n5: string): State {
    State(map[1 := 10, 2 := 10],
          map[4 := LocationState(n4, map[1 := 10]), 5 := LocationState(n5, map[2 := 10])],
          map[1 := Batch(n1, true), 2 := Batch(n2, false)])
  }

  lemma ReplayW006Given(n1: string, n2: string, n4: string, n5: string)
    ensures Replay(Empty(), W006Given(n1, n2, n4, n5)) == Run(W006Stock(n1, n2, n4, n5), None)
  {
    var e := W006Given(n1, n2, n4, n5);
    var batches := map[1 := Batch(n1, true), 2 := Batch(n2, false)];
    var s1 := State(map[], map[], map[1 := Batch(n1, true)]);
    var s2 := s1.(batchesById := batches);
    var s3 := s2.(locationByLocationId := map[4 := LocationState(n4, map[])]);
    var s4 := s3.(locationByLocationId := map[4 := LocationState(n4, map[]), 5 := LocationState(n5, map[])]);
    var s5 := s4.(quantityByBatchId := map[1 := 10]);
    var s6 := s5.(locationByLocationId := map[4 := LocationState(n4, map[1 := 10]), 5 := LocationState(n5, map[])]);
    var s7 := s6.(quantityByBatchId := map[1 := 10, 2 := 10]);
    var states := [Empty(), s1, s2, s3, s4, s5, s6, s7, W006Stock(n1, n2, n4, n5)];
    forall i | 0 <= i < 8
      ensures Attempt(states[i], e[i]) == Run(states[i + 1], None)
    {
      // Splitting on i leaves one concrete event per case, so that each
      // Attempt unfolds on its own rather than all eight at once.
      if i == 0 {
      } else if i == 1 {
      } else if i == 2 {
      } else if i == 3 {
      } else if i == 4 {
      } else if i == 5 {
      } else if i == 6 {
      } else {
      }
    }
    ReplayFacts.ReplayThrough(states, e);
  }

  /** W006: a pharma batch may not join batch 2 at location 5. */
  lemma W006(n1: string, n2: string, n4: string, n5: string)
    ensures var s := Replay(Empty(), W006Given(n1, n2, n4, n5)).state;
      Move(s, 1, 7, 4, 5) == Fail(s, InvalidOperation(PharmaIntoNonEmpty))
  {
    ReplayW006Given(n1, n2, n4, n5);
    var s := W006Stock(n1, n2, n4, n5);
    assert |s.locationByLocationId[5].quantityByBatchId| != 0;
  }

  function W007Given(b: int, n1: string, n4: string, n5: string): seq<Event> {
    [RegisteredBatch(b, n1, true), CreatedLocation(4, n4), CreatedLocation(5, n5),
     AddedBatch(b, 10), AddedBatchToLocation(4, b, 10)]
  }

  function W007Stock(b: int, n1: string, n4: string, n5: string): State {
    State(map[b := 10], map[4 := LocationState(n4, map[b := 10]), 5 := LocationState(n5, map[])],
          map[b := Batch(n1, true)])
  }

  lemma ReplayW007Given(b: int, n1: string, n4: string, n5: string)
    ensures Replay(Empty(), W007Given(b, n1, n4, n5)) == Run(W007Stock(b, n1, n4, n5), None)
  {
    var e := W007Given(b, n1, n4, n5);
    var s1 := State(map[], map[], map[b := Batch(n1, true)]);
    var s2 := s1.(locationByLocationId := map[4 := LocationState(n4, map[])]);
    var s3 := s2.(locationByLocationId := map[4 := LocationState(n4, map[]), 5 := LocationState(n5, map[])]);
    var s4 := s3.(quantityByBatchId := map[b := 10]);
    var states := [Empty(), s1, s2, s3, s4, W007Stock(b, n1, n4, n5)];
    forall i | 0 <= i < 5
      ensures Attempt(states[i], e[i]) == Run(states[i + 1], None)
    {
      // One case per event, as in ReplayW006Given.
      if i == 0 {
      } else if i == 1 {
      } else if i == 2 {
      } else if i == 3 {
      } else {
      }
    }
    ReplayFacts.ReplayThrough(states, e);
  }

  /** W007: a pharma batch moves into an empty location. */
  lemma W007(b: int, n1: string, n4: string, n5: string)
    requires b > 0
    ensures var s := Replay(Empty(), W007Given(b, n1, n4, n5)).state;
      var st := Move(s, b, 7, 4, 5);
      st.failure == None && st.published == [RemovedBatchFromLocation(4, b, 7), AddedBatchToLocation(5, b, 7)]
  {
    ReplayW007Given(b, n1, n4, n5);
    var s := W007Stock(b, n1, n4, n5);
    assert s.locationByLocationId[4].quantityByBatchId[b] == 10;
  }

  /** L005: adding q2 and removing a smaller q1 leaves q2 - q1. */
  method AddThenRemoveLess(batchId: int, q1: int, q2: int) returns (held: int, contained: bool)
    requires q1 < q2
    ensures held == q2 - q1 && contained
  {
    var location := new Location(1, "Store");
    location.AddBatch(batchId, q2);
    var r := location.RemoveBatch(batchId, q1);
    held := location.QuantityOfBatch(batchId);
    contained := location.ContainsBatch(batchId);
  }

  /** L006, L007: after adding and removing the same quantity, no batch is
      held or contained and the location is empty again. */
  method AddThenRemoveSame(batchId: int, other: int, q: int) returns (held: int, contained: bool, empty: bool)
    ensures held == 0 && !contained && empty
  {
    var location := new Location(1, "Store");
    location.AddBatch(batchId, q);
    var r := location.RemoveBatch(batchId, q);
    held := location.QuantityOfBatch(other);
    contained := location.ContainsBatch(other);
    empty := location.IsEmpty();
  }
}
