/** What the command handlers promise, stated over the functions that the
    Warehouse methods are proved to follow: rejections change nothing,
    successes emit exactly the documented events, and where the code
    applies events one at a time a failure can come after some of them. */
module CommandFacts {
  import opened Optional
  import opened Exceptions
  import opened Ledgers
  import opened Events
  import opened Commands
  import opened WarehouseModel
  import opened ReplayFacts

  // ---------------------------------------------------------------- Receive

  /** When the lookup finds the Receive location (the argument checks
      passed), Receive always succeeds and emits exactly the two events:
      the warehouse total grows by q and the location's ledger takes the
      batch. */
  lemma ReceiveEmitsPair(s: State, b: int, q: int, id: int)
    requires b > 0 && q > 0 && Located(s, "Receive", Some(id))
    ensures var st := Receive(s, b, q, Some(id));
      && st.failure == None
      && st.published == [AddedBatch(b, q), AddedBatchToLocation(id, b, q)]
      && st.state.quantityByBatchId == s.quantityByBatchId[b := QuantityOf(s.quantityByBatchId, b) + q]
      && st.state.locationByLocationId == s.locationByLocationId[id :=
           LocationState("Receive", Added(s.locationByLocationId[id].quantityByBatchId, b, q))]
      && st.state.batchesById == s.batchesById
  {
  }

  /** Receive fails, leaving the state and the log alone, exactly when an
      argument is not positive or no location is named Receive. */
  lemma ReceiveRejects(s: State, b: int, q: int, site: Option<int>)
    requires Located(s, "Receive", site)
    ensures var st := Receive(s, b, q, site);
      st.failure.Some? <==> (q <= 0 || b <= 0 || site.None?)
    ensures var st := Receive(s, b, q, site);
      st.failure.Some? ==> st.state == s && st.published == []
  {
    if q > 0 && b > 0 && site.Some? {
      ReceiveEmitsPair(s, b, q, site.value);
    }
  }

  // ------------------------------------------------------------------- Ship

  /** Ship is rejected with nothing changed when no location is named Ship
      or the Ship location holds less than requested. */
  lemma ShipRejected(s: State, b: int, q: int, site: Option<int>)
    requires b > 0 && q > 0 && Located(s, "Ship", site)
    requires site.None? || Holding(s, site.value, b) < q
    ensures Ship(s, b, q, site) == Step(s, [], Ship(s, b, q, site).failure)
    ensures Ship(s, b, q, site).failure ==
              if site.None? then Some(InvalidOperation(NoLocationNamed("Ship")))
              else Some(InvalidOperation(NotEnough(q, Holding(s, site.value, b))))
  {
  }

  /** When the Ship location holds enough, Ship succeeds exactly when the
      batch has a warehouse total, and then emits the removal pair; the
      total entry is gone afterwards and the location keeps the rest. */
  lemma ShipEmitsPair(s: State, b: int, q: int, id: int)
    requires b > 0 && q > 0 && Located(s, "Ship", Some(id)) && Holding(s, id, b) >= q
    ensures var st := Ship(s, b, q, Some(id));
      st.failure.None? <==> b in s.quantityByBatchId
    ensures var st := Ship(s, b, q, Some(id));
      st.failure.None? ==>
        && st.published == [RemovedBatchFromLocation(id, b, q), RemovedBatch(b, q)]
        && b !in st.state.quantityByBatchId
        && Holding(st.state, id, b) == Holding(s, id, b) - q
  {
  }

  /** The first event can be applied and published before the second one
      throws: a batch held at Ship with no warehouse total loses its
      location entry, and then RemovedBatch finds no total. */
  lemma ShipPartial(s: State, b: int, q: int, id: int)
    requires b > 0 && q > 0 && Located(s, "Ship", Some(id)) && Holding(s, id, b) >= q
    requires b !in s.quantityByBatchId
    ensures var st := Ship(s, b, q, Some(id));
      && st.failure == Some(KeyNotFound)
      && st.published == [RemovedBatchFromLocation(id, b, q)]
      && st.state == Attempt(s, RemovedBatchFromLocation(id, b, q)).state
      && st.state != s
  {
    var after := Attempt(s, RemovedBatchFromLocation(id, b, q)).state;
    assert Holding(after, id, b) != Holding(s, id, b);
  }

  // ------------------------------------------------------------------- Move

  /** The arguments are checked in order, then the batch must be registered. */
  lemma MoveRejectsArguments(s: State, b: int, q: int, from: int, to: int)
    requires q <= 0 || b <= 0 || from <= 0 || to <= 0 || b !in s.batchesById
    ensures Move(s, b, q, from, to) == Step(s, [], Some(
              if q <= 0 then OutOfRange(Quantity)
              else if b <= 0 then OutOfRange(BatchId)
              else if from <= 0 then OutOfRange(FromLocationId)
              else if to <= 0 then OutOfRange(ToLocationId)
              else KeyNotFound))
  {
  }

  /** A pharma batch may not be moved into a location that holds anything. */
  lemma MovePharmaIntoNonEmpty(s: State, b: int, q: int, from: int, to: int)
    requires q > 0 && b > 0 && from > 0 && to > 0
    requires b in s.batchesById && s.batchesById[b].isPharma
    requires to in s.locationByLocationId && |s.locationByLocationId[to].quantityByBatchId| != 0
    ensures Move(s, b, q, from, to) == Fail(s, InvalidOperation(PharmaIntoNonEmpty))
  {
  }

  /** A non-pharma batch skips the destination check: what the destination
      holds makes no difference. */
  lemma MoveNonPharmaSkipsCheck(s: State, b: int, q: int, from: int, to: int)
    requires q > 0 && b > 0 && from > 0 && to > 0
    requires b in s.batchesById && !s.batchesById[b].isPharma
    ensures Move(s, b, q, from, to) ==
              Then(Publish(s, RemovedBatchFromLocation(from, b, q)), AddedBatchToLocation(to, b, q))
  {
  }

  /** Past the checks, Move succeeds exactly when the source holds the
      batch (in any quantity, even less than q) and the destination exists;
      it then emits the remove/add pair. */
  lemma MoveEmitsPair(s: State, b: int, q: int, from: int, to: int)
    requires q > 0 && b > 0 && from > 0 && to > 0 && b in s.batchesById
    requires s.batchesById[b].isPharma ==>
               to in s.locationByLocationId && |s.locationByLocationId[to].quantityByBatchId| == 0
    ensures var st := Move(s, b, q, from, to);
      st.failure.None? <==>
        from in s.locationByLocationId && b in s.locationByLocationId[from].quantityByBatchId
        && to in s.locationByLocationId
    ensures var st := Move(s, b, q, from, to);
      st.failure.None? ==>
        st.published == [RemovedBatchFromLocation(from, b, q), AddedBatchToLocation(to, b, q)]
  {
  }

  /** No check is made that the source holds q: a move of more than the
      source holds succeeds and simply empties the source's entry. */
  lemma MoveMoreThanHeld(s: State, b: int, q: int, from: int, to: int)
    requires q > 0 && b > 0 && from > 0 && to > 0 && from != to
    requires b in s.batchesById && !s.batchesById[b].isPharma
    requires from in s.locationByLocationId && to in s.locationByLocationId
    requires b in s.locationByLocationId[from].quantityByBatchId
    requires Holding(s, from, b) < q
    ensures var st := Move(s, b, q, from, to);
      st.failure.None? && b !in st.state.locationByLocationId[from].quantityByBatchId
  {
  }

  /** A non-pharma move into a missing destination publishes the removal
      and then throws. */
  lemma MovePartial(s: State, b: int, q: int, from: int, to: int)
    requires q > 0 && b > 0 && from > 0 && to > 0
    requires b in s.batchesById && !s.batchesById[b].isPharma
    requires from in s.locationByLocationId && b in s.locationByLocationId[from].quantityByBatchId
    requires to !in s.locationByLocationId
    ensures var st := Move(s, b, q, from, to);
      && st.failure == Some(KeyNotFound)
      && st.published == [RemovedBatchFromLocation(from, b, q)]
      && st.state == Attempt(s, RemovedBatchFromLocation(from, b, q)).state
  {
  }

  // --------------------------------------------------------------- Assemble

  /** The validation loop throws nothing exactly when every component is
      non-null and available at the location in perUnit x quantity. */
  lemma {:induction false} ShortfallNoneIff(s: State, site: int, from: seq<Option<BatchQuantity>>, quantity: int)
    ensures Shortfall(s, site, from, quantity).None? <==>
              forall i :: 0 <= i < |from| ==>
                from[i].Some? && Holding(s, site, from[i].value.batchId) >= from[i].value.quantity * quantity
    decreases |from|
  {
    if from != [] {
      var earlier := from[..|from| - 1];
      ShortfallNoneIff(s, site, earlier, quantity);
      assert forall i :: 0 <= i < |earlier| ==> earlier[i] == from[i];
    }
  }

  /** The first null component makes the loop throw NullReferenceException. */
  lemma NullComponentThrows(s: State, site: int, from: seq<Option<BatchQuantity>>, quantity: int, i: nat)
    requires i < |from| && from[i].None?
    requires Shortfall(s, site, from[..i], quantity).None?
    ensures Shortfall(s, site, from, quantity) == Some(NullReference)
  {
    assert from[..i + 1][..i] == from[..i];
    ShortfallFirst(s, site, from, quantity, i + 1);
  }

  /** All or nothing: when some component is null or lacks stock, Assemble
      applies and publishes nothing. */
  lemma AssembleAllOrNothing(s: State, o: AssembleOrder, site: Option<int>, i: int)
    requires o.quantity > 0 && o.batchId > 0 && o.from.Some? && site.Some?
    requires 0 <= i < |o.from.value|
    requires o.from.value[i].None?
             || Holding(s, site.value, o.from.value[i].value.batchId) < o.from.value[i].value.quantity * o.quantity
    ensures var st := Assemble(s, Some(o), site);
      st.state == s && st.published == [] && st.failure.Some?
  {
    ShortfallNoneIff(s, site.value, o.from.value, o.quantity);
  }

  /** Pair i of the removal list is for component i, in input order. */
  lemma {:induction false} ComponentsAt(site: int, from: seq<Option<BatchQuantity>>, quantity: int, i: int)
    requires Present(from) && 0 <= i < |from|
    ensures Components(site, from, quantity)[2 * i] ==
              RemovedBatchFromLocation(site, from[i].value.batchId, from[i].value.quantity * quantity)
    ensures Components(site, from, quantity)[2 * i + 1] ==
              RemovedBatch(from[i].value.batchId, from[i].value.quantity * quantity)
    decreases |from|
  {
    var earlier := from[..|from| - 1];
    assert forall k :: 0 <= k < |earlier| ==> earlier[k] == from[k];
    if i < |earlier| {
      ComponentsAt(site, earlier, quantity, i);
    }
  }

  /** The list Assemble publishes: 2 |from| + 2 events, a removal pair per
      component in order with amount perUnit x quantity, then the new batch
      added to the warehouse and to the location. */
  lemma AssemblyEventsLayout(site: int, batchId: int, quantity: int, from: seq<Option<BatchQuantity>>)
    requires Present(from)
    ensures var e := AssemblyEvents(site, batchId, quantity, from);
      && |e| == 2 * |from| + 2
      && e[2 * |from|] == AddedBatch(batchId, quantity)
      && e[2 * |from| + 1] == AddedBatchToLocation(site, batchId, quantity)
      && (forall i :: 0 <= i < |from| ==>
            e[2 * i] == RemovedBatchFromLocation(site, from[i].value.batchId, from[i].value.quantity * quantity)
            && e[2 * i + 1] == RemovedBatch(from[i].value.batchId, from[i].value.quantity * quantity))
  {
    forall i | 0 <= i < |from|
      ensures AssemblyEvents(site, batchId, quantity, from)[2 * i]
                == RemovedBatchFromLocation(site, from[i].value.batchId, from[i].value.quantity * quantity)
      ensures AssemblyEvents(site, batchId, quantity, from)[2 * i + 1]
                == RemovedBatch(from[i].value.batchId, from[i].value.quantity * quantity)
    {
      ComponentsAt(site, from, quantity, i);
    }
  }

  /** Assemble makes one publish call with the whole list, or none; it
      publishes the whole list whenever it succeeds. */
  lemma AssemblePublishesOnce(s: State, o: AssembleOrder, id: int)
    ensures var st := Assemble(s, Some(o), Some(id));
      st.published != [] ==>
        o.from.Some? && Present(o.from.value)
        && st.published == AssemblyEvents(id, o.batchId, o.quantity, o.from.value)
    ensures var st := Assemble(s, Some(o), Some(id));
      st.failure.None? ==>
        o.from.Some? && Present(o.from.value)
        && st.published == AssemblyEvents(id, o.batchId, o.quantity, o.from.value)
  {
  }

  /** The loop never checks the sign of a component: a negative per-unit
      quantity always passes validation, and its RemovedBatchFromLocation
      then raises the location's holding. Here 3 held at Assemble becomes 8. */
  lemma AssembleNegativeComponent()
    ensures var s := State(map[1 := 3], map[3 := LocationState("Assemble", map[1 := 3])], map[]);
      var o := AssembleOrder(2, 1, Some([Some(BatchQuantity(1, -5))]));
      var st := Assemble(s, Some(o), Some(3));
      && Located(s, "Assemble", Some(3))
      && st.failure == None
      && Holding(s, 3, 1) == 3
      && Holding(st.state, 3, 1) == 8
  {
    var s := State(map[1 := 3], map[3 := LocationState("Assemble", map[1 := 3])], map[]);
    var from := [Some(BatchQuantity(1, -5))];
    assert from[..0] == [];
    var events := AssemblyEvents(3, 2, 1, from);
    assert events == [RemovedBatchFromLocation(3, 1, -5), RemovedBatch(1, -5),
                      AddedBatch(2, 1), AddedBatchToLocation(3, 2, 1)];
    var s1 := State(map[1 := 3], map[3 := LocationState("Assemble", map[1 := 8])], map[]);
    var s2 := State(map[], map[3 := LocationState("Assemble", map[1 := 8])], map[]);
    var s3 := State(map[2 := 1], map[3 := LocationState("Assemble", map[1 := 8])], map[]);
    var s4 := State(map[2 := 1], map[3 := LocationState("Assemble", map[1 := 8, 2 := 1])], map[]);
    var states := [s, s1, s2, s3, s4];
    forall i | 0 <= i < 4
      ensures Attempt(states[i], events[i]) == Run(states[i + 1], None)
    {
      // one case per event, each naming the map the event leaves
      if i == 0 {
        assert map[1 := 3][1 := 8] == map[1 := 8];
      } else if i == 1 {
        assert map[1 := 3] - {1} == map[];
      } else if i == 2 {
        assert map[][2 := 1] == map[2 := 1];
      }
    }
    ReplayThrough(states, events);
  }

  /** A negative component of a batch that the location does not hold
      also passes validation (0 is not below a negative requirement), but
      its RemovedBatchFromLocation finds no entry: the assembly throws
      KeyNotFound with nothing published and nothing changed. */
  lemma AssembleNegativeAbsent()
    ensures var s := State(map[], map[3 := LocationState("Assemble", map[])], map[]);
      var from := [Some(BatchQuantity(1, -5))];
      var st := Assemble(s, Some(AssembleOrder(2, 1, Some(from))), Some(3));
      && Located(s, "Assemble", Some(3))
      && Shortfall(s, 3, from, 1).None?
      && st == Step(s, [], Some(KeyNotFound))
  {
    var from := [Some(BatchQuantity(1, -5))];
    assert from[..0] == [];
    var events := AssemblyEvents(3, 2, 1, from);
    assert events[0] == RemovedBatchFromLocation(3, 1, -5);
  }

  // ------------------------------------------------- the log replays to the state

  /** Replaying what a command published, from where it started, gives
      the state it reached. */
  ghost predicate Recorded(s: State, st: Step) {
    Replay(s, st.published) == Run(st.state, None)
  }

  lemma {:induction false} PublishRecorded(s: State, e: Event)
    ensures Recorded(s, Publish(s, e))
  {
    ReplaySingle(s, e);
  }

  lemma {:induction false} ThenRecorded(s: State, step: Step, e: Event)
    requires Recorded(s, step)
    ensures Recorded(s, Then(step, e))
  {
    if step.failure.None? {
      if Attempt(step.state, e).failure.None? {
        ReplayAppend(s, step.published, [e]);
        ReplaySingle(step.state, e);
      } else {
        assert step.published + [] == step.published;
      }
    }
  }

  /** Even when it throws halfway, Receive, Ship and Move have published
      exactly the events they applied. */
  lemma CommandsRecorded(s: State, b: int, q: int, from: int, to: int, site: Option<int>)
    ensures Recorded(s, Receive(s, b, q, site))
    ensures Recorded(s, Ship(s, b, q, site))
    ensures Recorded(s, Move(s, b, q, from, to))
  {
    PublishRecorded(s, AddedBatch(b, q));
    if site.Some? {
      ThenRecorded(s, Publish(s, AddedBatch(b, q)), AddedBatchToLocation(site.value, b, q));
      PublishRecorded(s, RemovedBatchFromLocation(site.value, b, q));
      ThenRecorded(s, Publish(s, RemovedBatchFromLocation(site.value, b, q)), RemovedBatch(b, q));
    }
    PublishRecorded(s, RemovedBatchFromLocation(from, b, q));
    ThenRecorded(s, Publish(s, RemovedBatchFromLocation(from, b, q)), AddedBatchToLocation(to, b, q));
  }

  /** Assemble's log replays to its state except when its list throws
      midway: then the applied events are never published. */
  lemma AssembleRecordedIff(s: State, order: Option<AssembleOrder>, site: Option<int>)
    ensures var st := Assemble(s, order, site);
      Recorded(s, st) <==> (st.published == [] ==> st.state == s)
  {
  }

  /** A concrete list that throws midway: the two components name the same
      batch, so the first RemovedBatch drops the warehouse total and the
      second finds none. The state has changed, nothing was published. */
  lemma AssembleNotRecorded()
    ensures var s := State(map[1 := 10], map[3 := LocationState("Assemble", map[1 := 10])], map[]);
      var o := AssembleOrder(2, 1, Some([Some(BatchQuantity(1, 5)), Some(BatchQuantity(1, 5))]));
      var st := Assemble(s, Some(o), Some(3));
      && Located(s, "Assemble", Some(3))
      && st.failure == Some(KeyNotFound)
      && st.published == []
      && st.state != s
      && !Recorded(s, st)
  {
    var s := State(map[1 := 10], map[3 := LocationState("Assemble", map[1 := 10])], map[]);
    var from := [Some(BatchQuantity(1, 5)), Some(BatchQuantity(1, 5))];
    assert from[..1] == [Some(BatchQuantity(1, 5))] && from[..1][..0] == [];
    var events := AssemblyEvents(3, 2, 1, from);
    var e0 := RemovedBatchFromLocation(3, 1, 5);
    var e1 := RemovedBatch(1, 5);
    assert events == [e0, e1, e0, e1, AddedBatch(2, 1), AddedBatchToLocation(3, 2, 1)];
    var s1 := Attempt(s, e0).state;
    assert map[1 := 10][1 := 5] == map[1 := 5];
    assert s1 == State(map[1 := 10], map[3 := LocationState("Assemble", map[1 := 5])], map[]);
    var s2 := Attempt(s1, e1).state;
    assert s2 == State(map[], map[3 := LocationState("Assemble", map[1 := 5])], map[]);
    var s3 := Attempt(s2, e0).state;
    assert s3 == State(map[], map[3 := LocationState("Assemble", map[])], map[]);
    assert Attempt(s3, e1).failure == Some(KeyNotFound);
    assert Replay(s, events) == Run(s3, Some(KeyNotFound)) by {
      var prefix := [e0, e1, e0];
      assert forall i :: 0 <= i < 3 ==> Attempt([s, s1, s2, s3][i], prefix[i]) == Run([s, s1, s2, s3][i + 1], None);
      ReplayThrough([s, s1, s2, s3], prefix);
      assert events == prefix + events[3..];
      ReplayAppend(s, prefix, events[3..]);
      assert events[3..][0] == e1;
    }
    assert Shortfall(s, 3, from, 1) == None;
    assert s3 != s by {
      assert 1 !in s3.quantityByBatchId;
    }
  }

  // ------------------------------------------------------ ledgers stay positive

  /** No event of the removal list is an AddedBatchToLocation, so each is
      Sound: the list cannot put a non-positive quantity into a ledger. */
  lemma {:induction false} ComponentsSound(site: int, from: seq<Option<BatchQuantity>>, quantity: int)
    requires Present(from)
    ensures forall i :: 0 <= i < |Components(site, from, quantity)| ==> Sound(Components(site, from, quantity)[i])
    decreases |from|
  {
    if from != [] {
      var earlier := from[..|from| - 1];
      assert forall k :: 0 <= k < |earlier| ==> earlier[k] == from[k];
      ComponentsSound(site, earlier, quantity);
    }
  }

  lemma ThenKeepsStocked(step: Step, e: Event)
    requires Stocked(step.state) && Sound(e)
    ensures Stocked(Then(step, e).state)
  {
    if step.failure.None? {
      AttemptKeepsStocked(step.state, e);
    }
  }

  lemma ReceiveKeepsStocked(s: State, b: int, q: int, site: Option<int>)
    requires Stocked(s)
    ensures Stocked(Receive(s, b, q, site).state)
  {
    if q > 0 && b > 0 && site.Some? {
      AttemptKeepsStocked(s, AddedBatch(b, q));
      ThenKeepsStocked(Publish(s, AddedBatch(b, q)), AddedBatchToLocation(site.value, b, q));
    }
  }

  lemma ShipKeepsStocked(s: State, b: int, q: int, site: Option<int>)
    requires Stocked(s)
    ensures Stocked(Ship(s, b, q, site).state)
  {
    if site.Some? {
      AttemptKeepsStocked(s, RemovedBatchFromLocation(site.value, b, q));
      ThenKeepsStocked(Publish(s, RemovedBatchFromLocation(site.value, b, q)), RemovedBatch(b, q));
    }
  }

  lemma MoveKeepsStocked(s: State, b: int, q: int, from: int, to: int)
    requires Stocked(s)
    ensures Stocked(Move(s, b, q, from, to).state)
  {
    if q > 0 && b > 0 {
      AttemptKeepsStocked(s, RemovedBatchFromLocation(from, b, q));
      ThenKeepsStocked(Publish(s, RemovedBatchFromLocation(from, b, q)), AddedBatchToLocation(to, b, q));
    }
  }

  lemma AssembleKeepsStocked(s: State, o: AssembleOrder, site: Option<int>)
    requires Stocked(s)
    ensures Stocked(Assemble(s, Some(o), site).state)
  {
    if o.quantity > 0 && o.batchId > 0 && o.from.Some? && site.Some?
       && Shortfall(s, site.value, o.from.value, o.quantity).None? {
      var events := AssemblyEvents(site.value, o.batchId, o.quantity, o.from.value);
      ComponentsSound(site.value, o.from.value, o.quantity);
      assert forall i :: 0 <= i < |events| ==> Sound(events[i]);
      ReplayKeepsStocked(s, events);
    }
  }

  /** No command puts a non-positive quantity into a location's ledger, so
      on every location QuantityOfBatch is 0 exactly when the batch is not
      contained. */
  lemma CommandKeepsStocked(s: State, cmd: Option<Command>, site: Option<int>)
    requires Stocked(s)
    ensures Stocked(Dispatch(s, cmd, site).state)
  {
    match cmd {
      case None =>
      case Some(OtherCommand) =>
      case Some(ReceiveCommand(c)) => ReceiveKeepsStocked(s, c.batchId, c.quantity, site);
      case Some(ShipCommand(c)) => ShipKeepsStocked(s, c.batchId, c.quantity, site);
      case Some(MoveCommand(c)) => MoveKeepsStocked(s, c.batchId, c.quantity, c.fromLocationId, c.toLocationId);
      case Some(AssembleCommand(o)) => AssembleKeepsStocked(s, o, site);
    }
  }
}
