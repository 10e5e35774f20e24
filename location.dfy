/** A location's ledger: batch id -> quantity of that batch held there,
    with the two updates a Location makes to it. */
module Ledgers {

  /** What `QuantityOfBatch` answers: the stored quantity, 0 when absent. */
  function QuantityOf(ledger: map<int, int>, batchId: int): (r: int)
    ensures Positive(ledger) ==> r >= 0 && (r == 0 <==> batchId !in ledger)
  {
    if batchId in ledger then ledger[batchId] else 0
  }

  /** The ledger after `AddBatch(batchId, quantity)`. An absent batch is
      stored with the quantity; for a present batch the code stores the
      batch id itself in the entry (the sum it computes is discarded). */
  function Added(ledger: map<int, int>, batchId: int, quantity: int): (r: map<int, int>)
    ensures r.Keys == ledger.Keys + {batchId}
    ensures r[batchId] == if batchId in ledger then batchId else quantity
    ensures forall b :: b in ledger && b != batchId ==> r[b] == ledger[b]
  {
    if batchId in ledger then ledger[batchId := batchId] else ledger[batchId := quantity]
  }

  /** The ledger after `RemoveBatch(batchId, quantity)` of a present batch:
      the holding drops by the quantity when it is larger, otherwise the
      entry goes. */
  function Removed(ledger: map<int, int>, batchId: int, quantity: int): (r: map<int, int>)
    requires batchId in ledger
    ensures ledger[batchId] > quantity ==> r.Keys == ledger.Keys && r[batchId] == ledger[batchId] - quantity
    ensures ledger[batchId] <= quantity ==> r.Keys == ledger.Keys - {batchId}
    ensures forall b :: b in ledger && b != batchId ==> b in r && r[b] == ledger[b]
  {
    var held := ledger[batchId];
    if held > quantity then ledger[batchId := held - quantity] else ledger - {batchId}
  }

  /** A ledger has size 0 exactly when it has no key. */
  lemma NoKeysNoSize(ledger: map<int, int>)
    ensures |ledger| == 0 <==> forall b :: b !in ledger
  {
    if forall b :: b !in ledger {
      assert ledger.Keys == {};
    } else {
      var b :| b in ledger;
      assert b in ledger.Keys;
    }
  }

  /** Every stored quantity is strictly positive. */
  predicate Positive(ledger: map<int, int>) {
    forall b :: b in ledger ==> ledger[b] > 0
  }

  /** With positive arguments, adding keeps every holding positive. */
  lemma AddedKeepsPositive(ledger: map<int, int>, batchId: int, quantity: int)
    requires Positive(ledger) && batchId > 0 && quantity > 0
    ensures Positive(Added(ledger, batchId, quantity))
  {
  }

  /** Removing keeps every holding positive, whatever quantity is removed. */
  lemma RemovedKeepsPositive(ledger: map<int, int>, batchId: int, quantity: int)
    requires Positive(ledger) && batchId in ledger
    ensures Positive(Removed(ledger, batchId, quantity))
  {
  }

  /** On a positive ledger, `QuantityOfBatch` is 0 exactly when the batch
      is not contained. */
  lemma ZeroIffAbsent(ledger: map<int, int>, batchId: int)
    requires Positive(ledger)
    ensures QuantityOf(ledger, batchId) == 0 <==> batchId !in ledger
  {
  }

  /** Adding an absent batch and removing the same quantity restores the
      ledger: the batch is no longer contained and its quantity is 0. */
  lemma RemoveWhatWasAdded(ledger: map<int, int>, batchId: int, quantity: int)
    requires batchId !in ledger
    ensures Removed(Added(ledger, batchId, quantity), batchId, quantity) == ledger
    ensures QuantityOf(Removed(Added(ledger, batchId, quantity), batchId, quantity), batchId) == 0
  {
  }

  /** Adding q2 of an absent batch, then removing a smaller q1, leaves q2 - q1. */
  lemma RemoveLessThanAdded(ledger: map<int, int>, batchId: int, q1: int, q2: int)
    requires batchId !in ledger && q1 < q2
    ensures QuantityOf(Removed(Added(ledger, batchId, q2), batchId, q1), batchId) == q2 - q1
  {
  }

  /** Adding to a present batch is not additive: the entry becomes the batch id. */
  lemma AddToPresentStoresId(ledger: map<int, int>, batchId: int, quantity: int)
    requires batchId in ledger
    ensures QuantityOf(Added(ledger, batchId, quantity), batchId) == batchId
  {
  }
}

/** A location of the warehouse: a name and its own ledger, which
    `AddBatch` and `RemoveBatch` update in place. */
module Locations {
  import opened Optional
  import opened Exceptions
  import opened Ledgers

  class Location {
    const id: int
    const name: string
    var quantityByBatchId: map<int, int>

    /** A new location holds nothing. */
    constructor (id: int, name: string)
      ensures this.id == id && this.name == name
      ensures quantityByBatchId == map[] && IsEmpty()
    {
      this.id := id;
      this.name := name;
      quantityByBatchId := map[];
    }

    /** Empty means no batch is contained. */
    predicate IsEmpty()
      reads this
      ensures IsEmpty() <==> forall b :: !ContainsBatch(b)
    {
      NoKeysNoSize(quantityByBatchId);
      assert forall b :: ContainsBatch(b) <==> b in quantityByBatchId;
      |quantityByBatchId| == 0
    }

    /** The quantity held, or 0 for a batch that is not contained; on a
        positive ledger 0 means exactly that the batch is not contained. */
    function QuantityOfBatch(batchId: int): (r: int)
      reads this
      ensures Positive(quantityByBatchId) ==> r >= 0 && (r == 0 <==> !ContainsBatch(batchId))
    {
      QuantityOf(quantityByBatchId, batchId)
    }

    /** A location that contains a batch is not empty (IsEmpty is false). */
    predicate ContainsBatch(batchId: int)
      reads this
      ensures ContainsBatch(batchId) ==> |quantityByBatchId| != 0
    {
      batchId in quantityByBatchId
    }

    method AddBatch(batchId: int, quantity: int)
      modifies this
      ensures quantityByBatchId == Added(old(quantityByBatchId), batchId, quantity)
      ensures ContainsBatch(batchId) && !IsEmpty()
      ensures forall b :: b != batchId ==> (ContainsBatch(b) <==> old(ContainsBatch(b)))
    {
      if batchId in quantityByBatchId {
        var quantityOnLocation := quantityByBatchId[batchId];
        quantityOnLocation := quantityOnLocation + quantity;  // computed, then not used
        quantityByBatchId := quantityByBatchId[batchId := batchId];
      } else {
        quantityByBatchId := quantityByBatchId[batchId := quantity];
      }
    }

    /** Throws KeyNotFound, changing nothing, when the batch is absent. */
    method RemoveBatch(batchId: int, quantity: int) returns (r: Option<Exception>)
      modifies this
      ensures r == if batchId in old(quantityByBatchId) then None else Some(KeyNotFound)
      ensures quantityByBatchId ==
                if r.None? then Removed(old(quantityByBatchId), batchId, quantity)
                else old(quantityByBatchId)
    {
      if batchId !in quantityByBatchId {
        return Some(KeyNotFound);
      }
      var quantityOnLocation := quantityByBatchId[batchId];
      if quantityOnLocation > quantity {
        quantityByBatchId := quantityByBatchId[batchId := quantityOnLocation - quantity];
      } else {
        quantityByBatchId := quantityByBatchId - {batchId};
      }
      r := None;
    }
  }
}
