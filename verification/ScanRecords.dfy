/** The allocator of scan records (lib/Core/BuildEngine.cpp:390-438): a free list of bounded length,
    and blocks that are used up from one end. A record is identified by its position, counting
    through the blocks in the order they were allocated. */
module ScanRecords {
  import opened EngineState

  const MAX_FREE: nat := 8096
  const BLOCK: nat := 4096

  datatype Record = Record(pausedInputRequests: seq<InputRequest>, deferredScanRequests: seq<ScanRequest>)

  const CLEAR: Record := Record([], [])

  /** Records that differ for different rules. */
  ghost predicate Injective(pending: map<KeyID, nat>) {
    forall k, k' :: k in pending && k' in pending && k != k' ==> pending[k] != pending[k']
  }

  ghost predicate Distinct(rs: seq<nat>) {
    forall i, j :: 0 <= i < j < |rs| ==> rs[i] != rs[j]
  }

  class Allocator {
    var freeRuleScanRecords: seq<nat>
    var numBlocks: nat
    var currentBlockPos: nat
    var currentBlockEnd: nat
    /** What the records hold. */
    var records: seq<Record>
    /** The record of each scanning rule. */
    var pending: map<KeyID, nat>

    /** Every scanning rule has a record of its own, which is neither free nor unallocated; free
        records are distinct, allocated and clear. */
    ghost predicate Valid()
      reads this
    {
      && currentBlockEnd == numBlocks * BLOCK && currentBlockPos <= currentBlockEnd < currentBlockPos + BLOCK + 1
      && |records| == currentBlockEnd
      && Injective(pending) && Distinct(freeRuleScanRecords) && |freeRuleScanRecords| <= MAX_FREE
      && (forall k :: k in pending ==> pending[k] < currentBlockPos && pending[k] !in freeRuleScanRecords)
      && (forall r :: r in freeRuleScanRecords ==> r < currentBlockPos && records[r] == CLEAR)
      && (forall r :: currentBlockPos <= r < currentBlockEnd ==> records[r] == CLEAR)
    }

    constructor ()
      ensures Valid() && pending == map[]
    {
      freeRuleScanRecords, numBlocks, currentBlockPos, currentBlockEnd, records, pending := [], 0, 0, 0, [], map[];
    }

    /** `newRuleScanRecord`, for a rule that begins to be scanned: its record is clear and was not in
        use, and no other rule is affected. A record given back is used again before a new one, and a
        block is added only if there is neither. */
    method Acquire(k: KeyID)
      requires Valid() && k !in pending
      modifies this
      ensures Valid() && k in pending && records[pending[k]] == CLEAR && pending == old(pending)[k := pending[k]]
      ensures forall x :: x in old(pending) ==> records[pending[x]] == old(records[pending[x]])
      ensures if old(freeRuleScanRecords) != []
        then old(freeRuleScanRecords) == freeRuleScanRecords + [pending[k]] && currentBlockPos == old(currentBlockPos)
        else freeRuleScanRecords == [] && pending[k] == old(currentBlockPos) && currentBlockPos == old(currentBlockPos) + 1
      ensures numBlocks == old(numBlocks) + if old(freeRuleScanRecords) == [] && old(currentBlockPos) == old(currentBlockEnd) then 1 else 0
    {
      if freeRuleScanRecords != [] {
        var last := |freeRuleScanRecords| - 1;
        var r := freeRuleScanRecords[last];
        assert r in freeRuleScanRecords;
        assert forall i :: 0 <= i < last ==> freeRuleScanRecords[i] != freeRuleScanRecords[last];
        assert forall x :: x in freeRuleScanRecords[..last] ==> x in freeRuleScanRecords;
        freeRuleScanRecords := freeRuleScanRecords[..last];
        pending := pending[k := r];
        return;
      }
      if currentBlockPos == currentBlockEnd {
        records := records + seq(BLOCK, _ => CLEAR);
        numBlocks := numBlocks + 1;
        currentBlockEnd := currentBlockPos + BLOCK;
      }
      pending := pending[k := currentBlockPos];
      currentBlockPos := currentBlockPos + 1;
    }

    /** `freeRuleScanRecord`, when the scan of a rule ends or is cancelled. Beyond the limit of the
        free list the record is left alone, and not used again in this build. */
    method Release(k: KeyID)
      requires Valid() && k in pending
      modifies this
      ensures Valid() && pending == old(pending) - {k}
      ensures forall x :: x in pending ==> records[pending[x]] == old(records[pending[x]])
      ensures numBlocks == old(numBlocks) && currentBlockPos == old(currentBlockPos)
      ensures freeRuleScanRecords == old(freeRuleScanRecords) + if |old(freeRuleScanRecords)| < MAX_FREE then [old(pending[k])] else []
    {
      var r := pending[k];
      if |freeRuleScanRecords| < MAX_FREE {
        records := records[r := CLEAR];
        freeRuleScanRecords := freeRuleScanRecords + [r];
      }
      pending := pending - {k};
    }

    /** A request is parked on the record of a scanning rule. */
    method Park(k: KeyID, record: Record)
      requires Valid() && k in pending
      modifies this`records
      ensures Valid() && records[pending[k]] == record
      ensures forall x :: x in pending && x != k ==> records[pending[x]] == old(records[pending[x]])
    {
      records := records[pending[k] := record];
    }

    /** The end of a build: the blocks are deleted. The records of rules that are still scanning are
        deleted with them, so that the allocator is in order if and only if there are none. */
    method Clear()
      requires Valid()
      modifies this
      ensures pending == old(pending) && (Valid() <==> pending == map[])
    {
      freeRuleScanRecords, numBlocks, currentBlockPos, currentBlockEnd, records := [], 0, 0, 0, [];
      if forall k :: k !in pending {
        assert pending.Keys == {};
      } else {
        var k :| k in pending;
      }
    }
  }
}
