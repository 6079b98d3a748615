/** The in-memory idempotency records and the worker that deletes expired ones in batches. */
module IdempotencyStore {
  import opened Common
  import opened Text

  datatype RecordStatus = Processing | Done | Failed

  /** A stored body as the service reads it back: JSON text is kept decoded. */
  datatype Body = NoBody | ResponseBody(response: string) | ErrorBody(code: int, message: string)

  datatype Record = Record(
    key: string, hash: string, body: Body, code: int, status: RecordStatus, ttlAt: int, createdAt: int, updatedAt: int)

  datatype StoreError = KeyRequired | HashRequired | HashMismatch | KeyExists | KeyNotFound

  /** Keys whose time to live ended at or before the cutoff. */
  function Expired(items: map<string, Record>, cutoff: int): set<string> {
    set k | k in items && items[k].ttlAt <= cutoff
  }

  class Repository {
    var items: map<string, Record>

    constructor ()
      ensures items == map[]
    {
      items := map[];
    }

    /** Claims a key: the one atomic step that decides who runs the handler. */
    method CreateProcessing(rawKey: string, rawHash: string, ttlAt: int, now: int)
      returns (record: Option<Record>, error: Option<StoreError>)
      modifies this
      ensures var key, hash := TrimSpace(rawKey), TrimSpace(rawHash);
              if key == "" then error == Some(KeyRequired) && record == None && items == old(items)
              else if hash == "" then error == Some(HashRequired) && record == None && items == old(items)
              else if key in old(items) then
                && record == Some(old(items)[key]) && items == old(items)
                && error == Some(if old(items)[key].hash != hash then HashMismatch else KeyExists)
              else
                && error == None && record.Some? && items == old(items)[key := record.value]
                && record.value.key == key && record.value.hash == hash && record.value.status == Processing
                && record.value.body == NoBody && record.value.code == 0
                && record.value.createdAt == now && record.value.updatedAt == now
                && record.value.ttlAt == if ttlAt == ZERO_TIME then now + 86_400_000_000_000 else ttlAt
    {
      var key, hash := TrimSpace(rawKey), TrimSpace(rawHash);
      if key == "" {
        return None, Some(KeyRequired);
      }
      if hash == "" {
        return None, Some(HashRequired);
      }
      var expiry := if ttlAt == ZERO_TIME then now + DAY else ttlAt;
      if key in items {
        return Some(items[key]), Some(if items[key].hash != hash then HashMismatch else KeyExists);
      }
      var fresh' := Record(key, hash, NoBody, 0, Processing, expiry, now, now);
      items := items[key := fresh'];
      return Some(fresh'), None;
    }

    /** Overwrites the outcome of whatever record now has the key. */
    method MarkStatus(
      rawKey: string, status: RecordStatus, body: Body, code: int, now: int) returns (error: Option<StoreError>)
      modifies this
      ensures var key := TrimSpace(rawKey);
              if key == "" then error == Some(KeyRequired) && items == old(items)
              else if key !in old(items) then error == Some(KeyNotFound) && items == old(items)
              else error == None && items == old(items)[key :=
                     old(items)[key].(status := status, body := body, code := code, updatedAt := now)]
    {
      var key := TrimSpace(rawKey);
      if key == "" {
        return Some(KeyRequired);
      }
      if key !in items {
        return Some(KeyNotFound);
      }
      items := items[key := items[key].(status := status, body := body, code := code, updatedAt := now)];
      return None;
    }

    /** Deletes expired records in whatever order the map is walked, up to a positive limit. */
    method DeleteExpired(before: int, limit: int, now: int) returns (removed: nat)
      modifies this
      ensures var cutoff := if before == ZERO_TIME then now else before;
              var due := Expired(old(items), cutoff);
              && removed == (if 0 < limit < |due| then limit else |due|)
              && items.Keys <= old(items).Keys && old(items).Keys - items.Keys <= due
              && |old(items).Keys - items.Keys| == removed
              && (forall k | k in items :: items[k] == old(items)[k])
              && (forall k | k in old(items) && k !in items :: old(items)[k].ttlAt <= cutoff)
              && (limit <= 0 || removed < limit ==> forall k | k in items :: items[k].ttlAt > cutoff)
    {
      var cutoff := if before == ZERO_TIME then now else before;
      ghost var gone;
      removed, gone := Sweep(cutoff, limit);
      Swept(old(items), items, gone, cutoff, limit, removed);
    }

    /** The walk: it stops at the limit or after the last record. */
    method Sweep(cutoff: int, limit: int) returns (removed: nat, ghost gone: set<string>)
      modifies this
      ensures items == old(items) - gone && gone <= Expired(old(items), cutoff) && removed == |gone|
      ensures limit <= 0 || removed < limit ==> gone == Expired(old(items), cutoff)
      ensures limit > 0 ==> removed <= limit
    {
      ghost var due := Expired(items, cutoff);
      gone := {};
      var todo := items.Keys;
      removed := 0;
      while todo != {}
        invariant items == old(items) - gone && todo <= items.Keys
        invariant gone <= due && due - gone <= todo && |gone| == removed
        invariant limit > 0 ==> removed < limit
        decreases |todo|
      {
        var key :| key in todo;
        todo := todo - {key};
        if items[key].ttlAt <= cutoff {
          gone := gone + {key};
          items := items - {key};
          removed := removed + 1;
          if limit > 0 && removed >= limit {
            break;
          }
        }
      }
    }
  }

  /** How many were deleted, from whether the loop ran out of records or into its limit. */
  lemma Swept(
    was: map<string, Record>, items: map<string, Record>, gone: set<string>, cutoff: int, limit: int, removed: nat)
    requires items == was - gone && gone <= Expired(was, cutoff) && removed == |gone|
    requires limit <= 0 || removed < limit ==> gone == Expired(was, cutoff)
    requires limit > 0 ==> removed <= limit
    ensures var due := |Expired(was, cutoff)|; removed == if 0 < limit < due then limit else due
    ensures items.Keys <= was.Keys && was.Keys - items.Keys == gone
    ensures forall k | k in was && k !in items :: was[k].ttlAt <= cutoff
    ensures limit <= 0 || removed < limit ==> forall k | k in items :: items[k].ttlAt > cutoff
  {
    var due := Expired(was, cutoff);
    assert was.Keys - items.Keys == gone;
    SubsetSize(gone, due);
  }

  class CleanupWorker {
    const repo: Repository
    const batchSize: int

    constructor (repo: Repository, batchSize: int)
      ensures this.repo == repo && this.batchSize > 0
      ensures this.batchSize == if batchSize <= 0 then 500 else batchSize
    {
      this.repo := repo;
      this.batchSize := if batchSize <= 0 then 500 else batchSize;
    }

    /**
      Deletes until a batch comes back short.  Unless canceled it removes exactly the
      expired records and returns how many there were.
     */
    method DeleteExpired(before: int, now: int, canceled: nat -> bool) returns (total: nat, stopped: bool)
      requires batchSize > 0
      modifies repo
      ensures var cutoff := if before == ZERO_TIME then now else before;
              var due := Expired(old(repo.items), cutoff);
              && repo.items.Keys <= old(repo.items).Keys
              && old(repo.items).Keys - repo.items.Keys <= due
              && total == |old(repo.items).Keys - repo.items.Keys|
              && (forall k | k in repo.items :: repo.items[k] == old(repo.items)[k])
              && (!stopped ==> repo.items == old(repo.items) - due && total == |due|)
              && (forall k | k in old(repo.items) && k !in repo.items :: old(repo.items)[k].ttlAt <= cutoff)
              && (!stopped ==> forall k | k in repo.items :: repo.items[k].ttlAt > cutoff)
    {
      var cutoff := if before == ZERO_TIME then now else before;
      ghost var due := Expired(repo.items, cutoff);
      total := 0;
      var round := 0;
      while true
        invariant repo.items.Keys <= old(repo.items).Keys
        invariant old(repo.items).Keys - repo.items.Keys <= due
        invariant total == |old(repo.items).Keys - repo.items.Keys|
        invariant forall k | k in repo.items :: repo.items[k] == old(repo.items)[k]
        invariant forall k | k in old(repo.items) && k !in repo.items :: old(repo.items)[k].ttlAt <= cutoff
        decreases |repo.items|
      {
        if canceled(round) {
          return total, true;
        }
        round := round + 1;
        ghost var was := repo.items;
        var deleted := repo.DeleteExpired(cutoff, batchSize, now);
        Tally(old(repo.items).Keys, was.Keys, repo.items.Keys);
        assert Expired(was, cutoff) <= due;
        total := total + deleted;
        if deleted < batchSize {
          SubsetSize(was.Keys - repo.items.Keys, Expired(was, cutoff));
          assert forall k | k in due :: k !in repo.items;
          assert old(repo.items).Keys - repo.items.Keys == due;
          return total, false;
        }
      }
    }
  }

  lemma Tally(a: set<string>, b: set<string>, c: set<string>)
    requires c <= b <= a
    ensures |a - c| == |a - b| + |b - c| && |c| == |b| - |b - c|
  {
    assert a - c == (a - b) + (b - c);
    assert b == c + (b - c);
  }
}
