/**
 The two drivers of the download records: a JSON document replaced as a whole, and a SQLite table with
 an in-memory copy and a sorted view beside it. Both queue their writes.
 */
module DownloadStores {
  import Managed = ManagedDownloads
  import opened Wrappers

  type Hash = Managed.Hash
  type Record = Managed.Record
  type Records = map<Hash, Record>

  datatype Write =
    | Upsert(record: Record)
    | Remove(hash: Hash)
    | Keep(hash: Hash, kept: bool)
    | Renew(hash: Hash, expiresAt: int)

  // A write that reads and changes the records in one go.
  function Apply(records: Records, w: Write): Records {
    match w
    case Upsert(record) => records[record.hash := record]
    case Remove(hash) => records - {hash}
    case Keep(hash, kept) => if hash in records then records[hash := records[hash].(kept := kept)] else records
    case Renew(hash, expiresAt) =>
      if hash in records then records[hash := records[hash].(expiresAt := expiresAt)] else records
  }

  function ApplyAll(records: Records, ws: seq<Write>): Records
    decreases |ws|
  {
    if ws == [] then records else Apply(ApplyAll(records, ws[..|ws| - 1]), ws[|ws| - 1])
  }

  predicate Keyed(records: Records) { forall h <- records :: records[h].hash == h }

  // ----- the JSON driver: copy, change, persist, swap ----------------------------------------------------

  // Its queue runs one write at a time; a write is first made durable and then becomes visible. `taken`
  // lists the writes that reached the disk, in order.
  datatype Json = Json(disk: Records, visible: Records, queue: seq<Write>, swapping: bool, taken: seq<Write>)

  datatype JsonStep = Enqueue(w: Write) | Persist(ok: bool) | Swap | Crash

  function JsonNext(s: Json, step: JsonStep): Json {
    match step
    case Enqueue(w) => s.(queue := s.queue + [w])
    case Persist(ok) =>
      if s.queue == [] || s.swapping then s
      else if ok then s.(disk := Apply(s.visible, s.queue[0]), swapping := true, taken := s.taken + [s.queue[0]])
      else s.(queue := s.queue[1..])
    case Swap =>
      if s.queue != [] && s.swapping then s.(visible := s.disk, queue := s.queue[1..], swapping := false) else s
    case Crash => s.(visible := s.disk, queue := [], swapping := false)
  }

  function JsonRun(s: Json, steps: seq<JsonStep>): Json
    decreases |steps|
  {
    if steps == [] then s else JsonRun(JsonNext(s, steps[0]), steps[1..])
  }

  // What is visible is on disk, or one write behind it.
  predicate JsonInv(s: Json, initial: Records) {
    && s.disk == ApplyAll(initial, s.taken)
    && (if s.swapping
        then s.taken != [] && s.queue != [] && s.visible == ApplyAll(initial, s.taken[..|s.taken| - 1])
        else s.visible == s.disk)
  }

  lemma JsonStepKeepsInv(s: Json, initial: Records, step: JsonStep)
    requires JsonInv(s, initial)
    ensures JsonInv(JsonNext(s, step), initial) && s.taken <= JsonNext(s, step).taken
  {
    if step == Persist(true) && s.queue != [] && !s.swapping {
      assert (s.taken + [s.queue[0]])[..|s.taken|] == s.taken;
    }
  }

  // Through any interleaving of writes, failures and crashes the disk is the result of the writes that
  // reached it, in order; readers see that or all but its last write, and nothing that reached it is undone.
  lemma {:induction false} ReadersSeeDurableRecords(s: Json, initial: Records, steps: seq<JsonStep>)
    requires JsonInv(s, initial)
    ensures var s' := JsonRun(s, steps);
      && s.taken <= s'.taken && s'.disk == ApplyAll(initial, s'.taken)
      && (s'.visible == s'.disk || (s'.taken != [] && s'.visible == ApplyAll(initial, s'.taken[..|s'.taken| - 1])))
      && JsonNext(s', Crash).visible == s'.disk
    decreases |steps|
  {
    if steps != [] {
      JsonStepKeepsInv(s, initial, steps[0]);
      ReadersSeeDurableRecords(JsonNext(s, steps[0]), initial, steps[1..]);
    }
  }

  /** The queue of `write` operations around the map in memory. */
  class JsonStore {
    var disk: Records
    var byHash: Records
    var queue: seq<Write>
    var swapping: bool
    ghost var taken: seq<Write>

    ghost function Current(): Json
      reads this
    {
      Json(disk, byHash, queue, swapping, taken)
    }

    constructor (document: Records)
      ensures Current() == Json(document, document, [], false, [])
    {
      disk, byHash, queue, swapping, taken := document, document, [], false, [];
    }

    method Submit(w: Write)
      modifies this
      ensures Current() == JsonNext(old(Current()), Enqueue(w))
    {
      queue := queue + [w];
    }

    // The head of the queue copies the map, changes the copy and writes the document; when that fails the
    // previous records remain.
    method PersistHead(ok: bool)
      requires queue != [] && !swapping
      modifies this
      ensures Current() == JsonNext(old(Current()), Persist(ok))
    {
      var next := Apply(byHash, queue[0]);
      if ok {
        disk := next;
        taken := taken + [queue[0]];
        swapping := true;
      } else {
        queue := queue[1..];
      }
    }

    // this.byHash = next, and the next operation of the queue may begin.
    method SwapIn()
      requires queue != [] && swapping
      modifies this
      ensures Current() == JsonNext(old(Current()), Swap)
    {
      byHash := disk;
      queue := queue[1..];
      swapping := false;
    }
  }

  // ----- the SQLite driver --------------------------------------------------------------------------------

  predicate NewestFirst(list: seq<Record>) { forall i, j | 0 <= i < j < |list| :: list[i].addedAt >= list[j].addedAt }

  // Each record once, and nothing else.
  predicate Lists(list: seq<Record>, records: Records) {
    && |list| == |records|
    && (forall h <- records :: records[h] in list)
    && forall i | 0 <= i < |list| :: list[i].hash in records && records[list[i].hash] == list[i]
  }

  predicate Newest(records: Records, h: Hash) {
    h in records && forall k <- records :: records[h].addedAt >= records[k].addedAt
  }

  lemma {:induction false} SomeNewest(records: Records)
    requires records != map[]
    ensures exists h :: Newest(records, h)
    decreases |records|
  {
    var k :| k in records;
    var rest := records - {k};
    assert forall x <- records :: x == k || (x in rest && rest[x] == records[x]);
    if rest == map[] {
      assert forall x <- records :: x !in rest;
      assert Newest(records, k);
    } else {
      assert rest.Keys == records.Keys - {k};
      SomeNewest(rest);
      var o :| Newest(rest, o);
      assert Newest(records, if records[k].addedAt > records[o].addedAt then k else o);
    }
  }

  /** The table, the copy of it kept in memory once it was read, and the sorted view kept until a write. */
  class SqliteStore {
    var table: Records
    var byHash: Option<Records>
    var sorted: Option<seq<Record>>

    // Memory is in step with the table.
    ghost predicate Valid()
      reads this
    {
      && Keyed(table)
      && (byHash.Some? ==> byHash.value == table)
      && (sorted.Some? ==> byHash.Some? && Lists(sorted.value, table) && NewestFirst(sorted.value))
    }

    // A freshly opened database: whatever it holds, nothing is in memory yet.
    constructor (table: Records)
      requires Keyed(table)
      ensures Valid() && this.table == table
    {
      this.table, byHash, sorted := table, None, None;
    }

    method Load() returns (records: Records)
      requires Valid()
      modifies this`byHash
      ensures Valid() && byHash == Some(table) && records == table
    {
      if byHash.None? { byHash := Some(table); }
      records := byHash.value;
    }

    method Get(hash: Hash) returns (record: Option<Record>)
      requires Valid()
      modifies this`byHash
      ensures Valid() && record == if hash in table then Some(table[hash]) else None
    {
      var records := Load();
      record := if hash in records then Some(records[hash]) else None;
    }

    method List() returns (list: seq<Record>)
      requires Valid()
      modifies this`byHash, this`sorted
      ensures Valid() && Lists(list, table) && NewestFirst(list)
    {
      var records := Load();
      if sorted.None? {
        var view := Sort(records);
        sorted := Some(view);
      }
      list := sorted.value;
    }

    // `ok` is whether the statement succeeded; when it did not, nothing changes.
    method Put(record: Record, ok: bool)
      requires Valid()
      modifies this
      ensures Valid() && table == if ok then Apply(old(table), Upsert(record)) else old(table)
    {
      if !ok { return; }
      table := table[record.hash := record];
      if byHash.Some? { byHash := Some(byHash.value[record.hash := record]); } else { byHash := Some(table); }
      sorted := None;
    }

    method Delete(hash: Hash, ok: bool)
      requires Valid()
      modifies this
      ensures Valid() && table == if ok then Apply(old(table), Remove(hash)) else old(table)
    {
      if !ok { return; }
      table := table - {hash};
      if byHash.Some? { byHash := Some(byHash.value - {hash}); } else { byHash := Some(table); }
      sorted := None;
    }

    // Reads and writes in its turn.
    method RenewLease(hash: Hash, expiresAt: int, ok: bool)
      requires Valid()
      modifies this
      ensures Valid() && table == if ok then Apply(old(table), Renew(hash, expiresAt)) else old(table)
    {
      var current := Get(hash);
      if current.Some? { Put(current.value.(expiresAt := expiresAt), ok); }
    }
  }

  method Sort(records: Records) returns (list: seq<Record>)
    requires Keyed(records)
    ensures Lists(list, records) && NewestFirst(list)
  {
    list := [];
    var rest := records;
    while rest != map[]
      invariant rest.Keys <= records.Keys && forall h <- rest :: rest[h] == records[h]
      invariant |list| + |rest| == |records| && NewestFirst(list)
      invariant forall h <- records :: h in rest || records[h] in list
      invariant forall i | 0 <= i < |list| :: list[i].hash in records && records[list[i].hash] == list[i]
      invariant forall i, h | 0 <= i < |list| && h in rest :: list[i].addedAt >= rest[h].addedAt
      decreases |rest|
    {
      SomeNewest(rest);
      var h :| h in rest && forall k <- rest :: rest[h].addedAt >= rest[k].addedAt;
      assert (rest - {h}).Keys == rest.Keys - {h};
      list := list + [rest[h]];
      rest := rest - {h};
    }
  }

  // ----- keeping a record ------------------------------------------------------------------------------------

  // Both drivers read the record when their lock is granted, and refuse one that is being deleted.
  predicate Refused(seen: Records, hash: Hash) { hash in seen && seen[hash].lifecycle == Managed.Deleting }

  // setKept of the SQLite driver queues the whole record it has read; by the time of its turn the writes
  // queued before it have been applied.
  function KeepLate(seen: Records, earlier: seq<Write>, hash: Hash, kept: bool): Records {
    var now := ApplyAll(seen, earlier);
    if hash in seen && !Refused(seen, hash) then Apply(now, Upsert(seen[hash].(kept := kept))) else now
  }

  // setKept of the JSON driver changes the record as it is at its turn.
  function KeepInTurn(seen: Records, earlier: seq<Write>, hash: Hash, kept: bool): Records {
    var now := ApplyAll(seen, earlier);
    if Refused(seen, hash) then now else Apply(now, Keep(hash, kept))
  }

  // The two agree exactly when the keep is refused, or the writes in front left the record alone but for its
  // kept flag.
  lemma KeepsAgree(seen: Records, earlier: seq<Write>, hash: Hash, kept: bool)
    requires Keyed(seen)
    ensures var now := ApplyAll(seen, earlier);
      KeepLate(seen, earlier, hash, kept) == KeepInTurn(seen, earlier, hash, kept) <==>
        if hash in seen && seen[hash].lifecycle == Managed.Deleting then true
        else if hash in seen then hash in now && now[hash].(kept := kept) == seen[hash].(kept := kept)
        else hash !in now || now[hash].kept == kept
  {
    var now := ApplyAll(seen, earlier);
    var late, turn := KeepLate(seen, earlier, hash, kept), KeepInTurn(seen, earlier, hash, kept);
    if Refused(seen, hash) {
    } else if hash in seen {
      assert late[hash] == seen[hash].(kept := kept);
      if hash in now { assert turn[hash] == now[hash].(kept := kept); }
      if hash in now && turn[hash] == late[hash] { assert late == turn; }
    } else if hash in now {
      assert turn[hash] == now[hash].(kept := kept);
      if now[hash].kept == kept { assert now[hash].(kept := kept) == now[hash]; assert turn == now; }
    }
  }

  // A renewal or a removal queued just before is undone by the SQLite driver and not by the JSON one, unless
  // the record was being deleted when the keep read it: then neither driver changes anything.
  lemma LateKeepUndoes(seen: Records, hash: Hash, kept: bool, expiresAt: int)
    requires Keyed(seen) && hash in seen && seen[hash].expiresAt != expiresAt
    ensures var renewal := [Renew(hash, expiresAt)];
      var late, turn := KeepLate(seen, renewal, hash, kept), KeepInTurn(seen, renewal, hash, kept);
      && hash in late && hash in turn && turn[hash].expiresAt == expiresAt
      && (late[hash].expiresAt == seen[hash].expiresAt <==> seen[hash].lifecycle != Managed.Deleting)
    ensures hash !in KeepInTurn(seen, [Remove(hash)], hash, kept)
    ensures hash in KeepLate(seen, [Remove(hash)], hash, kept) <==> seen[hash].lifecycle != Managed.Deleting
  {
    assert ApplyAll(seen, [Renew(hash, expiresAt)]) == Apply(seen, Renew(hash, expiresAt));
    assert ApplyAll(seen, [Remove(hash)]) == Apply(seen, Remove(hash));
  }
}
