/** Writing one approved item to the object store and the record store, with compensation.
    Every store call may fail before or after it took effect; a failed call has no later effect. */
module HandoffSaga {
  import opened Options
  import opened Outcomes
  import opened Strings
  import opened HandoffKeys

  datatype Provenance = Provenance(
    generatedAt: Text, runnerId: Text, source: Text, sourceRunId: Text, toolCallIds: seq<Text>)

  datatype Approval = Approval(approvedAt: Text, approver: Text, decisionId: Text)

  /** A scan's status; the code compares it only with `error` and `unsafe`. */
  datatype ScanStatus = CleanStatus | OtherStatus

  datatype ScanRecord = ScanRecord(
    status: ScanStatus, classification: Classification, engine: Text, scannedAt: Text, signatureVersion: Text)

  datatype Record = Record(
    approval: Approval,
    byteSize: nat,
    classification: Classification,
    content: Digest,
    contentType: Text,
    createdAt: Text,
    deletedAt: Option<int>,
    evidenceIds: seq<Text>,
    expiresAt: Option<int>,
    id: Text,
    kind: Kind,
    leaseId: Text,
    ownerUserId: Text,
    provenance: Provenance,
    workspacePath: Text,
    retention: Retention,
    runId: Text,
    scan: ScanRecord,
    storageKey: Text,
    tenantId: Text)

  /** What the stores do during one item; `clock` is the database's time at the look-up. */
  datatype StoreWorld = StoreWorld(put: Fault, undoPut: Fault, insert: Fault, find: Fault, clock: int,
                                   undoInsert: Fault)

  datatype Stores = Stores(objects: map<Text, seq<Byte>>, records: map<Text, Record>)

  datatype Reason =
    | ApprovalRejected | ArtifactTooLarge | EmptyPayload | FileReadFailed | MemoryTooLarge
    | ObjectWriteFailed | RecordWriteFailed | ScanClassificationMismatch | ScanFailed | UnsafePayload

  /** How one candidate ends; a failed compensation reports the key that is left behind. */
  datatype Ending = Persisted(record: Record) | Rejected(reason: Reason) | CleanupRequired(storageKey: Text)

  function PutObject(objects: map<Text, seq<Byte>>, key: Text, bytes: seq<Byte>, fault: Fault): map<Text, seq<Byte>> {
    if fault.FailsBefore? then objects else objects[key := bytes]
  }

  function DeleteObject(objects: map<Text, seq<Byte>>, key: Text, fault: Fault): map<Text, seq<Byte>> {
    if fault.FailsBefore? then objects else objects - {key}
  }

  /** The table's primary key and its unique tenant and storage key. */
  predicate Conflicts(records: map<Text, Record>, r: Record) {
    || r.id in records
    || exists id :: id in records && records[id].tenantId == r.tenantId && records[id].storageKey == r.storageKey
  }

  /** The table's constraints: besides the keys, the scan's status must be `clean`. */
  function InsertFault(records: map<Text, Record>, r: Record, fault: Fault): Fault {
    if Conflicts(records, r) || !r.scan.status.CleanStatus? then FailsBefore else fault
  }

  function InsertRecord(records: map<Text, Record>, r: Record, fault: Fault): map<Text, Record> {
    if InsertFault(records, r, fault).FailsBefore? then records else records[r.id := r]
  }

  /** Neither deleted nor expired. */
  predicate Active(r: Record, clock: int) {
    r.deletedAt.None? && (r.expiresAt.None? || r.expiresAt.value > clock)
  }

  function FindActive(records: map<Text, Record>, id: Text, tenantId: Text, clock: int): Option<Record> {
    if id in records && records[id].tenantId == tenantId && Active(records[id], clock) then Some(records[id]) else None
  }

  predicate SameItem(existing: Record, r: Record) {
    && existing.storageKey == r.storageKey && existing.content == r.content
    && existing.ownerUserId == r.ownerUserId && existing.runId == r.runId
  }

  /** After a failed put: delete the key again. */
  function PutFailed(w: StoreWorld, key: Text, s: Stores): (Ending, Stores) {
    (if w.undoPut.Works? then Rejected(ObjectWriteFailed) else CleanupRequired(key),
     s.(objects := DeleteObject(s.objects, key, w.undoPut)))
  }

  /** After a failed insert: look whether it took effect, and compensate only when it did not. */
  function InsertFailed(w: StoreWorld, r: Record, s: Stores): (Ending, Stores) {
    var existing := FindActive(s.records, r.id, r.tenantId, w.clock);
    if !w.find.Works? then (CleanupRequired(r.storageKey), s)
    else if existing.Some? then
      (if SameItem(existing.value, r) then Persisted(existing.value) else CleanupRequired(r.storageKey), s)
    else
      (if w.undoInsert.Works? then Rejected(RecordWriteFailed) else CleanupRequired(r.storageKey),
       s.(objects := DeleteObject(s.objects, r.storageKey, w.undoInsert)))
  }

  function Commit(w: StoreWorld, r: Record, bytes: seq<Byte>, s: Stores): (Ending, Stores) {
    var put := s.(objects := PutObject(s.objects, r.storageKey, bytes, w.put));
    if !w.put.Works? then PutFailed(w, r.storageKey, put)
    else
      var inserted := put.(records := InsertRecord(put.records, r, w.insert));
      if InsertFault(put.records, r, w.insert).Works? then (Persisted(r), inserted) else InsertFailed(w, r, inserted)
  }

  // ---- The stores as objects, and the writes in the order they are made ----

  class ObjectStore {
    var objects: map<Text, seq<Byte>>

    constructor ()
      ensures objects == map[]
    {
      objects := map[];
    }

    method Put(key: Text, bytes: seq<Byte>, fault: Fault) returns (ok: bool)
      modifies this
      ensures objects == PutObject(old(objects), key, bytes, fault) && ok == fault.Works?
    {
      if !fault.FailsBefore? { objects := objects[key := bytes]; }
      return fault.Works?;
    }

    method Delete(key: Text, fault: Fault) returns (ok: bool)
      modifies this
      ensures objects == DeleteObject(old(objects), key, fault) && ok == fault.Works?
    {
      if !fault.FailsBefore? { objects := objects - {key}; }
      return fault.Works?;
    }

    method Get(key: Text) returns (bytes: Option<seq<Byte>>)
      ensures bytes.Some? <==> key in objects
      ensures bytes.Some? ==> bytes.value == objects[key]
    {
      return if key in objects then Some(objects[key]) else None;
    }
  }

  class RecordStore {
    var records: map<Text, Record>

    constructor ()
      ensures records == map[]
    {
      records := map[];
    }

    method Insert(r: Record, fault: Fault) returns (ok: bool)
      modifies this
      ensures records == InsertRecord(old(records), r, fault) && ok == InsertFault(old(records), r, fault).Works?
    {
      var effective := InsertFault(records, r, fault);
      if !effective.FailsBefore? { records := records[r.id := r]; }
      return effective.Works?;
    }

    method FindActiveById(id: Text, tenantId: Text, clock: int) returns (found: Option<Record>)
      ensures found.Some? <==> id in records && records[id].tenantId == tenantId && Active(records[id], clock)
      ensures found.Some? ==> found.value == records[id]
    {
      return FindActive(records, id, tenantId, clock);
    }
  }

  method CommitItem(w: StoreWorld, r: Record, bytes: seq<Byte>, objectStore: ObjectStore, recordStore: RecordStore)
    returns (ending: Ending)
    modifies objectStore, recordStore
    ensures (ending, Stores(objectStore.objects, recordStore.records))
            == Commit(w, r, bytes, Stores(old(objectStore.objects), old(recordStore.records)))
  {
    var putOk := objectStore.Put(r.storageKey, bytes, w.put);
    if !putOk {
      var undone := objectStore.Delete(r.storageKey, w.undoPut);
      if !undone { return CleanupRequired(r.storageKey); }
      return Rejected(ObjectWriteFailed);
    }
    var insertOk := recordStore.Insert(r, w.insert);
    if !insertOk {
      if !w.find.Works? { return CleanupRequired(r.storageKey); }
      var existing := recordStore.FindActiveById(r.id, r.tenantId, w.clock);
      if existing.Some? && SameItem(existing.value, r) { return Persisted(existing.value); }
      if existing.Some? { return CleanupRequired(r.storageKey); }
      var undone := objectStore.Delete(r.storageKey, w.undoInsert);
      if !undone { return CleanupRequired(r.storageKey); }
      return Rejected(RecordWriteFailed);
    }
    return Persisted(r);
  }

  // ---- Atomicity of one item ----

  /** No row that could still be read points at `key` from time `clock` on. */
  ghost predicate NoActiveRow(records: map<Text, Record>, key: Text, clock: int) {
    forall id :: id in records && records[id].storageKey == key ==>
      records[id].deletedAt.Some? || (records[id].expiresAt.Some? && records[id].expiresAt.value <= clock)
  }

  /** Neither an object nor an undeleted row under `key`. */
  ghost predicate NothingStored(s: Stores, key: Text) {
    && key !in s.objects
    && forall id :: id in s.records && s.records[id].storageKey == key ==> s.records[id].deletedAt.Some?
  }

  /** Only the object under the key of `r` may differ, and only the row `r` is added. */
  ghost predicate OnlyTouches(s: Stores, t: Stores, r: Record) {
    && (forall k :: k != r.storageKey ==> (k in s.objects <==> k in t.objects))
    && (forall k :: k != r.storageKey && k in s.objects ==> t.objects[k] == s.objects[k])
    && (forall id :: id in s.records ==> id in t.records && t.records[id] == s.records[id])
    && (forall id :: id in t.records && id !in s.records ==> id == r.id && t.records[id] == r)
  }

  /** What an item's ending promises about the stores. */
  ghost predicate Honest(t: Stores, r: Record, bytes: seq<Byte>, clock: int, ending: Ending) {
    match ending
    case Persisted(kept) =>
      && kept == r && r.scan.status.CleanStatus? && r.id in t.records && t.records[r.id] == r
      && r.storageKey in t.objects && t.objects[r.storageKey] == bytes
    case Rejected(_) => r.storageKey !in t.objects && NoActiveRow(t.records, r.storageKey, clock)
    case CleanupRequired(key) => key == r.storageKey
  }

  lemma PutFailureSettles(w: StoreWorld, r: Record, bytes: seq<Byte>, s: Stores)
    requires NothingStored(s, r.storageKey)
    requires !w.put.Works?
    ensures var (ending, t) := Commit(w, r, bytes, s);
            Honest(t, r, bytes, w.clock, ending) && OnlyTouches(s, t, r)
  {
    hide Conflicts, InsertFailed;
  }

  /** The insert had no effect, or did and was not acknowledged. */
  lemma InsertFailureSettles(w: StoreWorld, r: Record, bytes: seq<Byte>, s: Stores, t: Stores)
    requires NothingStored(s, r.storageKey) && r.deletedAt.None?
    requires t.objects == s.objects[r.storageKey := bytes]
    requires t.records == s.records
             || (r.id !in s.records && r.scan.status.CleanStatus? && t.records == s.records[r.id := r])
    ensures var (ending, u) := InsertFailed(w, r, t);
            Honest(u, r, bytes, w.clock, ending) && OnlyTouches(s, u, r)
  {
  }

  /** All or nothing: an item is kept with object and row, or rejected with neither, or its key is
      reported; whatever fails, nothing but its own key and row is touched. */
  lemma CommitSettles(w: StoreWorld, r: Record, bytes: seq<Byte>, s: Stores)
    requires NothingStored(s, r.storageKey) && r.deletedAt.None?
    ensures var (ending, t) := Commit(w, r, bytes, s);
            Honest(t, r, bytes, w.clock, ending) && OnlyTouches(s, t, r)
  {
    hide InsertFailed, PutFailed;
    if !w.put.Works? {
      PutFailureSettles(w, r, bytes, s);
    } else if !InsertFault(s.records, r, w.insert).Works? {
      hide Honest, OnlyTouches, NothingStored;
      var put := s.(objects := PutObject(s.objects, r.storageKey, bytes, w.put));
      InsertFailureSettles(w, r, bytes, s, put.(records := InsertRecord(put.records, r, w.insert)));
    }
  }
}
