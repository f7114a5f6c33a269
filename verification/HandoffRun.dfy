/** A whole handoff: all candidates of a run in order, then the sandbox's destruction, and reading back. */
module HandoffRun {
  import opened Options
  import opened Outcomes
  import opened Strings
  import opened HandoffKeys
  import opened HandoffSaga
  import opened Handoff

  /** One handoff: its input, the approvals obtained, and what the outside does for each candidate. */
  datatype Job = Job(
    platform: Platform, lease: Lease, who: Identity, candidates: seq<Candidate>,
    approval: ApprovalSet, worlds: nat -> World)

  predicate AllDescribed(candidates: seq<Candidate>) {
    forall i :: 0 <= i < |candidates| ==> Described(candidates[i])
  }

  ghost predicate JobOk(job: Job) {
    && InputOk(job.platform, job.lease, job.candidates)
    && job.who == IdentityOf(job.lease)
    && ApprovalOk(job.platform, job.approval, job.who, job.candidates)
  }

  /** The status of candidate `j`'s decision. */
  function VerdictAt(job: Job, j: nat): Option<Verdict>
    requires j < |job.candidates|
  {
    var decisions := ByCandidate(job.approval.decisions);
    var id := job.candidates[j].candidateId;
    if id in decisions then Some(decisions[id].verdict) else None
  }

  /** The code processes whatever is not rejected. */
  predicate NotRejected(job: Job, j: nat)
    requires j < |job.candidates|
  {
    VerdictAt(job, j).Some? && !VerdictAt(job, j).value.Decline?
  }

  function AttemptAt(job: Job, j: nat): Attempt
    requires j < |job.candidates| && AllDescribed(job.candidates)
  {
    var c := job.candidates[j];
    var decisions := ByCandidate(job.approval.decisions);
    if c.candidateId !in decisions then Raise  // the look-up's result is used without a check
    else if decisions[c.candidateId].verdict.Decline? then Skip(ApprovalRejected)
    else AttemptApproved(job.platform, job.lease, job.who, c, decisions[c.candidateId], job.worlds(j))
  }

  datatype Progress = Progress(items: seq<Item>, stores: Stores, raised: bool, asked: seq<Text>)

  function Advance(job: Job, p: Progress, j: nat): Progress
    requires j < |job.candidates| && AllDescribed(job.candidates)
  {
    if p.raised then p
    else
      var (ending, stores) := Carry(AttemptAt(job, j), job.worlds(j), p.stores);
      p.(items := if ending.Some? then p.items + [Item(job.candidates[j].candidateId, ending.value)] else p.items,
         stores := stores,
         raised := ending.None?,
         asked := if NotRejected(job, j) then p.asked + [job.candidates[j].workspacePath] else p.asked)
  }

  /** The state after the first `n` candidates. */
  function ProgressAt(job: Job, start: Stores, n: nat): Progress
    requires n <= |job.candidates| && AllDescribed(job.candidates)
  {
    if n == 0 then Progress([], start, false, []) else Advance(job, ProgressAt(job, start, n - 1), n - 1)
  }

  function CleanupOf(lease: Lease, outcome: Result<DestroyStatus>): Cleanup {
    if outcome.Threw? || outcome.value.NotDestroyed? then Cleanup(lease.leaseId, false, DestroyFailed)
    else Cleanup(lease.leaseId, true, if outcome.value.DestroyedNow? then Destroyed else AlreadyDestroyed)
  }

  predicate NoneLeftBehind(items: seq<Item>) {
    forall i :: 0 <= i < |items| ==> !items[i].ending.CleanupRequired?
  }

  method CleanupSandbox(sandbox: Sandbox, lease: Lease, destroy: Result<DestroyStatus>) returns (cleanup: Cleanup)
    modifies sandbox
    ensures cleanup == CleanupOf(lease, destroy)
    ensures sandbox.destroyCalls == old(sandbox.destroyCalls) + 1 && sandbox.readPaths == old(sandbox.readPaths)
  {
    var result := sandbox.Destroy(destroy);
    if result.Threw? { return Cleanup(lease.leaseId, false, DestroyFailed); }
    if result.value.DestroyedNow? { return Cleanup(lease.leaseId, true, Destroyed); }
    if result.value.DestroyedBefore? { return Cleanup(lease.leaseId, true, AlreadyDestroyed); }
    return Cleanup(lease.leaseId, false, DestroyFailed);
  }

  /** The candidates in order, until one throws. */
  method ProcessCandidates(job: Job, sandbox: Sandbox, objectStore: ObjectStore, recordStore: RecordStore)
    returns (items: seq<Item>, raised: bool)
    requires AllDescribed(job.candidates)
    modifies sandbox, objectStore, recordStore
    ensures var p := ProgressAt(job, Stores(old(objectStore.objects), old(recordStore.records)), |job.candidates|);
            && raised == p.raised && items == p.items
            && Stores(objectStore.objects, recordStore.records) == p.stores
            && sandbox.readPaths == old(sandbox.readPaths) + p.asked
            && sandbox.destroyCalls == old(sandbox.destroyCalls)
  {
    hide AttemptApproved, Commit;
    var decisions := ByCandidate(job.approval.decisions);
    ghost var start := Stores(objectStore.objects, recordStore.records);
    items, raised := [], false;
    for j := 0 to |job.candidates|
      invariant sandbox.destroyCalls == old(sandbox.destroyCalls)
      invariant Progress(items, Stores(objectStore.objects, recordStore.records), raised,
                         ProgressAt(job, start, j).asked)
                == ProgressAt(job, start, j)
      invariant sandbox.readPaths == old(sandbox.readPaths) + ProgressAt(job, start, j).asked
    {
      if !raised {
        var c := job.candidates[j];
        if c.candidateId !in decisions {
          raised := true;
        } else if decisions[c.candidateId].verdict.Decline? {
          items := items + [Item(c.candidateId, Rejected(ApprovalRejected))];
        } else {
          var ending := ProcessApprovedCandidate(job.platform, job.lease, job.who, c, decisions[c.candidateId],
                                                 job.worlds(j), sandbox, objectStore, recordStore);
          if ending.Some? { items := items + [Item(c.candidateId, ending.value)]; } else { raised := true; }
        }
      }
    }
  }

  /** The whole handoff, as a function of everything the outside does. */
  ghost function HandoffOf(platform: Platform, lease: Lease, candidates: seq<Candidate>, authorize: Result<ApprovalSet>,
                           worlds: nat -> World, destroy: Result<DestroyStatus>, start: Stores)
    : (HandoffResult, Stores, seq<Text>)
  {
    var cleanup := CleanupOf(lease, destroy);
    if !InputOk(platform, lease, candidates) then (HandoffError(InvalidInput, cleanup), start, [])
    else if authorize.Threw? then (HandoffError(ApprovalAuthorityFailed, cleanup), start, [])
    else if !ApprovalOk(platform, authorize.value, IdentityOf(lease), candidates) then
      (HandoffError(ApprovalContractInvalid, cleanup), start, [])
    else
      var job := Job(platform, lease, IdentityOf(lease), candidates, authorize.value, worlds);
      var p := ProgressAt(job, start, |candidates|);
      (if p.raised then HandoffError(HandoffProcessingFailed, cleanup)
       else Completed(p.items, cleanup, cleanup.releaseSafe && NoneLeftBehind(p.items), job.who),
       p.stores, p.asked)
  }

  /** On every path, errors included, the sandbox is destroyed exactly once. */
  method HandoffAndDestroy(platform: Platform, lease: Lease, candidates: seq<Candidate>, authorize: Result<ApprovalSet>,
                           worlds: nat -> World, destroy: Result<DestroyStatus>,
                           sandbox: Sandbox, objectStore: ObjectStore, recordStore: RecordStore)
    returns (result: HandoffResult)
    modifies sandbox, objectStore, recordStore
    ensures sandbox.destroyCalls == old(sandbox.destroyCalls) + 1
    ensures var (expected, stores, asked) := HandoffOf(platform, lease, candidates, authorize, worlds, destroy,
                                                       Stores(old(objectStore.objects), old(recordStore.records)));
            && result == expected
            && Stores(objectStore.objects, recordStore.records) == stores
            && sandbox.readPaths == old(sandbox.readPaths) + asked
  {
    hide ProgressAt, LeaseOk, CandidateOk, DecisionOk, CleanupOf;
    var who := ValidateInput(platform, lease, candidates);
    if who.None? {
      var failed := CleanupSandbox(sandbox, lease, destroy);
      return HandoffError(InvalidInput, failed);
    }
    if authorize.Threw? {
      var failed := CleanupSandbox(sandbox, lease, destroy);
      return HandoffError(ApprovalAuthorityFailed, failed);
    }
    var decisions := ValidateApprovalSet(platform, authorize.value, who.value, candidates);
    if decisions.None? {
      var failed := CleanupSandbox(sandbox, lease, destroy);
      return HandoffError(ApprovalContractInvalid, failed);
    }
    var job := Job(platform, lease, who.value, candidates, authorize.value, worlds);
    JobDescribed(job);
    var items, raised := ProcessCandidates(job, sandbox, objectStore, recordStore);
    var cleanup := CleanupSandbox(sandbox, lease, destroy);
    if raised { return HandoffError(HandoffProcessingFailed, cleanup); }
    return Completed(items, cleanup, cleanup.releaseSafe && NoneLeftBehind(items), who.value);
  }

  // ---- What a write attempt carries ----

  function PartsAt(job: Job, j: nat): Parts
    requires j < |job.candidates| && AllDescribed(job.candidates) && AttemptAt(job, j).Write?
  {
    var c := job.candidates[j];
    PartsOf(job.platform, job.who, c, ByCandidate(job.approval.decisions)[c.candidateId],
            job.worlds(j).read.value.bytes, job.worlds(j).now.value)
  }

  lemma JobDescribed(job: Job)
    requires JobOk(job)
    ensures AllDescribed(job.candidates)
  {
    hide IsSafeSegment, IsContentType, IsIsoDate, AllOpaque;
  }

  /** Every write is for a candidate that was not rejected, whose bytes passed the size limits and a scan without
      error or alarm that agrees with the declared classification, and its record describes exactly those bytes. */
  lemma WritesPassGates(job: Job, j: nat)
    requires JobOk(job) && AllDescribed(job.candidates) && j < |job.candidates| && AttemptAt(job, j).Write?
    ensures var (r, bytes, c) := (AttemptAt(job, j).record, AttemptAt(job, j).bytes, job.candidates[j]);
            && NotRejected(job, j)
            && 0 < |bytes| <= (if r.kind.Memory? then MEMORY_MAX_BYTES else ARTIFACT_MAX_BYTES)
            && r.byteSize == |bytes| && r.content == job.platform.sha(bytes)
            && Some(r.kind) == c.kind && Some(r.classification) == c.classification && r.contentType == c.contentType
            && job.worlds(j).scan.Got? && job.worlds(j).scan.value.Scanned?
            && r.scan.status == job.worlds(j).scan.value.status
            && r.scan.classification == r.classification
            && r.tenantId == job.lease.grant.tenantId && r.ownerUserId == job.lease.grant.userId && r.deletedAt.None?
            && r.storageKey == StorageKey(job.who, r.kind, r.id, r.content)
            && r.id == RecordId(job.platform.sha, PartsAt(job, j))
            && StartsWith(r.storageKey, RunPrefix(job.who))
  {
    hide InputOk, ApprovalOk, StorageKey, RecordId, RunPrefix, IsOpaqueText, IsIsoDate, StartsWith;
    var r := AttemptAt(job, j).record;
    assert IdentityOf(job.lease) == job.who && job.lease.grant.owner.RunOwner? by { JobOwned(job); }
    KeyInRun(job.who, r.kind, r.id, r.content);
  }

  lemma JobOwned(job: Job)
    requires JobOk(job)
    ensures job.lease.grant.owner.RunOwner? && IdentityOf(job.lease) == job.who
    ensures IsSafeSegment(job.who.tenantId) && IsSafeSegment(job.who.userId) && IsSafeSegment(job.who.runId)
  {
    hide IsSafeSegment, CandidateOk, ApprovalOk;
  }

  lemma PartsValidated(job: Job, j: nat)
    requires JobOk(job) && AllDescribed(job.candidates) && j < |job.candidates| && AttemptAt(job, j).Write?
    ensures Validated(PartsAt(job, j)) && PartsAt(job, j).identity == job.who
    ensures PartsAt(job, j).candidateId == job.candidates[j].candidateId
  {
    JobOwned(job);
    var c := job.candidates[j];
    ByCandidateKeys(job.approval.decisions);
    hide ByCandidate, IsSafeSegment, IsContentType, IsOpaqueText, IsIsoDate, AllOpaque;
    assert CandidateOk(job.platform, c, job.lease.grant.owner.runId);
    var d := ByCandidate(job.approval.decisions)[c.candidateId];
    assert DecisionOk(job.platform, d);
  }

  // ---- Atomicity of the run ----

  /** SHA-256 does not collide on the identities of this run's records. */
  ghost predicate NoCollision(job: Job)
    requires AllDescribed(job.candidates)
  {
    forall i, j :: 0 <= i < |job.candidates| && 0 <= j < |job.candidates|
                   && AttemptAt(job, i).Write? && AttemptAt(job, j).Write? ==>
      job.platform.sha(Preimage(PartsAt(job, i))) == job.platform.sha(Preimage(PartsAt(job, j))) ==>
        Preimage(PartsAt(job, i)) == Preimage(PartsAt(job, j))
  }

  /** Nothing is stored under the run's keys yet. */
  ghost predicate CleanStart(s: Stores, who: Identity) {
    && (forall k :: k in s.objects ==> !StartsWith(k, RunPrefix(who)))
    && (forall id :: id in s.records && StartsWith(s.records[id].storageKey, RunPrefix(who)) ==>
        s.records[id].deletedAt.Some?)
  }

  predicate Owns(job: Job, j: int, key: Text)
    requires AllDescribed(job.candidates)
  {
    0 <= j < |job.candidates| && AttemptAt(job, j).Write? && AttemptAt(job, j).record.storageKey == key
  }

  /** Item `j` tried to write this very record, under its id. */
  predicate WroteRow(job: Job, j: int, id: Text, r: Record)
    requires AllDescribed(job.candidates)
  {
    0 <= j < |job.candidates| && AttemptAt(job, j).Write? && AttemptAt(job, j).record == r && id == r.id
  }

  lemma WroteRowOwns(job: Job, j: int, id: Text, r: Record)
    requires AllDescribed(job.candidates) && WroteRow(job, j, id, r)
    ensures Owns(job, j, r.storageKey)
  {
  }

  /** The key of a write is the storage key of its parts. */
  lemma WriteKey(job: Job, j: nat)
    requires AllDescribed(job.candidates) && j < |job.candidates| && AttemptAt(job, j).Write?
    ensures var p := PartsAt(job, j);
            AttemptAt(job, j).record.storageKey
            == StorageKey(job.who, p.kind, RecordId(job.platform.sha, p), p.content)
  {
    hide StorageKey, RecordId, ByCandidate, Gate;
  }

  lemma OwnersDiffer(job: Job, i: nat, j: nat, key: Text)
    requires JobOk(job) && AllDescribed(job.candidates) && NoCollision(job)
    requires Owns(job, i, key) && Owns(job, j, key)
    ensures i == j
  {
    hide JobOk, AttemptAt, PartsAt, Validated, Preimage, RecordId, StorageKey;
    PartsValidated(job, i);
    PartsValidated(job, j);
    WriteKey(job, i);
    WriteKey(job, j);
    if i != j {
      IdsDiffer(job, i, j);
      DistinctCandidatesDistinctKeys(job.platform.sha, PartsAt(job, i), PartsAt(job, j));
      assert false;
    }
  }

  lemma IdsDiffer(job: Job, i: nat, j: nat)
    requires JobOk(job) && i < |job.candidates| && j < |job.candidates| && i != j
    ensures job.candidates[i].candidateId != job.candidates[j].candidateId
  {
    hide CandidateOk, LeaseOk, ApprovalOk;
  }

  /** What item `j` says agrees with what happened to its object and row. */
  ghost predicate Settled(job: Job, stores: Stores, j: nat, item: Item)
    requires AllDescribed(job.candidates) && j < |job.candidates|
  {
    && item.candidateId == job.candidates[j].candidateId
    && match AttemptAt(job, j)
       case Skip(reason) => item.ending == Rejected(reason)
       case Raise => false
       case Write(r, bytes) => Honest(stores, r, bytes, job.worlds(j).stores.clock, item.ending)
  }

  ghost predicate RunInv(job: Job, p: Progress, n: nat)
    requires n <= |job.candidates| && AllDescribed(job.candidates)
  {
    && |p.items| <= n && (!p.raised ==> |p.items| == n)
    && (forall j :: 0 <= j < |p.items| ==> Settled(job, p.stores, j, p.items[j]))
    && ObjectsOwned(job, p, |p.items|)
    && RowsOwned(job, p, |p.items|)
  }

  /** Every object under the run's keys belongs to an item that is not reported as rejected. */
  ghost predicate ObjectsOwned(job: Job, p: Progress, n: nat)
    requires n <= |p.items| && AllDescribed(job.candidates)
  {
    forall k :: k in p.stores.objects && StartsWith(k, RunPrefix(job.who)) ==>
      exists j :: 0 <= j < n && Owns(job, j, k) && !p.items[j].ending.Rejected?
  }

  ghost predicate RowsOwned(job: Job, p: Progress, n: nat)
    requires AllDescribed(job.candidates)
  {
    forall id :: id in p.stores.records && StartsWith(p.stores.records[id].storageKey, RunPrefix(job.who))
                 && p.stores.records[id].deletedAt.None? ==>
      exists j :: 0 <= j < n && WroteRow(job, j, id, p.stores.records[id])
  }

  /** An item stays settled when another key is written. */
  lemma SettledFrame(job: Job, s: Stores, t: Stores, r: Record, j: nat, item: Item)
    requires AllDescribed(job.candidates) && j < |job.candidates| && Settled(job, s, j, item)
    requires OnlyTouches(s, t, r) && !Owns(job, j, r.storageKey)
    ensures Settled(job, t, j, item)
  {
    hide AttemptAt;
  }

  /** The key of the next write is unused. */
  lemma NextIsFresh(job: Job, p: Progress, n: nat)
    requires JobOk(job) && AllDescribed(job.candidates) && NoCollision(job)
    requires n < |job.candidates| && RunInv(job, p, n) && !p.raised && AttemptAt(job, n).Write?
    ensures NothingStored(p.stores, AttemptAt(job, n).record.storageKey)
    ensures forall j :: 0 <= j < n ==> !Owns(job, j, AttemptAt(job, n).record.storageKey)
  {
    var key := AttemptAt(job, n).record.storageKey;
    WritesPassGates(job, n);
    assert Owns(job, n, key);
    forall j | 0 <= j < n ensures !Owns(job, j, key) {
      if Owns(job, j, key) { OwnersDiffer(job, j, n, key); }
    }
    forall j, id | 0 <= j < n && id in p.stores.records && WroteRow(job, j, id, p.stores.records[id])
      ensures p.stores.records[id].storageKey != key
    {
      WroteRowOwns(job, j, id, p.stores.records[id]);
    }
    hide AttemptAt, Owns, WroteRow, StartsWith, Settled, NoCollision, JobOk;
  }

  lemma AdvanceKeeps(job: Job, p: Progress, n: nat)
    requires JobOk(job) && AllDescribed(job.candidates) && NoCollision(job)
    requires n < |job.candidates| && RunInv(job, p, n)
    ensures RunInv(job, Advance(job, p, n), n + 1)
  {
    if p.raised {
      hide AttemptAt;
    } else {
      match AttemptAt(job, n) {
        case Write(r, bytes) =>
          NextIsFresh(job, p, n);
          WritesPassGates(job, n);
          WriteKeeps(job, p, n, r, bytes);
        case _ =>
          SkipKeeps(job, p, n);
      }
    }
  }

  lemma SkipKeeps(job: Job, p: Progress, n: nat)
    requires AllDescribed(job.candidates) && n < |job.candidates| && RunInv(job, p, n)
    requires !p.raised && !AttemptAt(job, n).Write?
    ensures RunInv(job, Advance(job, p, n), n + 1)
  {
    hide AttemptAt, StartsWith, Honest;
    var q := Advance(job, p, n);
    assert q.stores == p.stores && p.items == q.items[..|p.items|];
    assert forall j :: 0 <= j < |p.items| ==> q.items[j] == p.items[j];
    hide Advance, Owns, WroteRow;
  }

  lemma WriteKeeps(job: Job, p: Progress, n: nat, r: Record, bytes: seq<Byte>)
    requires AllDescribed(job.candidates) && n < |job.candidates| && RunInv(job, p, n) && !p.raised
    requires AttemptAt(job, n) == Write(r, bytes) && r.deletedAt.None? && NothingStored(p.stores, r.storageKey)
    requires forall j :: 0 <= j < n ==> !Owns(job, j, r.storageKey)
    ensures RunInv(job, Advance(job, p, n), n + 1)
  {
    hide AttemptAt, StartsWith;
    CommitSettles(job.worlds(n).stores, r, bytes, p.stores);
    var q := Advance(job, p, n);
    assert |q.items| == n + 1 && Settled(job, q.stores, n, q.items[n]);
    assert OnlyTouches(p.stores, q.stores, r);
    assert forall j :: 0 <= j < n ==> q.items[j] == p.items[j];
    assert q.items[n].ending.Rejected? ==> r.storageKey !in q.stores.objects;
    assert Owns(job, n, r.storageKey) && WroteRow(job, n, r.id, r);
    hide Advance, Commit, Honest, NothingStored, Owns, WroteRow;
    forall j | 0 <= j < n ensures Settled(job, q.stores, j, q.items[j]) {
      SettledFrame(job, p.stores, q.stores, r, j, p.items[j]);
    }
    hide Settled;
  }

  lemma {:induction false} RunKeeps(job: Job, start: Stores, n: nat)
    requires JobOk(job) && AllDescribed(job.candidates) && NoCollision(job) && CleanStart(start, job.who)
    requires n <= |job.candidates|
    ensures RunInv(job, ProgressAt(job, start, n), n)
  {
    if n > 0 {
      RunKeeps(job, start, n - 1);
      hide JobOk, NoCollision, RunInv, Advance;
      AdvanceKeeps(job, ProgressAt(job, start, n - 1), n - 1);
    }
  }

  /** Processing throws only when the clock or the hashing does: the decision look-up never misses. */
  lemma LookUpNeverMisses(job: Job, j: nat)
    requires JobOk(job) && AllDescribed(job.candidates) && j < |job.candidates|
    ensures AttemptAt(job, j).Raise? ==> job.worlds(j).now.Threw?
    ensures job.candidates[j].candidateId in ByCandidate(job.approval.decisions)
  {
    ApprovalsMatchCandidates(job.platform, job.approval, job.who, job.candidates);
    hide InputOk, ApprovalOk, Gate, RecordOf;
  }

  // ---- What counts as approved ----

  /** A decision whose status is neither `approved` nor `rejected` passes validation. */
  lemma OtherStatusAccepted(platform: Platform, approval: ApprovalSet, who: Identity, candidates: seq<Candidate>,
                            i: nat)
    requires ApprovalOk(platform, approval, who, candidates) && i < |approval.decisions|
    ensures var other := approval.decisions[i].(verdict := OtherVerdict);
            ApprovalOk(platform, approval.(decisions := approval.decisions[i := other]), who, candidates)
  {
    hide IsOpaqueText, IsIsoDate, CandidateIds;
  }

  /** The job when the outside does `w` for every candidate. */
  function InWorld(job: Job, w: World): Job { job.(worlds := n => w) }

  /** A file that passes every gate: one byte, and a clean scan dated like the candidate itself. */
  function WelcomingWorld(c: Candidate, d: Decision): World {
    World(Got(FileBytes([0])),
          Got(Scanned(CleanStatus, c.classification, d.approver, c.provenance.generatedAt, d.approver)),
          Got(Instant(0, Epoch())), StoreWorld(Works, Works, Works, Works, 0, Works))
  }

  lemma WelcomingPasses(platform: Platform, c: Candidate, d: Decision, runId: Text)
    requires CandidateOk(platform, c, runId) && DecisionOk(platform, d) && Described(c)
    ensures Gate(platform, c, WelcomingWorld(c, d)).None?
  {
    hide IsSafeSegment, IsContentType, IsOpaqueText, IsIsoDate, AllOpaque;
  }

  lemma FirstWriteStays(r: Record, bytes: seq<Byte>)
    requires r.scan.status.CleanStatus?
    ensures Commit(StoreWorld(Works, Works, Works, Works, 0, Works), r, bytes, Stores(map[], map[])).0 == Persisted(r)
  {
  }

  lemma WelcomingWrites(job: Job, j: nat)
    requires JobOk(job) && AllDescribed(job.candidates) && j < |job.candidates| && NotRejected(job, j)
    ensures var c := job.candidates[j];
            var w := WelcomingWorld(c, ByCandidate(job.approval.decisions)[c.candidateId]);
            var attempt := AttemptAt(InWorld(job, w), j);
            && attempt.Write?
            && Commit(w.stores, attempt.record, attempt.bytes, Stores(map[], map[])).0 == Persisted(attempt.record)
  {
    var c := job.candidates[j];
    ByCandidateKeys(job.approval.decisions);
    hide ByCandidate, CandidateOk, DecisionOk, Gate, StorageKey, RecordId, Commit;
    var d := ByCandidate(job.approval.decisions)[c.candidateId];
    assert CandidateOk(job.platform, c, job.lease.grant.owner.runId) && DecisionOk(job.platform, d);
    WelcomingPasses(job.platform, c, d, job.lease.grant.owner.runId);
    hide JobOk;
    var w := WelcomingWorld(c, d);
    var attempt := AttemptAt(InWorld(job, w), j);
    FirstWriteStays(attempt.record, attempt.bytes);
  }

  lemma RejectedNeverWrites(job: Job, j: nat, w: World)
    requires AllDescribed(job.candidates) && j < |job.candidates|
    ensures AttemptAt(InWorld(job, w), j).Write? ==> NotRejected(job, j)
  {
    hide AttemptApproved, ByCandidate;
  }

  /** The outside can let every gate pass. */
  lemma SomeWorldWrites(job: Job, j: nat) returns (w: World)
    requires JobOk(job) && AllDescribed(job.candidates) && j < |job.candidates| && NotRejected(job, j)
    ensures AttemptAt(InWorld(job, w), j).Write?
  {
    WelcomingWrites(job, j);
    var c := job.candidates[j];
    w := WelcomingWorld(c, ByCandidate(job.approval.decisions)[c.candidateId]);
    hide AttemptAt, WelcomingWorld, InWorld, JobOk;
  }

  predicate ApprovedAt(job: Job, j: nat)
    requires j < |job.candidates|
  {
    VerdictAt(job, j).Some? && VerdictAt(job, j).value.Approve?
  }

  /** The decision's status is neither `approved` nor `rejected`. */
  predicate UnknownStatusAt(job: Job, j: nat)
    requires j < |job.candidates|
  {
    VerdictAt(job, j).Some? && VerdictAt(job, j).value.OtherVerdict?
  }

  lemma ThreeStatuses(job: Job, j: nat)
    requires j < |job.candidates|
    ensures NotRejected(job, j) <==> ApprovedAt(job, j) || UnknownStatusAt(job, j)
    ensures !(ApprovedAt(job, j) && UnknownStatusAt(job, j))
  {
    hide VerdictAt;
  }

  /** Writes for a candidate are for an approved decision, whatever the outside does, exactly when the
      decision's status is not an unknown one. */
  lemma WritesApprovedExactly(job: Job, j: nat)
    requires JobOk(job) && AllDescribed(job.candidates) && j < |job.candidates|
    ensures (forall w :: AttemptAt(InWorld(job, w), j).Write? ==> ApprovedAt(job, j)) <==> !UnknownStatusAt(job, j)
  {
    hide AttemptAt, JobOk, ByCandidate, NotRejected, ApprovedAt, UnknownStatusAt;
    ThreeStatuses(job, j);
    if UnknownStatusAt(job, j) {
      var w := SomeWorldWrites(job, j);
      assert !(AttemptAt(InWorld(job, w), j).Write? ==> ApprovedAt(job, j));
    } else {
      forall w ensures AttemptAt(InWorld(job, w), j).Write? ==> ApprovedAt(job, j) {
        RejectedNeverWrites(job, j, w);
      }
    }
  }

  /** One item per candidate, in order. */
  lemma {:induction false} ItemsFollowCandidates(job: Job, start: Stores, n: nat)
    requires AllDescribed(job.candidates) && n <= |job.candidates|
    ensures var p := ProgressAt(job, start, n);
            && |p.items| <= n && (!p.raised ==> |p.items| == n)
            && (forall j :: 0 <= j < |p.items| ==> p.items[j].candidateId == job.candidates[j].candidateId)
  {
    if n > 0 {
      ItemsFollowCandidates(job, start, n - 1);
      hide AttemptAt, NotRejected, Carry;
    }
  }

  ghost predicate UnrejectedPath(job: Job, path: Text) {
    exists j :: 0 <= j < |job.candidates| && NotRejected(job, j) && path == job.candidates[j].workspacePath
  }

  /** Files of rejected candidates are never read. */
  lemma {:induction false} OnlyUnrejectedAreRead(job: Job, start: Stores, n: nat)
    requires AllDescribed(job.candidates) && n <= |job.candidates|
    ensures forall path :: path in ProgressAt(job, start, n).asked ==> UnrejectedPath(job, path)
  {
    if n > 0 {
      OnlyUnrejectedAreRead(job, start, n - 1);
      hide AttemptAt, NotRejected, Carry;
      if NotRejected(job, n - 1) {
        assert UnrejectedPath(job, job.candidates[n - 1].workspacePath);
      }
      hide UnrejectedPath;
    }
  }

  /** Item `j` wrote this record for these bytes. */
  predicate Wrote(job: Job, j: int, r: Record, bytes: seq<Byte>)
    requires AllDescribed(job.candidates)
  {
    0 <= j < |job.candidates| && AttemptAt(job, j) == Write(r, bytes)
  }

  /** The stores after a run that reports no key to clean up: objects, rows and persisted items
      correspond one to one, and every row that can still be read has its object. */
  lemma NothingLeftBehind(job: Job, start: Stores)
    requires JobOk(job) && AllDescribed(job.candidates) && NoCollision(job) && CleanStart(start, job.who)
    requires var p := ProgressAt(job, start, |job.candidates|); !p.raised && NoneLeftBehind(p.items)
    ensures var p := ProgressAt(job, start, |job.candidates|);
            && (forall j :: 0 <= j < |p.items| && p.items[j].ending.Persisted? ==>
                  var r := p.items[j].ending.record;
                  && r.id in p.stores.records && p.stores.records[r.id] == r
                  && r.storageKey in p.stores.objects && r.scan.status.CleanStatus?
                  && Wrote(job, j, r, p.stores.objects[r.storageKey]))
            && (forall k :: k in p.stores.objects && StartsWith(k, RunPrefix(job.who)) ==>
                  exists j :: 0 <= j < |p.items| && p.items[j].ending.Persisted?
                              && p.items[j].ending.record.storageKey == k)
            && (forall id, t :: ReadableRow(job, p.stores, id, t) ==> PersistedRow(p, id))
            && (forall id, jd :: PersistedRow(p, id) && PersistedRow(p, jd) ==>
                  p.stores.records[id].storageKey == p.stores.records[jd].storageKey ==> id == jd)
  {
    var p := ProgressAt(job, start, |job.candidates|);
    RunKeeps(job, start, |job.candidates|);
    PersistedComplete(job, p);
    hide JobOk, NoCollision, CleanStart, ProgressAt, AttemptAt, StartsWith, RunPrefix, ReadableRow, RunInv,
      NoneLeftBehind, PersistedRow;
    forall id, t | ReadableRow(job, p.stores, id, t) ensures PersistedRow(p, id) {
      ActiveIsPersisted(job, p, id, t);
    }
    forall id, jd | PersistedRow(p, id) && PersistedRow(p, jd)
                    && p.stores.records[id].storageKey == p.stores.records[jd].storageKey
      ensures id == jd
    {
      OneRowPerKey(job, start, id, jd);
    }
    forall k | k in p.stores.objects && StartsWith(k, RunPrefix(job.who))
      ensures exists j :: 0 <= j < |p.items| && p.items[j].ending.Persisted? && p.items[j].ending.record.storageKey == k
    {
      ObjectIsPersisted(job, p, k);
    }
  }

  /** A time after every look-up of the run. */
  ghost predicate LaterThanAll(job: Job, t: int) {
    forall j: nat :: j < |job.candidates| ==> job.worlds(j).stores.clock <= t
  }

  lemma PersistedComplete(job: Job, p: Progress)
    requires AllDescribed(job.candidates) && RunInv(job, p, |job.candidates|)
    ensures forall j :: 0 <= j < |p.items| && p.items[j].ending.Persisted? ==>
              var r := p.items[j].ending.record;
              && r.id in p.stores.records && p.stores.records[r.id] == r
              && r.storageKey in p.stores.objects && r.scan.status.CleanStatus?
              && Wrote(job, j, r, p.stores.objects[r.storageKey])
  {
    hide AttemptAt, ObjectsOwned, RowsOwned;
    forall j | 0 <= j < |p.items| && p.items[j].ending.Persisted?
      ensures var r := p.items[j].ending.record;
              && r.id in p.stores.records && p.stores.records[r.id] == r
              && r.storageKey in p.stores.objects && r.scan.status.CleanStatus?
              && Wrote(job, j, r, p.stores.objects[r.storageKey])
    {
      assert Settled(job, p.stores, j, p.items[j]);
    }
  }

  /** An object under the run's keys is that of a persisted item. */
  lemma ObjectIsPersisted(job: Job, p: Progress, k: Text)
    requires AllDescribed(job.candidates) && RunInv(job, p, |job.candidates|) && NoneLeftBehind(p.items)
    requires k in p.stores.objects && StartsWith(k, RunPrefix(job.who))
    ensures exists j :: 0 <= j < |p.items| && p.items[j].ending.Persisted? && p.items[j].ending.record.storageKey == k
  {
    hide AttemptAt, RowsOwned, StartsWith;
    var j :| 0 <= j < |p.items| && Owns(job, j, k) && !p.items[j].ending.Rejected?;
    assert Settled(job, p.stores, j, p.items[j]);
    assert p.items[j].ending.Persisted?;
  }

  /** A row that can still be read is the row of a persisted item, and that item's object is there. */
  lemma ActiveIsPersisted(job: Job, p: Progress, id: Text, t: int)
    requires AllDescribed(job.candidates) && RunInv(job, p, |job.candidates|) && NoneLeftBehind(p.items)
    requires ReadableRow(job, p.stores, id, t)
    ensures PersistedRow(p, id)
  {
    hide AttemptAt, ObjectsOwned, StartsWith;
    var r := p.stores.records[id];
    var j :| 0 <= j < |p.items| && WroteRow(job, j, id, r);
    assert Settled(job, p.stores, j, p.items[j]);
    assert p.items[j].ending == Persisted(r);
  }

  /** A row under the run's keys that can be read at a time after every look-up of the run. */
  ghost predicate ReadableRow(job: Job, s: Stores, id: Text, t: int) {
    && id in s.records && StartsWith(s.records[id].storageKey, RunPrefix(job.who))
    && LaterThanAll(job, t) && Active(s.records[id], t)
  }

  /** Row `id` is that of a persisted item whose object is stored. */
  ghost predicate PersistedRow(p: Progress, id: Text) {
    && id in p.stores.records && p.stores.records[id].id == id
    && p.stores.records[id].storageKey in p.stores.objects
    && exists j :: 0 <= j < |p.items| && p.items[j].ending == Persisted(p.stores.records[id])
  }

  lemma PersistedOwns(job: Job, p: Progress, j: nat)
    requires AllDescribed(job.candidates) && RunInv(job, p, |job.candidates|)
    requires j < |p.items| && p.items[j].ending.Persisted?
    ensures Owns(job, j, p.items[j].ending.record.storageKey)
  {
    hide AttemptAt, ObjectsOwned, RowsOwned;
    assert Settled(job, p.stores, j, p.items[j]);
  }

  /** No two of those rows share a key. */
  lemma OneRowPerKey(job: Job, start: Stores, id: Text, jd: Text)
    requires JobOk(job) && AllDescribed(job.candidates) && NoCollision(job) && CleanStart(start, job.who)
    requires var p := ProgressAt(job, start, |job.candidates|);
             && PersistedRow(p, id) && PersistedRow(p, jd)
             && p.stores.records[id].storageKey == p.stores.records[jd].storageKey
    ensures id == jd
  {
    hide AllDescribed, JobOk, NoCollision, CleanStart, ProgressAt, AttemptAt, RunInv, Owns, WroteRow;
    var p := ProgressAt(job, start, |job.candidates|);
    RunKeeps(job, start, |job.candidates|);
    var i :| 0 <= i < |p.items| && p.items[i].ending == Persisted(p.stores.records[id]);
    var j :| 0 <= j < |p.items| && p.items[j].ending == Persisted(p.stores.records[jd]);
    PersistedOwns(job, p, i);
    PersistedOwns(job, p, j);
    OwnersDiffer(job, i, j, p.stores.records[id].storageKey);
  }

  /** Saga atomicity: `release_safe` means the sandbox is destroyed and the run's objects are exactly
      those of its persisted records. */
  lemma ReleaseSafeMeansAtomic(platform: Platform, lease: Lease, candidates: seq<Candidate>,
                               authorize: Result<ApprovalSet>,
                               worlds: nat -> World, destroy: Result<DestroyStatus>, start: Stores)
    requires InputOk(platform, lease, candidates) && authorize.Got?
    requires ApprovalOk(platform, authorize.value, IdentityOf(lease), candidates)
    requires AllDescribed(candidates)
    requires NoCollision(Job(platform, lease, IdentityOf(lease), candidates, authorize.value, worlds))
    requires CleanStart(start, IdentityOf(lease))
    ensures var job := Job(platform, lease, IdentityOf(lease), candidates, authorize.value, worlds);
            var (result, stores, _) := HandoffOf(platform, lease, candidates, authorize, worlds, destroy, start);
            result.Completed? && result.releaseSafe ==>
              && destroy.Got? && !destroy.value.NotDestroyed?
              && |result.items| == |candidates|
              && (forall k :: k in stores.objects && StartsWith(k, RunPrefix(IdentityOf(lease))) ==>
                    exists j :: 0 <= j < |result.items| && result.items[j].ending.Persisted?
                                && result.items[j].ending.record.storageKey == k)
              && (forall j :: 0 <= j < |result.items| && result.items[j].ending.Persisted? ==>
                    var r := result.items[j].ending.record;
                    && r.storageKey in stores.objects && platform.sha(stores.objects[r.storageKey]) == r.content
                    && StartsWith(r.storageKey, RunPrefix(IdentityOf(lease)))
                    && r.id in stores.records && stores.records[r.id] == r && r.scan.status.CleanStatus?)
              && (forall id, t :: ReadableRow(job, stores, id, t) ==>
                    stores.records[id].id == id && stores.records[id].storageKey in stores.objects
                    && exists j :: 0 <= j < |result.items| && result.items[j].ending == Persisted(stores.records[id]))
              && (forall id, jd, t :: ReadableRow(job, stores, id, t) && ReadableRow(job, stores, jd, t) ==>
                    stores.records[id].storageKey == stores.records[jd].storageKey ==> id == jd)
  {
    var job := Job(platform, lease, IdentityOf(lease), candidates, authorize.value, worlds);
    var p := ProgressAt(job, start, |candidates|);
    assert JobOk(job);
    hide InputOk, ApprovalOk, NoCollision, CleanStart, ProgressAt, AttemptAt, StartsWith, RunPrefix, NoneLeftBehind,
      JobOk;
    ItemsFollowCandidates(job, start, |candidates|);
    if !p.raised && NoneLeftBehind(p.items) {
      NothingLeftBehind(job, start);
      forall j | 0 <= j < |p.items| && p.items[j].ending.Persisted?
        ensures platform.sha(AttemptAt(job, j).bytes) == p.items[j].ending.record.content
        ensures StartsWith(p.items[j].ending.record.storageKey, RunPrefix(IdentityOf(lease)))
      {
        WritesPassGates(job, j);
      }
    }
  }

  /** A handoff refused before processing stores nothing and reads no file. */
  lemma RefusalsStoreNothing(platform: Platform, lease: Lease, candidates: seq<Candidate>,
                             authorize: Result<ApprovalSet>,
                             worlds: nat -> World, destroy: Result<DestroyStatus>, start: Stores)
    ensures var (result, stores, asked) := HandoffOf(platform, lease, candidates, authorize, worlds, destroy, start);
            result.HandoffError? && !result.code.HandoffProcessingFailed? ==> stores == start && asked == []
  {
    hide InputOk, ApprovalOk, ProgressAt;
  }

  // ---- Reading back ----

  datatype ReadBackResult = Found(bytes: seq<Byte>, record: Record) | NotFound

  function ReadOf(s: Stores, id: Text, tenantId: Text, clock: int): ReadBackResult {
    if !IsSafeSegment(id) || !IsSafeSegment(tenantId) then NotFound
    else
      var r := FindActive(s.records, id, tenantId, clock);
      if r.None? || r.value.tenantId != tenantId then NotFound
      else if !StartsWith(r.value.storageKey, TenantPrefix(tenantId)) then NotFound
      else if r.value.storageKey !in s.objects then NotFound
      else Found(s.objects[r.value.storageKey], r.value)
  }

  method ReadDurableHandoff(id: Text, tenantId: Text, clock: int, objectStore: ObjectStore, recordStore: RecordStore)
    returns (result: ReadBackResult)
    ensures result == ReadOf(Stores(objectStore.objects, recordStore.records), id, tenantId, clock)
  {
    if !IsSafeSegment(id) || !IsSafeSegment(tenantId) { return NotFound; }
    var record := recordStore.FindActiveById(id, tenantId, clock);
    if record.None? || record.value.tenantId != tenantId
       || !StartsWith(record.value.storageKey, TenantPrefix(tenantId))
    {
      return NotFound;
    }
    var stored := objectStore.Get(record.value.storageKey);
    if stored.None? { return NotFound; }
    return Found(stored.value, record.value);
  }

  lemma RecordIdSafe(sha: Hasher, p: Parts)
    ensures IsSafeSegment(RecordId(sha, p))
  {
    hide Preimage;
    var id := RecordId(sha, p);
    assert UnitOf('h') == 0x68 && |id| == 72;
    assert forall i :: 0 <= i < 8 ==> IsSegmentUnit(Ascii("handoff_")[i]);
    forall i | 0 <= i < |id| ensures IsSegmentUnit(id[i]) {
      if i >= 8 { assert id[i] == Hex(sha(Preimage(p)))[i - 8]; }
    }
  }

  lemma ReadStored(s: Stores, who: Identity, r: Record, tenantId: Text, clock: int)
    requires IsSafeSegment(who.tenantId) && SlashFree(who) && IsSafeSegment(r.id)
    requires r.id in s.records && s.records[r.id] == r && r.storageKey in s.objects
    requires r.tenantId == who.tenantId && r.deletedAt.None? && r.storageKey == StorageKey(who, r.kind, r.id, r.content)
    ensures ReadOf(s, r.id, tenantId, clock)
            == if tenantId == who.tenantId && (r.expiresAt.None? || clock < r.expiresAt.value)
               then Found(s.objects[r.storageKey], r) else NotFound
  {
    hide IsSafeSegment, StartsWith, StorageKey;
    NoCrossTenantPrefix(who, r.kind, r.id, r.content, who.tenantId);
  }

  /** A persisted item is read back, byte for byte, by its own tenant until it expires; nobody else finds it. */
  lemma ReadBack(job: Job, start: Stores, j: nat, tenantId: Text, clock: int)
    requires JobOk(job) && AllDescribed(job.candidates) && NoCollision(job) && CleanStart(start, job.who)
    requires var p := ProgressAt(job, start, |job.candidates|); j < |p.items| && p.items[j].ending.Persisted?
    ensures var p := ProgressAt(job, start, |job.candidates|);
            var r := p.items[j].ending.record;
            var read := ReadOf(p.stores, r.id, tenantId, clock);
            if tenantId == job.who.tenantId && (r.expiresAt.None? || clock < r.expiresAt.value)
            then read.Found? && read.record == r && Wrote(job, j, r, read.bytes)
            else read == NotFound
  {
    var p := ProgressAt(job, start, |job.candidates|);
    RunKeeps(job, start, |job.candidates|);
    PersistedComplete(job, p);
    var r := p.items[j].ending.record;
    WritesPassGates(job, j);
    RecordIdSafe(job.platform.sha, PartsAt(job, j));
    JobOwned(job);
    ValidatedIsPlain(job.who.tenantId);
    ValidatedIsPlain(job.who.userId);
    ValidatedIsPlain(job.who.runId);
    hide JobOk, NoCollision, CleanStart, ProgressAt, AttemptAt, StartsWith, RunPrefix, RunInv, IsSafeSegment,
      StorageKey, RecordId, ReadOf, NoneLeftBehind;
    ReadStored(p.stores, job.who, r, tenantId, clock);
  }
}
