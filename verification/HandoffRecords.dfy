/** What the durable handoff writes: the record of each persisted item, why the others are not kept, and how
    long an item can be read. */
module HandoffRecords {
  import opened Options
  import opened Outcomes
  import opened Strings
  import opened HandoffKeys
  import opened HandoffSaga
  import opened Handoff
  import opened HandoffRun
  import LeaseRegistry

  function DecisionAt(job: Job, j: nat): Decision
    requires j < |job.candidates| && job.candidates[j].candidateId in ByCandidate(job.approval.decisions)
  {
    ByCandidate(job.approval.decisions)[job.candidates[j].candidateId]
  }

  /** The record says who approved what, where it comes from, and when. */
  ghost predicate Describes(job: Job, j: nat, r: Record, d: Decision)
    requires j < |job.candidates|
  {
    var (c, w) := (job.candidates[j], job.worlds(j));
    && d in job.approval.decisions && d.candidateId == c.candidateId && !d.verdict.Decline?
    && r.approval.approvedAt == d.approvedAt && r.approval.approver == d.approver
    && r.approval.decisionId == d.decisionId
    && r.evidenceIds == c.evidenceIds && r.provenance == c.provenance && r.workspacePath == c.workspacePath
    && r.leaseId == job.lease.leaseId && job.lease.grant.owner == LeaseRegistry.RunOwner(r.runId)
    && w.now.Got? && r.createdAt == w.now.value.iso && Some(r.retention) == c.retention
    && r.expiresAt == (if r.retention.Temporary30d? then Some(w.now.value.ms + 2_592_000_000) else None)
    && w.scan.Got? && w.scan.value.Scanned? && r.scan.engine == w.scan.value.engine
    && r.scan.scannedAt == w.scan.value.scannedAt && r.scan.signatureVersion == w.scan.value.signatureVersion
  }

  /** A date and time in UTC, to the second or the millisecond, that the platform can parse. */
  predicate Dated(platform: Platform, t: Text) {
    && (|t| == 20 || (|t| == 24 && t[19] == UnitOf('.')))
    && (forall i :: 0 <= i < |t| && i !in {4, 7, 10, 13, 16, 19, |t| - 1} ==> 0x30 <= t[i] <= 0x39)
    && t[4] == UnitOf('-') && t[7] == UnitOf('-') && t[10] == UnitOf('T') && t[13] == UnitOf(':')
    && t[16] == UnitOf(':') && t[|t| - 1] == UnitOf('Z')
    && platform.dateParses(t)
  }

  lemma DatesExact(platform: Platform, t: Text)
    ensures IsIsoDate(platform, t) <==> Dated(platform, t)
  {
    var short, long := "dddd-dd-ddTdd:dd:ddZ", "dddd-dd-ddTdd:dd:dd.dddZ";
    if FitsPattern(t, short) || FitsPattern(t, long) {
      assert Dated(platform, t) <==> platform.dateParses(t);
    }
    if Dated(platform, t) {
      assert if |t| == 20 then FitsPattern(t, short) else FitsPattern(t, long);
    }
  }

  /** The record can be traced: to this run's sandbox, to its evidence, and to an approver. */
  ghost predicate Traceable(platform: Platform, r: Record) {
    && r.provenance.source == Ascii("sandbox") && r.provenance.runnerId == Ascii("fastclaw.personal-v0")
    && r.provenance.sourceRunId == r.runId && Dated(platform, r.provenance.generatedAt)
    && (forall i :: 0 <= i < |r.provenance.toolCallIds| ==> IsOpaqueText(r.provenance.toolCallIds[i]))
    && r.evidenceIds != [] && (forall i :: 0 <= i < |r.evidenceIds| ==> IsOpaqueText(r.evidenceIds[i]))
    && IsOpaqueText(r.approval.approver) && IsOpaqueText(r.approval.decisionId)
    && Dated(platform, r.approval.approvedAt)
    && IsOpaqueText(r.scan.engine) && IsOpaqueText(r.scan.signatureVersion) && Dated(platform, r.scan.scannedAt)
    && IsContentType(r.contentType) && IsSafeSegment(r.leaseId)
  }

  /** Every field of a record that is written comes from where it should, and the record can be traced. */
  lemma WriteDescribes(job: Job, j: nat)
    requires JobOk(job) && AllDescribed(job.candidates) && j < |job.candidates| && AttemptAt(job, j).Write?
    ensures job.candidates[j].candidateId in ByCandidate(job.approval.decisions)
    ensures Describes(job, j, AttemptAt(job, j).record, DecisionAt(job, j))
    ensures Traceable(job.platform, AttemptAt(job, j).record)
    ensures AttemptAt(job, j).bytes == job.worlds(j).read.value.bytes
  {
    ByCandidateKeys(job.approval.decisions);
    hide ByCandidate, IsSafeSegment, IsContentType, IsOpaqueText, IsIsoDate, StorageKey, RecordId;
    assert CandidateOk(job.platform, job.candidates[j], job.lease.grant.owner.runId);
    assert DecisionOk(job.platform, DecisionAt(job, j));
    hide Dated;
    DatesExact(job.platform, job.candidates[j].provenance.generatedAt);
    DatesExact(job.platform, DecisionAt(job, j).approvedAt);
    DatesExact(job.platform, AttemptAt(job, j).record.scan.scannedAt);
  }

  // ---- Why an item is not written ----

  /** The bytes were read and are within the limit of the candidate's kind. */
  predicate SizeFits(c: Candidate, w: World) {
    && w.read.Got? && w.read.value.FileBytes? && w.read.value.bytes != []
    && |w.read.value.bytes| <= (if c.kind == Some(Memory) then 65_536 else 10_485_760)
  }

  /** The cause a reason names, where everything checked before it was in order. */
  predicate Cause(job: Job, j: nat, reason: Reason)
    requires j < |job.candidates|
  {
    var (c, w) := (job.candidates[j], job.worlds(j));
    match reason
    case ApprovalRejected => VerdictAt(job, j).Some? && VerdictAt(job, j).value.Decline?
    case FileReadFailed => NotRejected(job, j) && (w.read.Threw? || w.read.value.ReadFailed?)
    case EmptyPayload => NotRejected(job, j) && w.read == Got(FileBytes([]))
    case MemoryTooLarge =>
      && NotRejected(job, j) && c.kind == Some(Memory)
      && w.read.Got? && w.read.value.FileBytes? && |w.read.value.bytes| > 65_536
    case ArtifactTooLarge =>
      && NotRejected(job, j) && c.kind == Some(Artifact)
      && w.read.Got? && w.read.value.FileBytes? && |w.read.value.bytes| > 10_485_760
    case ScanFailed => NotRejected(job, j) && SizeFits(c, w) && (w.scan.Threw? || w.scan.value.ScanError?)
    case UnsafePayload => NotRejected(job, j) && SizeFits(c, w) && w.scan == Got(Unsafe)
    case ScanClassificationMismatch =>
      && NotRejected(job, j) && SizeFits(c, w) && w.scan.Got? && w.scan.value.Scanned?
      && (w.scan.value.classification != c.classification || !IsOpaqueText(w.scan.value.engine)
          || !IsOpaqueText(w.scan.value.signatureVersion) || !IsIsoDate(job.platform, w.scan.value.scannedAt))
    case _ => false
  }

  lemma SkipHasCause(job: Job, j: nat)
    requires JobOk(job) && AllDescribed(job.candidates) && j < |job.candidates| && AttemptAt(job, j).Skip?
    ensures Cause(job, j, AttemptAt(job, j).reason)
  {
    hide JobOk, ByCandidate, IsOpaqueText, IsIsoDate, RecordOf;
    LookUpNeverMisses(job, j);
  }

  lemma CauseSkips(job: Job, j: nat, reason: Reason)
    requires JobOk(job) && AllDescribed(job.candidates) && j < |job.candidates| && Cause(job, j, reason)
    ensures AttemptAt(job, j) == Skip(reason)
  {
    hide JobOk, ByCandidate, IsOpaqueText, IsIsoDate, RecordOf;
    LookUpNeverMisses(job, j);
  }

  /** An item is refused for a reason exactly when that reason's cause is there. */
  lemma ReasonExact(job: Job, j: nat, reason: Reason)
    requires JobOk(job) && AllDescribed(job.candidates) && j < |job.candidates|
    ensures AttemptAt(job, j) == Skip(reason) <==> Cause(job, j, reason)
  {
    hide *;
    if AttemptAt(job, j) == Skip(reason) { SkipHasCause(job, j); }
    if Cause(job, j, reason) { CauseSkips(job, j, reason); }
  }

  /** Processing throws at a candidate exactly when it passed every gate and the clock or the hashing throws. */
  lemma RaiseExact(job: Job, j: nat)
    requires JobOk(job) && AllDescribed(job.candidates) && j < |job.candidates|
    ensures AttemptAt(job, j).Raise? <==>
              && NotRejected(job, j) && job.worlds(j).now.Threw?
              && (forall reason :: !Cause(job, j, reason))
  {
    LookUpNeverMisses(job, j);
    hide JobOk, ByCandidate, IsOpaqueText, IsIsoDate, RecordOf, Cause;
    forall reason ensures AttemptAt(job, j) == Skip(reason) <==> Cause(job, j, reason) {
      ReasonExact(job, j, reason);
    }
    if AttemptAt(job, j).Skip? { assert Cause(job, j, AttemptAt(job, j).reason); }
  }

  /** A run stops exactly at the first candidate whose processing throws, and has an item for each before it. */
  lemma {:induction false} StopsAtFirst(job: Job, start: Stores, n: nat)
    requires AllDescribed(job.candidates) && n <= |job.candidates|
    ensures var p := ProgressAt(job, start, n);
            && |p.items| <= n && (p.raised <==> |p.items| < n)
            && (p.raised ==> AttemptAt(job, |p.items|).Raise?)
            && (forall j :: 0 <= j < |p.items| ==> !AttemptAt(job, j).Raise?)
  {
    if n > 0 {
      StopsAtFirst(job, start, n - 1);
      hide AttemptAt, NotRejected, Commit;
    }
  }

  /** Every declined decision of an accepted set says why. */
  lemma DeclinesSayWhy(platform: Platform, approval: ApprovalSet, who: Identity, candidates: seq<Candidate>, i: nat)
    requires ApprovalOk(platform, approval, who, candidates) && i < |approval.decisions|
    ensures var d := approval.decisions[i]; d.verdict.Decline? ==> IsOpaqueText(d.verdict.reasonCode)
  {
    hide IsOpaqueText, IsIsoDate;
    assert DecisionOk(platform, approval.decisions[i]);
  }

  // ---- How the writes end ----

  /** The insert took effect: the scan was clean, and neither the id nor the tenant's storage key was taken. */
  predicate Inserts(w: StoreWorld, r: Record, records: map<Text, Record>) {
    && !w.insert.FailsBefore? && r.scan.status.CleanStatus? && r.id !in records
    && !exists id :: id in records && records[id].tenantId == r.tenantId && records[id].storageKey == r.storageKey
  }

  /** Another row that can still be read has the id. */
  predicate IdTaken(w: StoreWorld, r: Record, records: map<Text, Record>) {
    r.id in records && records[r.id].tenantId == r.tenantId && Active(records[r.id], w.clock)
  }

  /** Under every pattern of failures: kept exactly when both writes took effect and the second was acknowledged
      or found; rejected exactly when nothing can be found and the object was removed again. */
  lemma CommitExact(w: StoreWorld, r: Record, bytes: seq<Byte>, s: Stores)
    requires NothingStored(s, r.storageKey) && r.deletedAt.None?
    ensures var ending := Commit(w, r, bytes, s).0;
            && (ending.Persisted? <==>
                  && w.put.Works? && Inserts(w, r, s.records)
                  && (w.insert.Works? || (w.find.Works? && (r.expiresAt.None? || w.clock < r.expiresAt.value))))
            && (ending == Rejected(ObjectWriteFailed) <==> !w.put.Works? && w.undoPut.Works?)
            && (ending == Rejected(RecordWriteFailed) <==>
                  && w.put.Works? && w.find.Works? && w.undoInsert.Works?
                  && (if Inserts(w, r, s.records)
                      then w.insert.FailsAfter? && r.expiresAt.Some? && r.expiresAt.value <= w.clock
                      else !IdTaken(w, r, s.records)))
            && (ending.Rejected? ==> ending.reason.ObjectWriteFailed? || ending.reason.RecordWriteFailed?)
  {
  }

  // ---- How long an item can be read ----

  /** A persisted item is found by its own tenant for ever if it is user managed, and otherwise for exactly the
      thirty days after it was written. */
  lemma ReadableFor(job: Job, start: Stores, j: nat, clock: int)
    requires JobOk(job) && AllDescribed(job.candidates) && NoCollision(job) && CleanStart(start, job.who)
    requires var p := ProgressAt(job, start, |job.candidates|); j < |p.items| && p.items[j].ending.Persisted?
    ensures var p := ProgressAt(job, start, |job.candidates|);
            j < |job.candidates| && job.worlds(j).now.Got?
            && (ReadOf(p.stores, p.items[j].ending.record.id, job.who.tenantId, clock).Found? <==>
                  || job.candidates[j].retention == Some(UserManaged)
                  || clock < job.worlds(j).now.value.ms + 2_592_000_000)
  {
    hide ReadOf, JobOk, NoCollision, CleanStart, AttemptAt, Traceable;
    var p := ProgressAt(job, start, |job.candidates|);
    RunKeeps(job, start, |job.candidates|);
    PersistedComplete(job, p);
    hide ProgressAt, RunInv;
    WriteDescribes(job, j);
    ReadBack(job, start, j, job.who.tenantId, clock);
  }

  /** Something is found exactly if the ids are safe segments and the tenant has a row of that id, neither deleted nor
      expired, whose object is stored under the tenant's own prefix. */
  lemma ReadExact(s: Stores, id: Text, tenantId: Text, clock: int)
    ensures var read := ReadOf(s, id, tenantId, clock);
            && (read.Found? <==>
                  && IsSafeSegment(id) && IsSafeSegment(tenantId)
                  && id in s.records && s.records[id].tenantId == tenantId && s.records[id].deletedAt.None?
                  && (s.records[id].expiresAt.None? || clock < s.records[id].expiresAt.value)
                  && StartsWith(s.records[id].storageKey, TenantPrefix(tenantId))
                  && s.records[id].storageKey in s.objects)
            && (read.Found? ==> read.record == s.records[id] && read.bytes == s.objects[read.record.storageKey])
  {
    hide IsSafeSegment, StartsWith;
  }

  // ---- The result of a handoff ----

  /** The codes and the clean-up report name what happened. */
  lemma ResultMeans(platform: Platform, lease: Lease, candidates: seq<Candidate>, authorize: Result<ApprovalSet>,
                    worlds: nat -> World, destroy: Result<DestroyStatus>, start: Stores)
    ensures var result := HandoffOf(platform, lease, candidates, authorize, worlds, destroy, start).0;
            var cleanup := if result.Completed? then result.cleanup else result.errorCleanup;
            && (result.HandoffError? && result.code.InvalidInput? <==> !InputOk(platform, lease, candidates))
            && (result.HandoffError? && result.code.ApprovalAuthorityFailed? <==>
                  InputOk(platform, lease, candidates) && authorize.Threw?)
            && (result.HandoffError? && result.code.ApprovalContractInvalid? <==>
                  InputOk(platform, lease, candidates) && authorize.Got?
                  && !ApprovalOk(platform, authorize.value, IdentityOf(lease), candidates))
            && cleanup.leaseId == lease.leaseId
            && (cleanup.releaseSafe <==> destroy == Got(DestroyedNow) || destroy == Got(DestroyedBefore))
            && (cleanup.status.Destroyed? <==> destroy == Got(DestroyedNow))
            && (cleanup.status.AlreadyDestroyed? <==> destroy == Got(DestroyedBefore))
            && (result.Completed? ==>
                  && result.who.runId == lease.grant.owner.runId && result.who.tenantId == lease.grant.tenantId
                  && result.who.userId == lease.grant.userId
                  && (result.releaseSafe <==> cleanup.releaseSafe && NoneLeftBehind(result.items)))
  {
    hide ProgressAt, ApprovalOk, CandidateOk;
  }
}
