/** The durable handoff: validate, obtain approvals, persist approved outputs, destroy the sandbox. */
module Handoff {
  import opened Options
  import opened Outcomes
  import opened Strings
  import opened HandoffKeys
  import opened HandoffSaga
  import LeaseRegistry

  const MAX_CANDIDATES := 16
  const MEMORY_MAX_BYTES := 64 * 1024
  const ARTIFACT_MAX_BYTES := 10 * 1024 * 1024
  const THIRTY_DAYS := 30 * 24 * 60 * 60 * 1_000

  /** What a promise or a call gives. */
  datatype Result<+T> = Got(value: T) | Threw

  /** SHA-256, and whether Date.parse gives a finite number. */
  datatype Platform = Platform(sha: Hasher, dateParses: Text -> bool)

  /** `None` in an enumerated field stands for a value outside the enumeration. */
  datatype Candidate = Candidate(
    candidateId: Text,
    classification: Option<Classification>,
    contentType: Text,
    evidenceIds: seq<Text>,
    kind: Option<Kind>,
    provenance: Provenance,
    retention: Option<Retention>,
    workspacePath: Text)

  type Lease = LeaseRegistry.Lease

  /** A decision's status; the code compares it only with `rejected`. */
  datatype Verdict = Approve | Decline(reasonCode: Text) | OtherVerdict

  datatype Decision = Decision(candidateId: Text, approvedAt: Text, approver: Text, decisionId: Text, verdict: Verdict)

  datatype ApprovalSet = ApprovalSet(decisions: seq<Decision>, runId: Text, tenantId: Text, userId: Text)

  datatype FileRead = FileBytes(bytes: seq<Byte>) | ReadFailed

  datatype ScanResult =
    | Scanned(
        status: ScanStatus, classification: Option<Classification>,
        engine: Text, scannedAt: Text, signatureVersion: Text)
    | ScanError
    | Unsafe

  datatype Instant = Instant(ms: int, iso: IsoText)

  /** What the outside does while one candidate is processed; `now` throws for the clock or the hashing. */
  datatype World = World(read: Result<FileRead>, scan: Result<ScanResult>, now: Result<Instant>, stores: StoreWorld)

  datatype Item = Item(candidateId: Text, ending: Ending)

  datatype DestroyStatus = DestroyedNow | DestroyedBefore | NotDestroyed

  datatype CleanupStatus = AlreadyDestroyed | DestroyFailed | Destroyed

  datatype Cleanup = Cleanup(leaseId: Text, releaseSafe: bool, status: CleanupStatus)

  datatype ErrorCode = ApprovalAuthorityFailed | ApprovalContractInvalid | HandoffProcessingFailed | InvalidInput

  datatype HandoffResult =
    | Completed(items: seq<Item>, cleanup: Cleanup, releaseSafe: bool, who: Identity)
    | HandoffError(code: ErrorCode, errorCleanup: Cleanup)

  // ---- Input validation ----

  predicate IsIsoDate(platform: Platform, s: Text) { IsIsoShape(s) && platform.dateParses(s) }

  predicate AllOpaque(texts: seq<Text>) { forall i :: 0 <= i < |texts| ==> IsOpaqueText(texts[i]) }

  predicate CandidateOk(platform: Platform, c: Candidate, runId: Text) {
    && IsSafeSegment(c.candidateId)
    && IsContentType(c.contentType)
    && c.kind.Some? && c.classification.Some? && c.retention.Some?
    && c.provenance.source == Ascii("sandbox")
    && c.provenance.runnerId == Ascii("fastclaw.personal-v0")
    && c.provenance.sourceRunId == runId
    && IsIsoDate(platform, c.provenance.generatedAt)
    && AllOpaque(c.provenance.toolCallIds)
    && c.evidenceIds != [] && AllOpaque(c.evidenceIds)
  }

  function IdentityOf(lease: Lease): Identity
    requires lease.grant.owner.RunOwner?
  {
    Identity(lease.grant.owner.runId, lease.grant.tenantId, lease.grant.userId)
  }

  predicate LeaseOk(lease: Lease) {
    && lease.grant.owner.RunOwner?
    && IsSafeSegment(lease.grant.owner.runId) && IsSafeSegment(lease.grant.tenantId)
    && IsSafeSegment(lease.grant.userId) && IsSafeSegment(lease.leaseId)
  }

  ghost predicate DistinctIds(candidates: seq<Candidate>) {
    forall i, j :: 0 <= i < j < |candidates| ==> candidates[i].candidateId != candidates[j].candidateId
  }

  ghost predicate InputOk(platform: Platform, lease: Lease, candidates: seq<Candidate>) {
    && LeaseOk(lease)
    && 1 <= |candidates| <= MAX_CANDIDATES
    && (forall i :: 0 <= i < |candidates| ==> CandidateOk(platform, candidates[i], lease.grant.owner.runId))
    && DistinctIds(candidates)
  }

  method ValidateInput(platform: Platform, lease: Lease, candidates: seq<Candidate>) returns (who: Option<Identity>)
    ensures who.Some? <==> InputOk(platform, lease, candidates)
    ensures who.Some? ==> who.value == IdentityOf(lease)
  {
    hide IsSafeSegment, CandidateOk;
    if !LeaseOk(lease) || |candidates| == 0 || |candidates| > MAX_CANDIDATES { return None; }
    var seen: set<Text> := {};
    for n := 0 to |candidates|
      invariant forall i :: 0 <= i < n ==> CandidateOk(platform, candidates[i], lease.grant.owner.runId)
      invariant forall i, j :: 0 <= i < j < n ==> candidates[i].candidateId != candidates[j].candidateId
      invariant seen == set i | 0 <= i < n :: candidates[i].candidateId
    {
      if !CandidateOk(platform, candidates[n], lease.grant.owner.runId) { return None; }
      if candidates[n].candidateId in seen { return None; }
      seen := seen + {candidates[n].candidateId};
    }
    return Some(IdentityOf(lease));
  }

  // ---- Approvals ----

  predicate DecisionOk(platform: Platform, d: Decision) {
    && IsOpaqueText(d.approver) && IsOpaqueText(d.decisionId) && IsIsoDate(platform, d.approvedAt)
    && (d.verdict.Decline? ==> IsOpaqueText(d.verdict.reasonCode))
  }

  function CandidateIds(candidates: seq<Candidate>): set<Text> { set c | c in candidates :: c.candidateId }

  function DecisionIds(decisions: seq<Decision>): set<Text> { set d | d in decisions :: d.candidateId }

  ghost predicate DistinctDecisions(decisions: seq<Decision>) {
    forall i, j :: 0 <= i < j < |decisions| ==> decisions[i].candidateId != decisions[j].candidateId
  }

  ghost predicate ApprovalOk(platform: Platform, approval: ApprovalSet, who: Identity, candidates: seq<Candidate>) {
    && approval.runId == who.runId && approval.tenantId == who.tenantId && approval.userId == who.userId
    && |approval.decisions| == |candidates|
    && (forall i :: 0 <= i < |approval.decisions| ==>
          DecisionOk(platform, approval.decisions[i]) && approval.decisions[i].candidateId in CandidateIds(candidates))
    && DistinctDecisions(approval.decisions)
  }

  /** The decisions by candidate id. */
  function ByCandidate(decisions: seq<Decision>): map<Text, Decision> {
    if decisions == [] then map[]
    else var last := decisions[|decisions| - 1];
         ByCandidate(decisions[..|decisions| - 1])[last.candidateId := last]
  }

  lemma {:induction false} ByCandidateFinds(decisions: seq<Decision>, i: nat)
    requires DistinctDecisions(decisions) && i < |decisions|
    ensures decisions[i].candidateId in ByCandidate(decisions)
    ensures ByCandidate(decisions)[decisions[i].candidateId] == decisions[i]
  {
    if i < |decisions| - 1 {
      ByCandidateFinds(decisions[..|decisions| - 1], i);
    }
  }

  lemma {:induction false} ByCandidateKeys(decisions: seq<Decision>)
    ensures ByCandidate(decisions).Keys == DecisionIds(decisions)
    ensures forall id :: id in ByCandidate(decisions) ==>
              ByCandidate(decisions)[id] in decisions && ByCandidate(decisions)[id].candidateId == id
  {
    if decisions != [] {
      var front, last := decisions[..|decisions| - 1], decisions[|decisions| - 1];
      ByCandidateKeys(front);
      assert decisions == front + [last];
    }
  }

  method ValidateApprovalSet(platform: Platform, approval: ApprovalSet, who: Identity, candidates: seq<Candidate>)
    returns (decisions: Option<map<Text, Decision>>)
    ensures decisions.Some? <==> ApprovalOk(platform, approval, who, candidates)
    ensures decisions.Some? ==> decisions.value == ByCandidate(approval.decisions)
  {
    hide DecisionOk;
    if approval.runId != who.runId || approval.tenantId != who.tenantId || approval.userId != who.userId
       || |approval.decisions| != |candidates|
    {
      return None;
    }
    var expected := CandidateIds(candidates);
    var found: map<Text, Decision> := map[];
    for n := 0 to |approval.decisions|
      invariant found == ByCandidate(approval.decisions[..n])
      invariant forall i :: 0 <= i < n ==>
                  DecisionOk(platform, approval.decisions[i]) && approval.decisions[i].candidateId in expected
      invariant DistinctDecisions(approval.decisions[..n])
    {
      var decision := approval.decisions[n];
      ByCandidateKeys(approval.decisions[..n]);
      if decision.candidateId !in expected || decision.candidateId in found || !DecisionOk(platform, decision) {
        return None;
      }
      assert approval.decisions[..n + 1][..n] == approval.decisions[..n];
      found := found[decision.candidateId := decision];
    }
    assert approval.decisions[..|approval.decisions|] == approval.decisions;
    return Some(found);
  }

  lemma {:induction false} DistinctCount(ids: seq<Text>)
    requires forall i, j :: 0 <= i < j < |ids| ==> ids[i] != ids[j]
    ensures |set id | id in ids| == |ids|
  {
    if ids != [] {
      var front, last := ids[..|ids| - 1], ids[|ids| - 1];
      DistinctCount(front);
      assert (set id | id in ids) == (set id | id in front) + {last};
    }
  }

  lemma CandidateCount(candidates: seq<Candidate>)
    requires DistinctIds(candidates)
    ensures |CandidateIds(candidates)| == |candidates|
  {
    var ids := seq(|candidates|, i requires 0 <= i < |candidates| => candidates[i].candidateId);
    DistinctCount(ids);
    assert (set id | id in ids) == CandidateIds(candidates) by {
      forall c | c in candidates ensures c.candidateId in ids {
        var i :| 0 <= i < |candidates| && candidates[i] == c;
        assert ids[i] == c.candidateId;
      }
    }
  }

  lemma DecisionCount(decisions: seq<Decision>)
    requires DistinctDecisions(decisions)
    ensures |DecisionIds(decisions)| == |decisions|
  {
    var ids := seq(|decisions|, i requires 0 <= i < |decisions| => decisions[i].candidateId);
    DistinctCount(ids);
    assert (set id | id in ids) == DecisionIds(decisions) by {
      forall d | d in decisions ensures d.candidateId in ids {
        var i :| 0 <= i < |decisions| && decisions[i] == d;
        assert ids[i] == d.candidateId;
      }
    }
  }

  lemma SubsetOfSameSize(a: set<Text>, b: set<Text>)
    requires a <= b && |a| == |b|
    ensures a == b
  {
    assert |b - a| == |b| - |a|;
  }

  /** As many decisions as candidates, none twice and none unknown: every candidate has exactly one decision and
      every decision is the one looked up for its candidate, so the look-up while processing never misses. */
  lemma ApprovalsMatchCandidates(platform: Platform, approval: ApprovalSet, who: Identity, candidates: seq<Candidate>)
    requires DistinctIds(candidates) && ApprovalOk(platform, approval, who, candidates)
    ensures ByCandidate(approval.decisions).Keys == CandidateIds(candidates)
    ensures forall i :: 0 <= i < |candidates| ==>
              candidates[i].candidateId in ByCandidate(approval.decisions)
              && ByCandidate(approval.decisions)[candidates[i].candidateId] in approval.decisions
              && ByCandidate(approval.decisions)[candidates[i].candidateId].candidateId == candidates[i].candidateId
    ensures forall i :: 0 <= i < |approval.decisions| ==>
              approval.decisions[i].candidateId in ByCandidate(approval.decisions)
              && ByCandidate(approval.decisions)[approval.decisions[i].candidateId] == approval.decisions[i]
  {
    forall i | 0 <= i < |approval.decisions|
      ensures approval.decisions[i].candidateId in ByCandidate(approval.decisions)
      ensures ByCandidate(approval.decisions)[approval.decisions[i].candidateId] == approval.decisions[i]
    {
      ByCandidateFinds(approval.decisions, i);
    }
    CandidateCount(candidates);
    DecisionCount(approval.decisions);
    ByCandidateKeys(approval.decisions);
    hide ByCandidate, DecisionOk;
    SubsetOfSameSize(DecisionIds(approval.decisions), CandidateIds(candidates));
  }

  // ---- One candidate ----

  function MaxBytes(kind: Kind): nat { if kind.Memory? then MEMORY_MAX_BYTES else ARTIFACT_MAX_BYTES }

  function ExpiresAt(policy: Retention, ms: int): Option<int> {
    if policy.Temporary30d? then Some(ms + THIRTY_DAYS) else None
  }

  predicate Described(c: Candidate) { c.kind.Some? && c.classification.Some? && c.retention.Some? }

  function PartsOf(platform: Platform, who: Identity, c: Candidate, d: Decision, bytes: seq<Byte>, now: Instant): Parts
    requires Described(c)
  {
    Parts(who, c.candidateId, c.kind.value, c.classification.value, c.contentType, c.retention.value,
          d.decisionId, now.iso, platform.sha(bytes))
  }

  function RecordOf(platform: Platform, lease: Lease, who: Identity, c: Candidate, d: Decision,
                    bytes: seq<Byte>, scan: ScanRecord, now: Instant): Record
    requires Described(c)
  {
    var parts := PartsOf(platform, who, c, d, bytes, now);
    var id := RecordId(platform.sha, parts);
    Record(Approval(d.approvedAt, d.approver, d.decisionId), |bytes|, parts.classification, parts.content,
           c.contentType, now.iso, None, c.evidenceIds, ExpiresAt(parts.retention, now.ms), id, parts.kind,
           lease.leaseId, who.userId, c.provenance, c.workspacePath, parts.retention, who.runId, scan,
           StorageKey(who, parts.kind, id, parts.content), who.tenantId)
  }

  predicate ScanFits(platform: Platform, c: Candidate, scan: ScanResult) {
    && scan.Scanned? && scan.classification == c.classification
    && IsOpaqueText(scan.engine) && IsOpaqueText(scan.signatureVersion) && IsIsoDate(platform, scan.scannedAt)
  }

  function ScanRecordOf(scan: ScanResult): ScanRecord
    requires scan.Scanned? && scan.classification.Some?
  {
    ScanRecord(scan.status, scan.classification.value, scan.engine, scan.scannedAt, scan.signatureVersion)
  }

  /** What processing a candidate comes to before the stores are touched. */
  datatype Attempt = Skip(reason: Reason) | Raise | Write(record: Record, bytes: seq<Byte>)

  /** The gates a candidate passes unless its decision is a rejection: read, size, scan. */
  function Gate(platform: Platform, c: Candidate, w: World): Option<Reason>
    requires Described(c)
  {
    if w.read.Threw? || !w.read.value.FileBytes? then Some(FileReadFailed)
    else if w.read.value.bytes == [] then Some(EmptyPayload)
    else if |w.read.value.bytes| > MaxBytes(c.kind.value) then
      Some(if c.kind.value.Memory? then MemoryTooLarge else ArtifactTooLarge)
    else if w.scan.Threw? || w.scan.value.ScanError? then Some(ScanFailed)
    else if w.scan.value.Unsafe? then Some(UnsafePayload)
    else if !ScanFits(platform, c, w.scan.value) then Some(ScanClassificationMismatch)
    else None
  }

  function AttemptApproved(platform: Platform, lease: Lease, who: Identity, c: Candidate, d: Decision,
                           w: World): Attempt
    requires Described(c)
  {
    var refusal := Gate(platform, c, w);
    if refusal.Some? then Skip(refusal.value)
    else if w.now.Threw? then Raise
    else Write(RecordOf(platform, lease, who, c, d, w.read.value.bytes, ScanRecordOf(w.scan.value), w.now.value),
               w.read.value.bytes)
  }

  /** The run's sandbox, with a log of what was asked of it. */
  class Sandbox {
    var destroyCalls: nat
    var readPaths: seq<Text>

    constructor ()
      ensures destroyCalls == 0 && readPaths == []
    {
      destroyCalls, readPaths := 0, [];
    }

    method ReadFile(path: Text, outcome: Result<FileRead>) returns (read: Result<FileRead>)
      modifies this
      ensures read == outcome && readPaths == old(readPaths) + [path] && destroyCalls == old(destroyCalls)
    {
      readPaths := readPaths + [path];
      return outcome;
    }

    method Destroy(outcome: Result<DestroyStatus>) returns (result: Result<DestroyStatus>)
      modifies this
      ensures result == outcome && destroyCalls == old(destroyCalls) + 1 && readPaths == old(readPaths)
    {
      destroyCalls := destroyCalls + 1;
      return outcome;
    }
  }

  /** The effect of one attempt on the stores; `None` when processing throws. */
  function Carry(attempt: Attempt, w: World, s: Stores): (Option<Ending>, Stores) {
    match attempt
    case Skip(reason) => (Some(Rejected(reason)), s)
    case Raise => (None, s)
    case Write(r, bytes) => var (ending, t) := Commit(w.stores, r, bytes, s); (Some(ending), t)
  }

  method ProcessApprovedCandidate(platform: Platform, lease: Lease, who: Identity, c: Candidate, d: Decision, w: World,
                                  sandbox: Sandbox, objectStore: ObjectStore, recordStore: RecordStore)
    returns (ending: Option<Ending>)
    requires Described(c)
    modifies sandbox, objectStore, recordStore
    ensures (ending, Stores(objectStore.objects, recordStore.records))
            == Carry(AttemptApproved(platform, lease, who, c, d, w), w,
                     Stores(old(objectStore.objects), old(recordStore.records)))
    ensures sandbox.readPaths == old(sandbox.readPaths) + [c.workspacePath]
    ensures sandbox.destroyCalls == old(sandbox.destroyCalls)
  {
    hide Commit, RecordOf, IsOpaqueText, IsIsoDate;
    var read := sandbox.ReadFile(c.workspacePath, w.read);
    if read.Threw? || !read.value.FileBytes? { return Some(Rejected(FileReadFailed)); }
    var bytes := read.value.bytes;
    if |bytes| == 0 { return Some(Rejected(EmptyPayload)); }
    if |bytes| > MaxBytes(c.kind.value) {
      return Some(Rejected(if c.kind.value.Memory? then MemoryTooLarge else ArtifactTooLarge));
    }
    if w.scan.Threw? || w.scan.value.ScanError? { return Some(Rejected(ScanFailed)); }
    var scan := w.scan.value;
    if scan.Unsafe? { return Some(Rejected(UnsafePayload)); }
    if !ScanFits(platform, c, scan) { return Some(Rejected(ScanClassificationMismatch)); }
    if w.now.Threw? { return None; }
    var record := RecordOf(platform, lease, who, c, d, bytes, ScanRecordOf(scan), w.now.value);
    var stored := CommitItem(w.stores, record, bytes, objectStore, recordStore);
    return Some(stored);
  }
}
