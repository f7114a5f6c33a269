/** A whole handoff that goes well: what the theorems about handoffs assume can be met. */
module HandoffSample {
  import opened Options
  import opened Outcomes
  import opened Strings
  import opened HandoffKeys
  import opened HandoffSaga
  import opened Handoff
  import opened HandoffRun
  import LeaseRegistry

  const WHEN := "2026-01-01T00:00:00Z"

  function SamplePlatform(sha: Hasher): Platform { Platform(sha, _ => true) }

  function SampleLease(): Lease {
    LeaseRegistry.Lease(
      LeaseRegistry.AccessGrant([], LeaseRegistry.RunOwner(Ascii("run")), [], [], [], [], [], Ascii("tenant"),
                                Ascii("user")),
      [], Ascii("lease"))
  }

  function SampleCandidate(): Candidate {
    Candidate(Ascii("note"), Some(UserPrivate), Ascii("text/plain"), [Ascii("evidence")], Some(Memory),
              Provenance(Ascii(WHEN), Ascii("fastclaw.personal-v0"), Ascii("sandbox"), Ascii("run"), []),
              Some(UserManaged), Ascii("note.txt"))
  }

  function SampleDecision(): Decision {
    Decision(Ascii("note"), Ascii(WHEN), Ascii("approver"), Ascii("decision"), Approve)
  }

  function SampleApproval(): ApprovalSet {
    ApprovalSet([SampleDecision()], Ascii("run"), Ascii("tenant"), Ascii("user"))
  }

  function SampleJob(sha: Hasher): Job {
    Job(SamplePlatform(sha), SampleLease(), IdentityOf(SampleLease()), [SampleCandidate()], SampleApproval(),
        _ => WelcomingWorld(SampleCandidate(), SampleDecision()))
  }

  lemma SegmentLiteral(s: string)
    requires 2 < |s| <= 128 && forall i :: 0 <= i < |s| ==> 'a' <= s[i] <= 'z'
    ensures IsSafeSegment(Ascii(s)) && IsOpaqueText(Ascii(s))
  {
    assert forall i :: 0 <= i < |s| ==> Ascii(s)[i] == s[i] as int;
  }

  lemma SampleDate()
    ensures IsIsoShape(Ascii(WHEN))
  {
    assert FitsPattern(Ascii(WHEN), "dddd-dd-ddTdd:dd:ddZ");
  }

  lemma SampleType()
    ensures IsContentType(Ascii("text/plain"))
  {
    var t := Ascii("text/plain");
    assert t[4] == SLASH && t[..4] == Ascii("text") && t[5..] == Ascii("plain");
  }

  lemma SampleInputOk(sha: Hasher)
    ensures InputOk(SamplePlatform(sha), SampleLease(), [SampleCandidate()])
  {
    hide IsSafeSegment, IsOpaqueText, IsContentType, IsIsoShape, Ascii;
    SegmentLiteral("run");
    SegmentLiteral("tenant");
    SegmentLiteral("user");
    SegmentLiteral("lease");
    SegmentLiteral("note");
    SegmentLiteral("evidence");
    SampleDate();
    SampleType();
  }

  lemma SampleApprovalOk(sha: Hasher)
    ensures ApprovalOk(SamplePlatform(sha), SampleApproval(), IdentityOf(SampleLease()), [SampleCandidate()])
    ensures Ascii("note") in ByCandidate(SampleApproval().decisions)
    ensures ByCandidate(SampleApproval().decisions)[Ascii("note")] == SampleDecision()
  {
    hide IsSafeSegment, IsOpaqueText, IsContentType, IsIsoShape, Ascii;
    SegmentLiteral("approver");
    SegmentLiteral("decision");
    SampleDate();
    ByCandidateFinds([SampleDecision()], 0);
  }

  lemma SampleOk(sha: Hasher)
    ensures JobOk(SampleJob(sha)) && AllDescribed(SampleJob(sha).candidates) && NotRejected(SampleJob(sha), 0)
    ensures ByCandidate(SampleApproval().decisions)[Ascii("note")] == SampleDecision()
  {
    hide InputOk, ApprovalOk, ByCandidate, Ascii;
    SampleInputOk(sha);
    SampleApprovalOk(sha);
  }

  /** Every candidate meets the same outside. */
  lemma SameAttempt(job: Job, w: World)
    requires AllDescribed(job.candidates) && |job.candidates| == 1 && job.worlds(0) == w
    ensures AttemptAt(InWorld(job, w), 0) == AttemptAt(job, 0)
  {
    hide AttemptApproved, ByCandidate;
  }

  lemma OneItem(job: Job)
    requires AllDescribed(job.candidates) && |job.candidates| == 1 && NotRejected(job, 0) && AttemptAt(job, 0).Write?
    requires Commit(job.worlds(0).stores, AttemptAt(job, 0).record, AttemptAt(job, 0).bytes, Stores(map[], map[])).0
             == Persisted(AttemptAt(job, 0).record)
    ensures var p := ProgressAt(job, Stores(map[], map[]), 1);
            && !p.raised && |p.items| == 1 && p.items[0].ending.Persisted?
            && p.asked == [job.candidates[0].workspacePath]
  {
    hide AttemptAt, Commit, NotRejected;
    var start := Stores(map[], map[]);
    assert ProgressAt(job, start, 0) == Progress([], start, false, []);
    assert ProgressAt(job, start, 1) == Advance(job, ProgressAt(job, start, 0), 0);
  }

  /** The only attempt is kept. */
  lemma SamplePersists(sha: Hasher)
    requires AllDescribed(SampleJob(sha).candidates)
    ensures var p := ProgressAt(SampleJob(sha), Stores(map[], map[]), 1);
            !p.raised && |p.items| == 1 && p.items[0].ending.Persisted? && p.asked == [Ascii("note.txt")]
  {
    hide AttemptAt, JobOk, Ascii, Commit, NotRejected, ByCandidate, ProgressAt, WelcomingWorld;
    var job := SampleJob(sha);
    SampleOk(sha);
    WelcomingWrites(job, 0);
    SameAttempt(job, WelcomingWorld(SampleCandidate(), SampleDecision()));
    OneItem(job);
  }

  lemma SampleStarts(sha: Hasher)
    requires AllDescribed(SampleJob(sha).candidates)
    ensures NoCollision(SampleJob(sha)) && CleanStart(Stores(map[], map[]), SampleJob(sha).who)
  {
    hide AttemptAt, PartsAt, Preimage, StartsWith;
  }

  /** A handoff with one approved note, into empty stores: it completes, is safe to release, and the note is kept,
      with its object and its row. All assumptions of `ReleaseSafeMeansAtomic` hold for it. */
  lemma SampleCompletes(sha: Hasher)
    ensures var job := SampleJob(sha);
            && InputOk(job.platform, job.lease, job.candidates) && AllDescribed(job.candidates)
            && ApprovalOk(job.platform, job.approval, job.who, job.candidates)
            && NoCollision(job) && CleanStart(Stores(map[], map[]), job.who)
            && var (result, stores, asked) := HandoffOf(job.platform, job.lease, job.candidates, Got(job.approval),
                                                        job.worlds, Got(DestroyedNow), Stores(map[], map[]));
            && result.Completed? && result.releaseSafe && asked == [Ascii("note.txt")]
            && |result.items| == 1 && result.items[0].ending.Persisted?
            && result.items[0].ending.record.id in stores.records
            && result.items[0].ending.record.storageKey in stores.objects
  {
    hide InputOk, ApprovalOk, NotRejected, ByCandidate, AttemptAt, ProgressAt, NoCollision, CleanStart, Ascii;
    var job, empty := SampleJob(sha), Stores(map[], map[]);
    SampleOk(sha);
    SampleStarts(sha);
    SamplePersists(sha);
    RunKeeps(job, empty, 1);
    PersistedComplete(job, ProgressAt(job, empty, 1));
    hide RunInv;
  }
}
