/** The per-lease registry: one stored record, and a transition for each request path.
    Every request runs inside one storage transaction, so it is one atomic step. */
module LeaseRegistry {
  import opened Options
  import opened Strings

  /** The ids `newId` makes; they are only compared for equality. */
  type ProcessId = nat

  datatype Owner = RunOwner(runId: Text) | SessionOwner(ownerSessionId: Text)

  datatype AccessGrant = AccessGrant(
    layer: Text,
    owner: Owner,
    runMode: Text,
    runnerFamily: Text,
    runnerId: Text,
    selectionContractVersion: Text,
    source: Text,
    tenantId: Text,
    userId: Text)

  datatype Binding = Binding(
    layer: Text,
    owner: Owner,
    runMode: Text,
    runnerFamily: Text,
    runnerId: Text,
    selectionContractVersion: Text,
    source: Text,
    tenantId: Text,
    userId: Text)

  datatype Lease = Lease(grant: AccessGrant, backendId: Text, leaseId: Text)

  datatype Status = Pending | Ready | Killed | Destroying | Destroyed
  datatype ProcessState = Starting | Running
  datatype ResumeStatus = ResumeReady | ResumeKilled

  datatype LeaseRecord = LeaseRecord(
    backendId: Text,
    binding: Binding,
    resume: Option<ResumeStatus>,
    killRequested: bool,
    leaseId: Text,
    processId: Option<ProcessId>,
    processState: Option<ProcessState>,
    providerId: Text,
    sessionId: Text,
    status: Status)

  datatype Path =
    | Reserve | Authorize | MarkReady
    | ProcessBegin | ProcessRunning | ProcessClear
    | Kill | KillFinish
    | DestroyBegin | DestroyFinish | DestroyAbort
    | Remove | Unknown

  datatype Request = Request(
    post: bool, path: Path,
    lease: Option<Lease>, processId: Option<ProcessId>, record: Option<LeaseRecord>)

  datatype Recovery = Fresh | Uncertain

  datatype Reply =
    | MethodNotAllowed
    | Blocked
    | NoContent
    | Allowed(allowed: LeaseRecord)
    | ProcessReserved(reserved: LeaseRecord)
    | MarkedRunning(killRequested: bool)
    | KillAlreadyTerminal
    | KillReserved(processId: ProcessId, killProviderId: Text)
    | AlreadyDestroyed
    | DestroyReserved(providerId: Text, recovery: Recovery)

  function Snapshot(grant: AccessGrant): Binding {
    Binding(grant.layer,
            match grant.owner
            case RunOwner(r) => RunOwner(r)
            case SessionOwner(x) => SessionOwner(x),
            grant.runMode, grant.runnerFamily, grant.runnerId,
            grant.selectionContractVersion, grant.source, grant.tenantId, grant.userId)
  }

  predicate BindingMatches(left: Binding, right: Binding) {
    && left.layer == right.layer
    && left.runMode == right.runMode
    && left.runnerFamily == right.runnerFamily
    && left.runnerId == right.runnerId
    && left.selectionContractVersion == right.selectionContractVersion
    && left.source == right.source
    && left.tenantId == right.tenantId
    && left.userId == right.userId
    && left.owner.RunOwner? == right.owner.RunOwner?
    && (if left.owner.RunOwner?
        then right.owner.RunOwner? && left.owner.runId == right.owner.runId
        else right.owner.SessionOwner? && left.owner.ownerSessionId == right.owner.ownerSessionId)
  }

  predicate RecordMatchesLease(record: LeaseRecord, lease: Lease) {
    && record.backendId == lease.backendId
    && record.leaseId == lease.leaseId
    && BindingMatches(record.binding, Snapshot(lease.grant))
  }

  function StatusOf(resume: ResumeStatus): Status {
    if resume.ResumeReady? then Ready else Killed
  }

  function ResumeOf(status: Status): ResumeStatus
    requires status.Ready? || status.Killed?
  {
    if status.Ready? then ResumeReady else ResumeKilled
  }

  function Unbound(record: LeaseRecord): LeaseRecord {
    record.(processId := None, processState := None)
  }

  predicate IsStarting(record: LeaseRecord) {
    record.processState.Some? && record.processState.value.Starting?
  }

  /** What one request does to the stored record, and what it answers. */
  function Transition(current: Option<LeaseRecord>, request: Request): (Option<LeaseRecord>, Reply) {
    if !request.post then (current, MethodNotAllowed)
    else if request.path.Reserve? then
      if current.Some? || request.record.None? then (current, Blocked) else (request.record, NoContent)
    else if request.lease.None? || current.None? || !RecordMatchesLease(current.value, request.lease.value) then
      (current, Blocked)
    else
      var r := current.value;
      match request.path
      case Authorize => (current, if r.status.Ready? then Allowed(r) else Blocked)
      case MarkReady =>
        if r.status.Pending? then (Some(r.(status := Ready)), NoContent) else (current, Blocked)
      case ProcessBegin =>
        if r.status.Ready? && r.processId.None? && request.processId.Some? then
          var next := r.(processId := request.processId, processState := Some(Starting));
          (Some(next), ProcessReserved(next))
        else (current, Blocked)
      case ProcessRunning =>
        if r.status.Ready? && r.processId == request.processId && IsStarting(r) then
          (Some(r.(processState := Some(Running))), MarkedRunning(r.killRequested))
        else (current, Blocked)
      case ProcessClear =>
        if r.processId == request.processId then
          (Some(Unbound(r).(resume := if r.status.Destroying? && r.killRequested
                                      then Some(ResumeKilled) else r.resume,
                            status := if r.status.Ready? && r.killRequested then Killed else r.status)),
           NoContent)
        else (current, Blocked)
      case Kill =>
        if r.status.Destroyed? || r.status.Killed? then (current, KillAlreadyTerminal)
        else if !r.status.Ready? || r.processId.None? || r.processState.None? then (current, Blocked)
        else (Some(r.(killRequested := true)), KillReserved(r.processId.value, r.providerId))
      case KillFinish =>
        if r.status.Ready? && r.killRequested then (Some(Unbound(r).(status := Killed)), NoContent)
        else (current, Blocked)
      case DestroyBegin =>
        if r.status.Destroyed? then (current, AlreadyDestroyed)
        else if r.status.Destroying? then (current, DestroyReserved(r.providerId, Uncertain))
        else if !r.status.Ready? && !r.status.Killed? then (current, Blocked)
        else (Some(r.(resume := Some(ResumeOf(r.status)), status := Destroying)),
              DestroyReserved(r.providerId, Fresh))
      case DestroyFinish =>
        if r.status.Destroying? then
          (Some(Unbound(r).(resume := None, killRequested := true, status := Destroyed)), NoContent)
        else (current, Blocked)
      case DestroyAbort =>
        if r.status.Destroying? && r.resume.Some? then
          (Some(r.(resume := None, status := StatusOf(r.resume.value))), NoContent)
        else (current, Blocked)
      case Remove => if r.status.Pending? then (None, NoContent) else (current, Blocked)
      case _ => (current, Blocked)
  }

  /** The durable object that holds the record and overwrites it request by request. */
  class RegistryObject {
    var stored: Option<LeaseRecord>

    constructor ()
      ensures stored == None
    {
      stored := None;
    }

    method Handle(request: Request) returns (reply: Reply)
      modifies this
      ensures (stored, reply) == Transition(old(stored), request)
    {
      if !request.post { return MethodNotAllowed; }
      if request.path.Reserve? {
        if stored.Some? || request.record.None? { return Blocked; }
        stored := request.record;
        return NoContent;
      }
      if request.lease.None? || stored.None? || !RecordMatchesLease(stored.value, request.lease.value) {
        return Blocked;
      }
      var current := stored.value;
      if request.path.Authorize? {
        return if current.status.Ready? then Allowed(current) else Blocked;
      }
      if request.path.MarkReady? && current.status.Pending? {
        stored := Some(current.(status := Ready));
        return NoContent;
      }
      if request.path.ProcessBegin? && current.status.Ready?
         && current.processId.None? && request.processId.Some?
      {
        stored := Some(current.(processId := request.processId, processState := Some(Starting)));
        return ProcessReserved(stored.value);
      }
      if request.path.ProcessRunning? && current.status.Ready?
         && current.processId == request.processId && IsStarting(current)
      {
        stored := Some(current.(processState := Some(Running)));
        return MarkedRunning(current.killRequested);
      }
      if request.path.ProcessClear? && current.processId == request.processId {
        var record := Unbound(current);
        if current.status.Destroying? && current.killRequested {
          record := record.(resume := Some(ResumeKilled));
        }
        if current.status.Ready? && current.killRequested {
          record := record.(status := Killed);
        }
        stored := Some(record);
        return NoContent;
      }
      if request.path.Kill? {
        if current.status.Destroyed? || current.status.Killed? { return KillAlreadyTerminal; }
        if !current.status.Ready? || current.processId.None? || current.processState.None? { return Blocked; }
        stored := Some(current.(killRequested := true));
        return KillReserved(current.processId.value, current.providerId);
      }
      if request.path.KillFinish? && current.status.Ready? && current.killRequested {
        stored := Some(Unbound(current).(status := Killed));
        return NoContent;
      }
      if request.path.DestroyBegin? {
        if current.status.Destroyed? { return AlreadyDestroyed; }
        if current.status.Destroying? { return DestroyReserved(current.providerId, Uncertain); }
        if !current.status.Ready? && !current.status.Killed? { return Blocked; }
        stored := Some(current.(resume := Some(ResumeOf(current.status)), status := Destroying));
        return DestroyReserved(current.providerId, Fresh);
      }
      if request.path.DestroyFinish? && current.status.Destroying? {
        stored := Some(Unbound(current).(resume := None, killRequested := true, status := Destroyed));
        return NoContent;
      }
      if request.path.DestroyAbort? && current.status.Destroying? && current.resume.Some? {
        stored := Some(current.(resume := None, status := StatusOf(current.resume.value)));
        return NoContent;
      }
      if request.path.Remove? && current.status.Pending? {
        stored := None;
        return NoContent;
      }
      return Blocked;
    }
  }

  // ---- What every run keeps ----

  /** Matching compares every field of the grant: a lease matches exactly the record made from its grant. */
  lemma MatchesExactly(record: LeaseRecord, lease: Lease)
    ensures RecordMatchesLease(record, lease) <==>
              record.backendId == lease.backendId && record.leaseId == lease.leaseId
              && record.binding == Snapshot(lease.grant)
    ensures RecordMatchesLease(record, lease) <==>
              var (b, g) := (record.binding, lease.grant);
              && record.backendId == lease.backendId && record.leaseId == lease.leaseId
              && b.layer == g.layer && b.owner == g.owner && b.runMode == g.runMode
              && b.runnerFamily == g.runnerFamily && b.runnerId == g.runnerId
              && b.selectionContractVersion == g.selectionContractVersion && b.source == g.source
              && b.tenantId == g.tenantId && b.userId == g.userId
  {
    var other := Snapshot(lease.grant);
    assert other.owner == lease.grant.owner;
    if BindingMatches(record.binding, other) {
      assert record.binding.owner == other.owner;
    }
  }

  /** Two grants with the same snapshot are the same grant, so no other grant opens the record. */
  lemma SnapshotInjective(a: AccessGrant, b: AccessGrant)
    requires Snapshot(a) == Snapshot(b)
    ensures a == b
  {
    assert a.owner == Snapshot(a).owner && b.owner == Snapshot(b).owner;
  }

  /** The status a destroy in progress would resume to; otherwise the status itself. */
  function Effective(r: LeaseRecord): Status {
    if r.status.Destroying? && r.resume.Some? then StatusOf(r.resume.value) else r.status
  }

  function Rank(r: LeaseRecord): nat {
    match Effective(r)
    case Pending => 0
    case Ready => 1
    case Killed => 2
    case Destroying => 2
    case Destroyed => 3
  }

  ghost predicate Consistent(r: LeaseRecord) {
    && (r.resume.Some? <==> r.status.Destroying?)
    && (r.processId.Some? <==> r.processState.Some?)
    && (Effective(r).Pending? ==> r.processId.None? && !r.killRequested)
    && (Effective(r).Killed? ==> r.processId.None?)
    && (Effective(r).Destroyed? ==> r.processId.None? && r.killRequested)
    && (Effective(r).Ready? && r.killRequested ==> r.processId.Some?)
  }

  /** The record `create` reserves. */
  function FreshRecord(lease: Lease, providerId: Text, sessionId: Text): LeaseRecord {
    LeaseRecord(lease.backendId, Snapshot(lease.grant), None, false, lease.leaseId,
                None, None, providerId, sessionId, Pending)
  }

  /** `b` is a later state of the same record as `a`. */
  ghost predicate Advances(a: LeaseRecord, b: LeaseRecord) {
    && Rank(a) <= Rank(b)
    && (a.killRequested ==> b.killRequested)
    && (a.status.Destroyed? ==> b == a)
    && a.backendId == b.backendId && a.binding == b.binding && a.leaseId == b.leaseId
    && a.providerId == b.providerId && a.sessionId == b.sessionId
  }

  lemma StepAdvances(r: LeaseRecord, request: Request)
    requires Consistent(r)
    ensures var next := Transition(Some(r), request).0;
            && (next.None? ==> request.path.Remove? && r.status.Pending?)
            && (next.Some? ==> Consistent(next.value) && Advances(r, next.value))
  {
    hide RecordMatchesLease;
    match request.path {
      case ProcessClear =>
      case DestroyBegin =>
      case _ =>
    }
  }

  function RunRequests(current: Option<LeaseRecord>, requests: seq<Request>): Option<LeaseRecord>
    decreases |requests|
  {
    if requests == [] then current else RunRequests(Transition(current, requests[0]).0, requests[1..])
  }

  /** A lease id is fresh for every `create`, so after the one reservation no request reserves. */
  ghost predicate NoReserve(requests: seq<Request>) {
    forall i :: 0 <= i < |requests| ==> !requests[i].path.Reserve?
  }

  lemma {:induction false} RunFromNothing(requests: seq<Request>)
    requires NoReserve(requests)
    ensures RunRequests(None, requests) == None
    decreases |requests|
  {
    if requests != [] {
      RunFromNothing(requests[1..]);
    }
  }

  /** Registry monotonicity over every run. */
  lemma {:induction false} RunAdvances(r: LeaseRecord, requests: seq<Request>)
    requires Consistent(r) && NoReserve(requests)
    ensures var last := RunRequests(Some(r), requests);
            last.Some? ==> Consistent(last.value) && Advances(r, last.value)
    decreases |requests|
  {
    if requests != [] {
      StepAdvances(r, requests[0]);
      var next := Transition(Some(r), requests[0]).0;
      if next.Some? {
        RunAdvances(next.value, requests[1..]);
      } else {
        RunFromNothing(requests[1..]);
      }
    }
  }

  /** Any two points of a run that starts with the reserved record are ordered. */
  lemma RunMonotone(lease: Lease, providerId: Text, sessionId: Text, requests: seq<Request>, i: nat, j: nat)
    requires NoReserve(requests) && i <= j <= |requests|
    ensures var start := Some(FreshRecord(lease, providerId, sessionId));
            var a, b := RunRequests(start, requests[..i]), RunRequests(start, requests[..j]);
            && (a.None? ==> b.None?)
            && (a.Some? ==> Consistent(a.value))
            && (b.Some? ==> a.Some? && Advances(a.value, b.value))
  {
    var start := Some(FreshRecord(lease, providerId, sessionId));
    RunAdvances(start.value, requests[..i]);
    RunSplits(start, requests[..i], requests[i..j]);
    assert requests[..i] + requests[i..j] == requests[..j];
    var a := RunRequests(start, requests[..i]);
    if a.Some? {
      RunAdvances(a.value, requests[i..j]);
    } else {
      RunFromNothing(requests[i..j]);
    }
  }

  lemma {:induction false} RunSplits(current: Option<LeaseRecord>, first: seq<Request>, second: seq<Request>)
    ensures RunRequests(current, first + second) == RunRequests(RunRequests(current, first), second)
    decreases |first|
  {
    if first == [] {
      assert first + second == second;
    } else {
      assert (first + second)[1..] == first[1..] + second;
      RunSplits(Transition(current, first[0]).0, first[1..], second);
    }
  }

  /** A request that carries no lease, or a lease that is not the record's, changes nothing. */
  lemma ForeignLeaseChangesNothing(r: LeaseRecord, request: Request)
    requires request.lease.None? || !RecordMatchesLease(r, request.lease.value)
    ensures Transition(Some(r), request).0 == Some(r)
    ensures request.post ==> Transition(Some(r), request).1 == Blocked
  {
  }

  datatype BindingEvent = Bound(process: ProcessId) | Released(process: ProcessId)

  /** The binding or unbinding one request makes, if any. */
  function StepEvent(current: Option<LeaseRecord>, request: Request): Option<BindingEvent> {
    var (next, reply) := Transition(current, request);
    var before := if current.Some? then current.value.processId else None;
    var after := if next.Some? then next.value.processId else None;
    if reply.ProcessReserved? && after.Some? then Some(Bound(after.value))
    else if before.Some? && (after.None? || after.value != before.value) then Some(Released(before.value))
    else None
  }

  /** The bindings and unbindings a run makes, in order. */
  function BindingEvents(current: Option<LeaseRecord>, requests: seq<Request>): seq<BindingEvent>
    decreases |requests|
  {
    if requests == [] then [] else
    var rest := BindingEvents(Transition(current, requests[0]).0, requests[1..]);
    var event := StepEvent(current, requests[0]);
    if event.Some? then [event.value] + rest else rest
  }

  /** Events alternate, a release following the bind of the same process; `open` is the process bound at the start. */
  ghost predicate Alternates(open: Option<ProcessId>, events: seq<BindingEvent>)
    decreases |events|
  {
    events == [] ||
    match events[0]
    case Bound(p) => open.None? && Alternates(Some(p), events[1..])
    case Released(p) => open == Some(p) && Alternates(None, events[1..])
  }

  lemma StepEventFits(r: LeaseRecord, request: Request)
    requires Consistent(r) && !request.path.Reserve?
    ensures var event, next := StepEvent(Some(r), request), Transition(Some(r), request).0;
            var after := if next.Some? then next.value.processId else None;
            && (event.None? ==> after == r.processId)
            && (event.Some? && event.value.Bound? ==> r.processId.None? && after == Some(event.value.process))
            && (event.Some? && event.value.Released? ==> r.processId == Some(event.value.process) && after.None?)
  {
    hide RecordMatchesLease;
  }

  lemma {:induction false} BindingsAlternate(r: LeaseRecord, requests: seq<Request>)
    requires Consistent(r) && NoReserve(requests)
    ensures Alternates(r.processId, BindingEvents(Some(r), requests))
    decreases |requests|
  {
    if requests != [] {
      StepAdvances(r, requests[0]);
      StepEventFits(r, requests[0]);
      hide Transition, StepEvent, Consistent;
      var next := Transition(Some(r), requests[0]).0;
      var tail := BindingEvents(next, requests[1..]);
      if next.Some? {
        BindingsAlternate(next.value, requests[1..]);
      } else {
        NothingBoundFromNothing(requests[1..]);
      }
      var event := StepEvent(Some(r), requests[0]);
      if event.Some? {
        assert ([event.value] + tail)[1..] == tail;
      }
    }
  }

  lemma {:induction false} NothingBoundFromNothing(requests: seq<Request>)
    requires NoReserve(requests)
    ensures BindingEvents(None, requests) == []
    decreases |requests|
  {
    if requests != [] {
      NothingBoundFromNothing(requests[1..]);
    }
  }
}
