/** What the registry's answers say, at every point of every run of a lease. */
module LeaseReplies {
  import opened Options
  import opened Strings
  import opened LeaseRegistry

  /** The states in which a request with the record's own lease is not blocked. */
  predicate Admits(r: LeaseRecord, path: Path, pid: Option<ProcessId>) {
    match path
    case Authorize => r.status.Ready?
    case MarkReady => r.status.Pending?
    case ProcessBegin => r.status.Ready? && r.processId.None? && pid.Some?
    case ProcessRunning => r.status.Ready? && r.processId == pid && r.processState == Some(Starting)
    case ProcessClear => r.processId == pid
    case Kill => r.status.Killed? || r.status.Destroyed? || (r.status.Ready? && r.processId.Some?)
    case KillFinish => r.status.Ready? && r.killRequested
    case DestroyBegin => !r.status.Pending?
    case DestroyFinish => r.status.Destroying?
    case DestroyAbort => r.status.Destroying?
    case Remove => r.status.Pending?
    case _ => false
  }

  /** What an answer to the record's owner says about the record before and after it. */
  ghost predicate Means(r: LeaseRecord, request: Request, next: Option<LeaseRecord>, reply: Reply) {
    match reply
    case Allowed(a) => request.path.Authorize? && a == r && r.status.Ready? && next == Some(r)
    case ProcessReserved(a) =>
      && request.path.ProcessBegin? && next == Some(a) && r.processId.None?
      && a.processId == request.processId && a.processState == Some(Starting) && a.status.Ready?
    case MarkedRunning(kill) =>
      && request.path.ProcessRunning? && r.processId == request.processId && kill == r.killRequested
      && next.Some? && next.value.processState == Some(Running) && next.value.processId == request.processId
    case KillReserved(p, provider) =>
      && request.path.Kill? && r.processId == Some(p) && provider == r.providerId
      && next.Some? && next.value.killRequested && next.value.processId == Some(p) && next.value.status.Ready?
    case KillAlreadyTerminal => request.path.Kill? && (r.status.Killed? || r.status.Destroyed?) && next == Some(r)
    case AlreadyDestroyed => request.path.DestroyBegin? && r.status.Destroyed? && next == Some(r)
    case DestroyReserved(provider, recovery) =>
      && request.path.DestroyBegin? && provider == r.providerId
      && (recovery.Fresh? <==> !r.status.Destroying?) && next.Some? && next.value.status.Destroying?
    case NoContent =>
      (match request.path
       case MarkReady => next.Some? && next.value.status.Ready?
       case ProcessClear =>
         && next.Some? && next.value.processId.None? && next.value.killRequested == r.killRequested
         && (next.value.status.Destroying? <==> r.status.Destroying?)
         && Effective(next.value) == (if Effective(r).Ready? && r.killRequested then Killed else Effective(r))
       case KillFinish => next.Some? && next.value.status.Killed? && next.value.processId.None?
       case DestroyFinish => next.Some? && next.value.status.Destroyed? && next.value.processId.None?
       case DestroyAbort => next.Some? && (next.value.status.Ready? || next.value.status.Killed?)
       case Remove => next.None?
       case _ => false)
    case Blocked => next == Some(r)
    case MethodNotAllowed => false
  }

  /** Only POST requests are handled; a reservation is taken once and only with a record. */
  lemma ReservesOnce(current: Option<LeaseRecord>, request: Request)
    ensures var (next, reply) := Transition(current, request);
            && (reply.MethodNotAllowed? <==> !request.post) && (!request.post ==> next == current)
            && (request.post && request.path.Reserve? ==>
                  if current.None? && request.record.Some? then next == request.record && reply.NoContent?
                  else next == current && reply.Blocked?)
  {
  }

  /** The owner of a record is blocked exactly where the protocol has no such step, and every answer is true. */
  lemma AnswersAreTrue(r: LeaseRecord, request: Request)
    requires Consistent(r) && request.post && !request.path.Reserve?
    requires request.lease.Some? && RecordMatchesLease(r, request.lease.value)
    ensures var (next, reply) := Transition(Some(r), request);
            && (reply.Blocked? <==> !Admits(r, request.path, request.processId))
            && Means(r, request, next, reply)
  {
    hide RecordMatchesLease;
  }

  /** In every run from the reservation the answers name the lease's own sandbox and the process bound last. */
  lemma AnswersOverRuns(lease: Lease, providerId: Text, sessionId: Text, requests: seq<Request>, request: Request)
    requires NoReserve(requests) && request.post && !request.path.Reserve? && request.lease == Some(lease)
    ensures var now := RunRequests(Some(FreshRecord(lease, providerId, sessionId)), requests);
            var (next, reply) := Transition(now, request);
            if now.None? then reply == Blocked
            else
              && Means(now.value, request, next, reply)
              && (reply.Blocked? <==> !Admits(now.value, request.path, request.processId))
              && now.value.processId
                 == LastOpen(None, BindingEvents(Some(FreshRecord(lease, providerId, sessionId)), requests))
              && (reply.Allowed? ==> reply.allowed.providerId == providerId && reply.allowed.sessionId == sessionId)
              && (reply.ProcessReserved? ==> reply.reserved.providerId == providerId
                                             && reply.reserved.sessionId == sessionId)
              && (reply.KillReserved? ==> reply.killProviderId == providerId)
              && (reply.DestroyReserved? ==> reply.providerId == providerId)
  {
    var start := FreshRecord(lease, providerId, sessionId);
    RunAdvances(start, requests);
    var now := RunRequests(Some(start), requests);
    if now.Some? {
      LastBound(start, requests);
      MatchesExactly(now.value, lease);
      AnswersAreTrue(now.value, request);
      StepAdvances(now.value, request);
    }
    hide Transition, RecordMatchesLease, RunRequests;
  }

  /** The process bound by the last of these events, if it was not released. */
  function LastOpen(open: Option<ProcessId>, events: seq<BindingEvent>): Option<ProcessId>
    decreases |events|
  {
    if events == [] then open
    else LastOpen(if events[0].Bound? then Some(events[0].process) else None, events[1..])
  }

  lemma {:induction false} LastBound(r: LeaseRecord, requests: seq<Request>)
    requires Consistent(r) && NoReserve(requests)
    ensures var last := RunRequests(Some(r), requests);
            last.Some? ==> last.value.processId == LastOpen(r.processId, BindingEvents(Some(r), requests))
    decreases |requests|
  {
    if requests != [] {
      StepAdvances(r, requests[0]);
      StepEventFits(r, requests[0]);
      hide Transition, StepEvent, Consistent;
      var next := Transition(Some(r), requests[0]).0;
      var tail := BindingEvents(next, requests[1..]);
      if next.Some? {
        LastBound(next.value, requests[1..]);
        var event := StepEvent(Some(r), requests[0]);
        if event.Some? { assert ([event.value] + tail)[1..] == tail; }
      } else {
        RunFromNothing(requests[1..]);
      }
    }
  }

  /** Aborting a destroy that was freshly begun undoes it. */
  lemma AbortUndoes(r: LeaseRecord, request: Request, abort: Request)
    requires Consistent(r) && request.post && request.path.DestroyBegin? && request.lease.Some?
    requires abort == request.(path := DestroyAbort)
    requires Transition(Some(r), request).1.DestroyReserved? && Transition(Some(r), request).1.recovery.Fresh?
    ensures Transition(Transition(Some(r), request).0, abort) == (Some(r), NoContent)
  {
  }
}
