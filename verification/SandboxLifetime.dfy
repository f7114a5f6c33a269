/** Sandboxes do not leak, and the registry calls a lease destroyed or killed only with cause. */
module SandboxLifetime {
  import opened Options
  import opened Strings
  import opened LeaseRegistry
  import opened Outcomes
  import opened SandboxProtocol
  import GrantIsolation

  predicate AtLeast(record: Option<LeaseRecord>, rank: nat) { record.Some? && Rank(record.value) >= rank }

  /** The lease has become ready. */
  predicate HasLeft(record: Option<LeaseRecord>) { AtLeast(record, 1) }

  predicate Creating(c: Creation) { c.CreationIssued? || c.CreationLanded? }

  /** Only executions of a lease that became ready touch the provider. */
  predicate ExecIdle(x: Exec) {
    x.bound.Yes? || (x.firstRemove.Idle? && x.setRule.Idle? && x.start.Idle? && x.killById.Idle? && x.finalRemove.Idle?)
  }

  predicate KillerOk(record: Option<LeaseRecord>, c: Killer) {
    && (c.flight.Idle? || HasLeft(record))
    && (c.stage.KillSending? ==> !c.flight.Idle?)
    && (c.stage.KillDone? && !c.stage.outcome.KillFailed? ==> AtLeast(record, 2))
  }

  predicate DestroyerOk(record: Option<LeaseRecord>, confirmed: bool, c: Destroyer) {
    && (c.flight.Idle? || HasLeft(record))
    && (c.stage.DestroySending? ==> !c.flight.Idle?)
    && (c.stage.DestroyFinishing? ==> confirmed)
    && (c.stage.DestroyDone? && !c.stage.outcome.DestroyFailed? ==> AtLeast(record, 3))
  }

  /** The createSession call may have left a sandbox behind. */
  predicate HadEffect(c: Creation) { c.CreationLanded? || c.CreationOk? || (c.CreationError? && c.hadEffect) }

  predicate NotLanded(f: Flight) { f.Idle? || f.Issued? }

  /** While the lease is not ready, the sandbox lives exactly if createSession took effect and no destroy since. */
  predicate AliveOk(record: Option<LeaseRecord>, alive: bool, c: Creator) {
    && (!HasLeft(record) && NotLanded(c.late) ==>
          (alive <==> HadEffect(c.creation) && (c.cleanupLanded.No? || c.landedLate.Yes?)))
    && (!HasLeft(record) && !NotLanded(c.late) ==> !alive)
    && (record.None? && !c.creation.NotCreated? ==> (alive <==> c.lateRemoved.Yes? && c.landedLate.Yes?))
  }

  /** The histories of the creator's calls. */
  predicate HistoryOk(record: Option<LeaseRecord>, c: Creator) {
    && (NotLanded(c.cleanup) ==> c.cleanupLanded.No?)
    && (c.cleanup.Landed? || c.cleanupConfirmed.Yes? ==> c.cleanupLanded.Yes?)
    && (c.landedLate.Yes? ==> c.cleanupLanded.Yes? && HadEffect(c.creation))
    && (!c.late.Idle? ==> c.creation.CreationOk?)
    && (c.lateRemoved.Yes? ==> record.None? && c.creation.CreationError?)
    && (c.lateConfirmed.Yes? ==> !NotLanded(c.late))
  }

  /** What is known in each stage of the create call. */
  predicate StageOk(record: Option<LeaseRecord>, c: Creator) {
    && (c.stage.Reserving? ==> record.None? && c.creation.NotCreated?)
    && (c.creation.NotCreated? ==> c.stage.Reserving? || c.stage.CreateReturned?)
    && (Creating(c.creation) ==>
          c.stage.Creating? || c.stage.LateWaiting? || (c.stage.CleaningUp? && c.stage.timedOut))
    && (c.stage.Reserving? || c.stage.Creating? || c.stage.MarkingReady? ==> c.cleanup.Idle?)
    && (c.stage.Reserving? || c.stage.Creating? || c.stage.MarkingReady? || c.stage.CleaningUp? ==>
          c.cleanupConfirmed.No?)
    && ((c.stage.CleaningUp? && !c.stage.timedOut) || c.stage.Removing? ==> c.landedLate.No?)
    && (c.stage.Removing? || c.stage.LateRejectRemoving? ==> c.cleanupConfirmed.Yes?)
    && (c.stage.LateRemoving? ==> c.lateConfirmed.Yes?)
    && (c.stage.LateRejectRemoving? ==> c.creation.CreationError?)
    && (c.stage.LateDestroying? || c.stage.LateRemoving? || c.stage.CreateReturned? || c.late.Idle?)
    && (c.stage.CreateReturned? && c.stage.created ==> HasLeft(record))
    && (record.None? && !c.creation.NotCreated? ==>
          c.stage.CreateReturned? && (c.cleanupConfirmed.Yes? || c.lateConfirmed.Yes?))
  }

  predicate CreatorOk(record: Option<LeaseRecord>, alive: bool, c: Creator) {
    AliveOk(record, alive, c) && HistoryOk(record, c) && StageOk(record, c)
  }

  ghost predicate LifeInv(s: System) {
    && (forall p :: p in s.execs ==> ExecIdle(s.execs[p]))
    && (forall k :: k in s.killers ==> KillerOk(s.record, s.killers[k]))
    && (forall d :: d in s.destroyers ==> DestroyerOk(s.record, s.destroyConfirmed, s.destroyers[d]))
    && CreatorOk(s.record, s.alive, s.creator)
    && (AtLeast(s.record, 3) ==> s.destroyConfirmed)
  }

  ghost predicate Inv(s: System) { GrantIsolation.Inv(s) && LifeInv(s) }

  /** A sandbox that is alive, or may still come alive, without a registry record. */
  predicate Leaked(s: System) {
    s.record.None? && (s.alive || Creating(s.creator.creation))
  }

  // ---- Registry requests ----

  /** A request never lowers the rank, never forgets a record that became ready,
      and reaches rank 3 only through destroy/finish. */
  lemma RequestRanks(r: LeaseRecord, request: Request)
    requires Consistent(r) && !request.path.Reserve?
    ensures var next := Transition(Some(r), request).0;
            && (next.None? ==> request.path.Remove? && Rank(r) == 0)
            && (next.Some? ==> Rank(r) <= Rank(next.value))
            && (next.Some? && Rank(next.value) == 3 ==> Rank(r) == 3 || request.path.DestroyFinish?)
            && (next.Some? && Rank(r) == 0 && Rank(next.value) >= 1 ==> request.path.MarkReady?)
  {
    hide RecordMatchesLease;
  }

  /** `next` may replace `record` for every party but the creator. */
  predicate Succeeds(record: Option<LeaseRecord>, next: Option<LeaseRecord>, finishing: bool) {
    && (HasLeft(record) ==> HasLeft(next))
    && (AtLeast(record, 2) ==> AtLeast(next, 2))
    && (AtLeast(record, 3) ==> AtLeast(next, 3))
    && (AtLeast(next, 3) ==> AtLeast(record, 3) || finishing)
  }

  lemma RequestSucceeds(s: System, request: Request, net: Delivery)
    requires Inv(s) && !request.path.Reserve?
    ensures var next := if net == NotSent then s.record else Transition(s.record, request).0;
            && Succeeds(s.record, next, request.path.DestroyFinish?)
            && (s.record.None? ==> next.None?)
            && (!request.path.Remove? && s.record.Some? ==> next.Some?)
            && (!request.path.MarkReady? && !HasLeft(s.record) ==> !HasLeft(next))
            && (HasLeft(s.record) ==> HasLeft(next))
  {
    if s.record.Some? {
      RequestRanks(s.record.value, request);
    }
  }

  lemma RecordReplaced(s: System, next: Option<LeaseRecord>)
    requires LifeInv(s) && Succeeds(s.record, next, s.destroyConfirmed)
    requires (s.record.None? <==> next.None?) && (HasLeft(s.record) <==> HasLeft(next))
    ensures LifeInv(s.(record := next))
  {
    KeepsCreator(s.record, next, s.alive, s.creator);
    CallersKept(s, next, s.alive);
    hide AtLeast, HasLeft, CreatorOk, KillerOk, DestroyerOk, ExecIdle;
  }

  /** The registry moved by a request of somebody other than the creator. */
  lemma OthersMoveRecord(s: System, request: Request, net: Delivery)
    requires Inv(s) && !request.path.Reserve? && !request.path.Remove? && !request.path.MarkReady?
    requires request.path.DestroyFinish? ==> s.destroyConfirmed
    ensures LifeInv(s.(record := if net == NotSent then s.record else Transition(s.record, request).0))
  {
    hide Transition, AtLeast, HasLeft, LifeInv, GrantIsolation.Inv;
    RequestSucceeds(s, request, net);
    RecordReplaced(s, if net == NotSent then s.record else Transition(s.record, request).0);
  }

  lemma KeepsCreator(record: Option<LeaseRecord>, next: Option<LeaseRecord>, alive: bool, c: Creator)
    requires CreatorOk(record, alive, c)
    requires (record.None? <==> next.None?) && (HasLeft(record) <==> HasLeft(next))
    ensures CreatorOk(next, alive, c)
  {
    hide HasLeft;
  }

  /** Killers, destroyers and executions survive any later record. */
  lemma CallersKept(s: System, next: Option<LeaseRecord>, alive: bool)
    requires LifeInv(s) && Succeeds(s.record, next, true)
    ensures var t := s.(record := next, alive := alive);
            && (forall k :: k in t.killers ==> KillerOk(t.record, t.killers[k]))
            && (forall d :: d in t.destroyers ==> DestroyerOk(t.record, t.destroyConfirmed, t.destroyers[d]))
  {
    hide CreatorOk, Rank;
    forall k | k in s.killers ensures KillerOk(next, s.killers[k]) {
      assert KillerOk(s.record, s.killers[k]);
    }
    forall d | d in s.destroyers ensures DestroyerOk(next, s.destroyConfirmed, s.destroyers[d]) {
      assert DestroyerOk(s.record, s.destroyConfirmed, s.destroyers[d]);
    }
  }

  // ---- Executions ----

  lemma ResolveIdle(lease: Lease, x: Exec, gone: bool, wrongId: bool)
    requires ExecIdle(x) && GrantIsolation.LocalOk(x)
    ensures AfterResolve(lease, x, gone, wrongId).Some? ==> ExecIdle(AfterResolve(lease, x, gone, wrongId).value)
  {
  }

  lemma ThrowIdle(x: Exec, timedOut: bool)
    requires ExecIdle(x) && GrantIsolation.LocalOk(x)
    ensures AfterThrow(x, timedOut).Some? ==> ExecIdle(AfterThrow(x, timedOut).value)
  {
  }

  lemma FailIdle(x: Exec)
    requires ExecIdle(x) && GrantIsolation.LocalOk(x)
    ensures ExecIdle(Fail(x)) && ExecIdle(Fail(x.(bound := Yes)))
  {
  }

  lemma ProviderStepKeeps(s: System, p: Pid, e: ExecEvent)
    requires Inv(s) && p in s.execs && ExecStep(s, p, e).Some? && !e.Replied?
    ensures LifeInv(ExecStep(s, p, e).value)
  {
    var x := s.execs[p];
    BoundIsReady(s, p);
    hide AfterResolve, AfterThrow, ExecReplied, ExecLands, WithFlight, FlightOf;
    hide Inv, GrantIsolation.LocalOk, HasLeft, LifeInv, ExecIdle;
    match e {
      case Resolved(wrongId) =>
        ResolveIdle(s.lease, x, p !in s.procs, wrongId);
        ExecChanged(s, p, AfterResolve(s.lease, x, p !in s.procs, wrongId).value);
      case Rejected =>
        ThrowIdle(x, false);
        ExecChanged(s, p, AfterThrow(x, false).value);
      case TimedOut =>
        ThrowIdle(x, true);
        ExecChanged(s, p, AfterThrow(x, true).value);
      case Lands(call) => LandsKeeps(s, p, call);
      case SettlesLate(call) =>
        FlightIdle(x, call, Settled);
        ExecChanged(s, p, WithFlight(x, call, Settled));
    }
  }

  lemma BoundIsReady(s: System, p: Pid)
    requires Inv(s) && p in s.execs
    ensures LifeInv(s) && ExecIdle(s.execs[p]) && GrantIsolation.LocalOk(s.execs[p])
    ensures s.execs[p].bound.Yes? ==> HasLeft(s.record)
  {
    hide ExecIdle, CreatorOk, KillerOk, DestroyerOk, GrantIsolation.LocalOk, GrantIsolation.ProviderOk,
      GrantIsolation.Owned, Rank;
  }

  lemma FlightIdle(x: Exec, call: Call, f: Flight)
    requires ExecIdle(x) && Flying(FlightOf(x, call))
    ensures x.bound.Yes? && ExecIdle(WithFlight(x, call, f))
  {
  }

  lemma LandsKeeps(s: System, p: Pid, call: Call)
    requires LifeInv(s) && p in s.execs && ExecLands(s, p, s.execs[p], call).Some?
    requires s.execs[p].bound.Yes? ==> HasLeft(s.record)
    ensures LifeInv(ExecLands(s, p, s.execs[p], call).value)
  {
    hide WithFlight, HasLeft, AtLeast, KillerOk, DestroyerOk, CreatorOk;
    assert ExecIdle(s.execs[p]);
    FlightIdle(s.execs[p], call, Landed);
    ReadyMayLive(s.record, s.alive, s.creator);
  }

  /** Once the lease is ready, the sandbox may be alive whatever the creator does. */
  lemma ReadyMayLive(record: Option<LeaseRecord>, alive: bool, c: Creator)
    requires CreatorOk(record, alive, c)
    ensures HasLeft(record) ==> CreatorOk(record, true, c)
  {
    hide Rank;
  }

  lemma ExecChanged(s: System, p: Pid, y: Exec)
    requires LifeInv(s) && ExecIdle(y)
    ensures LifeInv(s.(execs := s.execs[p := y]))
  {
    hide CreatorOk, KillerOk, DestroyerOk, AtLeast, ExecIdle;
  }

  lemma BeginKeeps(s: System, p: Pid, net: Delivery, sandboxOpens: bool)
    requires Inv(s) && p in s.execs && s.execs[p].stage.Beginning?
    ensures LifeInv(BeginReplied(s, p, s.execs[p], net, sandboxOpens))
  {
    var x := s.execs[p];
    assert ExecIdle(x) && GrantIsolation.LocalOk(x);
    hide GrantIsolation.LocalOk, LifeInv, Transition, Fail;
    FailIdle(x);
    assert x.(bound := Of(x.bound.Yes?)) == x;
    OthersMoveRecord(s, Request(true, ProcessBegin, Some(s.lease), Some(p), None), net);
    ExecChanged(s.(record := Stored(s, ProcessBegin, Some(p), net)), p,
                BeginReplied(s, p, x, net, sandboxOpens).execs[p]);
  }

  /** A reply that only fails the execution or moves it on keeps its idleness. */
  lemma ReplyMoves(s: System, p: Pid, request: Request, net: Delivery, y: Exec)
    requires Inv(s) && p in s.execs && ExecIdle(y)
    requires request.path.ProcessRunning? || request.path.KillFinish? || request.path.ProcessClear?
    ensures LifeInv(s.(record := if net == NotSent then s.record else Transition(s.record, request).0,
                       execs := s.execs[p := y]))
  {
    hide LifeInv, Transition, ExecIdle, GrantIsolation.Inv;
    OthersMoveRecord(s, request, net);
    ExecChanged(s.(record := if net == NotSent then s.record else Transition(s.record, request).0), p, y);
  }

  lemma MarkKeeps(s: System, p: Pid, net: Delivery)
    requires Inv(s) && p in s.execs
    ensures LifeInv(MarkReplied(s, p, s.execs[p], net))
  {
    var x := s.execs[p];
    BoundIsReady(s, p);
    FailIdle(x);
    hide Inv, GrantIsolation.LocalOk, LifeInv, Transition, Fail;
    ReplyMoves(s, p, Request(true, ProcessRunning, Some(s.lease), Some(p), None), net,
               MarkReplied(s, p, x, net).execs[p]);
  }

  lemma KillFinishKeeps(s: System, p: Pid, net: Delivery)
    requires Inv(s) && p in s.execs
    ensures LifeInv(KillFinishReplied(s, p, s.execs[p], net))
  {
    var x := s.execs[p];
    BoundIsReady(s, p);
    FailIdle(x);
    hide Inv, GrantIsolation.LocalOk, LifeInv, Transition, Fail;
    ReplyMoves(s, p, Request(true, KillFinish, Some(s.lease), None, None), net,
               KillFinishReplied(s, p, x, net).execs[p]);
  }

  lemma ClearKeeps(s: System, p: Pid, net: Delivery)
    requires Inv(s) && p in s.execs
    ensures LifeInv(ClearReplied(s, p, s.execs[p], net))
  {
    var x := s.execs[p];
    BoundIsReady(s, p);
    hide Inv, LifeInv, Transition;
    ReplyMoves(s, p, Request(true, ProcessClear, Some(s.lease), Some(p), None), net,
               ClearReplied(s, p, x, net).execs[p]);
  }

  lemma RepliedKeeps(s: System, p: Pid, net: Delivery, sandboxOpens: bool)
    requires Inv(s) && p in s.execs && ExecReplied(s, p, s.execs[p], net, sandboxOpens).Some?
    ensures LifeInv(ExecReplied(s, p, s.execs[p], net, sandboxOpens).value)
  {
    hide Inv, LifeInv, BeginReplied, MarkReplied, KillFinishReplied, ClearReplied;
    var x := s.execs[p];
    if x.stage.Beginning? { BeginKeeps(s, p, net, sandboxOpens); }
    else if x.stage.Marking? { MarkKeeps(s, p, net); }
    else if x.stage.FinishingKill? { KillFinishKeeps(s, p, net); }
    else { ClearKeeps(s, p, net); }
  }

  // ---- Kills and destroys ----

  /** What the answers to `kill` and `destroy` prove about the stored record. */
  lemma RepliesMean(record: Option<LeaseRecord>, lease: Lease)
    requires record.Some? ==> Consistent(record.value)
    ensures var (next, reply) := Transition(record, Request(true, Kill, Some(lease), None, None));
            && (reply.KillAlreadyTerminal? ==> AtLeast(next, 2))
            && (reply.KillReserved? ==> HasLeft(next))
    ensures var (next, reply) := Transition(record, Request(true, KillFinish, Some(lease), None, None));
            reply.NoContent? ==> AtLeast(next, 2)
    ensures var (next, reply) := Transition(record, Request(true, DestroyBegin, Some(lease), None, None));
            && (reply.AlreadyDestroyed? ==> AtLeast(next, 3))
            && (reply.DestroyReserved? ==> HasLeft(next))
    ensures var (next, reply) := Transition(record, Request(true, DestroyFinish, Some(lease), None, None));
            reply.NoContent? ==> AtLeast(next, 3)
  {
    hide RecordMatchesLease;
  }

  /** Only the callers' own bookkeeping changed. */
  lemma KillerChanged(s: System, k: nat, c: Killer)
    requires LifeInv(s) && KillerOk(s.record, c)
    ensures LifeInv(s.(killers := s.killers[k := c]))
  {
    hide HasLeft, AtLeast, CreatorOk, DestroyerOk, KillerOk, ExecIdle;
  }

  lemma DestroyerChanged(s: System, d: nat, c: Destroyer)
    requires LifeInv(s) && DestroyerOk(s.record, s.destroyConfirmed, c)
    ensures LifeInv(s.(destroyers := s.destroyers[d := c]))
  {
    hide HasLeft, AtLeast, CreatorOk, DestroyerOk, KillerOk, ExecIdle;
  }

  lemma KillRequestedKeeps(s: System, k: nat, net: Delivery)
    requires Inv(s) && k in s.killers
    ensures LifeInv(KillRequested(s, k, net))
  {
    hide Transition, LifeInv, HasLeft, AtLeast, Consistent, RecordMatchesLease, NoteKill;
    RepliesMean(s.record, s.lease);
    OthersMoveRecord(s, Request(true, Kill, Some(s.lease), None, None), net);
    NotedIdle(s, net);
    var u := s.(record := Stored(s, Kill, None, net), execs := NoteKill(s, net));
    KillerChanged(u, k, KillRequested(s, k, net).killers[k]);
  }

  lemma KillConcludedKeeps(s: System, k: nat, net: Delivery)
    requires Inv(s) && k in s.killers && s.killers[k].stage.KillFinishing?
    ensures LifeInv(KillConcluded(s, k, s.killers[k], net))
  {
    hide Transition, LifeInv, HasLeft, AtLeast, Consistent, RecordMatchesLease;
    CallersOk(s, k);
    RepliesMean(s.record, s.lease);
    RequestSucceeds(s, Request(true, KillFinish, Some(s.lease), None, None), net);
    OthersMoveRecord(s, Request(true, KillFinish, Some(s.lease), None, None), net);
    KillerChanged(s.(record := Stored(s, KillFinish, None, net)), k,
                  KillConcluded(s, k, s.killers[k], net).killers[k]);
  }

  lemma NotedIdle(s: System, net: Delivery)
    requires LifeInv(s)
    ensures LifeInv(s.(record := Stored(s, Kill, None, net)))
            ==> LifeInv(s.(record := Stored(s, Kill, None, net), execs := NoteKill(s, net)))
  {
    hide Transition, CreatorOk, KillerOk, DestroyerOk, AtLeast;
    forall p | p in NoteKill(s, net) ensures ExecIdle(NoteKill(s, net)[p]) {
      assert ExecIdle(s.execs[p]);
    }
  }

  lemma DestroyRequestedKeeps(s: System, d: nat, net: Delivery)
    requires Inv(s) && d in s.destroyers
    ensures LifeInv(DestroyRequested(s, d, net))
  {
    hide Transition, LifeInv, HasLeft, AtLeast, Consistent, RecordMatchesLease;
    RepliesMean(s.record, s.lease);
    OthersMoveRecord(s, Request(true, DestroyBegin, Some(s.lease), None, None), net);
    DestroyerChanged(s.(record := Stored(s, DestroyBegin, None, net)), d, DestroyRequested(s, d, net).destroyers[d]);
  }

  lemma DestroyAbortedKeeps(s: System, d: nat, net: Delivery)
    requires Inv(s) && d in s.destroyers && s.destroyers[d].stage.DestroyAborting?
    ensures LifeInv(DestroyAborted(s, d, s.destroyers[d], net))
  {
    hide Transition, LifeInv, HasLeft, AtLeast, Consistent, RecordMatchesLease;
    CallersOk(s, d);
    RequestSucceeds(s, Request(true, DestroyAbort, Some(s.lease), None, None), net);
    OthersMoveRecord(s, Request(true, DestroyAbort, Some(s.lease), None, None), net);
    DestroyerChanged(s.(record := Stored(s, DestroyAbort, None, net)), d,
                     DestroyAborted(s, d, s.destroyers[d], net).destroyers[d]);
  }

  lemma DestroyConcludedKeeps(s: System, d: nat, net: Delivery)
    requires Inv(s) && d in s.destroyers && s.destroyers[d].stage.DestroyFinishing?
    ensures LifeInv(DestroyConcluded(s, d, s.destroyers[d], net))
  {
    hide Transition, LifeInv, HasLeft, AtLeast, Consistent, RecordMatchesLease;
    CallersOk(s, d);
    RepliesMean(s.record, s.lease);
    RequestSucceeds(s, Request(true, DestroyFinish, Some(s.lease), None, None), net);
    OthersMoveRecord(s, Request(true, DestroyFinish, Some(s.lease), None, None), net);
    DestroyerChanged(s.(record := Stored(s, DestroyFinish, None, net)), d,
                     DestroyConcluded(s, d, s.destroyers[d], net).destroyers[d]);
  }

  lemma KillStepKeeps(s: System, k: nat, e: CallerEvent)
    requires Inv(s) && k in s.killers && KillStep(s, k, e).Some?
    ensures LifeInv(KillStep(s, k, e).value)
  {
    hide GrantIsolation.Inv, HasLeft, AtLeast, LifeInv, KillRequested, KillConcluded;
    var c := s.killers[k];
    if e.CallerReplied? {
      if c.stage.KillRequesting? { KillRequestedKeeps(s, k, e.net); } else { KillConcludedKeeps(s, k, e.net); }
    } else {
      assert KillerOk(s.record, c) by { CallersOk(s, k); }
      KillerChanged(s, k, KillCall(c, e).value);
      if e.CallerLands? {
        MayLive(s.(killers := s.killers[k := KillCall(c, e).value]), s.procs - {c.target});
      }
    }
  }

  lemma CallersOk(s: System, k: nat)
    requires LifeInv(s)
    ensures k in s.killers ==> KillerOk(s.record, s.killers[k])
    ensures k in s.destroyers ==> DestroyerOk(s.record, s.destroyConfirmed, s.destroyers[k])
  {
    hide CreatorOk, KillerOk, DestroyerOk;
  }

  lemma MayLive(s: System, procs: set<Pid>)
    requires LifeInv(s) && HasLeft(s.record)
    ensures LifeInv(s.(alive := true, procs := procs))
  {
    ReadyMayLive(s.record, s.alive, s.creator);
    hide CreatorOk, KillerOk, DestroyerOk, HasLeft, AtLeast;
  }

  lemma ReadyMayDie(record: Option<LeaseRecord>, alive: bool, c: Creator)
    requires CreatorOk(record, alive, c)
    ensures HasLeft(record) ==> CreatorOk(record, false, c)
  {
    hide Rank;
  }

  /** Once the lease is ready, losing the sandbox breaks nothing. */
  lemma MayDie(s: System, rule: Option<Pid>, procs: set<Pid>)
    requires LifeInv(s) && HasLeft(s.record)
    ensures LifeInv(s.(alive := false, rule := rule, procs := procs))
  {
    ReadyMayDie(s.record, s.alive, s.creator);
    hide CreatorOk, KillerOk, DestroyerOk, HasLeft, AtLeast;
  }

  lemma DestroyStepKeeps(s: System, d: nat, e: CallerEvent)
    requires Inv(s) && d in s.destroyers && DestroyStep(s, d, e).Some?
    ensures LifeInv(DestroyStep(s, d, e).value)
  {
    hide GrantIsolation.Inv, HasLeft, AtLeast, LifeInv, DestroyRequested, DestroyAborted, DestroyConcluded;
    var c := s.destroyers[d];
    if e.CallerReplied? {
      if c.stage.DestroyReserving? { DestroyRequestedKeeps(s, d, e.net); }
      else if c.stage.DestroyAborting? { DestroyAbortedKeeps(s, d, e.net); }
      else { DestroyConcludedKeeps(s, d, e.net); }
    } else {
      assert DestroyerOk(s.record, s.destroyConfirmed, c) by { CallersOk(s, d); }
      var n := DestroyCall(c, e).value;
      if e.CallerResolved? { Confirmed(s); DestroyerChanged(s.(destroyConfirmed := true), d, n); }
      else { DestroyerChanged(s, d, n); }
      if e.CallerLands? { MayDie(s.(destroyers := s.destroyers[d := n]), None, {}); }
    }
  }

  lemma Confirmed(s: System)
    requires LifeInv(s)
    ensures LifeInv(s.(destroyConfirmed := true))
  {
    hide KillerOk, CreatorOk, HasLeft, AtLeast;
    forall d | d in s.destroyers ensures DestroyerOk(s.record, true, s.destroyers[d]) {
      assert DestroyerOk(s.record, s.destroyConfirmed, s.destroyers[d]);
    }
  }

  // ---- The create call ----

  /** The creator's provider calls move it honestly. */
  lemma CreatorMoves(record: Option<LeaseRecord>, alive: bool, c: Creator, e: CreatorEvent)
    requires CreatorOk(record, alive, c) && CreatorCall(c, e).Some?
    ensures CreatorOk(record, (alive || e.CreationLands?) && !e.CleanupLands? && !e.LateLands?, CreatorCall(c, e).value)
  {
    hide HasLeft;
  }

  lemma ReserveKeeps(s: System, net: Delivery)
    requires Inv(s) && s.creator.stage.Reserving?
    ensures var t := ReserveReplied(s, net);
            CreatorOk(t.record, t.alive, t.creator) && Succeeds(s.record, t.record, false)
  {
  }

  lemma ReadyKeeps(s: System, net: Delivery)
    requires Inv(s) && s.creator.stage.MarkingReady?
    ensures var t := ReadyReplied(s, net);
            CreatorOk(t.record, t.alive, t.creator) && Succeeds(s.record, t.record, false)
  {
    RequestSucceeds(s, Request(true, MarkReady, Some(s.lease), None, None), net);
    hide RecordMatchesLease;
  }

  lemma RemoveKeeps(s: System, net: Delivery)
    requires Inv(s)
    requires s.creator.stage.Removing? || s.creator.stage.LateRemoving? || s.creator.stage.LateRejectRemoving?
    ensures var t := RemoveReplied(s, net);
            CreatorOk(t.record, t.alive, t.creator) && Succeeds(s.record, t.record, false)
  {
    RequestSucceeds(s, Request(true, Remove, Some(s.lease), None, None), net);
    hide RecordMatchesLease, Transition;
  }

  lemma CreatorChanged(s: System, record: Option<LeaseRecord>, creator: Creator)
    requires LifeInv(s) && CreatorOk(record, s.alive, creator) && Succeeds(s.record, record, false)
    ensures LifeInv(s.(record := record, creator := creator))
  {
    CallersKept(s, record, s.alive);
    hide CreatorOk, KillerOk, DestroyerOk, HasLeft, AtLeast, ExecIdle;
  }

  lemma CreateStepKeeps(s: System, e: CreatorEvent)
    requires Inv(s) && CreateStep(s, e).Some?
    ensures LifeInv(CreateStep(s, e).value)
  {
    if e.CreatorReplied? {
      CreateReplyKeeps(s, e.net);
      hide LifeInv, ReserveReplied, ReadyReplied, RemoveReplied;
    } else {
      hide CreatorOk, KillerOk, DestroyerOk, HasLeft, AtLeast, CreatorCall;
      CreatorMoves(s.record, s.alive, s.creator, e);
    }
  }

  lemma CreateReplyKeeps(s: System, net: Delivery)
    requires Inv(s)
    ensures s.creator.stage.Reserving? ==> LifeInv(ReserveReplied(s, net))
    ensures s.creator.stage.MarkingReady? ==> LifeInv(ReadyReplied(s, net))
    ensures s.creator.stage.Removing? || s.creator.stage.LateRemoving? || s.creator.stage.LateRejectRemoving?
            ==> LifeInv(RemoveReplied(s, net))
  {
    hide CreatorOk, HasLeft, AtLeast, LifeInv, ReserveReplied, ReadyReplied, RemoveReplied, Succeeds,
      GrantIsolation.Inv;
    RepliesKeepOthers(s, net);
    if s.creator.stage.Reserving? {
      ReserveKeeps(s, net);
      CreatorChanged(s, ReserveReplied(s, net).record, ReserveReplied(s, net).creator);
    }
    if s.creator.stage.MarkingReady? {
      ReadyKeeps(s, net);
      CreatorChanged(s, ReadyReplied(s, net).record, ReadyReplied(s, net).creator);
    }
    if s.creator.stage.Removing? || s.creator.stage.LateRemoving? || s.creator.stage.LateRejectRemoving? {
      RemoveKeeps(s, net);
      CreatorChanged(s, RemoveReplied(s, net).record, RemoveReplied(s, net).creator);
    }
  }

  lemma RepliesKeepOthers(s: System, net: Delivery)
    ensures var t := ReserveReplied(s, net); t == s.(record := t.record, creator := t.creator)
    ensures var t := ReadyReplied(s, net); t == s.(record := t.record, creator := t.creator)
    ensures var t := RemoveReplied(s, net); t == s.(record := t.record, creator := t.creator)
  {
    hide Transition;
  }

  // ---- Every run ----

  lemma StepKeeps(s: System, a: Action)
    requires Inv(s) && Step(s, a).Some?
    ensures Inv(Step(s, a).value)
  {
    GrantIsolation.StepKeeps(s, a);
    LifeStepKeeps(s, a);
  }

  lemma LifeStepKeeps(s: System, a: Action)
    requires Inv(s) && Step(s, a).Some?
    ensures LifeInv(Step(s, a).value)
  {
    hide GrantIsolation.Inv, ExecStep, KillStep, DestroyStep, CreateStep;
    hide CreatorOk, KillerOk, DestroyerOk, HasLeft, AtLeast;
    match a {
      case ExecMoves(p, e) =>
        if e.Replied? { GrantIsolation.ReplyStep(s, p, e); RepliedKeeps(s, p, e.net, e.sandboxOpens); }
        else { ProviderStepKeeps(s, p, e); }
      case KillMoves(k, e) => KillStepKeeps(s, k, e);
      case DestroyMoves(d, e) => DestroyStepKeeps(s, d, e);
      case CreateMoves(e) => CreateStepKeeps(s, e);
      case _ => OtherStepsKeep(s, a);
    }
  }

  /** New calls start idle, and the provider may lose a process or the rule at any time. */
  lemma OtherStepsKeep(s: System, a: Action)
    requires LifeInv(s) && Step(s, a).Some?
    requires !a.ExecMoves? && !a.KillMoves? && !a.DestroyMoves? && !a.CreateMoves?
    ensures LifeInv(Step(s, a).value)
  {
    hide CreatorOk, HasLeft, AtLeast, ExecStep, KillStep, DestroyStep, CreateStep;
    match a {
      case Execute(p, egress) => ExecChanged(s, p, NewExec(egress));
      case StartKill(k) => KillerChanged(s, k, Killer(KillRequesting, 0, Idle));
      case StartDestroy(d) => DestroyerChanged(s, d, Destroyer(DestroyReserving, Idle));
      case _ =>
        hide KillerOk, DestroyerOk, ExecIdle;
    }
  }

  lemma {:induction false} RunKeeps(s: System, actions: seq<Action>)
    requires Inv(s) && Run(s, actions).Some?
    ensures Inv(Run(s, actions).value)
    decreases |actions|
  {
    hide Inv, Step;
    if actions != [] {
      StepKeeps(s, actions[0]);
      RunKeeps(Step(s, actions[0]).value, actions[1..]);
    }
  }

  lemma Reachable(lease: Lease, provider: Text, session: Text, actions: seq<Action>)
    requires Run(Initial(lease, provider, session), actions).Some?
    ensures Inv(Run(Initial(lease, provider, session), actions).value)
  {
    var init := Initial(lease, provider, session);
    forall p ensures !GrantIsolation.Dirty(init, p) {}
    RunKeeps(init, actions);
  }

  /** No leaked sandbox, in every run: a sandbox that is alive or may still come alive has a registry
      record, unless createSession took effect after the clean-up destroy had, and was then rejected. */
  lemma NoLeak(lease: Lease, provider: Text, session: Text, actions: seq<Action>)
    requires Run(Initial(lease, provider, session), actions).Some?
    ensures var s := Run(Initial(lease, provider, session), actions).value;
            Leaked(s) ==> s.creator.landedLate.Yes? && s.creator.creation.CreationError?
  {
    Reachable(lease, provider, session, actions);
    hide Run, GrantIsolation.Inv;
  }

  /** A lease is leaked exactly when the late rejection's removal reached its pending record and createSession
      had taken effect after the clean-up destroy. */
  lemma LeakExactly(lease: Lease, provider: Text, session: Text, actions: seq<Action>)
    requires Run(Initial(lease, provider, session), actions).Some?
    ensures var s := Run(Initial(lease, provider, session), actions).value;
            Leaked(s) <==> s.creator.lateRemoved.Yes? && s.creator.landedLate.Yes?
  {
    Reachable(lease, provider, session, actions);
    hide Run, GrantIsolation.Inv;
  }

  /** A run that leaks: the clean-up destroy is confirmed, the timed-out creation takes
      effect afterwards and is then rejected, and its continuation trusts the earlier destroy. */
  function LeakingRun(): seq<CreatorEvent> {
    [CreatorReplied(Delivered), CreationTimesOut, CleanupLands, CleanupResolves, CreationLands,
     CreationSettles(false), LateContinues, CreatorReplied(Delivered)]
  }

  function CreateActions(events: seq<CreatorEvent>): (actions: seq<Action>)
    ensures |actions| == |events|
  {
    if events == [] then [] else [CreateMoves(events[0])] + CreateActions(events[1..])
  }

  /** A reserved lease on which nothing but the create call has happened. */
  function Reserved(lease: Lease, provider: Text, session: Text, creator: Creator, alive: bool): System {
    Initial(lease, provider, session).(record := Some(FreshRecord(lease, provider, session)), creator := creator,
                                       alive := alive)
  }

  /** A creator step whose outcome is known starts the rest of the run from there. */
  lemma CreatorRun(s: System, e: CreatorEvent, t: System, events: seq<CreatorEvent>)
    requires CreateStep(s, e) == Some(t)
    ensures Run(s, CreateActions([e] + events)) == Run(t, CreateActions(events))
  {
    assert ([e] + events)[1..] == events;
    assert CreateActions([e] + events)[1..] == CreateActions(events);
    hide CreateStep;
  }

  /** A provider call of the creator, followed by the rest of the run. */
  lemma CreatorCalls(lease: Lease, provider: Text, session: Text, alive: bool, c: Creator, e: CreatorEvent,
                     d: Creator, after: bool, events: seq<CreatorEvent>)
    requires !e.CreatorReplied? && CreatorCall(c, e) == Some(d)
    requires after == ((alive || e.CreationLands?) && !e.CleanupLands? && !e.LateLands?)
    ensures Run(Reserved(lease, provider, session, c, alive), CreateActions([e] + events))
            == Run(Reserved(lease, provider, session, d, after), CreateActions(events))
  {
    CreatorRun(Reserved(lease, provider, session, c, alive), e, Reserved(lease, provider, session, d, after), events);
    hide CreatorCall, Run, CreateActions;
  }

  /** The reservation answers, and createSession is issued. */
  lemma LeakStarts(lease: Lease, provider: Text, session: Text, c: Creator)
    requires c == Creator(CreatorStage.Creating, CreationIssued, Idle, Idle, No, No, No, No, No)
    ensures CreateStep(Initial(lease, provider, session), CreatorReplied(Delivered))
            == Some(Reserved(lease, provider, session, c, false))
  {
  }

  lemma LeakEnds(lease: Lease, provider: Text, session: Text, c: Creator)
    requires c.stage.LateRejectRemoving?
    ensures var last := Run(Reserved(lease, provider, session, c, true), CreateActions([CreatorReplied(Delivered)]));
            last.Some? && last.value.alive && last.value.record.None?
  {
    var s := Reserved(lease, provider, session, c, true);
    var t := CreateStep(s, CreatorReplied(Delivered)).value;
    CreatorRun(s, CreatorReplied(Delivered), t, []);
    assert [CreatorReplied(Delivered)] + [] == [CreatorReplied(Delivered)];
  }

  /** The documented promise fails: this run leaks. */
  lemma LeakHappens(lease: Lease, provider: Text, session: Text)
    ensures var last := Run(Initial(lease, provider, session), CreateActions(LeakingRun()));
            last.Some? && last.value.alive && last.value.record.None?
  {
    hide Run, CreateActions, CreateStep, Initial, Reserved;
    var e := LeakingRun();
    var c := Creator(CreatorStage.Creating, CreationIssued, Idle, Idle, No, No, No, No, No);
    LeakStarts(lease, provider, session, c);
    CreatorRun(Initial(lease, provider, session), e[0], Reserved(lease, provider, session, c, false), e[1..]);
    assert [e[0]] + e[1..] == e;
    LeakMiddle(lease, provider, session, c, e, 1, c, false);
  }

  /** The provider calls of the leaking run, from position `i` on. */
  lemma {:induction false} LeakMiddle(lease: Lease, provider: Text, session: Text, first: Creator,
                                      e: seq<CreatorEvent>, i: nat, c: Creator, alive: bool)
    requires e == LeakingRun() && 1 <= i <= 7
    requires first == Creator(CreatorStage.Creating, CreationIssued, Idle, Idle, No, No, No, No, No)
    requires c == LeakingCreator(first, i) && alive == (i >= 5)
    ensures var last := Run(Reserved(lease, provider, session, c, alive), CreateActions(e[i..]));
            last.Some? && last.value.alive && last.value.record.None?
    decreases 7 - i
  {
    hide Run, CreateActions, CreateStep, Initial, Reserved;
    assert [e[i]] + e[i + 1..] == e[i..];
    if i == 7 {
      assert e[7..] == [CreatorReplied(Delivered)];
      LeakEnds(lease, provider, session, c);
    } else {
      var d := LeakingCreator(first, i + 1);
      CreatorCalls(lease, provider, session, alive, c, e[i], d, i + 1 >= 5, e[i + 1..]);
      LeakMiddle(lease, provider, session, first, e, i + 1, d, i + 1 >= 5);
    }
  }

  /** The creator after the first `i` steps of the leaking run. */
  function LeakingCreator(c: Creator, i: nat): Creator
    requires 1 <= i <= 7
  {
    if i == 1 then c
    else if i == 2 then c.(stage := CleaningUp(true), cleanup := Issued)
    else if i == 3 then c.(stage := CleaningUp(true), cleanup := Landed, cleanupLanded := Yes)
    else c.(stage := if i == 7 then LateRejectRemoving else LateWaiting,
            creation := if i == 4 then CreationIssued else if i == 5 then CreationLanded else CreationError(true),
            cleanup := Settled, cleanupConfirmed := Yes, cleanupLanded := Yes, landedLate := Of(i >= 5))
  }

  /** A record disappears, and a lease counts as destroyed, only after a confirmed destroy with no
      creation outstanding; results of `kill` and `destroy` tell the truth for ever. */
  lemma OnlyConfirmed(lease: Lease, provider: Text, session: Text, actions: seq<Action>)
    requires Run(Initial(lease, provider, session), actions).Some?
    ensures var s := Run(Initial(lease, provider, session), actions).value;
            && (s.record.None? && !s.creator.creation.NotCreated? ==>
                  && (s.creator.cleanupConfirmed.Yes? || s.creator.lateConfirmed.Yes?)
                  && !Creating(s.creator.creation))
            && (s.record.Some? && s.record.value.status.Destroyed? ==> s.destroyConfirmed)
            && (forall d :: d in s.destroyers && s.destroyers[d].stage.DestroyDone?
                            && !s.destroyers[d].stage.outcome.DestroyFailed? ==>
                  s.record.Some? && s.record.value.status.Destroyed?)
            && (forall k :: k in s.killers && s.killers[k].stage.KillDone?
                            && !s.killers[k].stage.outcome.KillFailed? ==>
                  s.record.Some? && Rank(s.record.value) >= 2)
            && (s.creator.stage.CreateReturned? && s.creator.stage.created ==>
                  s.record.Some? && Rank(s.record.value) >= 1)
  {
    Reachable(lease, provider, session, actions);
    hide Run;
    var s := Run(Initial(lease, provider, session), actions).value;
    forall k | k in s.killers ensures KillerOk(s.record, s.killers[k]) {}
    forall d | d in s.destroyers ensures DestroyerOk(s.record, s.destroyConfirmed, s.destroyers[d]) {}
  }
}
