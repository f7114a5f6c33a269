/** A kill accepted while the process is still starting is never lost. */
module KillDelivery {
  import opened Options
  import opened Strings
  import opened LeaseRegistry
  import opened Outcomes
  import opened SandboxProtocol
  import GrantIsolation

  /** The registry binds `p` and still calls it starting. */
  predicate BoundStarting(record: Option<LeaseRecord>, p: Pid) {
    record.Some? && record.value.processId.Some? && record.value.processId.value == p && IsStarting(record.value)
  }

  predicate KillWanted(record: Option<LeaseRecord>) { record.Some? && record.value.killRequested }

  /** Stages reached only through an accepted markProcessRunning. */
  predicate Marked(stage: Stage) { stage.Signalling? || stage.FinishingKill? || stage.AwaitingExit? }

  predicate KillOk(record: Option<LeaseRecord>, p: Pid, x: Exec) {
    && (x.killSeen.Yes? ==> KillWanted(record))
    && (x.stage.Signalling? || x.stage.FinishingKill? || x.stage.CatchSignal? || x.stage.CatchWait? ==>
        x.signalled.Yes?)
    && (x.stage.AwaitingExit? && x.killSeen.Yes? ==> x.signalled.Yes?)
    && (Marked(x.stage) || x.stage.Beginning? ==> !BoundStarting(record, p))
  }

  ghost predicate KillInv(s: System) {
    && (forall p :: p in s.execs ==> KillOk(s.record, p, s.execs[p]))
    && (s.record.Some? && s.record.value.processId.Some? ==> s.record.value.processId.value in s.execs)
  }

  ghost predicate Inv(s: System) { GrantIsolation.Inv(s) && KillInv(s) }

  // ---- Requests ----

  /** A request that binds no process keeps an accepted kill and starts nothing. */
  lemma RequestKeeps(r: LeaseRecord, request: Request, p: Pid)
    requires Consistent(r) && !request.path.ProcessBegin? && !request.path.Reserve?
    ensures var next := Transition(Some(r), request).0;
            && (r.killRequested ==> KillWanted(next))
            && (BoundStarting(next, p) ==> BoundStarting(Some(r), p))
            && (next.Some? && next.value.processId.Some? ==> next.value.processId == r.processId)
  {
    hide RecordMatchesLease;
  }

  lemma RegistryMove(s: System, request: Request, net: Delivery)
    requires Inv(s) && !request.path.ProcessBegin? && !request.path.Reserve?
    ensures KillInv(s.(record := if net == NotSent then s.record else Transition(s.record, request).0))
  {
    if s.record.Some? && net != NotSent {
      var t := s.(record := Transition(s.record, request).0);
      forall p | p in t.execs ensures KillOk(t.record, p, t.execs[p]) {
        RequestKeeps(s.record.value, request, p);
        assert KillOk(s.record, p, s.execs[p]);
        hide Transition, BoundStarting;
      }
      RequestKeeps(s.record.value, request, 0);
    }
  }

  // ---- Executions ----

  /** `y` has the history of `x` and sits in an honest stage. */
  predicate Follows(x: Exec, y: Exec) {
    && y.killSeen == x.killSeen && (x.signalled.Yes? ==> y.signalled.Yes?)
    && (y.stage.Signalling? || y.stage.FinishingKill? || y.stage.CatchSignal? || y.stage.CatchWait? ==>
        y.signalled.Yes?)
    && (y.stage.AwaitingExit? ==> x.stage.AwaitingExit? || y.signalled.Yes?)
    && (Marked(y.stage) || y.stage.Beginning? ==> Marked(x.stage) || x.stage.Beginning?)
  }

  lemma CatchFollows(x: Exec, y: Exec)
    requires y.killSeen == x.killSeen && y.signalled == x.signalled && y.stage == x.stage
    ensures Follows(x, Fail(y))
  {
  }

  lemma ResolveFollows(lease: Lease, x: Exec, gone: bool, wrongId: bool)
    requires AfterResolve(lease, x, gone, wrongId).Some?
    requires x.stage.Signalling? || x.stage.CatchSignal? ==> x.signalled.Yes?
    ensures Follows(x, AfterResolve(lease, x, gone, wrongId).value)
  {
  }

  /** The stage and the history decide; the provider calls do not matter. */
  lemma SameHistoryFollows(x: Exec, y: Exec)
    requires y.stage == x.stage && y.killSeen == x.killSeen && y.signalled == x.signalled
    requires x.stage.Signalling? || x.stage.FinishingKill? || x.stage.CatchSignal? || x.stage.CatchWait? ==>
             x.signalled.Yes?
    ensures Follows(x, y)
  {
  }

  lemma ThrowFollows(x: Exec, timedOut: bool)
    requires AfterThrow(x, timedOut).Some?
    ensures Follows(x, AfterThrow(x, timedOut).value)
  {
    hide Thrown;
    var z := Thrown(x, timedOut);
    assert z.stage == x.stage && z.killSeen == x.killSeen && z.signalled == x.signalled by {
      ThrownKeepsHistory(x, timedOut);
    }
  }

  lemma ThrownKeepsHistory(x: Exec, timedOut: bool)
    ensures var z := Thrown(x, timedOut);
            z.stage == x.stage && z.killSeen == x.killSeen && z.signalled == x.signalled
  {
  }

  lemma ExecChange(s: System, p: Pid, y: Exec)
    requires KillInv(s) && p in s.execs && Follows(s.execs[p], y)
    ensures KillInv(s.(execs := s.execs[p := y]))
  {
    var t := s.(execs := s.execs[p := y]);
    assert KillOk(s.record, p, s.execs[p]);
    assert KillOk(t.record, p, y);
    forall q | q in t.execs ensures KillOk(t.record, q, t.execs[q]) {
      assert q != p ==> KillOk(s.record, q, s.execs[q]);
    }
  }

  lemma RequestKeepsStarting(r: LeaseRecord, request: Request, p: Pid)
    requires request.path.ProcessRunning? && request.processId.Some? && request.processId.value == p
    ensures Transition(Some(r), request).1.MarkedRunning? ==>
              Transition(Some(r), request).1.killRequested == r.killRequested
              && !BoundStarting(Transition(Some(r), request).0, p)
  {
    hide RecordMatchesLease;
  }

  /** What the answer to markProcessRunning leads to, given the stored record before it. */
  lemma MarkReply(record: Option<LeaseRecord>, lease: Lease, p: Pid, x: Exec, net: Delivery)
    requires record.Some? ==> Consistent(record.value) && RecordMatchesLease(record.value, lease)
    requires KillOk(record, p, x) && x.stage.Marking? && x.hasProcess.Yes?
    ensures var (next, reply) := Transition(record, Request(true, ProcessRunning, Some(lease), Some(p), None));
            && KillOk(if net.NotSent? then record else next, p, Fail(x))
            && (reply.MarkedRunning? ==>
                  && (x.killSeen.Yes? ==> reply.killRequested)
                  && KillOk(next, p, x.(stage := if reply.killRequested then Signalling else AwaitingExit,
                                        signalled := Of(x.signalled.Yes? || reply.killRequested))))
    ensures Fail(x).stage.CatchSignal? && Fail(x).signalled.Yes?
  {
    hide RecordMatchesLease, Finally;
    var request := Request(true, ProcessRunning, Some(lease), Some(p), None);
    if record.Some? {
      StepAdvances(record.value, request);
      hide Consistent;
      RequestKeepsStarting(record.value, request, p);
    }
  }

  /** The reply to markProcessRunning: a kill that was accepted before is read or the request is refused. */
  lemma MarkKeeps(s: System, p: Pid, net: Delivery)
    requires Inv(s) && p in s.execs && s.execs[p].stage.Marking?
    ensures KillInv(MarkReplied(s, p, s.execs[p], net))
    ensures var y := MarkReplied(s, p, s.execs[p], net).execs[p];
            s.execs[p].killSeen.Yes? ==> y.signalled.Yes? && (y.stage.Signalling? || y.stage.CatchSignal?)
  {
    hide Transition, Fail, KillOk, RecordMatchesLease, Consistent;
    var x := s.execs[p];
    assert KillOk(s.record, p, x);
    assert x.hasProcess.Yes? by { assert GrantIsolation.LocalOk(x); }
    MarkReply(s.record, s.lease, p, x, net);
    RegistryMove(s, Request(true, ProcessRunning, Some(s.lease), Some(p), None), net);
    var u := s.(record := Stored(s, ProcessRunning, Some(p), net));
    var t := MarkReplied(s, p, x, net);
    forall q | q in t.execs ensures KillOk(t.record, q, t.execs[q]) {
      assert q != p ==> KillOk(u.record, q, u.execs[q]);
    }
  }

  /** The registry after a begin request: at most `p` becomes the bound, starting process. */
  lemma BeginReply(record: Option<LeaseRecord>, lease: Lease, p: Pid, q: Pid, z: Exec)
    requires KillOk(record, q, z) && p != q
    ensures KillOk(Transition(record, Request(true, ProcessBegin, Some(lease), Some(p), None)).0, q, z)
  {
    hide RecordMatchesLease;
  }

  lemma BeginLocal(record: Option<LeaseRecord>, lease: Lease, p: Pid, x: Exec, y: Exec)
    requires KillOk(record, p, x) && y.killSeen == x.killSeen
    requires y.stage.Closed? || y.stage.FirstRemove?
    ensures KillOk(Transition(record, Request(true, ProcessBegin, Some(lease), Some(p), None)).0, p, y)
    ensures KillOk(record, p, y)
  {
    hide RecordMatchesLease;
  }

  lemma BeginFails(x: Exec)
    requires !x.hasProcess.Yes? && !x.startAttempted.Yes? && !x.hasSandbox.Yes? && !x.clean.Yes?
    ensures Fail(x).stage.Closed? && Fail(x).killSeen == x.killSeen
  {
  }

  /** However the begin request ends, the execution is either bound and going or closed. */
  lemma BeginStage(s: System, p: Pid, net: Delivery, sandboxOpens: bool)
    requires p in s.execs
    requires var x := s.execs[p]; !x.hasProcess.Yes? && !x.startAttempted.Yes? && !x.hasSandbox.Yes? && !x.clean.Yes?
    ensures var y := BeginReplied(s, p, s.execs[p], net, sandboxOpens).execs[p];
            y.killSeen == s.execs[p].killSeen && (y.stage.Closed? || y.stage.FirstRemove?)
  {
    hide Fail, Transition;
    BeginFails(s.execs[p]);
    BeginFails(s.execs[p].(bound := Yes));
    BeginFails(s.execs[p].(bound := Of(s.execs[p].bound.Yes? || false)));
  }

  lemma BeginKeeps(s: System, p: Pid, net: Delivery, sandboxOpens: bool)
    requires Inv(s) && p in s.execs && s.execs[p].stage.Beginning?
    ensures KillInv(BeginReplied(s, p, s.execs[p], net, sandboxOpens))
  {
    hide Fail, KillOk, Transition;
    var x := s.execs[p];
    assert KillOk(s.record, p, x);
    NotStarted(s, p);
    BeginStage(s, p, net, sandboxOpens);
    var t := BeginReplied(s, p, x, net, sandboxOpens);
    BeginLocal(s.record, s.lease, p, x, t.execs[p]);
    forall q | q in t.execs ensures KillOk(t.record, q, t.execs[q]) {
      if q != p {
        assert KillOk(s.record, q, s.execs[q]);
        BeginReply(s.record, s.lease, p, q, s.execs[q]);
      }
    }
    BeginBinds(s, p);
  }

  lemma BeginBinds(s: System, p: Pid)
    requires KillInv(s) && p in s.execs
    ensures var next := Ask(s, ProcessBegin, Some(p)).0;
            next.Some? && next.value.processId.Some? ==> next.value.processId.value in s.execs
  {
    hide KillOk, RecordMatchesLease;
  }

  lemma NotStarted(s: System, p: Pid)
    requires GrantIsolation.Inv(s) && p in s.execs && s.execs[p].stage.Beginning?
    ensures var x := s.execs[p]; !x.hasProcess.Yes? && !x.startAttempted.Yes? && !x.hasSandbox.Yes? && !x.clean.Yes?
  {
    assert GrantIsolation.LocalOk(s.execs[p]);
  }

  lemma FinishFollows(s: System, p: Pid)
    requires KillInv(s) && p in s.execs && s.execs[p].stage.FinishingKill?
    ensures Follows(s.execs[p], s.execs[p].(stage := AwaitingExit))
  {
    assert KillOk(s.record, p, s.execs[p]);
  }

  lemma KillFinishKeeps(s: System, p: Pid, net: Delivery)
    requires Inv(s) && p in s.execs && s.execs[p].stage.FinishingKill?
    ensures KillInv(KillFinishReplied(s, p, s.execs[p], net))
  {
    hide Fail, GrantIsolation.Inv, Transition, Follows;
    var x := s.execs[p];
    FinishFollows(s, p);
    CatchFollows(x, x);
    RegistryMove(s, Request(true, KillFinish, Some(s.lease), None, None), net);
    ExecChange(s.(record := Stored(s, KillFinish, None, net)), p, KillFinishReplied(s, p, x, net).execs[p]);
  }

  lemma ClearKeeps(s: System, p: Pid, net: Delivery)
    requires Inv(s) && p in s.execs
    ensures KillInv(ClearReplied(s, p, s.execs[p], net))
  {
    hide GrantIsolation.Inv, Transition;
    RegistryMove(s, Request(true, ProcessClear, Some(s.lease), Some(p), None), net);
    ExecChange(s.(record := Stored(s, ProcessClear, Some(p), net)), p, s.execs[p].(stage := Closed));
  }

  lemma RepliedKeeps(s: System, p: Pid, net: Delivery, sandboxOpens: bool)
    requires Inv(s) && p in s.execs && ExecReplied(s, p, s.execs[p], net, sandboxOpens).Some?
    ensures KillInv(ExecReplied(s, p, s.execs[p], net, sandboxOpens).value)
  {
    hide Inv, KillInv, BeginReplied, MarkReplied, KillFinishReplied, ClearReplied;
    if s.execs[p].stage.Beginning? { BeginKeeps(s, p, net, sandboxOpens); }
    else if s.execs[p].stage.Marking? { MarkKeeps(s, p, net); }
    else if s.execs[p].stage.FinishingKill? { KillFinishKeeps(s, p, net); }
    else { ClearKeeps(s, p, net); }
  }

  lemma WithFlightKeepsHistory(x: Exec, call: Call, f: Flight)
    ensures var y := WithFlight(x, call, f);
            y.stage == x.stage && y.killSeen == x.killSeen && y.signalled == x.signalled
  {
  }

  lemma ProviderStepKeeps(s: System, p: Pid, e: ExecEvent)
    requires Inv(s) && p in s.execs && ExecStep(s, p, e).Some? && !e.Replied?
    ensures KillInv(ExecStep(s, p, e).value)
  {
    hide AfterResolve, AfterThrow, ExecReplied, GrantIsolation.Inv, WithFlight, Follows;
    var x := s.execs[p];
    assert KillOk(s.record, p, x);
    match e {
      case Resolved(wrongId) =>
        ResolveFollows(s.lease, x, p !in s.procs, wrongId);
        ExecChange(s, p, AfterResolve(s.lease, x, p !in s.procs, wrongId).value);
      case Rejected => ThrowFollows(x, false); ExecChange(s, p, AfterThrow(x, false).value);
      case TimedOut => ThrowFollows(x, true); ExecChange(s, p, AfterThrow(x, true).value);
      case Lands(call) =>
        WithFlightKeepsHistory(x, call, Landed);
        SameHistoryFollows(x, WithFlight(x, call, Landed));
        ExecChange(s, p, WithFlight(x, call, Landed));
      case SettlesLate(call) =>
        WithFlightKeepsHistory(x, call, Settled);
        SameHistoryFollows(x, WithFlight(x, call, Settled));
        ExecChange(s, p, WithFlight(x, call, Settled));
    }
  }

  // ---- The other actors ----

  lemma KillStepKeeps(s: System, k: nat, e: CallerEvent)
    requires Inv(s) && k in s.killers && KillStep(s, k, e).Some?
    ensures KillInv(KillStep(s, k, e).value)
  {
    hide GrantIsolation.Inv, Transition, NoteKill, KillOk;
    if e.CallerReplied? {
      var path := if s.killers[k].stage.KillRequesting? then Kill else KillFinish;
      RegistryMove(s, Request(true, path, Some(s.lease), None, None), e.net);
      if path.Kill? { NoteKeeps(s, e.net); }
    }
  }

  /** An accepted kill is remembered by the registry and, while starting, on the execution. */
  lemma NoteKeeps(s: System, net: Delivery)
    requires Inv(s)
    ensures KillInv(s.(record := Stored(s, Kill, None, net), execs := NoteKill(s, net)))
  {
    RegistryMove(s, Request(true, Kill, Some(s.lease), None, None), net);
    var u := s.(record := Stored(s, Kill, None, net));
    var reply := Ask(s, Kill, None).1;
    if NoteKill(s, net) != s.execs {
      var p := reply.processId;
      assert KillOk(s.record, p, s.execs[p]);
      assert KillOk(u.record, p, s.execs[p].(killSeen := Yes));
      forall q | q in NoteKill(s, net) ensures KillOk(u.record, q, NoteKill(s, net)[q]) {
        assert q != p ==> KillOk(u.record, q, u.execs[q]);
      }
    } else {
      assert u.(execs := NoteKill(s, net)) == u;
    }
  }

  lemma DestroyStepKeeps(s: System, d: nat, e: CallerEvent)
    requires Inv(s) && d in s.destroyers && DestroyStep(s, d, e).Some?
    ensures KillInv(DestroyStep(s, d, e).value)
  {
    hide GrantIsolation.Inv, Transition, KillOk;
    var c := s.destroyers[d];
    if e.CallerReplied? {
      var path := if c.stage.DestroyReserving? then DestroyBegin
                  else if c.stage.DestroyAborting? then DestroyAbort else DestroyFinish;
      RegistryMove(s, Request(true, path, Some(s.lease), None, None), e.net);
    }
  }

  lemma ReserveKeeps(s: System, net: Delivery)
    requires KillInv(s) && s.creator.stage.Reserving?
    ensures KillInv(CreateStep(s, CreatorReplied(net)).value)
  {
    hide RecordMatchesLease;
    var t := CreateStep(s, CreatorReplied(net)).value;
    forall p | p in t.execs ensures KillOk(t.record, p, t.execs[p]) {
      assert KillOk(s.record, p, s.execs[p]);
    }
  }

  lemma CreateStepKeeps(s: System, e: CreatorEvent)
    requires Inv(s) && CreateStep(s, e).Some?
    ensures KillInv(CreateStep(s, e).value)
  {
    hide KillOk, GrantIsolation.Inv, Transition, FreshRecord;
    if e.CreatorReplied? {
      if s.creator.stage.Reserving? {
        ReserveKeeps(s, e.net);
      } else {
        var path := if s.creator.stage.MarkingReady? then MarkReady else Remove;
        RegistryMove(s, Request(true, path, Some(s.lease), None, None), e.net);
      }
    }
  }

  lemma NewExecKeeps(s: System, p: Pid, egress: Option<Text>)
    requires Inv(s) && p !in s.execs
    ensures KillInv(s.(execs := s.execs[p := NewExec(egress)]))
  {
    assert KillOk(s.record, p, NewExec(egress));
    var t := s.(execs := s.execs[p := NewExec(egress)]);
    forall q | q in t.execs ensures KillOk(t.record, q, t.execs[q]) {
      assert q != p ==> KillOk(s.record, q, s.execs[q]);
    }
  }

  lemma StepKeeps(s: System, a: Action)
    requires Inv(s) && Step(s, a).Some?
    ensures Inv(Step(s, a).value)
  {
    GrantIsolation.StepKeeps(s, a);
    hide GrantIsolation.Inv, ExecStep, KillStep, DestroyStep, CreateStep, KillOk;
    match a {
      case Execute(p, egress) => NewExecKeeps(s, p, egress);
      case ExecMoves(p, e) =>
        if e.Replied? { GrantIsolation.ReplyStep(s, p, e); RepliedKeeps(s, p, e.net, e.sandboxOpens); }
        else { ProviderStepKeeps(s, p, e); }
      case KillMoves(k, e) => KillStepKeeps(s, k, e);
      case DestroyMoves(d, e) => DestroyStepKeeps(s, d, e);
      case CreateMoves(e) => CreateStepKeeps(s, e);
      case _ =>
    }
  }

  lemma {:induction false} RunKeeps(s: System, actions: seq<Action>)
    requires Inv(s) && Run(s, actions).Some?
    ensures Inv(Run(s, actions).value)
    decreases |actions|
  {
    hide Inv, Step;
    if actions != [] {
      StepKeeps(s, actions[0]);
      RunKeeps(Step(s, actions[0]).value, actions[1..]);
    }
  }

  lemma Starts(lease: Lease, provider: Text, session: Text)
    ensures Inv(Initial(lease, provider, session))
  {
    var init := Initial(lease, provider, session);
    forall p ensures !GrantIsolation.Dirty(init, p) {}
  }

  /** No lost kill, in every run: once a kill was accepted while `p` was starting, the registry keeps
      saying so, and whenever the runner waits for the exit a SIGTERM has already been issued. */
  lemma NoLostKill(lease: Lease, provider: Text, session: Text, actions: seq<Action>, p: Pid)
    requires Run(Initial(lease, provider, session), actions).Some?
    ensures var s := Run(Initial(lease, provider, session), actions).value;
            p in s.execs && s.execs[p].killSeen.Yes? ==>
              && s.record.Some? && s.record.value.killRequested
              && (s.execs[p].stage.AwaitingExit? || s.execs[p].stage.CatchWait? ==> s.execs[p].signalled.Yes?)
  {
    Starts(lease, provider, session);
    RunKeeps(Initial(lease, provider, session), actions);
    hide Run;
  }

  /** At the moment the runner marks `p` running, a kill accepted before is either read or the
      request is refused; both lead to SIGTERM next, never straight to waiting. */
  lemma KillIsReadOrRefused(lease: Lease, provider: Text, session: Text, actions: seq<Action>,
                            p: Pid, net: Delivery, sandboxOpens: bool)
    requires Run(Initial(lease, provider, session), actions).Some?
    ensures var s := Run(Initial(lease, provider, session), actions).value;
            p in s.execs && s.execs[p].killSeen.Yes? && s.execs[p].stage.Marking? ==>
              var next := Step(s, ExecMoves(p, Replied(net, sandboxOpens)));
              && next.Some?
              && next.value.execs[p].signalled.Yes?
              && (next.value.execs[p].stage.Signalling? || next.value.execs[p].stage.CatchSignal?)
  {
    Starts(lease, provider, session);
    RunKeeps(Initial(lease, provider, session), actions);
    var s := Run(Initial(lease, provider, session), actions).value;
    hide Run, Transition, MarkReplied, BeginReplied, KillFinishReplied, ClearReplied;
    if p in s.execs && s.execs[p].killSeen.Yes? && s.execs[p].stage.Marking? {
      MarkKeeps(s, p, net);
    }
  }

  /** Every kill the registry accepts while the bound process is starting is noted on that process's execution. */
  lemma AcceptedKillIsNoted(lease: Lease, provider: Text, session: Text, actions: seq<Action>, k: nat, net: Delivery)
    requires Run(Initial(lease, provider, session), actions).Some? && net != NotSent
    ensures var s := Run(Initial(lease, provider, session), actions).value;
            k in s.killers && s.killers[k].stage.KillRequesting? && Ask(s, Kill, None).1.KillReserved?
            && IsStarting(s.record.value) ==>
              var p := Ask(s, Kill, None).1.processId;
              p in s.execs && Step(s, KillMoves(k, CallerReplied(net))).value.execs[p].killSeen.Yes?
  {
    Starts(lease, provider, session);
    RunKeeps(Initial(lease, provider, session), actions);
    hide Run, Transition;
  }
}
