/** What an execution has done before it may go on, in every interleaving: whose rule it sets, and what its
    process can rely on when it starts. */
module ExecutionOrder {
  import opened Options
  import opened Strings
  import opened LeaseRegistry
  import opened Outcomes
  import opened SandboxProtocol
  import GrantIsolation

  /** Old rules were removed, and its own rule, if it asked for one, is its lease's and was confirmed. */
  predicate Prepared(lease: Lease, x: Exec) {
    && x.firstRemove.Settled?
    && (x.egress.Some? ==> RunFits(lease, x.egress.value) && x.setRule.Settled? && x.confirmed.Yes?)
  }

  predicate OrderOk(lease: Lease, x: Exec) {
    && (x.attempted.Yes? || !x.setRule.Idle? || x.stage.SettingRule? ==>
          x.egress.Some? && RunFits(lease, x.egress.value))
    && (x.stage.Beginning? ==> x.start.Idle? && x.startAttempted.No?)
    && (x.stage.SettingRule? ==> x.firstRemove.Settled?)
    && (x.startAttempted.Yes? || !x.start.Idle? || x.stage.GettingSession? || x.stage.StartingProcess? ==>
          Prepared(lease, x))
  }

  ghost predicate Ordered(s: System) { forall p :: p in s.execs ==> OrderOk(s.lease, s.execs[p]) }

  lemma FinallyInOrder(lease: Lease, x: Exec)
    requires OrderOk(lease, x.(stage := Closed))
    ensures OrderOk(lease, Finally(x)) && OrderOk(lease, AfterFinalRemove(x)) && OrderOk(lease, Fail(x))
  {
  }

  lemma ResolveInOrder(lease: Lease, x: Exec, gone: bool, wrongId: bool)
    requires OrderOk(lease, x) && AfterResolve(lease, x, gone, wrongId).Some?
    ensures OrderOk(lease, AfterResolve(lease, x, gone, wrongId).value)
  {
    hide Fail, Finally, AfterFinalRemove, RunFits;
    var start := x.(start := Settled, hasProcess := Yes);
    if x.stage.FirstRemove? { FinallyInOrder(lease, x.(firstRemove := Settled, clean := Yes)); }
    else if x.stage.StartingProcess? { FinallyInOrder(lease, start); }
    else if x.stage.CatchKillById? { FinallyInOrder(lease, x.(killById := Settled, terminalConfirmed := Yes)); }
    else if x.stage.FinalRemove? {
      FinallyInOrder(lease, x.(finalRemove := Settled,
                               clean := Of(x.clean.Yes? || !x.attempted.Yes? || x.confirmed.Yes?)));
    }
    else { FinallyInOrder(lease, x.(terminalConfirmed := Yes)); }
  }

  lemma ThrowInOrder(lease: Lease, x: Exec, timedOut: bool)
    requires OrderOk(lease, x) && AfterThrow(x, timedOut).Some?
    ensures OrderOk(lease, AfterThrow(x, timedOut).value)
  {
    hide Fail, Finally, AfterFinalRemove, RunFits;
    FinallyInOrder(lease, Thrown(x, timedOut));
  }

  /** Only execution `p` moved, and it is still in order. */
  ghost predicate MovedInOrder(s: System, p: Pid, t: System) {
    p in t.execs && OrderOk(s.lease, t.execs[p]) && t.execs == s.execs[p := t.execs[p]] && t.lease == s.lease
  }

  lemma BeginInOrder(s: System, p: Pid, x: Exec, net: Delivery, sandboxOpens: bool)
    requires OrderOk(s.lease, x) && x.stage.Beginning?
    ensures MovedInOrder(s, p, BeginReplied(s, p, x, net, sandboxOpens))
  {
    hide Fail, RunFits, Transition;
    FinallyInOrder(s.lease, x);
    FinallyInOrder(s.lease, x.(bound := Yes));
    assert x.(bound := Of(x.bound.Yes?)) == x;
  }

  lemma MarkInOrder(s: System, p: Pid, x: Exec, net: Delivery)
    requires OrderOk(s.lease, x)
    ensures MovedInOrder(s, p, MarkReplied(s, p, x, net))
  {
    hide Fail, RunFits, Transition;
    FinallyInOrder(s.lease, x);
  }

  lemma FinishInOrder(s: System, p: Pid, x: Exec, net: Delivery)
    requires OrderOk(s.lease, x)
    ensures MovedInOrder(s, p, KillFinishReplied(s, p, x, net))
    ensures MovedInOrder(s, p, ClearReplied(s, p, x, net))
  {
    hide Fail, RunFits, Transition;
    FinallyInOrder(s.lease, x);
  }

  lemma RepliesInOrder(s: System, p: Pid, net: Delivery, sandboxOpens: bool)
    requires p in s.execs && OrderOk(s.lease, s.execs[p])
    requires ExecReplied(s, p, s.execs[p], net, sandboxOpens).Some?
    ensures MovedInOrder(s, p, ExecReplied(s, p, s.execs[p], net, sandboxOpens).value)
  {
    hide MovedInOrder, BeginReplied, MarkReplied, KillFinishReplied, ClearReplied;
    var x := s.execs[p];
    if x.stage.Beginning? { BeginInOrder(s, p, x, net, sandboxOpens); }
    MarkInOrder(s, p, x, net);
    FinishInOrder(s, p, x, net);
  }

  lemma FlightInOrder(lease: Lease, x: Exec, call: Call, f: Flight)
    requires OrderOk(lease, x)
    requires if f.Landed? then FlightOf(x, call).Issued? else f.Settled? && Flying(FlightOf(x, call))
    ensures OrderOk(lease, WithFlight(x, call, f))
  {
    hide RunFits;
  }

  lemma ExecStepInOrder(s: System, p: Pid, e: ExecEvent)
    requires Ordered(s) && p in s.execs && ExecStep(s, p, e).Some?
    ensures Ordered(ExecStep(s, p, e).value)
  {
    hide OrderOk, AfterResolve, AfterThrow, ExecReplied, WithFlight;
    var x := s.execs[p];
    match e {
      case Replied(net, sandboxOpens) => RepliesInOrder(s, p, net, sandboxOpens);
      case Resolved(wrongId) => ResolveInOrder(s.lease, x, p !in s.procs, wrongId);
      case Rejected => ThrowInOrder(s.lease, x, false);
      case TimedOut => ThrowInOrder(s.lease, x, true);
      case Lands(call) => FlightInOrder(s.lease, x, call, Landed);
      case SettlesLate(call) => FlightInOrder(s.lease, x, call, Settled);
    }
  }

  lemma KillsInOrder(s: System, net: Delivery)
    requires Ordered(s)
    ensures forall p :: p in NoteKill(s, net) ==> OrderOk(s.lease, NoteKill(s, net)[p])
  {
    hide Transition, RunFits;
  }

  lemma KillInOrder(s: System, k: nat, e: CallerEvent)
    requires Ordered(s) && k in s.killers && KillStep(s, k, e).Some?
    ensures Ordered(KillStep(s, k, e).value)
  {
    hide Transition, NoteKill, KillCall, OrderOk;
    if e.CallerReplied? { KillsInOrder(s, e.net); }
  }

  lemma StepInOrder(s: System, a: Action)
    requires Ordered(s) && Step(s, a).Some?
    ensures Ordered(Step(s, a).value)
  {
    hide ExecStep, KillStep, Transition, RunFits, DestroyCall, CreatorCall;
    match a {
      case Execute(p, egress) =>
      case ExecMoves(p, e) => ExecStepInOrder(s, p, e);
      case KillMoves(k, e) => KillInOrder(s, k, e);
      case _ => hide OrderOk;
    }
  }

  lemma {:induction false} RunInOrder(s: System, actions: seq<Action>)
    requires Ordered(s) && Run(s, actions).Some?
    ensures Ordered(Run(s, actions).value)
    decreases |actions|
  {
    hide Ordered, Step;
    if actions != [] {
      StepInOrder(s, actions[0]);
      RunInOrder(Step(s, actions[0]).value, actions[1..]);
    }
  }

  /** Whatever happens on a lease: a rule in effect, or asked for, is that of an execution whose egress is the run
      that owns the lease. A process is live, or asked for, only after its execution had the old rules removed and
      its own rule confirmed, and a process that may not reach the network has no rule beside it. */
  lemma OwnRunOnly(lease: Lease, provider: Text, session: Text, actions: seq<Action>, p: Pid)
    requires Run(Initial(lease, provider, session), actions).Some?
    ensures var s := Run(Initial(lease, provider, session), actions).value;
            && (s.rule == Some(p) || (p in s.execs && !s.execs[p].setRule.Idle?) ==>
                  p in s.execs && s.execs[p].egress.Some? && RunFits(lease, s.execs[p].egress.value))
            && (p in s.procs || (p in s.execs && !s.execs[p].start.Idle?) ==>
                  p in s.execs && Prepared(lease, s.execs[p]))
            && (GrantIsolation.StartedOrRunning(s, p) && s.execs[p].egress.None? ==> s.rule == None)
  {
    var init := Initial(lease, provider, session);
    var s := Run(init, actions).value;
    GrantIsolation.Reachable(lease, provider, session, actions);
    RunInOrder(init, actions);
    LeaseStays(init, actions);
    if GrantIsolation.StartedOrRunning(s, p) && s.rule.Some? {
      GrantIsolation.GrantIsolated(lease, provider, session, actions, s.rule.value, p);
    }
    Traces(s, p);
    if s.rule.Some? { Traces(s, s.rule.value); }
    hide Run, GrantIsolation.Inv, Prepared, RunFits;
  }

  /** Whoever left a trace at the provider attempted it. */
  lemma Traces(s: System, p: Pid)
    requires GrantIsolation.Inv(s)
    ensures s.rule == Some(p) ==> p in s.execs && s.execs[p].attempted.Yes?
    ensures p in s.procs ==> p in s.execs && s.execs[p].startAttempted.Yes?
  {
    hide GrantIsolation.LocalOk, GrantIsolation.RecordOk;
    assert s.rule == Some(p) || p in s.procs ==> GrantIsolation.Dirty(s, p);
  }

  lemma {:induction false} LeaseStays(s: System, actions: seq<Action>)
    requires Run(s, actions).Some?
    ensures Run(s, actions).value.lease == s.lease
    decreases |actions|
  {
    if actions != [] {
      OneLease(s, actions[0]);
      hide Step;
      LeaseStays(Step(s, actions[0]).value, actions[1..]);
    }
  }

  lemma OneLease(s: System, a: Action)
    requires Step(s, a).Some?
    ensures Step(s, a).value.lease == s.lease
  {
    hide Transition, AfterResolve, AfterThrow, KillCall, DestroyCall, CreatorCall, Fail, NoteKill;
  }

  /** A process that came up under another id is never marked running: it is sent SIGTERM. */
  lemma WrongIdStops(lease: Lease, x: Exec, gone: bool)
    requires x.stage.StartingProcess? && x.start.Landed?
    ensures AfterResolve(lease, x, gone, true).Some?
    ensures var y := AfterResolve(lease, x, gone, true).value; y.stage.CatchSignal? && y.signalled.Yes?
  {
  }

  // ---- What may happen next, and where failures lead ----

  predicate AwaitsRegistry(stage: Stage) {
    stage.Beginning? || stage.Marking? || stage.FinishingKill? || stage.Clearing?
  }

  /** The awaited provider promise may resolve: a tracked call only after it landed, an exit only of a process that
      is gone. */
  predicate MayResolve(x: Exec, gone: bool) {
    match x.stage
    case FirstRemove => x.firstRemove.Landed?
    case SettingRule => x.setRule.Landed?
    case StartingProcess => x.start.Landed?
    case CatchKillById => x.killById.Landed?
    case FinalRemove => x.finalRemove.Landed?
    case AwaitingExit => gone
    case CatchWait => gone
    case _ => x.stage.GettingSession? || x.stage.Signalling? || x.stage.CatchSignal?
  }

  /** What can happen to an execution, exactly. Only getSession is awaited without a time limit. */
  lemma StepsOfExecution(s: System, p: Pid, e: ExecEvent)
    requires p in s.execs
    ensures var x := s.execs[p];
            ExecStep(s, p, e).Some? <==>
              match e
              case Replied(_, _) => AwaitsRegistry(x.stage)
              case Resolved(_) => MayResolve(x, p !in s.procs)
              case Rejected => !AwaitsRegistry(x.stage) && !x.stage.Closed?
              case TimedOut => !AwaitsRegistry(x.stage) && !x.stage.Closed? && !x.stage.GettingSession?
              case Lands(call) => FlightOf(x, call).Issued?
              case SettlesLate(call) => Flying(FlightOf(x, call)) && Awaited(x.stage) != Some(call)
  {
    hide BeginReplied, MarkReplied, KillFinishReplied, ClearReplied, Fail, Finally;
  }

  /** What the registry's answer to a begin leads to, by the record it meets; a lost reply is an exception. */
  lemma BeginLeads(s: System, p: Pid, net: Delivery, sandboxOpens: bool)
    requires GrantIsolation.Inv(s) && p in s.execs && s.execs[p].stage.Beginning? && s.record.Some?
    ensures var y, r := BeginReplied(s, p, s.execs[p], net, sandboxOpens).execs[p], s.record.value;
            && (y.bound.Yes? <==> net == Delivered && r.status.Ready? && r.processId.None?)
            && (y.stage.FirstRemove? <==> y.bound.Yes? && sandboxOpens)
            && (y.stage.FirstRemove? ==> y.firstRemove.Issued? && y.hasSandbox.Yes?)
            && (!y.stage.FirstRemove? ==> y.stage.Closed?)
            && BeginReplied(s, p, s.execs[p], net, sandboxOpens).record
               == (if net != NotSent && r.status.Ready? && r.processId.None?
                   then Some(r.(processId := Some(p), processState := Some(Starting))) else s.record)
  {
    assert GrantIsolation.LocalOk(s.execs[p]);
    hide GrantIsolation.Owned, GrantIsolation.ProviderOk, RecordMatchesLease;
  }

  /** The same for marking the process running. */
  lemma MarkLeads(s: System, p: Pid, net: Delivery)
    requires GrantIsolation.Inv(s) && p in s.execs && s.execs[p].hasProcess.Yes? && s.record.Some?
    ensures var t, r := MarkReplied(s, p, s.execs[p], net), s.record.value;
            var stage, mayMark := t.execs[p].stage, r.status.Ready? && r.processId == Some(p)
                                                    && r.processState == Some(Starting);
            && (stage.AwaitingExit? <==> net == Delivered && mayMark && !r.killRequested)
            && (stage.Signalling? <==> net == Delivered && mayMark && r.killRequested)
            && (stage.AwaitingExit? || stage.Signalling? || stage.CatchSignal?)
            && t.record == (if net != NotSent && mayMark then Some(r.(processState := Some(Running))) else s.record)
  {
    hide GrantIsolation.Owned, GrantIsolation.ExecsOk, RecordMatchesLease, Finally;
  }

  /** For finishing a kill. */
  lemma FinishLeads(s: System, p: Pid, net: Delivery)
    requires GrantIsolation.Inv(s) && p in s.execs && s.execs[p].hasProcess.Yes? && s.record.Some?
    ensures var t, r := KillFinishReplied(s, p, s.execs[p], net), s.record.value;
            var mayFinish := r.status.Ready? && r.killRequested;
            && t.execs[p].stage == (if net == Delivered && mayFinish then AwaitingExit else CatchSignal)
            && t.record == (if net != NotSent && mayFinish then Some(Unbound(r).(status := Killed)) else s.record)
  {
    hide GrantIsolation.Owned, GrantIsolation.ExecsOk, RecordMatchesLease, Finally;
  }

  /** For giving up the binding. */
  lemma ClearLeads(s: System, p: Pid, net: Delivery)
    requires GrantIsolation.Inv(s) && p in s.execs && s.record.Some?
    ensures var t := ClearReplied(s, p, s.execs[p], net);
            && t.execs[p].stage.Closed?
            && (if net != NotSent && s.record.value.processId == Some(p)
                then t.record.Some? && t.record.value.processId.None?
                else t.record == s.record)
  {
    hide GrantIsolation.Owned, GrantIsolation.ExecsOk, RecordMatchesLease;
  }

  /** An exception before the process came up or while it ran: SIGTERM to the process if there is one, by its id if
      it may have been started, and otherwise there is nothing to end. Only a start that timed out stays uncertain. */
  lemma FailureLeads(x: Exec, timedOut: bool)
    requires GrantIsolation.LocalOk(x) && AfterThrow(x, timedOut).Some?
    requires GrantIsolation.MayAct(x.stage) || x.stage.Signalling? || x.stage.AwaitingExit?
    ensures var y := AfterThrow(x, timedOut).value;
            && (x.hasProcess.Yes? ==> y.stage.CatchSignal? && y.signalled.Yes?)
            && (x.hasProcess.No? && x.startAttempted.Yes? ==>
                  y.stage.CatchKillById? && y.killById.Issued? && y.signalled.Yes?)
            && (x.hasProcess.No? && x.startAttempted.No? ==>
                  && y.terminalConfirmed.Yes?
                  && (x.attempted.Yes? || x.clean.No? ==> y.stage.FinalRemove? && y.finalRemove.Issued?))
            && (y.startUncertain.Yes? <==> x.startUncertain.Yes? || (x.stage.StartingProcess? && timedOut))
            && y.attempted == x.attempted && y.confirmed == x.confirmed && y.bound == x.bound
  {
  }

  /** A rejection settles the awaited call and no other; a timeout settles none, so that it may still land. */
  lemma ThrowSettles(x: Exec, timedOut: bool, call: Call)
    ensures FlightOf(Thrown(x, timedOut), call)
            == if Awaited(x.stage) == Some(call) && !timedOut then Settled else FlightOf(x, call)
    ensures Thrown(x, timedOut).clean.Yes? <==> x.clean.Yes? && !x.stage.FinalRemove?
  {
  }

  /** The catch block confirms the end of the process only by an exit it waited for or a kill that was answered. */
  lemma CatchConfirms(lease: Lease, x: Exec, gone: bool, timedOut: bool)
    requires x.stage.CatchSignal? || x.stage.CatchWait? || x.stage.CatchKillById?
    ensures AfterThrow(x, timedOut).Some?
            && AfterThrow(x, timedOut).value.terminalConfirmed == x.terminalConfirmed
            && !AfterThrow(x, timedOut).value.stage.CatchWait?
    ensures var next := AfterResolve(lease, x, gone, false);
            next.Some? ==>
              if x.stage.CatchSignal? then next.value == x.(stage := CatchWait)
              else next.value.terminalConfirmed.Yes? && (next.value.stage.FinalRemove? || next.value.stage.Clearing?
                                                         || next.value.stage.Closed?)
  {
  }

  /** The finally block removes the rule again unless none was attempted and the sandbox is clean. The binding is
      given up exactly when the process has ended, nothing is left of the rule, and the start is not uncertain. */
  lemma FinallyReleases(lease: Lease, x: Exec, gone: bool, timedOut: bool)
    requires x.stage.FinalRemove?
    ensures var after := AfterThrow(x, timedOut);
            && after.Some? && after.value.clean.No? && after.value.stage.Closed?
    ensures var after := AfterResolve(lease, x, gone, false);
            after.Some? ==>
              && (after.value.clean.Yes? <==> x.clean.Yes? || x.attempted.No? || x.confirmed.Yes?)
              && (after.value.stage.Clearing? <==>
                    x.bound.Yes? && x.terminalConfirmed.Yes? && after.value.clean.Yes? && x.startUncertain.No?)
              && (after.value.stage.Clearing? || after.value.stage.Closed?)
  {
  }

  /** After an exit or a confirmed end: the closing removal is made exactly if there is something to remove. */
  lemma ExitLeads(lease: Lease, x: Exec)
    requires x.stage.AwaitingExit?
    ensures var y := AfterResolve(lease, x, true, false).value;
            && AfterResolve(lease, x, true, false).Some? && y.terminalConfirmed.Yes?
            && (y.stage.FinalRemove? <==> x.hasSandbox.Yes? && (x.attempted.Yes? || x.clean.No?))
            && (y.stage.FinalRemove? ==> y.finalRemove.Issued?)
            && (y.stage.Clearing? <==>
                  !y.stage.FinalRemove? && x.bound.Yes? && x.clean.Yes? && x.startUncertain.No?)
  {
  }
}
