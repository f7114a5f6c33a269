/** A Tool Gateway rule never serves another execution's process, in every interleaving. */
module GrantIsolation {
  import opened Options
  import opened Strings
  import opened LeaseRegistry
  import opened Outcomes
  import opened SandboxProtocol

  /** Stages from which an execution may still set the rule or start its process. */
  predicate MayAct(stage: Stage) {
    stage.FirstRemove? || stage.SettingRule? || stage.GettingSession? || stage.StartingProcess?
  }

  predicate RuleIs(rule: Option<Pid>, p: Pid) { rule.Some? && rule.value == p }

  predicate Active(x: Exec) {
    Flying(x.setRule) || Flying(x.start) || MayAct(x.stage)
  }

  /** Execution `p` has left, or may still leave, a trace at the provider. */
  predicate Dirty(s: System, p: Pid) {
    RuleIs(s.rule, p) || p in s.procs || (p in s.execs && Active(s.execs[p]))
  }

  /** `p` holds the lease: it is the bound process, or no process can ever begin again. */
  predicate Holds(record: Option<LeaseRecord>, p: Pid) {
    record.Some? && (record.value.processId == Some(p) || Rank(record.value) >= 2)
  }

  predicate Running(stage: Stage) {
    stage.Marking? || stage.Signalling? || stage.FinishingKill? || stage.AwaitingExit?
  }

  predicate HasProcess(stage: Stage) {
    Running(stage) || stage.CatchSignal? || stage.CatchWait?
  }

  /** The flags of `runProcess` fit the calls it has issued. */
  predicate FlagsOk(x: Exec) {
    && (x.attempted.Yes? <==> !x.setRule.Idle?)
    && (x.confirmed.Yes? ==> x.setRule.Settled?)
    && (x.startAttempted.Yes? <==> !x.start.Idle?)
    && (x.startUncertain.Yes? ==> x.startAttempted.Yes?)
    && (x.hasProcess.Yes? ==> x.start.Settled? && !x.startUncertain.Yes? && x.bound.Yes?)
    && (x.clean.Yes? ==> !Flying(x.setRule))
    && (!x.bound.Yes? ==> x.setRule.Idle? && x.start.Idle? && !x.hasSandbox.Yes?)
  }

  /** The flags of `runProcess` fit its stage. */
  predicate StageOk(x: Exec) {
    && (Flying(x.start) ==> x.stage.StartingProcess? || x.startUncertain.Yes?)
    && (x.terminalConfirmed.Yes? ==> !MayAct(x.stage) && !Running(x.stage) && !x.stage.Beginning?)
    && (!x.bound.Yes? ==> x.stage.Beginning? || x.stage.Closed?)
    && (x.stage.Beginning? ==> !x.bound.Yes? && !x.clean.Yes?)
    && (x.stage.FirstRemove? ==> !x.attempted.Yes? && !x.clean.Yes?)
    && (x.stage.SettingRule? ==> Flying(x.setRule) && !x.confirmed.Yes? && !x.clean.Yes?)
    && (MayAct(x.stage) ==> x.hasSandbox.Yes? && !x.hasProcess.Yes? && !x.startUncertain.Yes?)
    && (MayAct(x.stage) && !x.stage.StartingProcess? ==> !x.startAttempted.Yes?)
    && (x.stage.StartingProcess? ==> Flying(x.start))
    && (HasProcess(x.stage) ==> x.hasProcess.Yes?)
    && (x.stage.CatchKillById? ==> x.startAttempted.Yes? && !x.hasProcess.Yes?)
    && (x.stage.Clearing? ==> x.terminalConfirmed.Yes? && x.clean.Yes? && !x.startUncertain.Yes?)
  }

  predicate LocalOk(x: Exec) { FlagsOk(x) && StageOk(x) }

  /** What the flags promise about the provider. */
  predicate ProviderOk(rule: Option<Pid>, procs: set<Pid>, p: Pid, x: Exec) {
    && (RuleIs(rule, p) ==> x.attempted.Yes? && !x.clean.Yes?)
    && (p in procs ==> x.startAttempted.Yes? && (!x.terminalConfirmed.Yes? || x.startUncertain.Yes?))
    && (x.stage.FinalRemove? && x.confirmed.Yes? && x.finalRemove.Landed? ==> !RuleIs(rule, p))
    && (x.stage.CatchKillById? && x.killById.Landed? && !x.startUncertain.Yes? ==> p !in procs)
  }

  ghost predicate RecordOk(s: System) {
    s.record.Some? ==> Consistent(s.record.value) && RecordMatchesLease(s.record.value, s.lease)
  }

  ghost predicate ExecsOk(s: System) {
    && (forall p :: p in s.execs ==> LocalOk(s.execs[p]))
    && (forall p :: p in s.execs ==> ProviderOk(s.rule, s.procs, p, s.execs[p]))
    && (forall p :: p in s.execs && s.execs[p].bound.Yes? ==> s.record.Some? && Rank(s.record.value) >= 1)
  }

  ghost predicate Owned(s: System) {
    && (forall p :: Dirty(s, p) ==> p in s.execs && Holds(s.record, p))
    && (forall p, q :: Dirty(s, p) && Dirty(s, q) ==> p == q)
  }

  ghost predicate Inv(s: System) {
    RecordOk(s) && ExecsOk(s) && Owned(s)
  }

  // ---- Frames ----

  /** Only execution `p` moved, and it did not become dirty. */
  lemma LocalMove(s: System, p: Pid, y: Exec)
    requires Inv(s) && p in s.execs
    requires LocalOk(y) && ProviderOk(s.rule, s.procs, p, y)
    requires y.bound.Yes? ==> s.execs[p].bound.Yes?
    requires Active(y) ==> Dirty(s, p)
    ensures Inv(s.(execs := s.execs[p := y]))
  {
    hide FlagsOk, StageOk, ProviderOk, Rank, Holds, Consistent, RecordMatchesLease;
    var t := s.(execs := s.execs[p := y]);
    forall q | Dirty(t, q) ensures Dirty(s, q) {
    }
  }

  /** The registry moved by a request that does not bind or clear. */
  lemma RequestKeepsHolder(r: LeaseRecord, request: Request, p: Pid)
    requires Consistent(r) && Holds(Some(r), p)
    requires request.path != ProcessClear
    ensures Holds(Transition(Some(r), request).0, p)
  {
  }

  lemma RegistryMove(s: System, request: Request, net: Delivery)
    requires Inv(s) && request.path != ProcessClear && request.path != Reserve
    ensures Inv(s.(record := if net == NotSent then s.record else Transition(s.record, request).0))
  {
    if s.record.Some? && net != NotSent {
      var r := s.record.value;
      var t := s.(record := Transition(s.record, request).0);
      StepAdvances(r, request);
      forall p | Dirty(t, p) ensures Holds(t.record, p) && p in t.execs {
        assert Dirty(s, p);
        RequestKeepsHolder(r, request, p);
      }
      forall p, q | Dirty(t, p) && Dirty(t, q) ensures p == q {
        assert Dirty(s, p) && Dirty(s, q);
      }
    }
  }

  /** The provider lost processes or the rule. */
  lemma ProviderLoses(s: System, rule: Option<Pid>, procs: set<Pid>, alive: bool)
    requires Inv(s) && procs <= s.procs && (rule == s.rule || rule == None)
    ensures Inv(s.(rule := rule, procs := procs, alive := alive))
  {
    var t := s.(rule := rule, procs := procs, alive := alive);
    forall p | Dirty(t, p) ensures Dirty(s, p) {
    }
  }

  // ---- Executions ----

  predicate BothOk(rule: Option<Pid>, procs: set<Pid>, p: Pid, x: Exec) {
    LocalOk(x) && ProviderOk(rule, procs, p, x)
  }

  /** `y` is as honest as `x` was, and pending only where `x` was. */
  predicate Follows(rule: Option<Pid>, procs: set<Pid>, p: Pid, x: Exec, y: Exec) {
    BothOk(rule, procs, p, y) && y.bound == x.bound && (Active(y) ==> Active(x))
  }

  /** The catch and finally blocks keep the flags honest and never act again. */
  lemma FailOk(rule: Option<Pid>, procs: set<Pid>, p: Pid, x: Exec)
    requires BothOk(rule, procs, p, x.(stage := Closed))
    requires !x.startAttempted.Yes? || !x.terminalConfirmed.Yes?
    requires x.bound.Yes? || !x.hasProcess.Yes?
    ensures Follows(rule, procs, p, x, Fail(x))
  {
  }

  lemma FinallyOk(rule: Option<Pid>, procs: set<Pid>, p: Pid, x: Exec)
    requires BothOk(rule, procs, p, x.(stage := Closed))
    ensures Follows(rule, procs, p, x, Finally(x))
  {
  }

  lemma CloseOk(rule: Option<Pid>, procs: set<Pid>, p: Pid, x: Exec)
    requires BothOk(rule, procs, p, x.(stage := Closed))
    ensures Follows(rule, procs, p, x, AfterFinalRemove(x))
  {
  }

  lemma ResolveFollows(lease: Lease, rule: Option<Pid>, procs: set<Pid>, p: Pid, x: Exec, wrongId: bool)
    requires BothOk(rule, procs, p, x)
    requires AfterResolve(lease, x, p !in procs, wrongId).Some?
    ensures Follows(rule, procs, p, x, AfterResolve(lease, x, p !in procs, wrongId).value)
  {
    hide Fail, Finally, AfterFinalRemove;
    if x.stage.FirstRemove? {
      if x.egress.Some? && !RunFits(lease, x.egress.value) {
        FailOk(rule, procs, p, x.(firstRemove := Settled, clean := Yes));
      }
    } else if x.stage.StartingProcess? {
      if wrongId { FailOk(rule, procs, p, x.(start := Settled, hasProcess := Yes)); }
    } else if x.stage.AwaitingExit? || x.stage.CatchWait? {
      FinallyOk(rule, procs, p, x.(terminalConfirmed := Yes));
    } else if x.stage.CatchKillById? {
      FinallyOk(rule, procs, p, x.(killById := Settled, terminalConfirmed := Yes));
    } else if x.stage.FinalRemove? {
      CloseOk(rule, procs, p,
              x.(finalRemove := Settled, clean := Of(x.clean.Yes? || !x.attempted.Yes? || x.confirmed.Yes?)));
    }
  }

  lemma ThrowFollows(rule: Option<Pid>, procs: set<Pid>, p: Pid, x: Exec, timedOut: bool)
    requires BothOk(rule, procs, p, x)
    requires AfterThrow(x, timedOut).Some?
    ensures Follows(rule, procs, p, x, AfterThrow(x, timedOut).value)
  {
    hide Fail, Finally, AfterFinalRemove;
    var z := Thrown(x, timedOut);
    if x.stage.CatchSignal? || x.stage.CatchWait? || x.stage.CatchKillById? { FinallyOk(rule, procs, p, z); }
    else if x.stage.FinalRemove? { CloseOk(rule, procs, p, z); }
    else { FailOk(rule, procs, p, z); }
  }

  lemma ExecChange(s: System, p: Pid, y: Exec)
    requires Inv(s) && p in s.execs
    requires Follows(s.rule, s.procs, p, s.execs[p], y)
    ensures Inv(s.(execs := s.execs[p := y]))
  {
    hide FlagsOk, StageOk, ProviderOk, Rank, Holds, Consistent, RecordMatchesLease;
    assert Active(s.execs[p]) ==> Dirty(s, p);
    LocalMove(s, p, y);
  }

  /** Flags that no invariant reads may change. */
  lemma LateSettleKeeps(s: System, p: Pid, call: Call)
    requires Inv(s) && p in s.execs
    requires Flying(FlightOf(s.execs[p], call)) && Awaited(s.execs[p].stage) != Some(call)
    ensures Inv(s.(execs := s.execs[p := WithFlight(s.execs[p], call, Settled)]))
  {
    var x := s.execs[p];
    assert BothOk(s.rule, s.procs, p, x);
    SettleOk(s.rule, s.procs, p, x, call);
    ExecChange(s, p, WithFlight(x, call, Settled));
  }

  lemma SettleOk(rule: Option<Pid>, procs: set<Pid>, p: Pid, x: Exec, call: Call)
    requires BothOk(rule, procs, p, x)
    requires Flying(FlightOf(x, call)) && Awaited(x.stage) != Some(call)
    ensures Follows(rule, procs, p, x, WithFlight(x, call, Settled))
  {
  }

  lemma LandOk(rule: Option<Pid>, procs: set<Pid>, p: Pid, x: Exec, call: Call)
    requires BothOk(rule, procs, p, x) && FlightOf(x, call).Issued?
    ensures var y := WithFlight(x, call, Landed);
            && LocalOk(y) && y.bound == x.bound && Active(y) == Active(x)
            && ProviderOk(RuleAfter(rule, p, call), ProcsAfter(procs, p, call), p, y)
  {
  }

  /** A landing of `p`'s call leaves every other execution's promises standing. */
  lemma OthersOk(rule: Option<Pid>, procs: set<Pid>, p: Pid, q: Pid, z: Exec, call: Call)
    requires ProviderOk(rule, procs, q, z) && p != q
    ensures ProviderOk(RuleAfter(rule, p, call), ProcsAfter(procs, p, call), q, z)
  {
  }

  /** A landing makes only `p` dirty, and only when it was. */
  lemma LandsOwned(s: System, p: Pid, call: Call)
    requires Inv(s) && p in s.execs && ExecLands(s, p, s.execs[p], call).Some?
    ensures Owned(ExecLands(s, p, s.execs[p], call).value)
  {
    var x := s.execs[p];
    var t := ExecLands(s, p, x, call).value;
    assert Active(t.execs[p]) == Active(x);
    assert call.CallSetRule? || call.CallStart? ==> Active(x);
    hide RecordOk, ExecsOk, Holds, Active, FlightOf, WithFlight;
    forall q | Dirty(t, q) ensures Dirty(s, q) {
    }
  }

  lemma LandsKeeps(s: System, p: Pid, call: Call)
    requires Inv(s) && p in s.execs && ExecLands(s, p, s.execs[p], call).Some?
    ensures Inv(ExecLands(s, p, s.execs[p], call).value)
  {
    var x := s.execs[p];
    assert BothOk(s.rule, s.procs, p, x);
    LandOk(s.rule, s.procs, p, x, call);
    LandsOwned(s, p, call);
    var t := ExecLands(s, p, x, call).value;
    hide LocalOk, ProviderOk, Owned, Rank, Consistent, RecordMatchesLease, FlightOf, WithFlight, RuleAfter, ProcsAfter;
    forall q | q in t.execs ensures ProviderOk(t.rule, t.procs, q, t.execs[q]) {
      if q != p { OthersOk(s.rule, s.procs, p, q, s.execs[q], call); }
    }
  }

  // ---- Registry requests of executions ----

  /** Binding `p`: before the request nothing is dirty, so afterwards only `p` may be. */
  lemma BeginKeeps(s: System, p: Pid, net: Delivery, y: Exec)
    requires Inv(s) && p in s.execs && s.execs[p].stage.Beginning? && net != NotSent
    requires Ask(s, ProcessBegin, Some(p)).1.ProcessReserved?
    requires BothOk(s.rule, s.procs, p, y)
    ensures Inv(s.(record := Ask(s, ProcessBegin, Some(p)).0, execs := s.execs[p := y]))
  {
    var t := s.(record := Ask(s, ProcessBegin, Some(p)).0, execs := s.execs[p := y]);
    var request := Request(true, ProcessBegin, Some(s.lease), Some(p), None);
    StepAdvances(s.record.value, request);
    forall q ensures !Dirty(s, q) {
      assert Dirty(s, q) ==> Holds(s.record, q);
    }
    forall q | Dirty(t, q) ensures q == p {
      assert !Dirty(s, q) && !Dirty(s, p);
    }
    assert Holds(t.record, p);
  }

  lemma BeginRepliedKeeps(s: System, p: Pid, net: Delivery, sandboxOpens: bool)
    requires Inv(s) && p in s.execs && s.execs[p].stage.Beginning?
    ensures Inv(BeginReplied(s, p, s.execs[p], net, sandboxOpens))
  {
    hide Fail;
    var x := s.execs[p];
    assert BothOk(s.rule, s.procs, p, x);
    var t := BeginReplied(s, p, x, net, sandboxOpens);
    var y := t.execs[p];
    BeginLocal(s, p, x, sandboxOpens);
    if net != NotSent && Ask(s, ProcessBegin, Some(p)).1.ProcessReserved? {
      BeginKeeps(s, p, net, y);
    } else {
      assert s.record == Ask(s, ProcessBegin, Some(p)).0 || net == NotSent;
      ExecChange(s, p, y);
    }
  }

  lemma BeginLocal(s: System, p: Pid, x: Exec, sandboxOpens: bool)
    requires BothOk(s.rule, s.procs, p, x) && x.stage.Beginning?
    ensures Follows(s.rule, s.procs, p, x, Fail(x))
    ensures BothOk(s.rule, s.procs, p, Fail(x.(bound := Yes)))
    ensures BothOk(s.rule, s.procs, p,
              x.(bound := Yes, hasSandbox := Yes, stage := FirstRemove, firstRemove := Issued))
  {
  }

  lemma MarkRepliedKeeps(s: System, p: Pid, net: Delivery)
    requires Inv(s) && p in s.execs && s.execs[p].stage.Marking?
    ensures Inv(MarkReplied(s, p, s.execs[p], net))
  {
    var x := s.execs[p];
    assert BothOk(s.rule, s.procs, p, x);
    hide Inv, BothOk, Transition, Fail;
    MarkLocal(s.rule, s.procs, p, x);
    RegistryMove(s, Request(true, ProcessRunning, Some(s.lease), Some(p), None), net);
    ExecChange(s.(record := Stored(s, ProcessRunning, Some(p), net)), p, MarkReplied(s, p, x, net).execs[p]);
  }

  lemma KillFinishRepliedKeeps(s: System, p: Pid, net: Delivery)
    requires Inv(s) && p in s.execs && s.execs[p].stage.FinishingKill?
    ensures Inv(KillFinishReplied(s, p, s.execs[p], net))
  {
    var x := s.execs[p];
    assert BothOk(s.rule, s.procs, p, x);
    hide Inv, BothOk, Transition, Fail;
    MarkLocal(s.rule, s.procs, p, x);
    RegistryMove(s, Request(true, KillFinish, Some(s.lease), None, None), net);
    ExecChange(s.(record := Stored(s, KillFinish, None, net)), p, KillFinishReplied(s, p, x, net).execs[p]);
  }

  lemma MarkLocal(rule: Option<Pid>, procs: set<Pid>, p: Pid, x: Exec)
    requires BothOk(rule, procs, p, x) && Running(x.stage)
    ensures Follows(rule, procs, p, x, Fail(x))
    ensures Follows(rule, procs, p, x, x.(stage := Signalling, signalled := Yes))
    ensures Follows(rule, procs, p, x, x.(stage := AwaitingExit))
    ensures Follows(rule, procs, p, x, x.(stage := AwaitingExit, signalled := Of(x.signalled.Yes?)))
  {
    hide Fail;
    FailOk(rule, procs, p, x);
  }

  /** Clearing unbinds `p` only after every trace of it is gone. */
  lemma ClearKeeps(s: System, p: Pid, net: Delivery)
    requires Inv(s) && p in s.execs && s.execs[p].stage.Clearing?
    ensures Inv(ClearReplied(s, p, s.execs[p], net))
  {
    var x := s.execs[p];
    assert BothOk(s.rule, s.procs, p, x);
    assert !Dirty(s, p);
    var y := x.(stage := Closed);
    assert Follows(s.rule, s.procs, p, x, y);
    var request := Request(true, ProcessClear, Some(s.lease), Some(p), None);
    var u := s.(record := Stored(s, ProcessClear, Some(p), net));
    if s.record.Some? && net != NotSent {
      StepAdvances(s.record.value, request);
      hide FlagsOk, StageOk, ProviderOk;
      forall q | Dirty(u, q) ensures q in u.execs && Holds(u.record, q) {
        assert Dirty(s, q) && q != p;
        ClearKeepsHolder(s.record.value, request, q);
      }
      forall q, r | Dirty(u, q) && Dirty(u, r) ensures q == r {
        assert Dirty(s, q) && Dirty(s, r);
      }
    }
    ExecChange(u, p, y);
  }

  lemma ClearKeepsHolder(r: LeaseRecord, request: Request, q: Pid)
    requires Consistent(r) && request.path.ProcessClear? && request.processId.Some? && request.processId.value != q
    requires Holds(Some(r), q)
    ensures Holds(Transition(Some(r), request).0, q)
  {
  }

  lemma RepliedKeeps(s: System, p: Pid, net: Delivery, sandboxOpens: bool)
    requires Inv(s) && p in s.execs && ExecReplied(s, p, s.execs[p], net, sandboxOpens).Some?
    ensures Inv(ExecReplied(s, p, s.execs[p], net, sandboxOpens).value)
  {
    hide Inv, BeginReplied, MarkReplied, KillFinishReplied, ClearReplied;
    if s.execs[p].stage.Beginning? { BeginRepliedKeeps(s, p, net, sandboxOpens); }
    else if s.execs[p].stage.Marking? { MarkRepliedKeeps(s, p, net); }
    else if s.execs[p].stage.FinishingKill? { KillFinishRepliedKeeps(s, p, net); }
    else { ClearKeeps(s, p, net); }
  }

  lemma ProviderStepKeeps(s: System, p: Pid, e: ExecEvent)
    requires Inv(s) && p in s.execs && ExecStep(s, p, e).Some? && !e.Replied?
    ensures Inv(ExecStep(s, p, e).value)
  {
    var x := s.execs[p];
    assert BothOk(s.rule, s.procs, p, x);
    hide Inv, BothOk, Follows, AfterResolve, AfterThrow, ExecLands, WithFlight, ExecReplied;
    match e {
      case Resolved(wrongId) =>
        ResolveFollows(s.lease, s.rule, s.procs, p, x, wrongId);
        ExecChange(s, p, AfterResolve(s.lease, x, p !in s.procs, wrongId).value);
      case Rejected =>
        ThrowFollows(s.rule, s.procs, p, x, false);
        ExecChange(s, p, AfterThrow(x, false).value);
      case TimedOut =>
        ThrowFollows(s.rule, s.procs, p, x, true);
        ExecChange(s, p, AfterThrow(x, true).value);
      case Lands(call) => LandsKeeps(s, p, call);
      case SettlesLate(call) => LateSettleKeeps(s, p, call);
    }
  }

  // ---- Kills, destroys, the create call, the provider ----

  lemma KillStepKeeps(s: System, k: nat, e: CallerEvent)
    requires Inv(s) && k in s.killers && KillStep(s, k, e).Some?
    ensures Inv(KillStep(s, k, e).value)
  {
    hide Inv, Transition, NoteKill;
    var c := s.killers[k];
    var t := KillStep(s, k, e).value;
    if e.CallerReplied? {
      var path := if c.stage.KillRequesting? then Kill else KillFinish;
      RegistryMove(s, Request(true, path, Some(s.lease), None, None), e.net);
      var u := s.(record := Stored(s, path, None, e.net));
      if c.stage.KillRequesting? { NoteKeeps(s, u, e.net); }
      CallersIrrelevant(u.(execs := t.execs), t);
    } else {
      ProviderLoses(s, s.rule, t.procs, t.alive);
      CallersIrrelevant(s.(procs := t.procs, alive := t.alive), t);
    }
  }

  /** Noting an accepted kill changes only the history flag. */
  lemma NoteKeeps(s: System, u: System, net: Delivery)
    requires Inv(u) && u.execs == s.execs
    ensures Inv(u.(execs := NoteKill(s, net)))
  {
    var reply := Ask(s, Kill, None).1;
    if NoteKill(s, net) != s.execs {
      var p := reply.processId;
      var x := u.execs[p];
      assert BothOk(u.rule, u.procs, p, x);
      assert Follows(u.rule, u.procs, p, x, x.(killSeen := Yes));
      ExecChange(u, p, x.(killSeen := Yes));
    } else {
      assert u.(execs := NoteKill(s, net)) == u;
    }
  }

  /** The invariant reads neither the callers' own state nor the liveness of the sandbox. */
  lemma CallersIrrelevant(s: System, t: System)
    requires Inv(s)
    requires t == s.(killers := t.killers, destroyers := t.destroyers, creator := t.creator,
                     destroyConfirmed := t.destroyConfirmed, alive := t.alive)
    ensures Inv(t)
  {
    hide FlagsOk, StageOk, ProviderOk, Rank, Holds, Consistent, RecordMatchesLease;
    forall p | Dirty(t, p) ensures Dirty(s, p) {
    }
  }

  lemma DestroyStepKeeps(s: System, d: nat, e: CallerEvent)
    requires Inv(s) && d in s.destroyers && DestroyStep(s, d, e).Some?
    ensures Inv(DestroyStep(s, d, e).value)
  {
    hide Inv, Transition;
    var c := s.destroyers[d];
    var t := DestroyStep(s, d, e).value;
    if e.CallerReplied? {
      var path := if c.stage.DestroyReserving? then DestroyBegin
                  else if c.stage.DestroyAborting? then DestroyAbort else DestroyFinish;
      RegistryMove(s, Request(true, path, Some(s.lease), None, None), e.net);
      CallersIrrelevant(s.(record := Stored(s, path, None, e.net)), t);
    } else {
      ProviderLoses(s, t.rule, t.procs, t.alive);
      CallersIrrelevant(s.(rule := t.rule, procs := t.procs, alive := t.alive), t);
    }
  }

  lemma ReserveKeeps(s: System)
    requires Inv(s) && s.record.None?
    ensures Inv(s.(record := Some(FreshRecord(s.lease, s.provider, s.session))))
  {
    var t := s.(record := Some(FreshRecord(s.lease, s.provider, s.session)));
    forall p ensures !Dirty(s, p) {
      assert Dirty(s, p) ==> Holds(s.record, p);
    }
    forall p ensures !Dirty(t, p) {
      assert !Dirty(s, p);
    }
  }

  lemma CreatorReplyKeeps(s: System, net: Delivery)
    requires Inv(s) && CreateStep(s, CreatorReplied(net)).Some?
    ensures Inv(CreateStep(s, CreatorReplied(net)).value)
  {
    hide Inv;
    var c := s.creator;
    var t := CreateStep(s, CreatorReplied(net)).value;
    if c.stage.Reserving? {
      if s.record.None? { ReserveKeeps(s); }
      CallersIrrelevant(s.(record := t.record), t);
    } else {
      hide Transition;
      var path := if c.stage.MarkingReady? then MarkReady else Remove;
      RegistryMove(s, Request(true, path, Some(s.lease), None, None), net);
      CallersIrrelevant(s.(record := Stored(s, path, None, net)), t);
    }
  }

  lemma CreateStepKeeps(s: System, e: CreatorEvent)
    requires Inv(s) && CreateStep(s, e).Some?
    ensures Inv(CreateStep(s, e).value)
  {
    hide Inv, CreatorCall, ReserveReplied, ReadyReplied, RemoveReplied;
    if e.CreatorReplied? {
      CreatorReplyKeeps(s, e.net);
    } else {
      var t := CreateStep(s, e).value;
      ProviderLoses(s, t.rule, t.procs, t.alive);
      CallersIrrelevant(s.(rule := t.rule, procs := t.procs, alive := t.alive), t);
    }
  }

  lemma NewExecKeeps(s: System, p: Pid, egress: Option<Text>)
    requires Inv(s) && p !in s.execs
    ensures Inv(s.(execs := s.execs[p := NewExec(egress)]))
  {
    var t := s.(execs := s.execs[p := NewExec(egress)]);
    assert !Dirty(s, p);
    assert BothOk(s.rule, s.procs, p, NewExec(egress));
    forall q | Dirty(t, q) ensures Dirty(s, q) {
    }
  }

  lemma ReplyStep(s: System, p: Pid, e: ExecEvent)
    requires p in s.execs && e.Replied?
    ensures ExecStep(s, p, e) == ExecReplied(s, p, s.execs[p], e.net, e.sandboxOpens)
  {
    hide ExecReplied, AfterResolve, AfterThrow, ExecLands;
  }

  lemma StepKeeps(s: System, a: Action)
    requires Inv(s) && Step(s, a).Some?
    ensures Inv(Step(s, a).value)
  {
    hide Inv, ExecStep, KillStep, DestroyStep, CreateStep;
    match a {
      case Execute(p, egress) => NewExecKeeps(s, p, egress);
      case StartKill(k) => CallersIrrelevant(s, Step(s, a).value);
      case StartDestroy(d) => CallersIrrelevant(s, Step(s, a).value);
      case ExecMoves(p, e) =>
        if e.Replied? { ReplyStep(s, p, e); RepliedKeeps(s, p, e.net, e.sandboxOpens); }
        else { ProviderStepKeeps(s, p, e); }
      case KillMoves(k, e) => KillStepKeeps(s, k, e);
      case DestroyMoves(d, e) => DestroyStepKeeps(s, d, e);
      case CreateMoves(e) => CreateStepKeeps(s, e);
      case ProcessExits(p) => ProviderLoses(s, s.rule, s.procs - {p}, s.alive);
      case RuleDrops => ProviderLoses(s, None, s.procs, s.alive);
    }
  }

  lemma {:induction false} RunKeeps(s: System, actions: seq<Action>)
    requires Inv(s) && Run(s, actions).Some?
    ensures Inv(Run(s, actions).value)
    decreases |actions|
  {
    hide Inv, Step;
    if actions != [] {
      StepKeeps(s, actions[0]);
      RunKeeps(Step(s, actions[0]).value, actions[1..]);
    }
  }

  lemma Reachable(lease: Lease, provider: Text, session: Text, actions: seq<Action>)
    requires Run(Initial(lease, provider, session), actions).Some?
    ensures Inv(Run(Initial(lease, provider, session), actions).value)
  {
    assert Inv(Initial(lease, provider, session)) by {
      forall r ensures !Dirty(Initial(lease, provider, session), r) {}
    }
    RunKeeps(Initial(lease, provider, session), actions);
  }

  /** `q`'s process is live, or was asked to start and may still come up. */
  predicate StartedOrRunning(s: System, q: Pid) {
    q in s.procs || (q in s.execs && Flying(s.execs[q].start))
  }

  /** Grant isolation, in every run: while a rule set for `p` is in effect or may still land,
      no other execution's process is live or may still start, and `p` is the bound process
      unless no process can begin on this lease any more. */
  lemma GrantIsolated(lease: Lease, provider: Text, session: Text, actions: seq<Action>, p: Pid, q: Pid)
    requires Run(Initial(lease, provider, session), actions).Some?
    ensures var s := Run(Initial(lease, provider, session), actions).value;
            s.rule == Some(p) || (p in s.execs && Flying(s.execs[p].setRule)) ==>
              && (StartedOrRunning(s, q) ==> p == q)
              && (p != q ==> s.rule != Some(q))
              && s.record.Some?
              && (s.record.value.processId == Some(p) || Rank(s.record.value) >= 2)
  {
    Reachable(lease, provider, session, actions);
    var s := Run(Initial(lease, provider, session), actions).value;
    hide Run, FlagsOk, StageOk, ProviderOk, Consistent, Rank, RecordMatchesLease;
    if s.rule == Some(p) || (p in s.execs && Flying(s.execs[p].setRule)) {
      assert Dirty(s, p);
      assert StartedOrRunning(s, q) ==> Dirty(s, q);
      assert s.rule == Some(q) ==> Dirty(s, q);
    }
  }

  /** Rank 2 is final: whatever requests follow, no process begins again. */
  lemma {:induction false} NeverBeginsAgain(r: LeaseRecord, requests: seq<Request>, request: Request)
    requires Consistent(r) && Rank(r) >= 2 && NoReserve(requests)
    ensures var last := RunRequests(Some(r), requests);
            last.Some? ==> !Transition(last, request).1.ProcessReserved?
  {
    RunAdvances(r, requests);
  }

  // ---- A run in which a rule is in effect while its process is running ----

  /** The lease's own run, if it has one. */
  function OwnRun(lease: Lease): Text { if lease.grant.owner.RunOwner? then lease.grant.owner.runId else [] }

  /** A lease is created, and one execution configures its rule, starts, is marked running, exits and cleans up. */
  function ServingRun(lease: Lease, p: Pid): seq<Action> {
    [CreateMoves(CreatorReplied(Delivered)), CreateMoves(CreationLands), CreateMoves(CreationSettles(true)),
     CreateMoves(CreatorReplied(Delivered)), Execute(p, Some(OwnRun(lease))), ExecMoves(p, Replied(Delivered, true)),
     ExecMoves(p, Lands(CallFirstRemove)), ExecMoves(p, Resolved(false)), ExecMoves(p, Lands(CallSetRule)),
     ExecMoves(p, Resolved(false)), ExecMoves(p, Resolved(false)), ExecMoves(p, Lands(CallStart)),
     ExecMoves(p, Resolved(false)), ExecMoves(p, Replied(Delivered, true)),
     ProcessExits(p), ExecMoves(p, Resolved(false)), ExecMoves(p, Lands(CallFinalRemove)),
     ExecMoves(p, Resolved(false)), ExecMoves(p, Replied(Delivered, true))]
  }

  /** A call that is issued by step `n`, lands in the next and settles in the one after. */
  function FlightAt(issued: nat, n: nat): Flight {
    if n < issued then Idle else if n == issued then Issued else if n == issued + 1 then Landed else Settled
  }

  /** Its execution after the first `n` steps. */
  function ServingExec(lease: Lease, n: nat): Exec {
    NewExec(Some(OwnRun(lease))).(
      stage := if n <= 5 then Beginning else if n <= 7 then FirstRemove else if n <= 9 then SettingRule
               else if n == 10 then GettingSession else if n <= 12 then StartingProcess
               else if n == 13 then Marking else if n <= 15 then AwaitingExit else if n <= 17 then FinalRemove
               else if n == 18 then Clearing else Closed,
      bound := Of(n >= 6), hasSandbox := Of(n >= 6), attempted := Of(n >= 8), confirmed := Of(n >= 10),
      startAttempted := Of(n >= 11), hasProcess := Of(n >= 13), terminalConfirmed := Of(n >= 16), clean := Of(n >= 18),
      firstRemove := FlightAt(6, n), setRule := FlightAt(8, n), start := FlightAt(11, n),
      finalRemove := FlightAt(16, n))
  }

  function ServingRecord(lease: Lease, provider: Text, session: Text, p: Pid, n: nat): Option<LeaseRecord> {
    if n == 0 then None
    else
      var reserved := FreshRecord(lease, provider, session);
      var bound := 6 <= n <= 18;
      Some(reserved.(status := if n <= 3 then Pending else Ready,
                     processId := if bound then Some(p) else None,
                     processState := if !bound then None else if n <= 13 then Some(Starting)
                                     else Some(ProcessState.Running)))
  }

  function ServingState(lease: Lease, provider: Text, session: Text, p: Pid, n: nat): System {
    var init := Initial(lease, provider, session);
    init.(record := ServingRecord(lease, provider, session, p, n),
          creator := init.creator.(
            stage := if n == 0 then Reserving else if n <= 2 then Creating
                     else if n == 3 then MarkingReady else CreateReturned(true),
            creation := if n == 0 then NotCreated else if n == 1 then CreationIssued
                        else if n == 2 then CreationLanded else CreationOk),
          alive := n >= 2,
          execs := if n <= 4 then map[] else map[p := ServingExec(lease, n)],
          rule := if 9 <= n <= 16 then Some(p) else None,
          procs := if 12 <= n <= 14 then {p} else {})
  }

  lemma ServingStarts(lease: Lease, provider: Text, session: Text, p: Pid, n: nat)
    requires n < 5
    ensures Step(ServingState(lease, provider, session, p, n), ServingRun(lease, p)[n])
            == Some(ServingState(lease, provider, session, p, n + 1))
  {
    hide ExecStep, KillStep, DestroyStep;
  }

  lemma ServingRequests(lease: Lease, provider: Text, session: Text, p: Pid)
    ensures var r := ServingRecord(lease, provider, session, p, 5).value;
            Transition(Some(r), Request(true, ProcessBegin, Some(lease), Some(p), None))
            == (ServingRecord(lease, provider, session, p, 6),
                ProcessReserved(ServingRecord(lease, provider, session, p, 6).value))
    ensures var r := ServingRecord(lease, provider, session, p, 13).value;
            Transition(Some(r), Request(true, ProcessRunning, Some(lease), Some(p), None))
            == (ServingRecord(lease, provider, session, p, 14), MarkedRunning(false))
    ensures var r := ServingRecord(lease, provider, session, p, 18).value;
            Transition(Some(r), Request(true, ProcessClear, Some(lease), Some(p), None))
            == (ServingRecord(lease, provider, session, p, 19), NoContent)
  {
  }

  lemma ServingGoesOn(lease: Lease, provider: Text, session: Text, p: Pid, n: nat)
    requires 5 <= n < 14
    ensures Step(ServingState(lease, provider, session, p, n), ServingRun(lease, p)[n])
            == Some(ServingState(lease, provider, session, p, n + 1))
  {
    hide Transition, CreateStep, KillStep, DestroyStep, Fail, Finally, AfterThrow;
    ServingRequests(lease, provider, session, p);
    var s := ServingState(lease, provider, session, p, n);
    assert s.execs[p := ServingExec(lease, n + 1)] == map[p := ServingExec(lease, n + 1)];
    assert {p} == {} + {p};
  }

  lemma ServingCleansUp(lease: Lease, provider: Text, session: Text, p: Pid, n: nat)
    requires 14 <= n < 19
    ensures Step(ServingState(lease, provider, session, p, n), ServingRun(lease, p)[n])
            == Some(ServingState(lease, provider, session, p, n + 1))
  {
    hide Transition, CreateStep, KillStep, DestroyStep, Fail, AfterThrow, AfterFirstRemove;
    ServingRequests(lease, provider, session, p);
    var s := ServingState(lease, provider, session, p, n);
    assert s.execs[p := ServingExec(lease, n + 1)] == map[p := ServingExec(lease, n + 1)];
    assert {p} - {p} == {};
  }

  lemma {:induction false} ServingFrom(lease: Lease, provider: Text, session: Text, p: Pid, n: nat, m: nat)
    requires n <= m <= 19
    ensures Run(ServingState(lease, provider, session, p, n), ServingRun(lease, p)[n..m])
            == Some(ServingState(lease, provider, session, p, m))
    decreases m - n
  {
    var run := ServingRun(lease, p);
    assert |run| == 19;
    hide Step, ServingState, ServingRun;
    if n == m {
      assert run[n..m] == [];
    } else {
      if n < 5 {
        ServingStarts(lease, provider, session, p, n);
      } else if n < 14 {
        ServingGoesOn(lease, provider, session, p, n);
      } else {
        ServingCleansUp(lease, provider, session, p, n);
      }
      assert run[n..m][1..] == run[n + 1..m];
      ServingFrom(lease, provider, session, p, n + 1, m);
    }
  }

  /** The isolation theorem is not about nothing: a rule can be in effect while its own process is running, and
      afterwards the lease can be free again, without rule or process. */
  lemma RuleServesItsProcess(lease: Lease, provider: Text, session: Text, p: Pid)
    ensures var s := Run(Initial(lease, provider, session), ServingRun(lease, p)[..14]);
            s.Some? && s.value.rule == Some(p) && p in s.value.procs && p in s.value.execs
            && s.value.execs[p].stage.AwaitingExit?
    ensures var s := Run(Initial(lease, provider, session), ServingRun(lease, p));
            s.Some? && s.value.rule == None && s.value.procs == {} && p in s.value.execs
            && s.value.execs[p].stage.Closed? && s.value.record.Some?
            && s.value.record.value.status.Ready? && s.value.record.value.processId == None
  {
    ServingFrom(lease, provider, session, p, 0, 14);
    ServingFrom(lease, provider, session, p, 0, 19);
    var run := ServingRun(lease, p);
    assert |run| == 19 && run[0..14] == run[..14] && run[0..19] == run;
    assert ServingState(lease, provider, session, p, 0) == Initial(lease, provider, session);
    hide Run, Initial;
  }
}
