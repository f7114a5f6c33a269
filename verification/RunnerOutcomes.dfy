/** How a run of the FastClaw runner ends, which tool calls it lets through, and what its events say. */
module RunnerOutcomes {
  import opened Options
  import opened RunnerBudget

  /** When each thing can happen: callbacks and answers at any time once the transport was started, which needs a
      budget of 1 to 8 steps and 1 to 3 parallel tools. */
  predicate Possible(r: Run, a: Action) {
    match a
    case PrepareFails(_) => r.stage.Preparing?
    case Prepared => r.stage.Preparing? && 1 <= r.budget.maxSteps <= 8 && 1 <= r.budget.maxParallelTools <= 3
    case CallsProgress(_) => r.began
    case CallsTool(_) => r.began
    case Answers(id, _) => id in r.inFlight
    case TransportResolves(_) => r.stage.Transporting?
    case TransportRejects(_) => r.stage.Transporting?
    case CheckEnds(_, _) => r.stage.Checking?
    case Emits => r.stage.Emitting?
  }

  /** Exactly these steps are possible, and each changes what it should: the callbacks only the shared variables, the
      others the stage, with callbacks accepted from the start of the transport until it ends. */
  lemma StepExact(r: Run, a: Action)
    requires PhasesOk(r)
    ensures Step(r, a).Some? <==> Possible(r, a)
    ensures Possible(r, a) ==>
              var t := Step(r, a).value;
              match a
              case CallsProgress(phase) => t == r.(cb := Progressed(r.budget, r.cb, phase))
              case CallsTool(call) => t.cb == Called(r.budget, r.cb, call) && t.stage == r.stage && t.events == r.events
              case Answers(id, decision) =>
                && t.cb == Answered(r.cb, decision) && t.inFlight == r.inFlight - {id}
                && t.stage == r.stage && t.events == r.events
              case Prepared => t.stage.Transporting? && t.began && t.cb.accepting
              case TransportResolves(usage) =>
                && !t.cb.accepting
                && (if r.cb.failure.None? && usage.Some? && Within(r.budget, usage.value)
                    then t.stage.Checking? && t.cb.phases == r.cb.phases + [FinalCheck]
                    else t.stage.Emitting? && t.cb.phases == r.cb.phases)
              case Emits =>
                && t.cb == r.cb
                && (t.stage.Finished? <==> r.stage.next >= |r.cb.phases|) && |t.events| == |r.events| + 1
              case _ => t.stage.Emitting? && t.stage.next == 0 && !t.cb.accepting && t.cb.phases == r.cb.phases
  {
  }

  // ---- Which tool calls are executed ----

  /** Until something fails, the ids seen are those of the calls made; callbacks are accepted while the transport
      runs. */
  ghost predicate SeenIsExecuted(r: Run) {
    && (r.cb.failure.None? ==> forall id :: id in r.cb.seen ==> id in r.executed)
    && (r.stage.Transporting? <==> r.cb.accepting)
  }

  lemma StepSeen(r: Run, a: Action)
    requires SeenIsExecuted(r) && Step(r, a).Some?
    ensures SeenIsExecuted(Step(r, a).value)
  {
  }

  lemma {:induction false} RunSeen(r: Run, actions: seq<Action>)
    requires SeenIsExecuted(r) && RunAll(r, actions).Some?
    ensures SeenIsExecuted(RunAll(r, actions).value)
    decreases |actions|
  {
    hide Step, SeenIsExecuted;
    if actions != [] {
      StepSeen(r, actions[0]);
      RunSeen(Step(r, actions[0]).value, actions[1..]);
    }
  }

  /** In every run a tool call reaches the executor exactly when the transport is running, nothing failed so far,
      its name is allowed, its id was not used before, and both budgets leave room for one more. */
  lemma AdmittedExactly(b: Budget, actions: seq<Action>, call: Call)
    requires RunAll(Started0(b), actions).Some?
    requires RunAll(Started0(b), actions).value.began
    ensures var r := RunAll(Started0(b), actions).value;
            var t := Step(r, CallsTool(call));
            && t.Some?
            && (t.value.executed != r.executed <==>
                  && r.stage.Transporting? && r.cb.failure.None? && call.allowedName
                  && call.id.Some? && call.id.value !in r.executed
                  && |r.executed| < b.maxSteps && |r.inFlight| < b.maxParallelTools)
            && (t.value.executed != r.executed ==>
                  && t.value.executed == r.executed + [call.id.value]
                  && t.value.inFlight == r.inFlight + {call.id.value}
                  && t.value.cb.phases == r.cb.phases + [PolicyCheck] && t.value.cb.failure.None?)
            && (t.value.executed == r.executed ==> t.value.inFlight == r.inFlight && t.value.cb.failure.Some?)
  {
    RunKeeps(Started0(b), actions);
    RunSeen(Started0(b), actions);
    BudgetConstant(Started0(b), actions);
    hide RunAll, StreamOk, PhasesOk;
  }

  /** The failure a refused callback sets names its cause; an earlier failure stays. */
  lemma FailureNames(b: Budget, c: Callbacks, call: Call, phase: Option<Phase>, decision: Decision)
    requires c.failure.None?
    ensures c.accepting && call.id.Some? && call.allowedName ==> Called(b, c, call).seen == c.seen + {call.id.value}
    ensures var f := Called(b, c, call).failure;
            && (f == Some(Cancelled) <==> !c.accepting)
            && (f == Some(ToolDenied) <==>
                  c.accepting && (call.id.None? || call.id.value in c.seen || !call.allowedName))
            && (f == Some(BudgetExceeded) <==>
                  && c.accepting && call.id.Some? && call.id.value !in c.seen && call.allowedName
                  && (c.count >= b.maxSteps || c.active >= b.maxParallelTools))
            && (f.None? || f == Some(Cancelled) || f == Some(ToolDenied) || f == Some(BudgetExceeded))
    ensures var f := Progressed(b, c, phase).failure;
            && (f == Some(TransportFailed) <==> !c.accepting || phase.None?)
            && (f == Some(BudgetExceeded) <==> c.accepting && phase.Some? && |c.phases| >= 4 * b.maxSteps + 4)
            && (f.None? ==> phase.Some? && Progressed(b, c, phase).phases == c.phases + [phase.value])
            && (f.None? || f == Some(TransportFailed) || f == Some(BudgetExceeded))
    ensures var d := Answered(c, decision);
            && (if decision.Allowed? then d.failure.None? && d.phases == c.phases + [ToolCompleted]
                else d.failure == Some(ToolDenied) && d.phases == c.phases)
            && d.active == c.active - 1
  {
  }

  /** After a failure a callback changes nothing. */
  lemma FailedIgnores(b: Budget, c: Callbacks, call: Call, phase: Option<Phase>)
    requires c.failure.Some?
    ensures Progressed(b, c, phase) == c && Called(b, c, call) == c && !Admitted(b, c, call)
  {
  }

  // ---- How a run ends ----

  /** The terminal event that was decided on. */
  function EndOf(r: Run): Option<EventKind> {
    if r.stage.Emitting? then Some(r.stage.last)
    else if r.stage.Finished? && r.events != [] then Some(r.events[|r.events| - 1].kind)
    else None
  }

  /** In state `r` action `a` decides that the run ends with `kind`. */
  predicate Decides(r: Run, a: Action, kind: EventKind) {
    match a
    case PrepareFails(blocked) => r.stage.Preparing? && kind == (if blocked then Blocked else RunFailed)
    case TransportRejects(blocked) => r.stage.Transporting? && kind == (if blocked then Blocked else RunFailed)
    case TransportResolves(usage) =>
      && r.stage.Transporting?
      && (if r.cb.failure == Some(ToolDenied) then kind.Blocked?
          else kind.RunFailed? && (r.cb.failure.Some? || usage.None? || !Within(r.budget, usage.value)))
    case CheckEnds(approved, blocked) =>
      r.stage.Checking? && kind == (if approved then Completed else if blocked then Blocked else RunFailed)
    case _ => false
  }

  predicate Within(b: Budget, u: Usage) {
    && 0 <= u.inputTokens <= 9_007_199_254_740_991 && 0 <= u.steps <= 9_007_199_254_740_991
    && 0 <= u.outputTokens <= 9_007_199_254_740_991
    && u.outputTokens <= b.maxTokens && u.steps <= b.maxSteps
  }

  lemma StepDecides(r: Run, a: Action)
    requires StreamOk(r) && Step(r, a).Some?
    ensures var t := Step(r, a).value;
            if EndOf(r).Some? then EndOf(t) == EndOf(r)
            else EndOf(t).Some? ==> Decides(r, a, EndOf(t).value)
  {
    hide Progressed, Called, Answered, Admitted;
  }

  /** A finished run ended for one of these reasons, at one of its steps, and with the event that names it. */
  lemma {:induction false} EndHasCause(b: Budget, actions: seq<Action>)
    requires RunAll(Started0(b), actions).Some? && EndOf(RunAll(Started0(b), actions).value).Some?
    ensures var end := EndOf(RunAll(Started0(b), actions).value).value;
            exists i :: 0 <= i < |actions| && RunAll(Started0(b), actions[..i]).Some?
                        && Decides(RunAll(Started0(b), actions[..i]).value, actions[i], end)
    decreases |actions|
  {
    assert actions != [];
    var n := |actions| - 1;
    assert actions[..n] + [actions[n]] == actions;
    RunPrefix(Started0(b), actions[..n], actions[n]);
    RunKeeps(Started0(b), actions[..n]);
    var r := RunAll(Started0(b), actions[..n]).value;
    assert StreamOk(r);
    StepDecides(r, actions[n]);
    hide RunAll, Step, StreamOk, Decides;
    if EndOf(r).Some? {
      EndHasCause(b, actions[..n]);
      var i :| 0 <= i < n && RunAll(Started0(b), actions[..n][..i]).Some?
               && Decides(RunAll(Started0(b), actions[..n][..i]).value, actions[..n][i], EndOf(r).value);
      assert actions[..n][..i] == actions[..i];
    }
  }

  lemma RunPrefix(r: Run, front: seq<Action>, last: Action)
    requires RunAll(r, front + [last]).Some?
    ensures RunAll(r, front).Some? && Step(RunAll(r, front).value, last).Some?
    ensures RunAll(r, front + [last]) == Some(Step(RunAll(r, front).value, last).value)
    decreases |front|
  {
    hide Step;
    if front == [] {
      assert front + [last] == [last] && [last][1..] == [];
    } else {
      assert (front + [last])[1..] == front[1..] + [last];
      RunPrefix(Step(r, front[0]).value, front[1..], last);
    }
  }

  // ---- What is emitted ----

  /** The events so far: the request, the start, and the recorded phases in order; a completed run kept within its
      token and step budgets. */
  ghost predicate Tells(r: Run) {
    var first := if r.began then 2 else 1;
    && r.events != [] && r.events[0].kind.Requested?
    && (r.began ==> |r.events| >= 2 && r.events[1].kind.Started?)
    && (r.stage.Preparing? ==> !r.began)
    && (r.stage.Checking? || EndOf(r) == Some(Completed) ==> r.usage.Some? && Within(r.budget, r.usage.value))
    && (r.stage.Transporting? || r.stage.Checking? ==> r.began && |r.events| == first)
    && (r.stage.Emitting? ==> |r.events| == first + r.stage.next <= first + |r.cb.phases|)
    && (r.stage.Finished? ==> first < |r.events| <= first + |r.cb.phases| + 1)
    && PhasesTold(r.events, first, if r.stage.Finished? then |r.events| - 1 else |r.events|, r.cb.phases)
  }

  /** The events from `first` to `end` are the phases, from the first. */
  ghost predicate PhasesTold(events: seq<Event>, first: nat, end: nat, phases: seq<Phase>)
    decreases end
  {
    end <= first
    || (&& end <= |events| && end - first <= |phases|
        && events[end - 1].kind == PhaseEvent(phases[end - 1 - first])
        && PhasesTold(events, first, end - 1, phases))
  }

  lemma {:induction false} PhasesStay(events: seq<Event>, more: seq<Event>, first: nat, end: nat, a: seq<Phase>,
                                      b: seq<Phase>)
    requires a <= b && events <= more && PhasesTold(events, first, end, a)
    ensures PhasesTold(more, first, end, b)
    decreases end
  {
    if end > first { PhasesStay(events, more, first, end - 1, a, b); }
  }

  lemma {:induction false} ToldAt(events: seq<Event>, first: nat, end: nat, phases: seq<Phase>, i: nat)
    requires PhasesTold(events, first, end, phases) && first <= i < end
    ensures i < |events| && i - first < |phases| && events[i].kind == PhaseEvent(phases[i - first])
    decreases end
  {
    if i < end - 1 { ToldAt(events, first, end - 1, phases, i); }
  }

  lemma CallbacksExtend(b: Budget, c: Callbacks, phase: Option<Phase>, call: Call, decision: Decision)
    ensures c.phases <= Progressed(b, c, phase).phases
    ensures c.phases <= Called(b, c, call).phases
    ensures c.phases <= Answered(c, decision).phases
  {
  }

  lemma EmitTells(r: Run)
    requires Tells(r) && StreamOk(r) && r.stage.Emitting?
    ensures Tells(Emitted(r))
  {
    hide Within;
    PhasesStay(r.events, Emitted(r).events, if r.began then 2 else 1, |r.events|, r.cb.phases, r.cb.phases);
  }

  lemma ResolveTells(r: Run, usage: Option<Usage>)
    requires Tells(r) && r.stage.Transporting?
    ensures Tells(Resolved(r, usage))
  {
    PhasesStay(r.events, r.events, 2, 2, r.cb.phases, r.cb.phases + [FinalCheck]);
  }

  /** More phases may be recorded at any time. */
  lemma CallbackTells(r: Run, t: Run)
    requires Tells(r) && r.cb.phases <= t.cb.phases
    requires t.stage == r.stage && t.began == r.began && t.events == r.events && t.usage == r.usage
    requires t.budget == r.budget
    ensures Tells(t)
  {
    hide PhasesTold, Within;
    PhasesStay(r.events, t.events, if r.began then 2 else 1,
               if r.stage.Finished? then |r.events| - 1 else |r.events|, r.cb.phases, t.cb.phases);
  }

  lemma EndTells(r: Run, kind: EventKind)
    requires Tells(r) && StreamOk(r) && (r.stage.Preparing? || r.stage.Transporting? || r.stage.Checking?)
    requires kind.Completed? ==> r.stage.Checking?
    ensures Tells(Ended(r, kind))
  {
  }

  lemma StepTells(r: Run, a: Action)
    requires Tells(r) && StreamOk(r) && Step(r, a).Some?
    ensures Tells(Step(r, a).value)
  {
    var t := Step(r, a).value;
    if a.Prepared? { return; }
    hide Tells, StreamOk, Progressed, Called, Answered, Admitted, Emitted, Resolved, Ended;
    match a {
      case PrepareFails(blocked) => EndTells(r, Ending(blocked));
      case CallsProgress(phase) =>
        CallbacksExtend(r.budget, r.cb, phase, Call(None, false), Allowed);
        CallbackTells(r, t);
      case CallsTool(call) => CallbacksExtend(r.budget, r.cb, None, call, Allowed); CallbackTells(r, t);
      case Answers(id, decision) =>
        CallbacksExtend(r.budget, r.cb, None, Call(None, false), decision);
        CallbackTells(r, t);
      case Emits => EmitTells(r);
      case TransportResolves(usage) => ResolveTells(r, usage);
      case TransportRejects(blocked) => EndTells(r, Ending(blocked));
      case CheckEnds(approved, blocked) => EndTells(r, if approved then Completed else Ending(blocked));
    }
  }

  lemma {:induction false} RunTells(r: Run, actions: seq<Action>)
    requires Tells(r) && Inv(r) && RunAll(r, actions).Some?
    ensures Tells(RunAll(r, actions).value)
    decreases |actions|
  {
    hide Step, Tells;
    if actions != [] {
      StepTells(r, actions[0]);
      StepKeeps(r, actions[0]);
      hide Inv;
      RunTells(Step(r, actions[0]).value, actions[1..]);
    }
  }

  /** A finished run emitted the request, the start, the phases in the order they were recorded, and the end; if it
      completed, the usage reported was within its budgets. */
  lemma PhasesAreEmitted(b: Budget, actions: seq<Action>)
    requires RunAll(Started0(b), actions).Some? && RunAll(Started0(b), actions).value.stage.Finished?
    ensures var r := RunAll(Started0(b), actions).value;
            var first := if r.began then 2 else 1;
            && first < |r.events| <= first + |r.cb.phases| + 1 && r.events[0].kind.Requested?
            && (r.began ==> r.events[1].kind.Started?)
            && (forall i :: first <= i < |r.events| - 1 ==> r.events[i].kind == PhaseEvent(r.cb.phases[i - first]))
            && (r.events[|r.events| - 1].kind.Completed? ==> r.usage.Some? && Within(r.budget, r.usage.value))
  {
    RunTells(Started0(b), actions);
    var r := RunAll(Started0(b), actions).value;
    var first := if r.began then 2 else 1;
    hide RunAll, PhasesTold;
    forall i | first <= i < |r.events| - 1 ensures r.events[i].kind == PhaseEvent(r.cb.phases[i - first]) {
      ToldAt(r.events, first, |r.events| - 1, r.cb.phases, i);
    }
  }

  // ---- A run that completes ----

  lemma RunCons(r: Run, a: Action, t: Run, rest: seq<Action>, u: Run)
    requires Step(r, a) == Some(t) && RunAll(t, rest) == Some(u)
    ensures RunAll(r, [a] + rest) == Some(u)
  {
    hide Step;
    assert ([a] + rest)[1..] == rest;
  }

  /** Once the end is decided, the remaining phases and then the end are emitted, and the run is over. */
  lemma {:induction false} EmittingEnds(r: Run) returns (actions: seq<Action>)
    requires r.stage.Emitting? && r.stage.next <= |r.cb.phases|
    ensures RunAll(r, actions).Some?
    ensures var t := RunAll(r, actions).value;
            && t == r.(stage := Finished, events := t.events, index := t.index)
            && |t.events| == |r.events| + |r.cb.phases| - r.stage.next + 1 && r.events <= t.events
            && t.events[|t.events| - 1].kind == r.stage.last
            && (forall i :: r.stage.next <= i < |r.cb.phases| ==>
                  t.events[|r.events| + i - r.stage.next].kind == PhaseEvent(r.cb.phases[i]))
    decreases |r.cb.phases| - r.stage.next
  {
    var next := Emitted(r);
    assert Step(r, Emits) == Some(next);
    if next.stage.Finished? {
      actions := [Emits];
      assert [Emits][1..] == [] && RunAll(next, []) == Some(next);
    } else {
      var rest := EmittingEnds(next);
      hide Step;
      RunCons(r, Emits, next, rest, RunAll(next, rest).value);
      actions := [Emits] + rest;
      assert next.events[|r.events|].kind == PhaseEvent(r.cb.phases[r.stage.next]);
    }
  }

  /** The transport calls a tool that is allowed. */
  lemma ToolCallWorks(b: Budget, id: CallId)
    requires ValidBudget(b)
    ensures var r := RunAll(Started0(b), [Prepared] + ([CallsTool(Call(Some(id), true))] + [Answers(id, Allowed)]));
            && r.Some? && r.value.stage.Transporting? && r.value.budget == b && r.value.cb.failure.None?
            && r.value.cb.phases == [PolicyCheck, ToolCompleted] && r.value.executed == [id] && r.value.inFlight == {}
            && |r.value.events| == 2
  {
    var call, answer := CallsTool(Call(Some(id), true)), Answers(id, Allowed);
    var r0 := Started0(b);
    var r1 := Step(r0, Prepared).value;
    var r2 := Step(r1, call).value;
    assert r2.inFlight == {id} && r2.executed == [id] && r2.cb.phases == [PolicyCheck];
    var r3 := Step(r2, answer).value;
    assert r3.inFlight == {} && r3.cb.phases == [PolicyCheck, ToolCompleted];
    assert Step(r0, Prepared) == Some(r1) && Step(r1, call) == Some(r2) && Step(r2, answer) == Some(r3);
    hide Step;
    assert RunAll(r3, []) == Some(r3);
    RunCons(r2, answer, r3, [], r3);
    assert [answer] + [] == [answer];
    RunCons(r1, call, r2, [answer], r3);
    RunCons(r0, Prepared, r1, [call] + [answer], r3);
  }

  lemma {:induction false} RunsOn(r: Run, first: seq<Action>, t: Run, second: seq<Action>, u: Run)
    requires RunAll(r, first) == Some(t) && RunAll(t, second) == Some(u)
    ensures RunAll(r, first + second) == Some(u)
    decreases |first|
  {
    hide Step;
    if first == [] {
      assert first + second == second;
    } else {
      assert (first + second)[1..] == first[1..] + second;
      RunsOn(Step(r, first[0]).value, first[1..], t, second, u);
    }
  }

  /** With any valid budget a run can make a tool call, pass its checks and complete. */
  lemma RunCompletes(b: Budget, id: CallId, usage: Usage) returns (actions: seq<Action>)
    requires ValidBudget(b) && UsageFits(b, usage)
    ensures RunAll(Started0(b), actions).Some?
    ensures var r := RunAll(Started0(b), actions).value;
            && r.stage.Finished? && r.executed == [id] && r.usage == Some(usage) && r.inFlight == {}
            && |r.events| == 6 && r.events[5].kind.Completed?
            && r.events[2].kind == PhaseEvent(PolicyCheck) && r.events[3].kind == PhaseEvent(ToolCompleted)
            && r.events[4].kind == PhaseEvent(FinalCheck)
  {
    ToolCallWorks(b, id);
    var calling := [Prepared] + ([CallsTool(Call(Some(id), true))] + [Answers(id, Allowed)]);
    var r3 := RunAll(Started0(b), calling).value;
    var resolves, checks := TransportResolves(Some(usage)), CheckEnds(true, false);
    var r4 := Step(r3, resolves).value;
    assert Step(r3, resolves) == Some(r4) && r4.cb.phases == [PolicyCheck, ToolCompleted, FinalCheck];
    var r5 := Step(r4, checks).value;
    assert Step(r4, checks) == Some(r5) && r5.stage == Emitting(0, Completed) && |r5.events| == 2;
    hide Step;
    var emits := EmittingEnds(r5);
    var last := RunAll(r5, emits).value;
    RunCons(r4, checks, r5, emits, last);
    RunCons(r3, resolves, r4, [checks] + emits, last);
    RunsOn(Started0(b), calling, r3, [resolves] + ([checks] + emits), last);
    actions := calling + ([resolves] + ([checks] + emits));
    hide RunAll;
    assert last.events[2 + 0].kind == PhaseEvent(r5.cb.phases[0]);
    assert last.events[2 + 1].kind == PhaseEvent(r5.cb.phases[1]);
    assert last.events[2 + 2].kind == PhaseEvent(r5.cb.phases[2]);
  }
}
