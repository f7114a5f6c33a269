/** The FastClaw runner: concurrent transport callbacks under step and parallelism budgets, a sticky
    failure, and the ordered event stream of one run. */
module RunnerBudget {
  import opened Options

  type CallId = nat

  datatype Budget = Budget(maxSteps: int, maxParallelTools: int, maxTokens: int)

  /** What the transport reports as used. */
  datatype Usage = Usage(inputTokens: int, outputTokens: int, steps: int)

  /** The budget part of `validateRequest`; the other parts may reject a request in `Preparation`. */
  predicate ValidBudget(b: Budget) { 1 <= b.maxSteps <= 8 && 1 <= b.maxParallelTools <= 3 }

  datatype Phase = RemoteAccepted | PolicyCheck | ToolCompleted | FinalCheck

  datatype Failure = TransportFailed | BudgetExceeded | Cancelled | ToolDenied | OtherFailure

  /** The variables the callbacks share. */
  datatype Callbacks = Callbacks(
    accepting: bool,
    phases: seq<Phase>,
    active: int,              // activeToolCalls
    count: nat,               // toolCallCount
    seen: set<CallId>,        // seenToolCallIds
    failure: Option<Failure>) // callbackFailure

  /** A tool call as it arrives: `None` for an id that is not a string or is blank. */
  datatype Call = Call(id: Option<CallId>, allowedName: bool)

  datatype Decision = Allowed | Denied | Threw

  predicate Malformed(c: Callbacks, call: Call) { call.id.None? || call.id.value in c.seen || !call.allowedName }

  /** onProgress; a phase outside the known four is `None`. */
  function Progressed(b: Budget, c: Callbacks, phase: Option<Phase>): Callbacks {
    if c.failure.Some? then c
    else if !c.accepting || phase.None? then c.(failure := Some(TransportFailed))
    else if |c.phases| >= b.maxSteps * 4 + 4 then c.(failure := Some(BudgetExceeded))
    else c.(phases := c.phases + [phase.value])
  }

  /** Whether onToolCall reaches the executor. */
  predicate Admitted(b: Budget, c: Callbacks, call: Call) {
    && c.failure.None? && c.accepting && !Malformed(c, call)
    && c.count + 1 <= b.maxSteps && c.active + 1 <= b.maxParallelTools
  }

  /** onToolCall up to the executor's answer. */
  function Called(b: Budget, c: Callbacks, call: Call): Callbacks {
    if c.failure.Some? then c
    else if !c.accepting then c.(failure := Some(Cancelled))
    else
      var d := c.(phases := c.phases + [PolicyCheck], count := c.count + 1);
      if Malformed(c, call) then d.(failure := Some(ToolDenied))
      else if !Admitted(b, c, call) then d.(seen := c.seen + {call.id.value}, failure := Some(BudgetExceeded))
      else d.(seen := c.seen + {call.id.value}, active := c.active + 1)
  }

  /** onToolCall after the executor's answer. */
  function Answered(c: Callbacks, decision: Decision): Callbacks {
    if decision.Allowed? then c.(phases := c.phases + [ToolCompleted], active := c.active - 1)
    else c.(failure := Some(ToolDenied), active := c.active - 1)
  }

  /** The callbacks as they run, each up to its next await. */
  class CallbackState {
    const budget: Budget
    var accepting: bool
    var phases: seq<Phase>
    var activeToolCalls: int
    var toolCallCount: nat
    var seenToolCallIds: set<CallId>
    var callbackFailure: Option<Failure>

    ghost function View(): Callbacks
      reads this
    {
      Callbacks(accepting, phases, activeToolCalls, toolCallCount, seenToolCallIds, callbackFailure)
    }

    constructor (b: Budget)
      ensures budget == b && View() == Callbacks(false, [], 0, 0, {}, None)
    {
      budget := b;
      accepting, phases, activeToolCalls, toolCallCount, seenToolCallIds, callbackFailure := false, [], 0, 0, {}, None;
    }

    method OnProgress(phase: Option<Phase>) returns (ok: bool)
      modifies this
      ensures View() == Progressed(budget, old(View()), phase)
      ensures ok <==> View().failure.None?
    {
      if callbackFailure.Some? { return false; }
      if !accepting || phase.None? {
        callbackFailure := Some(TransportFailed);
        return false;
      }
      if |phases| >= budget.maxSteps * 4 + 4 {
        callbackFailure := Some(BudgetExceeded);
        return false;
      }
      phases := phases + [phase.value];
      return true;
    }

    /** True when the executor is called. */
    method OnToolCall(call: Call) returns (executing: bool)
      modifies this
      ensures View() == Called(budget, old(View()), call)
      ensures executing == Admitted(budget, old(View()), call)
    {
      if callbackFailure.Some? { return false; }
      if !accepting {
        callbackFailure := Some(Cancelled);
        return false;
      }
      phases := phases + [PolicyCheck];
      toolCallCount := toolCallCount + 1;
      activeToolCalls := activeToolCalls + 1;
      if call.id.None? || call.id.value in seenToolCallIds || !call.allowedName {
        activeToolCalls := activeToolCalls - 1;
        callbackFailure := Some(ToolDenied);
        return false;
      }
      seenToolCallIds := seenToolCallIds + {call.id.value};
      if toolCallCount > budget.maxSteps || activeToolCalls > budget.maxParallelTools {
        activeToolCalls := activeToolCalls - 1;
        callbackFailure := Some(BudgetExceeded);
        return false;
      }
      return true;
    }

    method OnDecision(decision: Decision)
      modifies this
      ensures View() == Answered(old(View()), decision)
    {
      match decision {
        case Allowed => phases := phases + [ToolCompleted];
        case Denied => callbackFailure := Some(ToolDenied);
        case Threw => callbackFailure := Some(ToolDenied);
      }
      activeToolCalls := activeToolCalls - 1;
    }
  }

  // ---- A whole run ----

  predicate UsageFits(b: Budget, u: Usage) {
    && 0 <= u.inputTokens <= MAX_SAFE_INTEGER
    && 0 <= u.outputTokens <= MAX_SAFE_INTEGER && 0 <= u.steps <= MAX_SAFE_INTEGER
    && u.outputTokens <= b.maxTokens && u.steps <= b.maxSteps
  }

  datatype EventKind = Requested | Started | PhaseEvent(phase: Phase) | Completed | Blocked | RunFailed

  predicate IsTerminal(k: EventKind) { k.Completed? || k.Blocked? || k.RunFailed? }

  datatype Event = Event(index: nat, kind: EventKind)

  datatype Stage =
    | Preparing
    | Transporting
    | Checking
    | Emitting(next: nat, last: EventKind)  // yielding the phases, then the terminal event
    | Finished

  datatype Run = Run(
    budget: Budget,
    stage: Stage,
    began: bool,             // run.started was emitted, so the transport and its callbacks exist
    cb: Callbacks,
    index: nat,
    inFlight: set<CallId>,   // executor calls that have not answered
    executed: seq<CallId>,   // history: executor calls in the order they were made
    completed: nat,          // history: executor calls that were allowed
    checked: nat,            // history: final_check phases
    usage: Option<Usage>,    // the usage that passed
    events: seq<Event>)

  datatype Action =
    | PrepareFails(blocked: bool)
    | Prepared
    | CallsProgress(phase: Option<Phase>)
    | CallsTool(call: Call)
    | Answers(id: CallId, decision: Decision)
    | TransportResolves(usage: Option<Usage>)  // `None` for a malformed result
    | TransportRejects(blocked: bool)    // it rejects, or the run is cancelled or times out
    | CheckEnds(approved: bool, blocked: bool)
    | Emits

  function Started0(b: Budget): Run {
    Run(b, Preparing, false, Callbacks(false, [], 0, 0, {}, None), 1, {}, [], 0, 0, None, [Event(0, Requested)])
  }

  function Ending(blocked: bool): EventKind { if blocked then Blocked else RunFailed }

  /** The catch and finally blocks: nothing is accepted any more, and the phases are emitted. */
  function Ended(r: Run, last: EventKind): Run { r.(stage := Emitting(0, last), cb := r.cb.(accepting := false)) }

  function Yielded(r: Run, kind: EventKind): Run {
    r.(events := r.events + [Event(r.index, kind)], index := r.index + 1)
  }

  function FailureEnds(f: Failure): EventKind { Ending(f.ToolDenied?) }

  function Resolved(r: Run, usage: Option<Usage>): Run {
    if r.cb.failure.Some? then Ended(r, FailureEnds(r.cb.failure.value))
    else if usage.None? || !UsageFits(r.budget, usage.value) then Ended(r, RunFailed)
    else r.(stage := Checking, checked := r.checked + 1, usage := usage,
            cb := r.cb.(accepting := false, phases := r.cb.phases + [FinalCheck]))
  }

  function Emitted(r: Run): Run
    requires r.stage.Emitting?
  {
    if r.stage.next < |r.cb.phases|
    then Yielded(r, PhaseEvent(r.cb.phases[r.stage.next])).(stage := r.stage.(next := r.stage.next + 1))
    else Yielded(r, r.stage.last).(stage := Finished)
  }

  /** One step, or `None` when the action is not possible. Callbacks and executor answers may come at any
      time once the transport was started, also while the phases are being emitted and after the end. */
  function Step(r: Run, a: Action): Option<Run> {
    match a
    case PrepareFails(blocked) => if r.stage.Preparing? then Some(Ended(r, Ending(blocked))) else None
    case Prepared =>
      if r.stage.Preparing? && ValidBudget(r.budget)
      then Some(Yielded(r, Started).(stage := Transporting, began := true, cb := r.cb.(accepting := true))) else None
    case CallsProgress(phase) =>
      if !r.began then None else Some(r.(cb := Progressed(r.budget, r.cb, phase)))
    case CallsTool(call) =>
      if !r.began then None
      else if Admitted(r.budget, r.cb, call) then
        Some(r.(cb := Called(r.budget, r.cb, call), inFlight := r.inFlight + {call.id.value},
                executed := r.executed + [call.id.value]))
      else Some(r.(cb := Called(r.budget, r.cb, call)))
    case Answers(id, decision) =>
      if id !in r.inFlight then None
      else Some(r.(cb := Answered(r.cb, decision), inFlight := r.inFlight - {id},
                   completed := r.completed + (if decision.Allowed? then 1 else 0)))
    case TransportResolves(usage) => if r.stage.Transporting? then Some(Resolved(r, usage)) else None
    case TransportRejects(blocked) => if r.stage.Transporting? then Some(Ended(r, Ending(blocked))) else None
    case CheckEnds(approved, blocked) =>
      if r.stage.Checking? then Some(Ended(r, if approved then Completed else Ending(blocked))) else None
    case Emits => if r.stage.Emitting? then Some(Emitted(r)) else None
  }

  function RunAll(r: Run, actions: seq<Action>): Option<Run>
    decreases |actions|
  {
    if actions == [] then Some(r)
    else var next := Step(r, actions[0]);
         if next.None? then None else RunAll(next.value, actions[1..])
  }

  // ---- Budgets ----

  ghost predicate Distinct(ids: seq<CallId>) { forall i, j :: 0 <= i < j < |ids| ==> ids[i] != ids[j] }

  ghost predicate BudgetsOk(r: Run) {
    && r.cb.active == |r.inFlight| <= r.budget.maxParallelTools
    && r.inFlight <= r.cb.seen
    && Distinct(r.executed)
    && (forall i :: 0 <= i < |r.executed| ==> r.executed[i] in r.cb.seen)
    && |r.executed| <= r.budget.maxSteps
    && |r.executed| <= r.cb.count <= |r.executed| + (if r.cb.failure.Some? then 1 else 0)
    && r.completed + |r.inFlight| <= |r.executed|
  }

  ghost predicate PhasesOk(r: Run) {
    && |r.cb.phases| <= r.budget.maxSteps * 4 + 4 + r.cb.count + r.completed + r.checked
    && (r.cb.accepting ==> r.stage.Transporting?)
    && (r.stage.Transporting? ==> r.checked == 0)
    && r.checked <= 1
  }

  /** What is emitted so far, given the number of phases there are. */
  ghost predicate StreamOk(r: Run) {
    && r.index == |r.events| >= 1
    && (forall i :: 0 <= i < |r.events| ==> r.events[i].index == i)
    && (forall i :: 0 <= i < |r.events| ==>
          (IsTerminal(r.events[i].kind) <==> r.stage.Finished? && i == |r.events| - 1))
    && (r.stage.Preparing? ==> |r.events| == 1)
    && (r.stage.Transporting? || r.stage.Checking? ==> |r.events| == 2)
    && (r.stage.Emitting? ==> IsTerminal(r.stage.last) && r.stage.next <= |r.cb.phases|
                              && |r.events| <= 2 + r.stage.next)
    && (r.stage.Finished? ==> |r.events| <= 3 + |r.cb.phases|)
  }

  /** Before the transport exists there is nothing to bound. */
  ghost predicate Untouched(r: Run) {
    && r.cb == Callbacks(false, [], 0, 0, {}, None) && r.inFlight == {} && r.executed == []
    && r.completed == 0 && r.checked == 0
    && (r.stage.Preparing? || r.stage.Emitting? || r.stage.Finished?)
    && |r.events| <= (if r.stage.Finished? then 2 else 1)
  }

  ghost predicate Inv(r: Run) {
    && StreamOk(r)
    && if r.began then ValidBudget(r.budget) && !r.stage.Preparing? && BudgetsOk(r) && PhasesOk(r)
       else Untouched(r)
  }

  lemma BudgetsKept(r: Run, a: Action)
    requires r.began && BudgetsOk(r) && PhasesOk(r) && Step(r, a).Some?
    ensures BudgetsOk(Step(r, a).value)
  {
    match a {
      case CallsTool(call) => CallKeepsBudgets(r, call);
      case Answers(id, decision) => AnswerKeepsBudgets(r, id, decision);
      case _ =>
    }
  }

  lemma AnswerKeepsBudgets(r: Run, id: CallId, decision: Decision)
    requires BudgetsOk(r) && Step(r, Answers(id, decision)).Some?
    ensures BudgetsOk(Step(r, Answers(id, decision)).value)
  {
    assert |r.inFlight - {id}| == |r.inFlight| - 1;
  }

  lemma CallKeepsBudgets(r: Run, call: Call)
    requires r.began && BudgetsOk(r)
    ensures BudgetsOk(Step(r, CallsTool(call)).value)
  {
    if Admitted(r.budget, r.cb, call) {
      var id := call.id.value;
      assert id !in r.inFlight && |r.inFlight + {id}| == |r.inFlight| + 1;
      assert Called(r.budget, r.cb, call).seen == r.cb.seen + {id};
      assert Distinct(r.executed + [id]);
    }
  }

  lemma PhasesKept(r: Run, a: Action)
    requires r.began && !r.stage.Preparing? && PhasesOk(r) && Step(r, a).Some?
    ensures PhasesOk(Step(r, a).value)
  {
  }

  /** Callbacks only append phases. */
  lemma CallbacksAppend(b: Budget, c: Callbacks, phase: Option<Phase>, call: Call, decision: Decision)
    ensures |Progressed(b, c, phase).phases| >= |c.phases|
    ensures |Called(b, c, call).phases| >= |c.phases|
    ensures |Answered(c, decision).phases| >= |c.phases|
  {
  }

  lemma EmitKeepsStream(r: Run)
    requires StreamOk(r) && r.stage.Emitting?
    ensures StreamOk(Emitted(r))
  {
  }

  lemma StreamKept(r: Run, a: Action)
    requires Inv(r) && Step(r, a).Some?
    ensures StreamOk(Step(r, a).value)
  {
    hide BudgetsOk, PhasesOk, Emitted, Progressed, Called, Admitted, Answered;
    match a {
      case Emits => EmitKeepsStream(r);
      case CallsProgress(phase) => CallbacksAppend(r.budget, r.cb, phase, Call(None, false), Allowed);
      case CallsTool(call) => CallbacksAppend(r.budget, r.cb, None, call, Allowed);
      case Answers(id, decision) => CallbacksAppend(r.budget, r.cb, None, Call(None, false), decision);
      case _ =>
    }
  }

  lemma StepKeeps(r: Run, a: Action)
    requires Inv(r) && Step(r, a).Some?
    ensures Inv(Step(r, a).value)
  {
    StreamKept(r, a);
    if r.began {
      BudgetsKept(r, a);
      PhasesKept(r, a);
      hide BudgetsOk, PhasesOk;
    }
    hide StreamOk;
  }

  lemma {:induction false} RunKeeps(r: Run, actions: seq<Action>)
    requires Inv(r) && RunAll(r, actions).Some?
    ensures Inv(RunAll(r, actions).value)
    decreases |actions|
  {
    hide Step, Inv;
    if actions != [] {
      StepKeeps(r, actions[0]);
      RunKeeps(Step(r, actions[0]).value, actions[1..]);
    }
  }

  /** Budgets hold in every run: the counter is the number of executor calls in flight, at most
      max_parallel_tools; at most max_steps executor calls are made, with distinct ids. */
  lemma BudgetsHold(b: Budget, actions: seq<Action>)
    requires RunAll(Started0(b), actions).Some?
    ensures var r := RunAll(Started0(b), actions).value;
            && r.cb.active == |r.inFlight|
            && (r.inFlight != {} ==> |r.inFlight| <= b.maxParallelTools)
            && (r.executed != [] ==> ValidBudget(b) && |r.executed| <= b.maxSteps)
            && Distinct(r.executed)
  {
    RunKeeps(Started0(b), actions);
    BudgetConstant(Started0(b), actions);
    hide RunAll;
  }

  lemma {:induction false} BudgetConstant(r: Run, actions: seq<Action>)
    requires RunAll(r, actions).Some?
    ensures RunAll(r, actions).value.budget == r.budget
    decreases |actions|
  {
    if actions != [] { BudgetConstant(Step(r, actions[0]).value, actions[1..]); }
  }

  /** The failure is sticky: once set it stays set, and no executor call is made any more. */
  lemma {:induction false} FailureIsSticky(r: Run, actions: seq<Action>)
    requires r.cb.failure.Some? && RunAll(r, actions).Some?
    ensures var last := RunAll(r, actions).value; last.cb.failure.Some? && last.executed == r.executed
    decreases |actions|
  {
    if actions != [] { FailureIsSticky(Step(r, actions[0]).value, actions[1..]); }
  }

  /** A run's events are numbered 0, 1, 2, …; a terminal event is emitted at the end and nowhere else;
      there are at most 6·max_steps + 9 of them. */
  lemma StreamIsOrdered(b: Budget, actions: seq<Action>)
    requires RunAll(Started0(b), actions).Some?
    ensures var r := RunAll(Started0(b), actions).value;
            && (forall i :: 0 <= i < |r.events| ==> r.events[i].index == i)
            && (forall i :: 0 <= i < |r.events| ==>
                  (IsTerminal(r.events[i].kind) <==> r.stage.Finished? && i == |r.events| - 1))
            && |r.events| <= (if ValidBudget(b) then 6 * b.maxSteps + 9 else 2)
  {
    RunKeeps(Started0(b), actions);
    BudgetConstant(Started0(b), actions);
    hide RunAll;
  }

  /** A callback failed before the transport ended, and no answer was given. */
  ghost predicate Doomed(r: Run) {
    && r.cb.failure.Some?
    && (r.stage.Transporting? || (r.stage.Emitting? && !r.stage.last.Completed?) || r.stage.Finished?)
    && (forall i :: 0 <= i < |r.events| ==> !r.events[i].kind.Completed?)
  }

  lemma DoomedStep(r: Run, a: Action)
    requires Doomed(r) && Step(r, a).Some?
    ensures Doomed(Step(r, a).value)
  {
  }

  lemma {:induction false} DoomedStays(r: Run, actions: seq<Action>)
    requires Doomed(r) && RunAll(r, actions).Some?
    ensures Doomed(RunAll(r, actions).value)
    decreases |actions|
  {
    hide Doomed, Step;
    if actions != [] {
      DoomedStep(r, actions[0]);
      DoomedStays(Step(r, actions[0]).value, actions[1..]);
    }
  }

  /** A run in which a callback fails while the transport is running never emits completion, whatever follows. */
  lemma FailureNeverCompletes(b: Budget, before: seq<Action>, later: seq<Action>)
    requires RunAll(Started0(b), before).Some?
    requires var r := RunAll(Started0(b), before).value; r.stage.Transporting? && r.cb.failure.Some?
    requires RunAll(RunAll(Started0(b), before).value, later).Some?
    ensures var last := RunAll(RunAll(Started0(b), before).value, later).value;
            forall i :: 0 <= i < |last.events| ==> !last.events[i].kind.Completed?
  {
    RunKeeps(Started0(b), before);
    var r := RunAll(Started0(b), before).value;
    hide RunAll, BudgetsOk, PhasesOk;
    assert Doomed(r);
    DoomedStays(r, later);
  }
}
