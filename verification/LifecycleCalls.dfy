/** What the lifecycle's executions do at the remote, in every run, and what their audit events say. */
module LifecycleCalls {
  import opened Options
  import opened Outcomes
  import opened Lifecycle

  // ---- The remote calls ----

  /** All calls of an execution whose claim returned these ids: first have a user, then what was asked for. */
  function Plan(i: Intent, user: Option<RemoteId>, agent: Option<RemoteId>): seq<RemoteCall> {
    (if user.None? then [ProvisionUser] else if i.Activate? then [SetActive] else [])
    + match i
      case Activate => if agent.None? then [ProvisionAgent] else []
      case Disable => [SetDisabled]
      case Delete => [RemoveUser]
  }

  /** The stages after an authority that does not deny the intent. */
  predicate Authorized(stage: Stage) {
    stage.Ensure? || stage.ReadCurrent? || stage.ClaimUpdate? || stage.BusyRead? || HoldsPeriod(stage)
  }

  /** Account and workspace exist; activating needs the entitlement, deleting a closed account. */
  predicate Allows(i: Intent, a: Authority) {
    a.accountExists && a.workspaceExists && (i.Activate? ==> a.mayActivate) && (i.Delete? ==> a.closed)
  }

  /** A request goes on exactly if the authority it reads allows its intent. One that is denied leaves an event,
      unless account or workspace is missing. */
  lemma AuthorityExact(s: System, k: nat, expired: bool, authority: Authority)
    requires k in s.execs && s.execs[k].stage.ReadAuthority?
    ensures var x, t := s.execs[k], Step(s, Statement(k, Works, expired, authority));
            && t.Some? && t.value.row == s.row && t.value.events == s.events
            && t.value.execs[k].checked == Some(authority)
            && (t.value.execs[k].stage.Ensure? <==> Allows(x.intent, authority))
            && (t.value.execs[k].stage.Answered0? <==> !authority.accountExists || !authority.workspaceExists)
            && (t.value.execs[k].stage.DenyUpsert? <==>
                  !Allows(x.intent, authority) && authority.accountExists && authority.workspaceExists)
            && (DenialOf(x.intent, authority) == Some(EntitlementDenied) <==>
                  t.value.execs[k].stage.DenyUpsert? && x.intent.Activate?)
            && (DenialOf(x.intent, authority) == Some(AccountMissing) <==> !authority.accountExists)
  {
    hide ReplayRead, Denied, CurrentRead, BusyReadBack, LoggedRead, ClaimStep, Successful, Failing, Logged, Upserted;
  }

  ghost predicate CallsOk(x: Execution) {
    && (Authorized(x.stage) || x.guarded.Yes? ==> x.checked.Some? && Allows(x.intent, x.checked.value))
    && (BeforeClaim(x.stage) || x.stage.BusyRead? ==> x.answered == [] && x.guarded.No?)
    && (x.stage.Remote? ==>
          && x.answered + [x.stage.call] <= Plan(x.intent, x.claimedUser, x.claimedAgent)
          && x.agent == x.claimedAgent
          && (x.user.Some? <==> x.claimedUser.Some? || x.answered != [])
          && (x.user.Some? || x.stage.call.ProvisionUser?))
    && (x.stage.FinalizeSuccess? ==>
          && x.answered == Plan(x.intent, x.claimedUser, x.claimedAgent)
          && x.user.Some? && (x.intent.Activate? ==> x.agent.Some?))
  }

  ghost predicate Planned(s: System) { forall k :: k in s.execs ==> CallsOk(s.execs[k]) }

  lemma PlanFits(x: Execution, done: Option<RemoteCall>)
    requires done.None? ==> x.answered == [] && x.user == x.claimedUser && x.agent == x.claimedAgent
    requires x.checked.Some? && Allows(x.intent, x.checked.value)
    requires done.Some? ==>
               && x.answered != [] && x.answered[|x.answered| - 1] == done.value
               && x.answered <= Plan(x.intent, x.claimedUser, x.claimedAgent)
               && x.user.Some?
               && (if done.value.ProvisionAgent? then x.agent.Some? else x.agent == x.claimedAgent)
    ensures CallsOk(Proceed(x, done))
  {
  }

  predicate SameCalls(x: Execution, y: Execution) {
    y.intent == x.intent && y.answered == x.answered && y.checked == x.checked
  }

  /** `y` may come after `x`: it follows its plan, and only reading the authority changes what it knows. */
  ghost predicate Follows(x: Execution, y: Execution) { CallsOk(y) && (x.stage.ReadAuthority? || SameCalls(x, y)) }

  lemma ClaimFits(x: Execution, p: Profile, period: nat)
    requires CallsOk(x) && x.stage.ClaimUpdate?
    ensures Follows(x, ClaimedBy(x, p, period))
  {
    PlanFits(WithClaim(x, p, period), None);
  }

  lemma AnswerFits(x: Execution, id: RemoteId)
    requires CallsOk(x) && x.stage.Remote?
    ensures CallsOk(Proceed(Obtained(x, id), Some(x.stage.call)))
  {
    var call := x.stage.call;
    assert (x.answered + [call])[|x.answered|] == call;
    PlanFits(Obtained(x, id), Some(call));
  }

  lemma CaughtFits(x: Execution)
    requires CallsOk(x)
    ensures Follows(x, Caught(x)) && Follows(x, At(x, Threw)) && Follows(x, At(x, ReadBack))
    ensures Follows(x, At(x, Answered0))
    ensures forall e :: Follows(x, At(x, WriteEvent(e))) && Follows(x, At(x, Answered(e)))
  {
    hide Plan, DenialOf;
  }

  lemma ReadsFit(s: System, x: Execution, authority: Authority)
    requires CallsOk(x)
    ensures x.stage.ReadReplay? ==> Follows(x, ReplayRead(s, x))
    ensures x.stage.ReadAuthority? ==> Follows(x, AuthorityRead(x, authority))
    ensures x.stage.ReadCurrent? ==> Follows(x, CurrentRead(s, x))
    ensures Follows(x, Denied(s, x)) && Follows(x, BusyReadBack(s, x)) && Follows(x, LoggedRead(s, x))
  {
    CaughtFits(x);
    hide Plan, Caught, EventOf, Proceed;
  }

  /** Only execution `k` moved. */
  ghost predicate Fits(s: System, k: nat, x: Execution, t: System) {
    k in t.execs && Follows(x, t.execs[k]) && t.execs == s.execs[k := t.execs[k]]
  }

  lemma ClaimStepFits(s: System, k: nat, x: Execution, fault: Fault, expired: bool)
    requires CallsOk(x) && x.stage.ClaimUpdate?
    ensures Fits(s, k, x, ClaimStep(s, k, x, fault, expired))
  {
    CaughtFits(x);
    if s.row.Some? { ClaimFits(x, s.row.value, |s.periods|); }
    assert Follows(x, At(x, BusyRead));
    hide Follows, ClaimedBy, ClaimedRow;
  }

  lemma WritesFit(s: System, k: nat, x: Execution, fault: Fault)
    requires CallsOk(x)
    ensures Fits(s, k, x, Successful(s, k, x, fault))
    ensures x.stage.FinalizeFailure? ==> Fits(s, k, x, Failing(s, k, x, x.stage.retryable, fault))
    ensures x.stage.WriteEvent? ==> Fits(s, k, x, Logged(s, k, x, x.stage.event, fault))
  {
    CaughtFits(x);
    hide Follows, Caught, SuccessRow, FailureRow, Finaled, At;
  }

  lemma StatementFits(s: System, k: nat, fault: Fault, expired: bool, authority: Authority)
    requires k in s.execs && CallsOk(s.execs[k]) && StatementStep(s, k, s.execs[k], fault, expired, authority).Some?
    ensures Fits(s, k, s.execs[k], StatementStep(s, k, s.execs[k], fault, expired, authority).value)
  {
    var x := s.execs[k];
    CaughtFits(x);
    ReadsFit(s, x, authority);
    if x.stage.ClaimUpdate? { ClaimStepFits(s, k, x, fault, expired); }
    WritesFit(s, k, x, fault);
    assert x.stage.DenyUpsert? ==> Follows(x, At(x, DenyRead));
    assert x.stage.Ensure? ==> Follows(x, At(x, ReadCurrent));
    hide Follows, CallsOk, Caught, ReplayRead, AuthorityRead, Denied, CurrentRead, BusyReadBack, LoggedRead, ClaimStep,
      Successful, Failing, Logged, Ensured, At;
  }

  lemma StepPlanned(s: System, a: Action)
    requires Planned(s) && Step(s, a).Some?
    ensures Planned(Step(s, a).value)
  {
    match a {
      case Start(k, request, intent) =>
      case Statement(k, fault, expired, authority) =>
        StatementFits(s, k, fault, expired, authority);
        hide CallsOk, StatementStep;
      case RemoteAnswers(k, id) =>
        AnswerFits(s.execs[k], id);
        hide CallsOk, Proceed;
      case RemoteFails(k, retryable) => hide Plan;
    }
  }

  lemma {:induction false} RunPlanned(s: System, actions: seq<Action>)
    requires Planned(s) && Run(s, actions).Some?
    ensures Planned(Run(s, actions).value)
    decreases |actions|
  {
    hide Planned, Step;
    if actions != [] {
      StepPlanned(s, actions[0]);
      RunPlanned(Step(s, actions[0]).value, actions[1..]);
    }
  }

  /** In every run the remote calls are those of the plan, in its order, and a success is finalized only when all
      of them worked. They are made only after an authority that allows the intent was read. */
  lemma CallsFollowPlan(actions: seq<Action>, k: nat)
    requires Run(EMPTY, actions).Some?
    ensures var s := Run(EMPTY, actions).value;
            k in s.execs ==>
              var x := s.execs[k];
              && (HoldsPeriod(x.stage) ==> x.checked.Some? && Allows(x.intent, x.checked.value))
              && (x.stage.Remote? ==>
                    && x.answered + [x.stage.call] <= Plan(x.intent, x.claimedUser, x.claimedAgent)
                    && (x.user.Some? || x.stage.call.ProvisionUser?))
              && (x.stage.FinalizeSuccess? ==> x.answered == Plan(x.intent, x.claimedUser, x.claimedAgent))
  {
    RunPlanned(EMPTY, actions);
    hide Run, Plan;
  }

  /** What each call is for. */
  lemma CallsSuitIntent(actions: seq<Action>, k: nat)
    requires Run(EMPTY, actions).Some?
    ensures var s := Run(EMPTY, actions).value;
            k in s.execs && s.execs[k].stage.Remote? ==>
              var x := s.execs[k];
              match x.stage.call
              case SetActive => x.intent.Activate?
              case ProvisionAgent => x.intent.Activate? && x.claimedAgent.None?
              case SetDisabled => x.intent.Disable?
              case RemoveUser => x.intent.Delete? && x.checked.Some? && x.checked.value.closed
              case ProvisionUser => x.claimedUser.None? && x.answered == []
  {
    CallsFollowPlan(actions, k);
    hide Run;
    var s := Run(EMPTY, actions).value;
    if k in s.execs && s.execs[k].stage.Remote? {
      var x := s.execs[k];
      var plan := Plan(x.intent, x.claimedUser, x.claimedAgent);
      assert plan[|x.answered|] == x.stage.call;
    }
  }

  /** The status each intent asks for. */
  predicate Reached(i: Intent, status: Status) {
    (i.Activate? && status.Active?) || (i.Disable? && status.Disabled?) || (i.Delete? && status.Deleted?)
  }

  /** A claim that works takes the row exactly when it is not deleted and nobody holds its lease; then the row says
      what is asked for, that it is under way and by whom, and keeps its ids. */
  lemma ClaimExact(s: System, k: nat, expired: bool, authority: Authority)
    requires Inv(s) && k in s.execs && s.execs[k].stage.ClaimUpdate? && s.row.Some?
    ensures var x, t := s.execs[k], Step(s, Statement(k, Works, expired, authority)).value;
            var p := s.row.value;
            && t.row.Some? && k in t.execs
            && (t.row == s.row <==> p.status.Deleted? || (p.owner.Some? && !expired))
            && (t.row == s.row ==> t.execs[k] == x.(stage := BusyRead))
            && (t.row != s.row ==>
                  var q := t.row.value;
                  && q.desired == x.intent && q.owner == Some(x.request) && q.user == p.user && q.agent == p.agent
                  && q.attempts == p.attempts + 1
                  && match x.intent
                     case Activate => q.status.Provisioning?
                     case Disable => q.status.DisablePending?
                     case Delete => q.status.DeletePending?)
  {
    hide NextCall, ExecOk;
  }

  /** A success that is finalized did at the remote what the row says afterwards. */
  lemma SuccessIsDone(actions: seq<Action>, k: nat, fault: Fault, expired: bool, authority: Authority)
    requires Run(EMPTY, actions).Some?
    requires k in Run(EMPTY, actions).value.execs && Run(EMPTY, actions).value.execs[k].stage.FinalizeSuccess?
    ensures var s := Run(EMPTY, actions).value;
            var x, t := s.execs[k], Step(s, Statement(k, fault, expired, authority)).value;
            t.row != s.row ==>
              && t.row.Some? && t.row.value.owner.None? && Reached(x.intent, t.row.value.status)
              && match x.intent
                 case Activate =>
                   && (SetActive in x.answered || ProvisionUser in x.answered)
                   && t.row.value.user.Some? && t.row.value.agent.Some?
                 case Disable => SetDisabled in x.answered && t.row.value.user.Some?
                 case Delete => RemoveUser in x.answered && t.row.value.user.None? && t.row.value.agent.None?
  {
    RunPlanned(EMPTY, actions);
    var s := Run(EMPTY, actions).value;
    assert CallsOk(s.execs[k]);
    hide Run, Caught;
  }

  /** The event has the row's status, and its ids unless it names none. */
  predicate Copies(stage: Stage, row: Option<Profile>) {
    stage.WriteEvent? ==>
      var e := stage.event;
      && row.Some? && e.toStatus == row.value.status
      && (e.user.Some? ==> e.user == row.value.user) && (e.agent.Some? ==> e.agent == row.value.agent)
      && (e.outcome.Succeeded? || e.outcome.Conflict? ==> e.user == row.value.user && e.agent == row.value.agent)
  }

  lemma ReadsCopy(s: System, x: Execution, authority: Authority)
    requires !x.stage.WriteEvent?
    ensures Copies(CurrentRead(s, x).stage, s.row) && Copies(BusyReadBack(s, x).stage, s.row)
    ensures Copies(Denied(s, x).stage, s.row) && Copies(LoggedRead(s, x).stage, s.row)
    ensures Copies(ReplayRead(s, x).stage, s.row) && Copies(Caught(x).stage, s.row)
    ensures Copies(AuthorityRead(x, authority).stage, s.row)
  {
  }

  /** Execution `k` went on to a stage that copies the row. */
  ghost predicate CopyStep(k: nat, t: System) { k in t.execs && Copies(t.execs[k].stage, t.row) }

  lemma WritesCopy(s: System, k: nat, x: Execution, fault: Fault)
    requires !x.stage.WriteEvent?
    ensures CopyStep(k, Successful(s, k, x, fault))
    ensures x.stage.FinalizeFailure? ==> CopyStep(k, Failing(s, k, x, x.stage.retryable, fault))
  {
    hide Finaled;
  }

  lemma OthersCopy(s: System, k: nat, x: Execution, fault: Fault, expired: bool)
    ensures CopyStep(k, ClaimStep(s, k, x, fault, expired))
    ensures CopyStep(k, Upserted(s, k, x, DenyRead, fault)) && CopyStep(k, Upserted(s, k, x, ReadCurrent, fault))
  {
    hide NextCall, ClaimedRow;
  }

  lemma ReadingCopies(s: System, k: nat, x: Execution, y: Execution, fault: Fault)
    requires Copies(y.stage, s.row) && Copies(Caught(x).stage, s.row)
    ensures CopyStep(k, Read(s, k, x, y, fault))
  {
    hide Copies;
  }

  /** An event is made from the row as it then is. */
  lemma EventCopiesRow(s: System, k: nat, fault: Fault, expired: bool, authority: Authority)
    requires k in s.execs && !s.execs[k].stage.WriteEvent?
    ensures var step := StatementStep(s, k, s.execs[k], fault, expired, authority);
            step.Some? ==> CopyStep(k, step.value)
  {
    hide CopyStep, Copies, Read, ClaimStep, Upserted, Successful, Failing, Logged, ReplayRead, AuthorityRead, Denied,
      CurrentRead, BusyReadBack, LoggedRead, Caught, At;
    var x := s.execs[k];
    ReadsCopy(s, x, authority);
    WritesCopy(s, k, x, fault);
    OthersCopy(s, k, x, fault, expired);
    ReadingCopies(s, k, x, ReplayRead(s, x), fault);
    ReadingCopies(s, k, x, AuthorityRead(x, authority), fault);
    ReadingCopies(s, k, x, Denied(s, x), fault);
    ReadingCopies(s, k, x, CurrentRead(s, x), fault);
    ReadingCopies(s, k, x, BusyReadBack(s, x), fault);
    ReadingCopies(s, k, x, LoggedRead(s, x), fault);
  }

  /** A request that could not claim is told that it is in progress exactly while its own request holds the lease. */
  lemma BusyMeans(s: System, k: nat, expired: bool, authority: Authority)
    requires k in s.execs && s.execs[k].stage.BusyRead? && s.row.Some?
    requires !Reached(s.execs[k].intent, s.row.value.status) && !s.row.value.status.Deleted?
    ensures var stage := Step(s, Statement(k, Works, expired, authority)).value.execs[k].stage;
            if s.row.value.owner == Some(s.execs[k].request) then stage.Answered0?
            else stage.WriteEvent? && stage.event.outcome.Conflict?
  {
  }

  /** A statement that fails before its effect changes nothing but its own execution, which stops or goes on to
      finalize the failure. */
  lemma FailedStatementsDoNothing(s: System, k: nat, expired: bool, authority: Authority)
    requires k in s.execs && Step(s, Statement(k, FailsBefore, expired, authority)).Some?
    ensures var t := Step(s, Statement(k, FailsBefore, expired, authority)).value;
            && t.row == s.row && t.events == s.events && t.periods == s.periods
            && k in t.execs
            && (t.execs[k].stage.Threw? || (s.execs[k].guarded.Yes? && t.execs[k].stage.FinalizeFailure?))
  {
    hide ReplayRead, AuthorityRead, Denied, CurrentRead, BusyReadBack, LoggedRead;
  }

  /** The statement that makes sure of the row creates a disabled one where there is none, and keeps any other. */
  lemma RowIsEnsured(s: System, k: nat, fault: Fault, expired: bool, authority: Authority)
    requires k in s.execs && (s.execs[k].stage.Ensure? || s.execs[k].stage.DenyUpsert?) && !fault.FailsBefore?
    ensures var t := Step(s, Statement(k, fault, expired, authority)).value;
            && t.row == (if s.row.Some? then s.row else Some(Profile(Disable, Disabled, None, None, None, 0, 0)))
            && (t.execs[k].stage.Threw? <==> fault.FailsAfter?)
  {
  }

  /** The first event written for a request is stored, and it is what the request is answered with. */
  lemma EventIsWritten(s: System, k: nat, fault: Fault, expired: bool, authority: Authority)
    requires k in s.execs && s.execs[k].stage.WriteEvent? && !fault.FailsBefore?
    ensures var x, t := s.execs[k], Step(s, Statement(k, fault, expired, authority)).value;
            var stored := if x.request in s.events then s.events[x.request] else x.stage.event;
            && t.events == s.events[x.request := stored] && t.row == s.row
            && (fault.Works? ==>
                  var u := Step(t, Statement(k, Works, expired, authority));
                  t.execs[k].stage.ReadBack? && u.Some? && u.value.execs[k].stage == Answered(stored))
  {
    hide Caught, ReplayRead, AuthorityRead, Denied, CurrentRead, BusyReadBack, ClaimStep, Successful, Failing, Upserted;
  }

  // ---- A deleted row ----

  predicate RemovedBy(x: Execution) {
    x.intent.Delete? && RemoveUser in x.answered && x.checked.Some? && x.checked.value.closed
  }

  /** A deleted row was deleted by an execution that read a closed account and removed the remote user. */
  ghost predicate DeletedHasCause(s: System) {
    s.row.Some? && s.row.value.status.Deleted? ==> exists k :: k in s.execs && RemovedBy(s.execs[k])
  }

  lemma ExecutionsRemember(s: System, a: Action, k: nat)
    requires Step(s, a).Some? && k in s.execs && RemovedBy(s.execs[k]) && Planned(s)
    ensures k in Step(s, a).value.execs && RemovedBy(Step(s, a).value.execs[k])
  {
    assert CallsOk(s.execs[k]);
    match a {
      case Start(j, request, intent) =>
      case Statement(j, fault, expired, authority) =>
        StatementFits(s, j, fault, expired, authority);
        hide StatementStep;
      case RemoteAnswers(j, id) => hide NextCall;
      case RemoteFails(j, retryable) =>
    }
  }

  lemma StepCause(s: System, a: Action)
    requires Inv(s) && Planned(s) && DeletedHasCause(s) && Step(s, a).Some?
    ensures DeletedHasCause(Step(s, a).value)
  {
    hide NextCall, ReplayRead, AuthorityRead, CurrentRead, Denied, BusyReadBack, LoggedRead;
    var t := Step(s, a).value;
    if s.row.Some? && s.row.value.status.Deleted? {
      var k :| k in s.execs && RemovedBy(s.execs[k]);
      ExecutionsRemember(s, a, k);
    } else if t.row.Some? && t.row.value.status.Deleted? {
      var k := a.runner;
      var x := s.execs[k];
      assert CallsOk(x) && ExecOk(s, x);
      hide Inv, Planned, ExecOk;
      assert x.stage.FinalizeSuccess?;
      assert RemovedBy(t.execs[k]);
    }
  }

  lemma {:induction false} RunCause(s: System, actions: seq<Action>)
    requires Inv(s) && Planned(s) && DeletedHasCause(s) && Run(s, actions).Some?
    ensures DeletedHasCause(Run(s, actions).value)
    decreases |actions|
  {
    hide Inv, Planned, DeletedHasCause, Step;
    if actions != [] {
      StepKeeps(s, actions[0]);
      StepPlanned(s, actions[0]);
      StepCause(s, actions[0]);
      RunCause(Step(s, actions[0]).value, actions[1..]);
    }
  }

  lemma DeletedWasRemoved(actions: seq<Action>)
    requires Run(EMPTY, actions).Some?
    ensures var s := Run(EMPTY, actions).value;
            s.row.Some? && s.row.value.status.Deleted? ==> exists k :: k in s.execs && RemovedBy(s.execs[k])
  {
    RunCause(EMPTY, actions);
    hide Run;
  }

  // ---- What the audit events say ----

  /** An event that is not a denial says `succeeded` exactly when the profile was left in the intent's terminal
      status; a retryable failure left it blocked, and only a deleted profile or a refused authority is denied. */
  predicate EventTrue(e: Event) {
    && (e.outcome.DeniedOutcome? ==> e.toStatus.Deleted? || !e.intent.Disable?)
    && (!e.outcome.DeniedOutcome? ==> (e.outcome.Succeeded? <==> Reached(e.intent, e.toStatus)))
    && (e.outcome.RetryableFailure? ==> e.toStatus.BlockedRetryable?)
    && (e.outcome.Conflict? || e.outcome.InternalFailure? ==> !e.toStatus.Deleted?)
  }

  ghost predicate Tells(x: Execution) {
    && (x.stage.ClaimUpdate? || HoldsPeriod(x.stage) || x.guarded.Yes? ==>
          !Reached(x.intent, x.previous) && !x.previous.Deleted?)
    && (x.stage.DenyUpsert? || x.stage.DenyRead? ==> !x.intent.Disable?)
    && (x.stage.WriteEvent? ==> x.stage.event.intent == x.intent && EventTrue(x.stage.event))
    && (BeforeClaim(x.stage) ==> x.guarded.No?)
  }

  ghost predicate Truthful(s: System) {
    && (forall k :: k in s.execs ==> Tells(s.execs[k]))
    && (forall r :: r in s.events ==> EventTrue(s.events[r]))
  }

  lemma CaughtTells(x: Execution)
    requires Tells(x)
    ensures Tells(Caught(x)) && Tells(At(x, Threw)) && Tells(At(x, ReadBack)) && Tells(At(x, Answered0))
    ensures forall e :: Tells(At(x, Answered(e)))
  {
    hide EventTrue;
  }

  lemma ReadsTell(s: System, x: Execution, authority: Authority)
    requires Tells(x)
    ensures x.stage.ReadReplay? ==> Tells(ReplayRead(s, x))
    ensures x.stage.ReadAuthority? ==> Tells(AuthorityRead(x, authority))
    ensures x.stage.ReadCurrent? ==> Tells(CurrentRead(s, x))
    ensures x.stage.DenyRead? ==> Tells(Denied(s, x))
    ensures Tells(BusyReadBack(s, x)) && Tells(LoggedRead(s, x))
  {
    CaughtTells(x);
    hide Caught;
  }

  /** Only execution `k` moved, and the events still hold. */
  ghost predicate Told(s: System, k: nat, t: System) {
    && k in t.execs && Tells(t.execs[k]) && t.execs == s.execs[k := t.execs[k]]
    && forall r :: r in t.events ==> EventTrue(t.events[r])
  }

  lemma ClaimTells(s: System, k: nat, x: Execution, fault: Fault, expired: bool)
    requires Truthful(s) && Tells(x) && x.stage.ClaimUpdate?
    ensures Told(s, k, ClaimStep(s, k, x, fault, expired))
  {
    CaughtTells(x);
    hide EventTrue, NextCall, ClaimedRow;
  }

  lemma WritesTell(s: System, k: nat, x: Execution, fault: Fault)
    requires Truthful(s) && Tells(x)
    ensures x.stage.FinalizeSuccess? ==> Told(s, k, Successful(s, k, x, fault))
    ensures x.stage.FinalizeFailure? ==> Told(s, k, Failing(s, k, x, x.stage.retryable, fault))
    ensures x.stage.WriteEvent? ==> Told(s, k, Logged(s, k, x, x.stage.event, fault))
  {
    CaughtTells(x);
    hide Caught, Finaled;
  }

  lemma StatementTells(s: System, k: nat, fault: Fault, expired: bool, authority: Authority)
    requires Truthful(s) && k in s.execs && StatementStep(s, k, s.execs[k], fault, expired, authority).Some?
    ensures Told(s, k, StatementStep(s, k, s.execs[k], fault, expired, authority).value)
  {
    var x := s.execs[k];
    assert Tells(x);
    CaughtTells(x);
    ReadsTell(s, x, authority);
    if x.stage.ClaimUpdate? { ClaimTells(s, k, x, fault, expired); }
    WritesTell(s, k, x, fault);
    assert x.stage.DenyUpsert? ==> Tells(At(x, DenyRead));
    assert x.stage.Ensure? ==> Tells(At(x, ReadCurrent));
    hide Tells, Caught, ReplayRead, AuthorityRead, Denied, CurrentRead, BusyReadBack, LoggedRead, ClaimStep, Successful,
      Failing, Logged, Ensured, At, EventTrue;
  }

  lemma StepTells(s: System, a: Action)
    requires Truthful(s) && Step(s, a).Some?
    ensures Truthful(Step(s, a).value)
  {
    match a {
      case Start(k, request, intent) =>
      case Statement(k, fault, expired, authority) =>
        StatementTells(s, k, fault, expired, authority);
        hide Tells, EventTrue, StatementStep;
      case RemoteAnswers(k, id) => hide EventTrue, NextCall;
      case RemoteFails(k, retryable) => hide EventTrue;
    }
  }

  lemma {:induction false} RunTells(s: System, actions: seq<Action>)
    requires Truthful(s) && Run(s, actions).Some?
    ensures Truthful(Run(s, actions).value)
    decreases |actions|
  {
    hide Truthful, Step;
    if actions != [] {
      StepTells(s, actions[0]);
      RunTells(Step(s, actions[0]).value, actions[1..]);
    }
  }

  /** In every run every stored event is true of the profile it was written for. */
  lemma EventsAreTrue(actions: seq<Action>, r: RequestId)
    requires Run(EMPTY, actions).Some?
    ensures var s := Run(EMPTY, actions).value; r in s.events ==> EventTrue(s.events[r])
  {
    RunTells(EMPTY, actions);
    hide Run, EventTrue;
  }
}
