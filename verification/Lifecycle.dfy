/** The research agent lifecycle: one profile row under a lease, idempotent audit events, and a remote
    control plane. Every SQL statement and every remote call is one step; a statement may fail before or
    after its effect, and a lease may have expired at any time. */
module Lifecycle {
  import opened Options
  import opened Outcomes

  type RequestId = nat
  type RemoteId = nat

  datatype Intent = Activate | Disable | Delete

  datatype Status = Active | Disabled | Deleted | Provisioning | DisablePending | DeletePending | BlockedRetryable

  function PendingStatus(i: Intent): Status {
    match i case Activate => Provisioning case Disable => DisablePending case Delete => DeletePending
  }

  function TerminalStatus(i: Intent): Status {
    match i case Activate => Active case Disable => Disabled case Delete => Deleted
  }

  /** The columns the protocol depends on. */
  datatype Profile = Profile(
    desired: Intent, status: Status, user: Option<RemoteId>, agent: Option<RemoteId>,
    owner: Option<RequestId>, attempts: nat, version: nat)

  datatype Outcome = Succeeded | DeniedOutcome | Conflict | RetryableFailure | InternalFailure

  datatype Event = Event(intent: Intent, outcome: Outcome, toStatus: Status, user: Option<RemoteId>,
                         agent: Option<RemoteId>)

  datatype RemoteCall = SetActive | ProvisionUser | ProvisionAgent | SetDisabled | RemoveUser

  /** What an execution awaits, or how it ended. */
  datatype Stage =
    | ReadReplay
    | ReadAuthority
    | DenyUpsert
    | DenyRead
    | Ensure
    | ReadCurrent
    | ClaimUpdate
    | BusyRead
    | Remote(call: RemoteCall)
    | FinalizeSuccess
    | FinalizeFailure(retryable: Flag)
    | WriteEvent(event: Event)
    | ReadBack
    | Answered(stored: Event)  // the result is made from this stored event
    | Answered0                // a result without an event: no account or workspace, mismatch, in progress
    | Threw

  datatype Execution = Execution(
    request: RequestId,
    intent: Intent,
    stage: Stage,
    previous: Status,            // the status read before the claim
    claimedUser: Option<RemoteId>, claimedAgent: Option<RemoteId>,  // as returned by the claim
    user: Option<RemoteId>, agent: Option<RemoteId>,                // reconcileRemote's variables
    guarded: Flag,               // inside the try block of `execute`
    fromRemote: Flag,            // the failure is a remote one
    period: nat,                 // history: the ownership period its claim began
    gotUser: Option<RemoteId>, gotAgent: Option<RemoteId>,          // history: ids it obtained
    readVersion: nat,            // history: the row's version when `previous` was read
    replaced: Status,            // history: the status its claim replaced
    undisturbed: Flag,           // history: the version was still the same at the claim
    checked: Option<Authority>,  // history: the authority it read
    answered: seq<RemoteCall>)   // history: the remote calls that worked, in order

  /** An ownership period: who claimed it, and how many finalizations took effect in it. */
  datatype Period = Period(holder: RequestId, finals: nat)

  datatype System = System(
    row: Option<Profile>,
    events: map<RequestId, Event>,   // unique per profile and request
    execs: map<nat, Execution>,
    periods: seq<Period>)            // history

  /** What readAuthority finds: the entitlement to activate, and whether the account is closed. */
  datatype Authority = Authority(accountExists: bool, workspaceExists: bool, mayActivate: bool, closed: bool)

  datatype Denial = AccountMissing | WorkspaceMissing | EntitlementDenied | AccountNotClosed

  function DenialOf(i: Intent, a: Authority): Option<Denial> {
    if !a.accountExists then Some(AccountMissing)
    else if !a.workspaceExists then Some(WorkspaceMissing)
    else if i.Activate? && !a.mayActivate then Some(EntitlementDenied)
    else if i.Delete? && !a.closed then Some(AccountNotClosed)
    else None
  }

  datatype Action =
    | Start(k: nat, request: RequestId, intent: Intent)
    | Statement(runner: nat, fault: Fault, expired: bool, authority: Authority)
    | RemoteAnswers(caller: nat, id: RemoteId)
    | RemoteFails(loser: nat, retryable: Flag)

  function Begin(request: RequestId, intent: Intent): Execution {
    Execution(request, intent, ReadReplay, Disabled, None, None, None, None, No, No, 0, None, None, 0, Disabled, No,
              None, [])
  }

  function At(x: Execution, stage: Stage): Execution { x.(stage := stage) }

  /** A statement threw: inside the try block the failure is finalized with what the claim returned. */
  function Caught(x: Execution): Execution {
    if x.guarded.No? then At(x, Threw)
    else x.(stage := FinalizeFailure(No), guarded := No, fromRemote := No, user := x.claimedUser,
            agent := x.claimedAgent)
  }

  // ---- Before the claim ----

  function ReplayRead(s: System, x: Execution): Execution {
    if x.request !in s.events then At(x, ReadAuthority)
    else if s.events[x.request].intent != x.intent then At(x, Answered0)
    else At(x, Answered(s.events[x.request]))
  }

  function AuthorityRead(x: Execution, authority: Authority): Execution {
    var denial := DenialOf(x.intent, authority);
    x.(stage := if denial.None? then Ensure
                else if denial.value.AccountMissing? || denial.value.WorkspaceMissing? then Answered0
                else DenyUpsert,
       checked := Some(authority))
  }

  const NEW_PROFILE := Profile(Disable, Disabled, None, None, None, 0, 0)

  /** Insert on conflict do nothing; the denied upsert touches only audit columns of an existing row. */
  function Ensured(row: Option<Profile>): Option<Profile> { if row.Some? then row else Some(NEW_PROFILE) }

  function EventOf(x: Execution, p: Profile, outcome: Outcome): Event {
    Event(x.intent, outcome, p.status, p.user, p.agent)
  }

  function Denied(s: System, x: Execution): Execution {
    if s.row.None? then At(x, Threw)
    else At(x, WriteEvent(Event(x.intent, DeniedOutcome, s.row.value.status, None, None)))
  }

  function CurrentRead(s: System, x: Execution): Execution {
    if s.row.None? then At(x, Threw)
    else if s.row.value.status == TerminalStatus(x.intent) then At(x, WriteEvent(EventOf(x, s.row.value, Succeeded)))
    else if s.row.value.status.Deleted? then At(x, WriteEvent(EventOf(x, s.row.value, DeniedOutcome)))
    else x.(stage := ClaimUpdate, previous := s.row.value.status, readVersion := s.row.value.version)
  }

  function BusyReadBack(s: System, x: Execution): Execution {
    if s.row.None? then At(x, Threw)
    else if s.row.value.status == TerminalStatus(x.intent) then At(x, WriteEvent(EventOf(x, s.row.value, Succeeded)))
    else if s.row.value.status.Deleted? then At(x, WriteEvent(EventOf(x, s.row.value, DeniedOutcome)))
    else if s.row.value.owner == Some(x.request) then At(x, Answered0)
    else At(x, WriteEvent(EventOf(x, s.row.value, Conflict)))
  }

  // ---- The claim ----

  predicate Claimable(row: Option<Profile>, expired: bool) {
    row.Some? && !row.value.status.Deleted? && (row.value.owner.None? || expired)
  }

  function ClaimedRow(p: Profile, x: Execution): Profile {
    p.(desired := x.intent, status := PendingStatus(x.intent), owner := Some(x.request),
       attempts := p.attempts + 1, version := p.version + 1)
  }

  /** The remote call to make next, given the last one that worked. */
  function NextCall(i: Intent, user: Option<RemoteId>, agent: Option<RemoteId>,
                    done: Option<RemoteCall>): Option<RemoteCall> {
    match i
    case Activate =>
      if done.None? then Some(if user.Some? then SetActive else ProvisionUser)
      else if done.value != ProvisionAgent && agent.None? then Some(ProvisionAgent) else None
    case Disable =>
      if done.None? && user.None? then Some(ProvisionUser)
      else if done.None? || done.value.ProvisionUser? then Some(SetDisabled) else None
    case Delete =>
      if done.None? && user.None? then Some(ProvisionUser)
      else if done.None? || done.value.ProvisionUser? then Some(RemoveUser) else None
  }

  function Proceed(x: Execution, done: Option<RemoteCall>): Execution {
    var next := NextCall(x.intent, x.user, x.agent, done);
    At(x, if next.Some? then Remote(next.value) else FinalizeSuccess)
  }

  function WithClaim(x: Execution, p: Profile, period: nat): Execution {
    x.(claimedUser := p.user, claimedAgent := p.agent, user := p.user, agent := p.agent, guarded := Yes,
       period := period, replaced := p.status, undisturbed := Of(p.version == x.readVersion))
  }

  function ClaimedBy(x: Execution, p: Profile, period: nat): Execution {
    Proceed(WithClaim(x, p, period), None)
  }

  function Claimed(s: System, k: nat, x: Execution, fault: Fault): System
    requires s.row.Some?
  {
    s.(row := Some(ClaimedRow(s.row.value, x)),
       periods := s.periods + [Period(x.request, 0)],
       execs := s.execs[k := if fault.Works? then ClaimedBy(x, s.row.value, |s.periods|) else At(x, Threw)])
  }

  // ---- Finalization ----

  predicate Owned(row: Option<Profile>, x: Execution) { row.Some? && row.value.owner == Some(x.request) }

  function SuccessRow(p: Profile, x: Execution): Profile {
    p.(status := TerminalStatus(x.intent), owner := None, version := p.version + 1,
       user := if x.intent.Delete? then None else x.user, agent := if x.intent.Delete? then None else x.agent)
  }

  function FailureRow(p: Profile, x: Execution, retryable: Flag): Profile {
    p.(status := if retryable.Yes? then BlockedRetryable else x.previous, owner := None, version := p.version + 1,
       user := if x.user.Some? then x.user else p.user, agent := if x.agent.Some? then x.agent else p.agent)
  }

  /** One more finalization in the current period. */
  function Finaled(periods: seq<Period>): seq<Period> {
    if periods == [] then []
    else periods[|periods| - 1 := periods[|periods| - 1].(finals := periods[|periods| - 1].finals + 1)]
  }

  function Finalized(s: System, k: nat, row: Profile, x: Execution): System {
    s.(row := Some(row), periods := Finaled(s.periods), execs := s.execs[k := x])
  }

  /** finalizeSuccess's update: no matching row throws into the catch block, like a failed statement. */
  function Successful(s: System, k: nat, x: Execution, fault: Fault): System {
    if fault.FailsBefore? || !Owned(s.row, x) then s.(execs := s.execs[k := Caught(x)])
    else
      var row := SuccessRow(s.row.value, x);
      var written := At(x, WriteEvent(Event(x.intent, Succeeded, row.status, row.user, row.agent)));
      Finalized(s, k, row, if fault.Works? then written else Caught(x))
  }

  function Failing(s: System, k: nat, x: Execution, retryable: Flag, fault: Fault): System {
    if fault.FailsBefore? || !Owned(s.row, x) then s.(execs := s.execs[k := At(x, Threw)])
    else
      var row := FailureRow(s.row.value, x, retryable);
      var outcome := if retryable.Yes? then RetryableFailure else InternalFailure;
      var written := At(x, WriteEvent(Event(x.intent, outcome, row.status, x.user, x.agent)));
      Finalized(s, k, row, if fault.Works? then written else At(x, Threw))
  }

  // ---- Audit events ----

  /** Insert on conflict do nothing. */
  function Logged(s: System, k: nat, x: Execution, event: Event, fault: Fault): System {
    s.(events := if fault.FailsBefore? || x.request in s.events then s.events else s.events[x.request := event],
       execs := s.execs[k := if fault.Works? then At(x, ReadBack) else Caught(x)])
  }

  function LoggedRead(s: System, x: Execution): Execution {
    if x.request in s.events then At(x, Answered(s.events[x.request])) else Caught(x)
  }

  // ---- Steps ----

  /** A statement that only reads; a failure throws. */
  function Read(s: System, k: nat, x: Execution, y: Execution, fault: Fault): System {
    s.(execs := s.execs[k := if fault.Works? then y else Caught(x)])
  }

  /** A statement that may create the row. */
  function Upserted(s: System, k: nat, x: Execution, next: Stage, fault: Fault): System {
    s.(row := if fault.FailsBefore? then s.row else Ensured(s.row),
       execs := s.execs[k := At(x, if fault.Works? then next else Threw)])
  }

  function ClaimStep(s: System, k: nat, x: Execution, fault: Fault, expired: bool): System {
    if fault.FailsBefore? || !Claimable(s.row, expired)
    then s.(execs := s.execs[k := At(x, if fault.Works? then BusyRead else Threw)])
    else Claimed(s, k, x, fault)
  }

  function StatementStep(s: System, k: nat, x: Execution, fault: Fault, expired: bool,
                         authority: Authority): Option<System> {
    match x.stage
    case ReadReplay => Some(Read(s, k, x, ReplayRead(s, x), fault))
    case ReadAuthority => Some(Read(s, k, x, AuthorityRead(x, authority), fault))
    case DenyUpsert => Some(Upserted(s, k, x, DenyRead, fault))
    case DenyRead => Some(Read(s, k, x, Denied(s, x), fault))
    case Ensure => Some(Upserted(s, k, x, ReadCurrent, fault))
    case ReadCurrent => Some(Read(s, k, x, CurrentRead(s, x), fault))
    case ClaimUpdate => Some(ClaimStep(s, k, x, fault, expired))
    case BusyRead => Some(Read(s, k, x, BusyReadBack(s, x), fault))
    case FinalizeSuccess => Some(Successful(s, k, x, fault))
    case FinalizeFailure(retryable) => Some(Failing(s, k, x, retryable, fault))
    case WriteEvent(event) => Some(Logged(s, k, x, event, fault))
    case ReadBack => Some(Read(s, k, x, LoggedRead(s, x), fault))
    case _ => None
  }

  function Obtained(x: Execution, id: RemoteId): Execution
    requires x.stage.Remote?
  {
    x.(user := if x.stage.call.ProvisionUser? then Some(id) else x.user,
       gotUser := if x.stage.call.ProvisionUser? then Some(id) else x.gotUser,
       agent := if x.stage.call.ProvisionAgent? then Some(id) else x.agent,
       gotAgent := if x.stage.call.ProvisionAgent? then Some(id) else x.gotAgent,
       answered := x.answered + [x.stage.call])
  }

  function Step(s: System, a: Action): Option<System> {
    match a
    case Start(k, request, intent) =>
      if k in s.execs then None else Some(s.(execs := s.execs[k := Begin(request, intent)]))
    case Statement(k, fault, expired, authority) =>
      if k in s.execs then StatementStep(s, k, s.execs[k], fault, expired, authority) else None
    case RemoteAnswers(k, id) =>
      if k in s.execs && s.execs[k].stage.Remote?
      then Some(s.(execs := s.execs[k := Proceed(Obtained(s.execs[k], id), Some(s.execs[k].stage.call))])) else None
    case RemoteFails(k, retryable) =>
      if k in s.execs && s.execs[k].stage.Remote?
      then Some(s.(execs := s.execs[k := s.execs[k].(stage := FinalizeFailure(retryable), guarded := No,
                                                     fromRemote := Yes)]))
      else None
  }

  function Run(s: System, actions: seq<Action>): Option<System>
    decreases |actions|
  {
    if actions == [] then Some(s)
    else var next := Step(s, actions[0]);
         if next.None? then None else Run(next.value, actions[1..])
  }

  const EMPTY := System(None, map[], map[], [])

  /** An open account that may activate. */
  const GRANTED := Authority(true, true, true, false)

  // ---- What every run keeps ----

  function Finals(periods: seq<Period>): nat {
    if periods == [] then 0 else Finals(periods[..|periods| - 1]) + periods[|periods| - 1].finals
  }

  /** The row against the history of its ownership. */
  ghost predicate RowOk(row: Option<Profile>, periods: seq<Period>) {
    && (forall i :: 0 <= i < |periods| ==> periods[i].finals <= 1)
    && (row.None? ==> periods == [])
    && (row.Some? ==>
          && row.value.version == |periods| + Finals(periods)
          && (row.value.status.Deleted? ==> row.value.owner.None?)
          && (row.value.owner.Some? ==>
                periods != [] && periods[|periods| - 1] == Period(row.value.owner.value, 0)))
  }

  predicate HoldsPeriod(stage: Stage) { stage.Remote? || stage.FinalizeSuccess? || stage.FinalizeFailure? }

  /** Stages before the claim that may lead to it. */
  predicate BeforeClaim(stage: Stage) {
    stage.ReadReplay? || stage.ReadAuthority? || stage.Ensure? || stage.ReadCurrent? || stage.ClaimUpdate?
  }

  /** Its claim began the period at which the execution still is, in front of or behind the remote. */
  predicate HasClaim(x: Execution) { HoldsPeriod(x.stage) || x.guarded.Yes? }

  ghost predicate ExecOk(s: System, x: Execution) {
    && !x.previous.Deleted?
    && (BeforeClaim(x.stage) ==> x.gotUser.None? && x.gotAgent.None?)
    && (HasClaim(x) ==> x.period < |s.periods| && s.periods[x.period].holder == x.request && InCurrentPeriod(s, x))
    && (x.stage.Remote? || x.stage.FinalizeSuccess? ==> x.guarded.Yes?)
    && (x.guarded.Yes? ==>
          x.stage.Remote? || x.stage.FinalizeSuccess? || x.stage.WriteEvent? || x.stage.ReadBack? || x.stage.Answered?)
    && (x.stage.Answered? ==> x.request in s.events && s.events[x.request] == x.stage.stored)
    && IdsOk(x)
    && ReadOk(s, x)
  }

  /** What is known of the status read before the claim: it is the row's while the version is the same. */
  ghost predicate ReadOk(s: System, x: Execution) {
    && (x.stage.ClaimUpdate? ==>
          && s.row.Some? && x.readVersion <= s.row.value.version
          && (x.readVersion == s.row.value.version ==> x.previous == s.row.value.status))
    && (HasClaim(x) && x.undisturbed.Yes? ==> x.replaced == x.previous)
  }

  /** Until the period it claimed is finalized, the row has the ids the claim returned. */
  ghost predicate InCurrentPeriod(s: System, x: Execution) {
    s.periods != [] && x.period == |s.periods| - 1 && s.periods[|s.periods| - 1].finals == 0 ==>
      s.row.Some? && s.row.value.user == x.claimedUser && s.row.value.agent == x.claimedAgent
  }

  /** Where an execution's ids come from: an id is obtained only if the claim returned none. */
  predicate IdsOk(x: Execution) {
    && (x.gotUser.Some? ==> x.claimedUser.None?) && (x.gotAgent.Some? ==> x.claimedAgent.None?)
    && (x.stage.Remote? && x.stage.call.ProvisionUser? ==> x.user.None?)
    && (x.stage.Remote? && x.stage.call.ProvisionAgent? ==> x.agent.None?)
    && (x.stage.Remote? || x.stage.FinalizeSuccess? || (x.stage.FinalizeFailure? && x.fromRemote.Yes?) ==> Keeps(x))
    && (x.stage.FinalizeFailure? && x.fromRemote.No? ==> x.user == x.claimedUser && x.agent == x.claimedAgent)
  }

  /** The ids it will store are those it obtained, or else those the claim returned. */
  predicate Keeps(x: Execution) {
    && x.user == (if x.gotUser.Some? then x.gotUser else x.claimedUser)
    && x.agent == (if x.gotAgent.Some? then x.gotAgent else x.claimedAgent)
  }

  ghost predicate Inv(s: System) {
    RowOk(s.row, s.periods) && forall k :: k in s.execs ==> ExecOk(s, s.execs[k])
  }

  /** `t` is a later state than `s`. */
  ghost predicate Evolves(s: System, t: System) {
    && (s.row.Some? ==> t.row.Some? && s.row.value.version <= t.row.value.version)
    && (s.row.Some? && t.row.Some? && s.row.value.version == t.row.value.version ==> t.row == s.row)
    && (s.row.Some? && s.row.value.status.Deleted? ==> t.row == s.row)
    && (forall r :: r in s.events ==> r in t.events && t.events[r] == s.events[r])
    && |s.periods| <= |t.periods|
    && (forall i :: 0 <= i < |s.periods| ==>
          t.periods[i].holder == s.periods[i].holder && s.periods[i].finals <= t.periods[i].finals)
    && (|t.periods| == |s.periods| > 0 && t.periods[|t.periods| - 1].finals == 0 ==> SameIds(s.row, t.row))
  }

  predicate SameIds(a: Option<Profile>, b: Option<Profile>) {
    a.Some? ==> b.Some? && b.value.user == a.value.user && b.value.agent == a.value.agent
  }

  // ---- One statement at a time ----

  lemma ExecChanged(s: System, k: nat, y: Execution)
    requires Inv(s) && ExecOk(s, y)
    ensures Inv(s.(execs := s.execs[k := y])) && Evolves(s, s.(execs := s.execs[k := y]))
  {
    hide RowOk, HoldsPeriod, Keeps;
    var t := s.(execs := s.execs[k := y]);
    forall j | j in t.execs ensures ExecOk(t, t.execs[j]) {
      assert j != k ==> ExecOk(s, s.execs[j]);
    }
  }

  /** Executions stay valid when events and periods only grow. */
  lemma ExecsKept(s: System, t: System, k: nat)
    requires Inv(s) && Evolves(s, t) && RowOk(t.row, t.periods) && k in t.execs && ExecOk(t, t.execs[k])
    requires t.execs == s.execs[k := t.execs[k]]
    ensures Inv(t)
  {
    hide RowOk, Keeps, HoldsPeriod;
    forall j | j in t.execs ensures ExecOk(t, t.execs[j]) {
      if j != k { assert ExecOk(s, s.execs[j]); }
    }
  }

  lemma CaughtOk(s: System, x: Execution)
    requires ExecOk(s, x)
    ensures ExecOk(s, Caught(x))
  {
  }

  /** Reads, and what follows them before and after the claim. */
  lemma ReadsOk(s: System, x: Execution, authority: Authority)
    requires ExecOk(s, x)
    ensures BeforeClaim(x.stage) ==>
              ExecOk(s, ReplayRead(s, x)) && ExecOk(s, AuthorityRead(x, authority)) && ExecOk(s, CurrentRead(s, x))
    ensures x.guarded.No? ==> ExecOk(s, Denied(s, x)) && ExecOk(s, BusyReadBack(s, x))
    ensures ExecOk(s, LoggedRead(s, x))
  {
    CaughtOk(s, x);
    hide Keeps;
  }

  lemma FinaledFinals(periods: seq<Period>)
    requires periods != []
    ensures Finals(Finaled(periods)) == Finals(periods) + 1
  {
    assert Finaled(periods)[..|periods| - 1] == periods[..|periods| - 1];
  }

  lemma FinalsAppend(periods: seq<Period>, p: Period)
    ensures Finals(periods + [p]) == Finals(periods) + p.finals
  {
    assert (periods + [p])[..|periods|] == periods;
  }

  /** The claim begins a period and raises the version. */
  lemma ClaimRow(row: Option<Profile>, periods: seq<Period>, x: Execution)
    requires RowOk(row, periods) && row.Some? && !row.value.status.Deleted?
    ensures RowOk(Some(ClaimedRow(row.value, x)), periods + [Period(x.request, 0)])
  {
    FinalsAppend(periods, Period(x.request, 0));
  }

  /** A finalization that takes effect is the first of the current period, ends it and raises the version. */
  lemma FinalRow(row: Option<Profile>, periods: seq<Period>, x: Execution, next: Profile)
    requires RowOk(row, periods) && Owned(row, x)
    requires next.owner.None? && next.version == row.value.version + 1
    ensures periods != [] && periods[|periods| - 1] == Period(x.request, 0) && !row.value.status.Deleted?
    ensures RowOk(Some(next), Finaled(periods))
  {
    FinaledFinals(periods);
  }

  lemma ProceedOk(s: System, x: Execution, done: Option<RemoteCall>)
    requires ExecOk(s, x.(stage := FinalizeSuccess))
    ensures ExecOk(s, Proceed(x, done))
  {
    NextProvisions(x, done);
    hide NextCall;
  }

  /** A user or an agent is provisioned only when there is none yet. */
  lemma NextProvisions(x: Execution, done: Option<RemoteCall>)
    ensures var next := NextCall(x.intent, x.user, x.agent, done);
            && (next == Some(ProvisionUser) ==> x.user.None?)
            && (next == Some(ProvisionAgent) ==> x.agent.None?)
  {
  }

  lemma ClaimKeeps(s: System, k: nat, fault: Fault, expired: bool)
    requires Inv(s) && k in s.execs && s.execs[k].stage.ClaimUpdate?
    ensures var t := ClaimStep(s, k, s.execs[k], fault, expired); Inv(t) && Evolves(s, t)
  {
    var x := s.execs[k];
    assert ExecOk(s, x);
    if fault.FailsBefore? || !Claimable(s.row, expired) {
      ExecChanged(s, k, At(x, if fault.Works? then BusyRead else Threw));
    } else {
      ClaimRow(s.row, s.periods, x);
      var t := Claimed(s, k, x, fault);
      assert Evolves(s, t) by { hide RowOk, ExecOk, ClaimedBy; }
      hide RowOk;
      assert ExecOk(t, At(x, Threw));
      ClaimedOk(s, t, x, s.row.value);
      hide Evolves, ExecOk, Proceed;
      ExecsKept(s, t, k);
    }
  }

  /** Before the claim nothing was obtained from the remote. */
  lemma ClaimedOk(s: System, t: System, x: Execution, p: Profile)
    requires ExecOk(s, x) && x.stage.ClaimUpdate?
    requires t.periods == s.periods + [Period(x.request, 0)]
    requires s.row == Some(p) && t.row.Some? && t.row.value.user == p.user && t.row.value.agent == p.agent
    ensures ExecOk(t, ClaimedBy(x, p, |s.periods|))
  {
    ProceedOk(t, WithClaim(x, p, |s.periods|), None);
  }

  lemma UpsertKeeps(s: System, k: nat, next: Stage, fault: Fault)
    requires Inv(s) && k in s.execs && (next.DenyRead? || (next.ReadCurrent? && s.execs[k].stage.Ensure?))
    requires s.execs[k].guarded.No?
    ensures var t := Upserted(s, k, s.execs[k], next, fault); Inv(t) && Evolves(s, t)
  {
    var x := s.execs[k];
    assert ExecOk(s, x);
    var t := Upserted(s, k, x, next, fault);
    assert Evolves(s, t) && RowOk(t.row, t.periods) && ExecOk(t, t.execs[k]);
    hide Evolves, RowOk, ExecOk;
    ExecsKept(s, t, k);
  }

  /** `row` replaced by a finalization of `k`, which goes on as `y`. */
  lemma FinalKeeps(s: System, k: nat, next: Profile, y: Execution)
    requires Inv(s) && k in s.execs && Owned(s.row, s.execs[k])
    requires next.owner.None? && next.version == s.row.value.version + 1
    requires ExecOk(s, y)
    ensures var t := Finalized(s, k, next, y); Inv(t) && Evolves(s, t)
  {
    FinalRow(s.row, s.periods, s.execs[k], next);
    var t := Finalized(s, k, next, y);
    hide RowOk, Owned;
    assert ExecOk(t, y) && Evolves(s, t);
    hide Evolves, ExecOk;
    ExecsKept(s, t, k);
  }

  lemma SuccessKeeps(s: System, k: nat, fault: Fault)
    requires Inv(s) && k in s.execs && s.execs[k].stage.FinalizeSuccess?
    ensures var t := Successful(s, k, s.execs[k], fault); Inv(t) && Evolves(s, t)
  {
    var x := s.execs[k];
    assert ExecOk(s, x);
    CaughtOk(s, x);
    if fault.FailsBefore? || !Owned(s.row, x) {
      ExecChanged(s, k, Caught(x));
    } else {
      var row := SuccessRow(s.row.value, x);
      var written := At(x, WriteEvent(Event(x.intent, Succeeded, row.status, row.user, row.agent)));
      assert ExecOk(s, written);
      hide Inv, ExecOk, Evolves, Caught;
      FinalKeeps(s, k, row, if fault.Works? then written else Caught(x));
    }
  }

  lemma FailureKeeps(s: System, k: nat, retryable: Flag, fault: Fault)
    requires Inv(s) && k in s.execs && s.execs[k].stage == FinalizeFailure(retryable)
    ensures var t := Failing(s, k, s.execs[k], retryable, fault); Inv(t) && Evolves(s, t)
  {
    var x := s.execs[k];
    assert ExecOk(s, x);
    assert ExecOk(s, At(x, Threw));
    if fault.FailsBefore? || !Owned(s.row, x) {
      ExecChanged(s, k, At(x, Threw));
    } else {
      var row := FailureRow(s.row.value, x, retryable);
      var outcome := if retryable.Yes? then RetryableFailure else InternalFailure;
      var written := At(x, WriteEvent(Event(x.intent, outcome, row.status, x.user, x.agent)));
      assert ExecOk(s, written);
      hide Inv, ExecOk, Evolves;
      FinalKeeps(s, k, row, if fault.Works? then written else At(x, Threw));
    }
  }

  lemma LoggedKeeps(s: System, k: nat, event: Event, fault: Fault)
    requires Inv(s) && k in s.execs && s.execs[k].stage == WriteEvent(event)
    ensures var t := Logged(s, k, s.execs[k], event, fault); Inv(t) && Evolves(s, t)
  {
    hide Caught, RowOk;
    var x := s.execs[k];
    assert ExecOk(s, x);
    CaughtOk(s, x);
    var t := Logged(s, k, x, event, fault);
    assert Evolves(s, t) && ExecOk(t, t.execs[k]);
    hide Evolves, ExecOk;
    ExecsKept(s, t, k);
  }

  lemma StatementKeeps(s: System, k: nat, fault: Fault, expired: bool, authority: Authority)
    requires Inv(s) && k in s.execs && StatementStep(s, k, s.execs[k], fault, expired, authority).Some?
    ensures var t := StatementStep(s, k, s.execs[k], fault, expired, authority).value; Inv(t) && Evolves(s, t)
  {
    var x := s.execs[k];
    assert ExecOk(s, x);
    assert BeforeClaim(x.stage) || x.stage.DenyUpsert? || x.stage.DenyRead? || x.stage.BusyRead? ==> x.guarded.No?;
    ReadsOk(s, x, authority);
    CaughtOk(s, x);
    hide Inv, Evolves, ExecOk, Caught, ReplayRead, AuthorityRead, Denied, CurrentRead, BusyReadBack, LoggedRead,
         ClaimStep, Successful, Failing, Logged, Upserted;
    match x.stage {
      case DenyUpsert => UpsertKeeps(s, k, DenyRead, fault);
      case Ensure => UpsertKeeps(s, k, ReadCurrent, fault);
      case ClaimUpdate => ClaimKeeps(s, k, fault, expired);
      case FinalizeSuccess => SuccessKeeps(s, k, fault);
      case FinalizeFailure(retryable) => FailureKeeps(s, k, retryable, fault);
      case WriteEvent(event) => LoggedKeeps(s, k, event, fault);
      case ReadReplay => ExecChanged(s, k, if fault.Works? then ReplayRead(s, x) else Caught(x));
      case ReadAuthority => ExecChanged(s, k, if fault.Works? then AuthorityRead(x, authority) else Caught(x));
      case DenyRead => ExecChanged(s, k, if fault.Works? then Denied(s, x) else Caught(x));
      case ReadCurrent => ExecChanged(s, k, if fault.Works? then CurrentRead(s, x) else Caught(x));
      case BusyRead => ExecChanged(s, k, if fault.Works? then BusyReadBack(s, x) else Caught(x));
      case ReadBack => ExecChanged(s, k, if fault.Works? then LoggedRead(s, x) else Caught(x));
      case _ =>
    }
  }

  lemma RemoteKeeps(s: System, k: nat, id: RemoteId, retryable: Flag)
    requires Inv(s) && k in s.execs && s.execs[k].stage.Remote?
    ensures var t := Step(s, RemoteAnswers(k, id)).value; Inv(t) && Evolves(s, t)
    ensures var t := Step(s, RemoteFails(k, retryable)).value; Inv(t) && Evolves(s, t)
  {
    var x := s.execs[k];
    assert ExecOk(s, x);
    ProceedOk(s, Obtained(x, id), Some(x.stage.call));
    var y := x.(stage := FinalizeFailure(retryable), guarded := No, fromRemote := Yes);
    assert ExecOk(s, y);
    hide Inv, Evolves, ExecOk, Proceed, Obtained;
    ExecChanged(s, k, Proceed(Obtained(x, id), Some(x.stage.call)));
    ExecChanged(s, k, y);
  }

  lemma StepKeeps(s: System, a: Action)
    requires Inv(s) && Step(s, a).Some?
    ensures Inv(Step(s, a).value) && Evolves(s, Step(s, a).value)
  {
    match a {
      case Start(k, request, intent) =>
        assert ExecOk(s, Begin(request, intent));
        hide Inv, Evolves, ExecOk;
        ExecChanged(s, k, Begin(request, intent));
      case Statement(k, fault, expired, authority) =>
        hide Inv, Evolves, StatementStep;
        StatementKeeps(s, k, fault, expired, authority);
      case RemoteAnswers(k, id) =>
        hide Inv, Evolves;
        RemoteKeeps(s, k, id, No);
      case RemoteFails(k, retryable) =>
        hide Inv, Evolves;
        RemoteKeeps(s, k, 0, retryable);
    }
  }

  lemma EvolvesTransitive(s: System, t: System, u: System)
    requires Evolves(s, t) && Evolves(t, u)
    ensures Evolves(s, u)
  {
  }

  lemma EvolvesReflexive(s: System)
    ensures Evolves(s, s)
  {
  }

  /** Over every run: deleted is absorbing, versions and ownership periods only grow, a stored event never
      changes, and the row agrees with the history of its ownership. */
  lemma {:induction false} RunKeeps(s: System, actions: seq<Action>)
    requires Inv(s) && Run(s, actions).Some?
    ensures Inv(Run(s, actions).value) && Evolves(s, Run(s, actions).value)
    decreases |actions|
  {
    hide Inv, Evolves, Step;
    if actions == [] {
      EvolvesReflexive(s);
    } else {
      StepKeeps(s, actions[0]);
      RunKeeps(Step(s, actions[0]).value, actions[1..]);
      EvolvesTransitive(s, Step(s, actions[0]).value, Run(s, actions).value);
    }
  }

  // ---- Fencing, versions, replays and remote ids ----

  lemma Reachable(actions: seq<Action>)
    requires Run(EMPTY, actions).Some?
    ensures Inv(Run(EMPTY, actions).value)
  {
    RunKeeps(EMPTY, actions);
  }

  /** Each ownership period ends in at most one finalization, and the version counts claims and finalizations. */
  lemma OwnershipHistory(actions: seq<Action>)
    requires Run(EMPTY, actions).Some?
    ensures var s := Run(EMPTY, actions).value;
            && (forall i :: 0 <= i < |s.periods| ==> s.periods[i].finals <= 1)
            && (s.row.Some? ==> s.row.value.version == |s.periods| + Finals(s.periods))
            && (s.row.Some? && s.row.value.owner.Some? ==>
                  s.periods != [] && s.periods[|s.periods| - 1] == Period(s.row.value.owner.value, 0))
  {
    Reachable(actions);
    hide Run;
  }

  /** A step that claims or finalizes strictly raises the version; any other step leaves the row alone,
      except that it may create it. */
  lemma VersionGrows(s: System, a: Action)
    requires Inv(s) && Step(s, a).Some?
    ensures var t := Step(s, a).value;
            if t.periods == s.periods then s.row.Some? ==> t.row == s.row
            else s.row.Some? && t.row.Some? && s.row.value.version < t.row.value.version
  {
    hide ExecOk, Proceed, Obtained, Caught, ReplayRead, AuthorityRead, Denied, CurrentRead, BusyReadBack, LoggedRead,
      ClaimedBy;
    match a {
      case Statement(k, fault, expired, authority) =>
        var x := s.execs[k];
        if Owned(s.row, x) {
          assert s.periods != [];
          assert Finaled(s.periods)[|s.periods| - 1].finals != s.periods[|s.periods| - 1].finals;
        }
        hide Finaled;
      case _ =>
    }
  }

  /** Fencing: while the lease is another request's and has not expired, a request changes nothing of the row. */
  lemma FencedOut(s: System, k: nat, fault: Fault, authority: Authority)
    requires k in s.execs && s.row.Some? && s.row.value.owner.Some? && s.row.value.owner != Some(s.execs[k].request)
    ensures var t := Step(s, Statement(k, fault, false, authority)); t.Some? ==> t.value.row == s.row
  {
    hide Proceed, Caught, ReplayRead, AuthorityRead, Denied, CurrentRead, BusyReadBack, LoggedRead, ClaimedBy;
  }

  /** `k` claimed, another request has claimed since, and its own request has not claimed again. */
  ghost predicate Fenced(s: System, k: nat) {
    && k in s.execs && (HoldsPeriod(s.execs[k].stage) || s.execs[k].stage.Threw?)
    && s.execs[k].period < |s.periods| - 1
    && NotClaimedSince(s, s.execs[k].period, s.execs[k].request)
  }

  ghost predicate NotClaimedSince(s: System, period: nat, request: RequestId) {
    forall i :: period < i < |s.periods| ==> s.periods[i].holder != request
  }

  /** A fenced execution's own steps change neither the row nor the events nor the ownership, whether or not
      the lease that replaced its own has ended or expired. */
  lemma FencedStep(s: System, k: nat, a: Action)
    requires Inv(s) && Fenced(s, k) && Step(s, a).Some?
    requires a.Start? || (a.Statement? && a.runner == k) || (a.RemoteAnswers? && a.caller == k)
             || (a.RemoteFails? && a.loser == k)
    ensures var t := Step(s, a).value; t.row == s.row && t.events == s.events && t.periods == s.periods && Fenced(t, k)
  {
    var x := s.execs[k];
    assert x.stage.FinalizeSuccess? || x.stage.FinalizeFailure? ==> !Owned(s.row, x);
    hide Inv, Obtained, NextCall;
  }

  /** Other executions cannot unfence it, unless its own request claims again. */
  lemma FencedByOthers(s: System, k: nat, a: Action)
    requires Inv(s) && Fenced(s, k) && Step(s, a).Some?
    requires NotClaimedSince(Step(s, a).value, s.execs[k].period, s.execs[k].request)
    ensures Fenced(Step(s, a).value, k)
    ensures Step(s, a).value.execs[k].period == s.execs[k].period
    ensures Step(s, a).value.execs[k].request == s.execs[k].request
  {
    StepKeeps(s, a);
    match a {
      case Start(j, request, intent) =>
        hide Inv;
      case Statement(j, fault, expired, authority) =>
        if j == k { FencedStep(s, k, a); StatementKeepsClaim(s, k, fault, expired, authority); }
        else { OthersKept(s, k, a); }
        hide Inv, StatementStep;
      case RemoteAnswers(j, id) =>
        if j == k { FencedStep(s, k, a); } else { OthersKept(s, k, a); }
        hide Inv, NextCall;
      case RemoteFails(j, retryable) =>
        if j == k { FencedStep(s, k, a); } else { OthersKept(s, k, a); }
        hide Inv;
    }
  }

  lemma OthersKept(s: System, k: nat, a: Action)
    requires k in s.execs && Step(s, a).Some?
    requires (a.Statement? && a.runner != k) || (a.RemoteAnswers? && a.caller != k) || (a.RemoteFails? && a.loser != k)
    ensures k in Step(s, a).value.execs && Step(s, a).value.execs[k] == s.execs[k]
  {
    hide Proceed, Obtained, Caught, ReplayRead, AuthorityRead, Denied, CurrentRead, BusyReadBack, LoggedRead,
      ClaimedBy;
  }

  lemma StatementKeepsClaim(s: System, k: nat, fault: Fault, expired: bool, authority: Authority)
    requires k in s.execs && (s.execs[k].stage.FinalizeSuccess? || s.execs[k].stage.FinalizeFailure?)
    requires Step(s, Statement(k, fault, expired, authority)).Some?
    ensures var t := Step(s, Statement(k, fault, expired, authority)).value;
            t.execs[k].period == s.execs[k].period && t.execs[k].request == s.execs[k].request
  {
  }

  /** Fencing, in every continuation: once another request has claimed, and until its own claims again, an
      execution stays fenced and nothing it does is written, neither to the row nor to the events. */
  lemma {:induction false} FencedForGood(s: System, k: nat, actions: seq<Action>)
    requires Inv(s) && Fenced(s, k) && Run(s, actions).Some?
    requires NotClaimedSince(Run(s, actions).value, s.execs[k].period, s.execs[k].request)
    ensures Inv(Run(s, actions).value) && Fenced(Run(s, actions).value, k)
    decreases |actions|
  {
    RunKeeps(s, actions);
    if actions != [] {
      var t := Step(s, actions[0]).value;
      StepKeeps(s, actions[0]);
      RunKeeps(t, actions[1..]);
      assert NotClaimedSince(t, s.execs[k].period, s.execs[k].request);
      FencedByOthers(s, k, actions[0]);
      hide Inv, Evolves, Step, Fenced, NotClaimedSince;
      FencedForGood(t, k, actions[1..]);
    }
  }

  /** In particular each of its statements, in every such continuation and however the lease stands. */
  lemma FencedWritesNothing(s: System, k: nat, actions: seq<Action>, fault: Fault, expired: bool, authority: Authority)
    requires Inv(s) && Fenced(s, k) && Run(s, actions).Some?
    requires NotClaimedSince(Run(s, actions).value, s.execs[k].period, s.execs[k].request)
    ensures var t := Run(s, actions).value;
            var u := Step(t, Statement(k, fault, expired, authority));
            u.Some? ==> u.value.row == t.row && u.value.events == t.events && u.value.periods == t.periods
  {
    FencedForGood(s, k, actions);
    var t := Run(s, actions).value;
    if Step(t, Statement(k, fault, expired, authority)).Some? {
      FencedStep(t, k, Statement(k, fault, expired, authority));
    }
    hide Run, Inv, Step, Fenced;
  }

  // ---- The status a failure restores ----

  /** A failure that is not retryable puts back the status read before the claim. That is the status the claim
      replaced exactly if the row still had it then, and it had if nothing was claimed or finalized in between. */
  lemma RestoresExactly(s: System, k: nat, fault: Fault, expired: bool, authority: Authority)
    requires Inv(s) && k in s.execs && Owned(s.row, s.execs[k]) && !fault.FailsBefore?
    requires s.execs[k].stage.FinalizeFailure? && s.execs[k].stage.retryable.No?
    ensures var x, t := s.execs[k], Step(s, Statement(k, fault, expired, authority)).value;
            && t.row.Some?
            && (t.row.value.status == x.replaced <==> x.previous == x.replaced)
            && (x.undisturbed.Yes? ==> t.row.value.status == x.replaced)
  {
    assert ExecOk(s, s.execs[k]);
    hide Caught;
  }

  /** Two activations: the second completes between the first's read and its claim, and the first then fails. */
  function OverwritingRun(first: RequestId, second: RequestId, user: RemoteId, agent: RemoteId): seq<Action> {
    var one, two := Statement(0, Works, false, GRANTED), Statement(1, Works, false, GRANTED);
    [Start(0, first, Activate), one, one, one, one,
     Start(1, second, Activate), two, two, two, two, two, RemoteAnswers(1, user), RemoteAnswers(1, agent), two,
     one, RemoteFails(0, No), one]
  }

  /** The first execution after `n` steps of that run. */
  function OverwritingFirst(first: RequestId, user: RemoteId, agent: RemoteId, n: nat): Execution {
    var held := n >= 15;
    Begin(first, Activate).(
      stage := if n <= 1 then ReadReplay else if n == 2 then ReadAuthority else if n == 3 then Ensure
               else if n == 4 then ReadCurrent else if n <= 14 then ClaimUpdate
               else if n == 15 then Remote(SetActive) else if n == 16 then FinalizeFailure(No)
               else WriteEvent(Event(Activate, InternalFailure, Disabled, Some(user), Some(agent))),
      guarded := if n == 15 then Yes else No, fromRemote := if n >= 16 then Yes else No,
      period := if held then 1 else 0, replaced := if held then Active else Disabled,
      claimedUser := if held then Some(user) else None, claimedAgent := if held then Some(agent) else None,
      user := if held then Some(user) else None, agent := if held then Some(agent) else None,
      checked := if n >= 3 then Some(GRANTED) else None)
  }

  /** The second execution. */
  function OverwritingSecond(second: RequestId, user: RemoteId, agent: RemoteId, n: nat): Execution {
    var gotUser := if n >= 12 then Some(user) else None;
    var gotAgent := if n >= 13 then Some(agent) else None;
    Begin(second, Activate).(
      stage := if n <= 6 then ReadReplay else if n == 7 then ReadAuthority else if n == 8 then Ensure
               else if n == 9 then ReadCurrent else if n == 10 then ClaimUpdate
               else if n == 11 then Remote(ProvisionUser) else if n == 12 then Remote(ProvisionAgent)
               else if n == 13 then FinalizeSuccess
               else WriteEvent(Event(Activate, Succeeded, Active, Some(user), Some(agent))),
      guarded := if n >= 11 then Yes else No, undisturbed := Of(n >= 11),
      user := gotUser, agent := gotAgent, gotUser := gotUser, gotAgent := gotAgent,
      checked := if n >= 8 then Some(GRANTED) else None,
      answered := if n >= 13 then [ProvisionUser, ProvisionAgent] else if n >= 12 then [ProvisionUser] else [])
  }

  function OverwritingRow(first: RequestId, second: RequestId, user: RemoteId, agent: RemoteId, n: nat)
    : Option<Profile>
  {
    if n < 4 then None
    else if n < 11 then Some(NEW_PROFILE)
    else if n < 14 then Some(Profile(Activate, Provisioning, None, None, Some(second), 1, 1))
    else if n < 15 then Some(Profile(Activate, Active, Some(user), Some(agent), None, 1, 2))
    else if n < 17 then Some(Profile(Activate, Provisioning, Some(user), Some(agent), Some(first), 2, 3))
    else Some(Profile(Activate, Disabled, Some(user), Some(agent), None, 2, 4))
  }

  function OverwritingPeriods(first: RequestId, second: RequestId, n: nat): seq<Period> {
    if n < 11 then []
    else if n < 14 then [Period(second, 0)]
    else if n < 15 then [Period(second, 1)]
    else if n < 17 then [Period(second, 1), Period(first, 0)]
    else [Period(second, 1), Period(first, 1)]
  }

  function OverwritingState(first: RequestId, second: RequestId, user: RemoteId, agent: RemoteId, n: nat): System {
    var one, two := OverwritingFirst(first, user, agent, n), OverwritingSecond(second, user, agent, n);
    System(OverwritingRow(first, second, user, agent, n), map[],
           if n == 0 then map[] else if n <= 5 then map[0 := one] else map[0 := one, 1 := two],
           OverwritingPeriods(first, second, n))
  }

  lemma FirstReads(first: RequestId, second: RequestId, user: RemoteId, agent: RemoteId, n: nat)
    requires n < 5
    ensures Step(OverwritingState(first, second, user, agent, n), OverwritingRun(first, second, user, agent)[n])
            == Some(OverwritingState(first, second, user, agent, n + 1))
  {
    var s, t := OverwritingState(first, second, user, agent, n), OverwritingState(first, second, user, agent, n + 1);
    assert s.execs[0 := OverwritingFirst(first, user, agent, n + 1)]
           == map[0 := OverwritingFirst(first, user, agent, n + 1)];
    hide Successful, Failing, Logged, BusyReadBack, Denied;
  }

  lemma SecondReads(first: RequestId, second: RequestId, user: RemoteId, agent: RemoteId, n: nat)
    requires 5 <= n < 10
    ensures Step(OverwritingState(first, second, user, agent, n), OverwritingRun(first, second, user, agent)[n])
            == Some(OverwritingState(first, second, user, agent, n + 1))
  {
    var s, t := OverwritingState(first, second, user, agent, n), OverwritingState(first, second, user, agent, n + 1);
    assert s.execs[1 := t.execs[1]] == t.execs;
    hide Successful, Failing, Logged, BusyReadBack, Denied;
  }

  lemma SecondCompletes(first: RequestId, second: RequestId, user: RemoteId, agent: RemoteId, n: nat)
    requires 10 <= n < 14
    ensures Step(OverwritingState(first, second, user, agent, n), OverwritingRun(first, second, user, agent)[n])
            == Some(OverwritingState(first, second, user, agent, n + 1))
  {
    hide Failing, Logged, ReplayRead, AuthorityRead, Denied, CurrentRead, BusyReadBack, LoggedRead, Caught, Upserted;
    var s, t := OverwritingState(first, second, user, agent, n), OverwritingState(first, second, user, agent, n + 1);
    assert s.execs[1 := t.execs[1]] == t.execs;
    assert n == 10 ==> s.periods + [Period(second, 0)] == t.periods;
    assert Finaled([Period(second, 0)]) == [Period(second, 1)];
    assert [] + [ProvisionUser] == [ProvisionUser];
    assert [ProvisionUser] + [ProvisionAgent] == [ProvisionUser, ProvisionAgent];
  }

  lemma FirstOverwrites(first: RequestId, second: RequestId, user: RemoteId, agent: RemoteId, n: nat)
    requires 14 <= n < 17
    ensures Step(OverwritingState(first, second, user, agent, n), OverwritingRun(first, second, user, agent)[n])
            == Some(OverwritingState(first, second, user, agent, n + 1))
  {
    var s, t := OverwritingState(first, second, user, agent, n), OverwritingState(first, second, user, agent, n + 1);
    assert s.execs[0 := t.execs[0]] == t.execs;
    assert n == 14 ==> s.periods + [Period(first, 0)] == t.periods;
    assert Finaled([Period(second, 1), Period(first, 0)]) == [Period(second, 1), Period(first, 1)];
    hide Finaled, Successful, Logged;
  }

  lemma {:induction false} OverwritingRuns(first: RequestId, second: RequestId, user: RemoteId, agent: RemoteId, n: nat)
    requires n <= 17
    ensures Run(OverwritingState(first, second, user, agent, n), OverwritingRun(first, second, user, agent)[n..])
            == Some(OverwritingState(first, second, user, agent, 17))
    decreases 17 - n
  {
    hide Step, OverwritingState;
    var run := OverwritingRun(first, second, user, agent);
    if n < 17 {
      if n < 5 { FirstReads(first, second, user, agent, n); }
      else if n < 10 { SecondReads(first, second, user, agent, n); }
      else if n < 14 { SecondCompletes(first, second, user, agent, n); }
      else { FirstOverwrites(first, second, user, agent, n); }
      assert run[n..][1..] == run[n + 1..];
      OverwritingRuns(first, second, user, agent, n + 1);
    }
  }

  /** After that run the completed activation reads as disabled. */
  lemma StatusOverwritten(first: RequestId, second: RequestId, user: RemoteId, agent: RemoteId)
    ensures var s := Run(EMPTY, OverwritingRun(first, second, user, agent));
            && s.Some? && 0 in s.value.execs && s.value.execs[0].replaced.Active?
            && s.value.row.Some? && s.value.row.value.status.Disabled? && s.value.row.value.user == Some(user)
  {
    OverwritingRuns(first, second, user, agent, 0);
    var run := OverwritingRun(first, second, user, agent);
    assert run[0..] == run;
    hide Run, Step;
  }

  /** A finalization that takes effect ends the current period, which is one its own request claimed: its own
      period, unless the same request claimed again since. */
  lemma FinalizesOwnPeriod(s: System, k: nat, fault: Fault, authority: Authority, expired: bool)
    requires Inv(s) && k in s.execs && (s.execs[k].stage.FinalizeSuccess? || s.execs[k].stage.FinalizeFailure?)
    ensures var x, t := s.execs[k], Step(s, Statement(k, fault, expired, authority)).value;
            t.row != s.row ==>
              && s.periods != [] && s.periods[|s.periods| - 1] == Period(x.request, 0)
              && ((forall i :: x.period < i < |s.periods| ==> s.periods[i].holder != x.request) ==>
                    x.period == |s.periods| - 1)
  {
    assert ExecOk(s, s.execs[k]);
    hide Caught;
  }

  /** Deleted is absorbing, in every continuation of every run. */
  lemma DeletedIsFinal(s: System, actions: seq<Action>)
    requires Inv(s) && Run(s, actions).Some? && s.row.Some? && s.row.value.status.Deleted?
    ensures Run(s, actions).value.row == s.row
  {
    RunKeeps(s, actions);
  }

  /** A replay answers from the stored event: whatever happens in between, a later execution of the same
      request and intent whose look-up works returns it and touches nothing. */
  lemma ReplayAnswers(s: System, actions: seq<Action>, k: nat, request: RequestId, expired: bool, authority: Authority)
    requires Inv(s) && Run(s, actions).Some? && request in s.events
    requires k !in Run(s, actions).value.execs
    ensures var t := Run(s, actions).value;
            var u := Run(t, [Start(k, request, s.events[request].intent), Statement(k, Works, expired, authority)]);
            u.Some? && k in u.value.execs && u.value.execs[k].stage == Answered(s.events[request])
            && u.value.row == t.row && u.value.events == t.events
  {
    RunKeeps(s, actions);
    var t := Run(s, actions).value;
    assert request in t.events && t.events[request] == s.events[request];
    hide Inv, Evolves;
    var intent := s.events[request].intent;
    var first, second := Start(k, request, intent), Statement(k, Works, expired, authority);
    var mid := Step(t, first).value;
    assert mid.execs[k] == Begin(request, intent);
    var last := Step(mid, second).value;
    TwoSteps(t, first, mid, second, last);
  }

  /** With another intent the stored event is not handed out. */
  lemma MismatchAnswersNothing(s: System, actions: seq<Action>, k: nat, request: RequestId, intent: Intent,
                               expired: bool, authority: Authority)
    requires Inv(s) && Run(s, actions).Some? && request in s.events && s.events[request].intent != intent
    requires k !in Run(s, actions).value.execs
    ensures var t := Run(s, actions).value;
            var u := Run(t, [Start(k, request, intent), Statement(k, Works, expired, authority)]);
            u.Some? && k in u.value.execs && u.value.execs[k].stage == Answered0
            && u.value.row == t.row && u.value.events == t.events
  {
    RunKeeps(s, actions);
    var t := Run(s, actions).value;
    assert request in t.events && t.events[request] == s.events[request];
    hide Inv, Evolves;
    var first, second := Start(k, request, intent), Statement(k, Works, expired, authority);
    var mid := Step(t, first).value;
    assert mid.execs[k] == Begin(request, intent);
    TwoSteps(t, first, mid, second, Step(mid, second).value);
  }

  lemma TwoSteps(s: System, a: Action, t: System, b: Action, u: System)
    requires Step(s, a) == Some(t) && Step(t, b) == Some(u)
    ensures Run(s, [a, b]) == Some(u)
  {
    hide Step;
    assert [a, b][1..] == [b] && [b][1..] == [];
    assert Run(t, [b]) == Run(u, []);
  }

  /** Every answer an execution gives is the stored event of its request. */
  lemma AnswersAreStored(actions: seq<Action>, k: nat)
    requires Run(EMPTY, actions).Some?
    ensures var s := Run(EMPTY, actions).value;
            k in s.execs && s.execs[k].stage.Answered? ==>
              s.execs[k].request in s.events && s.events[s.execs[k].request] == s.execs[k].stage.stored
  {
    Reachable(actions);
    hide Run;
    var s := Run(EMPTY, actions).value;
    if k in s.execs { assert ExecOk(s, s.execs[k]); }
  }

  /** Remote ids obtained before a remote failure are on the profile once the failure is finalized, and those
      of a completed activation or disablement once the success is. */
  lemma RemoteIdsKept(s: System, k: nat, fault: Fault, expired: bool, authority: Authority)
    requires Inv(s) && k in s.execs && Owned(s.row, s.execs[k]) && !fault.FailsBefore?
    requires var x := s.execs[k];
             (x.stage.FinalizeFailure? && x.fromRemote.Yes?) || (x.stage.FinalizeSuccess? && !x.intent.Delete?)
    ensures var x, t := s.execs[k], Step(s, Statement(k, fault, expired, authority)).value;
            && t.row.Some?
            && (x.gotUser.Some? ==> t.row.value.user == x.gotUser)
            && (x.gotAgent.Some? ==> t.row.value.agent == x.gotAgent)
  {
    assert ExecOk(s, s.execs[k]);
    hide Caught;
  }

  /** Exactly when obtained ids are lost: when a failure that is not a remote one is finalized in the
      request's own period. It stores what the claim returned. */
  lemma IdsLostExactly(s: System, k: nat, fault: Fault, expired: bool, authority: Authority)
    requires Inv(s) && k in s.execs && Owned(s.row, s.execs[k]) && !fault.FailsBefore?
    requires s.execs[k].stage.FinalizeFailure? && s.execs[k].period == |s.periods| - 1
    ensures var x, t := s.execs[k], Step(s, Statement(k, fault, expired, authority)).value;
            && t.row.Some?
            && (x.gotUser.Some? ==> (t.row.value.user != x.gotUser <==> x.fromRemote.No?))
            && (x.gotAgent.Some? ==> (t.row.value.agent != x.gotAgent <==> x.fromRemote.No?))
  {
    assert ExecOk(s, s.execs[k]);
    hide Caught;
  }

  /** When the same request claimed again since, a failure that is not a remote one leaves on the row what
      the later period put there. */
  lemma ReclaimedKeepsRow(s: System, k: nat, fault: Fault, expired: bool, authority: Authority)
    requires Inv(s) && k in s.execs && Owned(s.row, s.execs[k]) && !fault.FailsBefore?
    requires s.execs[k].stage.FinalizeFailure? && s.execs[k].fromRemote.No? && s.execs[k].period < |s.periods| - 1
    ensures var x, t := s.execs[k], Step(s, Statement(k, fault, expired, authority)).value;
            && t.row.Some?
            && (x.gotUser.Some? ==> t.row.value.user == s.row.value.user)
            && (x.gotAgent.Some? ==> t.row.value.agent == s.row.value.agent)
  {
    assert ExecOk(s, s.execs[k]);
    hide Caught;
  }

  /** That happens: the success's own statement fails after a user was provisioned. */
  function ForgettingRun(request: RequestId, user: RemoteId, agent: RemoteId): seq<Action> {
    var works := Statement(0, Works, false, GRANTED);
    [Start(0, request, Activate), works, works, works, works, works,
     RemoteAnswers(0, user), RemoteAnswers(0, agent), Statement(0, FailsBefore, false, GRANTED), works]
  }

  /** The only execution of that run, and the row, after its first `n` steps. */
  function ForgettingExec(request: RequestId, user: RemoteId, agent: RemoteId, n: nat): Execution {
    var stage := if n <= 1 then ReadReplay else if n == 2 then ReadAuthority else if n == 3 then Ensure
                 else if n == 4 then ReadCurrent else if n == 5 then ClaimUpdate
                 else if n == 6 then Remote(ProvisionUser) else if n == 7 then Remote(ProvisionAgent)
                 else if n == 8 then FinalizeSuccess else if n == 9 then FinalizeFailure(No)
                 else WriteEvent(Event(Activate, InternalFailure, Disabled, None, None));
    Begin(request, Activate).(
      stage := stage,
      guarded := if 6 <= n <= 8 then Yes else No,
      user := if 7 <= n <= 8 then Some(user) else None,
      agent := if n == 8 then Some(agent) else None,
      gotUser := if n >= 7 then Some(user) else None,
      gotAgent := if n >= 8 then Some(agent) else None,
      undisturbed := Of(n >= 6),
      checked := if n >= 3 then Some(GRANTED) else None,
      answered := if n >= 8 then [ProvisionUser, ProvisionAgent] else if n >= 7 then [ProvisionUser] else [])
  }

  function ForgettingState(request: RequestId, user: RemoteId, agent: RemoteId, n: nat): System {
    if n == 0 then EMPTY
    else
      System(if n < 4 then None
             else if n < 6 then Some(NEW_PROFILE)
             else if n < 10 then Some(Profile(Activate, Provisioning, None, None, Some(request), 1, 1))
             else Some(Profile(Activate, Disabled, None, None, None, 1, 2)),
             map[],
             map[0 := ForgettingExec(request, user, agent, n)],
             if n < 6 then [] else if n < 10 then [Period(request, 0)] else [Period(request, 1)])
  }

  lemma ForgettingStarts(request: RequestId, user: RemoteId, agent: RemoteId, n: nat)
    requires n < 6
    ensures Step(ForgettingState(request, user, agent, n), ForgettingRun(request, user, agent)[n])
            == Some(ForgettingState(request, user, agent, n + 1))
  {
    var s, t := ForgettingState(request, user, agent, n), ForgettingState(request, user, agent, n + 1);
    assert s.execs[0 := t.execs[0]] == t.execs;
    assert n == 5 ==> s.periods + [Period(request, 0)] == t.periods;
    hide Successful, Failing, Logged, BusyReadBack, Denied;
  }

  lemma ForgettingAnswers(request: RequestId, user: RemoteId, agent: RemoteId, n: nat)
    requires 6 <= n < 8
    ensures Step(ForgettingState(request, user, agent, n), ForgettingRun(request, user, agent)[n])
            == Some(ForgettingState(request, user, agent, n + 1))
  {
    hide StatementStep;
    var s, t := ForgettingState(request, user, agent, n), ForgettingState(request, user, agent, n + 1);
    assert s.execs[0 := t.execs[0]] == t.execs;
    assert [] + [ProvisionUser] == [ProvisionUser];
    assert [ProvisionUser] + [ProvisionAgent] == [ProvisionUser, ProvisionAgent];
  }

  lemma ForgettingFails(request: RequestId, user: RemoteId, agent: RemoteId, n: nat)
    requires 8 <= n < 10
    ensures Step(ForgettingState(request, user, agent, n), ForgettingRun(request, user, agent)[n])
            == Some(ForgettingState(request, user, agent, n + 1))
  {
    hide Logged, ClaimStep, ReplayRead, AuthorityRead, Denied, CurrentRead, BusyReadBack, LoggedRead, Upserted, Proceed;
    var s, t := ForgettingState(request, user, agent, n), ForgettingState(request, user, agent, n + 1);
    assert s.execs[0 := t.execs[0]] == t.execs;
    assert Finaled([Period(request, 0)]) == [Period(request, 1)];
  }

  lemma {:induction false} ForgettingRuns(request: RequestId, user: RemoteId, agent: RemoteId, n: nat)
    requires n <= 10
    ensures Run(ForgettingState(request, user, agent, n), ForgettingRun(request, user, agent)[n..])
            == Some(ForgettingState(request, user, agent, 10))
    decreases 10 - n
  {
    hide Step, ForgettingState;
    var run := ForgettingRun(request, user, agent);
    if n < 10 {
      if n < 6 { ForgettingStarts(request, user, agent, n); }
      else if n < 8 { ForgettingAnswers(request, user, agent, n); }
      else { ForgettingFails(request, user, agent, n); }
      assert run[n..][1..] == run[n + 1..];
      ForgettingRuns(request, user, agent, n + 1);
    }
  }

  /** After that run a user and an agent were provisioned, and the profile knows neither. */
  lemma IdsLost(request: RequestId, user: RemoteId, agent: RemoteId)
    ensures var s := Run(EMPTY, ForgettingRun(request, user, agent));
            && s.Some? && 0 in s.value.execs && s.value.row.Some?
            && s.value.execs[0].gotUser == Some(user) && s.value.row.value.user.None?
            && s.value.execs[0].gotAgent == Some(agent) && s.value.row.value.agent.None?
  {
    ForgettingRuns(request, user, agent, 0);
    var run := ForgettingRun(request, user, agent);
    assert run[0..] == run;
    hide Run, Step;
  }
}
