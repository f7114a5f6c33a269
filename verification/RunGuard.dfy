/** The run guard: one metered token state per run, driven by concurrent bridge requests. */
module RunGuard {
  import opened Options
  import opened Outcomes
  import opened Strings

  datatype Operation = Create | Destroy | Exec | File | Status

  datatype Claims = Claims(exp: int, jti: Text, maxCalls: int, scopes: seq<Text>, tenantHash: Text, userHash: Text)

  /** `exitCode` is `None` when it is not an integer. */
  datatype Receipt = Receipt(argvSha256: Text, exitCode: Option<int>, stdoutSha256: Text)

  datatype GuardState = GuardState(
    callCount: nat, destroying: bool, claims: Claims, execReceipt: Option<Receipt>, terminal: bool)

  datatype Refusal = CallBudgetExhausted | DestroyInProgress | TokenStateMismatch

  datatype Decision = Decision(allowed: bool, callCount: nat, code: Option<Refusal>, execReceipt: Option<Receipt>,
                               terminal: bool)

  function InitialState(claims: Claims): GuardState { GuardState(0, false, claims, None, false) }

  predicate SameRun(a: Claims, b: Claims) { a.jti == b.jti && a.tenantHash == b.tenantHash && a.userHash == b.userHash }

  function Allow(s: GuardState): Decision { Decision(true, s.callCount, None, s.execReceipt, s.terminal) }

  function Refuse(s: GuardState, code: Refusal): Decision { Decision(false, s.callCount, Some(code), None, s.terminal) }

  /** applyRunGuardClaim. A token that was issued again for the same run may still control it. */
  function ApplyClaim(current: Option<GuardState>, claims: Claims, op: Operation): (Decision, GuardState) {
    var s := if current.Some? then current.value else InitialState(claims);
    var exact := s.claims == claims;
    var reissued := !exact && (op.Destroy? || op.Status?) && SameRun(s.claims, claims);
    if !exact && !reissued then (Refuse(s, TokenStateMismatch), s)
    else if (op.Status? || op.Destroy?) && s.terminal then (Allow(s), s)
    else if reissued && op.Status? then (Allow(s), s)
    else if s.destroying || s.terminal then (Refuse(s, DestroyInProgress), s)
    else if op.Destroy? then (Allow(s), s.(destroying := true))
    else if s.callCount >= s.claims.maxCalls then (Refuse(s, CallBudgetExhausted), s)
    else var t := s.(callCount := s.callCount + 1); (Allow(t), t)
  }

  predicate IsHex64(t: Text) {
    |t| == 64 && forall i :: 0 <= i < 64 ==> IsDigit(t[i]) || 0x61 <= t[i] <= 0x66
  }

  predicate ReceiptOk(r: Receipt) {
    && IsHex64(r.argvSha256) && IsHex64(r.stdoutSha256)
    && r.exitCode.Some? && -MAX_SAFE_INTEGER <= r.exitCode.value <= MAX_SAFE_INTEGER
  }

  datatype Request =
    | Claim(claims: Claims, op: Operation)
    | FinishDestroy
    | AbortDestroy
    | RecordExec(execClaims: Claims, receipt: Receipt)
    | UnknownPath
    | NotPost  // any path, with another method

  datatype Reply =
    | Decided(decision: Decision) | NoContent | NotInitialized | InvalidReceipt | NotFound | MethodNotAllowed

  /** handleRunGuardRequest, as a function of the stored state. */
  function Handled(stored: Option<GuardState>, request: Request): (Option<GuardState>, Reply) {
    match request
    case Claim(claims, op) => var (d, s) := ApplyClaim(stored, claims, op); (Some(s), Decided(d))
    case FinishDestroy =>
      if stored.None? then (stored, NotInitialized)
      else (Some(stored.value.(destroying := false, terminal := true)), NoContent)
    case AbortDestroy =>
      if stored.None? then (stored, NotInitialized) else (Some(stored.value.(destroying := false)), NoContent)
    case RecordExec(claims, receipt) =>
      if stored.None? then (stored, NotInitialized)
      else if stored.value.claims != claims || stored.value.destroying || stored.value.terminal || !ReceiptOk(receipt)
      then (stored, InvalidReceipt)
      else (Some(stored.value.(execReceipt := Some(receipt))), NoContent)
    case UnknownPath => (stored, if stored.None? then NotInitialized else NotFound)
    case NotPost => (stored, MethodNotAllowed)
  }

  class GuardObject {
    var stored: Option<GuardState>

    constructor ()
      ensures stored == None
    {
      stored := None;
    }

    method Handle(request: Request) returns (reply: Reply)
      modifies this
      ensures (stored, reply) == Handled(old(stored), request)
    {
      if request.NotPost? { return MethodNotAllowed; }
      if request.Claim? {
        var (decision, next) := ApplyClaim(stored, request.claims, request.op);
        stored := Some(next);
        return Decided(decision);
      }
      if stored.None? { return NotInitialized; }
      var current := stored.value;
      if request.FinishDestroy? {
        stored := Some(current.(destroying := false, terminal := true));
        return NoContent;
      }
      if request.AbortDestroy? {
        stored := Some(current.(destroying := false));
        return NoContent;
      }
      if request.UnknownPath? { return NotFound; }
      if current.claims != request.execClaims || current.destroying || current.terminal || !ReceiptOk(request.receipt) {
        return InvalidReceipt;
      }
      stored := Some(current.(execReceipt := Some(request.receipt)));
      return NoContent;
    }
  }

  // ---- Metering, over any sequence of requests ----

  /** An allowed claim that spends the budget: everything but a destroy, a status of a finished run,
      and a status asked with a token that was issued again. */
  predicate Metered(stored: Option<GuardState>, request: Request) {
    && request.Claim? && !request.op.Destroy?
    && (stored.Some? ==> !stored.value.terminal && stored.value.claims == request.claims)
    && ApplyClaim(stored, request.claims, request.op).0.allowed
  }

  function After(stored: Option<GuardState>, requests: seq<Request>): Option<GuardState>
    decreases |requests|
  {
    if requests == [] then stored else After(Handled(stored, requests[0]).0, requests[1..])
  }

  function MeteredCount(stored: Option<GuardState>, requests: seq<Request>): nat
    decreases |requests|
  {
    if requests == [] then 0
    else (if Metered(stored, requests[0]) then 1 else 0) + MeteredCount(Handled(stored, requests[0]).0, requests[1..])
  }

  function CountOf(stored: Option<GuardState>): nat { if stored.Some? then stored.value.callCount else 0 }

  predicate WithinBudget(stored: Option<GuardState>) {
    stored.Some? ==> stored.value.callCount == 0 || stored.value.callCount <= stored.value.claims.maxCalls
  }

  lemma StepMeters(stored: Option<GuardState>, request: Request)
    requires WithinBudget(stored)
    ensures var next := Handled(stored, request).0;
            && CountOf(next) == CountOf(stored) + (if Metered(stored, request) then 1 else 0)
            && WithinBudget(next)
            && (stored.Some? ==> next.Some? && next.value.claims == stored.value.claims)
  {
  }

  /** The allowed metered claims of any run are exactly `call_count`, and never more than `max_calls`. */
  lemma {:induction false} MeteredIsCount(stored: Option<GuardState>, requests: seq<Request>)
    requires WithinBudget(stored)
    ensures CountOf(After(stored, requests)) == CountOf(stored) + MeteredCount(stored, requests)
    ensures WithinBudget(After(stored, requests))
    ensures stored.Some? ==>
              After(stored, requests).Some? && After(stored, requests).value.claims == stored.value.claims
    decreases |requests|
  {
    if requests != [] {
      StepMeters(stored, requests[0]);
      hide Handled, Metered, CountOf, WithinBudget;
      MeteredIsCount(Handled(stored, requests[0]).0, requests[1..]);
    }
  }

  /** The call budget the issuer mints for a run. */
  function MintedCalls(maxSteps: int): int {
    var floor := if maxSteps * 4 > 4 then maxSteps * 4 else 4;
    if floor < 64 then floor else 64
  }

  /** Four calls a step, but never fewer than four nor more than sixty-four. */
  lemma MintedExact(maxSteps: int)
    ensures MintedCalls(maxSteps) == if maxSteps <= 1 then 4 else if maxSteps >= 16 then 64 else 4 * maxSteps
  {
  }

  /** A run whose first claim carries a token minted for a valid step budget makes at most four metered
      calls a step. */
  lemma MintedBudgetBounds(first: Request, requests: seq<Request>, maxSteps: int)
    requires 1 <= maxSteps <= 8 && first.Claim? && first.claims.maxCalls == MintedCalls(maxSteps)
    ensures MeteredCount(None, [first] + requests) <= 4 * maxSteps
  {
    MeteredIsCount(None, [first] + requests);
    StepMeters(None, first);
    assert ([first] + requests)[1..] == requests;
    MeteredIsCount(Handled(None, first).0, requests);
  }

  // ---- Terminal is absorbing ----

  /** After a finished destroy nothing changes: the count and the receipt are frozen, an abort cannot undo
      it, and only status and destroy are allowed. */
  lemma {:induction false} TerminalIsFinal(s: GuardState, requests: seq<Request>)
    requires s.terminal
    ensures var last := After(Some(s), requests);
            && last.Some? && last.value.terminal
            && last.value.callCount == s.callCount && last.value.execReceipt == s.execReceipt
    ensures forall claims, op ::
              ApplyClaim(After(Some(s), requests), claims, op).0.allowed ==> op.Status? || op.Destroy?
    ensures forall claims, receipt :: Handled(After(Some(s), requests), RecordExec(claims, receipt)).1 == InvalidReceipt
    decreases |requests|
  {
    if requests != [] {
      var t := Handled(Some(s), requests[0]).0.value;
      TerminalIsFinal(t, requests[1..]);
    }
  }

  // ---- Destroy windows of concurrent bridge callers ----

  /** A bridge request that wants to destroy the sandbox. The window is open from the admitted claim until
      the caller's finish or abort is over. */
  datatype Caller =
    | Asking(claims: Claims)  // awaiting the claim
    | Destroying              // awaiting the sandbox
    | Finishing               // awaiting finishDestroy
    | Aborting                // in catch: awaiting abortDestroy
    | Over

  predicate InWindow(c: Caller) { c.Destroying? || c.Finishing? || c.Aborting? }

  datatype Bridge = Bridge(guard: Option<GuardState>, callers: map<nat, Caller>)

  datatype Action =
    | Other(request: Request)          // create, exec, file, status and receipt requests of anybody
    | Arrives(newcomer: nat, token: Claims)
    | Answered(asker: nat, net: Delivery)   // the claim, the finish or the abort answers, or throws
    | Resolves(resolver: nat)          // sandbox.destroy() resolves
    | Fails(failer: nat)               // it rejects, or times out

  function Send(guard: Option<GuardState>, request: Request, net: Delivery): Option<GuardState> {
    if net.NotSent? then guard else Handled(guard, request).0
  }

  function AfterClaim(b: Bridge, k: nat, claims: Claims, net: Delivery): Bridge {
    var reply := Handled(b.guard, Claim(claims, Destroy)).1;
    var admitted := net.Delivered? && reply.decision.allowed && !reply.decision.terminal;
    Bridge(Send(b.guard, Claim(claims, Destroy), net), b.callers[k := if admitted then Destroying else Over])
  }

  function AfterFinish(b: Bridge, k: nat, net: Delivery): Bridge {
    var done := net.Delivered? && Handled(b.guard, FinishDestroy).1.NoContent?;
    Bridge(Send(b.guard, FinishDestroy, net), b.callers[k := if done then Over else Aborting])
  }

  function AfterAbort(b: Bridge, k: nat, net: Delivery): Bridge {
    Bridge(Send(b.guard, AbortDestroy, net), b.callers[k := Over])
  }

  /** Only destroying callers finish or abort, and only they claim a destroy. */
  predicate IsOther(request: Request) {
    request.RecordExec? || request.UnknownPath? || request.NotPost? || (request.Claim? && !request.op.Destroy?)
  }

  function Step(b: Bridge, a: Action): Option<Bridge> {
    match a
    case Other(request) => if IsOther(request) then Some(b.(guard := Handled(b.guard, request).0)) else None
    case Arrives(k, token) => if k in b.callers then None else Some(b.(callers := b.callers[k := Asking(token)]))
    case Answered(k, net) =>
      if k !in b.callers then None
      else (match b.callers[k]
            case Asking(claims) => Some(AfterClaim(b, k, claims, net))
            case Finishing => Some(AfterFinish(b, k, net))
            case Aborting => Some(AfterAbort(b, k, net))
            case _ => None)
    case Resolves(k) =>
      if k in b.callers && b.callers[k].Destroying? then Some(b.(callers := b.callers[k := Finishing])) else None
    case Fails(k) =>
      if k in b.callers && b.callers[k].Destroying? then Some(b.(callers := b.callers[k := Aborting])) else None
  }

  function RunAll(b: Bridge, actions: seq<Action>): Option<Bridge>
    decreases |actions|
  {
    if actions == [] then Some(b)
    else var next := Step(b, actions[0]);
         if next.None? then None else RunAll(next.value, actions[1..])
  }

  /** An open window holds the guard, and there is at most one. */
  ghost predicate Exclusive(b: Bridge) {
    && (forall k :: k in b.callers && InWindow(b.callers[k]) ==>
          b.guard.Some? && (b.guard.value.terminal || b.guard.value.destroying)
          && (!b.callers[k].Aborting? ==> !b.guard.value.terminal))
    && (forall j, k :: j in b.callers && k in b.callers && InWindow(b.callers[j]) && InWindow(b.callers[k]) ==> j == k)
  }

  lemma OtherKeepsWindow(guard: Option<GuardState>, request: Request)
    requires IsOther(request) && guard.Some?
    ensures var next := Handled(guard, request).0;
            next.Some? && next.value.terminal == guard.value.terminal && next.value.destroying == guard.value.destroying
  {
  }

  lemma ClaimOpens(guard: Option<GuardState>, claims: Claims)
    ensures var (next, reply) := Handled(guard, Claim(claims, Destroy));
            && next.Some? && reply.Decided?
            && (guard.Some? ==> next.value.terminal == guard.value.terminal)
            && (guard.Some? && guard.value.destroying ==> next.value.destroying)
            && (reply.decision.allowed && !reply.decision.terminal ==>
                  && (guard.Some? ==> !guard.value.destroying && !guard.value.terminal)
                  && next.value.destroying && !next.value.terminal)
  {
  }

  lemma StepExclusive(b: Bridge, a: Action)
    requires Exclusive(b) && Step(b, a).Some?
    ensures Exclusive(Step(b, a).value)
  {
    match a {
      case Other(request) =>
        if b.guard.Some? { OtherKeepsWindow(b.guard, request); }
        hide Handled;
      case Answered(k, net) =>
        if b.callers[k].Asking? {
          ClaimOpens(b.guard, b.callers[k].claims);
          hide Handled;
        }
      case _ => hide Handled;
    }
  }

  /** Admitted destroy windows never overlap, in every interleaving of bridge requests with lost replies. */
  lemma {:induction false} WindowsNeverOverlap(b: Bridge, actions: seq<Action>)
    requires Exclusive(b) && RunAll(b, actions).Some?
    ensures Exclusive(RunAll(b, actions).value)
    decreases |actions|
  {
    hide Exclusive, Step;
    if actions != [] {
      StepExclusive(b, actions[0]);
      WindowsNeverOverlap(Step(b, actions[0]).value, actions[1..]);
    }
  }

  lemma WindowsFromNothing(actions: seq<Action>, j: nat, k: nat)
    requires RunAll(Bridge(None, map[]), actions).Some?
    ensures var b := RunAll(Bridge(None, map[]), actions).value;
            j in b.callers && k in b.callers && InWindow(b.callers[j]) && InWindow(b.callers[k]) ==> j == k
  {
    WindowsNeverOverlap(Bridge(None, map[]), actions);
    hide RunAll;
  }

  /** While a window is open and the run is not finished, no metered call is admitted and no receipt recorded. */
  lemma WindowExcludesWork(b: Bridge, k: nat, claims: Claims, op: Operation, receipt: Receipt)
    requires Exclusive(b) && k in b.callers && InWindow(b.callers[k])
    ensures !Metered(b.guard, Claim(claims, op))
    ensures Handled(b.guard, RecordExec(claims, receipt)).1 == InvalidReceipt
  {
  }
}
