/** What the run guard answers, by the state it finds, and what a destroy window comes to. */
module RunGuardAnswers {
  import opened Options
  import opened Outcomes
  import opened Strings
  import opened RunGuard

  /** Another token of the same run: it may only ask for the status and for the destroy. */
  predicate Reissued(s: GuardState, claims: Claims) {
    && s.claims != claims
    && s.claims.jti == claims.jti && s.claims.tenantHash == claims.tenantHash && s.claims.userHash == claims.userHash
  }

  predicate Idle(s: GuardState) { !s.destroying && !s.terminal }

  /** A claim is allowed exactly for the run's own token while the guard is idle and the budget lasts, for a destroy
      or status of the same run that nothing stands against, and for both once the run is over. */
  lemma ClaimExact(stored: Option<GuardState>, claims: Claims, op: Operation)
    ensures var s := if stored.Some? then stored.value else GuardState(0, false, claims, None, false);
            var (next, reply) := Handled(stored, Claim(claims, op));
            var mine, again := s.claims == claims, Reissued(s, claims);
            && reply.Decided? && next.Some?
            && var (d, t) := (reply.decision, next.value);
            && (d.allowed <==>
                  || (mine && Idle(s) && (op.Destroy? || s.callCount < s.claims.maxCalls))
                  || ((mine || again) && s.terminal && (op.Status? || op.Destroy?))
                  || (again && op.Status?)
                  || (again && op.Destroy? && Idle(s)))
            && (d.code == Some(TokenStateMismatch) <==> !mine && !(again && (op.Status? || op.Destroy?)))
            && (d.code == Some(CallBudgetExhausted) <==>
                  mine && Idle(s) && !op.Destroy? && s.callCount >= s.claims.maxCalls)
            && (d.allowed <==> d.code.None?)
            && t.callCount == s.callCount + (if d.allowed && mine && !op.Destroy? && !s.terminal then 1 else 0)
            && t == s.(callCount := t.callCount, destroying := t.destroying)
            && (t.destroying <==> s.destroying || (d.allowed && op.Destroy? && !s.terminal))
            && d.callCount == t.callCount && d.terminal == s.terminal
            && d.execReceipt == (if d.allowed then s.execReceipt else None)
  {
  }

  predicate LowerHex(t: Text) {
    |t| == 64 && forall i :: 0 <= i < |t| ==> 0x30 <= t[i] <= 0x39 || 0x61 <= t[i] <= 0x66
  }

  /** A receipt is recorded exactly for the run's own token while the guard is idle, and then shown to it. */
  lemma ReceiptExact(stored: Option<GuardState>, claims: Claims, receipt: Receipt, op: Operation)
    ensures var (next, reply) := Handled(stored, RecordExec(claims, receipt));
            && (reply.NotInitialized? <==> stored.None?)
            && (reply.NoContent? <==>
                  && stored.Some? && stored.value.claims == claims && Idle(stored.value)
                  && LowerHex(receipt.argvSha256) && LowerHex(receipt.stdoutSha256) && receipt.exitCode.Some?
                  && -9_007_199_254_740_991 <= receipt.exitCode.value <= 9_007_199_254_740_991)
            && next == (if reply.NoContent? then Some(stored.value.(execReceipt := Some(receipt))) else stored)
            && (reply.NoContent? || reply.NotInitialized? || reply.InvalidReceipt?)
            && (reply.NoContent? && ApplyClaim(next, claims, op).0.allowed ==>
                  ApplyClaim(next, claims, op).0.execReceipt == Some(receipt))
  {
  }

  /** Finishing makes the run over for good; aborting reopens it unless it is over. */
  lemma DestroyRepliesExact(stored: Option<GuardState>)
    ensures Handled(stored, FinishDestroy)
            == (if stored.None? then (stored, NotInitialized)
                else (Some(stored.value.(destroying := false, terminal := true)), NoContent))
    ensures Handled(stored, AbortDestroy)
            == (if stored.None? then (stored, NotInitialized)
                else (Some(stored.value.(destroying := false)), NoContent))
    ensures Handled(stored, NotPost) == (stored, MethodNotAllowed)
    ensures Handled(stored, UnknownPath) == (stored, if stored.None? then NotInitialized else NotFound)
  {
  }

  /** A run whose guard is idle is never refused work before its budget is used up, however it was used. */
  lemma AllowedWhileBudgetLasts(claims: Claims, requests: seq<Request>, op: Operation)
    requires !op.Destroy? && requests != [] && requests[0].Claim? && requests[0].claims == claims
    requires var g := After(None, requests); g.Some? && Idle(g.value)
    ensures ApplyClaim(After(None, requests), claims, op).0.allowed <==> MeteredCount(None, requests) < claims.maxCalls
  {
    MeteredIsCount(None, requests);
    FirstClaimOwns(requests);
    hide MeteredCount;
    ClaimExact(After(None, requests), claims, op);
    hide After;
  }

  /** The token of the first claim is the run's. */
  lemma FirstClaimOwns(requests: seq<Request>)
    requires requests != [] && requests[0].Claim?
    ensures After(None, requests).Some? && After(None, requests).value.claims == requests[0].claims
  {
    StepMeters(None, requests[0]);
    var next := Handled(None, requests[0]).0;
    assert next.Some? && next.value.claims == requests[0].claims;
    MeteredIsCount(next, requests[1..]);
  }

  // ---- A destroy window from start to end ----

  /** A lost reply leaves the guard as a delivered one does; a request that was not sent leaves it alone. */
  lemma LostRepliesCount(b: Bridge, k: nat)
    requires k in b.callers && (b.callers[k].Asking? || b.callers[k].Finishing? || b.callers[k].Aborting?)
    ensures Step(b, Answered(k, Delivered)).Some?
    ensures Step(b, Answered(k, ReplyLost)).Some?
    ensures Step(b, Answered(k, NotSent)).Some?
    ensures Step(b, Answered(k, ReplyLost)).value.guard == Step(b, Answered(k, Delivered)).value.guard
    ensures Step(b, Answered(k, NotSent)).value.guard == b.guard
    ensures Step(b, Answered(k, ReplyLost)).value.callers
            == b.callers[k := if b.callers[k].Finishing? then Aborting else Over]
    ensures Step(b, Answered(k, NotSent)).value.callers == Step(b, Answered(k, ReplyLost)).value.callers
  {
    hide ApplyClaim;
  }

  /** Anybody else's request, and a new destroying caller, are always possible. */
  lemma OthersMayCome(b: Bridge, request: Request, k: nat, token: Claims)
    ensures IsOther(request) ==> Step(b, Other(request)) == Some(b.(guard := Handled(b.guard, request).0))
    ensures k !in b.callers ==> Step(b, Arrives(k, token)) == Some(b.(callers := b.callers[k := Asking(token)]))
    ensures k in b.callers ==> Step(b, Arrives(k, token)).None?
  {
  }

  lemma RunTwo(b: Bridge, first: Action, c: Bridge, second: Action, d: Bridge)
    requires Step(b, first) == Some(c) && Step(c, second) == Some(d)
    ensures RunAll(b, [first, second]) == Some(d)
  {
    hide Step;
    assert [first, second][1..] == [second] && [second][1..] == [];
    assert RunAll(c, [second]) == RunAll(d, []);
  }

  /** An admitted destroy that goes through ends the run; one that fails leaves the guard as it was before. */
  lemma WindowCloses(b: Bridge, k: nat, token: Claims)
    requires k in b.callers && b.callers[k] == Asking(token) && b.guard.Some? && Idle(b.guard.value)
    requires b.guard.value.claims == token || Reissued(b.guard.value, token)
    ensures var window := Step(b, Answered(k, Delivered));
            && window.Some? && window.value.callers == b.callers[k := Destroying]
            && (var done := RunAll(window.value, [Resolves(k), Answered(k, Delivered)]);
                && done.Some? && done.value.callers == b.callers[k := Over]
                && done.value.guard == Some(b.guard.value.(terminal := true)))
            && (var undone := RunAll(window.value, [Fails(k), Answered(k, Delivered)]);
                && undone.Some? && undone.value.callers == b.callers[k := Over] && undone.value.guard == b.guard)
  {
    var g := b.guard.value;
    var window := Bridge(Some(g.(destroying := true)), b.callers[k := Destroying]);
    assert Step(b, Answered(k, Delivered)) == Some(window);
    var finishing, aborting := window.(callers := window.callers[k := Finishing]),
      window.(callers := window.callers[k := Aborting]);
    RunTwo(window, Resolves(k), finishing, Answered(k, Delivered),
           Bridge(Some(g.(terminal := true)), finishing.callers[k := Over]));
    RunTwo(window, Fails(k), aborting, Answered(k, Delivered), Bridge(b.guard, aborting.callers[k := Over]));
  }
}
