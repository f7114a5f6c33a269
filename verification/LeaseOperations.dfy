/** What kill and destroy come to, from every state a lease can be in: when they succeed, what they report, and
    what a failed destroy leaves behind. */
module LeaseOperations {
  import opened Options
  import opened Strings
  import opened LeaseRegistry
  import opened Outcomes
  import opened SandboxProtocol
  import GrantIsolation

  lemma RunCons(s: System, a: Action, t: System, rest: seq<Action>, u: System)
    requires Step(s, a) == Some(t) && Run(t, rest) == Some(u)
    ensures Run(s, [a] + rest) == Some(u)
  {
    hide Step;
    assert ([a] + rest)[1..] == rest;
  }

  lemma RunOne(s: System, a: Action, t: System)
    requires Step(s, a) == Some(t)
    ensures Run(s, [a]) == Some(t)
  {
    hide Step;
    assert Run(t, []) == Some(t);
    RunCons(s, a, t, [], t);
    assert [a] + [] == [a];
  }

  // ---- Kill ----

  /** What a kill reports or does next, by the record it finds. */
  lemma KillFinds(s: System, k: nat, net: Delivery)
    requires GrantIsolation.Inv(s) && k in s.killers && s.killers[k].stage.KillRequesting?
    ensures var t := Step(s, KillMoves(k, CallerReplied(net)));
            && t.Some? && k in t.value.killers
            && var c := t.value.killers[k];
            && (c.stage == KillDone(KillFailed(true)) <==> net != Delivered)
            && (c.stage == KillDone(KillAlready) <==>
                  && net == Delivered && s.record.Some?
                  && (s.record.value.status.Killed? || s.record.value.status.Destroyed?))
            && (c.stage.KillSending? <==>
                  net == Delivered && s.record.Some? && s.record.value.status.Ready? && s.record.value.processId.Some?)
            && (c.stage.KillSending? ==> Some(c.target) == s.record.value.processId && c.flight.Issued?)
            && t.value.record == (if net != NotSent && s.record.Some? && s.record.value.status.Ready?
                                     && s.record.value.processId.Some?
                                  then Some(s.record.value.(killRequested := true)) else s.record)
            && (c.stage == KillDone(KillFailed(false)) || c.stage == KillDone(KillFailed(true))
                || c.stage == KillDone(KillAlready) || c.stage.KillSending?)
  {
    hide GrantIsolation.ExecsOk, GrantIsolation.Owned, NoteKill;
    if s.record.Some? { MatchesExactly(s.record.value, s.lease); }
    hide RecordMatchesLease;
  }

  /** What can happen to a kill after its request, and what its provider call does: a failed or timed-out call ends
      the kill as retryable and leaves the lease alone, and one that timed out may still land. */
  lemma KillCallExact(s: System, k: nat, e: CallerEvent)
    requires k in s.killers && !e.CallerReplied?
    ensures var c, t := s.killers[k], Step(s, KillMoves(k, e));
            && (t.Some? <==> match e
                             case CallerResolved => c.stage.KillSending? && c.flight.Landed?
                             case CallerLands => c.flight.Issued?
                             case CallerSettlesLate => Flying(c.flight) && !c.stage.KillSending?
                             case _ => c.stage.KillSending?)
            && (t.Some? ==>
                  && t.value == s.(killers := t.value.killers, procs := t.value.procs, alive := t.value.alive)
                  && t.value.procs == (if e.CallerLands? then s.procs - {c.target} else s.procs)
                  && t.value.alive == (s.alive || e.CallerLands?)
                  && t.value.killers == s.killers[k := match e
                                                       case CallerResolved => Killer(KillFinishing, c.target, Settled)
                                                       case CallerRejected =>
                                                         Killer(KillDone(KillFailed(true)), c.target, Settled)
                                                       case CallerTimedOut =>
                                                         Killer(KillDone(KillFailed(true)), c.target, c.flight)
                                                       case CallerLands => Killer(c.stage, c.target, Landed)
                                                       case _ => Killer(c.stage, c.target, Settled)])
  {
  }

  /** A kill whose calls all go through ends the process it named; the lease is killed and unbound exactly if it
      was still ready. */
  lemma KillSucceeds(s: System, k: nat)
    requires GrantIsolation.Inv(s) && k in s.killers && s.killers[k].stage.KillSending? && s.killers[k].flight.Issued?
    requires s.record.Some? && s.record.value.killRequested
    ensures var t := Run(s, [KillMoves(k, CallerLands), KillMoves(k, CallerResolved),
                             KillMoves(k, CallerReplied(Delivered))]);
            var ready := s.record.value.status.Ready?;
            && t.Some? && k in t.value.killers
            && t.value.killers[k].stage == KillDone(if ready then KillSucceeded else KillFailed(true))
            && t.value.record == (if ready then Some(Unbound(s.record.value).(status := Killed)) else s.record)
            && t.value.procs == s.procs - {s.killers[k].target} && t.value.rule == s.rule
  {
    hide GrantIsolation.ExecsOk, GrantIsolation.Owned, RecordMatchesLease;
    var c, r, ready := s.killers[k], s.record.value, s.record.value.status.Ready?;
    var killed := if ready then Some(Unbound(r).(status := Killed)) else s.record;
    assert Transition(s.record, Request(true, KillFinish, Some(s.lease), None, None))
           == (killed, if ready then NoContent else Blocked);
    hide Transition;
    var lands, resolves, replies := KillMoves(k, CallerLands), KillMoves(k, CallerResolved),
      KillMoves(k, CallerReplied(Delivered));
    var a := s.(killers := s.killers[k := c.(flight := Landed)], alive := true, procs := s.procs - {c.target});
    var b := a.(killers := a.killers[k := Killer(KillFinishing, c.target, Settled)]);
    var e := b.(record := killed,
                killers := b.killers[k := Killer(KillDone(if ready then KillSucceeded else KillFailed(true)), c.target,
                                                 Settled)]);
    RunOne(b, replies, e);
    RunCons(a, resolves, b, [replies], e);
    RunCons(s, lands, a, [resolves] + [replies], e);
    assert [lands] + ([resolves] + [replies]) == [lands, resolves, replies];
  }

  // ---- Destroy ----

  /** What a destroy reports or does next, by the record it finds. */
  lemma DestroyFinds(s: System, d: nat, net: Delivery)
    requires GrantIsolation.Inv(s) && d in s.destroyers && s.destroyers[d].stage.DestroyReserving?
    ensures var t := Step(s, DestroyMoves(d, CallerReplied(net)));
            && t.Some? && d in t.value.destroyers
            && var stage := t.value.destroyers[d].stage;
            && (stage == DestroyDone(DestroyFailed(true)) <==> net != Delivered)
            && (stage == DestroyDone(DestroyFailed(false)) <==>
                  net == Delivered && (s.record.None? || s.record.value.status.Pending?))
            && (stage == DestroyDone(DestroyAlready) <==>
                  net == Delivered && s.record.Some? && s.record.value.status.Destroyed?)
            && (stage == DestroySending(false) <==>
                  net == Delivered && s.record.Some? && s.record.value.status.Destroying?)
            && (stage == DestroySending(true) <==>
                  net == Delivered && s.record.Some? && (s.record.value.status.Ready? || s.record.value.status.Killed?))
            && (stage.DestroySending? ==> t.value.destroyers[d].flight.Issued?)
            && (s.record.None? ==> t.value.record.None?)
            && (s.record.Some? ==>
                  var begins := net != NotSent && (s.record.value.status.Ready? || s.record.value.status.Killed?);
                  && t.value.record.Some?
                  && (begins ==> t.value.record.value.status.Destroying?
                                 && Effective(t.value.record.value) == s.record.value.status)
                  && (!begins ==> t.value.record == s.record))
  {
    hide GrantIsolation.ExecsOk, GrantIsolation.Owned;
    if s.record.Some? { MatchesExactly(s.record.value, s.lease); }
    hide RecordMatchesLease;
  }

  /** What can happen to a destroy after its reservation, and what its provider call does. */
  lemma DestroyCallExact(s: System, d: nat, e: CallerEvent)
    requires d in s.destroyers && !e.CallerReplied?
    ensures var c, t := s.destroyers[d], Step(s, DestroyMoves(d, e));
            && (t.Some? <==> match e
                             case CallerResolved => c.stage.DestroySending? && c.flight.Landed?
                             case CallerLands => c.flight.Issued?
                             case CallerSettlesLate => Flying(c.flight) && !c.stage.DestroySending?
                             case _ => c.stage.DestroySending?)
            && (t.Some? ==>
                  && t.value.record == s.record && t.value.execs == s.execs && t.value.creator == s.creator
                  && (if e.CallerLands? then !t.value.alive && t.value.procs == {} && t.value.rule.None?
                      else t.value.alive == s.alive && t.value.procs == s.procs && t.value.rule == s.rule)
                  && (t.value.destroyConfirmed <==> s.destroyConfirmed || e.CallerResolved?)
                  && t.value.destroyers
                     == s.destroyers[d := match e
                                          case CallerResolved => Destroyer(DestroyFinishing, Settled)
                                          case CallerRejected =>
                                            Destroyer(if c.stage.isFresh then DestroyAborting
                                                      else DestroyDone(DestroyFailed(true)), Settled)
                                          case CallerTimedOut => Destroyer(DestroyDone(DestroyFailed(true)), c.flight)
                                          case CallerLands => Destroyer(c.stage, Landed)
                                          case _ => Destroyer(c.stage, Settled)])
  {
  }

  /** A destroy whose calls all go through leaves nothing alive, and the lease destroyed. */
  lemma DestroySucceeds(s: System, d: nat)
    requires GrantIsolation.Inv(s) && d in s.destroyers && s.destroyers[d].stage.DestroySending?
    requires s.destroyers[d].flight.Issued? && s.record.Some? && s.record.value.status.Destroying?
    ensures var t := Run(s, [DestroyMoves(d, CallerLands), DestroyMoves(d, CallerResolved),
                             DestroyMoves(d, CallerReplied(Delivered))]);
            && t.Some? && d in t.value.destroyers && t.value.destroyers[d].stage == DestroyDone(DestroySucceeded)
            && t.value.record.Some? && t.value.record.value.status.Destroyed? && t.value.record.value.processId.None?
            && !t.value.alive && t.value.procs == {} && t.value.rule.None? && t.value.destroyConfirmed
  {
    hide GrantIsolation.ExecsOk, GrantIsolation.Owned, RecordMatchesLease;
    var c, r := s.destroyers[d], s.record.value;
    var gone := Unbound(r).(resume := None, killRequested := true, status := Destroyed);
    assert Transition(s.record, Request(true, DestroyFinish, Some(s.lease), None, None)) == (Some(gone), NoContent);
    hide Transition;
    var lands, resolves, replies := DestroyMoves(d, CallerLands), DestroyMoves(d, CallerResolved),
      DestroyMoves(d, CallerReplied(Delivered));
    var a := s.(destroyers := s.destroyers[d := c.(flight := Landed)], alive := false, procs := {}, rule := None);
    var b := a.(destroyers := a.destroyers[d := Destroyer(DestroyFinishing, Settled)], destroyConfirmed := true);
    var e := b.(record := Some(gone),
                destroyers := b.destroyers[d := Destroyer(DestroyDone(DestroySucceeded), Settled)]);
    RunOne(b, replies, e);
    RunCons(a, resolves, b, [replies], e);
    RunCons(s, lands, a, [resolves] + [replies], e);
    assert [lands] + ([resolves] + [replies]) == [lands, resolves, replies];
  }

  /** A destroy that is rejected is aborted only if it was freshly reserved; then the lease is ready or killed
      again. A destroy that timed out is never aborted. Both ask for a retry. */
  lemma DestroyFails(s: System, d: nat)
    requires GrantIsolation.Inv(s) && d in s.destroyers && s.destroyers[d].stage.DestroySending?
    requires s.record.Some? && s.record.value.status.Destroying?
    ensures var c := s.destroyers[d];
            var t := Step(s, DestroyMoves(d, CallerRejected));
            && t.Some? && d in t.value.destroyers && t.value.record == s.record
            && t.value.destroyConfirmed == s.destroyConfirmed
            && if c.stage.isFresh then
                 var u := Step(t.value, DestroyMoves(d, CallerReplied(Delivered)));
                 && u.Some? && d in u.value.destroyers
                 && u.value.destroyers[d].stage == DestroyDone(DestroyFailed(true))
                 && u.value.record == Some(s.record.value.(resume := None, status := Effective(s.record.value)))
               else t.value.destroyers[d].stage == DestroyDone(DestroyFailed(true))
    ensures var t := Step(s, DestroyMoves(d, CallerTimedOut));
            && t.Some? && d in t.value.destroyers && t.value.record == s.record
            && t.value.destroyers[d] == s.destroyers[d].(stage := DestroyDone(DestroyFailed(true)))
  {
    hide GrantIsolation.ExecsOk, GrantIsolation.Owned, RecordMatchesLease;
  }

  // ---- Create ----

  /** What the registry's answers lead to: a sandbox is created only after a fresh reservation, and `create` succeeds
      exactly if marking the lease ready is confirmed; otherwise the sandbox is destroyed again. */
  lemma CreateHears(s: System, net: Delivery)
    requires GrantIsolation.Inv(s)
    requires s.creator.stage.Reserving? || s.creator.stage.MarkingReady? || s.creator.stage.Removing?
             || s.creator.stage.LateRemoving? || s.creator.stage.LateRejectRemoving?
    ensures var t := Step(s, CreateMoves(CreatorReplied(net)));
            && t.Some?
            && var (c, stage) := (t.value.creator, t.value.creator.stage);
            && t.value == s.(record := t.value.record, creator := c)
            && (if s.creator.stage.Reserving? then
                  && (stage.Creating? <==> net == Delivered && s.record.None?)
                  && t.value.record == (if net != NotSent && s.record.None?
                                        then Some(FreshRecord(s.lease, s.provider, s.session)) else s.record)
                  && (if stage.Creating? then c.creation.CreationIssued?
                      else stage == CreateReturned(false) && c.creation == s.creator.creation)
                else if s.creator.stage.MarkingReady? then
                  && t.value.record == (if net != NotSent && s.record.Some? && s.record.value.status.Pending?
                                        then Some(s.record.value.(status := Ready)) else s.record)
                  && (stage == CreateReturned(true) <==>
                        net == Delivered && s.record.Some? && s.record.value.status.Pending?)
                  && (stage != CreateReturned(true) ==> stage == CleaningUp(false) && c.cleanup.Issued?)
                else
                  && stage == CreateReturned(false)
                  && t.value.record == (if net != NotSent && s.record.Some? && s.record.value.status.Pending?
                                        then None else s.record))
  {
    hide GrantIsolation.ExecsOk, GrantIsolation.Owned;
    if s.record.Some? { MatchesExactly(s.record.value, s.lease); }
    hide RecordMatchesLease;
  }

  /** Where each event of the create call leads. A creation that fails or times out is destroyed again; only after a
      confirmed destroy is the record removed, and after a timeout not before the creation has settled. */
  lemma CreateCallExact(s: System, e: CreatorEvent)
    requires !e.CreatorReplied?
    ensures var c, t := s.creator, Step(s, CreateMoves(e));
            && (t.Some? <==> match e
                             case CreationLands => c.creation.CreationIssued?
                             case CreationSettles(ok) =>
                               c.creation.CreationLanded? || (c.creation.CreationIssued? && !ok)
                             case CreationTimesOut => c.stage.Creating?
                             case CleanupLands => c.cleanup.Issued?
                             case CleanupResolves => c.stage.CleaningUp? && c.cleanup.Landed?
                             case LateContinues =>
                               c.stage.LateWaiting? && (c.creation.CreationOk? || c.creation.CreationError?)
                             case LateLands => c.late.Issued?
                             case LateResolves => c.stage.LateDestroying? && c.late.Landed?
                             case LateFails => c.stage.LateDestroying?
                             case _ => c.stage.CleaningUp?)
            && (t.Some? ==>
                  var d := t.value.creator;
                  && t.value.record == s.record && t.value.execs == s.execs
                  && match e
                     case CreationLands => d.creation.CreationLanded? && d.stage == c.stage && t.value.alive
                     case CreationSettles(ok) =>
                       && (if ok then d.creation.CreationOk?
                           else d.creation == CreationError(c.creation.CreationLanded?))
                       && d.stage == (if !c.stage.Creating? then c.stage
                                      else if ok then MarkingReady else CleaningUp(false))
                       && (c.stage.Creating? && !ok ==> d.cleanup.Issued?)
                     case CreationTimesOut => d.stage == CleaningUp(true) && d.cleanup.Issued?
                     case CleanupLands =>
                       d.cleanup.Landed? && d.stage == c.stage && !t.value.alive && t.value.procs == {}
                     case CleanupResolves =>
                       d.cleanupConfirmed.Yes? && d.stage == (if c.stage.timedOut then LateWaiting else Removing)
                     case CleanupRejects => Unconfirmed(c, d) && d.cleanup.Settled?
                     case CleanupTimesOut => Unconfirmed(c, d) && d.cleanup == c.cleanup
                     case LateContinues =>
                       && d.stage == (if c.creation.CreationOk? then LateDestroying
                                      else if c.cleanupConfirmed.Yes? then LateRejectRemoving
                                      else CreateReturned(false))
                       && (c.creation.CreationOk? ==> d.late.Issued?)
                     case LateLands => d.late.Landed? && d.stage == c.stage && !t.value.alive && t.value.procs == {}
                     case LateResolves => d.stage == LateRemoving && d.late.Settled?
                     case _ => d.stage == CreateReturned(false) && d.late == c.late)
  {
  }

  /** The clean-up destroy failed: nothing is removed now, and after a timeout the creation is still waited for. */
  predicate Unconfirmed(c: Creator, d: Creator) {
    && c.stage.CleaningUp? && d.cleanupConfirmed == c.cleanupConfirmed
    && d.stage == (if c.stage.timedOut then LateWaiting
                   else if c.cleanupConfirmed.Yes? then Removing else CreateReturned(false))
  }
}
