/** One sandbox lease as a state machine: the registry record, the provider, one `create`,
    and any number of executions, kills and destroys, interleaved at every await.
    A provider call is issued, may take effect once while it is outstanding (it lands),
    and settles once. A call that timed out stays outstanding and may still land;
    a settled call has no later effect. A registry request is atomic; its reply may be lost. */
module SandboxProtocol {
  import opened Options
  import opened Strings
  import opened LeaseRegistry
  import opened Outcomes

  type Pid = ProcessId

  /** A provider call: not issued, outstanding without or with its effect, or settled. */
  datatype Flight = Idle | Issued | Landed | Settled

  predicate Flying(f: Flight) { f.Issued? || f.Landed? }

  // ---- Executions: `runProcess` ----

  datatype Stage =
    | Beginning        // awaiting beginProcess
    | FirstRemove      // awaiting the initial removeOutboundByHost
    | SettingRule      // awaiting setOutboundByHost
    | GettingSession   // awaiting getSession
    | StartingProcess  // awaiting startProcess
    | Marking          // awaiting markProcessRunning
    | Signalling       // kill_requested was read: awaiting process.kill
    | FinishingKill    // awaiting finishKill
    | AwaitingExit     // awaiting the streamed exit
    | CatchSignal      // failed with a process: awaiting process.kill
    | CatchWait        // awaiting waitForExit
    | CatchKillById    // failed without a process object: awaiting killProcess
    | FinalRemove      // awaiting the closing removeOutboundByHost
    | Clearing         // awaiting clearProcess
    | Closed           // the queue is closed

  datatype Exec = Exec(
    egress: Option<Text>,      // the run whose tool gateway is asked for; `None` is deny_all
    stage: Stage,
    bound: Flag,               // processBound
    hasSandbox: Flag,          // sandbox !== undefined
    startAttempted: Flag,
    startUncertain: Flag,
    terminalConfirmed: Flag,
    clean: Flag,               // outboundStateConfirmedClean
    attempted: Flag,           // toolGatewayConfigurationAttempted
    confirmed: Flag,           // toolGatewayConfigurationConfirmed
    hasProcess: Flag,          // process !== undefined
    firstRemove: Flight,
    setRule: Flight,
    start: Flight,
    killById: Flight,
    finalRemove: Flight,
    signalled: Flag,           // history: a SIGTERM was issued to its process
    killSeen: Flag)            // history: a kill was accepted while it was starting

  function NewExec(egress: Option<Text>): Exec {
    Exec(egress, Beginning, No, No, No, No, No, No, No, No, No, Idle, Idle, Idle, Idle, Idle, No, No)
  }

  /** A lease owned by a run serves that run only. */
  predicate RunFits(lease: Lease, runId: Text) {
    lease.grant.owner.RunOwner? ==> lease.grant.owner.runId == runId
  }

  datatype Call = CallFirstRemove | CallSetRule | CallStart | CallKillById | CallFinalRemove

  function FlightOf(x: Exec, call: Call): Flight {
    match call
    case CallFirstRemove => x.firstRemove
    case CallSetRule => x.setRule
    case CallStart => x.start
    case CallKillById => x.killById
    case CallFinalRemove => x.finalRemove
  }

  function WithFlight(x: Exec, call: Call, f: Flight): Exec {
    x.(firstRemove := if call.CallFirstRemove? then f else x.firstRemove,
       setRule := if call.CallSetRule? then f else x.setRule,
       start := if call.CallStart? then f else x.start,
       killById := if call.CallKillById? then f else x.killById,
       finalRemove := if call.CallFinalRemove? then f else x.finalRemove)
  }

  /** The tracked provider call a stage awaits. */
  function Awaited(stage: Stage): Option<Call> {
    match stage
    case FirstRemove => Some(CallFirstRemove)
    case SettingRule => Some(CallSetRule)
    case StartingProcess => Some(CallStart)
    case CatchKillById => Some(CallKillById)
    case FinalRemove => Some(CallFinalRemove)
    case _ => None
  }

  /** The end of `finally`: clear the binding only when everything is confirmed. */
  function AfterFinalRemove(x: Exec): Exec {
    x.(stage := if x.bound.Yes? && x.terminalConfirmed.Yes? && x.clean.Yes? && !x.startUncertain.Yes?
                then Clearing else Closed)
  }

  /** The finally block, up to its first await. */
  function Finally(x: Exec): Exec {
    if x.hasSandbox.Yes? && (x.attempted.Yes? || !x.clean.Yes?)
    then x.(stage := FinalRemove, finalRemove := Issued)
    else AfterFinalRemove(x)
  }

  /** The catch block, up to its first await. */
  function Fail(x: Exec): Exec {
    if x.hasProcess.Yes? || x.startAttempted.Yes? then
      x.(stage := if x.hasProcess.Yes? then CatchSignal else CatchKillById,
         terminalConfirmed := Of(x.terminalConfirmed.Yes? || !x.startAttempted.Yes?),
         killById := if x.hasProcess.Yes? then x.killById else Issued,
         signalled := Yes)
    else Finally(x.(terminalConfirmed := Yes))
  }

  /** After the initial removal: configure the Tool Gateway rule, or go on without one. */
  function AfterFirstRemove(lease: Lease, x: Exec): Exec {
    if x.egress.Some? && !RunFits(lease, x.egress.value) then Fail(x.(clean := Yes))
    else x.(stage := if x.egress.Some? then SettingRule else GettingSession,
            attempted := Of(x.attempted.Yes? || x.egress.Some?),
            clean := Of(x.egress.None?),
            setRule := if x.egress.Some? then Issued else x.setRule)
  }

  datatype ExecEvent =
    | Replied(net: Delivery, sandboxOpens: bool)  // the awaited registry request answers
    | Resolved(wrongId: bool)                     // the awaited provider promise resolves
    | Rejected
    | TimedOut
    | Lands(call: Call)                           // an outstanding call takes effect
    | SettlesLate(call: Call)                     // a call nobody awaits any more settles

  // ---- Kills and destroys ----

  datatype KillStage = KillRequesting | KillSending | KillFinishing | KillDone(outcome: KillOutcome)
  datatype KillOutcome = KillFailed(killRetryable: bool) | KillAlready | KillSucceeded
  datatype Killer = Killer(stage: KillStage, target: Pid, flight: Flight)

  datatype DestroyStage = DestroyReserving | DestroySending(isFresh: bool) | DestroyAborting | DestroyFinishing
                        | DestroyDone(outcome: DestroyOutcome)
  datatype DestroyOutcome = DestroyFailed(destroyRetryable: bool) | DestroyAlready | DestroySucceeded
  datatype Destroyer = Destroyer(stage: DestroyStage, flight: Flight)

  datatype CallerEvent =
    | CallerReplied(net: Delivery)
    | CallerResolved
    | CallerRejected
    | CallerTimedOut
    | CallerLands
    | CallerSettlesLate

  // ---- The create call ----

  /** The createSession call; a rejected call remembers whether it had taken effect. */
  datatype Creation = NotCreated | CreationIssued | CreationLanded | CreationOk | CreationError(hadEffect: bool)

  datatype CreatorStage =
    | Reserving           // awaiting reserve
    | Creating            // awaiting createSession
    | MarkingReady        // awaiting markReady
    | CleaningUp(timedOut: bool)  // in catch: awaiting destroy
    | Removing            // in catch: awaiting remove
    | LateWaiting         // create returned; the continuation waits for the creation to settle
    | LateDestroying      // late success: awaiting destroy
    | LateRemoving        // late success: awaiting remove
    | LateRejectRemoving  // late rejection after a confirmed cleanup: awaiting remove
    | CreateReturned(created: bool)

  datatype Creator = Creator(
    stage: CreatorStage,
    creation: Creation,
    cleanup: Flight,        // destroy in the catch block
    late: Flight,           // destroy in the late continuation
    cleanupConfirmed: Flag,
    lateConfirmed: Flag,    // history: the late destroy resolved
    cleanupLanded: Flag,    // history: the destroy in the catch block took effect
    landedLate: Flag,       // history: createSession took effect after it
    lateRemoved: Flag)      // history: the late rejection's removal reached the pending record

  datatype CreatorEvent =
    | CreatorReplied(net: Delivery)
    | CreationLands
    | CreationSettles(ok: bool)
    | CreationTimesOut
    | CleanupLands
    | CleanupResolves
    | CleanupRejects
    | CleanupTimesOut
    | LateContinues
    | LateLands
    | LateResolves
    | LateFails

  // ---- The whole lease ----

  datatype System = System(
    lease: Lease,
    provider: Text,
    session: Text,
    record: Option<LeaseRecord>,  // the registry's storage
    creator: Creator,
    alive: bool,                  // the provider holds a live sandbox
    rule: Option<Pid>,            // the outbound rule in effect, by the execution that set it
    procs: set<Pid>,              // live processes, by execution
    execs: map<Pid, Exec>,
    killers: map<nat, Killer>,
    destroyers: map<nat, Destroyer>,
    destroyConfirmed: bool)       // history: some destroy of `destroy` resolved

  function Initial(lease: Lease, provider: Text, session: Text): System {
    System(lease, provider, session, None,
           Creator(Reserving, NotCreated, Idle, Idle, No, No, No, No, No),
           false, None, {}, map[], map[], map[], false)
  }

  datatype Action =
    | Execute(pid: Pid, egress: Option<Text>)
    | StartKill(k: nat)
    | StartDestroy(d: nat)
    | ExecMoves(mover: Pid, exec: ExecEvent)
    | KillMoves(killer: nat, kill: CallerEvent)
    | DestroyMoves(destroyer: nat, destroy: CallerEvent)
    | CreateMoves(create: CreatorEvent)
    | ProcessExits(exiting: Pid)   // a process ends by itself
    | RuleDrops                    // the provider loses the rule

  /** A request on this lease, as the registry client sends it. */
  function Ask(s: System, path: Path, pid: Option<Pid>): (Option<LeaseRecord>, Reply) {
    Transition(s.record, Request(true, path, Some(s.lease), pid, None))
  }

  /** The stored record after a request: a request that is not sent has no effect. */
  function Stored(s: System, path: Path, pid: Option<Pid>, net: Delivery): Option<LeaseRecord> {
    if net == NotSent then s.record else Ask(s, path, pid).0
  }

  /** The reply the caller sees; `None` when the request throws. */
  function Heard(s: System, path: Path, pid: Option<Pid>, net: Delivery): Option<Reply> {
    if net == Delivered then Some(Ask(s, path, pid).1) else None
  }

  function BeginReplied(s: System, p: Pid, x: Exec, net: Delivery, sandboxOpens: bool): System {
    var heard := Heard(s, ProcessBegin, Some(p), net);
    var reserved := heard.Some? && heard.value.ProcessReserved?;
    var y := if reserved && sandboxOpens
             then x.(bound := Yes, hasSandbox := Yes, stage := FirstRemove, firstRemove := Issued)
             else Fail(x.(bound := Of(x.bound.Yes? || reserved)));
    s.(record := Stored(s, ProcessBegin, Some(p), net), execs := s.execs[p := y])
  }

  function MarkReplied(s: System, p: Pid, x: Exec, net: Delivery): System {
    var heard := Heard(s, ProcessRunning, Some(p), net);
    var y := if heard.Some? && heard.value.MarkedRunning?
             then x.(stage := if heard.value.killRequested then Signalling else AwaitingExit,
                     signalled := Of(x.signalled.Yes? || heard.value.killRequested))
             else Fail(x);
    s.(record := Stored(s, ProcessRunning, Some(p), net), execs := s.execs[p := y])
  }

  function KillFinishReplied(s: System, p: Pid, x: Exec, net: Delivery): System {
    var heard := Heard(s, KillFinish, None, net);
    var y := if heard.Some? && heard.value.NoContent? then x.(stage := AwaitingExit) else Fail(x);
    s.(record := Stored(s, KillFinish, None, net), execs := s.execs[p := y])
  }

  function ClearReplied(s: System, p: Pid, x: Exec, net: Delivery): System {
    s.(record := Stored(s, ProcessClear, Some(p), net), execs := s.execs[p := x.(stage := Closed)])
  }

  /** The awaited registry request answers, or throws. */
  function ExecReplied(s: System, p: Pid, x: Exec, net: Delivery, sandboxOpens: bool): Option<System> {
    if x.stage.Beginning? then Some(BeginReplied(s, p, x, net, sandboxOpens))
    else if x.stage.Marking? then Some(MarkReplied(s, p, x, net))
    else if x.stage.FinishingKill? then Some(KillFinishReplied(s, p, x, net))
    else if x.stage.Clearing? then Some(ClearReplied(s, p, x, net))
    else None
  }

  function Removed(lease: Lease, x: Exec): Exec { AfterFirstRemove(lease, x.(firstRemove := Settled)) }

  function RuleSet(x: Exec): Exec { x.(stage := GettingSession, setRule := Settled, confirmed := Yes) }

  function SessionOpened(x: Exec): Exec {
    x.(stage := StartingProcess, startAttempted := Yes, start := Issued)
  }

  function Started(x: Exec, wrongId: bool): Exec {
    if wrongId then Fail(x.(start := Settled, hasProcess := Yes))
    else x.(stage := Marking, start := Settled, hasProcess := Yes)
  }

  function Signalled(x: Exec): Exec {
    x.(stage := if x.stage.Signalling? then FinishingKill else CatchWait)
  }

  /** The exit was streamed, or waitForExit resolved. */
  function Exited(x: Exec): Exec { Finally(x.(terminalConfirmed := Yes)) }

  function KilledById(x: Exec): Exec { Finally(x.(killById := Settled, terminalConfirmed := Yes)) }

  function FinallyRemoved(x: Exec): Exec {
    AfterFinalRemove(x.(finalRemove := Settled, clean := Of(x.clean.Yes? || !x.attempted.Yes? || x.confirmed.Yes?)))
  }

  /** The awaited provider promise resolves; `gone` says the process is not live:
      the provider reports an exit only for a process that is gone. */
  function AfterResolve(lease: Lease, x: Exec, gone: bool, wrongId: bool): Option<Exec> {
    if x.stage.FirstRemove? && x.firstRemove.Landed? then Some(Removed(lease, x))
    else if x.stage.SettingRule? && x.setRule.Landed? then Some(RuleSet(x))
    else if x.stage.GettingSession? then Some(SessionOpened(x))
    else if x.stage.StartingProcess? && x.start.Landed? then Some(Started(x, wrongId))
    else if x.stage.Signalling? || x.stage.CatchSignal? then Some(Signalled(x))
    else if (x.stage.AwaitingExit? || x.stage.CatchWait?) && gone then Some(Exited(x))
    else if x.stage.CatchKillById? && x.killById.Landed? then Some(KilledById(x))
    else if x.stage.FinalRemove? && x.finalRemove.Landed? then Some(FinallyRemoved(x))
    else None
  }

  /** The flags when the awaited provider promise throws: a rejected call is settled,
      a timed-out one stays outstanding. */
  function Thrown(x: Exec, timedOut: bool): Exec {
    x.(firstRemove := if x.stage.FirstRemove? && !timedOut then Settled else x.firstRemove,
       setRule := if x.stage.SettingRule? && !timedOut then Settled else x.setRule,
       start := if x.stage.StartingProcess? && !timedOut then Settled else x.start,
       startUncertain := Of(x.startUncertain.Yes? || (x.stage.StartingProcess? && timedOut)),
       killById := if x.stage.CatchKillById? && !timedOut then Settled else x.killById,
       finalRemove := if x.stage.FinalRemove? && !timedOut then Settled else x.finalRemove,
       clean := Of(x.clean.Yes? && !x.stage.FinalRemove?))
  }

  /** The awaited provider promise rejects, or its timeout fires. */
  function AfterThrow(x: Exec, timedOut: bool): Option<Exec> {
    var y := Thrown(x, timedOut);
    if x.stage.FirstRemove? || x.stage.SettingRule? || (x.stage.GettingSession? && !timedOut)
       || x.stage.StartingProcess? || x.stage.Signalling? || x.stage.AwaitingExit? then Some(Fail(y))
    else if x.stage.CatchSignal? || x.stage.CatchWait? || x.stage.CatchKillById? then Some(Finally(y))
    else if x.stage.FinalRemove? then Some(AfterFinalRemove(y))
    else None
  }

  function WithExec(s: System, p: Pid, x: Option<Exec>): Option<System> {
    if x.Some? then Some(s.(execs := s.execs[p := x.value])) else None
  }

  /** The outbound rule after `p`'s call took effect. */
  function RuleAfter(rule: Option<Pid>, p: Pid, call: Call): Option<Pid> {
    match call
    case CallFirstRemove => None
    case CallFinalRemove => None
    case CallSetRule => Some(p)
    case _ => rule
  }

  /** The live processes after `p`'s call took effect. */
  function ProcsAfter(procs: set<Pid>, p: Pid, call: Call): set<Pid> {
    match call
    case CallStart => procs + {p}
    case CallKillById => procs - {p}
    case _ => procs
  }

  /** An outstanding call takes effect at the provider; using the sandbox may start it again. */
  function ExecLands(s: System, p: Pid, x: Exec, call: Call): Option<System> {
    if !FlightOf(x, call).Issued? then None
    else Some(s.(execs := s.execs[p := WithFlight(x, call, Landed)], alive := true,
                 rule := RuleAfter(s.rule, p, call), procs := ProcsAfter(s.procs, p, call)))
  }

  function ExecStep(s: System, p: Pid, e: ExecEvent): Option<System>
    requires p in s.execs
  {
    var x := s.execs[p];
    match e
    case Replied(net, sandboxOpens) => ExecReplied(s, p, x, net, sandboxOpens)
    case Resolved(wrongId) => WithExec(s, p, AfterResolve(s.lease, x, p !in s.procs, wrongId))
    case Rejected => WithExec(s, p, AfterThrow(x, false))
    case TimedOut => WithExec(s, p, AfterThrow(x, true))
    case Lands(call) => ExecLands(s, p, x, call)
    case SettlesLate(call) =>
      if Flying(FlightOf(x, call)) && Awaited(x.stage) != Some(call)
      then Some(s.(execs := s.execs[p := WithFlight(x, call, Settled)])) else None
  }

  /** An accepted kill of a process that is still starting is remembered on its execution. */
  function NoteKill(s: System, net: Delivery): map<Pid, Exec> {
    var reply := Ask(s, Kill, None).1;
    if net != NotSent && reply.KillReserved? && reply.processId in s.execs
       && s.record.Some? && s.record.value.processState == Some(Starting)
    then s.execs[reply.processId := s.execs[reply.processId].(killSeen := Yes)]
    else s.execs
  }

  function KillRequested(s: System, k: nat, net: Delivery): System {
    var heard := Heard(s, Kill, None, net);
    var stage := if heard.None? then KillDone(KillFailed(true))
                 else if heard.value.KillAlreadyTerminal? then KillDone(KillAlready)
                 else if heard.value.KillReserved? then KillSending
                 else KillDone(KillFailed(false));
    s.(record := Stored(s, Kill, None, net),
       execs := NoteKill(s, net),
       killers := s.killers[k := Killer(stage,
                                        if stage.KillSending? then heard.value.processId else 0,
                                        if stage.KillSending? then Issued else Idle)])
  }

  function KillConcluded(s: System, k: nat, c: Killer, net: Delivery): System {
    var heard := Heard(s, KillFinish, None, net);
    s.(record := Stored(s, KillFinish, None, net),
       killers := s.killers[k := c.(stage := KillDone(if heard.Some? && heard.value.NoContent?
                                                      then KillSucceeded else KillFailed(true)))])
  }

  /** The killProcess call of `kill`: settles for its caller, lands, or settles unobserved. */
  function KillCall(c: Killer, e: CallerEvent): Option<Killer> {
    if e.CallerResolved? && c.stage.KillSending? && c.flight.Landed?
    then Some(c.(stage := KillFinishing, flight := Settled))
    else if e.CallerRejected? && c.stage.KillSending?
    then Some(c.(stage := KillDone(KillFailed(true)), flight := Settled))
    else if e.CallerTimedOut? && c.stage.KillSending? then Some(c.(stage := KillDone(KillFailed(true))))
    else if e.CallerLands? && c.flight.Issued? then Some(c.(flight := Landed))
    else if e.CallerSettlesLate? && Flying(c.flight) && !c.stage.KillSending? then Some(c.(flight := Settled))
    else None
  }

  function KillStep(s: System, k: nat, e: CallerEvent): Option<System>
    requires k in s.killers
  {
    var c := s.killers[k];
    if e.CallerReplied? then
      if c.stage.KillRequesting? then Some(KillRequested(s, k, e.net))
      else if c.stage.KillFinishing? then Some(KillConcluded(s, k, c, e.net))
      else None
    else
      var d := KillCall(c, e);
      if d.None? then None
      else if e.CallerLands?
      then Some(s.(killers := s.killers[k := d.value], alive := true, procs := s.procs - {c.target}))
      else Some(s.(killers := s.killers[k := d.value]))
  }

  function DestroyRequested(s: System, d: nat, net: Delivery): System {
    var heard := Heard(s, DestroyBegin, None, net);
    var stage := if heard.None? then DestroyDone(DestroyFailed(true))
                 else if heard.value.AlreadyDestroyed? then DestroyDone(DestroyAlready)
                 else if heard.value.DestroyReserved? then DestroySending(heard.value.recovery.Fresh?)
                 else DestroyDone(DestroyFailed(false));
    s.(record := Stored(s, DestroyBegin, None, net),
       destroyers := s.destroyers[d := Destroyer(stage, if stage.DestroySending? then Issued else Idle)])
  }

  function DestroyAborted(s: System, d: nat, c: Destroyer, net: Delivery): System {
    s.(record := Stored(s, DestroyAbort, None, net),
       destroyers := s.destroyers[d := c.(stage := DestroyDone(DestroyFailed(true)))])
  }

  function DestroyConcluded(s: System, d: nat, c: Destroyer, net: Delivery): System {
    var heard := Heard(s, DestroyFinish, None, net);
    s.(record := Stored(s, DestroyFinish, None, net),
       destroyers := s.destroyers[d := c.(stage := DestroyDone(if heard.Some? && heard.value.NoContent?
                                                              then DestroySucceeded else DestroyFailed(true)))])
  }

  /** The provider's destroy call: only a fresh reservation whose destroy was rejected aborts. */
  function DestroyCall(c: Destroyer, e: CallerEvent): Option<Destroyer> {
    if e.CallerResolved? && c.stage.DestroySending? && c.flight.Landed?
    then Some(Destroyer(DestroyFinishing, Settled))
    else if e.CallerRejected? && c.stage.DestroySending?
    then Some(Destroyer(if c.stage.isFresh then DestroyAborting else DestroyDone(DestroyFailed(true)), Settled))
    else if e.CallerTimedOut? && c.stage.DestroySending? then Some(c.(stage := DestroyDone(DestroyFailed(true))))
    else if e.CallerLands? && c.flight.Issued? then Some(c.(flight := Landed))
    else if e.CallerSettlesLate? && Flying(c.flight) && !c.stage.DestroySending? then Some(c.(flight := Settled))
    else None
  }

  function DestroyStep(s: System, d: nat, e: CallerEvent): Option<System>
    requires d in s.destroyers
  {
    var c := s.destroyers[d];
    if e.CallerReplied? then
      if c.stage.DestroyReserving? then Some(DestroyRequested(s, d, e.net))
      else if c.stage.DestroyAborting? then Some(DestroyAborted(s, d, c, e.net))
      else if c.stage.DestroyFinishing? then Some(DestroyConcluded(s, d, c, e.net))
      else None
    else
      var n := DestroyCall(c, e);
      if n.None? then None
      else if e.CallerLands?
      then Some(s.(destroyers := s.destroyers[d := n.value], alive := false, procs := {}, rule := None))
      else Some(s.(destroyers := s.destroyers[d := n.value],
                   destroyConfirmed := s.destroyConfirmed || e.CallerResolved?))
  }

  /** The end of the catch block: leave the creation to the late continuation, or remove the record. */
  function AfterCleanup(c: Creator): Creator {
    c.(stage := if c.stage.CleaningUp? && c.stage.timedOut then LateWaiting
                else if c.cleanupConfirmed.Yes? then Removing
                else CreateReturned(false))
  }

  function ReserveReplied(s: System, net: Delivery): System {
    var request := Request(true, Reserve, None, None, Some(FreshRecord(s.lease, s.provider, s.session)));
    var reserved := net.Delivered? && s.record.None?;
    s.(record := if net.NotSent? then s.record else Transition(s.record, request).0,
       creator := s.creator.(stage := if reserved then Creating else CreateReturned(false),
                             creation := if reserved then CreationIssued else s.creator.creation))
  }

  function ReadyReplied(s: System, net: Delivery): System {
    var heard := Heard(s, MarkReady, None, net);
    var done := heard.Some? && heard.value.NoContent?;
    s.(record := Stored(s, MarkReady, None, net),
       creator := s.creator.(stage := if done then CreateReturned(true) else CleaningUp(false),
                             cleanup := if done then s.creator.cleanup else Issued))
  }

  function RemoveReplied(s: System, net: Delivery): System {
    var next := Stored(s, Remove, None, net);
    s.(record := next,
       creator := s.creator.(
         stage := CreateReturned(false),
         lateRemoved := Of(s.creator.lateRemoved.Yes?
                           || (s.creator.stage.LateRejectRemoving? && s.record.Some? && next.None?))))
  }

  function CreationSettled(c: Creator, ok: bool): Creator {
    c.(creation := if ok then CreationOk else CreationError(c.creation.CreationLanded?),
       stage := if !c.stage.Creating? then c.stage else if ok then MarkingReady else CleaningUp(false),
       cleanup := if c.stage.Creating? && !ok then Issued else c.cleanup)
  }

  /** The creator's provider calls: createSession, the cleanup destroy and the late destroy. */
  function CreatorCall(c: Creator, e: CreatorEvent): Option<Creator> {
    if e.CreationLands? && c.creation.CreationIssued?
    then Some(c.(creation := CreationLanded, landedLate := c.cleanupLanded))
    else if e.CreationSettles? && (c.creation.CreationLanded? || (c.creation.CreationIssued? && !e.ok))
    then Some(CreationSettled(c, e.ok))
    else if e.CreationTimesOut? && c.stage.Creating? then Some(c.(stage := CleaningUp(true), cleanup := Issued))
    else if e.CleanupLands? && c.cleanup.Issued? then Some(c.(cleanup := Landed, cleanupLanded := Yes))
    else if e.CleanupResolves? && c.stage.CleaningUp? && c.cleanup.Landed?
    then Some(AfterCleanup(c.(cleanup := Settled, cleanupConfirmed := Yes)))
    else if e.CleanupRejects? && c.stage.CleaningUp? then Some(AfterCleanup(c.(cleanup := Settled)))
    else if e.CleanupTimesOut? && c.stage.CleaningUp? then Some(AfterCleanup(c))
    else if e.LateContinues? && c.stage.LateWaiting? && c.creation.CreationOk?
    then Some(c.(stage := LateDestroying, late := Issued))
    else if e.LateContinues? && c.stage.LateWaiting? && c.creation.CreationError?
    then Some(c.(stage := if c.cleanupConfirmed.Yes? then LateRejectRemoving else CreateReturned(false)))
    else if e.LateLands? && c.late.Issued? then Some(c.(late := Landed))
    else if e.LateResolves? && c.stage.LateDestroying? && c.late.Landed?
    then Some(c.(stage := LateRemoving, late := Settled, lateConfirmed := Yes))
    // rejected or timed out: the tombstone stays, and a timed-out destroy may still land
    else if e.LateFails? && c.stage.LateDestroying? then Some(c.(stage := CreateReturned(false)))
    else None
  }

  function CreateStep(s: System, e: CreatorEvent): Option<System> {
    var c := s.creator;
    if e.CreatorReplied? then
      if c.stage.Reserving? then Some(ReserveReplied(s, e.net))
      else if c.stage.MarkingReady? then Some(ReadyReplied(s, e.net))
      else if c.stage.Removing? || c.stage.LateRemoving? || c.stage.LateRejectRemoving?
      then Some(RemoveReplied(s, e.net))
      else None
    else
      var n := CreatorCall(c, e);
      if n.None? then None
      else if e.CleanupLands? || e.LateLands?
      then Some(s.(creator := n.value, alive := false, procs := {}, rule := None))
      else Some(s.(creator := n.value, alive := s.alive || e.CreationLands?))
  }

  /** One step, or `None` when the action is not possible in `s`. */
  function Step(s: System, a: Action): Option<System> {
    match a
    case Execute(p, egress) =>
      // newId never repeats
      if p in s.execs then None else Some(s.(execs := s.execs[p := NewExec(egress)]))
    case StartKill(k) =>
      if k in s.killers then None else Some(s.(killers := s.killers[k := Killer(KillRequesting, 0, Idle)]))
    case StartDestroy(d) =>
      if d in s.destroyers then None
      else Some(s.(destroyers := s.destroyers[d := Destroyer(DestroyReserving, Idle)]))
    case ExecMoves(p, e) => if p in s.execs then ExecStep(s, p, e) else None
    case KillMoves(k, e) => if k in s.killers then KillStep(s, k, e) else None
    case DestroyMoves(d, e) => if d in s.destroyers then DestroyStep(s, d, e) else None
    case CreateMoves(e) => CreateStep(s, e)
    case ProcessExits(p) => Some(s.(procs := s.procs - {p}))
    case RuleDrops => Some(s.(rule := None))
  }

  function Run(s: System, actions: seq<Action>): Option<System>
    decreases |actions|
  {
    if actions == [] then Some(s)
    else var next := Step(s, actions[0]);
         if next.None? then None else Run(next.value, actions[1..])
  }
}
