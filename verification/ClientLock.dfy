/** The promise-chain mutex that serialises transactions on a shared database client. */
module ClientLock {
  import opened Options

  type Client = nat

  datatype Stage = Waiting | Running | Settled(threw: bool)

  /** One call. `previous` is the call whose queued promise it awaits; `None` is an already resolved promise.
      Its own promise `current` is released when it settles. */
  datatype Call = Call(client: Client, previous: Option<nat>, stage: Stage)

  /** `entries` maps a client to the call whose queued promise is stored for it. */
  datatype Locks = Locks(entries: map<Client, nat>, calls: seq<Call>)

  /** queued(k) = previous(k).then(() => current(k)): resolved when `k` is released and its predecessor's
      is resolved. */
  predicate QueuedResolved(calls: seq<Call>, k: nat)
    requires k < |calls|
    decreases k
  {
    && calls[k].stage.Settled?
    && (calls[k].previous.Some? ==> calls[k].previous.value < k && QueuedResolved(calls, calls[k].previous.value))
  }

  /** What `k` awaits is resolved. */
  predicate MayStart(calls: seq<Call>, k: nat)
    requires k < |calls|
  {
    calls[k].previous.Some? ==> calls[k].previous.value < k && QueuedResolved(calls, calls[k].previous.value)
  }

  datatype Action =
    | Arrives(client: Client)              // up to the await: read the entry, store the queued promise
    | Starts(starter: nat)                 // the await resolves and the operation begins
    | Finishes(finisher: nat, threw: bool) // the operation settles: release, and delete the entry if it is still ours

  function Step(s: Locks, a: Action): Option<Locks> {
    match a
    case Arrives(c) =>
      var previous := if c in s.entries then Some(s.entries[c]) else None;
      Some(Locks(s.entries[c := |s.calls|], s.calls + [Call(c, previous, Waiting)]))
    case Starts(k) =>
      if k < |s.calls| && s.calls[k].stage.Waiting? && MayStart(s.calls, k)
      then Some(s.(calls := s.calls[k := s.calls[k].(stage := Running)])) else None
    case Finishes(k, threw) =>
      if k < |s.calls| && s.calls[k].stage.Running? then
        var c := s.calls[k].client;
        Some(Locks(if c in s.entries && s.entries[c] == k then s.entries - {c} else s.entries,
                   s.calls[k := s.calls[k].(stage := Settled(threw))]))
      else None
  }

  class LockTable {
    var entries: map<Client, nat>
    var calls: seq<Call>

    ghost function View(): Locks
      reads this
    {
      Locks(entries, calls)
    }

    constructor ()
      ensures View() == Locks(map[], [])
    {
      entries, calls := map[], [];
    }

    method Enter(client: Client) returns (ticket: nat)
      modifies this
      ensures Some(View()) == Step(old(View()), Arrives(client))
      ensures ticket == old(|calls|)
    {
      var previous := if client in entries then Some(entries[client]) else None;
      ticket := |calls|;
      calls := calls + [Call(client, previous, Waiting)];
      entries := entries[client := ticket];
    }

    method Begin(ticket: nat)
      requires ticket < |calls| && calls[ticket].stage.Waiting? && MayStart(calls, ticket)
      modifies this
      ensures Some(View()) == Step(old(View()), Starts(ticket))
    {
      calls := calls[ticket := calls[ticket].(stage := Running)];
    }

    method Leave(ticket: nat, threw: bool)
      requires ticket < |calls| && calls[ticket].stage.Running?
      modifies this
      ensures Some(View()) == Step(old(View()), Finishes(ticket, threw))
    {
      var client := calls[ticket].client;
      calls := calls[ticket := calls[ticket].(stage := Settled(threw))];
      if client in entries && entries[client] == ticket { entries := entries - {client}; }
    }
  }

  // ---- Every schedule ----

  /** Once a call has begun, all earlier calls of its client are over. */
  ghost predicate InOrder(calls: seq<Call>) {
    forall j, k :: 0 <= j < k < |calls| && calls[j].client == calls[k].client && !calls[k].stage.Waiting? ==>
      calls[j].stage.Settled?
  }

  /** A call awaits the last earlier call of its client, or none if all of those are over. */
  ghost predicate Chained(calls: seq<Call>) {
    && (forall k :: 0 <= k < |calls| && calls[k].previous.Some? ==>
          calls[k].previous.value < k && calls[calls[k].previous.value].client == calls[k].client)
    && (forall j, k :: 0 <= j < k < |calls| && calls[j].client == calls[k].client ==>
          if calls[k].previous.Some? then j <= calls[k].previous.value else calls[j].stage.Settled?)
  }

  /** A client has an entry exactly while its last call is not over, and the entry is that call. */
  ghost predicate EntriesOk(s: Locks) {
    && (forall c :: c in s.entries ==>
          s.entries[c] < |s.calls| && s.calls[s.entries[c]].client == c && !s.calls[s.entries[c]].stage.Settled?)
    && (forall k :: 0 <= k < |s.calls| ==>
          if s.calls[k].client in s.entries then k <= s.entries[s.calls[k].client] else s.calls[k].stage.Settled?)
  }

  ghost predicate Inv(s: Locks) { InOrder(s.calls) && Chained(s.calls) && EntriesOk(s) }

  /** `t` is `calls` with call `k` in another stage. */
  ghost predicate Restaged(calls: seq<Call>, t: seq<Call>, k: nat, stage: Stage) {
    && |t| == |calls| && k < |t| && t[k].stage == stage
    && (forall i :: 0 <= i < |t| ==> t[i].client == calls[i].client && t[i].previous == calls[i].previous)
    && (forall i :: 0 <= i < |t| && i != k ==> t[i].stage == calls[i].stage)
  }

  lemma RestagedChained(calls: seq<Call>, t: seq<Call>, k: nat, stage: Stage)
    requires Chained(calls) && Restaged(calls, t, k, stage) && !calls[k].stage.Settled?
    ensures Chained(t)
  {
  }

  lemma RestagedInOrder(calls: seq<Call>, t: seq<Call>, k: nat, stage: Stage)
    requires InOrder(calls) && Restaged(calls, t, k, stage) && !calls[k].stage.Settled?
    requires
      || calls[k].stage.Running?
      || forall j :: 0 <= j < k && calls[j].client == calls[k].client ==> calls[j].stage.Settled?
    ensures InOrder(t)
  {
  }

  /** What the awaited promise says: every earlier call of the client is over. */
  lemma AwaitedOver(s: Locks, k: nat)
    requires Inv(s) && k < |s.calls| && MayStart(s.calls, k)
    ensures forall j :: 0 <= j < k && s.calls[j].client == s.calls[k].client ==> s.calls[j].stage.Settled?
  {
    var p := s.calls[k].previous;
    if p.Some? {
      assert s.calls[p.value].stage.Settled?;
      hide QueuedResolved;
      forall j | 0 <= j < k && s.calls[j].client == s.calls[k].client ensures s.calls[j].stage.Settled? {
        assert j <= p.value;
      }
    }
  }

  lemma StartKeeps(s: Locks, k: nat)
    requires Inv(s) && Step(s, Starts(k)).Some?
    ensures Inv(Step(s, Starts(k)).value)
  {
    AwaitedOver(s, k);
    var t := Step(s, Starts(k)).value;
    hide MayStart;
    assert Restaged(s.calls, t.calls, k, Running) && t.entries == s.entries;
    hide Step;
    RestagedChained(s.calls, t.calls, k, Running);
    RestagedInOrder(s.calls, t.calls, k, Running);
    hide InOrder, Chained;
  }

  lemma FinishKeeps(s: Locks, k: nat, threw: bool)
    requires Inv(s) && Step(s, Finishes(k, threw)).Some?
    ensures Inv(Step(s, Finishes(k, threw)).value)
  {
    hide MayStart;
    var t := Step(s, Finishes(k, threw)).value;
    assert Restaged(s.calls, t.calls, k, Settled(threw));
    RestagedChained(s.calls, t.calls, k, Settled(threw));
    RestagedInOrder(s.calls, t.calls, k, Settled(threw));
    FinishEntries(s, k, threw);
    hide InOrder, Chained, EntriesOk, Step;
  }

  lemma FinishEntries(s: Locks, k: nat, threw: bool)
    requires InOrder(s.calls) && EntriesOk(s) && k < |s.calls| && s.calls[k].stage.Running?
    ensures EntriesOk(Step(s, Finishes(k, threw)).value)
  {
    hide MayStart;
    var t := Step(s, Finishes(k, threw)).value;
    var c := s.calls[k].client;
    assert Restaged(s.calls, t.calls, k, Settled(threw));
    assert c in s.entries;
    assert forall d :: d != c ==> (d in t.entries <==> d in s.entries);
    assert forall d :: d in t.entries ==> t.entries[d] == s.entries[d] && s.entries[d] != k;
    assert c in t.entries <==> s.entries[c] != k;
    hide Step;
  }

  lemma ArriveKeeps(s: Locks, c: Client)
    requires Inv(s)
    ensures Inv(Step(s, Arrives(c)).value)
  {
    hide MayStart;
  }

  lemma StepKeeps(s: Locks, a: Action)
    requires Inv(s) && Step(s, a).Some?
    ensures Inv(Step(s, a).value)
  {
    hide Inv, Step;
    match a {
      case Arrives(c) => ArriveKeeps(s, c);
      case Starts(k) => StartKeeps(s, k);
      case Finishes(k, threw) => FinishKeeps(s, k, threw);
    }
  }

  function RunAll(s: Locks, actions: seq<Action>): Option<Locks>
    decreases |actions|
  {
    if actions == [] then Some(s)
    else var next := Step(s, actions[0]);
         if next.None? then None else RunAll(next.value, actions[1..])
  }

  lemma {:induction false} RunKeeps(s: Locks, actions: seq<Action>)
    requires Inv(s) && RunAll(s, actions).Some?
    ensures Inv(RunAll(s, actions).value)
    decreases |actions|
  {
    hide Inv, Step;
    if actions != [] {
      StepKeeps(s, actions[0]);
      RunKeeps(Step(s, actions[0]).value, actions[1..]);
    }
  }

  /** In every schedule of calls, completions and throws: two operations of one client never run together,
      they begin in call order, and a client whose calls are all over has no entry. */
  lemma MutualExclusion(actions: seq<Action>)
    requires RunAll(Locks(map[], []), actions).Some?
    ensures var s := RunAll(Locks(map[], []), actions).value;
            && (forall j, k :: 0 <= j < k < |s.calls| && s.calls[j].client == s.calls[k].client ==>
                  !(s.calls[j].stage.Running? && s.calls[k].stage.Running?))
            && (forall j, k :: 0 <= j < k < |s.calls| && s.calls[j].client == s.calls[k].client ==>
                  !s.calls[k].stage.Waiting? ==> !s.calls[j].stage.Waiting?)
            && (forall c :: (c in s.entries <==>
                  exists k :: 0 <= k < |s.calls| && s.calls[k].client == c && !s.calls[k].stage.Settled?))
  {
    RunKeeps(Locks(map[], []), actions);
    var s := RunAll(Locks(map[], []), actions).value;
    hide RunAll;
    forall c
      ensures c in s.entries <==> exists k :: 0 <= k < |s.calls| && s.calls[k].client == c && !s.calls[k].stage.Settled?
    {
      if c in s.entries { assert s.calls[s.entries[c]].client == c; }
    }
  }

  lemma {:induction false} SettledResolves(calls: seq<Call>, k: nat)
    requires Chained(calls) && k < |calls|
    requires forall j :: 0 <= j <= k && calls[j].client == calls[k].client ==> calls[j].stage.Settled?
    ensures QueuedResolved(calls, k)
    decreases k
  {
    if calls[k].previous.Some? {
      SettledResolves(calls, calls[k].previous.value);
    }
  }

  lemma FirstMayGoOn(s: Locks, k: nat)
    requires Inv(s) && k < |s.calls| && !s.calls[k].stage.Settled?
    requires forall j :: 0 <= j < k && s.calls[j].client == s.calls[k].client ==> s.calls[j].stage.Settled?
    ensures s.calls[k].stage.Running? || Step(s, Starts(k)).Some?
  {
    hide QueuedResolved;
    if s.calls[k].stage.Waiting? && s.calls[k].previous.Some? {
      SettledResolves(s.calls, s.calls[k].previous.value);
    }
  }

  /** No waiter is stuck: the first unfinished call of a client is running or can begin, whether its
      predecessors returned or threw. */
  lemma FirstWaiterMayStart(actions: seq<Action>, k: nat)
    requires RunAll(Locks(map[], []), actions).Some?
    ensures var s := RunAll(Locks(map[], []), actions).value;
            k < |s.calls| && !s.calls[k].stage.Settled?
            && (forall j :: 0 <= j < k && s.calls[j].client == s.calls[k].client ==> s.calls[j].stage.Settled?) ==>
              s.calls[k].stage.Running? || Step(s, Starts(k)).Some?
  {
    RunKeeps(Locks(map[], []), actions);
    var s := RunAll(Locks(map[], []), actions).value;
    hide RunAll, QueuedResolved;
    if k < |s.calls| && !s.calls[k].stage.Settled?
       && forall j :: 0 <= j < k && s.calls[j].client == s.calls[k].client ==> s.calls[j].stage.Settled?
    {
      FirstMayGoOn(s, k);
    }
  }

  /** How many steps the calls still have to make. */
  function StepsLeft(calls: seq<Call>): nat {
    if calls == [] then 0
    else StepsLeft(calls[..|calls| - 1])
         + match calls[|calls| - 1].stage case Waiting => 2 case Running => 1 case Settled(_) => 0
  }

  lemma {:induction false} OneStepLess(calls: seq<Call>, k: nat, stage: Stage)
    requires k < |calls|
    requires (calls[k].stage.Waiting? && stage.Running?) || (calls[k].stage.Running? && stage.Settled?)
    ensures StepsLeft(calls[k := calls[k].(stage := stage)]) == StepsLeft(calls) - 1
    decreases |calls|
  {
    var n := |calls| - 1;
    var next := calls[k := calls[k].(stage := stage)];
    if k == n {
      assert next[..n] == calls[..n];
    } else {
      assert next[..n] == calls[..n][k := calls[k].(stage := stage)];
      OneStepLess(calls[..n], k, stage);
    }
  }

  /** The first call that is not over. */
  function FirstUnfinished(calls: seq<Call>, n: nat): (k: nat)
    requires n <= |calls|
    ensures k <= |calls| && (forall j :: n <= j < k ==> calls[j].stage.Settled?)
    ensures k < |calls| ==> n <= k && !calls[k].stage.Settled?
    ensures k == |calls| ==> forall j :: n <= j < |calls| ==> calls[j].stage.Settled?
    decreases |calls| - n
  {
    if n == |calls| then n else if calls[n].stage.Settled? then FirstUnfinished(calls, n + 1) else n
  }

  /** Whatever happened so far, all calls can still finish: the lock never deadlocks. */
  lemma {:induction false} AllCanFinish(s: Locks) returns (actions: seq<Action>)
    requires Inv(s)
    ensures RunAll(s, actions).Some?
    ensures |RunAll(s, actions).value.calls| == |s.calls| && RunAll(s, actions).value.entries == map[]
    ensures forall k :: 0 <= k < |s.calls| ==> RunAll(s, actions).value.calls[k].stage.Settled?
    decreases StepsLeft(s.calls)
  {
    var k := FirstUnfinished(s.calls, 0);
    if k == |s.calls| {
      assert s.entries == map[] by { assert forall c :: c !in s.entries; }
      return [];
    }
    FirstMayGoOn(s, k);
    var a := if s.calls[k].stage.Running? then Finishes(k, false) else Starts(k);
    StepKeeps(s, a);
    OneStepLess(s.calls, k, if s.calls[k].stage.Running? then Settled(false) else Running);
    var next := Step(s, a).value;
    hide Inv, QueuedResolved, StepsLeft;
    var rest := AllCanFinish(next);
    actions := [a] + rest;
    assert actions[1..] == rest;
  }
}
