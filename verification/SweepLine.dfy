/** The greatest number of sandboxes that were active at one instant, by a sweep over start and end events. */
module SweepLine {
  import opened Options

  /** When a run's sandbox was active; `None` for a time that does not parse. */
  datatype Run = Run(activeFrom: Option<int>, activeUntil: Option<int>)

  datatype Event = Event(time: int, delta: int)

  predicate Finite(r: Run) { r.activeFrom.Some? && r.activeUntil.Some? }

  predicate AllFinite(runs: seq<Run>) { forall i :: 0 <= i < |runs| ==> Finite(runs[i]) }

  /** Earlier first; at the same time, starts before ends. */
  predicate Before(a: Event, b: Event) { a.time < b.time || (a.time == b.time && a.delta >= b.delta) }

  ghost predicate Sorted(s: seq<Event>) { forall i, j :: 0 <= i < j < |s| ==> Before(s[i], s[j]) }

  function EventsOf(runs: seq<Run>): seq<Event>
    requires AllFinite(runs)
  {
    if runs == [] then []
    else EventsOf(runs[..|runs| - 1]) + [Event(runs[|runs| - 1].activeFrom.value, 1),
                                         Event(runs[|runs| - 1].activeUntil.value, -1)]
  }

  // ---- Sorting in place ----

  ghost predicate SameEvents(s: seq<Event>, t: seq<Event>) { multiset(s) == multiset(t) }

  method Swap(a: array<Event>, i: nat)
    requires 1 <= i < a.Length
    modifies a
    ensures a[i - 1] == old(a[i]) && a[i] == old(a[i - 1])
    ensures forall k :: 0 <= k < a.Length && k != i && k != i - 1 ==> a[k] == old(a[k])
    ensures SameEvents(a[..], old(a[..]))
  {
    a[i - 1], a[i] := a[i], a[i - 1];
  }

  /** Moves `a[n]` to its place among the sorted elements before it. */
  method Insert(a: array<Event>, n: nat)
    requires n < a.Length && Sorted(a[..n])
    modifies a
    ensures Sorted(a[..n + 1]) && SameEvents(a[..], old(a[..]))
  {
    SameTransitive(a[..], a[..], a[..]);
    hide SameEvents;
    var i := n;
    while i > 0 && !Before(a[i - 1], a[i])
      invariant 0 <= i <= n
      invariant forall j, k :: 0 <= j < k <= n && j != i && k != i ==> Before(a[j], a[k])
      invariant forall k :: i < k <= n ==> Before(a[i], a[k])
      invariant SameEvents(a[..], old(a[..]))
    {
      ghost var s := a[..];
      Swap(a, i);
      SameTransitive(a[..], s, old(a[..]));
      i := i - 1;
    }
    assert forall j :: 0 <= j < i ==> Before(a[j], a[i]) by {
      forall j | 0 <= j < i ensures Before(a[j], a[i]) {
        assert Before(a[i - 1], a[i]) && (j < i - 1 ==> Before(a[j], a[i - 1]));
      }
    }
  }

  lemma SameTransitive(r: seq<Event>, s: seq<Event>, t: seq<Event>)
    ensures SameEvents(r, s) && SameEvents(s, t) ==> SameEvents(r, t)
    ensures SameEvents(r, r)
  {
  }

  method Sort(a: array<Event>)
    modifies a
    ensures Sorted(a[..]) && multiset(a[..]) == multiset(old(a[..]))
  {
    var n := 0;
    while n < a.Length
      invariant 0 <= n <= a.Length && Sorted(a[..n])
      invariant SameEvents(a[..], old(a[..]))
    {
      Insert(a, n);
      n := n + 1;
    }
    assert a[..] == a[..n];
  }

  // ---- What the sweep computes ----

  function Sum(s: seq<Event>): int {
    if s == [] then 0 else Sum(s[..|s| - 1]) + s[|s| - 1].delta
  }

  /** The events a closed interval counts at time `t`: starts up to `t` and ends before `t`. */
  predicate Counts(e: Event, t: int) { e.time < t || (e.time == t && e.delta > 0) }

  function Share(e: Event, t: int): int { if Counts(e, t) then e.delta else 0 }

  /** Starts up to `t` minus ends before `t`. */
  function Net(s: seq<Event>, t: int): int {
    if s == [] then 0 else Net(s[..|s| - 1], t) + Share(s[|s| - 1], t)
  }

  predicate Unit(e: Event) { e.delta == 1 || e.delta == -1 }

  /** The runs whose closed interval of activity contains `t`. */
  function ActiveAt(runs: seq<Run>, t: int): nat
    requires AllFinite(runs)
  {
    if runs == [] then 0
    else ActiveAt(runs[..|runs| - 1], t)
         + (if runs[|runs| - 1].activeFrom.value <= t <= runs[|runs| - 1].activeUntil.value then 1 else 0)
  }

  predicate Ordered(runs: seq<Run>)
    requires AllFinite(runs)
  {
    forall i :: 0 <= i < |runs| ==> runs[i].activeFrom.value <= runs[i].activeUntil.value
  }

  lemma {:induction false} NetIsActive(runs: seq<Run>, t: int)
    requires AllFinite(runs) && Ordered(runs)
    ensures Net(EventsOf(runs), t) == ActiveAt(runs, t)
  {
    if runs != [] {
      var front, last := runs[..|runs| - 1], runs[|runs| - 1];
      NetIsActive(front, t);
      var a, b := Event(last.activeFrom.value, 1), Event(last.activeUntil.value, -1);
      var s := EventsOf(front);
      assert EventsOf(runs) == s + [a, b];
      assert (s + [a, b])[..|s| + 1] == s + [a] && (s + [a])[..|s|] == s;
    }
  }

  lemma {:induction false} NetAppend(a: seq<Event>, b: seq<Event>, t: int)
    ensures Net(a + b, t) == Net(a, t) + Net(b, t)
    decreases |b|
  {
    hide Share;
    if b == [] {
      assert a + b == a;
    } else {
      NetAppend(a, b[..|b| - 1], t);
      assert (a + b)[..|a + b| - 1] == a + b[..|b| - 1];
    }
  }

  /** The order does not matter for the net count. */
  lemma {:induction false} NetPermutes(a: seq<Event>, b: seq<Event>, t: int)
    requires multiset(a) == multiset(b)
    ensures Net(a, t) == Net(b, t)
    decreases |a|
  {
    hide Share;
    if a == [] {
      assert |multiset(b)| == 0;
    } else {
      var last := a[|a| - 1];
      assert a == a[..|a| - 1] + [last];
      assert last in multiset(b);
      var i :| 0 <= i < |b| && b[i] == last;
      assert b == b[..i] + [last] + b[i + 1..];
      assert multiset(a[..|a| - 1]) == multiset(a) - multiset{last};
      assert multiset(b[..i] + b[i + 1..]) == multiset(b) - multiset{last};
      NetPermutes(a[..|a| - 1], b[..i] + b[i + 1..], t);
      NetAppend(b[..i], b[i + 1..], t);
      NetAppend(b[..i], [last], t);
      NetAppend(b[..i] + [last], b[i + 1..], t);
      assert [last][..0] == [];
    }
  }

  /** Events not after `t` count at least their deltas. */
  lemma {:induction false} NetAtLeastSum(s: seq<Event>, t: int)
    requires forall i :: 0 <= i < |s| ==> Unit(s[i]) && s[i].time <= t
    ensures Net(s, t) >= Sum(s)
  {
    if s != [] { NetAtLeastSum(s[..|s| - 1], t); }
  }

  /** Events not before `t` never count against. */
  lemma {:induction false} NetNotNegative(s: seq<Event>, t: int)
    requires forall i :: 0 <= i < |s| ==> Unit(s[i]) && s[i].time >= t
    ensures Net(s, t) >= 0
  {
    if s != [] { NetNotNegative(s[..|s| - 1], t); }
  }

  lemma NetSplits(s: seq<Event>, k: nat, t: int)
    requires k <= |s|
    ensures Net(s, t) == Net(s[..k], t) + Net(s[k..], t)
  {
    assert s == s[..k] + s[k..];
    NetAppend(s[..k], s[k..], t);
  }

  /** In sorted order, every prefix sum is at most the net count at its last event's time. */
  lemma PrefixBelowNet(s: seq<Event>, k: nat)
    requires Sorted(s) && (forall i :: 0 <= i < |s| ==> Unit(s[i])) && 1 <= k <= |s|
    ensures Sum(s[..k]) <= Net(s, s[k - 1].time)
  {
    hide Net, Sum, Unit;
    var t := s[k - 1].time;
    NetSplits(s, k, t);
    NetAtLeastSum(s[..k], t);
    NetNotNegative(s[k..], t);
  }

  /** How many events, from the front, count at `t`. */
  function Cut(s: seq<Event>, t: int): (k: nat)
    ensures k <= |s|
  {
    if s == [] || !Counts(s[0], t) then 0 else 1 + Cut(s[1..], t)
  }

  lemma {:induction false} CutSplits(s: seq<Event>, t: int)
    requires Sorted(s) && forall i :: 0 <= i < |s| ==> Unit(s[i])
    ensures forall i :: 0 <= i < Cut(s, t) ==> Counts(s[i], t)
    ensures forall i :: Cut(s, t) <= i < |s| ==> !Counts(s[i], t)
  {
    if s != [] {
      if Counts(s[0], t) {
        CutSplits(s[1..], t);
        assert forall i :: 1 <= i < |s| ==> s[i] == s[1..][i - 1];
      } else {
        assert forall i :: 1 <= i < |s| ==> Before(s[0], s[i]);
      }
    }
  }

  lemma {:induction false} NetOfCounting(s: seq<Event>, t: int)
    ensures (forall i :: 0 <= i < |s| ==> Counts(s[i], t)) ==> Net(s, t) == Sum(s)
    ensures (forall i :: 0 <= i < |s| ==> !Counts(s[i], t)) ==> Net(s, t) == 0
  {
    hide Counts;
    if s != [] { NetOfCounting(s[..|s| - 1], t); }
  }

  /** In sorted order, the net count at any time is the sum of a prefix. */
  lemma NetIsPrefixSum(s: seq<Event>, t: int)
    requires Sorted(s) && forall i :: 0 <= i < |s| ==> Unit(s[i])
    ensures Net(s, t) == Sum(s[..Cut(s, t)])
  {
    hide Net, Sum, Counts;
    var k := Cut(s, t);
    CutSplits(s, t);
    hide Sorted, Cut;
    NetSplits(s, k, t);
    NetOfCounting(s[..k], t);
    NetOfCounting(s[k..], t);
  }

  lemma {:induction false} EventsAreUnit(runs: seq<Run>)
    requires AllFinite(runs)
    ensures forall e :: e in EventsOf(runs) ==> Unit(e)
    ensures |EventsOf(runs)| == 2 * |runs|
  {
    if runs != [] { EventsAreUnit(runs[..|runs| - 1]); }
  }

  // ---- The loop ----

  /** `m` is the greatest prefix sum. */
  ghost predicate IsMaxPrefix(s: seq<Event>, m: int) {
    && (forall k :: 0 <= k <= |s| ==> Sum(s[..k]) <= m)
    && (exists k :: 0 <= k <= |s| && Sum(s[..k]) == m)
  }

  method Sweep(a: array<Event>) returns (maximum: int)
    ensures IsMaxPrefix(a[..], maximum)
  {
    var active := 0;
    maximum := 0;
    ghost var at := 0;
    assert a[..0] == [];
    for n := 0 to a.Length
      invariant active == Sum(a[..n])
      invariant forall k :: 0 <= k <= n ==> Sum(a[..k]) <= maximum
      invariant 0 <= at <= n && Sum(a[..at]) == maximum
    {
      assert a[..n + 1][..n] == a[..n];
      active := active + a[n].delta;
      if active > maximum { maximum, at := active, n + 1; }
    }
    assert forall k :: 0 <= k <= a.Length ==> a[..][..k] == a[..k];
    assert Sum(a[..][..at]) == maximum;
  }

  /** `m` is 0 or a net count, and no net count is greater: the result, whatever the intervals. */
  ghost predicate IsPeak(runs: seq<Run>, m: int)
    requires AllFinite(runs)
  {
    && (forall t :: Net(EventsOf(runs), t) <= m)
    && (m == 0 || exists t :: Net(EventsOf(runs), t) == m)
    && m >= 0
  }

  lemma SortedPeak(runs: seq<Run>, s: seq<Event>, m: int)
    requires AllFinite(runs) && Sorted(s) && multiset(s) == multiset(EventsOf(runs)) && IsMaxPrefix(s, m)
    ensures IsPeak(runs, m)
  {
    EventsAreUnit(runs);
    forall i | 0 <= i < |s| ensures Unit(s[i]) {
      assert s[i] in multiset(s);
    }
    hide Unit;
    forall t ensures Net(EventsOf(runs), t) <= m {
      NetPermutes(s, EventsOf(runs), t);
      NetIsPrefixSum(s, t);
    }
    assert Sum(s[..0]) <= m;
    if m > 0 {
      var k :| 0 <= k <= |s| && Sum(s[..k]) == m;
      var t := s[k - 1].time;
      PrefixBelowNet(s, k);
      NetPermutes(s, EventsOf(runs), t);
      assert Net(EventsOf(runs), t) == m;
    }
  }

  /** maxConcurrentSandboxes. */
  method MaxConcurrent(runs: seq<Run>) returns (maximum: int)
    ensures !AllFinite(runs) ==> maximum == 0
    ensures AllFinite(runs) ==> IsPeak(runs, maximum)
  {
    if !AllFinite(runs) { return 0; }
    EventsAreUnit(runs);
    var events := EventsOf(runs);
    var a := new Event[|events|](i requires 0 <= i < |events| => events[i]);
    assert a[..] == events;
    Sort(a);
    maximum := Sweep(a);
    SortedPeak(runs, a[..], maximum);
  }

  /** With every start not after its end, the peak is exactly the greatest number of closed intervals that
      share an instant, and 0 for no runs. */
  lemma PeakIsMaxOverlap(runs: seq<Run>, m: int)
    requires AllFinite(runs) && Ordered(runs) && IsPeak(runs, m)
    ensures forall t :: ActiveAt(runs, t) <= m
    ensures if runs == [] then m == 0 else exists t :: ActiveAt(runs, t) == m
  {
    forall t ensures ActiveAt(runs, t) == Net(EventsOf(runs), t) { NetIsActive(runs, t); }
    if runs == [] {
      assert EventsOf(runs) == [];
    } else {
      var last := runs[|runs| - 1];
      assert ActiveAt(runs, last.activeFrom.value) >= 1;
      hide ActiveAt;
      var t :| Net(EventsOf(runs), t) == m;
      assert ActiveAt(runs, t) == m;
    }
  }

  /** Touching intervals overlap: an end and a start at the same instant count together. */
  lemma TouchingCountTogether(a: int, b: int, c: int, m: int)
    requires a <= b <= c && IsPeak([Run(Some(a), Some(b)), Run(Some(b), Some(c))], m)
    ensures m == 2
  {
    var runs := [Run(Some(a), Some(b)), Run(Some(b), Some(c))];
    PeakIsMaxOverlap(runs, m);
    assert runs[..1] == [Run(Some(a), Some(b))] && runs[..1][..0] == [];
    assert forall t :: ActiveAt(runs[..1], t) == (if a <= t <= b then 1 else 0);
    assert ActiveAt(runs, b) == ActiveAt(runs[..1], b) + 1;
    var t :| ActiveAt(runs, t) == m;
    assert ActiveAt(runs, t) <= ActiveAt(runs[..1], t) + 1;
  }
}
