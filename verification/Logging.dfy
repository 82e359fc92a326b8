/** The sampled warning counter a builder keeps for the events it skips. */
module Logging {

  import opened Sequences

  const UINT64_SIZE: int := 0x1_0000_0000_0000_0000

  /** shouldLogSample. */
  predicate ShouldLogSample(n: nat) {
    n <= 1 || n == 10 || n == 100 || n % 1000 == 0
  }

  type Uint64 = n: nat | n < UINT64_SIZE

  /** The counter after one atomic increment. */
  function Incremented(n: Uint64): Uint64 {
    (n + 1) % UINT64_SIZE
  }

  class SampledWarn {
    var n: Uint64

    constructor ()
      ensures n == 0
    {
      n := 0;
    }

    /** The atomic increment; the caller holds the count it was given. */
    method Add() returns (ticket: Uint64)
      modifies this
      ensures n == Incremented(old(n)) && ticket == n
    {
      n := Incremented(n);
      return n;
    }

    /** One occurrence: the increment, and the decision whether to log this one. */
    method Log() returns (logged: bool)
      modifies this
      ensures n == Incremented(old(n))
      ensures logged == ShouldLogSample(n)
    {
      var ticket := Add();
      logged := ShouldLogSample(ticket);
    }
  }

  /** How many of the first n occurrences are logged. */
  function LoggedCount(n: nat): nat {
    if n == 0 then 0 else LoggedCount(n - 1) + if ShouldLogSample(n) then 1 else 0
  }

  /** The first, tenth and hundredth occurrence, and every thousandth. */
  function Warnings(n: nat): nat {
    (if n >= 1 then 1 else 0) + (if n >= 10 then 1 else 0) + (if n >= 100 then 1 else 0) + n / 1000
  }

  /** The count has a closed form. */
  lemma {:induction false} LoggedCountIs(n: nat)
    ensures LoggedCount(n) == Warnings(n)
  {
    if n > 0 {
      LoggedCountIs(n - 1);
      assert n / 1000 == (n - 1) / 1000 + if n % 1000 == 0 then 1 else 0;
    }
  }

  function Logs(): nat -> bool {
    (n: nat) => ShouldLogSample(n)
  }

  /** The counts 1 to n, in the order the atomic increments hand them out. */
  function Tickets(n: nat): seq<nat> {
    if n == 0 then [] else Tickets(n - 1) + [n]
  }

  lemma {:induction false} LoggedTickets(n: nat)
    ensures |Filter(Logs(), Tickets(n))| == LoggedCount(n)
  {
    if n > 0 {
      LoggedTickets(n - 1);
      FilterMore(Logs(), Tickets(n - 1), n);
    }
  }

  // ------------------------------------------------------------ concurrent callers

  /** What a scheduler may let happen next: a caller increments the counter, or one that has done so decides. */
  datatype Event = Increment(caller: nat) | Decide(caller: nat)

  /** The counter, the counts callers hold between the two events of a call, and those already decided on. */
  datatype Calls = Calls(counter: Uint64, held: map<nat, Uint64>, decided: seq<nat>)

  /** A caller makes one call at a time: it increments when it holds no count, and decides on the one it holds. */
  predicate Enabled(c: Calls, e: Event) {
    match e
    case Increment(caller) => caller !in c.held
    case Decide(caller) => caller in c.held
  }

  function After(c: Calls, e: Event): Calls
    requires Enabled(c, e)
  {
    match e
    case Increment(caller) =>
      var ticket := Incremented(c.counter);
      Calls(ticket, c.held[caller := ticket], c.decided)
    case Decide(caller) =>
      Calls(c.counter, c.held - {caller}, c.decided + [c.held[caller]])
  }

  /** The states a schedule passes through, from a new counter on. */
  ghost predicate IsRun(states: seq<Calls>, schedule: seq<Event>) {
    && |states| == |schedule| + 1
    && states[0] == Calls(0, map[], [])
    && forall i :: 0 <= i < |schedule| ==>
         Enabled(states[i], schedule[i]) && states[i + 1] == After(states[i], schedule[i])
  }

  function Increments(schedule: seq<Event>): nat {
    if schedule == [] then 0
    else Increments(schedule[..|schedule| - 1]) + if schedule[|schedule| - 1].Increment? then 1 else 0
  }

  /**
   Every count from 1 to n has been handed out once: to one caller that still holds it, or to one that has
   decided.
   */
  ghost predicate HandedOut(c: Calls, n: nat) {
    && c.counter == n
    && (forall a, b :: a in c.held && b in c.held && c.held[a] == c.held[b] ==> a == b)
    && (forall x :: x in c.held.Values ==> multiset(c.decided)[x] == 0)
    && (forall x: nat :: multiset(c.decided)[x] <= 1)
    && (forall x: nat :: x in c.held.Values || x in multiset(c.decided) <==> 1 <= x <= n)
  }

  lemma IncrementHandsOut(c: Calls, caller: nat, n: nat)
    requires HandedOut(c, n) && caller !in c.held && n + 1 < UINT64_SIZE
    ensures HandedOut(After(c, Increment(caller)), n + 1)
  {
    var held := c.held[caller := Incremented(c.counter)];
    assert Incremented(c.counter) == n + 1;
    assert forall x :: x in held.Values <==> x in c.held.Values || x == n + 1 by {
      assert forall k :: k in c.held ==> k in held && held[k] == c.held[k];
      assert held[caller] == n + 1;
    }
    assert n + 1 !in c.held.Values && multiset(c.decided)[n + 1] == 0;
  }

  lemma DecideKeeps(c: Calls, caller: nat, n: nat)
    requires HandedOut(c, n) && caller in c.held
    ensures HandedOut(After(c, Decide(caller)), n)
  {
    var held, ticket := c.held - {caller}, c.held[caller];
    assert ticket in c.held.Values;
    assert forall x :: x in held.Values <==> x in c.held.Values && x != ticket by {
      assert forall k :: k in held ==> k in c.held && held[k] == c.held[k];
      assert forall k :: k in c.held && k != caller ==> k in held;
    }
    assert multiset(c.decided + [ticket]) == multiset(c.decided) + multiset{ticket};
  }

  lemma RunPrefix(states: seq<Calls>, schedule: seq<Event>)
    requires IsRun(states, schedule) && schedule != []
    ensures var n := |schedule| - 1; IsRun(states[..n + 1], schedule[..n]) && states[..n + 1][n] == states[n]
  {
  }

  lemma StepHandsOut(before: Calls, e: Event, after: Calls, n: nat)
    requires HandedOut(before, n) && Enabled(before, e) && after == After(before, e)
    requires e.Increment? ==> n + 1 < UINT64_SIZE
    ensures HandedOut(after, if e.Increment? then n + 1 else n)
  {
    match e
    case Increment(caller) => IncrementHandsOut(before, caller, n);
    case Decide(caller) => DecideKeeps(before, caller, n);
  }

  /** Under any schedule with fewer than 2^64 increments no count is handed out twice and none is left out. */
  lemma {:induction false} TicketsAreUnique(states: seq<Calls>, schedule: seq<Event>)
    requires IsRun(states, schedule) && Increments(schedule) < UINT64_SIZE
    ensures HandedOut(states[|schedule|], Increments(schedule))
  {
    if schedule != [] {
      var n := |schedule| - 1;
      RunPrefix(states, schedule);
      TicketsAreUnique(states[..n + 1], schedule[..n]);
      StepHandsOut(states[n], schedule[n], states[n + 1], Increments(schedule[..n]));
    }
  }

  lemma {:induction false} TicketsCount(n: nat, x: nat)
    ensures multiset(Tickets(n))[x] == if 1 <= x <= n then 1 else 0
  {
    if n > 0 {
      TicketsCount(n - 1, x);
      assert multiset(Tickets(n)) == multiset(Tickets(n - 1)) + multiset{n};
    }
  }

  lemma AllTickets(decided: seq<nat>, n: nat)
    requires forall x: nat :: multiset(decided)[x] == if 1 <= x <= n then 1 else 0
    ensures multiset(decided) == multiset(Tickets(n))
  {
    var a: multiset<nat>, b: multiset<nat> := multiset(decided), multiset(Tickets(n));
    forall x: nat ensures a[x] == b[x] {
      TicketsCount(n, x);
    }
  }

  /**
   However concurrent callers interleave, once all calls have returned, n < 2^64 of them have logged
   [n>=1] + [n>=10] + [n>=100] + n/1000 warnings.
   */
  lemma InterleavedLogs(states: seq<Calls>, schedule: seq<Event>)
    requires IsRun(states, schedule) && Increments(schedule) < UINT64_SIZE
    requires states[|schedule|].held == map[]
    ensures |Filter(Logs(), states[|schedule|].decided)| == Warnings(Increments(schedule))
  {
    var n, decided := Increments(schedule), states[|schedule|].decided;
    TicketsAreUnique(states, schedule);
    AllTickets(decided, n);
    FilterPermutation(Logs(), decided, Tickets(n));
    LoggedTickets(n);
    LoggedCountIs(n);
  }

  /** The shared counter driven by a schedule: each event is one atomic step of some caller's Log. */
  method Interleave(w: SampledWarn, schedule: seq<Event>, ghost states: seq<Calls>) returns (warnings: nat)
    requires IsRun(states, schedule) && w.n == 0
    modifies w
    ensures w.n == states[|schedule|].counter
    ensures warnings == |Filter(Logs(), states[|schedule|].decided)|
    ensures Increments(schedule) < UINT64_SIZE && states[|schedule|].held == map[] ==>
      warnings == Warnings(Increments(schedule))
  {
    warnings := 0;
    var held: map<nat, Uint64> := map[];
    for i := 0 to |schedule|
      invariant w.n == states[i].counter && held == states[i].held
      invariant warnings == |Filter(Logs(), states[i].decided)|
    {
      match schedule[i]
      case Increment(caller) =>
        var ticket := w.Add();
        held := held[caller := ticket];
      case Decide(caller) =>
        FilterMore(Logs(), states[i].decided, held[caller]);
        if ShouldLogSample(held[caller]) {
          warnings := warnings + 1;
        }
        held := held - {caller};
    }
    if Increments(schedule) < UINT64_SIZE && states[|schedule|].held == map[] {
      InterleavedLogs(states, schedule);
    }
  }
}
