/** Fairness of the routing over any sequence of successful calls of one service. */
module Fairness {
  import opened Basics
  import opened Routing

  predicate RegularWalkin(c: Candidate) {
    c.scheduledAt.None? && c.priorityClass == REGULAR
  }

  /** Check-in files every appointment under the regular class. */
  ghost predicate AppointmentsAreRegular(view: View) {
    forall id :: id in view && view[id].scheduledAt.Some? ==> view[id].priorityClass == REGULAR
  }

  /** The HTTP layer replaces an empty class by "regular". */
  ghost predicate ClassesAreNamed(view: View) {
    forall id :: id in view ==> view[id].priorityClass != ""
  }

  ghost predicate SeesRegularWalkin(c: CallRecord) {
    exists id :: id in c.view && RegularWalkin(c.view[id])
  }

  /** A regular walk-in waits unlocked, classes have names, and appointments cannot pass for irregular. */
  ghost predicate OpenToRegulars(c: CallRecord) {
    && ClassesAreNamed(c.view) && SeesRegularWalkin(c)
    && (AppointmentsAreRegular(c.view) || !CallsAppointment(c))
  }

  // ------------------------------------------------------- the priority streak

  /** Once the streak has reached the limit, a waiting regular walk-in forces a regular call. */
  lemma FullStreakCallsRegular(limit: int, row: RoutingRow, c: CallRecord)
    requires Obeys(limit, row, c) && row.streak >= limit
    requires SeesRegularWalkin(c)
    requires AppointmentsAreRegular(c.view) || !CallsAppointment(c)
    ensures CalledClass(c) == REGULAR
  {
    var id :| id in c.view && RegularWalkin(c.view[id]);
    var p := Prefer(limit, row, c.policy, c.at);
    assert RankLe(RankOf(c.view[c.pick], p), RankOf(c.view[id], p));
  }

  lemma {:induction false} StreakNeverNegative(start: RoutingRow, calls: seq<CallRecord>, n: nat)
    requires start.streak >= 0 && n <= |calls|
    ensures StateAt(start, calls, n).streak >= 0
  {
    if n > 0 {
      StreakNeverNegative(start, calls, n - 1);
    }
  }

  /** Calls of other named classes add up in the streak. */
  lemma {:induction false} StreakCounts(start: RoutingRow, calls: seq<CallRecord>, from: nat, n: nat)
    requires from + n <= |calls|
    requires forall i :: from <= i < from + n ==> CalledClass(calls[i]) != "" && CalledClass(calls[i]) != REGULAR
    ensures StateAt(start, calls, from + n).streak == StateAt(start, calls, from).streak + n
    decreases n
  {
    if n > 0 {
      StreakCounts(start, calls, from, n - 1);
    }
  }

  /** How many of the n calls from this one on took a ticket of a named class other than regular. */
  function IrregularCalls(calls: seq<CallRecord>, from: nat, n: nat): nat
    requires from + n <= |calls|
  {
    if n == 0 then 0 else
    IrregularCalls(calls, from, n - 1) + if CalledClass(calls[from + n - 1]) in {"", "regular"} then 0 else 1
  }

  /** The streak counts exactly the irregular calls since the last regular one; unnamed classes do not count. */
  lemma {:induction false} StreakCountsSinceRegular(start: RoutingRow, calls: seq<CallRecord>, from: nat, n: nat)
    requires from + n <= |calls| && (from > 0 ==> CalledClass(calls[from - 1]) == "regular")
    requires forall i :: from <= i < from + n ==> CalledClass(calls[i]) != "regular"
    ensures StateAt(start, calls, from + n).streak ==
      (if from == 0 then start.streak else 0) + IrregularCalls(calls, from, n)
    decreases n
  {
    if n == 0 {
    } else {
      StreakCountsSinceRegular(start, calls, from, n - 1);
    }
  }

  lemma NextInWindow(total: int, w: int)
    requires 0 <= total < w
    ensures (total + 1) % w == if total + 1 == w then 0 else total + 1
  {
  }

  /**
   * The counters after a call: served within the window in force, of the length that the policy gives or 10,
   * beginning afresh when it is full or has shrunk below what was served.
   */
  lemma CountersAfterCall(row: RoutingRow, c: CallRecord)
    requires 0 <= row.appointmentServed <= row.totalServed
    ensures var w := if c.policy.windowSize > 0 then c.policy.windowSize else 10;
      var total := if row.totalServed < w then row.totalServed else 0;
      var served := if row.totalServed < w then row.appointmentServed else 0;
      && Advance(row, c).totalServed == (total + 1) % w
      && Advance(row, c).appointmentServed ==
           if (total + 1) % w == 0 then 0 else served + if CallsAppointment(c) then 1 else 0
  {
    var w := if c.policy.windowSize > 0 then c.policy.windowSize else 10;
    var total := if row.totalServed < w then row.totalServed else 0;
    NextInWindow(total, w);
  }

  /** If a full streak forces a regular call, limit + 1 calls of named classes in a row include a regular one. */
  lemma StreakBound(limit: nat, start: RoutingRow, calls: seq<CallRecord>, from: nat)
    requires start.streak >= 0 && from + limit + 1 <= |calls|
    requires forall i :: from <= i < from + limit + 1 ==>
      CalledClass(calls[i]) != "" && (StateAt(start, calls, i).streak >= limit ==> CalledClass(calls[i]) == REGULAR)
    ensures exists i :: from <= i < from + limit + 1 && CalledClass(calls[i]) == REGULAR
  {
    if forall i :: from <= i < from + limit ==> CalledClass(calls[i]) != REGULAR {
      StreakCounts(start, calls, from, limit);
      StreakNeverNegative(start, calls, from);
    }
  }

  /**
   * In any limit + 1 consecutive calls at each of which an unlocked regular walk-in waits,
   * some called ticket is regular.
   */
  lemma RegularWithinLimit(limit: nat, start: RoutingRow, calls: seq<CallRecord>, from: nat)
    requires Trace(limit, start, calls) && start.streak >= 0 && from + limit + 1 <= |calls|
    requires forall i :: from <= i < from + limit + 1 ==> OpenToRegulars(calls[i])
    ensures exists i :: from <= i < from + limit + 1 && CalledClass(calls[i]) == REGULAR
  {
    forall i | from <= i < from + limit + 1
      ensures CalledClass(calls[i]) != ""
      ensures StateAt(start, calls, i).streak >= limit ==> CalledClass(calls[i]) == REGULAR
    {
      assert ObeysAt(limit, start, calls, i) && OpenToRegulars(calls[i]);
      if StateAt(start, calls, i).streak >= limit {
        FullStreakCallsRegular(limit, StateAt(start, calls, i), calls[i]);
      }
    }
    StreakBound(limit, start, calls, from);
  }

  // ----------------------------------------------- bounded waiting of one ticket

  /** The regular walk-ins, locked or not, that were created no later than `x`. */
  ghost function Ahead(c: CallRecord, x: string): set<string> {
    set id | id in c.waiting && x in c.waiting && id != x && RegularWalkin(c.waiting[id]) &&
        c.waiting[id].createdAt <= c.waiting[x].createdAt
  }

  /** `x` waits unlocked as a regular walk-in, and no quota or boost favours appointments. */
  ghost predicate WaitsThrough(c: CallRecord, x: string) {
    && x in c.view && x in c.waiting && c.view[x] == c.waiting[x] && RegularWalkin(c.view[x])
    && ClassesAreNamed(c.view)
    && c.policy.ratioPercent <= 0 && c.policy.boostMinutes <= 0
  }

  /** From one call to the next nobody joins ahead of `x`, and the called ticket is gone. */
  ghost predicate NobodyJoinsAhead(calls: seq<CallRecord>, x: string) {
    forall i :: 0 <= i < |calls| - 1 ==> Leaves(calls[i], calls[i + 1], x)
  }

  ghost predicate Leaves(c: CallRecord, next: CallRecord, x: string) {
    Ahead(next, x) <= Ahead(c, x) - {c.pick}
  }

  /** Under ratio and boost 0 a regular call serves somebody who was ahead of `x`. */
  lemma RegularCallServesAhead(limit: int, row: RoutingRow, c: CallRecord, x: string)
    requires Obeys(limit, row, c) && WaitsThrough(c, x)
    ensures OpenToRegulars(c)
    ensures CalledClass(c) == REGULAR && c.pick != x ==> c.pick in Ahead(c, x)
  {
    var p := Prefer(limit, row, c.policy, c.at);
    assert RankLe(RankOf(c.view[c.pick], p), RankOf(c.view[x], p));
  }

  // ------------------------------------------------------ serving a shrinking queue

  /** From one call to the next the queue loses at least whom the call took. */
  ghost predicate Shrinks(ahead: seq<set<string>>, picks: seq<string>)
    requires |ahead| == |picks|
  {
    forall i :: 0 <= i < |picks| - 1 ==> LosesPick(ahead, picks, i)
  }

  ghost predicate LosesPick(ahead: seq<set<string>>, picks: seq<string>, i: nat)
    requires i + 1 < |ahead| == |picks|
  {
    ahead[i + 1] <= ahead[i] - {picks[i]}
  }

  /** Some call among the `block` ones from here takes a ticket of the queue. */
  ghost predicate Serves(ahead: seq<set<string>>, picks: seq<string>, block: nat, from: nat)
    requires |ahead| == |picks|
  {
    exists i :: from <= i < from + block && i < |picks| && picks[i] in ahead[i]
  }

  lemma {:induction false} ShrinksOn(ahead: seq<set<string>>, picks: seq<string>, i: nat, j: nat)
    requires |ahead| == |picks| && Shrinks(ahead, picks) && i <= j < |ahead|
    ensures ahead[j] <= ahead[i] && (i < j ==> ahead[j] <= ahead[i] - {picks[i]})
    decreases j - i
  {
    if i < j {
      assert LosesPick(ahead, picks, i);
      ShrinksOn(ahead, picks, i + 1, j);
    }
  }

  /** If every block serves the queue, at most as many whole blocks pass as it has members. */
  lemma {:induction false} ServedWithinBlocks(ahead: seq<set<string>>, picks: seq<string>, block: nat, from: nat)
    requires |ahead| == |picks| && from < |picks| && block > 0 && Shrinks(ahead, picks)
    requires forall i | 0 <= i && i + block <= |picks| :: Serves(ahead, picks, block, i)
    ensures |picks| - from < (|ahead[from]| + 1) * block
    decreases |picks| - from
  {
    var k := |ahead[from]|;
    BlockAtLeastOnce(k, block);
    if from + block <= |picks| {
      assert Serves(ahead, picks, block, from);
      var i :| from <= i < from + block && i < |picks| && picks[i] in ahead[i];
      ShrinksOn(ahead, picks, from, i);
      ProperSubsetIsSmaller({}, ahead[from], picks[i]);
      if from + block < |picks| {
        ShrinksOn(ahead, picks, i, from + block);
        ProperSubsetIsSmaller(ahead[from + block], ahead[from], picks[i]);
        ServedWithinBlocks(ahead, picks, block, from + block);
        BlockArithmetic(|picks| - from - block, |ahead[from + block]|, k, block);
      } else {
        BlockArithmetic(0, 0, k, block);
      }
    }
  }

  /** `x` waits through the calls from `from` on and is not called. */
  ghost predicate WaitsOn(calls: seq<CallRecord>, x: string, from: nat) {
    forall i :: from <= i < |calls| ==> WaitsThrough(calls[i], x) && calls[i].pick != x
  }

  /** Among limit + 1 calls that `x` waits through, one serves somebody ahead of `x`. */
  lemma BlockServesAhead(limit: nat, start: RoutingRow, calls: seq<CallRecord>, x: string, from: nat) returns (i: nat)
    requires Trace(limit, start, calls) && start.streak >= 0 && from + limit + 1 <= |calls|
    requires WaitsOn(calls, x, from)
    ensures from <= i < from + limit + 1 && calls[i].pick in Ahead(calls[i], x)
  {
    forall k | from <= k < from + limit + 1
      ensures OpenToRegulars(calls[k])
      ensures CalledClass(calls[k]) == REGULAR ==> calls[k].pick in Ahead(calls[k], x)
    {
      assert ObeysAt(limit, start, calls, k);
      RegularCallServesAhead(limit, StateAt(start, calls, k), calls[k], x);
    }
    RegularWithinLimit(limit, start, calls, from);
    i :| from <= i < from + limit + 1 && CalledClass(calls[i]) == REGULAR;
  }

  function Picks(calls: seq<CallRecord>): seq<string> {
    seq(|calls|, i requires 0 <= i < |calls| => calls[i].pick)
  }

  ghost function Aheads(calls: seq<CallRecord>, x: string): seq<set<string>> {
    seq(|calls|, i requires 0 <= i < |calls| => Ahead(calls[i], x))
  }

  /**
   * A regular walk-in that waits through calls without being called has waited through fewer than
   * (ahead + 1) * (limit + 1) of them: each block of limit + 1 calls serves somebody ahead.
   */
  lemma WaitIsBounded(limit: nat, start: RoutingRow, calls: seq<CallRecord>, x: string)
    requires Trace(limit, start, calls) && start.streak >= 0 && calls != []
    requires WaitsOn(calls, x, 0) && NobodyJoinsAhead(calls, x)
    ensures |calls| < (|Ahead(calls[0], x)| + 1) * (limit + 1)
  {
    var ahead, picks, block := Aheads(calls, x), Picks(calls), limit + 1;
    forall i | 0 <= i < |picks| - 1 ensures LosesPick(ahead, picks, i) {
      assert Leaves(calls[i], calls[i + 1], x);
    }
    forall i | 0 <= i && i + block <= |picks| ensures Serves(ahead, picks, block, i) {
      var j := BlockServesAhead(limit, start, calls, x, i);
      assert picks[j] in ahead[j];
    }
    ServedWithinBlocks(ahead, picks, block, 0);
  }

  lemma BlockArithmetic(rest: nat, k': nat, k: nat, block: nat)
    requires k' < k && block > 0 && rest < (k' + 1) * block
    ensures rest + block < (k + 1) * block
  {
    assert (k' + 2) * block <= (k + 1) * block;
  }

  lemma MulMonotone(a: nat, b: nat, c: nat)
    requires a <= b
    ensures a * c <= b * c
  {
    assert b * c == a * c + (b - a) * c;
  }

  lemma BlockAtLeastOnce(k: nat, block: nat)
    ensures block <= (k + 1) * block
  {
    assert k * block >= 0;
  }

  /**
   * Bounded waiting: with k older regular walk-ins ahead that nobody joins, a regular walk-in that
   * keeps waiting unlocked until it is called is called within (k + 1) * (limit + 1) calls.
   */
  lemma CalledWithinBound(limit: nat, start: RoutingRow, calls: seq<CallRecord>, x: string, k: nat)
    requires Trace(limit, start, calls) && start.streak >= 0
    requires |calls| == (k + 1) * (limit + 1)
    requires forall i :: 0 <= i < |calls| ==>
      WaitsThrough(calls[i], x) || exists j :: 0 <= j < i && calls[j].pick == x
    requires forall i :: 0 <= i < |calls| - 1 && WaitsThrough(calls[i], x) && WaitsThrough(calls[i + 1], x) ==>
      Leaves(calls[i], calls[i + 1], x)
    requires calls != [] && WaitsThrough(calls[0], x) ==> |Ahead(calls[0], x)| <= k
    ensures exists j :: 0 <= j < |calls| && calls[j].pick == x
  {
    BlockAtLeastOnce(k, limit + 1);
    if forall j :: 0 <= j < |calls| ==> calls[j].pick != x {
      assert forall i :: 0 <= i < |calls| ==> WaitsThrough(calls[i], x);
      WaitIsBounded(limit, start, calls, x);
      MulMonotone(|Ahead(calls[0], x)| + 1, k + 1, limit + 1);
    }
  }

  // -------------------------------------------------------- the appointment quota

  /** How many of the first n calls took an appointment. */
  function AppointmentCalls(calls: seq<CallRecord>, n: nat): nat
    requires n <= |calls|
  {
    if n == 0 then 0 else AppointmentCalls(calls, n - 1) + if CallsAppointment(calls[n - 1]) then 1 else 0
  }

  ghost predicate SeesAppointment(c: CallRecord) {
    exists id :: id in c.view && c.view[id].scheduledAt.Some?
  }

  ghost predicate SeesWalkin(c: CallRecord) {
    exists id :: id in c.view && c.view[id].scheduledAt.None?
  }

  ghost predicate AlwaysAppointment(calls: seq<CallRecord>) {
    forall i :: 0 <= i < |calls| ==> SeesAppointment(calls[i])
  }

  ghost predicate AlwaysWalkin(calls: seq<CallRecord>) {
    forall i :: 0 <= i < |calls| ==> SeesWalkin(calls[i])
  }

  /** All calls run under one policy without boost. */
  ghost predicate OnePolicy(calls: seq<CallRecord>, ratio: int, window: int) {
    window > 0 && forall i :: 0 <= i < |calls| ==>
      calls[i].policy.ratioPercent == ratio && CallWindow(calls[i]) == window && calls[i].policy.boostMinutes <= 0
  }

  /** Below the target a waiting appointment is called, at the target a waiting walk-in. */
  ghost predicate FollowsQuota(row: RoutingRow, c: CallRecord, window: int, target: int) {
    && CallWindow(c) == window
    && (row.totalServed < window && row.appointmentServed < target && SeesAppointment(c) ==> CallsAppointment(c))
    && (row.totalServed < window && row.appointmentServed >= target && SeesWalkin(c) ==> !CallsAppointment(c))
  }

  ghost predicate FollowsQuotaAt(start: RoutingRow, calls: seq<CallRecord>, i: nat, window: int, target: int)
    requires i < |calls|
  {
    FollowsQuota(StateAt(start, calls, i), calls[i], window, target)
  }

  lemma CallFollowsQuota(limit: int, row: RoutingRow, c: CallRecord)
    requires Obeys(limit, row, c) && c.policy.boostMinutes <= 0 && row.appointmentServed >= 0
    ensures FollowsQuota(row, c, CallWindow(c), TargetCount(c.policy.ratioPercent, CallWindow(c)))
  {
    var p := Prefer(limit, row, c.policy, c.at);
    TargetNonNegative(c.policy.ratioPercent, CallWindow(c));
    if p.appointment && SeesAppointment(c) {
      var id :| id in c.view && c.view[id].scheduledAt.Some?;
      assert RankLe(RankOf(c.view[c.pick], p), RankOf(c.view[id], p));
    }
    if !p.appointment && SeesWalkin(c) {
      var id :| id in c.view && c.view[id].scheduledAt.None?;
      assert RankLe(RankOf(c.view[c.pick], p), RankOf(c.view[id], p));
    }
  }

  lemma TargetNonNegative(ratio: int, window: int)
    ensures TargetCount(ratio, window) >= 0
    ensures TargetCount(ratio, window) > 0 ==> ratio > 0
  {
    if ratio > 0 && window > 0 {
      assert ratio * window > 0;
    }
  }

  /** Whatever arrives and however policies change, the counters stay inside the window last used. */
  lemma {:induction false} CountersStayInWindow(start: RoutingRow, calls: seq<CallRecord>, n: nat)
    requires 0 <= start.appointmentServed <= start.totalServed && n <= |calls|
    ensures var row := StateAt(start, calls, n);
      0 <= row.appointmentServed <= row.totalServed && (n > 0 ==> row.totalServed < CallWindow(calls[n - 1]))
  {
    if n > 0 {
      CountersStayInWindow(start, calls, n - 1);
    }
  }

  /** Served appointments reach the open window's share, and the full windows' worth is `whole`. */
  ghost predicate AtLeastQuota(served: int, count: int, inWindow: int, whole: int, t: int) {
    served >= Min(inWindow, t) && count - served >= whole
  }

  ghost predicate AtMostQuota(served: int, count: int, inWindow: int, whole: int, t: int) {
    served <= Min(inWindow, t) && count - served <= whole
  }

  /** The routing row and the appointments taken so far, in terms of the open window and the full ones. */
  ghost predicate Ledger(row: RoutingRow, count: int, appointments: bool, walkins: bool, inWindow: int, whole: int,
                         t: int) {
    && row.totalServed == inWindow
    && 0 <= row.appointmentServed <= inWindow
    && (appointments ==> AtLeastQuota(row.appointmentServed, count, inWindow, whole, t))
    && (walkins ==> AtMostQuota(row.appointmentServed, count, inWindow, whole, t))
  }

  lemma LedgerStep(row: RoutingRow, count: int, c: CallRecord, window: nat, whole: int, target: nat, appointments: bool,
                   walkins: bool)
    requires row.totalServed < window && FollowsQuota(row, c, window, target)
    requires (appointments ==> SeesAppointment(c)) && (walkins ==> SeesWalkin(c))
    requires Ledger(row, count, appointments, walkins, row.totalServed, whole, Min(target, window))
    ensures var count' := count + if CallsAppointment(c) then 1 else 0;
      if row.totalServed + 1 < window
      then Ledger(Advance(row, c), count', appointments, walkins, row.totalServed + 1, whole, Min(target, window))
      else Ledger(Advance(row, c), count', appointments, walkins, 0, whole + Min(target, window), Min(target, window))
  {
  }

  /** The position in the open window after n calls. */
  function InWindow(n: nat, window: nat): nat {
    if n == 0 then 0 else
    var j := InWindow(n - 1, window) + 1;
    if j == window then 0 else j
  }

  /** What the full windows among n calls are worth at t each. */
  function FullWorth(n: nat, window: nat, t: nat): nat {
    if n == 0 then 0
    else if InWindow(n, window) == 0 then FullWorth(n - 1, window, t) + t
    else FullWorth(n - 1, window, t)
  }

  /** The ledger after any number of calls is bounded by whoever keeps waiting. */
  lemma {:induction false} QuotaInvariant(start: RoutingRow, calls: seq<CallRecord>, n: nat, window: nat, target: nat)
    requires start.appointmentServed == 0 && start.totalServed == 0 && window > 0 && n <= |calls|
    requires forall i :: 0 <= i < n ==> FollowsQuotaAt(start, calls, i, window, target)
    ensures InWindow(n, window) < window
    ensures Ledger(StateAt(start, calls, n), AppointmentCalls(calls, n), AlwaysAppointment(calls), AlwaysWalkin(calls),
                   InWindow(n, window), FullWorth(n, window, Min(target, window)), Min(target, window))
    decreases n
  {
    if n > 0 {
      QuotaInvariant(start, calls, n - 1, window, target);
      assert FollowsQuotaAt(start, calls, n - 1, window, target);
      LedgerStep(StateAt(start, calls, n - 1), AppointmentCalls(calls, n - 1), calls[n - 1], window,
                 FullWorth(n - 1, window, Min(target, window)), target, AlwaysAppointment(calls), AlwaysWalkin(calls));
    }
  }

  lemma {:induction false} WindowArithmetic(n: nat, window: nat, t: nat, q: nat, j: nat)
    requires n == q * window + j && j < window
    ensures InWindow(n, window) == j && FullWorth(n, window, t) == q * t
    decreases n
  {
    if n == 0 {
      MultipleIsFar(q, window);
    } else if j > 0 {
      WindowArithmetic(n - 1, window, t, q, j - 1);
    } else {
      OneLess(q, window);
      OneLess(q, t);
      WindowArithmetic(n - 1, window, t, q - 1, window - 1);
    }
  }

  lemma MultipleIsFar(d: int, w: nat)
    ensures d >= 1 ==> d * w >= w
    ensures d <= -1 ==> d * w + w <= 0
  {
    if d >= 1 {
      assert (d - 1) * w >= 0;
    } else if d <= -1 {
      assert (-d - 1) * w >= 0;
    }
  }

  lemma OneLess(q: nat, w: int)
    ensures q * w > 0 ==> q > 0
    ensures (q - 1) * w + w == q * w
  {
  }

  /** The number of appointments among q whole windows and j further calls. */
  lemma QuotaAt(start: RoutingRow, calls: seq<CallRecord>, window: nat, target: nat, q: nat, j: nat)
    requires start.appointmentServed == 0 && start.totalServed == 0 && window > 0
    requires forall i :: 0 <= i < |calls| ==> FollowsQuotaAt(start, calls, i, window, target)
    requires |calls| == q * window + j && j < window
    ensures AlwaysAppointment(calls) ==>
        AppointmentCalls(calls, |calls|) >= q * Min(target, window) + Min(j, Min(target, window))
    ensures AlwaysWalkin(calls) ==>
        AppointmentCalls(calls, |calls|) <= q * Min(target, window) + Min(j, Min(target, window))
  {
    QuotaInvariant(start, calls, |calls|, window, target);
    WindowArithmetic(|calls|, window, Min(target, window), q, j);
  }

  lemma Division(m: nat, w: nat)
    requires w > 0
    ensures m == (m / w) * w + m % w && m % w < w && m / w >= 0
  {
  }

  lemma TraceFollowsQuota(limit: int, start: RoutingRow, calls: seq<CallRecord>, ratio: int, window: nat)
    requires Trace(limit, start, calls) && OnePolicy(calls, ratio, window)
    requires 0 <= start.appointmentServed <= start.totalServed
    ensures forall i :: 0 <= i < |calls| ==> FollowsQuotaAt(start, calls, i, window, TargetCount(ratio, window))
  {
    forall i | 0 <= i < |calls|
      ensures FollowsQuotaAt(start, calls, i, window, TargetCount(ratio, window))
    {
      assert ObeysAt(limit, start, calls, i);
      CountersStayInWindow(start, calls, i);
      CallFollowsQuota(limit, StateAt(start, calls, i), calls[i]);
    }
  }

  /**
   * From a fresh window and under one policy, m calls take at least the quota of appointments while
   * one is always waiting, and at most the quota while a walk-in is always waiting.
   */
  lemma QuotaBounds(limit: int, start: RoutingRow, calls: seq<CallRecord>, ratio: int, window: nat)
    requires Trace(limit, start, calls) && OnePolicy(calls, ratio, window)
    requires start.appointmentServed == 0 && start.totalServed == 0
    ensures var m, t := |calls|, Min(TargetCount(ratio, window), window);
      && (AlwaysAppointment(calls) ==> AppointmentCalls(calls, m) >= (m / window) * t + Min(m % window, t))
      && (AlwaysWalkin(calls) ==> AppointmentCalls(calls, m) <= (m / window) * t + Min(m % window, t))
  {
    var target := TargetCount(ratio, window);
    TargetNonNegative(ratio, window);
    TraceFollowsQuota(limit, start, calls, ratio, window);
    Division(|calls|, window);
    QuotaAt(start, calls, window, target, |calls| / window, |calls| % window);
  }

  /** Exact quota: with both kinds waiting at every call, m calls take exactly this many appointments. */
  lemma ExactQuota(limit: int, start: RoutingRow, calls: seq<CallRecord>, ratio: int, window: nat)
    requires Trace(limit, start, calls) && OnePolicy(calls, ratio, window) && 0 <= ratio <= 100
    requires start.appointmentServed == 0 && start.totalServed == 0
    requires AlwaysAppointment(calls) && AlwaysWalkin(calls)
    ensures var m, t := |calls|, TargetCount(ratio, window);
      AppointmentCalls(calls, m) == (m / window) * t + Min(m % window, t)
  {
    TargetIsNearest(ratio, window);
    QuotaBounds(limit, start, calls, ratio, window);
  }
}
