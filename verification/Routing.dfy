/** How a call chooses its ticket: quotas, the priority streak and the cascade of selects. */
module Routing {
  import opened Basics

  const REGULAR := "regular"
  const NANOS_PER_MINUTE := 60_000_000_000

  /** The columns of `service_policies` that a call reads. */
  datatype Policy = Policy(ratioPercent: int, windowSize: int, boostMinutes: int)

  /** One row of `service_routing_state`. */
  datatype RoutingRow = RoutingRow(streak: int, appointmentServed: int, totalServed: int)

  const FRESH := RoutingRow(0, 0, 0)

  /** What a select sees of a waiting ticket; walk-ins have no scheduled time. */
  datatype Candidate = Candidate(priorityClass: string, createdAt: Time, scheduledAt: Option<Time>)

  /** The waiting tickets of one service that no other transaction has locked. */
  type View = map<string, Candidate>

  // ------------------------------------------------------------------- quotas

  function NormalizeWindow(value: int): (w: int)
    ensures w > 0 && (value > 0 ==> w == value) && (value <= 0 ==> w == 10)
  {
    if value <= 0 then 10 else value
  }

  /** `math.Round(ratio * window / 100)`; halves round up because the product is positive. */
  function TargetCount(ratioPercent: int, window: int): int {
    if ratioPercent <= 0 || window <= 0 then 0 else (ratioPercent * window + 50) / 100
  }

  /** The target is the share of the window rounded to the nearest whole ticket, halves up, and fits the window. */
  lemma TargetIsNearest(ratio: int, window: int)
    requires 0 <= ratio <= 100 && window > 0
    ensures 0 <= TargetCount(ratio, window) <= window
    ensures -50 < 100 * TargetCount(ratio, window) - ratio * window <= 50
  {
    assert 0 <= ratio * window <= 100 * window;
  }

  function ResetWindow(row: RoutingRow, window: int): RoutingRow {
    if row.totalServed >= window then row.(totalServed := 0, appointmentServed := 0) else row
  }

  function UpdateRoutingState(row: RoutingRow, priorityClass: string, isAppointment: bool, window: int): RoutingRow {
    var streak := if priorityClass == REGULAR then 0 else if priorityClass != "" then row.streak + 1 else row.streak;
    var total := row.totalServed + 1;
    var served := if isAppointment then row.appointmentServed + 1 else row.appointmentServed;
    if window > 0 && total >= window then RoutingRow(streak, 0, 0) else RoutingRow(streak, served, total)
  }

  /** What a call prefers, decided from the locked routing row and the policy. */
  datatype Preference = Preference(regular: bool, appointment: bool, boostCutoff: Option<Time>)

  function Prefer(limit: int, row: RoutingRow, policy: Policy, at: Time): Preference {
    var window := NormalizeWindow(policy.windowSize);
    var target := TargetCount(policy.ratioPercent, window);
    Preference(
      row.streak >= limit,
      policy.ratioPercent > 0 && ResetWindow(row, window).appointmentServed < target,
      if policy.boostMinutes > 0 then Some(at + policy.boostMinutes * NANOS_PER_MINUTE) else None)
  }

  // --------------------------------------------------------------- the ranking

  /** Tier, preferred class, then the two ORDER BY columns. */
  datatype Rank = Rank(tier: int, offClass: int, first: Time, second: Time)

  function RankOf(c: Candidate, p: Preference): Rank {
    var offClass := if (c.priorityClass == REGULAR) == p.regular then 0 else 1;
    match c.scheduledAt
    case None => Rank(2, offClass, c.createdAt, c.createdAt)
    case Some(t) =>
      var tier := if p.boostCutoff.Some? && t <= p.boostCutoff.value then 0 else if p.appointment then 1 else 3;
      Rank(tier, offClass, t, c.createdAt)
  }

  predicate RankLe(a: Rank, b: Rank) {
    || a.tier < b.tier
    || (a.tier == b.tier && (
         || a.offClass < b.offClass
         || (a.offClass == b.offClass && (
              || a.first < b.first
              || (a.first == b.first && a.second <= b.second)))))
  }

  /** No candidate ranks before `pick`; ties may go either way, as ORDER BY leaves them. */
  ghost predicate Best(view: View, p: Preference, pick: string) {
    pick in view && forall id :: id in view ==> RankLe(RankOf(view[pick], p), RankOf(view[id], p))
  }

  /** The outcome of a call's selection on a view. */
  ghost predicate Selected(view: View, p: Preference, pick: Option<string>) {
    match pick
    case None => view == map[]
    case Some(id) => Best(view, p, id)
  }

  // --------------------------------------------------------------- the cascade

  datatype ClassFilter = AnyClass | OnlyRegular | NotRegular

  function ClassMatches(f: ClassFilter, priorityClass: string): bool {
    match f
    case AnyClass => true
    case OnlyRegular => priorityClass == REGULAR
    case NotRegular => priorityClass != REGULAR
  }

  /** The WHERE clause of one select: walk-ins or appointments, a class filter, perhaps a cutoff. */
  predicate Matches(c: Candidate, appointments: bool, f: ClassFilter, cutoff: Option<Time>) {
    && c.scheduledAt.Some? == appointments
    && ClassMatches(f, c.priorityClass)
    && (c.scheduledAt.Some? && cutoff.Some? ==> c.scheduledAt.value <= cutoff.value)
  }

  /** ORDER BY scheduled_at, created_at for appointments; ORDER BY created_at for walk-ins. */
  predicate SortsBefore(a: Candidate, b: Candidate) {
    match (a.scheduledAt, b.scheduledAt)
    case (Some(s), Some(t)) => s < t || (s == t && a.createdAt <= b.createdAt)
    case _ => a.createdAt <= b.createdAt
  }

  /** `pick` is first among the candidates `ids` that match. */
  ghost predicate FirstAmong(view: View, ids: set<string>, appointments: bool, f: ClassFilter, cutoff: Option<Time>,
                             pick: Option<string>)
    requires ids <= view.Keys
  {
    match pick
    case None => forall id :: id in ids ==> !Matches(view[id], appointments, f, cutoff)
    case Some(best) =>
      && best in ids && Matches(view[best], appointments, f, cutoff)
      && forall id :: id in ids && Matches(view[id], appointments, f, cutoff) ==> SortsBefore(view[best], view[id])
  }

  /** `SELECT ... ORDER BY ... FOR UPDATE SKIP LOCKED LIMIT 1`, as a scan in no particular order. */
  method SelectFirst(view: View, appointments: bool, f: ClassFilter,
                     cutoff: Option<Time>) returns (pick: Option<string>)
    ensures FirstAmong(view, view.Keys, appointments, f, cutoff, pick)
  {
    pick := None;
    var rest := view.Keys;
    while rest != {}
      invariant rest <= view.Keys
      invariant FirstAmong(view, view.Keys - rest, appointments, f, cutoff, pick)
      decreases rest
    {
      var id :| id in rest;
      ghost var seen := view.Keys - rest;
      rest := rest - {id};
      assert view.Keys - rest == seen + {id};
      if Matches(view[id], appointments, f, cutoff) {
        if pick.None? || SortsBefore(view[id], view[pick.value]) {
          pick := Some(id);
        }
      }
    }
    assert view.Keys - rest == view.Keys;
  }

  /** First the preferred class, then any. */
  method NextAppointmentTicket(view: View, preferRegular: bool, cutoff: Option<Time>) returns (pick: Option<string>)
    ensures ClassThenAny(view, true, preferRegular, cutoff, pick)
  {
    if preferRegular {
      pick := SelectFirst(view, true, OnlyRegular, cutoff);
      if pick.None? {
        pick := SelectFirst(view, true, AnyClass, cutoff);
      }
    } else {
      pick := SelectFirst(view, true, NotRegular, cutoff);
      if pick.None? {
        pick := SelectFirst(view, true, AnyClass, cutoff);
      }
    }
  }

  method NextWalkinTicket(view: View, preferRegular: bool) returns (pick: Option<string>)
    ensures ClassThenAny(view, false, preferRegular, None, pick)
  {
    if preferRegular {
      pick := SelectFirst(view, false, OnlyRegular, None);
      if pick.None? {
        pick := SelectFirst(view, false, AnyClass, None);
      }
    } else {
      pick := SelectFirst(view, false, NotRegular, None);
      if pick.None? {
        pick := SelectFirst(view, false, AnyClass, None);
      }
    }
  }

  function OffClass(c: Candidate, preferRegular: bool): int {
    if (c.priorityClass == REGULAR) == preferRegular then 0 else 1
  }

  /** The two passes of one tier leave the candidate that is first by class and then by order. */
  ghost predicate ClassThenAny(view: View, appointments: bool, preferRegular: bool, cutoff: Option<Time>,
                               pick: Option<string>) {
    match pick
    case None => forall id :: id in view ==> !Matches(view[id], appointments, AnyClass, cutoff)
    case Some(best) =>
      && best in view && Matches(view[best], appointments, AnyClass, cutoff)
      && forall id :: id in view && Matches(view[id], appointments, AnyClass, cutoff) ==>
           || OffClass(view[best], preferRegular) < OffClass(view[id], preferRegular)
           || (OffClass(view[best], preferRegular) == OffClass(view[id], preferRegular) &&
               SortsBefore(view[best], view[id]))
  }

  /**
   * The cascade of up to eight selects: boosted appointments, preferred appointments, walk-ins,
   * other appointments.  It finds a candidate of least rank, and none exactly when nobody waits.
   */
  method UpdateNextTicket(view: View, p: Preference) returns (pick: Option<string>)
    ensures Selected(view, p, pick)
  {
    if p.boostCutoff.Some? {
      pick := NextAppointmentTicket(view, p.regular, p.boostCutoff);
      if pick.Some? {
        return;
      }
    }
    if p.appointment {
      pick := NextAppointmentTicket(view, p.regular, None);
      if pick.Some? {
        return;
      }
    }
    pick := NextWalkinTicket(view, p.regular);
    if pick.Some? {
      return;
    }
    pick := NextAppointmentTicket(view, p.regular, None);
    if pick.None? && view != map[] {
      var id :| id in view;
      assert Matches(view[id], view[id].scheduledAt.Some?, AnyClass, None);
    }
  }

  // -------------------------------------------------------------------- calls

  /** One successful call of a service: what it saw, under which policy, and whom it called. */
  datatype CallRecord = CallRecord(waiting: View, view: View, policy: Policy, at: Time, pick: string)

  function CallWindow(c: CallRecord): int {
    NormalizeWindow(c.policy.windowSize)
  }

  predicate CallsAppointment(c: CallRecord) {
    c.pick in c.view && c.view[c.pick].scheduledAt.Some?
  }

  function CalledClass(c: CallRecord): string {
    if c.pick in c.view then c.view[c.pick].priorityClass else ""
  }

  /** The call saw unlocked waiting tickets only and took a best one for the routing row it had locked. */
  ghost predicate Obeys(limit: int, row: RoutingRow, c: CallRecord) {
    && Best(c.view, Prefer(limit, row, c.policy, c.at), c.pick)
    && c.view.Keys <= c.waiting.Keys
    && forall id :: id in c.view ==> c.view[id] == c.waiting[id]
  }

  function Advance(row: RoutingRow, c: CallRecord): RoutingRow {
    UpdateRoutingState(ResetWindow(row, CallWindow(c)), CalledClass(c), CallsAppointment(c), CallWindow(c))
  }

  /** The routing row after the first n of a sequence of calls. */
  function StateAt(start: RoutingRow, calls: seq<CallRecord>, n: nat): RoutingRow
    requires n <= |calls|
  {
    if n == 0 then start else Advance(StateAt(start, calls, n - 1), calls[n - 1])
  }

  function Fold(start: RoutingRow, calls: seq<CallRecord>): RoutingRow {
    StateAt(start, calls, |calls|)
  }

  /** Each call obeys the routing row that the calls before it left. */
  ghost predicate Trace(limit: int, start: RoutingRow, calls: seq<CallRecord>) {
    forall i :: 0 <= i < |calls| ==> ObeysAt(limit, start, calls, i)
  }

  ghost predicate ObeysAt(limit: int, start: RoutingRow, calls: seq<CallRecord>, i: nat)
    requires i < |calls|
  {
    Obeys(limit, StateAt(start, calls, i), calls[i])
  }

  lemma {:induction false} StateAtExtends(start: RoutingRow, calls: seq<CallRecord>, c: CallRecord, n: nat)
    requires n <= |calls|
    ensures StateAt(start, calls + [c], n) == StateAt(start, calls, n)
  {
    if n > 0 {
      StateAtExtends(start, calls, c, n - 1);
    }
  }

  lemma TraceExtends(limit: int, start: RoutingRow, calls: seq<CallRecord>, c: CallRecord)
    requires Trace(limit, start, calls)
    requires Obeys(limit, Fold(start, calls), c)
    ensures Trace(limit, start, calls + [c])
    ensures Fold(start, calls + [c]) == Advance(Fold(start, calls), c)
  {
    StateAtExtends(start, calls, c, |calls|);
    forall i | 0 <= i <= |calls|
      ensures ObeysAt(limit, start, calls + [c], i)
    {
      StateAtExtends(start, calls, c, i);
      assert i < |calls| ==> ObeysAt(limit, start, calls, i);
    }
  }
}
