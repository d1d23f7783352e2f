/** Whom a call takes, in terms of the tables: groups, class and order, with the appointment boost on top. */
module Choice {
  import opened Basics
  import opened Transitions
  import opened Tickets
  import opened Routing
  import opened Selects
  import opened StoreSpec

  // ------------------------------------------------------------- the reference

  /** An appointment within the policy's minutes of the call. */
  predicate Boosted(c: Candidate, policy: Policy, at: Time) {
    policy.boostMinutes > 0 && c.scheduledAt.Some? && c.scheduledAt.value <= at + policy.boostMinutes * 60_000_000_000
  }

  function WindowOf(policy: Policy): int {
    if policy.windowSize > 0 then policy.windowSize else 10
  }

  /** One more appointment still fits the window's share, rounded to whole tickets. */
  predicate QuotaOpen(row: RoutingRow, policy: Policy) {
    var served := if row.totalServed < WindowOf(policy) then row.appointmentServed else 0;
    policy.ratioPercent > 0 && 100 * (served + 1) <= policy.ratioPercent * WindowOf(policy) + 50
  }

  ghost predicate SomeBoosted(view: View, policy: Policy, at: Time) {
    exists id :: id in view && Boosted(view[id], policy, at)
  }

  ghost predicate SomeAppointment(view: View) {
    exists id :: id in view && view[id].scheduledAt.Some?
  }

  ghost predicate SomeWalkin(view: View) {
    exists id :: id in view && view[id].scheduledAt.None?
  }

  /** The candidate is of the first kind that is on offer: boosted, within the quota, walk-in, any. */
  ghost predicate Favoured(view: View, row: RoutingRow, policy: Policy, at: Time, c: Candidate) {
    if SomeBoosted(view, policy, at) then Boosted(c, policy, at)
    else if QuotaOpen(row, policy) && SomeAppointment(view) then c.scheduledAt.Some?
    else SomeWalkin(view) ==> c.scheduledAt.None?
  }

  /** Regular after a full streak, of another class otherwise. */
  predicate WantedClass(limit: int, row: RoutingRow, c: Candidate) {
    c.priorityClass == "regular" <==> row.streak >= limit
  }

  /** Appointments by schedule and then age, walk-ins by age. */
  predicate NoLater(a: Candidate, b: Candidate) {
    if a.scheduledAt.Some? && b.scheduledAt.Some? && a.scheduledAt != b.scheduledAt
    then a.scheduledAt.value < b.scheduledAt.value else a.createdAt <= b.createdAt
  }

  ghost predicate Chosen(limit: int, row: RoutingRow, policy: Policy, at: Time, view: View, pick: string) {
    && pick in view && Favoured(view, row, policy, at, view[pick])
    && forall id :: id in view && Favoured(view, row, policy, at, view[id]) ==>
         && (WantedClass(limit, row, view[id]) ==> WantedClass(limit, row, view[pick]))
         && ((WantedClass(limit, row, view[id]) <==> WantedClass(limit, row, view[pick])) ==>
               NoLater(view[pick], view[id]))
  }

  // ------------------------------------------------- ranks say the same

  /** The tiers of the ranking are the kinds of candidates. */
  function KindOf(row: RoutingRow, policy: Policy, at: Time, c: Candidate): nat {
    if Boosted(c, policy, at) then 0
    else if c.scheduledAt.None? then 2
    else if QuotaOpen(row, policy) then 1 else 3
  }

  lemma QuotaOpenIffPreferred(limit: int, row: RoutingRow, policy: Policy, at: Time)
    ensures QuotaOpen(row, policy) <==> Prefer(limit, row, policy, at).appointment
  {
    var w := WindowOf(policy);
    if policy.ratioPercent > 0 {
      assert policy.ratioPercent * w > 0;
    }
  }

  lemma RankSays(limit: int, row: RoutingRow, policy: Policy, at: Time, c: Candidate)
    ensures var r := RankOf(c, Prefer(limit, row, policy, at));
      && r.tier == KindOf(row, policy, at, c)
      && (r.offClass == if WantedClass(limit, row, c) then 0 else 1)
      && r.second == c.createdAt && r.first == if c.scheduledAt.Some? then c.scheduledAt.value else c.createdAt
  {
    QuotaOpenIffPreferred(limit, row, policy, at);
  }

  /** The favoured candidates are those of the least kind in view. */
  lemma FavouredIsLeastKind(view: View, row: RoutingRow, policy: Policy, at: Time, id: string)
    requires id in view
    ensures Favoured(view, row, policy, at, view[id]) <==>
      forall other :: other in view ==> KindOf(row, policy, at, view[id]) <= KindOf(row, policy, at, view[other])
  {
    if SomeBoosted(view, policy, at) {
      var b :| b in view && Boosted(view[b], policy, at);
      assert KindOf(row, policy, at, view[b]) == 0;
    } else if QuotaOpen(row, policy) && SomeAppointment(view) {
      var a :| a in view && view[a].scheduledAt.Some?;
      assert KindOf(row, policy, at, view[a]) == 1;
    } else if SomeWalkin(view) {
      var w :| w in view && view[w].scheduledAt.None?;
      assert KindOf(row, policy, at, view[w]) == 2;
    }
  }

  /** Of a kind that comes first, or of the same kind and then by class and order. */
  predicate ComesFirst(limit: int, row: RoutingRow, policy: Policy, at: Time, a: Candidate, b: Candidate) {
    || KindOf(row, policy, at, a) < KindOf(row, policy, at, b)
    || (&& KindOf(row, policy, at, a) == KindOf(row, policy, at, b)
        && (WantedClass(limit, row, b) ==> WantedClass(limit, row, a))
        && ((WantedClass(limit, row, a) <==> WantedClass(limit, row, b)) ==> NoLater(a, b)))
  }

  lemma RankLeIffComesFirst(limit: int, row: RoutingRow, policy: Policy, at: Time, a: Candidate, b: Candidate)
    ensures var p := Prefer(limit, row, policy, at);
      RankLe(RankOf(a, p), RankOf(b, p)) <==> ComesFirst(limit, row, policy, at, a, b)
  {
    RankSays(limit, row, policy, at, a);
    RankSays(limit, row, policy, at, b);
  }

  /** The least-ranked candidates are the chosen ones. */
  lemma BestIffChosen(limit: int, row: RoutingRow, policy: Policy, at: Time, view: View, pick: string)
    ensures Best(view, Prefer(limit, row, policy, at), pick) <==> Chosen(limit, row, policy, at, view, pick)
  {
    if pick in view {
      var p := Prefer(limit, row, policy, at);
      FavouredIsLeastKind(view, row, policy, at, pick);
      forall id | id in view
        ensures RankLe(RankOf(view[pick], p), RankOf(view[id], p)) <==>
          ComesFirst(limit, row, policy, at, view[pick], view[id])
        ensures Favoured(view, row, policy, at, view[id]) <==>
          forall other :: other in view ==> KindOf(row, policy, at, view[id]) <= KindOf(row, policy, at, view[other])
      {
        RankLeIffComesFirst(limit, row, policy, at, view[pick], view[id]);
        FavouredIsLeastKind(view, row, policy, at, id);
      }
    }
  }

  // --------------------------------------------------------------- the boost

  /** A boosted appointment in view is called, or another boosted one. */
  lemma BoostedAreFirst(limit: int, row: RoutingRow, policy: Policy, at: Time, view: View, pick: string, x: string)
    requires Chosen(limit, row, policy, at, view, pick) && x in view && Boosted(view[x], policy, at)
    ensures Boosted(view[pick], policy, at)
  {
    assert SomeBoosted(view, policy, at);
  }

  /** With none in view the choice is that of the policy without boost. */
  lemma WithoutBoostedNoBoost(limit: int, row: RoutingRow, policy: Policy, at: Time, view: View, pick: string)
    requires !SomeBoosted(view, policy, at)
    ensures Chosen(limit, row, policy, at, view, pick) <==>
      Chosen(limit, row, policy.(boostMinutes := 0), at, view, pick)
  {
    var plain := policy.(boostMinutes := 0);
    assert !SomeBoosted(view, plain, at);
    assert QuotaOpen(row, plain) <==> QuotaOpen(row, policy);
    assert forall id :: id in view ==>
      (Favoured(view, row, plain, at, view[id]) <==> Favoured(view, row, policy, at, view[id]));
  }

  // ----------------------------------------------------------- on the tables

  /** The scheduled time of the appointment that the ticket was filed for. */
  function ScheduledAt(db: Db, row: TicketRow): Option<Time> {
    if row.appointmentId.Some? && row.appointmentId.value in db.appointments
    then Some(db.appointments[row.appointmentId.value].scheduledAt) else None
  }

  predicate WaitsFor(db: Db, input: CallInput, id: string) {
    && id in db.tickets
    && var row := db.tickets[id];
    && row.status == Waiting
    && row.tenantId == input.tenantId && row.branchId == input.branchId && row.serviceId == input.serviceId
    && (row.appointmentId.Some? ==> row.appointmentId.value in db.appointments)
  }

  /** The tickets that this call can take, with class, age and schedule as the tables have them. */
  function Queue(db: Db, input: CallInput, locked: set<string>): View {
    map id | id in db.tickets && WaitsFor(db, input, id) && id !in locked ::
      Candidate(db.tickets[id].priorityClass, db.tickets[id].createdAt, ScheduledAt(db, db.tickets[id]))
  }

  /** The given time of the call, or the clock's. */
  function CallTime(input: CallInput, now: Time): Time {
    if input.calledAt == 0 then now else input.calledAt
  }

  function RoutingFor(db: Db, input: CallInput): RoutingRow {
    var key := Key(input.tenantId, input.branchId, input.serviceId);
    if key in db.routing then db.routing[key] else RoutingRow(0, 0, 0)
  }

  /** The request is no repetition, and neither service nor counter is in the way. */
  predicate GetsThrough(db: Db, input: CallInput, env: CallEnv) {
    && (input.requestId in db.actions ==> db.actions[input.requestId].action != "call_next")
    && env.serviceExists && env.counterAllowed && env.counterAvailable == Some(true)
  }

  lemma QueueIsTheView(db: Db, input: CallInput, locked: set<string>)
    ensures Queue(db, input, locked) == ServiceView(db, CallKey(input), locked)
  {
  }

  /** A call takes a chosen ticket of its queue, and nobody exactly when its queue is empty. */
  lemma CallTakesTheChosen(cfg: Config, db: Db, input: CallInput, env: CallEnv, pick: Option<string>, now: Time)
    requires GetsThrough(db, input, env)
    ensures Enabled(cfg, db, CallNext(input, env, pick, now)) <==>
      match pick
      case None => Queue(db, input, env.locked) == map[]
      case Some(id) => Chosen(cfg.streakLimit, RoutingFor(db, input), env.policy, CallTime(input, now),
                              Queue(db, input, env.locked), id)
  {
    QueueIsTheView(db, input, env.locked);
    if pick.Some? {
      BestIffChosen(cfg.streakLimit, RoutingFor(db, input), env.policy, CallTime(input, now),
                    Queue(db, input, env.locked), pick.value);
    }
  }

  /** An unlocked waiting ticket of the service whose appointment is due within the boost of the call. */
  predicate BoostedTicket(db: Db, input: CallInput, env: CallEnv, now: Time, id: string) {
    && WaitsFor(db, input, id) && id !in env.locked && ScheduledAt(db, db.tickets[id]).Some?
    && env.policy.boostMinutes > 0
    && ScheduledAt(db, db.tickets[id]).value <= CallTime(input, now) + env.policy.boostMinutes * 60_000_000_000
  }

  /** If there is such a ticket, such a ticket is called. */
  lemma BoostedAppointmentIsCalled(cfg: Config, db: Db, input: CallInput, env: CallEnv, pick: Option<string>, now: Time,
                                   x: string)
    requires GetsThrough(db, input, env) && Enabled(cfg, db, CallNext(input, env, pick, now))
    requires BoostedTicket(db, input, env, now, x)
    ensures pick.Some? && BoostedTicket(db, input, env, now, pick.value)
    ensures Exec(cfg, db, CallNext(input, env, pick, now)).1 == Answered(pick.value, true)
  {
    CallTakesTheChosen(cfg, db, input, env, pick, now);
    var view := Queue(db, input, env.locked);
    assert x in view && Boosted(view[x], env.policy, CallTime(input, now));
    BoostedAreFirst(cfg.streakLimit, RoutingFor(db, input), env.policy, CallTime(input, now), view, pick.value, x);
  }

  /** If there is none, the boost makes no difference. */
  lemma NoBoostedTicketNoBoost(cfg: Config, db: Db, input: CallInput, env: CallEnv, pick: Option<string>, now: Time)
    requires GetsThrough(db, input, env) && forall x :: x in db.tickets ==> !BoostedTicket(db, input, env, now, x)
    ensures Enabled(cfg, db, CallNext(input, env, pick, now)) <==>
      Enabled(cfg, db, CallNext(input, env.(policy := env.policy.(boostMinutes := 0)), pick, now))
  {
    var plain := env.(policy := env.policy.(boostMinutes := 0));
    CallTakesTheChosen(cfg, db, input, env, pick, now);
    CallTakesTheChosen(cfg, db, input, plain, pick, now);
    var view := Queue(db, input, env.locked);
    forall id | id in view ensures !Boosted(view[id], env.policy, CallTime(input, now)) {
      assert !BoostedTicket(db, input, env, now, id);
    }
    if pick.Some? {
      WithoutBoostedNoBoost(cfg.streakLimit, RoutingFor(db, input), env.policy, CallTime(input, now), view, pick.value);
    }
  }

  /** Every call of every run takes a chosen ticket, a boosted one if there is one. */
  lemma RunCallsTheChosen(cfg: Config, db: Db, cmds: seq<Command>, i: nat)
    requires RunEnabled(cfg, db, cmds) && i < |cmds| && cmds[i].CallNext?
    requires GetsThrough(StateAfter(cfg, db, cmds, i), cmds[i].call, cmds[i].env)
    ensures var at, input, env, now := StateAfter(cfg, db, cmds, i), cmds[i].call, cmds[i].env, cmds[i].now;
      match cmds[i].pick
      case None => Queue(at, input, env.locked) == map[]
      case Some(id) =>
        && Chosen(cfg.streakLimit, RoutingFor(at, input), env.policy, CallTime(input, now),
                  Queue(at, input, env.locked), id)
        && ((exists x :: BoostedTicket(at, input, env, now, x)) ==> BoostedTicket(at, input, env, now, id))
  {
    var at, input, env, pick, now := StateAfter(cfg, db, cmds, i), cmds[i].call, cmds[i].env, cmds[i].pick, cmds[i].now;
    assert EnabledAt(cfg, db, cmds, i);
    CallTakesTheChosen(cfg, at, input, env, pick, now);
    if x :| BoostedTicket(at, input, env, now, x) {
      BoostedAppointmentIsCalled(cfg, at, input, env, pick, now, x);
    }
  }

  /** Select by select: a boosted appointment that all selects of a call saw makes the call take a boosted one. */
  lemma BoostedSeenThroughout(limit: int, row: RoutingRow, c: StagedCall, x: string, seen: Candidate)
    requires StagedObeys(limit, row, c) && SeenThroughout(c, x, seen) && Boosted(seen, c.policy, c.at)
    ensures Boosted(LastView(c)[c.pick], c.policy, c.at)
  {
    PickIsBestOfSeen(limit, row, c, x, seen);
    RankSays(limit, row, c.policy, c.at, seen);
    RankSays(limit, row, c.policy, c.at, LastView(c)[c.pick]);
  }
}
