/** Fairness and quotas for the calls of whole runs of the store. */
module StoreFairness {
  import opened Basics
  import opened Tickets
  import opened Routing
  import opened Fairness
  import opened StoreSpec
  import opened StoreInvariants
  import opened StoreRuns

  // ----------------------------------------------------------- routing of runs

  /** The successful call of this service that a step makes, if it makes one. */
  function CallOf(cfg: Config, db: Db, cmd: Command, key: Key): Option<CallRecord> {
    if cmd.CallNext? && CallKey(cmd.call) == key && cmd.pick.Some? &&
        Exec(cfg, db, cmd).1 == Answered(cmd.pick.value, true)
    then Some(RecordOf(db, cmd.call, cmd.env, cmd.pick.value, cmd.now))
    else None
  }

  function RecordOf(db: Db, input: CallInput, env: CallEnv, id: string, now: Time): CallRecord {
    CallRecord(ServiceView(db, CallKey(input), {}), ServiceView(db, CallKey(input), env.locked), env.policy,
               OrNow(input.calledAt, now), id)
  }

  /** The successful calls of a service among the first n steps. */
  function CallsOf(cfg: Config, db: Db, cmds: seq<Command>, n: nat, key: Key): seq<CallRecord>
    requires n <= |cmds|
  {
    if n == 0 then [] else
    var call := CallOf(cfg, StateAfter(cfg, db, cmds, n - 1), cmds[n - 1], key);
    Appended(CallsOf(cfg, db, cmds, n - 1, key), call)
  }

  lemma CallAdvancesRouting(cfg: Config, db: Db, input: CallInput, env: CallEnv, id: string, now: Time)
    requires Selected(ServiceView(db, CallKey(input), env.locked), CallPreference(cfg, db, input, env, now), Some(id))
    requires InQueue(db, CallKey(input), id) && id !in env.locked
    ensures Obeys(cfg.streakLimit, RoutingOf(db, CallKey(input)), RecordOf(db, input, env, id, now))
    ensures RoutingOf(CallBookkeeping(db, input, env, id), CallKey(input))
         == Advance(RoutingOf(db, CallKey(input)), RecordOf(db, input, env, id, now))
  {
  }

  /** The routing row moves as the step's call of the service dictates, and not at all without one. */
  ghost predicate RoutingFollows(cfg: Config, db: Db, db': Db, key: Key, call: Option<CallRecord>) {
    match call
    case None => RoutingOf(db', key) == RoutingOf(db, key)
    case Some(c) =>
      Obeys(cfg.streakLimit, RoutingOf(db, key), c) && RoutingOf(db', key) == Advance(RoutingOf(db, key), c)
  }

  lemma CallEffectRouting(cfg: Config, db: Db, input: CallInput, env: CallEnv, id: string, now: Time)
    requires id in db.tickets
    ensures CallEffect(cfg, db, input, env, id, now).routing == CallBookkeeping(db, input, env, id).routing
  {
  }

  lemma CallOfShape(cfg: Config, db: Db, input: CallInput, env: CallEnv, pick: Option<string>, now: Time, key: Key)
    requires Enabled(cfg, db, CallNext(input, env, pick, now))
    ensures CallOf(cfg, db, CallNext(input, env, pick, now), key)
         == if CallReached(db, input, env) && CallKey(input) == key && pick.Some?
             then Some(RecordOf(db, input, env, pick.value, now)) else None
  {
    CallShape(cfg, db, input, env, pick, now);
  }

  lemma CallStepAdvances(cfg: Config, db: Db, input: CallInput, env: CallEnv, pick: Option<string>, now: Time, key: Key)
    requires Enabled(cfg, db, CallNext(input, env, pick, now))
    ensures RoutingFollows(cfg, db, ExecCallNext(cfg, db, input, env, pick, now).0, key,
                           CallOf(cfg, db, CallNext(input, env, pick, now), key))
  {
    CallShape(cfg, db, input, env, pick, now);
    CallOfShape(cfg, db, input, env, pick, now, key);
    if CallReached(db, input, env) && pick.Some? {
      CallAdvancesRouting(cfg, db, input, env, pick.value, now);
      CallEffectRouting(cfg, db, input, env, pick.value, now);
    }
  }

  lemma ActKeepsRouting(cfg: Config, db: Db, input: ActInput, m: Move, targetExists: bool, now: Time)
    ensures ExecAct(cfg, db, input, m, targetExists, now).0.routing == db.routing
  {
    ActShape(cfg, db, input, m, targetExists, now);
  }

  lemma StepAdvancesRouting(cfg: Config, db: Db, cmd: Command, key: Key)
    requires Enabled(cfg, db, cmd)
    ensures RoutingFollows(cfg, db, Exec(cfg, db, cmd).0, key, CallOf(cfg, db, cmd, key))
  {
    match cmd
    case Create(_, _, _, _) =>
    case CheckIn(_, _, _, _, _) =>
    case CallNext(input, env, pick, now) => CallStepAdvances(cfg, db, input, env, pick, now, key);
    case Act(input, m, targetExists, now) => ActKeepsRouting(cfg, db, input, m, targetExists, now);
    case AutoNoShow(input, batch, now) => SweepKeepsTables(cfg, db, input, batch, now);
    case Book(_, _) =>
  }

  function Appended(calls: seq<CallRecord>, call: Option<CallRecord>): seq<CallRecord> {
    calls + if call.Some? then [call.value] else []
  }

  lemma TraceGoesOn(cfg: Config, start: RoutingRow, calls: seq<CallRecord>, db: Db, db': Db, key: Key,
                    call: Option<CallRecord>)
    requires Trace(cfg.streakLimit, start, calls) && RoutingOf(db, key) == Fold(start, calls)
    requires RoutingFollows(cfg, db, db', key, call)
    ensures Trace(cfg.streakLimit, start, Appended(calls, call)) &&
        RoutingOf(db', key) == Fold(start, Appended(calls, call))
  {
    if call.Some? {
      TraceExtends(cfg.streakLimit, start, calls, call.value);
    } else {
      assert Appended(calls, call) == calls;
    }
  }

  lemma StepExtendsTrace(cfg: Config, start: RoutingRow, calls: seq<CallRecord>, db: Db, cmd: Command, key: Key)
    requires Trace(cfg.streakLimit, start, calls) && RoutingOf(db, key) == Fold(start, calls)
    requires Enabled(cfg, db, cmd)
    ensures Trace(cfg.streakLimit, start, Appended(calls, CallOf(cfg, db, cmd, key)))
    ensures RoutingOf(Exec(cfg, db, cmd).0, key) == Fold(start, Appended(calls, CallOf(cfg, db, cmd, key)))
  {
    StepAdvancesRouting(cfg, db, cmd, key);
    TraceGoesOn(cfg, start, calls, db, Exec(cfg, db, cmd).0, key, CallOf(cfg, db, cmd, key));
  }

  /** The routing row is the fold of the service's successful calls, each of which obeyed it. */
  lemma {:induction false} RunIsATrace(cfg: Config, db: Db, cmds: seq<Command>, n: nat, key: Key)
    requires RunEnabled(cfg, db, cmds) && n <= |cmds|
    ensures Trace(cfg.streakLimit, RoutingOf(db, key), CallsOf(cfg, db, cmds, n, key))
    ensures RoutingOf(StateAfter(cfg, db, cmds, n), key) == Fold(RoutingOf(db, key), CallsOf(cfg, db, cmds, n, key))
  {
    if n > 0 {
      var mid := StateAfter(cfg, db, cmds, n - 1);
      RunIsATrace(cfg, db, cmds, n - 1, key);
      assert EnabledAt(cfg, db, cmds, n - 1);
      StepExtendsTrace(cfg, RoutingOf(db, key), CallsOf(cfg, db, cmds, n - 1, key), mid, cmds[n - 1], key);
    }
  }

  ghost predicate SeeRegularAppointments(calls: seq<CallRecord>) {
    forall i :: 0 <= i < |calls| ==> AppointmentsAreRegular(calls[i].view)
  }

  lemma ViewsAreRegular(db: Db, key: Key, locked: set<string>)
    requires AppointmentsOk(db)
    ensures AppointmentsAreRegular(ServiceView(db, key, locked))
  {
  }

  lemma CallSeesRegularAppointments(cfg: Config, db: Db, cmd: Command, key: Key)
    requires AppointmentsOk(db)
    ensures CallOf(cfg, db, cmd, key).Some? ==> AppointmentsAreRegular(CallOf(cfg, db, cmd, key).value.view)
  {
    if CallOf(cfg, db, cmd, key).Some? {
      ViewsAreRegular(db, key, cmd.env.locked);
    }
  }

  lemma {:induction false} CallsSeeRegularAppointments(cfg: Config, db: Db, cmds: seq<Command>, n: nat, key: Key)
    requires CodecOk(cfg.codec) && Inv(cfg.codec, db) && RunEnabled(cfg, db, cmds) && n <= |cmds|
    ensures SeeRegularAppointments(CallsOf(cfg, db, cmds, n, key))
  {
    if n > 0 {
      var mid := StateAfter(cfg, db, cmds, n - 1);
      CallsSeeRegularAppointments(cfg, db, cmds, n - 1, key);
      RunKeepsInv(cfg, db, cmds, n - 1);
      assert AppointmentsOk(mid) by {
        InvMeans(cfg.codec, mid);
      }
      CallSeesRegularAppointments(cfg, mid, cmds[n - 1], key);
    }
  }

  // --------------------------------------------------------------- named classes

  /** The guard of the HTTP layer: a ticket is created under a class. */
  predicate NamesClass(cmd: Command) {
    cmd.Create? ==> cmd.create.priorityClass != ""
  }

  predicate NameClasses(cmds: seq<Command>) {
    forall i :: 0 <= i < |cmds| ==> NamesClass(cmds[i])
  }

  predicate RowsNamed(db: Db) {
    forall id :: id in db.tickets ==> db.tickets[id].priorityClass != ""
  }

  lemma StepKeepsNamed(cfg: Config, db: Db, cmd: Command)
    requires Enabled(cfg, db, cmd) && RowsNamed(db) && NamesClass(cmd)
    ensures RowsNamed(Exec(cfg, db, cmd).0)
  {
    forall id | id in Exec(cfg, db, cmd).0.tickets ensures Exec(cfg, db, cmd).0.tickets[id].priorityClass != "" {
      if id in db.tickets {
        StepKeepsClass(cfg, db, cmd, id);
      } else {
        NewTicketIsIssued(cfg, db, cmd, id);
      }
    }
  }

  lemma {:induction false} RunKeepsNamed(cfg: Config, db: Db, cmds: seq<Command>, n: nat)
    requires RunEnabled(cfg, db, cmds) && n <= |cmds| && RowsNamed(db) && NameClasses(cmds)
    ensures RowsNamed(StateAfter(cfg, db, cmds, n))
  {
    if n > 0 {
      RunKeepsNamed(cfg, db, cmds, n - 1);
      assert EnabledAt(cfg, db, cmds, n - 1);
      StepKeepsNamed(cfg, StateAfter(cfg, db, cmds, n - 1), cmds[n - 1]);
    }
  }

  lemma CallSeesNamedClasses(cfg: Config, db: Db, cmd: Command, key: Key)
    requires RowsNamed(db)
    ensures CallOf(cfg, db, cmd, key).Some? ==> ClassesAreNamed(CallOf(cfg, db, cmd, key).value.view)
  {
  }

  ghost predicate SeeNamedClasses(calls: seq<CallRecord>) {
    forall i :: 0 <= i < |calls| ==> ClassesAreNamed(calls[i].view)
  }

  lemma AppendedSeesNamed(calls: seq<CallRecord>, call: Option<CallRecord>)
    requires SeeNamedClasses(calls) && (call.Some? ==> ClassesAreNamed(call.value.view))
    ensures SeeNamedClasses(Appended(calls, call))
  {
  }

  lemma {:induction false} CallsSeeNamedClasses(cfg: Config, db: Db, cmds: seq<Command>, n: nat, key: Key)
    requires RunEnabled(cfg, db, cmds) && n <= |cmds| && RowsNamed(db) && NameClasses(cmds)
    ensures SeeNamedClasses(CallsOf(cfg, db, cmds, n, key))
  {
    if n > 0 {
      CallsSeeNamedClasses(cfg, db, cmds, n - 1, key);
      RunKeepsNamed(cfg, db, cmds, n - 1);
      var call := CallOf(cfg, StateAfter(cfg, db, cmds, n - 1), cmds[n - 1], key);
      CallSeesNamedClasses(cfg, StateAfter(cfg, db, cmds, n - 1), cmds[n - 1], key);
      AppendedSeesNamed(CallsOf(cfg, db, cmds, n - 1, key), call);
    }
  }

  /** Among the limit + 1 calls from this one on, a regular one. */
  ghost predicate RegularAmong(calls: seq<CallRecord>, from: nat, limit: nat) {
    exists i :: from <= i < from + limit + 1 && i < |calls| && CalledClass(calls[i]) == REGULAR
  }

  ghost predicate SeeRegularWalkins(calls: seq<CallRecord>, from: nat, limit: nat) {
    from + limit + 1 <= |calls| && forall i :: from <= i < from + limit + 1 ==> SeesRegularWalkin(calls[i])
  }

  /**
   * Fairness in the store: in a run in which tickets are created under named classes, any limit + 1
   * successful calls of a service in a row that each see an unlocked regular walk-in call a regular ticket.
   */
  lemma StoreCallsRegularWithinLimit(cfg: Config, db: Db, cmds: seq<Command>, key: Key, from: nat)
    requires CodecOk(cfg.codec) && Inv(cfg.codec, db) && RunEnabled(cfg, db, cmds)
    requires RowsNamed(db) && NameClasses(cmds)
    requires cfg.streakLimit > 0 && RoutingOf(db, key).streak >= 0
    requires SeeRegularWalkins(CallsOf(cfg, db, cmds, |cmds|, key), from, cfg.streakLimit)
    ensures RegularAmong(CallsOf(cfg, db, cmds, |cmds|, key), from, cfg.streakLimit)
  {
    var calls := CallsOf(cfg, db, cmds, |cmds|, key);
    RunIsATrace(cfg, db, cmds, |cmds|, key);
    CallsSeeRegularAppointments(cfg, db, cmds, |cmds|, key);
    CallsSeeNamedClasses(cfg, db, cmds, |cmds|, key);
    WithinLimit(cfg.streakLimit, RoutingOf(db, key), calls, from);
  }

  lemma WithinLimit(limit: nat, start: RoutingRow, calls: seq<CallRecord>, from: nat)
    requires Trace(limit, start, calls) && start.streak >= 0
    requires SeeRegularAppointments(calls) && SeeNamedClasses(calls) && SeeRegularWalkins(calls, from, limit)
    ensures RegularAmong(calls, from, limit)
  {
    assert forall i :: from <= i < from + limit + 1 ==> OpenToRegulars(calls[i]);
    RegularWithinLimit(limit, start, calls, from);
  }

  predicate CountersInWindow(row: RoutingRow, calls: seq<CallRecord>) {
    0 <= row.appointmentServed <= row.totalServed && (calls != [] ==> row.totalServed < CallWindow(calls[|calls| - 1]))
  }

  lemma FoldStaysInWindow(start: RoutingRow, calls: seq<CallRecord>)
    requires start == FRESH
    ensures CountersInWindow(Fold(start, calls), calls)
  {
    CountersStayInWindow(start, calls, |calls|);
  }

  /** In every reachable state the quota counters lie inside the window of the service's last call. */
  lemma StoreCountersStayInWindow(cfg: Config, cmds: seq<Command>, n: nat, key: Key)
    requires RunEnabled(cfg, EMPTY_DB, cmds) && n <= |cmds|
    ensures CountersInWindow(RoutingOf(StateAfter(cfg, EMPTY_DB, cmds, n), key), CallsOf(cfg, EMPTY_DB, cmds, n, key))
  {
    RunIsATrace(cfg, EMPTY_DB, cmds, n, key);
    FoldStaysInWindow(RoutingOf(EMPTY_DB, key), CallsOf(cfg, EMPTY_DB, cmds, n, key));
  }

  /** The exact quota in the store: from a fresh window, under one policy, with both kinds always on offer. */
  lemma StoreExactQuota(cfg: Config, db: Db, cmds: seq<Command>, key: Key, ratio: int, window: nat)
    requires RunEnabled(cfg, db, cmds) && 0 <= ratio <= 100
    requires RoutingOf(db, key).appointmentServed == 0 && RoutingOf(db, key).totalServed == 0
    requires var calls := CallsOf(cfg, db, cmds, |cmds|, key);
      OnePolicy(calls, ratio, window) && AlwaysAppointment(calls) && AlwaysWalkin(calls)
    ensures var calls, t := CallsOf(cfg, db, cmds, |cmds|, key), TargetCount(ratio, window);
      AppointmentCalls(calls, |calls|) == (|calls| / window) * t + Min(|calls| % window, t)
  {
    RunIsATrace(cfg, db, cmds, |cmds|, key);
    ExactQuota(cfg.streakLimit, RoutingOf(db, key), CallsOf(cfg, db, cmds, |cmds|, key), ratio, window);
  }
}
