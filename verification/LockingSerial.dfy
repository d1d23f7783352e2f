/** Whole transactions are interleavings too: every run of the store is one in which nobody else is at work. */
module LockingSerial {
  import opened Basics
  import opened Transitions
  import opened Tickets
  import opened Routing
  import opened Selects
  import opened StoreSpec
  import opened StoreInvariants
  import opened SweepPolicy
  import opened Locking
  import opened LockingRuns
  import StoreRuns

  /** The system at rest with these tables. */
  ghost predicate AtRest(s: Sys, db: Db) {
    && s.txs == map[] && s.db.tickets == db.tickets && s.db.appointments == db.appointments
    && forall key :: RoutingOf(s.db, key) == RoutingOf(db, key)
  }

  lemma StaysAtRest(s: Sys, db: Db, s': Sys, db': Db)
    requires AtRest(s, db) && s'.txs == map[]
    requires s'.db.tickets == db'.tickets && s'.db.appointments == db'.appointments
    requires s'.db.routing == s.db.routing && db'.routing == db.routing
    ensures AtRest(s', db')
  {
    forall key ensures RoutingOf(s'.db, key) == RoutingOf(db', key) {
      assert RoutingOf(s.db, key) == RoutingOf(db, key);
    }
  }

  lemma StaysAtRestRouted(s: Sys, db: Db, s': Sys, db': Db, key: Key, row: RoutingRow)
    requires AtRest(s, db) && s'.txs == map[]
    requires s'.db.tickets == db'.tickets && s'.db.appointments == db'.appointments
    requires s'.db.routing == s.db.routing[key := row] || (s'.db.routing == s.db.routing && row == RoutingOf(db, key))
    requires db'.routing == db.routing[key := row]
    ensures AtRest(s', db')
  {
    forall k ensures RoutingOf(s'.db, k) == RoutingOf(db', k) {
      assert RoutingOf(s.db, k) == RoutingOf(db, k);
    }
  }

  /** The system with this transaction alone. */
  function Alone(s: Sys, w: Work): Sys {
    s.(txs := map["tx" := w])
  }

  lemma AloneMeetsNoLock(s: Sys, w: Work, key: Key)
    ensures LockedByOthers(Alone(s, w), "tx") == {} && HeldByOthers(Alone(s, w), "tx") == {}
    ensures SelectView(Alone(s, w), "tx", key) == ServiceView(s.db, key, {})
  {
    assert SkippedBy(Alone(s, w), "tx") == {};
  }

  // -------------------------------------------------------- moving and inserting

  lemma BeginAlone(limit: int, steps: seq<Step>, s: Sys) returns (more: seq<Step>)
    requires LeadsTo(limit, steps, s) && s.txs == map[]
    ensures LeadsTo(limit, more, Alone(s, Moving(map[], {}, map[])))
  {
    assert s.txs["tx" := Moving(map[], {}, map[])] == map["tx" := Moving(map[], {}, map[])];
    more := Reaches(limit, steps, s, Begin("tx"), Alone(s, Moving(map[], {}, map[])));
  }

  lemma MarksNone(appointments: map<string, Appointment>)
    ensures CheckedInAll(appointments, {}) == appointments
  {
  }

  lemma CommitAlone(limit: int, steps: seq<Step>, s: Sys, pending: map<string, TicketRow>)
      returns (more: seq<Step>, s': Sys)
    requires LeadsTo(limit, steps, Alone(s, Moving(pending, {}, map[])))
    ensures LeadsTo(limit, more, s') && s'.txs == map[] && s'.db == s.db.(tickets := s.db.tickets + pending)
  {
    var before := Alone(s, Moving(pending, {}, map[]));
    s' := Committed(before, "tx");
    MarksNone(s.db.appointments);
    assert before.txs - {"tx"} == map[];
    more := Reaches(limit, steps, before, Commit("tx"), s');
  }

  lemma InsertAlone(limit: int, steps: seq<Step>, s: Sys, row: TicketRow) returns (more: seq<Step>, s': Sys)
    requires LeadsTo(limit, steps, s) && s.txs == map[]
    requires row.status == Waiting && row.ticketId !in s.db.tickets && row.appointmentId.None?
    ensures LeadsTo(limit, more, s') && s'.txs == map[]
    ensures s'.db == s.db.(tickets := s.db.tickets[row.ticketId := row])
  {
    var begun, filled := Moving(map[], {}, map[]), Moving(map[row.ticketId := row], {}, map[]);
    more := BeginAlone(limit, steps, s);
    AloneMeetsNoLock(s, begun, KeyOf(row));
    assert Alone(s, begun).txs["tx" := filled] == Alone(s, filled).txs;
    more := Reaches(limit, more, Alone(s, begun), InsertRow("tx", row), Alone(s, filled));
    more, s' := CommitAlone(limit, more, s, map[row.ticketId := row]);
    AddsOneRow(s.db.tickets, row.ticketId, row);
  }

  lemma CanMoveAlone(limit: int, s: Sys, pending: map<string, TicketRow>, id: string, m: Move)
    requires !m.Call? && !m.Recall? && id in s.db.tickets + pending && Guard((s.db.tickets + pending)[id], m)
    ensures CanStep(limit, Alone(s, Moving(pending, {}, map[])), MoveRow("tx", id, m))
    ensures Next(limit, Alone(s, Moving(pending, {}, map[])), MoveRow("tx", id, m)) ==
      Alone(s, Moving(pending[id := After((s.db.tickets + pending)[id], m)], {}, map[]))
  {
    var before := Moving(pending, {}, map[]);
    var after := Moving(pending[id := After((s.db.tickets + pending)[id], m)], {}, map[]);
    AloneMeetsNoLock(s, before, Key("", "", ""));
    assert Version(Alone(s, before), before, id) == Some((s.db.tickets + pending)[id]);
    assert Alone(s, before).txs["tx" := after] == Alone(s, after).txs;
  }

  lemma MoveAlone(limit: int, steps: seq<Step>, s: Sys, pending: map<string, TicketRow>, id: string, m: Move)
      returns (more: seq<Step>)
    requires LeadsTo(limit, steps, Alone(s, Moving(pending, {}, map[]))) && !m.Call? && !m.Recall?
    requires id in s.db.tickets + pending && Guard((s.db.tickets + pending)[id], m)
    ensures LeadsTo(limit, more, Alone(s, Moving(pending[id := After((s.db.tickets + pending)[id], m)], {}, map[])))
  {
    CanMoveAlone(limit, s, pending, id, m);
    more := Reaches(limit, steps, Alone(s, Moving(pending, {}, map[])), MoveRow("tx", id, m),
                    Alone(s, Moving(pending[id := After((s.db.tickets + pending)[id], m)], {}, map[])));
  }

  lemma MoveOneAlone(limit: int, steps: seq<Step>, s: Sys, id: string, m: Move) returns (more: seq<Step>, s': Sys)
    requires LeadsTo(limit, steps, s) && s.txs == map[] && !m.Call? && !m.Recall?
    requires id in s.db.tickets && Guard(s.db.tickets[id], m)
    ensures LeadsTo(limit, more, s') && s'.txs == map[]
    ensures s'.db == s.db.(tickets := s.db.tickets[id := After(s.db.tickets[id], m)])
  {
    more := BeginAlone(limit, steps, s);
    assert s.db.tickets + map[] == s.db.tickets;
    more := MoveAlone(limit, more, s, map[], id, m);
    more, s' := CommitAlone(limit, more, s, map[id := After(s.db.tickets[id], m)]);
    AddsOneRow(s.db.tickets, id, After(s.db.tickets[id], m));
  }

  // -------------------------------------------------------------------- sweeping

  lemma AddsToPending(rows: map<string, TicketRow>, pending: map<string, TicketRow>, id: string, row: TicketRow)
    ensures rows + pending[id := row] == (rows + pending)[id := row]
  {
  }

  /** The turns of a sweep, each an update of the same transaction. */
  lemma {:induction false} SweepTurns(cfg: Config, steps: seq<Step>, s: Sys, db: Db, input: SweepInput,
                                      batch: seq<string>, now: Time)
      returns (more: seq<Step>, pending: map<string, TicketRow>)
    requires LeadsTo(cfg.streakLimit, steps, s) && s.txs == map[] && s.db.tickets == db.tickets
    requires forall i :: 0 <= i < |batch| ==> batch[i] in db.tickets && db.tickets[batch[i]].status == Called
    requires forall i, j :: 0 <= i < j < |batch| ==> batch[i] != batch[j]
    ensures LeadsTo(cfg.streakLimit, more, Alone(s, Moving(pending, {}, map[])))
    ensures s.db.tickets + pending == SweepBatch(cfg, db, input, batch, now).0.tickets
    decreases |batch|
  {
    if batch == [] {
      pending := map[];
      assert s.db.tickets + map[] == s.db.tickets;
      more := BeginAlone(cfg.streakLimit, steps, s);
    } else {
      var n := |batch| - 1;
      more, pending := SweepTurns(cfg, steps, s, db, input, batch[..n], now);
      BatchCountsChanges(cfg, db, input, batch[..n], now);
      assert batch[n] !in batch[..n];
      var before := SweepBatch(cfg, db, input, batch[..n], now).0;
      more, pending := SweepTurn(cfg, more, s, before, input, batch[n], now, pending);
    }
  }

  lemma SweepTurn(cfg: Config, steps: seq<Step>, s: Sys, before: Db, input: SweepInput, id: string, now: Time,
                  pending: map<string, TicketRow>)
      returns (more: seq<Step>, pending': map<string, TicketRow>)
    requires LeadsTo(cfg.streakLimit, steps, Alone(s, Moving(pending, {}, map[])))
    requires s.db.tickets + pending == before.tickets && id in before.tickets && before.tickets[id].status == Called
    ensures LeadsTo(cfg.streakLimit, more, Alone(s, Moving(pending', {}, map[])))
    ensures s.db.tickets + pending' == SweepTicket(cfg, before, input, id, now).0.tickets
  {
    more, pending' := steps, pending;
    var due := NoShowDue(cfg, input, before.tickets[id], now);
    if due.Some? {
      var row := After(before.tickets[id], SweepNoShow(due.value));
      more := MoveAlone(cfg.streakLimit, steps, s, pending, id, SweepNoShow(due.value));
      pending' := pending[id := row];
      AddsToPending(s.db.tickets, pending, id, row);
    }
  }

  // ------------------------------------------------------------------ checking in

  lemma CheckInAlone(limit: int, steps: seq<Step>, s: Sys, row: TicketRow, a: string)
      returns (more: seq<Step>, s': Sys)
    requires LeadsTo(limit, steps, s) && s.txs == map[]
    requires row.status == Waiting && row.ticketId !in s.db.tickets && row.appointmentId == Some(a)
    requires row.priorityClass == REGULAR && a in s.db.appointments && s.db.appointments[a].status == Scheduled
    requires var booked := s.db.appointments[a];
      KeyOf(row) == Key(booked.tenantId, booked.branchId, booked.serviceId)
    ensures LeadsTo(limit, more, s') && s'.txs == map[]
    ensures s'.db == s.db.(tickets := s.db.tickets[row.ticketId := row],
                           appointments := s.db.appointments[a := s.db.appointments[a].(status := CheckedIn)])
  {
    more := BeginAlone(limit, steps, s);
    more := MarkAlone(limit, more, s, a);
    var marked := Moving(map[], {a}, map[a := Scheduled]);
    var filed := Moving(map[row.ticketId := row], {a}, map[a := Scheduled]);
    AloneMeetsNoLock(s, marked, KeyOf(row));
    assert Alone(s, marked).txs["tx" := filed] == Alone(s, filed).txs;
    more := Reaches(limit, more, Alone(s, marked), InsertRow("tx", row), Alone(s, filed));
    s' := Committed(Alone(s, filed), "tx");
    CommitsFiled(s, row, a);
    assert Files(Alone(s, filed), "tx", row.ticketId, a);
    more := Reaches(limit, more, Alone(s, filed), Commit("tx"), s');
  }

  lemma MarkAlone(limit: int, steps: seq<Step>, s: Sys, a: string) returns (more: seq<Step>)
    requires LeadsTo(limit, steps, Alone(s, Moving(map[], {}, map[])))
    requires a in s.db.appointments && s.db.appointments[a].status == Scheduled
    ensures LeadsTo(limit, more, Alone(s, Moving(map[], {a}, map[a := Scheduled])))
  {
    var begun, seen := Moving(map[], {}, map[]), Moving(map[], {a}, map[]);
    var marked := Moving(map[], {a}, map[a := Scheduled]);
    AloneMeetsNoLock(s, seen, Key("", "", ""));
    assert {} + {a} == {a};
    assert Alone(s, begun).txs["tx" := seen] == Alone(s, seen).txs;
    more := Reaches(limit, steps, Alone(s, begun), SeeAppointment("tx", a), Alone(s, seen));
    assert Alone(s, seen).txs["tx" := marked] == Alone(s, marked).txs;
    more := Reaches(limit, more, Alone(s, seen), MarkAppointment("tx", a), Alone(s, marked));
  }

  lemma CommitsFiled(s: Sys, row: TicketRow, a: string)
    requires a in s.db.appointments
    ensures var s' := Committed(Alone(s, Moving(map[row.ticketId := row], {a}, map[a := Scheduled])), "tx");
      && s'.txs == map[]
      && s'.db == s.db.(tickets := s.db.tickets[row.ticketId := row],
                        appointments := s.db.appointments[a := s.db.appointments[a].(status := CheckedIn)])
  {
    AddsOneRow(s.db.tickets, row.ticketId, row);
    MarksOne(s.db.appointments, a);
    var marks := map[a := Scheduled];
    assert marks.Keys == {a};
  }

  // --------------------------------------------------------------------- calling

  function Searched(s: Sys, key: Key, policy: Policy, at: Time, view: View, n: nat): Work {
    Selecting(key, RoutingOf(s.db, key), policy, at, seq(n, _ => view))
  }

  /** The first n selects of a call, all in vain. */
  lemma {:induction false} SelectsAlone(limit: int, steps: seq<Step>, s: Sys, key: Key, policy: Policy, at: Time,
                                        view: View, n: nat)
      returns (more: seq<Step>)
    requires LeadsTo(limit, steps, s) && s.txs == map[] && view == ServiceView(s.db, key, {}) && n <= STAGES
    requires forall i :: 0 <= i < n ==> Finds(view, Prefer(limit, RoutingOf(s.db, key), policy, at), i, None)
    ensures LeadsTo(limit, more, Alone(s, Searched(s, key, policy, at, view, n)))
    decreases n
  {
    if n == 0 {
      var w := Searched(s, key, policy, at, view, 0);
      assert seq(0, _ => view) == [];
      assert s.txs["tx" := w] == Alone(s, w).txs;
      more := Reaches(limit, steps, s, LockRoute("tx", key, policy, at), Alone(s, w));
    } else {
      more := SelectsAlone(limit, steps, s, key, policy, at, view, n - 1);
      var w, w' := Searched(s, key, policy, at, view, n - 1), Searched(s, key, policy, at, view, n);
      AloneMeetsNoLock(s, w, key);
      assert seq(n - 1, _ => view) + [view] == seq(n, _ => view);
      assert Alone(s, w).txs["tx" := w'] == Alone(s, w').txs;
      more := Reaches(limit, more, Alone(s, w), SelectNone("tx"), Alone(s, w'));
    }
  }

  /** A call of a least-ranked ticket, by as many selects as it takes to find it. */
  lemma CallAlone(limit: int, steps: seq<Step>, s: Sys, key: Key, policy: Policy, at: Time, counter: string,
                  pick: string)
      returns (more: seq<Step>, s': Sys)
    requires LeadsTo(limit, steps, s) && s.txs == map[]
    requires Best(ServiceView(s.db, key, {}), Prefer(limit, RoutingOf(s.db, key), policy, at), pick)
    ensures LeadsTo(limit, more, s') && s'.txs == map[] && pick in s.db.tickets
    ensures var row := s.db.tickets[pick];
      s'.db == SetRouting(s.db.(tickets := s.db.tickets[pick := After(row, Call(counter, at))]), key,
                          CalledRouting(RoutingOf(s.db, key), policy, row))
  {
    var view, p := ServiceView(s.db, key, {}), Prefer(limit, RoutingOf(s.db, key), policy, at);
    var k := FirstStage(view[pick], p);
    BestIsFound(view, p, pick);
    more := SelectsAlone(limit, steps, s, key, policy, at, view, k);
    var w := Searched(s, key, policy, at, view, k);
    var call := StagedCall(policy, at, pick, w.views + [view]);
    var chosen := Chosen(key, RoutingOf(s.db, key), call, counter, After(s.db.tickets[pick], Call(counter, at)));
    AloneMeetsNoLock(s, w, key);
    assert Alone(s, w).txs["tx" := chosen] == Alone(s, chosen).txs;
    more := Reaches(limit, more, Alone(s, w), SelectOne("tx", counter, pick), Alone(s, chosen));
    s' := Committed(Alone(s, chosen), "tx");
    CommitsCall(s, key, call, counter, view);
    more := Reaches(limit, more, Alone(s, chosen), Commit("tx"), s');
  }

  function CalledRouting(row: RoutingRow, policy: Policy, ticket: TicketRow): RoutingRow {
    UpdateRoutingState(ResetWindow(row, NormalizeWindow(policy.windowSize)), ticket.priorityClass,
                       ticket.appointmentId.Some?, NormalizeWindow(policy.windowSize))
  }

  lemma CommitsCall(s: Sys, key: Key, call: StagedCall, counter: string, view: View)
    requires call.views != [] && LastView(call) == view && view == ServiceView(s.db, key, {}) && call.pick in view
    ensures var row := After(s.db.tickets[call.pick], Call(counter, call.at));
      var s' := Committed(Alone(s, Chosen(key, RoutingOf(s.db, key), call, counter, row)), "tx");
      && s'.txs == map[]
      && s'.db == SetRouting(s.db.(tickets := s.db.tickets[call.pick := row]), key,
                             CalledRouting(RoutingOf(s.db, key), call.policy, s.db.tickets[call.pick]))
  {
    AddsOneRow(s.db.tickets, call.pick, After(s.db.tickets[call.pick], Call(counter, call.at)));
    MarksNone(s.db.appointments);
  }

  /** A call of an empty queue: all its selects in vain. */
  lemma EmptyCallAlone(limit: int, steps: seq<Step>, s: Sys, key: Key, policy: Policy, at: Time)
      returns (more: seq<Step>, s': Sys)
    requires LeadsTo(limit, steps, s) && s.txs == map[] && ServiceView(s.db, key, {}) == map[]
    ensures LeadsTo(limit, more, s') && s'.txs == map[] && s'.db == s.db
  {
    more := SelectsAlone(limit, steps, s, key, policy, at, map[], STAGES);
    var before := Alone(s, Searched(s, key, policy, at, map[], STAGES));
    s' := Committed(before, "tx");
    MarksNone(s.db.appointments);
    assert s.db.tickets + map[] == s.db.tickets;
    assert before.txs - {"tx"} == map[];
    more := Reaches(limit, more, before, Commit("tx"), s');
  }

  // ------------------------------------------------------------------- commands

  /** A call finds no ticket locked by others. */
  predicate Unhindered(cmd: Command) {
    cmd.CallNext? ==> cmd.env.locked == {}
  }

  lemma CreateIsInterleaved(cfg: Config, steps: seq<Step>, s: Sys, db: Db, input: CreateInput, code: Option<string>,
                            newId: string, now: Time)
      returns (more: seq<Step>, s': Sys)
    requires LeadsTo(cfg.streakLimit, steps, s) && AtRest(s, db) && Enabled(cfg, db, Create(input, code, newId, now))
    ensures LeadsTo(cfg.streakLimit, more, s') && AtRest(s', ExecCreate(cfg, db, input, code, newId, now).0)
  {
    more, s' := steps, s;
    if input.requestId !in db.requestIndex && code.Some? {
      var row := NewRow(db, newId, input.requestId, code.value, input.tenantId, input.branchId, input.serviceId,
                        input.priorityClass, OrNow(input.createdAt, now), None);
      more, s' := InsertAlone(cfg.streakLimit, steps, s, row);
      StaysAtRest(s, db, s', ExecCreate(cfg, db, input, code, newId, now).0);
    }
  }

  lemma CheckInIsInterleaved(cfg: Config, steps: seq<Step>, s: Sys, db: Db, input: CheckInInput, holiday: bool,
                             code: Option<string>, newId: string, now: Time)
      returns (more: seq<Step>, s': Sys)
    requires LeadsTo(cfg.streakLimit, steps, s) && AtRest(s, db)
    requires Enabled(cfg, db, CheckIn(input, holiday, code, newId, now))
    ensures LeadsTo(cfg.streakLimit, more, s') && AtRest(s', ExecCheckIn(cfg, db, input, holiday, code, newId, now).0)
  {
    more, s' := steps, s;
    if input.requestId !in db.requestIndex && CanCheckIn(db, input) && !holiday && code.Some? {
      var row := NewRow(db, newId, input.requestId, code.value, input.tenantId, input.branchId,
                        db.appointments[input.appointmentId].serviceId, REGULAR, now, Some(input.appointmentId));
      more, s' := CheckInAlone(cfg.streakLimit, steps, s, row, input.appointmentId);
      StaysAtRest(s, db, s', ExecCheckIn(cfg, db, input, holiday, code, newId, now).0);
    }
  }

  lemma CallIsInterleaved(cfg: Config, steps: seq<Step>, s: Sys, db: Db, input: CallInput, env: CallEnv,
                          pick: Option<string>, now: Time)
      returns (more: seq<Step>, s': Sys)
    requires LeadsTo(cfg.streakLimit, steps, s) && AtRest(s, db) && env.locked == {}
    requires Enabled(cfg, db, CallNext(input, env, pick, now))
    ensures LeadsTo(cfg.streakLimit, more, s') && AtRest(s', ExecCallNext(cfg, db, input, env, pick, now).0)
  {
    more, s' := steps, s;
    var key, at := CallKey(input), OrNow(input.calledAt, now);
    CallShape(cfg, db, input, env, pick, now);
    assert ServiceView(s.db, key, {}) == ServiceView(db, key, {}) && RoutingOf(s.db, key) == RoutingOf(db, key);
    if CallReached(db, input, env) {
      if pick.None? {
        more, s' := EmptyCallAlone(cfg.streakLimit, steps, s, key, env.policy, at);
        StaysAtRestRouted(s, db, s', EmptyCall(db, input), key, RoutingOf(db, key));
      } else {
        more, s' := CallAlone(cfg.streakLimit, steps, s, key, env.policy, at, input.counterId, pick.value);
        StaysAtRestRouted(s, db, s', CallEffect(cfg, db, input, env, pick.value, now), key,
                          CalledRouting(RoutingOf(db, key), env.policy, db.tickets[pick.value]));
      }
    }
  }

  lemma ActIsInterleaved(cfg: Config, steps: seq<Step>, s: Sys, db: Db, input: ActInput, m: Move, targetExists: bool,
                         now: Time)
      returns (more: seq<Step>, s': Sys)
    requires LeadsTo(cfg.streakLimit, steps, s) && AtRest(s, db) && Enabled(cfg, db, Act(input, m, targetExists, now))
    ensures LeadsTo(cfg.streakLimit, more, s') && AtRest(s', ExecAct(cfg, db, input, m, targetExists, now).0)
  {
    more, s' := steps, s;
    StoreRuns.ActOutcome(cfg, db, input, m, targetExists, now);
    if StoreRuns.ActReached(db, input, m, targetExists, now) {
      if m.Recall? {
        assert db.tickets[input.ticketId := db.tickets[input.ticketId]] == db.tickets;
        StaysAtRest(s, db, s', ExecAct(cfg, db, input, m, targetExists, now).0);
      } else {
        more, s' := MoveOneAlone(cfg.streakLimit, steps, s, input.ticketId, Stamped(m, now));
        StaysAtRest(s, db, s', ExecAct(cfg, db, input, m, targetExists, now).0);
      }
    }
  }

  lemma SweepIsInterleaved(cfg: Config, steps: seq<Step>, s: Sys, db: Db, input: SweepInput, batch: seq<string>,
                           now: Time)
      returns (more: seq<Step>, s': Sys)
    requires LeadsTo(cfg.streakLimit, steps, s) && AtRest(s, db) && Enabled(cfg, db, AutoNoShow(input, batch, now))
    ensures LeadsTo(cfg.streakLimit, more, s') && AtRest(s', ExecAutoNoShow(cfg, db, input, batch, now).0)
  {
    more, s' := steps, s;
    if input.grace > 0 {
      BatchIsCalled(db, input, now, batch);
      var pending;
      more, pending := SweepTurns(cfg, steps, s, db, input, batch, now);
      more, s' := CommitAlone(cfg.streakLimit, more, s, pending);
      StoreRuns.SweepKeepsTables(cfg, db, input, batch, now);
      StaysAtRest(s, db, s', SweepBatch(cfg, db, input, batch, now).0);
    }
  }

  lemma BookIsInterleaved(cfg: Config, steps: seq<Step>, s: Sys, db: Db, id: string, appointment: Appointment)
      returns (more: seq<Step>, s': Sys)
    requires LeadsTo(cfg.streakLimit, steps, s) && AtRest(s, db)
    requires Enabled(cfg, db, Command.Book(id, appointment))
    ensures LeadsTo(cfg.streakLimit, more, s') && AtRest(s', Exec(cfg, db, Command.Book(id, appointment)).0)
  {
    s' := s.(db := s.db.(appointments := s.db.appointments[id := appointment]));
    more := Reaches(cfg.streakLimit, steps, s, Step.Book(id, appointment), s');
    StaysAtRest(s, db, s', Exec(cfg, db, Command.Book(id, appointment)).0);
  }

  lemma CommandIsInterleaved(cfg: Config, steps: seq<Step>, s: Sys, db: Db, cmd: Command)
      returns (more: seq<Step>, s': Sys)
    requires LeadsTo(cfg.streakLimit, steps, s) && AtRest(s, db) && Enabled(cfg, db, cmd) && Unhindered(cmd)
    ensures LeadsTo(cfg.streakLimit, more, s') && AtRest(s', Exec(cfg, db, cmd).0)
  {
    match cmd
    case Create(input, code, newId, now) => more, s' := CreateIsInterleaved(cfg, steps, s, db, input, code, newId, now);
    case CheckIn(input, holiday, code, newId, now) =>
      more, s' := CheckInIsInterleaved(cfg, steps, s, db, input, holiday, code, newId, now);
    case CallNext(input, env, pick, now) => more, s' := CallIsInterleaved(cfg, steps, s, db, input, env, pick, now);
    case Act(input, m, targetExists, now) =>
      more, s' := ActIsInterleaved(cfg, steps, s, db, input, m, targetExists, now);
    case AutoNoShow(input, batch, now) => more, s' := SweepIsInterleaved(cfg, steps, s, db, input, batch, now);
    case Book(id, appointment) => more, s' := BookIsInterleaved(cfg, steps, s, db, id, appointment);
  }

  /** Every run of commands that find nothing locked is an interleaving: it leads to the same tables. */
  lemma {:induction false} EveryRunIsAnInterleaving(cfg: Config, cmds: seq<Command>, n: nat)
      returns (steps: seq<Step>, s: Sys)
    requires RunEnabled(cfg, EMPTY_DB, cmds) && n <= |cmds| && forall i :: 0 <= i < |cmds| ==> Unhindered(cmds[i])
    ensures LeadsTo(cfg.streakLimit, steps, s) && AtRest(s, StateAfter(cfg, EMPTY_DB, cmds, n))
  {
    if n == 0 {
      steps, s := [], IDLE;
    } else {
      steps, s := EveryRunIsAnInterleaving(cfg, cmds, n - 1);
      assert EnabledAt(cfg, EMPTY_DB, cmds, n - 1);
      steps, s := CommandIsInterleaved(cfg, steps, s, StateAfter(cfg, EMPTY_DB, cmds, n - 1), cmds[n - 1]);
    }
  }
}
