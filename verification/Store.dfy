/** The ticket store as the service runs it: tables updated in place, one method a transaction. */
module Store {
  import opened Basics
  import opened Transitions
  import opened EventLog
  import opened TicketNumbers
  import opened Tickets
  import opened Routing
  import opened StoreSpec

  datatype StampColumn = NoColumn | ServedAt | CompletedAt

  /** The arguments with which StartServing and its siblings call UpdateTicketStatus describe this move. */
  predicate Describes(m: Move, action: string, fromStatus: Status, toStatus: Status, kind: string, column: StampColumn,
                      counter: Option<string>, at: Time)
  {
    match m
    case Start(c, t) => (action, fromStatus, toStatus, kind, column, counter, at) ==
        ("start_serving", Called, Serving, "ticket.serving", ServedAt, Some(c), t)
    case Complete(t) => (action, fromStatus, toStatus, kind, column, counter, at) ==
        ("complete", Serving, Status.Done, "ticket.done", CompletedAt, None, t)
    case Cancel => (action, fromStatus, toStatus, kind, column, counter) ==
        ("cancel", Waiting, Cancelled, "ticket.cancelled", NoColumn, None)
    case Hold => (action, fromStatus, toStatus, kind, column, counter) ==
        ("hold", Waiting, Held, "ticket.held", NoColumn, None)
    case Unhold => (action, fromStatus, toStatus, kind, column, counter) ==
        ("unhold", Held, Waiting, "ticket.unheld", NoColumn, None)
    case _ => false
  }

  /** The columns an UpdateTicketStatus writes. */
  function WithStatus(row: TicketRow, toStatus: Status, column: StampColumn, at: Time): TicketRow {
    match column
    case NoColumn => row.(status := toStatus)
    case ServedAt => row.(status := toStatus, servedAt := Some(at))
    case CompletedAt => row.(status := toStatus, completedAt := Some(at))
  }

  lemma DescribedMove(m: Move, action: string, fromStatus: Status, toStatus: Status, kind: string, column: StampColumn,
                      counter: Option<string>, at: Time, row: TicketRow, requestId: string, now: Time)
    requires Describes(m, action, fromStatus, toStatus, kind, column, counter, at)
    ensures var stamped := Stamped(m, now);
      && ActionName(m) == action && MoveKind(stamped) == kind && !m.Transfer?
      && (Guard(row, stamped) <==> row.status == fromStatus && (counter.Some? ==> row.counterId == counter))
      && After(row, stamped) == WithStatus(row, toStatus, column, OrNow(at, now))
      && MovePayload(row, stamped, requestId) == GenericPayload(After(row, stamped), requestId)
    ensures GuardError(row, m)
         == if counter.Some? && row.counterId.Some? && row.counterId.value != "" && row.counterId != counter
             then CounterMismatch else InvalidState
    ensures ValidTransition(action, fromStatus)
  {
    assert TRANSITION_MAP[action][0] == fromStatus;
  }

  /** Locking the routing row is invisible to the view of the queue. */
  lemma ViewIgnoresRouting(db: Db, key: Key, state: RoutingRow, locked: set<string>)
    ensures ServiceView(SetRouting(db, key, state), key, locked) == ServiceView(db, key, locked)
  {
  }

  /** The empty and the successful ends of a call, seen from behind the row lock. */
  lemma CallBehindLock(cfg: Config, db: Db, input: CallInput, env: CallEnv, pick: Option<string>, now: Time)
    requires FindAction(db, "call_next", input.requestId).None? && CallRefusal(env).None?
    requires pick.Some? ==> pick.value in db.tickets
    ensures var key, state := CallKey(input), RoutingOf(db, CallKey(input));
      var locked := SetRouting(db, key, state);
      ExecCallNext(cfg, db, input, env, pick, now) ==
        match pick
        case None => (Record(locked, input.requestId, "call_next", None), Failed(NoTicket))
        case Some(id) =>
          var window := NormalizeWindow(env.policy.windowSize);
          var routed := Routing.UpdateRoutingState(ResetWindow(state, window), db.tickets[id].priorityClass,
                                                   db.tickets[id].appointmentId.Some?, window);
          (Touch(cfg.codec, SetRouting(Record(locked, input.requestId, "call_next", Some(id)), key, routed),
                 id, Call(input.counterId, OrNow(input.calledAt, now)), input.requestId, now), Answered(id, true))
  {
    if pick.Some? {
      var key, id, window := CallKey(input), pick.value, NormalizeWindow(env.policy.windowSize);
      var state := RoutingOf(db, key);
      var routed := Routing.UpdateRoutingState(ResetWindow(state, window), db.tickets[id].priorityClass,
                                               db.tickets[id].appointmentId.Some?, window);
      assert SetRouting(Record(SetRouting(db, key, state), input.requestId, "call_next", Some(id)), key, routed)
          == SetRouting(Record(db, input.requestId, "call_next", Some(id)), key, routed);
    }
  }

  class TicketStore {
    const codec: Codec
    const noShowReturnToQueue: bool
    const priorityStreakLimit: int

    var tickets: map<string, TicketRow>
    var requestIndex: map<string, string>
    var actions: map<string, ActionRow>
    var sequences: map<(string, string), nat>
    var routing: map<Key, RoutingRow>
    var appointments: map<string, Appointment>
    var outbox: seq<OutboxRow>
    var events: map<string, seq<TicketEvent>>

    /** The committed tables. */
    function Snapshot(): Db
      reads this
    {
      Db(tickets, requestIndex, actions, sequences, routing, appointments, outbox, events)
    }

    function Options(): Config {
      Config(codec, priorityStreakLimit, noShowReturnToQueue)
    }

    constructor NewStore(codec: Codec, returnToQueue: bool, streakLimit: int)
      ensures Snapshot() == EMPTY_DB
      ensures Options() == Config(codec, if streakLimit <= 0 then 3 else streakLimit, returnToQueue)
    {
      this.codec := codec;
      noShowReturnToQueue := returnToQueue;
      priorityStreakLimit := if streakLimit <= 0 then 3 else streakLimit;
      tickets, requestIndex, actions, sequences := map[], map[], map[], map[];
      routing, appointments, outbox, events := map[], map[], [], map[];
    }

    // ------------------------------------------------------- shared statements

    method FindActionRequest(action: string, requestId: string) returns (found: Option<Reply>)
      ensures found == FindAction(Snapshot(), action, requestId)
    {
      if requestId !in actions || actions[requestId].action != action {
        return None;
      }
      var ticketId := actions[requestId].ticketId;
      if ticketId.None? {
        return Some(Failed(if action == "call_next" then NoTicket else InvalidState));
      }
      return Some(Answered(ticketId.value, false));
    }

    method InsertActionRequest(action: string, requestId: string, ticketId: Option<string>)
      modifies this`actions
      ensures Snapshot() == Record(old(Snapshot()), requestId, action, ticketId)
    {
      if requestId !in actions {
        actions := actions[requestId := ActionRow(action, ticketId)];
      }
    }

    method NextTicketNumber(branchId: string, serviceId: string) returns (next: nat)
      modifies this`sequences
      ensures next == LastNumber(old(Snapshot()), branchId, serviceId) + 1
      ensures sequences == old(sequences)[(branchId, serviceId) := next]
    {
      next := 1;
      if (branchId, serviceId) in sequences {
        next := sequences[(branchId, serviceId)] + 1;
      }
      sequences := sequences[(branchId, serviceId) := next];
    }

    method InsertTicketEvent(id: string, kind: string, payload: Payload, now: Time)
      modifies this`events
      ensures events == old(events)[id := LogOf(old(Snapshot()), id) +
                                    [NextEvent(codec, LogOf(old(Snapshot()), id), id, kind, payload, now)]]
    {
      var log := if id in events then events[id] else [];
      var lastSeq, prev := 0, "";
      if |log| > 0 {
        lastSeq, prev := log[|log| - 1].entry.seqNo, log[|log| - 1].entry.hash;
      }
      var text, stamp := codec.json(payload), codec.stamp(now);
      var hash := codec.digest(Preimage(prev, id, kind, text, stamp, lastSeq + 1));
      events := events[id := log + [TicketEvent(Entry(id, lastSeq + 1, kind, text, stamp, prev, hash), Json(payload))]];
    }

    method InsertOutboxEvent(tenantId: string, id: string, kind: string, payload: Payload, now: Time)
      modifies this`outbox, this`events
      ensures Snapshot() == Emit(codec, old(Snapshot()), tenantId, id, kind, payload, now)
    {
      outbox := outbox + [OutboxRow(tenantId, kind, payload, now)];
      InsertTicketEvent(id, kind, payload, now);
    }

    // ------------------------------------------------------------ new tickets

    method CreateTicket(input: CreateInput, code: Option<string>, newId: string, now: Time) returns (reply: Reply)
      modifies this
      ensures (Snapshot(), reply) == ExecCreate(Options(), old(Snapshot()), input, code, newId, now)
    {
      if input.requestId in requestIndex {
        return Answered(requestIndex[input.requestId], false);
      }
      if code.None? {
        return Failed(ServiceNotFound);
      }
      var number := NextTicketNumber(input.branchId, input.serviceId);
      var createdAt := if input.createdAt == ZERO_TIME then now else input.createdAt;
      var row := TicketRow(newId, input.requestId, FormatNumber(code.value, number), input.tenantId, input.branchId,
                           input.serviceId, Waiting, input.priorityClass, createdAt, None, None, None, None, false,
                           None);
      assert row == NewRow(old(Snapshot()), newId, input.requestId, code.value, input.tenantId, input.branchId,
                           input.serviceId, input.priorityClass, createdAt, None);
      tickets := tickets[newId := row];
      requestIndex := requestIndex[input.requestId := newId];
      InsertOutboxEvent(input.tenantId, newId, CREATED, CreatedPayload(row), now);
      reply := Answered(newId, true);
    }

    method CheckInAppointment(input: CheckInInput, holiday: bool, code: Option<string>, newId: string,
                              now: Time) returns (reply: Reply)
      modifies this
      ensures (Snapshot(), reply) == ExecCheckIn(Options(), old(Snapshot()), input, holiday, code, newId, now)
    {
      if input.requestId in requestIndex {
        return Answered(requestIndex[input.requestId], false);
      }
      var id := input.appointmentId;
      if id !in appointments || appointments[id].tenantId != input.tenantId ||
          appointments[id].branchId != input.branchId
         || appointments[id].status != Scheduled
      {
        return Failed(TicketNotFound);
      }
      if holiday {
        return Failed(HolidayClosed);
      }
      var before := appointments;
      appointments := appointments[id := appointments[id].(status := CheckedIn)];
      if code.None? {
        appointments := before;  // the transaction is rolled back
        return Failed(ServiceNotFound);
      }
      var serviceId := before[id].serviceId;
      var number := NextTicketNumber(input.branchId, serviceId);
      var row := TicketRow(newId, input.requestId, FormatNumber(code.value, number), input.tenantId, input.branchId,
                           serviceId, Waiting, "regular", now, None, None, None, None, false, Some(id));
      tickets := tickets[newId := row];
      requestIndex := requestIndex[input.requestId := newId];
      InsertOutboxEvent(input.tenantId, newId, CREATED, CreatedPayload(row), now);
      reply := Answered(newId, true);
    }

    // ---------------------------------------------------------------- calling

    method LockRoutingState(key: Key) returns (state: RoutingRow)
      modifies this`routing
      ensures Snapshot() == SetRouting(old(Snapshot()), key, state)
      ensures state == RoutingOf(old(Snapshot()), key)
    {
      if key !in routing {
        routing := routing[key := RoutingRow(0, 0, 0)];
      }
      state := routing[key];
    }

    method StoreRoutingState(key: Key, state: RoutingRow, priorityClass: string, isAppointment: bool, window: int)
      modifies this`routing
      ensures Snapshot() == SetRouting(old(Snapshot()), key,
                                       Routing.UpdateRoutingState(state, priorityClass, isAppointment, window))
    {
      var streak, total, served := state.streak, state.totalServed + 1, state.appointmentServed;
      if priorityClass == "regular" {
        streak := 0;
      } else if priorityClass != "" {
        streak := state.streak + 1;
      }
      if isAppointment {
        served := served + 1;
      }
      if window > 0 && total >= window {
        total, served := 0, 0;
      }
      routing := routing[key := RoutingRow(streak, served, total)];
    }

    /** What the call prefers, and the cascade of selects over the service's unlocked waiting tickets. */
    method SelectNextTicket(key: Key, locked: set<string>, state: RoutingRow, policy: Policy,
                            calledAt: Time) returns (pick: Option<string>)
      ensures Selected(ServiceView(Snapshot(), key, locked), Prefer(priorityStreakLimit, state, policy, calledAt), pick)
    {
      var preferRegular := state.streak >= priorityStreakLimit;
      var window := NormalizeWindow(policy.windowSize);
      var target := TargetCount(policy.ratioPercent, window);
      var served := state.appointmentServed;
      if state.totalServed >= window {
        served := 0;
      }
      var preferAppointment := policy.ratioPercent > 0 && served < target;
      var boostCutoff := None;
      if policy.boostMinutes > 0 {
        boostCutoff := Some(calledAt + policy.boostMinutes * NANOS_PER_MINUTE);
      }
      pick := UpdateNextTicket(ServiceView(Snapshot(), key, locked),
                               Preference(preferRegular, preferAppointment, boostCutoff));
    }

    /** The writes of a successful call. */
    method CallTicket(input: CallInput, state: RoutingRow, window: int, id: string, calledAt: Time, now: Time)
      requires id in tickets && tickets[id].tenantId == input.tenantId
      modifies this`tickets, this`actions, this`routing, this`outbox, this`events
      ensures var db := old(Snapshot());
        var routed := Routing.UpdateRoutingState(ResetWindow(state, window), db.tickets[id].priorityClass,
                                                 db.tickets[id].appointmentId.Some?, window);
        Snapshot() == Touch(codec,
                            SetRouting(Record(db, input.requestId, "call_next", Some(id)), CallKey(input), routed),
                            id, Call(input.counterId, calledAt), input.requestId, now)
    {
      var row := tickets[id].(status := Called, counterId := Some(input.counterId), calledAt := Some(calledAt));
      tickets := tickets[id := row];
      InsertActionRequest("call_next", input.requestId, Some(id));
      var reset := state;
      if state.totalServed >= window {
        reset := state.(totalServed := 0, appointmentServed := 0);
      }
      StoreRoutingState(Key(input.tenantId, input.branchId, input.serviceId), reset, row.priorityClass,
                        row.appointmentId.Some?, window);
      InsertOutboxEvent(input.tenantId, id, CALLED, CalledPayload(row, input.requestId), now);
    }

    /** CallNext; the pick is reported because equal ranks leave the database a choice. */
    method CallNext(input: CallInput, env: CallEnv, now: Time) returns (reply: Reply, pick: Option<string>)
      modifies this
      ensures Enabled(Options(), old(Snapshot()), Command.CallNext(input, env, pick, now))
      ensures (Snapshot(), reply) == ExecCallNext(Options(), old(Snapshot()), input, env, pick, now)
    {
      pick := None;
      var found := FindActionRequest("call_next", input.requestId);
      if found.Some? {
        return found.value, None;
      }
      if !env.serviceExists {
        return Failed(ServiceNotFound), None;
      }
      if !env.counterAllowed {
        return Failed(AccessDenied), None;
      }
      if env.counterAvailable.None? {
        return Failed(CounterNotFound), None;
      }
      if !env.counterAvailable.value {
        return Failed(CounterUnavailable), None;
      }
      reply, pick := CallInLockedSection(input, env, now);
    }

    /** CallNext from the row lock on. */
    method CallInLockedSection(input: CallInput, env: CallEnv, now: Time) returns (reply: Reply, pick: Option<string>)
      requires FindAction(Snapshot(), "call_next", input.requestId).None? && CallRefusal(env).None?
      modifies this
      ensures Selected(ServiceView(old(Snapshot()), CallKey(input), env.locked),
                       CallPreference(Options(), old(Snapshot()), input, env, now), pick)
      ensures (Snapshot(), reply) == ExecCallNext(Options(), old(Snapshot()), input, env, pick, now)
    {
      ghost var db := Snapshot();
      var calledAt := if input.calledAt == ZERO_TIME then now else input.calledAt;
      var key := Key(input.tenantId, input.branchId, input.serviceId);
      var state := LockRoutingState(key);
      ViewIgnoresRouting(db, key, state, env.locked);
      pick := SelectNextTicket(key, env.locked, state, env.policy, calledAt);
      if pick.None? {
        CallBehindLock(Options(), db, input, env, None, now);
        InsertActionRequest("call_next", input.requestId, None);
        return Failed(NoTicket), None;
      }
      assert InQueue(db, key, pick.value);
      CallBehindLock(Options(), db, input, env, pick, now);
      CallTicket(input, state, NormalizeWindow(env.policy.windowSize), pick.value, calledAt, now);
      reply := Answered(pick.value, true);
    }

    // ---------------------------------------------------------- ticket actions

    method UpdateTicketStatus(input: ActInput, action: string, fromStatus: Status, toStatus: Status, kind: string,
                              column: StampColumn, counter: Option<string>, occurredAt: Time, now: Time, ghost m: Move)
      returns (reply: Reply)
      requires Describes(m, action, fromStatus, toStatus, kind, column, counter, occurredAt)
      modifies this
      ensures (Snapshot(), reply) == ExecAct(Options(), old(Snapshot()), input, m, true, now)
    {
      var found := FindActionRequest(action, input.requestId);
      var id := input.ticketId;
      if id in tickets {
        DescribedMove(m, action, fromStatus, toStatus, kind, column, counter, occurredAt, tickets[id], input.requestId,
                      now);
      } else {
        assert ActionName(m) == action && !m.Transfer?;
      }
      if found.Some? {
        return found.value;
      }
      var at := if occurredAt == ZERO_TIME then now else occurredAt;
      if id !in tickets || tickets[id].tenantId != input.tenantId || tickets[id].branchId != input.branchId {
        return Failed(TicketNotFound);
      }
      var row := tickets[id];
      if row.status != fromStatus || (counter.Some? && row.counterId != counter) {
        if counter.Some? && row.counterId.Some? && row.counterId.value != "" && row.counterId != counter {
          return Failed(CounterMismatch);
        }
        return Failed(InvalidState);
      }
      WriteStatus(input, action, toStatus, kind, column, at, now);
      reply := Answered(id, true);
    }

    /** The writes of a status update whose guard has matched. */
    method WriteStatus(input: ActInput, action: string, toStatus: Status, kind: string, column: StampColumn, at: Time,
                       now: Time)
      requires Addressed(Snapshot(), input)
      modifies this`tickets, this`actions, this`outbox, this`events
      ensures var db, row := old(Snapshot()), WithStatus(old(tickets[input.ticketId]), toStatus, column, at);
        Snapshot() == Emit(codec,
                           Record(db.(tickets := db.tickets[input.ticketId := row]), input.requestId, action,
                                  Some(input.ticketId)),
                           row.tenantId, input.ticketId, kind, GenericPayload(row, input.requestId), now)
    {
      var row := tickets[input.ticketId].(status := toStatus);
      if column == ServedAt {
        row := row.(servedAt := Some(at));
      } else if column == CompletedAt {
        row := row.(completedAt := Some(at));
      }
      tickets := tickets[input.ticketId := row];
      InsertActionRequest(action, input.requestId, Some(input.ticketId));
      InsertOutboxEvent(input.tenantId, input.ticketId, kind, GenericPayload(row, input.requestId), now);
    }

    method StartServing(input: ActInput, counterId: string, occurredAt: Time, now: Time) returns (reply: Reply)
      modifies this
      ensures (Snapshot(), reply) == ExecAct(Options(), old(Snapshot()), input, Start(counterId, occurredAt), true, now)
    {
      reply := UpdateTicketStatus(input, "start_serving", Called, Serving, "ticket.serving", ServedAt, Some(counterId),
                                  occurredAt, now,
                                  Start(counterId, occurredAt));
    }

    method CompleteTicket(input: ActInput, occurredAt: Time, now: Time) returns (reply: Reply)
      modifies this
      ensures (Snapshot(), reply) == ExecAct(Options(), old(Snapshot()), input, Complete(occurredAt), true, now)
    {
      reply := UpdateTicketStatus(input, "complete", Serving, Status.Done, "ticket.done", CompletedAt, None, occurredAt,
                                  now, Complete(occurredAt));
    }

    method CancelTicket(input: ActInput, occurredAt: Time, now: Time) returns (reply: Reply)
      modifies this
      ensures (Snapshot(), reply) == ExecAct(Options(), old(Snapshot()), input, Cancel, true, now)
    {
      reply := UpdateTicketStatus(input, "cancel", Waiting, Cancelled, "ticket.cancelled", NoColumn, None, occurredAt,
                                  now, Cancel);
    }

    method HoldTicket(input: ActInput, occurredAt: Time, now: Time) returns (reply: Reply)
      modifies this
      ensures (Snapshot(), reply) == ExecAct(Options(), old(Snapshot()), input, Hold, true, now)
    {
      reply := UpdateTicketStatus(input, "hold", Waiting, Held, "ticket.held", NoColumn, None, occurredAt, now, Hold);
    }

    method UnholdTicket(input: ActInput, occurredAt: Time, now: Time) returns (reply: Reply)
      modifies this
      ensures (Snapshot(), reply) == ExecAct(Options(), old(Snapshot()), input, Unhold, true, now)
    {
      reply := UpdateTicketStatus(input, "unhold", Held, Waiting, "ticket.unheld", NoColumn, None, occurredAt, now,
                                  Unhold);
    }

    /** EmitTicketEvent with the arguments of RecallTicket. */
    method RecallTicket(input: ActInput, now: Time) returns (reply: Reply)
      modifies this
      ensures (Snapshot(), reply) == ExecAct(Options(), old(Snapshot()), input, Recall, true, now)
    {
      var found := FindActionRequest("recall", input.requestId);
      if found.Some? {
        return found.value;
      }
      var id := input.ticketId;
      if id !in tickets || tickets[id].tenantId != input.tenantId || tickets[id].branchId != input.branchId {
        return Failed(TicketNotFound);
      }
      if tickets[id].status != Called {
        return Failed(InvalidState);
      }
      InsertActionRequest("recall", input.requestId, Some(id));
      InsertOutboxEvent(input.tenantId, id, "ticket.recalled", GenericPayload(tickets[id], input.requestId), now);
      assert tickets[id := tickets[id]] == tickets;
      reply := Answered(id, true);
    }

    /** ApplyNoShow. */
    method NoShowTicket(input: ActInput, returnToQueue: bool, now: Time) returns (reply: Reply)
      modifies this
      ensures (Snapshot(), reply) == ExecAct(Options(), old(Snapshot()), input, MarkNoShow(returnToQueue), true, now)
    {
      var found := FindActionRequest("no_show", input.requestId);
      if found.Some? {
        return found.value;
      }
      var id := input.ticketId;
      if id !in tickets || tickets[id].tenantId != input.tenantId || tickets[id].branchId != input.branchId {
        return Failed(TicketNotFound);
      }
      if tickets[id].status != Called {
        return Failed(InvalidState);
      }
      var row := tickets[id];
      if returnToQueue {
        row := row.(status := Waiting, counterId := None, calledAt := None, returned := true);
      } else {
        row := row.(status := NoShow);
      }
      tickets := tickets[id := row];
      InsertActionRequest("no_show", input.requestId, Some(id));
      InsertOutboxEvent(input.tenantId, id, NO_SHOW,
                        NoShowPayload(row, input.requestId, row.calledAt, row.counterId, returnToQueue), now);
      reply := Answered(id, true);
    }

    method TransferTicket(input: ActInput, toService: string, reason: string, targetExists: bool,
                          now: Time) returns (reply: Reply)
      modifies this
      ensures (Snapshot(), reply) ==
          ExecAct(Options(), old(Snapshot()), input, Transfer(toService, reason), targetExists, now)
    {
      var found := FindActionRequest("transfer", input.requestId);
      if found.Some? {
        return found.value;
      }
      if toService == "" || !targetExists {
        return Failed(ServiceNotFound);
      }
      var id := input.ticketId;
      if id !in tickets || tickets[id].tenantId != input.tenantId || tickets[id].branchId != input.branchId
         || (tickets[id].status != Waiting && tickets[id].status != Called && tickets[id].status != Serving)
      {
        return Failed(InvalidState);
      }
      var fromService := tickets[id].serviceId;
      var row := tickets[id].(status := Waiting, serviceId := toService, counterId := None);
      tickets := tickets[id := row];
      InsertActionRequest("transfer", input.requestId, Some(id));
      InsertOutboxEvent(input.tenantId, id, TRANSFERRED,
                        TransferPayload(row, input.requestId, fromService, toService, reason), now);
      reply := Answered(id, true);
    }

    // ------------------------------------------------------ automatic no-shows

    /** The longest called sweepable ticket that is not selected yet. */
    method NextOverdue(input: SweepInput, now: Time, chosen: seq<string>) returns (next: Option<string>)
      ensures next.None? ==> forall id :: id in tickets && Sweepable(Snapshot(), input, now, id) ==> id in chosen
      ensures next.Some? ==>
        && Sweepable(Snapshot(), input, now, next.value) && next.value !in chosen
        && forall id :: id in tickets && Sweepable(Snapshot(), input, now, id) && id !in chosen ==>
            CalledNoLater(Snapshot(), next.value, id)
    {
      next := None;
      var rest := tickets.Keys;
      while rest != {}
        invariant rest <= tickets.Keys
        invariant next.None? ==> forall id :: id in tickets && id !in rest && Sweepable(Snapshot(), input, now, id) ==>
            id in chosen
        invariant next.Some? ==>
          && Sweepable(Snapshot(), input, now, next.value) && next.value !in chosen
          && forall id :: id in tickets && id !in rest && Sweepable(Snapshot(), input, now, id) && id !in chosen ==>
               CalledNoLater(Snapshot(), next.value, id)
        decreases rest
      {
        var id :| id in rest;
        rest := rest - {id};
        if Sweepable(Snapshot(), input, now, id) && id !in chosen {
          if next.None? || tickets[id].calledAt.value <= tickets[next.value].calledAt.value {
            next := Some(id);
          }
        }
      }
    }

    /** SELECT ... ORDER BY called_at FOR UPDATE SKIP LOCKED LIMIT n. */
    method SelectOverdue(input: SweepInput, now: Time) returns (batch: seq<string>)
      ensures IsBatch(Snapshot(), input, now, batch)
    {
      batch := [];
      while |batch| < BatchLimit(input)
        invariant |batch| <= BatchLimit(input)
        invariant forall i :: 0 <= i < |batch| ==> Sweepable(Snapshot(), input, now, batch[i])
        invariant forall i, j :: 0 <= i < j < |batch| ==>
            batch[i] != batch[j] && CalledNoLater(Snapshot(), batch[i], batch[j])
        invariant forall id :: id in tickets && Sweepable(Snapshot(), input, now, id) && id !in batch ==>
          forall i :: 0 <= i < |batch| ==> CalledNoLater(Snapshot(), batch[i], id)
      {
        var next := NextOverdue(input, now, batch);
        if next.None? {
          return;
        }
        batch := batch + [next.value];
      }
    }

    method AutoNoShow(input: SweepInput, now: Time) returns (reply: Reply, batch: seq<string>)
      modifies this
      ensures Enabled(Options(), old(Snapshot()), Command.AutoNoShow(input, batch, now))
      ensures (Snapshot(), reply) == ExecAutoNoShow(Options(), old(Snapshot()), input, batch, now)
    {
      batch := [];
      if input.grace <= 0 {
        return Swept(0), [];
      }
      batch := SelectOverdue(input, now);
      forall i | 0 <= i < |batch| ensures batch[i] in tickets {
        assert Sweepable(Snapshot(), input, now, batch[i]);
      }
      var processed := SweepAll(input, batch, now);
      reply := Swept(processed);
    }

    /** AutoNoShow's loop over the tickets that it has locked. */
    method SweepAll(input: SweepInput, batch: seq<string>, now: Time) returns (processed: nat)
      requires forall i :: 0 <= i < |batch| ==> batch[i] in tickets
      modifies this
      ensures (Snapshot(), processed) == SweepBatch(Options(), old(Snapshot()), input, batch, now)
    {
      processed := 0;
      for i := 0 to |batch|
        invariant (Snapshot(), processed) == SweepBatch(Options(), old(Snapshot()), input, batch[..i], now)
        invariant tickets.Keys == old(tickets.Keys)
      {
        assert batch[..i + 1][..i] == batch[..i];
        var one := SweepOne(input, batch[i], now);
        processed := processed + one;
      }
      assert batch[..|batch|] == batch;
    }

    /** One turn of AutoNoShow's loop. */
    method SweepOne(input: SweepInput, id: string, now: Time) returns (count: nat)
      requires id in tickets
      modifies this
      ensures (Snapshot(), count) == SweepTicket(Options(), old(Snapshot()), input, id, now)
      ensures tickets.Keys == old(tickets.Keys)
    {
      var row := tickets[id];
      var key := Key(row.tenantId, row.branchId, row.serviceId);
      var effectiveGrace, returnToQueue := input.grace, noShowReturnToQueue;
      if key in input.policies {
        effectiveGrace := input.policies[key].graceSeconds * NANOS_PER_SECOND;
        returnToQueue := input.policies[key].returnToQueue;
      }
      if row.calledAt.None? || now - row.calledAt.value < effectiveGrace {
        return 0;
      }
      var calledAt, counterId := row.calledAt, row.counterId;
      if returnToQueue {
        row := row.(status := Waiting, counterId := None, calledAt := None, returned := true);
      } else {
        row := row.(status := NoShow);
      }
      tickets := tickets[id := row];
      InsertOutboxEvent(row.tenantId, id, NO_SHOW, NoShowPayload(row, "", calledAt, counterId, returnToQueue), now);
      count := 1;
    }
  }
}
