/** Safety of the ticket store over whole runs: lifecycle, replay, idempotency, logging, numbering, check-in. */
module StoreRuns {
  import opened Basics
  import opened Transitions
  import opened EventLog
  import opened Tickets
  import opened Routing
  import opened StoreSpec
  import opened StoreInvariants

  /** Every state that runs from the empty store can reach. */
  ghost predicate Reachable(cfg: Config, db: Db) {
    exists cmds :: RunEnabled(cfg, EMPTY_DB, cmds) && db == Run(cfg, EMPTY_DB, cmds)
  }

  lemma ReachableInv(cfg: Config, db: Db)
    requires CodecOk(cfg.codec) && Reachable(cfg, db)
    ensures Inv(cfg.codec, db)
    ensures TicketsOk(db) && ChainsOk(cfg.codec, db) && AppointmentsOk(db) && NumbersOk(db) && DualOk(db)
  {
    var cmds :| RunEnabled(cfg, EMPTY_DB, cmds) && db == Run(cfg, EMPTY_DB, cmds);
    EmptyStoreInv(cfg.codec);
    RunKeepsInv(cfg, EMPTY_DB, cmds, |cmds|);
    InvMeans(cfg.codec, db);
  }

  // ------------------------------------------------------------ one step, one ticket

  /** What one step did to one existing ticket: nothing, or one guarded move and its log entry. */
  ghost predicate Moved(db: Db, db': Db, id: string, m: Option<Move>)
    requires id in db.tickets
  {
    && id in db'.tickets
    && match m
       case None => db'.tickets[id] == db.tickets[id] && LogOf(db', id) == LogOf(db, id)
       case Some(m) =>
         && Guard(db.tickets[id], m) && db'.tickets[id] == After(db.tickets[id], m)
         && |LogOf(db', id)| == |LogOf(db, id)| + 1 && LogOf(db', id)[..|LogOf(db, id)|] == LogOf(db, id)
         && LogOf(db', id)[|LogOf(db, id)|].entry.kind == MoveKind(m)
  }

  /** The move that a command makes on a ticket: the first execution of a call or an action, or the sweep. */
  function MoveOf(cfg: Config, db: Db, cmd: Command, id: string): Option<Move>
    requires id in db.tickets
  {
    match cmd
    case CallNext(input, env, pick, now) =>
      if CallReached(db, input, env) && pick == Some(id)
          then Some(Call(input.counterId, OrNow(input.calledAt, now))) else None
    case Act(input, m, targetExists, now) =>
      if ActReached(db, input, m, targetExists, now) && input.ticketId == id then Some(Stamped(m, now)) else None
    case AutoNoShow(input, batch, now) => if input.grace > 0 then SweepMove(cfg, db, input, batch, now, id) else None
    case _ => None
  }

  /** The action gets past its lookups and its guard. */
  predicate ActReached(db: Db, input: ActInput, m: Move, targetExists: bool, now: Time) {
    && FindAction(db, ActionName(m), input.requestId).None? && (m.Transfer? ==> m.to != "" && targetExists)
    && Addressed(db, input) && Guard(db.tickets[input.ticketId], Stamped(m, now))
  }

  function SweepMove(cfg: Config, db: Db, input: SweepInput, batch: seq<string>, now: Time, id: string): Option<Move>
    requires id in db.tickets
  {
    if id !in batch then None
    else match NoShowDue(cfg, input, db.tickets[id], now)
      case None => None
      case Some(requeue) => Some(SweepNoShow(requeue))
  }

  lemma SweepTurnMoves(cfg: Config, db: Db, before: Db, input: SweepInput, turn: string, now: Time, id: string,
                       m: Option<Move>)
    requires id in db.tickets && Moved(db, before, id, m) && turn in before.tickets
    requires turn == id ==> m == None && db.tickets[id].status == Called
    ensures Moved(db, SweepTicket(cfg, before, input, turn, now).0, id,
                  if turn == id then SweepMove(cfg, db, input, [id], now, id) else m)
  {
  }

  lemma {:induction false} SweepMoves(cfg: Config, db: Db, input: SweepInput, batch: seq<string>, now: Time, id: string)
    requires id in db.tickets
    requires forall i :: 0 <= i < |batch| ==> batch[i] in db.tickets && db.tickets[batch[i]].status == Called
    requires forall i, j :: 0 <= i < j < |batch| ==> batch[i] != batch[j]
    ensures Moved(db, SweepBatch(cfg, db, input, batch, now).0, id, SweepMove(cfg, db, input, batch, now, id))
    decreases |batch|
  {
    if batch != [] {
      var n := |batch| - 1;
      var before := SweepBatch(cfg, db, input, batch[..n], now).0;
      assert batch == batch[..n] + [batch[n]];
      assert id in batch <==> id == batch[n] || id in batch[..n];
      assert id == batch[n] ==> id !in batch[..n];
      SweepMoves(cfg, db, input, batch[..n], now, id);
      SweepKeepsRows(cfg, db, input, batch[..n], now, batch[n]);
      SweepTurnMoves(cfg, db, before, input, batch[n], now, id, SweepMove(cfg, db, input, batch[..n], now, id));
    }
  }

  lemma {:induction false} SweepKeepsRows(cfg: Config, db: Db, input: SweepInput, batch: seq<string>, now: Time,
                                          id: string)
    requires id in db.tickets
    ensures id in SweepBatch(cfg, db, input, batch, now).0.tickets
    decreases |batch|
  {
    if batch != [] {
      SweepKeepsRows(cfg, db, input, batch[..|batch| - 1], now, id);
    }
  }

  lemma TouchMoves(codec: Codec, db: Db, mid: Db, touched: string, m: Move, requestId: string, now: Time, id: string)
    requires id in db.tickets && mid.tickets == db.tickets && mid.events == db.events
    requires touched in db.tickets && Guard(db.tickets[touched], m)
    ensures Moved(db, Touch(codec, mid, touched, m, requestId, now), id, if touched == id then Some(m) else None)
  {
  }

  lemma CallMoves(cfg: Config, db: Db, input: CallInput, env: CallEnv, pick: Option<string>, now: Time, id: string)
    requires Enabled(cfg, db, CallNext(input, env, pick, now)) && id in db.tickets
    ensures Moved(db, ExecCallNext(cfg, db, input, env, pick, now).0, id,
                  MoveOf(cfg, db, CallNext(input, env, pick, now), id))
  {
    CallShape(cfg, db, input, env, pick, now);
    if CallReached(db, input, env) && pick.Some? {
      var call := Call(input.counterId, OrNow(input.calledAt, now));
      TouchMoves(cfg.codec, db, CallBookkeeping(db, input, env, pick.value), pick.value, call, input.requestId, now,
                 id);
    }
  }

  /** An action that is reached is recorded and touches its ticket; any other changes nothing. */
  lemma ActOutcome(cfg: Config, db: Db, input: ActInput, m: Move, targetExists: bool, now: Time)
    ensures var (db', reply) := ExecAct(cfg, db, input, m, targetExists, now);
      if ActReached(db, input, m, targetExists, now)
      then
        && reply == Answered(input.ticketId, true)
        && db' == Touch(cfg.codec, Record(db, input.requestId, ActionName(m), Some(input.ticketId)), input.ticketId,
                        Stamped(m, now), input.requestId, now)
      else db' == db && !(reply.Answered? && reply.first)
  {
  }

  lemma ActMoves(cfg: Config, db: Db, input: ActInput, move: Move, targetExists: bool, now: Time, id: string)
    requires id in db.tickets
    ensures Moved(db, ExecAct(cfg, db, input, move, targetExists, now).0, id,
                  MoveOf(cfg, db, Act(input, move, targetExists, now), id))
  {
    ActOutcome(cfg, db, input, move, targetExists, now);
    if ActReached(db, input, move, targetExists, now) {
      TouchMoves(cfg.codec, db, Record(db, input.requestId, ActionName(move), Some(input.ticketId)), input.ticketId,
                 Stamped(move, now), input.requestId, now, id);
    }
  }

  lemma CreateMoves(cfg: Config, db: Db, input: CreateInput, code: Option<string>, newId: string, now: Time, id: string)
    requires id in db.tickets && newId != id
    ensures Moved(db, ExecCreate(cfg, db, input, code, newId, now).0, id, None)
  {
  }

  lemma CheckInMoves(cfg: Config, db: Db, input: CheckInInput, holiday: bool, code: Option<string>, newId: string,
                     now: Time, id: string)
    requires id in db.tickets && newId != id
    ensures Moved(db, ExecCheckIn(cfg, db, input, holiday, code, newId, now).0, id, None)
  {
  }

  /** Every step does to every ticket just what MoveOf says. */
  lemma StepMoves(cfg: Config, db: Db, cmd: Command, id: string)
    requires Enabled(cfg, db, cmd) && id in db.tickets
    ensures Moved(db, Exec(cfg, db, cmd).0, id, MoveOf(cfg, db, cmd, id))
  {
    match cmd
    case Create(input, code, newId, now) => CreateMoves(cfg, db, input, code, newId, now, id);
    case CheckIn(input, holiday, code, newId, now) => CheckInMoves(cfg, db, input, holiday, code, newId, now, id);
    case CallNext(input, env, pick, now) => CallMoves(cfg, db, input, env, pick, now, id);
    case Act(input, move, targetExists, now) => ActMoves(cfg, db, input, move, targetExists, now, id);
    case AutoNoShow(input, batch, now) =>
      if input.grace > 0 {
        SweepMoves(cfg, db, input, batch, now, id);
      }
    case Book(_, _) =>
  }

  /** No move changes the class of a ticket or its appointment. */
  lemma StepKeepsClass(cfg: Config, db: Db, cmd: Command, id: string)
    requires Enabled(cfg, db, cmd) && id in db.tickets
    ensures id in Exec(cfg, db, cmd).0.tickets
    ensures var row, row' := db.tickets[id], Exec(cfg, db, cmd).0.tickets[id];
      row'.priorityClass == row.priorityClass && row'.appointmentId == row.appointmentId
  {
    StepMoves(cfg, db, cmd, id);
    if MoveOf(cfg, db, cmd, id).Some? {
      MoveKeepsIdentity(db.tickets[id], MoveOf(cfg, db, cmd, id).value);
    }
  }

  lemma CallAddsNoTicket(cfg: Config, db: Db, input: CallInput, env: CallEnv, pick: Option<string>, now: Time)
    requires Enabled(cfg, db, CallNext(input, env, pick, now))
    ensures ExecCallNext(cfg, db, input, env, pick, now).0.tickets.Keys == db.tickets.Keys
  {
    CallShape(cfg, db, input, env, pick, now);
  }

  lemma ActAddsNoTicket(cfg: Config, db: Db, input: ActInput, m: Move, targetExists: bool, now: Time)
    ensures ExecAct(cfg, db, input, m, targetExists, now).0.tickets.Keys == db.tickets.Keys
  {
    ActShape(cfg, db, input, m, targetExists, now);
  }

  lemma {:induction false} SweepAddsNoTicket(cfg: Config, db: Db, input: SweepInput, batch: seq<string>, now: Time)
    ensures SweepBatch(cfg, db, input, batch, now).0.tickets.Keys == db.tickets.Keys
    decreases |batch|
  {
    if batch != [] {
      SweepAddsNoTicket(cfg, db, input, batch[..|batch| - 1], now);
    }
  }

  /** The row that a first execution of this command issues under its fresh id. */
  ghost predicate IssuedBy(db: Db, cmd: Command, id: string, row: TicketRow) {
    match cmd
    case Create(input, code, newId, now) =>
      && id == newId && input.requestId !in db.requestIndex && code.Some?
      && row == NewRow(db, id, input.requestId, code.value, input.tenantId, input.branchId, input.serviceId,
                       input.priorityClass, OrNow(input.createdAt, now), None)
    case CheckIn(input, _, code, newId, now) =>
      && id == newId && input.requestId !in db.requestIndex && code.Some? && input.appointmentId in db.appointments
      && row == NewRow(db, id, input.requestId, code.value, input.tenantId, input.branchId,
                       db.appointments[input.appointmentId].serviceId, REGULAR, now, Some(input.appointmentId))
    case _ => false
  }

  /** A ticket appears only by a first creation or check-in, which answers it. */
  lemma NewTicketIsIssued(cfg: Config, db: Db, cmd: Command, id: string)
    requires Enabled(cfg, db, cmd) && id !in db.tickets && id in Exec(cfg, db, cmd).0.tickets
    ensures IssuedBy(db, cmd, id, Exec(cfg, db, cmd).0.tickets[id]) && Exec(cfg, db, cmd).1 == Answered(id, true)
  {
    match cmd
    case Create(_, _, _, _) =>
    case CheckIn(_, _, _, _, _) =>
    case CallNext(input, env, pick, now) => CallAddsNoTicket(cfg, db, input, env, pick, now);
    case Act(input, m, targetExists, now) => ActAddsNoTicket(cfg, db, input, m, targetExists, now);
    case AutoNoShow(input, batch, now) => SweepAddsNoTicket(cfg, db, input, batch, now);
    case Book(_, _) =>
  }

  // ---------------------------------------------------------------- lifecycle

  /** The name under which a command acts on existing tickets. */
  function CommandAction(cmd: Command): Option<string> {
    match cmd
    case CallNext(_, _, _, _) => Some("call_next")
    case Act(_, m, _, _) => Some(ActionName(m))
    case AutoNoShow(_, _, _) => Some("no_show")
    case _ => None
  }

  /** Every change of a row is the command's own move, and the transition table permits the command's action there. */
  lemma StatusChangesArePermitted(cfg: Config, db: Db, cmd: Command, id: string)
    requires Enabled(cfg, db, cmd) && id in db.tickets
    ensures id in Exec(cfg, db, cmd).0.tickets
    ensures var before, after, m := db.tickets[id], Exec(cfg, db, cmd).0.tickets[id], MoveOf(cfg, db, cmd, id);
      if m.None? then after == before
      else
        && CommandAction(cmd) == Some(ActionName(m.value)) && ValidTransition(ActionName(m.value), before.status)
        && after == After(before, m.value)
  {
    StepMoves(cfg, db, cmd, id);
    var m := MoveOf(cfg, db, cmd, id);
    if m.Some? {
      GuardIsTheTable(db.tickets[id], m.value);
    }
  }

  /** Done, cancelled and no-show tickets keep their rows for ever. */
  lemma {:induction false} FinalForever(cfg: Config, db: Db, cmds: seq<Command>, n: nat, id: string)
    requires RunEnabled(cfg, db, cmds) && n <= |cmds|
    requires id in db.tickets && Final(db.tickets[id].status)
    ensures id in StateAfter(cfg, db, cmds, n).tickets && StateAfter(cfg, db, cmds, n).tickets[id] == db.tickets[id]
  {
    if n > 0 {
      FinalForever(cfg, db, cmds, n - 1, id);
      assert EnabledAt(cfg, db, cmds, n - 1);
      var mid := StateAfter(cfg, db, cmds, n - 1);
      StepMoves(cfg, mid, cmds[n - 1], id);
      var m := MoveOf(cfg, mid, cmds[n - 1], id);
      if m.Some? {
        FinalIsFinal(mid.tickets[id], m.value);
      }
    }
  }

  /** In every reachable state two calls of one ticket are separated by a transfer or a returned no-show. */
  lemma CallsOfATicketAlternate(cfg: Config, db: Db, id: string)
    requires CodecOk(cfg.codec) && Reachable(cfg, db) && id in db.tickets
    ensures CallsAlternate(LogOf(db, id))
    ensures CallStands(LogOf(db, id)) <==> AtCounter(db.tickets[id].status)
  {
    ReachableInv(cfg, db);
  }

  // ------------------------------------------------------- rows, replay, chains

  /** In every reachable state a replay of a ticket's log gives its row, field by field. */
  lemma ReachableReplay(cfg: Config, db: Db, id: string)
    requires CodecOk(cfg.codec) && Reachable(cfg, db) && id in db.tickets
    ensures Replay(LogOf(db, id)).Some?
    ensures var v, row, log := Replay(LogOf(db, id)).value, db.tickets[id], LogOf(db, id);
      && v.ticketId == id && v.ticketNumber == row.ticketNumber
      && v.tenantId == row.tenantId && v.branchId == row.branchId && v.serviceId == row.serviceId
      && v.status == Some(row.status) && v.createdAt == row.createdAt
      && v.servedAt == row.servedAt && v.completedAt == row.completedAt
      && (v.counterId == row.counterId <==> AtCounter(row.status) || !EverCalled(log))
      && (v.calledAt == row.calledAt <==> row.calledAt.Some? || !EverCalled(log))
      && (AtCounter(row.status) ==> v.counterId == row.counterId && v.calledAt == row.calledAt)
  {
    ReachableInv(cfg, db);
    ReplayMatchesRow(db.tickets[id], LogOf(db, id));
  }

  /** Counter and completion columns are set exactly in their statuses. */
  lemma ReachableShape(cfg: Config, db: Db, id: string)
    requires CodecOk(cfg.codec) && Reachable(cfg, db) && id in db.tickets
    ensures RowShape(db.tickets[id])
  {
    ReachableInv(cfg, db);
  }

  lemma StoredLogIsNotEmpty(db: Db, id: string)
    requires TicketsOk(db) && id in db.tickets
    ensures LogOf(db, id) != []
  {
    assert TicketOk(db.tickets[id], db.events[id]);
  }

  /** Whoever presents a verifying log ending in the stored hash presents the stored log. */
  lemma StoredLogsAreTamperEvident(cfg: Config, db: Db, id: string, claimed: seq<Entry>)
    requires CodecOk(cfg.codec) && Reachable(cfg, db) && id in db.tickets
    requires Verifies(cfg.codec.digest, claimed) && CleanFields(claimed) && claimed != []
    requires CollisionFree(cfg.codec.digest, Entries(LogOf(db, id)), claimed)
    requires LastHash(claimed) == LastHash(Entries(LogOf(db, id)))
    ensures claimed == Entries(LogOf(db, id))
  {
    ReachableInv(cfg, db);
    StoredLogIsNotEmpty(db, id);
    assert ChainOk(cfg.codec, LogOf(db, id));
    LastHashPinsTheLog(cfg.codec.digest, Entries(LogOf(db, id)), claimed);
  }

  // -------------------------------------------------------------- idempotency

  /** The table in which a command looks up its request id: tickets, or the actions of one name. */
  function RequestOf(cmd: Command): Option<(string, string)> {
    match cmd
    case Create(input, _, _, _) => Some(("", input.requestId))
    case CheckIn(input, _, _, _, _) => Some(("", input.requestId))
    case CallNext(input, _, _, _) => Some(("call_next", input.requestId))
    case Act(input, m, _, _) => Some((ActionName(m), input.requestId))
    case _ => None
  }

  /** The answer that a replay of this request would get from the tables. */
  function Known(db: Db, request: (string, string)): Option<Reply> {
    if request.0 == "" then
      if request.1 in db.requestIndex then Some(Answered(db.requestIndex[request.1], false)) else None
    else FindAction(db, request.0, request.1)
  }

  /** A known request changes nothing and gets the recorded answer, whatever else the command says. */
  lemma KnownRequestIsSilent(cfg: Config, db: Db, cmd: Command)
    requires RequestOf(cmd).Some? && Known(db, RequestOf(cmd).value).Some?
    ensures Exec(cfg, db, cmd) == (db, Known(db, RequestOf(cmd).value).value)
  {
  }

  /** Answers are never forgotten or changed. */
  ghost predicate AnswersKept(db: Db, db': Db) {
    && (forall r :: r in db.requestIndex ==> r in db'.requestIndex && db'.requestIndex[r] == db.requestIndex[r])
    && (forall r :: r in db.actions ==> r in db'.actions && db'.actions[r] == db.actions[r])
  }

  lemma KnownStaysKnown(db: Db, db': Db, request: (string, string))
    requires AnswersKept(db, db')
    ensures Known(db, request).Some? ==> Known(db', request) == Known(db, request)
  {
  }

  lemma CallKeepsAnswers(cfg: Config, db: Db, input: CallInput, env: CallEnv, pick: Option<string>, now: Time)
    requires Enabled(cfg, db, CallNext(input, env, pick, now))
    ensures AnswersKept(db, ExecCallNext(cfg, db, input, env, pick, now).0)
  {
    CallShape(cfg, db, input, env, pick, now);
  }

  lemma ActKeepsAnswers(cfg: Config, db: Db, input: ActInput, m: Move, targetExists: bool, now: Time)
    ensures AnswersKept(db, ExecAct(cfg, db, input, m, targetExists, now).0)
  {
    ActShape(cfg, db, input, m, targetExists, now);
  }

  lemma CreateKeepsAnswers(cfg: Config, db: Db, input: CreateInput, code: Option<string>, newId: string, now: Time)
    ensures AnswersKept(db, ExecCreate(cfg, db, input, code, newId, now).0)
  {
  }

  lemma CheckInKeepsAnswers(cfg: Config, db: Db, input: CheckInInput, holiday: bool, code: Option<string>,
                            newId: string, now: Time)
    ensures AnswersKept(db, ExecCheckIn(cfg, db, input, holiday, code, newId, now).0)
  {
  }

  lemma StepKeepsAnswers(cfg: Config, db: Db, cmd: Command)
    requires Enabled(cfg, db, cmd)
    ensures AnswersKept(db, Exec(cfg, db, cmd).0)
  {
    match cmd
    case Create(input, code, newId, now) => CreateKeepsAnswers(cfg, db, input, code, newId, now);
    case CheckIn(input, holiday, code, newId, now) => CheckInKeepsAnswers(cfg, db, input, holiday, code, newId, now);
    case CallNext(input, env, pick, now) => CallKeepsAnswers(cfg, db, input, env, pick, now);
    case Act(input, m, targetExists, now) => ActKeepsAnswers(cfg, db, input, m, targetExists, now);
    case AutoNoShow(input, batch, now) => SweepKeepsTables(cfg, db, input, batch, now);
    case Book(_, _) =>
  }

  lemma {:induction false} SweepKeepsTables(cfg: Config, db: Db, input: SweepInput, batch: seq<string>, now: Time)
    ensures var db' := SweepBatch(cfg, db, input, batch, now).0;
      && db'.actions == db.actions && db'.requestIndex == db.requestIndex && db'.sequences == db.sequences
      && db'.routing == db.routing && db'.appointments == db.appointments
    decreases |batch|
  {
    if batch != [] {
      SweepKeepsTables(cfg, db, input, batch[..|batch| - 1], now);
    }
  }

  lemma {:induction false} RunKeepsAnswers(cfg: Config, db: Db, cmds: seq<Command>, n: nat)
    requires RunEnabled(cfg, db, cmds) && n <= |cmds|
    ensures AnswersKept(db, StateAfter(cfg, db, cmds, n))
  {
    if n > 0 {
      RunKeepsAnswers(cfg, db, cmds, n - 1);
      assert EnabledAt(cfg, db, cmds, n - 1);
      StepKeepsAnswers(cfg, StateAfter(cfg, db, cmds, n - 1), cmds[n - 1]);
    }
  }

  /** The command was executed for the first time and committed, possibly as a recorded empty call. */
  predicate FirstExecution(cfg: Config, db: Db, cmd: Command) {
    var (db', reply) := Exec(cfg, db, cmd);
    RequestOf(cmd).Some? && Known(db, RequestOf(cmd).value).None?
    && ((reply.Answered? && reply.first) || (cmd.CallNext? && reply == Failed(NoTicket) && CallRefusal(cmd.env).None?))
  }

  /** What a later replay should hear. */
  function ReplayAnswer(reply: Reply): Reply {
    if reply.Answered? then Answered(reply.ticketId, false) else reply
  }

  /** What a first execution leaves on record: its answer exactly if the id was unused, nothing otherwise. */
  ghost predicate RecordedIfUnused(db: Db, db': Db, request: (string, string), reply: Reply) {
    Known(db', request) == if Unused(db, request) then Some(ReplayAnswer(reply)) else None
  }

  lemma CallIsRecorded(cfg: Config, db: Db, input: CallInput, env: CallEnv, pick: Option<string>, now: Time)
    requires Enabled(cfg, db, CallNext(input, env, pick, now)) &&
        FirstExecution(cfg, db, CallNext(input, env, pick, now))
    ensures var (db', reply) := ExecCallNext(cfg, db, input, env, pick, now);
      RecordedIfUnused(db, db', ("call_next", input.requestId), reply)
  {
    CallShape(cfg, db, input, env, pick, now);
  }

  lemma ActIsRecorded(cfg: Config, db: Db, input: ActInput, m: Move, targetExists: bool, now: Time)
    requires FirstExecution(cfg, db, Act(input, m, targetExists, now))
    ensures var (db', reply) := ExecAct(cfg, db, input, m, targetExists, now);
      RecordedIfUnused(db, db', (ActionName(m), input.requestId), reply)
  {
    ActShape(cfg, db, input, m, targetExists, now);
  }

  lemma FirstExecutionIsRecorded(cfg: Config, db: Db, cmd: Command)
    requires Enabled(cfg, db, cmd) && FirstExecution(cfg, db, cmd)
    ensures RecordedIfUnused(db, Exec(cfg, db, cmd).0, RequestOf(cmd).value, Exec(cfg, db, cmd).1)
  {
    match cmd
    case Create(_, _, _, _) =>
    case CheckIn(_, _, _, _, _) =>
    case CallNext(input, env, pick, now) => CallIsRecorded(cfg, db, input, env, pick, now);
    case Act(input, m, targetExists, now) => ActIsRecorded(cfg, db, input, m, targetExists, now);
    case _ =>
  }

  /** The lookup by which a replay will be recognised is free: no other action has used the id. */
  predicate Unused(db: Db, request: (string, string)) {
    request.0 == "" || request.1 !in db.actions
  }

  /** A call that finds nobody waiting and the routing row in place: it changes nothing if its id is spent already. */
  predicate FindsNobody(db: Db, cmd: Command) {
    && cmd.CallNext? && CallRefusal(cmd.env).None?
    && ServiceView(db, CallKey(cmd.call), cmd.env.locked) == map[]
    && CallKey(cmd.call) in db.routing
  }

  lemma SpentCallIsSilentIff(cfg: Config, db: Db, cmd: Command)
    requires cmd.CallNext? && Enabled(cfg, db, cmd)
    requires cmd.call.requestId in db.actions && FindAction(db, "call_next", cmd.call.requestId).None?
    ensures Exec(cfg, db, cmd) == (db, Failed(NoTicket)) <==> FindsNobody(db, cmd)
    ensures !(Exec(cfg, db, cmd).1.Answered? && !Exec(cfg, db, cmd).1.first)
  {
    CallShape(cfg, db, cmd.call, cmd.env, cmd.pick, cmd.now);
    var key := CallKey(cmd.call);
    if CallReached(db, cmd.call, cmd.env) && cmd.pick.None? {
      assert key in EmptyCall(db, cmd.call).routing;
      if key in db.routing {
        assert EmptyCall(db, cmd.call).routing == db.routing;
      }
    }
  }

  /** Without a record an action is refused or executed. */
  lemma UnrecordedActIsNoReplay(cfg: Config, db: Db, input: ActInput, m: Move, targetExists: bool, now: Time)
    requires FindAction(db, ActionName(m), input.requestId).None?
    ensures var reply := ExecAct(cfg, db, input, m, targetExists, now).1;
      reply.Failed? || (reply.Answered? && reply.first)
  {
  }

  /** After a first execution and any run in between, what the tables know of its request. */
  lemma KnownAfterRun(cfg: Config, db: Db, cmd: Command, cmds: seq<Command>)
    requires Enabled(cfg, db, cmd) && FirstExecution(cfg, db, cmd)
    requires RunEnabled(cfg, Exec(cfg, db, cmd).0, cmds)
    ensures var later, request := Run(cfg, Exec(cfg, db, cmd).0, cmds), RequestOf(cmd).value;
      if Unused(db, request) then Known(later, request) == Some(ReplayAnswer(Exec(cfg, db, cmd).1))
      else Known(later, request).None? && request.1 in later.actions
  {
    var db1 := Exec(cfg, db, cmd).0;
    FirstExecutionIsRecorded(cfg, db, cmd);
    StepKeepsAnswers(cfg, db, cmd);
    RunKeepsAnswers(cfg, db1, cmds, |cmds|);
    KnownStaysKnown(db1, Run(cfg, db1, cmds), RequestOf(cmd).value);
  }

  /**
   * Idempotency, exactly: after a first execution and any run in between, a replay of the same request id
   * and action changes no table and yields the same ticket, or the same empty result, if and only if no
   * other action had used the id before, or the first execution was a call that found nobody and the
   * replay finds nobody either.
   */
  lemma ReplayIsSilentIff(cfg: Config, db: Db, cmd: Command, cmds: seq<Command>, again: Command)
    requires Enabled(cfg, db, cmd) && FirstExecution(cfg, db, cmd)
    requires RunEnabled(cfg, Exec(cfg, db, cmd).0, cmds)
    requires RequestOf(again) == RequestOf(cmd) && Enabled(cfg, Run(cfg, Exec(cfg, db, cmd).0, cmds), again)
    ensures var later, reply := Run(cfg, Exec(cfg, db, cmd).0, cmds), Exec(cfg, db, cmd).1;
      Exec(cfg, later, again) == (later, ReplayAnswer(reply)) <==>
        Unused(db, RequestOf(cmd).value) || (reply == Failed(NoTicket) && FindsNobody(later, again))
  {
    var later := Run(cfg, Exec(cfg, db, cmd).0, cmds);
    KnownAfterRun(cfg, db, cmd, cmds);
    if Unused(db, RequestOf(cmd).value) {
      KnownRequestIsSilent(cfg, later, again);
    } else {
      match again
      case CallNext(_, _, _, _) => SpentCallIsSilentIff(cfg, later, again);
      case Act(input, m, targetExists, now) =>
        UnrecordedActIsNoReplay(cfg, later, input, m, targetExists, now);
        assert RequestOf(cmd).value.0 != "call_next";
      case _ =>
    }
  }

  /** For a first execution that was given a ticket: silent with the same ticket exactly when the id was unused. */
  lemma ReplayIsSilentIffIdUnused(cfg: Config, db: Db, cmd: Command, cmds: seq<Command>, again: Command)
    requires Enabled(cfg, db, cmd) && FirstExecution(cfg, db, cmd) && Exec(cfg, db, cmd).1.Answered?
    requires RunEnabled(cfg, Exec(cfg, db, cmd).0, cmds)
    requires RequestOf(again) == RequestOf(cmd) && Enabled(cfg, Run(cfg, Exec(cfg, db, cmd).0, cmds), again)
    ensures var later := Run(cfg, Exec(cfg, db, cmd).0, cmds);
      Exec(cfg, later, again) == (later, Answered(Exec(cfg, db, cmd).1.ticketId, false)) <==>
          Unused(db, RequestOf(cmd).value)
  {
    ReplayIsSilentIff(cfg, db, cmd, cmds, again);
  }

  /** With an id already spent on another action, recalling twice really recalls, and logs, twice. */
  lemma ReusedIdRecallsTwice(cfg: Config, db: Db, input: ActInput, now: Time)
    requires Addressed(db, input) && db.tickets[input.ticketId].status == Called
    requires input.requestId in db.actions && db.actions[input.requestId].action != "recall"
    ensures var (db1, first) := ExecAct(cfg, db, input, Recall, true, now);
      var (db2, second) := ExecAct(cfg, db1, input, Recall, true, now);
      && first == second == Answered(input.ticketId, true)
      && |db2.outbox| == |db1.outbox| + 1 == |db.outbox| + 2
  {
  }

  // ------------------------------------------------------------- dual logging

  /** One event was appended to the outbox and to one ticket's log, with the same kind and payload. */
  ghost predicate LoggedOnce(db: Db, db': Db, id: string) {
    exists row: OutboxRow, e: TicketEvent ::
      && db'.outbox == db.outbox + [row] && db'.events == db.events[id := LogOf(db, id) + [e]]
      && e.entry.kind == row.kind && e.body == Json(row.payload)
  }

  lemma EmitLogsOnce(codec: Codec, db: Db, tenantId: string, id: string, kind: string, payload: Payload, now: Time)
    ensures LoggedOnce(db, Emit(codec, db, tenantId, id, kind, payload, now), id)
  {
    var row, e := OutboxRow(tenantId, kind, payload, now), NextEvent(codec, LogOf(db, id), id, kind, payload, now);
    assert Emit(codec, db, tenantId, id, kind, payload, now).outbox == db.outbox + [row];
    assert e.entry.kind == row.kind && e.body == Json(row.payload);
  }

  lemma TouchLogsOnce(codec: Codec, db: Db, mid: Db, id: string, m: Move, requestId: string, now: Time)
    requires id in db.tickets && mid.tickets == db.tickets && mid.events == db.events && mid.outbox == db.outbox
    ensures LoggedOnce(db, Touch(codec, mid, id, m, requestId, now), id)
  {
    var row := db.tickets[id];
    EmitLogsOnce(codec, mid.(tickets := db.tickets[id := After(row, m)]), row.tenantId, id, MoveKind(m),
                 MovePayload(row, m, requestId), now);
    assert LogOf(mid.(tickets := db.tickets[id := After(row, m)]), id) == LogOf(db, id);
  }

  lemma IssueLogsOnce(codec: Codec, db: Db, row: TicketRow, now: Time)
    ensures LoggedOnce(db, Issue(codec, db, row, now), row.ticketId)
  {
    EmitLogsOnce(codec, db, row.tenantId, row.ticketId, CREATED, CreatedPayload(row), now);
    assert Issue(codec, db, row, now).outbox ==
        Emit(codec, db, row.tenantId, row.ticketId, CREATED, CreatedPayload(row), now).outbox;
    assert Issue(codec, db, row, now).events ==
        Emit(codec, db, row.tenantId, row.ticketId, CREATED, CreatedPayload(row), now).events;
  }

  /** An answer given for the first time logs once; anything else leaves tickets and logs as they were. */
  ghost predicate LogsByReply(db: Db, db': Db, reply: Reply) {
    if reply.Answered? && reply.first then LoggedOnce(db, db', reply.ticketId)
    else db'.outbox == db.outbox && db'.events == db.events && db'.tickets == db.tickets
  }

  lemma CreateLogs(cfg: Config, db: Db, input: CreateInput, code: Option<string>, newId: string, now: Time)
    ensures var (db', reply) := ExecCreate(cfg, db, input, code, newId, now); LogsByReply(db, db', reply)
  {
    if input.requestId !in db.requestIndex && code.Some? {
      IssueLogsOnce(cfg.codec, db,
                    NewRow(db, newId, input.requestId, code.value, input.tenantId, input.branchId, input.serviceId,
                                          input.priorityClass, OrNow(input.createdAt, now), None), now);
    }
  }

  lemma CheckInLogs(cfg: Config, db: Db, input: CheckInInput, holiday: bool, code: Option<string>, newId: string,
                    now: Time)
    ensures var (db', reply) := ExecCheckIn(cfg, db, input, holiday, code, newId, now); LogsByReply(db, db', reply)
  {
    if input.requestId !in db.requestIndex && CanCheckIn(db, input) && !holiday && code.Some? {
      var serviceId := db.appointments[input.appointmentId].serviceId;
      IssueLogsOnce(cfg.codec, db, NewRow(db, newId, input.requestId, code.value, input.tenantId, input.branchId,
                                          serviceId, REGULAR, now, Some(input.appointmentId)), now);
    }
  }

  lemma CallLogs(cfg: Config, db: Db, input: CallInput, env: CallEnv, pick: Option<string>, now: Time)
    requires Enabled(cfg, db, CallNext(input, env, pick, now))
    ensures var (db', reply) := ExecCallNext(cfg, db, input, env, pick, now); LogsByReply(db, db', reply)
  {
    CallShape(cfg, db, input, env, pick, now);
    if CallReached(db, input, env) && pick.Some? {
      TouchLogsOnce(cfg.codec, db, CallBookkeeping(db, input, env, pick.value), pick.value,
                    Call(input.counterId, OrNow(input.calledAt, now)), input.requestId, now);
    }
  }

  lemma ActLogs(cfg: Config, db: Db, input: ActInput, m: Move, targetExists: bool, now: Time)
    ensures var (db', reply) := ExecAct(cfg, db, input, m, targetExists, now); LogsByReply(db, db', reply)
  {
    ActOutcome(cfg, db, input, m, targetExists, now);
    if Addressed(db, input) {
      TouchLogsOnce(cfg.codec, db, Record(db, input.requestId, ActionName(m), Some(input.ticketId)), input.ticketId,
                    Stamped(m, now), input.requestId, now);
    }
  }

  /** Dual logging of every command but the sweep: one event per first execution, none otherwise. */
  lemma FirstExecutionLogsOnce(cfg: Config, db: Db, cmd: Command)
    requires Enabled(cfg, db, cmd) && !cmd.AutoNoShow?
    ensures LogsByReply(db, Exec(cfg, db, cmd).0, Exec(cfg, db, cmd).1)
  {
    match cmd
    case Create(input, code, newId, now) => CreateLogs(cfg, db, input, code, newId, now);
    case CheckIn(input, holiday, code, newId, now) => CheckInLogs(cfg, db, input, holiday, code, newId, now);
    case CallNext(input, env, pick, now) => CallLogs(cfg, db, input, env, pick, now);
    case Act(input, m, targetExists, now) => ActLogs(cfg, db, input, m, targetExists, now);
    case Book(_, _) =>
  }

  /** The sweep logs one event for each ticket it counts. */
  lemma {:induction false} SweepLogsWhatItCounts(cfg: Config, db: Db, input: SweepInput, batch: seq<string>, now: Time)
    ensures var (db', count) := SweepBatch(cfg, db, input, batch, now);
      |db'.outbox| == |db.outbox| + count && count <= |batch|
    decreases |batch|
  {
    if batch != [] {
      SweepLogsWhatItCounts(cfg, db, input, batch[..|batch| - 1], now);
    }
  }

  // ------------------------------------------------------ numbering and check-in

  /** The tickets issued for a branch and service are numbered 1, 2, 3, ... in issue order. */
  lemma ReachableNumbering(cfg: Config, db: Db, branchId: string, serviceId: string)
    requires CodecOk(cfg.codec) && Reachable(cfg, db)
    ensures CountsUp(IssuedNumbers(db.outbox, branchId, serviceId))
    ensures LastNumber(db, branchId, serviceId) == |IssuedNumbers(db.outbox, branchId, serviceId)|
  {
    ReachableInv(cfg, db);
    assert NumbersOkFor(db, branchId, serviceId);
  }

  /** An appointment is checked in exactly when one ticket refers to it, and never do two. */
  lemma ReachableCheckIn(cfg: Config, db: Db, a: string)
    requires CodecOk(cfg.codec) && Reachable(cfg, db) && a in db.appointments
    ensures db.appointments[a].status == CheckedIn <==> |TicketsFor(db, a)| == 1
    ensures |TicketsFor(db, a)| <= 1
  {
    ReachableInv(cfg, db);
    assert AppointmentOk(db, a);
  }

  /** The outbox and the ticket logs tell the same story in every reachable state. */
  lemma ReachableDualLogs(cfg: Config, db: Db, id: string)
    requires CodecOk(cfg.codec) && Reachable(cfg, db)
    ensures OutboxStory(db.outbox, id) == Story(LogOf(db, id))
  {
    ReachableInv(cfg, db);
  }
}
