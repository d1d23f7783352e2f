/** How long a regular walk-in waits: which commands can put somebody ahead of it, and a bound when none does. */
module StoreWaiting {
  import opened Basics
  import opened Transitions
  import opened Tickets
  import opened Routing
  import opened Fairness
  import opened StoreSpec
  import opened StoreInvariants
  import opened StoreRuns
  import opened StoreFairness

  /** The regular walk-ins of the queue that were created no later than `born`, `x` itself apart. */
  ghost function QueueAhead(db: Db, key: Key, x: string, born: Time): set<string> {
    set id | id in db.tickets && id != x && InQueue(db, key, id) && RegularWalkin(CandidateOf(db, db.tickets[id]))
             && db.tickets[id].createdAt <= born
  }

  /** `x` is a regular walk-in waiting in this queue. */
  predicate QueuedRegular(db: Db, key: Key, x: string, born: Time) {
    x in db.tickets && InQueue(db, key, x) && RegularWalkin(CandidateOf(db, db.tickets[x])) &&
        db.tickets[x].createdAt == born
  }

  /** If the command calls this service, it finds `x` unlocked and runs without quota and boost. */
  predicate CallFinds(cmd: Command, key: Key, x: string) {
    cmd.CallNext? && CallKey(cmd.call) == key ==>
      x !in cmd.env.locked && cmd.env.policy.ratioPercent <= 0 && cmd.env.policy.boostMinutes <= 0
  }

  // ------------------------------------------------ who can get ahead of whom

  /** As far as its row goes, the ticket waits in this queue as a regular walk-in created no later than `born`. */
  predicate AheadRow(row: TicketRow, key: Key, born: Time) {
    && row.status == Status.Waiting && KeyOf(row) == key && row.appointmentId.None?
    && row.priorityClass == REGULAR && row.createdAt <= born
  }

  lemma QueueAheadByRows(db: Db, key: Key, x: string, born: Time, id: string)
    ensures id in QueueAhead(db, key, x, born) <==> id in db.tickets && id != x && AheadRow(db.tickets[id], key, born)
  {
  }

  /** The move would put a ticket with this row into the queue, where it does not wait already. */
  predicate Requeues(row: TicketRow, m: Move, key: Key) {
    match m
    case Unhold => KeyOf(row) == key
    case Transfer(to, _) => Key(row.tenantId, row.branchId, to) == key &&
        !(row.status == Status.Waiting && row.serviceId == to)
    case MarkNoShow(returned) => returned && KeyOf(row) == key
    case SweepNoShow(returned) => returned && KeyOf(row) == key
    case _ => false
  }

  predicate OldRegular(row: TicketRow, born: Time) {
    row.appointmentId.None? && row.priorityClass == REGULAR && row.createdAt <= born
  }

  /**
   * The command puts somebody ahead of `x`: a first creation of a regular walk-in no younger than `x`, or an
   * unhold, a transfer into the service or a returned no-show of such a ticket.  All of it can be read off
   * the command and the tables before it runs.
   */
  predicate JoinsAhead(cfg: Config, db: Db, cmd: Command, key: Key, x: string, born: Time) {
    match cmd
    case Create(input, code, newId, now) =>
      && input.requestId !in db.requestIndex && code.Some?
      && Key(input.tenantId, input.branchId, input.serviceId) == key
      && input.priorityClass == REGULAR && OrNow(input.createdAt, now) <= born
    case Act(input, m, targetExists, now) =>
      && ActReached(db, input, m, targetExists, now) && input.ticketId != x
      && OldRegular(db.tickets[input.ticketId], born) && Requeues(db.tickets[input.ticketId], m, key)
    case AutoNoShow(input, batch, now) =>
      input.grace > 0 && exists id :: id in batch && id != x && SweptAhead(cfg, db, input, now, id, key, born)
    case _ => false
  }

  predicate SweptAhead(cfg: Config, db: Db, input: SweepInput, now: Time, id: string, key: Key, born: Time) {
    && id in db.tickets && OldRegular(db.tickets[id], born) && KeyOf(db.tickets[id]) == key
    && NoShowDue(cfg, input, db.tickets[id], now) == Some(true)
  }

  /** A guarded move puts a row ahead exactly if the row is old and regular and the move requeues it. */
  lemma MovedAheadIff(row: TicketRow, m: Move, key: Key, born: Time)
    requires Guard(row, m) && !AheadRow(row, key, born)
    ensures AheadRow(After(row, m), key, born) <==> OldRegular(row, born) && Requeues(row, m, key)
  {
  }

  lemma RequeuedWasNotAhead(row: TicketRow, m: Move, key: Key, born: Time)
    requires Guard(row, m) && Requeues(row, m, key)
    ensures !AheadRow(row, key, born)
  {
  }

  /** What the command does to one ticket of the queue ahead. */
  predicate GetsAhead(cfg: Config, db: Db, cmd: Command, key: Key, x: string, born: Time, id: string) {
    if id in db.tickets then
      id != x && MoveOf(cfg, db, cmd, id).Some?
      && OldRegular(db.tickets[id], born) && Requeues(db.tickets[id], MoveOf(cfg, db, cmd, id).value, key)
    else cmd.Create? && id == cmd.newId && JoinsAhead(cfg, db, cmd, key, x, born)
  }

  lemma GetsAheadIff(cfg: Config, db: Db, cmd: Command, key: Key, x: string, born: Time, id: string)
    requires Enabled(cfg, db, cmd) && x in db.tickets
    ensures GetsAhead(cfg, db, cmd, key, x, born, id) <==>
      id in QueueAhead(Exec(cfg, db, cmd).0, key, x, born) && id !in QueueAhead(db, key, x, born)
  {
    var db' := Exec(cfg, db, cmd).0;
    QueueAheadByRows(db, key, x, born, id);
    QueueAheadByRows(db', key, x, born, id);
    if id in db.tickets {
      StepMoves(cfg, db, cmd, id);
      var m := MoveOf(cfg, db, cmd, id);
      if m.Some? {
        if AheadRow(db.tickets[id], key, born) {
          if Requeues(db.tickets[id], m.value, key) {
            RequeuedWasNotAhead(db.tickets[id], m.value, key, born);
          }
        } else {
          MovedAheadIff(db.tickets[id], m.value, key, born);
        }
      }
    } else if id in db'.tickets {
      NewTicketIsIssued(cfg, db, cmd, id);
    } else if cmd.Create? && cmd.create.requestId !in db.requestIndex && cmd.code.Some? {
      CreationIssues(cfg, db, cmd);
    }
  }

  lemma CreationIssues(cfg: Config, db: Db, cmd: Command)
    requires cmd.Create? && cmd.create.requestId !in db.requestIndex && cmd.code.Some?
    ensures cmd.newId in Exec(cfg, db, cmd).0.tickets
  {
  }

  lemma JoinsAheadIff(cfg: Config, db: Db, cmd: Command, key: Key, x: string, born: Time)
    requires Enabled(cfg, db, cmd) && x in db.tickets
    ensures JoinsAhead(cfg, db, cmd, key, x, born) <==> exists id :: GetsAhead(cfg, db, cmd, key, x, born, id)
  {
    match cmd
    case Create(_, _, newId, _) =>
      if JoinsAhead(cfg, db, cmd, key, x, born) {
        assert GetsAhead(cfg, db, cmd, key, x, born, newId);
      }
    case Act(input, m, _, _) =>
      if JoinsAhead(cfg, db, cmd, key, x, born) {
        assert GetsAhead(cfg, db, cmd, key, x, born, input.ticketId);
      }
    case AutoNoShow(input, batch, now) =>
      if JoinsAhead(cfg, db, cmd, key, x, born) {
        var id :| id in batch && id != x && SweptAhead(cfg, db, input, now, id, key, born);
        assert GetsAhead(cfg, db, cmd, key, x, born, id);
      }
    case _ =>
  }

  /** The queue ahead of `x` grows by a command exactly if the command puts somebody ahead. */
  lemma QueueGrowsIff(cfg: Config, db: Db, cmd: Command, key: Key, x: string, born: Time)
    requires Enabled(cfg, db, cmd) && x in db.tickets
    ensures QueueAhead(Exec(cfg, db, cmd).0, key, x, born) <= QueueAhead(db, key, x, born) <==>
      !JoinsAhead(cfg, db, cmd, key, x, born)
  {
    JoinsAheadIff(cfg, db, cmd, key, x, born);
    forall id ensures GetsAhead(cfg, db, cmd, key, x, born, id) <==>
      id in QueueAhead(Exec(cfg, db, cmd).0, key, x, born) && id !in QueueAhead(db, key, x, born)
    {
      GetsAheadIff(cfg, db, cmd, key, x, born, id);
    }
  }

  /** Such growth happens: an older held walk-in is released into the queue. */
  lemma UnholdGrowsTheQueue(cfg: Config, db: Db, input: ActInput, now: Time, x: string)
    requires x in db.tickets && input.ticketId != x && Addressed(db, input)
    requires FindAction(db, "unhold", input.requestId).None?
    requires var row := db.tickets[input.ticketId];
      row.status == Held && OldRegular(row, db.tickets[x].createdAt) && KeyOf(row) == KeyOf(db.tickets[x])
    ensures var key, born := KeyOf(db.tickets[x]), db.tickets[x].createdAt;
      !(QueueAhead(Exec(cfg, db, Act(input, Unhold, true, now)).0, key, x, born) <= QueueAhead(db, key, x, born))
  {
    QueueGrowsIff(cfg, db, Act(input, Unhold, true, now), KeyOf(db.tickets[x]), x, db.tickets[x].createdAt);
  }

  // ----------------------------------------------------------------- the bound

  lemma ViewAhead(db: Db, input: CallInput, env: CallEnv, id: string, now: Time, x: string, born: Time)
    requires QueuedRegular(db, CallKey(input), x, born) && x !in env.locked
    ensures Ahead(RecordOf(db, input, env, id, now), x) == QueueAhead(db, CallKey(input), x, born)
    ensures var c := RecordOf(db, input, env, id, now);
      x in c.view && c.view[x] == c.waiting[x] && RegularWalkin(c.view[x])
  {
  }

  lemma CalledLeavesQueue(cfg: Config, db: Db, input: CallInput, env: CallEnv, id: string, now: Time)
    requires id in db.tickets
    ensures var db' := CallEffect(cfg, db, input, env, id, now); id in db'.tickets && db'.tickets[id].status == Called
  {
  }

  lemma CallServesTheQueue(cfg: Config, db: Db, cmd: Command, key: Key, x: string, born: Time)
    requires Enabled(cfg, db, cmd) && QueuedRegular(db, key, x, born) && CallFinds(cmd, key, x) && RowsNamed(db)
    requires CallOf(cfg, db, cmd, key).Some?
    ensures var c, db' := CallOf(cfg, db, cmd, key).value, Exec(cfg, db, cmd).0;
      && WaitsThrough(c, x) && Ahead(c, x) == QueueAhead(db, key, x, born)
      && c.pick in db'.tickets && !InQueue(db', key, c.pick)
      && MoveOf(cfg, db, cmd, c.pick).Some?
  {
    CallShape(cfg, db, cmd.call, cmd.env, cmd.pick, cmd.now);
    CallOfShape(cfg, db, cmd.call, cmd.env, cmd.pick, cmd.now, key);
    ViewAhead(db, cmd.call, cmd.env, cmd.pick.value, cmd.now, x, born);
    CalledLeavesQueue(cfg, db, cmd.call, cmd.env, cmd.pick.value, cmd.now);
    CallSeesNamedClasses(cfg, db, cmd, key);
  }

  /** Command i leaves `x` alone, finds it unlocked if it calls the service, and puts nobody ahead of it. */
  predicate WaitsAt(cfg: Config, db: Db, cmds: seq<Command>, i: nat, key: Key, x: string, born: Time)
    requires i < |cmds|
  {
    var before := StateAfter(cfg, db, cmds, i);
    && x in before.tickets && MoveOf(cfg, before, cmds[i], x).None?
    && CallFinds(cmds[i], key, x) && !JoinsAhead(cfg, before, cmds[i], key, x, born)
  }

  lemma StaysQueued(cfg: Config, db: Db, cmd: Command, key: Key, x: string, born: Time)
    requires Enabled(cfg, db, cmd) && QueuedRegular(db, key, x, born) && MoveOf(cfg, db, cmd, x).None?
    ensures QueuedRegular(Exec(cfg, db, cmd).0, key, x, born)
  {
    StepMoves(cfg, db, cmd, x);
  }

  /** The queue ahead of `x` went from `first` to `last`, losing at least the called ticket at every call. */
  ghost predicate AheadStory(calls: seq<CallRecord>, x: string, first: set<string>, last: set<string>) {
    && WaitsOn(calls, x, 0)
    && NobodyJoinsAhead(calls, x)
    && last <= first
    && (calls != [] ==> last <= Ahead(calls[|calls| - 1], x) - {calls[|calls| - 1].pick} && Ahead(calls[0], x) <= first)
  }

  lemma AheadStoryGoesOn(calls: seq<CallRecord>, x: string, first: set<string>, mid: set<string>, c: CallRecord,
                         last: set<string>)
    requires AheadStory(calls, x, first, mid)
    requires WaitsThrough(c, x) && c.pick != x && Ahead(c, x) == mid && last <= mid - {c.pick}
    ensures AheadStory(calls + [c], x, first, last)
  {
    var calls' := calls + [c];
    forall i | 0 <= i < |calls'| - 1 ensures Leaves(calls'[i], calls'[i + 1], x) {
      if i + 1 < |calls| {
        assert Leaves(calls[i], calls[i + 1], x);
      }
    }
  }

  lemma StepShrinksAhead(cfg: Config, db: Db, cmd: Command, key: Key, x: string, born: Time)
    requires Enabled(cfg, db, cmd) && QueuedRegular(db, key, x, born) && RowsNamed(db)
    requires MoveOf(cfg, db, cmd, x).None? && CallFinds(cmd, key, x) && !JoinsAhead(cfg, db, cmd, key, x, born)
    ensures var call, ahead := CallOf(cfg, db, cmd, key), QueueAhead(db, key, x, born);
      var last := QueueAhead(Exec(cfg, db, cmd).0, key, x, born);
      && last <= ahead
      && (call.Some? ==>
            && WaitsThrough(call.value, x) && call.value.pick != x && Ahead(call.value, x) == ahead
            && last <= ahead - {call.value.pick})
  {
    QueueGrowsIff(cfg, db, cmd, key, x, born);
    if CallOf(cfg, db, cmd, key).Some? {
      CallServesTheQueue(cfg, db, cmd, key, x, born);
    }
  }

  lemma StepContinuesStory(cfg: Config, first: set<string>, calls: seq<CallRecord>, db: Db, cmd: Command, key: Key,
                           x: string, born: Time)
    requires AheadStory(calls, x, first, QueueAhead(db, key, x, born))
    requires Enabled(cfg, db, cmd) && QueuedRegular(db, key, x, born) && RowsNamed(db)
    requires MoveOf(cfg, db, cmd, x).None? && CallFinds(cmd, key, x) && !JoinsAhead(cfg, db, cmd, key, x, born)
    ensures AheadStory(Appended(calls, CallOf(cfg, db, cmd, key)), x, first,
                       QueueAhead(Exec(cfg, db, cmd).0, key, x, born))
  {
    StepShrinksAhead(cfg, db, cmd, key, x, born);
    var call := CallOf(cfg, db, cmd, key);
    if call.Some? {
      AheadStoryGoesOn(calls, x, first, QueueAhead(db, key, x, born), call.value,
                       QueueAhead(Exec(cfg, db, cmd).0, key, x, born));
    } else {
      assert Appended(calls, call) == calls;
    }
  }

  /**
   * In a run of commands that leave `x` alone and put nobody ahead of it, the queue ahead of `x` only
   * shrinks, at every call of the service at least by the called ticket.
   */
  lemma {:induction false} QueueAheadShrinks(cfg: Config, db: Db, cmds: seq<Command>, n: nat, key: Key, x: string,
                                             born: Time)
    requires RunEnabled(cfg, db, cmds) && n <= |cmds| && RowsNamed(db) && NameClasses(cmds)
    requires QueuedRegular(db, key, x, born)
    requires forall i :: 0 <= i < |cmds| ==> WaitsAt(cfg, db, cmds, i, key, x, born)
    ensures QueuedRegular(StateAfter(cfg, db, cmds, n), key, x, born)
    ensures AheadStory(CallsOf(cfg, db, cmds, n, key), x, QueueAhead(db, key, x, born),
                       QueueAhead(StateAfter(cfg, db, cmds, n), key, x, born))
  {
    if n > 0 {
      var mid := StateAfter(cfg, db, cmds, n - 1);
      QueueAheadShrinks(cfg, db, cmds, n - 1, key, x, born);
      assert EnabledAt(cfg, db, cmds, n - 1) && WaitsAt(cfg, db, cmds, n - 1, key, x, born);
      RunKeepsNamed(cfg, db, cmds, n - 1);
      StaysQueued(cfg, mid, cmds[n - 1], key, x, born);
      StepContinuesStory(cfg, QueueAhead(db, key, x, born), CallsOf(cfg, db, cmds, n - 1, key), mid, cmds[n - 1], key,
                         x, born);
    }
  }

  /**
   * Bounded waiting in the store: a regular walk-in that waits through a run, in which no command acts on it
   * or puts anybody ahead of it and every call of its service finds it unlocked and without quota and boost,
   * has seen fewer than (k + 1) * (limit + 1) of these calls, k being the number of regular walk-ins ahead
   * of it at the start.
   */
  lemma StoreWaitIsBounded(cfg: Config, db: Db, cmds: seq<Command>, key: Key, x: string, born: Time)
    requires RunEnabled(cfg, db, cmds) && cfg.streakLimit > 0 && RoutingOf(db, key).streak >= 0
    requires RowsNamed(db) && NameClasses(cmds) && QueuedRegular(db, key, x, born)
    requires forall i :: 0 <= i < |cmds| ==> WaitsAt(cfg, db, cmds, i, key, x, born)
    ensures |CallsOf(cfg, db, cmds, |cmds|, key)| < (|QueueAhead(db, key, x, born)| + 1) * (cfg.streakLimit + 1)
  {
    RunIsATrace(cfg, db, cmds, |cmds|, key);
    QueueAheadShrinks(cfg, db, cmds, |cmds|, key, x, born);
    AheadStoryBounds(cfg.streakLimit, RoutingOf(db, key), CallsOf(cfg, db, cmds, |cmds|, key), x,
                     QueueAhead(db, key, x, born), QueueAhead(Run(cfg, db, cmds), key, x, born));
  }

  lemma AheadStoryBounds(limit: nat, start: RoutingRow, calls: seq<CallRecord>, x: string, first: set<string>,
                         last: set<string>)
    requires Trace(limit, start, calls) && start.streak >= 0 && AheadStory(calls, x, first, last)
    ensures |calls| < (|first| + 1) * (limit + 1)
  {
    BlockAtLeastOnce(|first|, limit + 1);
    if calls != [] {
      WaitIsBounded(limit, start, calls, x);
      SubsetIsNoLarger(Ahead(calls[0], x), first);
      MulMonotone(|Ahead(calls[0], x)| + 1, |first| + 1, limit + 1);
    }
  }
}
