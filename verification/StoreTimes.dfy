/** The order of a ticket's stamps over whole runs, from the order of the actions on it. */
module StoreTimes {
  import opened Basics
  import opened Tickets
  import opened StoreSpec
  import opened StoreInvariants
  import opened StoreRuns

  /** The time of a command for a ticket: of its creation, its call, the start or the end of its service. */
  function CommandTime(cmd: Command, id: string): Option<Time> {
    match cmd
    case Create(input, _, newId, now) => if newId == id then Some(OrNow(input.createdAt, now)) else None
    case CheckIn(_, _, _, newId, now) => if newId == id then Some(now) else None
    case CallNext(input, _, pick, now) => if pick == Some(id) then Some(OrNow(input.calledAt, now)) else None
    case Act(input, Start(_, at), _, now) => if input.ticketId == id then Some(OrNow(at, now)) else None
    case Act(input, Complete(at), _, now) => if input.ticketId == id then Some(OrNow(at, now)) else None
    case _ => None
  }

  /** The same, if the command is executed: refused and replayed commands are no actions. */
  function ActionTime(cfg: Config, db: Db, cmd: Command, id: string): Option<Time> {
    if Exec(cfg, db, cmd).1 == Answered(id, true) then CommandTime(cmd, id) else None
  }

  function ActionTimeAt(cfg: Config, cmds: seq<Command>, i: nat, id: string): Option<Time>
    requires i < |cmds|
  {
    ActionTime(cfg, StateAfter(cfg, EMPTY_DB, cmds, i), cmds[i], id)
  }

  predicate NoLater(a: Option<Time>, b: Option<Time>) {
    a.Some? && b.Some? ==> a.value <= b.value
  }

  /** The actions on each ticket have non-decreasing times. */
  ghost predicate ActionsInOrder(cfg: Config, cmds: seq<Command>) {
    forall id, i, j :: 0 <= i < j < |cmds| ==> NoLater(ActionTimeAt(cfg, cmds, i, id), ActionTimeAt(cfg, cmds, j, id))
  }

  /** The same said of the list of commands alone, whatever becomes of them. */
  ghost predicate CommandsInOrder(cmds: seq<Command>) {
    forall id, i, j :: 0 <= i < j < |cmds| ==> NoLater(CommandTime(cmds[i], id), CommandTime(cmds[j], id))
  }

  // -------------------------------------------------- every stamp is an action's time

  /** Some action on the ticket among the first n had this time. */
  ghost predicate StampedBy(cfg: Config, cmds: seq<Command>, n: nat, id: string, stamp: Option<Time>)
    requires n <= |cmds|
  {
    stamp.Some? ==> exists i :: 0 <= i < n && ActionTimeAt(cfg, cmds, i, id) == stamp
  }

  ghost predicate RowStampedBy(cfg: Config, cmds: seq<Command>, n: nat, id: string, row: TicketRow)
    requires n <= |cmds|
  {
    && StampedBy(cfg, cmds, n, id, Some(row.createdAt)) && StampedBy(cfg, cmds, n, id, row.calledAt)
    && StampedBy(cfg, cmds, n, id, row.servedAt) && StampedBy(cfg, cmds, n, id, row.completedAt)
  }

  /** The stamp that a move writes. */
  function StampOf(m: Move): Option<Time> {
    match m
    case Call(_, at) => Some(at)
    case Start(_, at) => Some(at)
    case Complete(at) => Some(at)
    case _ => None
  }

  lemma MoveStampsActionTime(cfg: Config, db: Db, cmd: Command, id: string)
    requires Enabled(cfg, db, cmd) && id in db.tickets && MoveOf(cfg, db, cmd, id).Some?
    ensures var stamp := StampOf(MoveOf(cfg, db, cmd, id).value); stamp.Some? ==> ActionTime(cfg, db, cmd, id) == stamp
  {
    match cmd
    case CallNext(input, env, pick, now) => CallShape(cfg, db, input, env, pick, now);
    case Act(input, m, targetExists, now) => ActOutcome(cfg, db, input, m, targetExists, now);
    case _ =>
  }

  lemma NewTicketIsStamped(cfg: Config, db: Db, cmd: Command, id: string)
    requires Enabled(cfg, db, cmd) && id !in db.tickets && id in Exec(cfg, db, cmd).0.tickets
    ensures var row := Exec(cfg, db, cmd).0.tickets[id];
      row.calledAt == row.servedAt == row.completedAt == None && ActionTime(cfg, db, cmd, id) == Some(row.createdAt)
  {
    NewTicketIsIssued(cfg, db, cmd, id);
  }

  lemma StampsGrow(cfg: Config, cmds: seq<Command>, n: nat, id: string, row: TicketRow)
    requires n < |cmds| && RowStampedBy(cfg, cmds, n, id, row)
    ensures RowStampedBy(cfg, cmds, n + 1, id, row)
  {
  }

  /** Each stamp of a row, after any number of commands, is the time of an action on its ticket. */
  lemma {:induction false} StampsAreActionTimes(cfg: Config, cmds: seq<Command>, n: nat, id: string)
    requires RunEnabled(cfg, EMPTY_DB, cmds) && n <= |cmds| && id in StateAfter(cfg, EMPTY_DB, cmds, n).tickets
    ensures RowStampedBy(cfg, cmds, n, id, StateAfter(cfg, EMPTY_DB, cmds, n).tickets[id])
  {
    if n > 0 {
      var db, cmd := StateAfter(cfg, EMPTY_DB, cmds, n - 1), cmds[n - 1];
      assert EnabledAt(cfg, EMPTY_DB, cmds, n - 1);
      assert ActionTimeAt(cfg, cmds, n - 1, id) == ActionTime(cfg, db, cmd, id);
      if id in db.tickets {
        StampsAreActionTimes(cfg, cmds, n - 1, id);
        StampsGrow(cfg, cmds, n - 1, id, db.tickets[id]);
        StepMoves(cfg, db, cmd, id);
        var m := MoveOf(cfg, db, cmd, id);
        if m.Some? {
          MoveStampsActionTime(cfg, db, cmd, id);
          MovedRowIsStamped(cfg, cmds, n - 1, id, db.tickets[id], m.value);
        }
      } else {
        NewTicketIsStamped(cfg, db, cmd, id);
      }
    }
  }

  /** A column that the move keeps, clears or stamps. */
  lemma MovedColumnIsStamped(cfg: Config, cmds: seq<Command>, i: nat, id: string, m: Move, column: Option<Time>,
                             moved: Option<Time>)
    requires i < |cmds| && StampedBy(cfg, cmds, i + 1, id, column)
    requires moved == column || moved == None || (moved == StampOf(m) && ActionTimeAt(cfg, cmds, i, id) == moved)
    ensures StampedBy(cfg, cmds, i + 1, id, moved)
  {
  }

  lemma MovedRowIsStamped(cfg: Config, cmds: seq<Command>, i: nat, id: string, row: TicketRow, m: Move)
    requires i < |cmds| && RowStampedBy(cfg, cmds, i + 1, id, row)
    requires StampOf(m).Some? ==> ActionTimeAt(cfg, cmds, i, id) == StampOf(m)
    ensures RowStampedBy(cfg, cmds, i + 1, id, After(row, m))
  {
    MovedColumnIsStamped(cfg, cmds, i, id, m, row.calledAt, After(row, m).calledAt);
    MovedColumnIsStamped(cfg, cmds, i, id, m, row.servedAt, After(row, m).servedAt);
    MovedColumnIsStamped(cfg, cmds, i, id, m, row.completedAt, After(row, m).completedAt);
  }

  // ------------------------------------------------------------------- the order

  ghost predicate StampsOk(db: Db) {
    forall id :: id in db.tickets ==> StampsOrdered(db.tickets[id])
  }

  /** Actions in order stamp a row no earlier than the stamp that theirs follows. */
  lemma MoveIsTimely(cfg: Config, cmds: seq<Command>, i: nat, id: string, row: TicketRow, m: Move)
    requires ActionsInOrder(cfg, cmds) && i < |cmds| && RowStampedBy(cfg, cmds, i, id, row)
    requires StampOf(m).Some? ==> ActionTimeAt(cfg, cmds, i, id) == StampOf(m)
    ensures Timely(row, m)
  {
    if StampOf(m).Some? {
      forall j | 0 <= j < i && ActionTimeAt(cfg, cmds, j, id).Some?
        ensures ActionTimeAt(cfg, cmds, j, id).value <= StampOf(m).value
      {
        assert NoLater(ActionTimeAt(cfg, cmds, j, id), ActionTimeAt(cfg, cmds, i, id));
      }
    }
  }

  lemma RowHasShape(codec: Codec, db: Db, id: string)
    requires Inv(codec, db) && id in db.tickets
    ensures RowShape(db.tickets[id])
  {
    InvMeans(codec, db);
    assert TicketOk(db.tickets[id], db.events[id]);
  }

  /**
   * Over every run whose actions on each ticket have non-decreasing times, the stamps of every ticket are
   * in order: created, called, served, completed.
   */
  lemma {:induction false} StampsStayOrdered(cfg: Config, cmds: seq<Command>, n: nat)
    requires CodecOk(cfg.codec) && RunEnabled(cfg, EMPTY_DB, cmds) && n <= |cmds| && ActionsInOrder(cfg, cmds)
    ensures StampsOk(StateAfter(cfg, EMPTY_DB, cmds, n))
  {
    if n > 0 {
      var db, cmd := StateAfter(cfg, EMPTY_DB, cmds, n - 1), cmds[n - 1];
      assert EnabledAt(cfg, EMPTY_DB, cmds, n - 1);
      StampsStayOrdered(cfg, cmds, n - 1);
      EmptyStoreInv(cfg.codec);
      RunKeepsInv(cfg, EMPTY_DB, cmds, n - 1);
      forall id | id in Exec(cfg, db, cmd).0.tickets ensures StampsOrdered(Exec(cfg, db, cmd).0.tickets[id]) {
        TicketStaysOrdered(cfg, cmds, n - 1, id);
      }
    }
  }

  lemma TicketStaysOrdered(cfg: Config, cmds: seq<Command>, i: nat, id: string)
    requires RunEnabled(cfg, EMPTY_DB, cmds) && i < |cmds| && ActionsInOrder(cfg, cmds)
    requires EnabledAt(cfg, EMPTY_DB, cmds, i)
    requires Inv(cfg.codec, StateAfter(cfg, EMPTY_DB, cmds, i)) && StampsOk(StateAfter(cfg, EMPTY_DB, cmds, i))
    requires id in StateAfter(cfg, EMPTY_DB, cmds, i + 1).tickets
    ensures StampsOrdered(StateAfter(cfg, EMPTY_DB, cmds, i + 1).tickets[id])
  {
    var db, cmd := StateAfter(cfg, EMPTY_DB, cmds, i), cmds[i];
    if id in db.tickets {
      StepMoves(cfg, db, cmd, id);
      var m := MoveOf(cfg, db, cmd, id);
      if m.Some? {
        StampsAreActionTimes(cfg, cmds, i, id);
        MoveStampsActionTime(cfg, db, cmd, id);
        MoveIsTimely(cfg, cmds, i, id, db.tickets[id], m.value);
        RowHasShape(cfg.codec, db, id);
        MoveKeepsOrder(db.tickets[id], m.value);
      }
    } else {
      NewTicketIsIssued(cfg, db, cmd, id);
    }
  }

  /** In particular when the commands themselves are in order for each ticket. */
  lemma CommandsInOrderKeepStamps(cfg: Config, cmds: seq<Command>, n: nat)
    requires CodecOk(cfg.codec) && RunEnabled(cfg, EMPTY_DB, cmds) && n <= |cmds| && CommandsInOrder(cmds)
    ensures StampsOk(StateAfter(cfg, EMPTY_DB, cmds, n))
  {
    forall id, i, j | 0 <= i < j < |cmds|
      ensures NoLater(ActionTimeAt(cfg, cmds, i, id), ActionTimeAt(cfg, cmds, j, id))
    {
      assert NoLater(CommandTime(cmds[i], id), CommandTime(cmds[j], id));
    }
    StampsStayOrdered(cfg, cmds, n);
  }
}
