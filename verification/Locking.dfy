/**
 * Concurrent transactions, by the statements that read or write tickets, appointments and routing rows:
 * row locks held to commit, locked rows skipped, every select on what is committed when it runs.
 */
module Locking {
  import opened Basics
  import opened Transitions
  import opened Tickets
  import opened Routing
  import opened Fairness
  import opened Selects
  import opened StoreSpec

  /**
   * A transaction in progress: the row versions that it has locked and written but not committed, the
   * appointments that it found scheduled, and the status that its update of an appointment overwrote; or
   * a call that holds its routing row, with the views of the selects it has run in vain, or its choice.
   */
  datatype Work =
    | Moving(pending: map<string, TicketRow>, seen: set<string>, marks: map<string, AppointmentStatus>)
    | Selecting(key: Key, read: RoutingRow, policy: Policy, at: Time, views: seq<View>)
    | Chosen(key: Key, read: RoutingRow, call: StagedCall, counter: string, row: TicketRow)

  /**
   * The committed tables, the open transactions, and the history of committed calls: each service's
   * calls in commit order, how often each ticket has begun to wait, and which of these waiting
   * periods have been given to a call.
   */
  datatype Sys = Sys(
    db: Db,
    txs: map<string, Work>,
    log: map<Key, seq<StagedCall>>,
    period: map<string, nat>,
    given: seq<(string, nat)>)

  const IDLE := Sys(EMPTY_DB, map[], map[], map[], [])

  function PendingOf(w: Work): map<string, TicketRow> {
    match w
    case Moving(pending, _, _) => pending
    case Selecting(_, _, _, _, _) => map[]
    case Chosen(_, _, call, _, row) => map[call.pick := row]
  }

  /**
   * The appointments whose rows a transaction holds locked: a check-in by its update, a call by the select
   * that joined the appointment of its choice.
   */
  function HeldBy(w: Work): set<string> {
    match w
    case Moving(_, _, marks) => marks.Keys
    case Selecting(_, _, _, _, _) => {}
    case Chosen(_, _, _, _, row) => if row.appointmentId.Some? then {row.appointmentId.value} else {}
  }

  /** The appointments that a commit of the transaction leaves checked in. */
  function MarksOf(w: Work): map<string, AppointmentStatus> {
    if w.Moving? then w.marks else map[]
  }

  predicate HoldsRoute(w: Work, key: Key) {
    !w.Moving? && w.key == key
  }

  /** The tickets that transactions other than `tx` hold locked. */
  function LockedByOthers(s: Sys, tx: string): set<string> {
    set t, id | t in s.txs && t != tx && id in PendingOf(s.txs[t]) :: id
  }

  function HeldByOthers(s: Sys, tx: string): set<string> {
    set t, a | t in s.txs && t != tx && a in HeldBy(s.txs[t]) :: a
  }

  /** The tickets that a call's select skips: they, or the appointments it would join, are locked. */
  function SkippedBy(s: Sys, tx: string): set<string> {
    set id | id in s.db.tickets &&
      (id in LockedByOthers(s, tx) ||
       (s.db.tickets[id].appointmentId.Some? && s.db.tickets[id].appointmentId.value in HeldByOthers(s, tx)))
  }

  /** What a select of a call sees: committed waiting tickets of its service, minus the skipped ones. */
  function SelectView(s: Sys, tx: string, key: Key): View {
    ServiceView(s.db, key, SkippedBy(s, tx))
  }

  function CallsOf(s: Sys, key: Key): seq<StagedCall> {
    if key in s.log then s.log[key] else []
  }

  function PeriodOf(s: Sys, id: string): nat {
    if id in s.period then s.period[id] else 0
  }

  /** The version of a row that a statement of `tx` works on, once it has the lock. */
  function Version(s: Sys, w: Work, id: string): Option<TicketRow> {
    if id in PendingOf(w) then Some(PendingOf(w)[id])
    else if id in s.db.tickets then Some(s.db.tickets[id])
    else None
  }

  // -------------------------------------------------------------------- steps

  datatype Step =
    | Begin(tx: string)
    | LockRoute(tx: string, key: Key, policy: Policy, at: Time)
    | SelectNone(tx: string)
    | SelectOne(tx: string, counter: string, pick: string)
    | MoveRow(tx: string, id: string, m: Move)
    | InsertRow(tx: string, row: TicketRow)
    | Book(appointmentId: string, appointment: Appointment)
    | SeeAppointment(tx: string, appointmentId: string)
    | MarkAppointment(tx: string, appointmentId: string)
    | Commit(tx: string)
    | Abort(tx: string)

  /** The row of a check-in: the only one for an appointment that this transaction has marked, and regular. */
  predicate FilesAppointment(s: Sys, w: Work, row: TicketRow) {
    row.appointmentId.Some? ==>
      && (forall id :: id in PendingOf(w) ==> PendingOf(w)[id].appointmentId != row.appointmentId)
      && row.appointmentId.value in MarksOf(w) && row.appointmentId.value in s.db.appointments
      && row.priorityClass == REGULAR
      && var a := s.db.appointments[row.appointmentId.value];
      KeyOf(row) == Key(a.tenantId, a.branchId, a.serviceId)
  }

  /** The new rows for an appointment that a transaction has written. */
  predicate Files(s: Sys, tx: string, id: string, a: string) {
    tx in s.txs && id in PendingOf(s.txs[tx]) && id !in s.db.tickets &&
      PendingOf(s.txs[tx])[id].appointmentId == Some(a)
  }

  /** A check-in commits only after its insert; a call that found nobody, only after all its selects. */
  ghost predicate MayCommit(s: Sys, tx: string)
    requires tx in s.txs
  {
    match s.txs[tx]
    case Moving(_, _, marks) => forall a :: a in marks ==> exists id :: Files(s, tx, id, a)
    case Selecting(_, _, _, _, views) => |views| == STAGES
    case Chosen(_, _, _, _, _) => true
  }

  function PreferenceOf(limit: int, w: Work): Preference
    requires w.Selecting?
  {
    Prefer(limit, w.read, w.policy, w.at)
  }

  /**
   * A statement can run only when no other transaction holds a lock that it needs.  A check-in reads the
   * appointment without locking it and later updates it whatever its status is by then.  A recall locks
   * and writes no ticket, so it is no statement here.
   */
  ghost predicate CanStep(limit: int, s: Sys, step: Step) {
    match step
    case Begin(tx) => tx !in s.txs
    case LockRoute(tx, key, _, _) => tx !in s.txs && forall t :: t in s.txs ==> !HoldsRoute(s.txs[t], key)
    case SelectNone(tx) =>
      && tx in s.txs && s.txs[tx].Selecting? && |s.txs[tx].views| < STAGES
      && Finds(SelectView(s, tx, s.txs[tx].key), PreferenceOf(limit, s.txs[tx]), |s.txs[tx].views|, None)
    case SelectOne(tx, _, pick) =>
      && tx in s.txs && s.txs[tx].Selecting? && |s.txs[tx].views| < STAGES
      && Finds(SelectView(s, tx, s.txs[tx].key), PreferenceOf(limit, s.txs[tx]), |s.txs[tx].views|, Some(pick))
    case MoveRow(tx, id, m) =>
      && tx in s.txs && s.txs[tx].Moving? && id !in LockedByOthers(s, tx)
      && Version(s, s.txs[tx], id).Some? && Guard(Version(s, s.txs[tx], id).value, m) && !m.Call? && !m.Recall?
    case InsertRow(tx, row) =>
      && tx in s.txs && s.txs[tx].Moving? && row.status == Waiting
      && row.ticketId !in s.db.tickets && row.ticketId !in PendingOf(s.txs[tx])
      && row.ticketId !in LockedByOthers(s, tx)
      && FilesAppointment(s, s.txs[tx], row)
    case Book(id, appointment) => id !in s.db.appointments && appointment.status != CheckedIn
    case SeeAppointment(tx, id) =>
      && tx in s.txs && s.txs[tx].Moving?
      && id in s.db.appointments && s.db.appointments[id].status == Scheduled
    case MarkAppointment(tx, id) =>
      && tx in s.txs && s.txs[tx].Moving? && id in s.txs[tx].seen && id in s.db.appointments
      && id !in s.txs[tx].marks && id !in HeldByOthers(s, tx)
    case Commit(tx) => tx in s.txs && MayCommit(s, tx)
    case Abort(tx) => tx in s.txs
  }

  /** A commit makes a row wait that did not wait before. */
  predicate BeginsToWait(db: Db, pending: map<string, TicketRow>, id: string) {
    id in pending && pending[id].status == Waiting && (id in db.tickets ==> db.tickets[id].status != Waiting)
  }

  function CheckedInAll(appointments: map<string, Appointment>, marks: set<string>): (marked: map<string, Appointment>)
    ensures marked.Keys == appointments.Keys
  {
    map id | id in appointments :: if id in marks then appointments[id].(status := CheckedIn) else appointments[id]
  }

  function Committed(s: Sys, tx: string): Sys
    requires tx in s.txs
  {
    var w := s.txs[tx];
    var pending := PendingOf(w);
    var db1 := s.db.(tickets := s.db.tickets + pending,
                     appointments := CheckedInAll(s.db.appointments, MarksOf(w).Keys));
    var periods := map id | id in s.period.Keys + pending.Keys ::
      if BeginsToWait(s.db, pending, id) then PeriodOf(s, id) + 1 else PeriodOf(s, id);
    match w
    case Chosen(key, read, call, _, _) =>
      Sys(SetRouting(db1, key, Advance(read, RecordOf(call))), s.txs - {tx}, s.log[key := CallsOf(s, key) + [call]],
          periods, s.given + [(call.pick, PeriodOf(s, call.pick))])
    case Moving(_, _, _) => Sys(db1, s.txs - {tx}, s.log, periods, s.given)
    case Selecting(_, _, _, _, _) => Sys(db1, s.txs - {tx}, s.log, periods, s.given)
  }

  ghost function Next(limit: int, s: Sys, step: Step): Sys
    requires CanStep(limit, s, step)
  {
    match step
    case Begin(tx) => s.(txs := s.txs[tx := Moving(map[], {}, map[])])
    case LockRoute(tx, key, policy, at) =>
      s.(txs := s.txs[tx := Selecting(key, RoutingOf(s.db, key), policy, at, [])])
    case SelectNone(tx) =>
      var w := s.txs[tx];
      s.(txs := s.txs[tx := w.(views := w.views + [SelectView(s, tx, w.key)])])
    case SelectOne(tx, counter, pick) =>
      var w := s.txs[tx];
      var call := StagedCall(w.policy, w.at, pick, w.views + [SelectView(s, tx, w.key)]);
      s.(txs := s.txs[tx := Chosen(w.key, w.read, call, counter, After(s.db.tickets[pick], Call(counter, w.at)))])
    case MoveRow(tx, id, m) =>
      var row := After(Version(s, s.txs[tx], id).value, m);
      s.(txs := s.txs[tx := s.txs[tx].(pending := s.txs[tx].pending[id := row])])
    case InsertRow(tx, row) =>
      s.(txs := s.txs[tx := s.txs[tx].(pending := s.txs[tx].pending[row.ticketId := row])])
    case Book(id, appointment) => s.(db := s.db.(appointments := s.db.appointments[id := appointment]))
    case SeeAppointment(tx, id) => s.(txs := s.txs[tx := s.txs[tx].(seen := s.txs[tx].seen + {id})])
    case MarkAppointment(tx, id) =>
      s.(txs := s.txs[tx := s.txs[tx].(marks := s.txs[tx].marks[id := s.db.appointments[id].status])])
    case Commit(tx) => Committed(s, tx)
    case Abort(tx) => s.(txs := s.txs - {tx})
  }

  // --------------------------------------------------------------- invariants

  /** No ticket, no routing row and no appointment is locked twice. */
  ghost predicate LocksExclusive(s: Sys) {
    && (forall a, b, id :: a in s.txs && b in s.txs && id in PendingOf(s.txs[a]) && id in PendingOf(s.txs[b]) ==>
          a == b)
    && (forall a, b, key :: a in s.txs && b in s.txs && HoldsRoute(s.txs[a], key) && HoldsRoute(s.txs[b], key) ==>
          a == b)
    && (forall a, b, id :: a in s.txs && b in s.txs && id in HeldBy(s.txs[a]) && id in HeldBy(s.txs[b]) ==> a == b)
  }

  ghost predicate RegularViews(views: seq<View>) {
    forall i :: 0 <= i < |views| ==> AppointmentsAreRegular(views[i])
  }

  /** What a calling transaction has read is still what is committed, and its selects went as they should. */
  ghost predicate CallHolds(limit: int, s: Sys, w: Work) {
    match w
    case Moving(_, _, _) => true
    case Selecting(key, read, _, _, views) =>
      && read == RoutingOf(s.db, key) && |views| <= STAGES && RegularViews(views)
      && FindNothing(views, PreferenceOf(limit, w), |views|)
    case Chosen(key, read, call, counter, row) =>
      && read == RoutingOf(s.db, key) && StagedObeys(limit, read, call) && RegularViews(call.views)
      && InQueue(s.db, key, call.pick) && LastView(call)[call.pick] == CandidateOf(s.db, s.db.tickets[call.pick])
      && row == After(s.db.tickets[call.pick], Call(counter, call.at))
  }

  ghost predicate CallsHold(limit: int, s: Sys) {
    forall t :: t in s.txs ==> CallHolds(limit, s, s.txs[t])
  }

  ghost predicate RowsRegular(rows: map<string, TicketRow>) {
    forall id :: id in rows && rows[id].appointmentId.Some? ==> rows[id].priorityClass == REGULAR
  }

  ghost predicate AppointmentRowsRegular(s: Sys) {
    RowsRegular(s.db.tickets) && forall t :: t in s.txs ==> RowsRegular(PendingOf(s.txs[t]))
  }

  /** The routing row of every service is the fold of its committed calls, each of which obeyed it. */
  ghost predicate RoutingIsFold(limit: int, s: Sys) {
    forall key :: RoutingIsFoldOf(limit, s, key)
  }

  ghost predicate RoutingIsFoldOf(limit: int, s: Sys, key: Key) {
    && StagedTrace(limit, FRESH, CallsOf(s, key))
    && RoutingOf(s.db, key) == Fold(FRESH, Records(CallsOf(s, key)))
    && forall i :: 0 <= i < |CallsOf(s, key)| ==> RegularViews(CallsOf(s, key)[i].views)
  }

  /** Given periods lie in the past, or are current and the ticket has stopped waiting. */
  ghost predicate Spent(s: Sys, g: (string, nat)) {
    && g.0 in s.db.tickets && g.1 <= PeriodOf(s, g.0)
    && (g.1 == PeriodOf(s, g.0) ==> s.db.tickets[g.0].status != Waiting)
  }

  ghost predicate PeriodsGivenOnce(s: Sys) {
    && (forall i :: 0 <= i < |s.given| ==> Spent(s, s.given[i]))
    && (forall i, j :: 0 <= i < j < |s.given| ==> s.given[i] != s.given[j])
  }

  ghost predicate LockInv(limit: int, s: Sys) {
    && LocksExclusive(s)
    && CallsHold(limit, s)
    && AppointmentRowsRegular(s)
    && RoutingIsFold(limit, s)
    && PeriodsGivenOnce(s)
  }

  lemma IdleInv(limit: int)
    ensures LockInv(limit, IDLE)
  {
  }

  // ------------------------------------------------- statements before commit

  /** Statements touch only the transaction's own work. */
  ghost predicate OnlyWork(s: Sys, s': Sys, tx: string) {
    s' == s.(txs := s'.txs) && forall t :: t != tx ==>
        (t in s.txs <==> t in s'.txs) && (t in s.txs ==> s'.txs[t] == s.txs[t])
  }

  /** The locks of this work are free for the transaction. */
  ghost predicate LocksFree(s: Sys, w: Work, tx: string) {
    && (forall id :: id in PendingOf(w) ==> id !in LockedByOthers(s, tx))
    && (forall a :: a in HeldBy(w) ==> a !in HeldByOthers(s, tx))
    && (!w.Moving? ==> forall t :: t in s.txs && t != tx ==> !HoldsRoute(s.txs[t], w.key))
  }

  lemma WorkKeepsLocks(s: Sys, s': Sys, tx: string)
    requires LocksExclusive(s) && OnlyWork(s, s', tx) && (tx in s'.txs ==> LocksFree(s, s'.txs[tx], tx))
    ensures LocksExclusive(s')
  {
    assert forall t, id :: t in s.txs && t != tx && id in PendingOf(s.txs[t]) ==> id in LockedByOthers(s, tx);
    assert forall t, a :: t in s.txs && t != tx && a in HeldBy(s.txs[t]) ==> a in HeldByOthers(s, tx);
  }

  lemma WorkKeepsInv(limit: int, s: Sys, s': Sys, tx: string)
    requires LockInv(limit, s) && OnlyWork(s, s', tx)
    requires tx in s'.txs ==>
      LocksFree(s, s'.txs[tx], tx) && CallHolds(limit, s, s'.txs[tx]) && RowsRegular(PendingOf(s'.txs[tx]))
    ensures LockInv(limit, s')
  {
    WorkKeepsLocks(s, s', tx);
    SameTablesKeepHistory(limit, s, s');
    forall t | t in s'.txs ensures CallHolds(limit, s', s'.txs[t]) {
      assert t != tx ==> CallHolds(limit, s, s.txs[t]);
    }
  }

  lemma SameTablesKeepHistory(limit: int, s: Sys, s': Sys)
    requires RoutingIsFold(limit, s) && PeriodsGivenOnce(s)
    requires s'.db.tickets == s.db.tickets && s'.db.routing == s.db.routing
    requires s'.log == s.log && s'.period == s.period && s'.given == s.given
    ensures RoutingIsFold(limit, s') && PeriodsGivenOnce(s')
  {
    forall key ensures RoutingIsFoldOf(limit, s', key) {
      assert RoutingIsFoldOf(limit, s, key);
    }
    forall i | 0 <= i < |s'.given| ensures Spent(s', s'.given[i]) {
      assert Spent(s, s.given[i]);
    }
  }

  lemma ViewsShowRegularAppointments(db: Db, key: Key, skipped: set<string>)
    requires RowsRegular(db.tickets)
    ensures AppointmentsAreRegular(ServiceView(db, key, skipped))
  {
  }

  lemma OwnLocksAreFree(s: Sys, tx: string)
    requires LocksExclusive(s) && tx in s.txs
    ensures LocksFree(s, s.txs[tx], tx)
  {
  }

  lemma MoreRegularViews(views: seq<View>, view: View)
    requires RegularViews(views) && AppointmentsAreRegular(view)
    ensures RegularViews(views + [view])
  {
  }

  lemma MoreFindNothing(views: seq<View>, view: View, p: Preference)
    requires FindNothing(views, p, |views|) && Finds(view, p, |views|, None)
    ensures FindNothing(views + [view], p, |views| + 1)
  {
  }

  lemma SelectNoneKeepsInv(limit: int, s: Sys, tx: string)
    requires LockInv(limit, s) && CanStep(limit, s, SelectNone(tx))
    ensures LockInv(limit, Next(limit, s, SelectNone(tx)))
  {
    var w := s.txs[tx];
    assert CallHolds(limit, s, w) && HoldsRoute(w, w.key);
    ViewsShowRegularAppointments(s.db, w.key, SkippedBy(s, tx));
    MoreRegularViews(w.views, SelectView(s, tx, w.key));
    MoreFindNothing(w.views, SelectView(s, tx, w.key), PreferenceOf(limit, w));
    WorkKeepsInv(limit, s, Next(limit, s, SelectNone(tx)), tx);
  }

  /** A last select that finds its pick completes the selects that found nothing. */
  lemma SelectsObey(limit: int, read: RoutingRow, policy: Policy, at: Time, views: seq<View>, view: View, pick: string)
    requires |views| < STAGES && FindNothing(views, Prefer(limit, read, policy, at), |views|)
    requires Finds(view, Prefer(limit, read, policy, at), |views|, Some(pick))
    ensures StagedObeys(limit, read, StagedCall(policy, at, pick, views + [view]))
  {
  }

  lemma PickIsFree(limit: int, s: Sys, tx: string, pick: string)
    requires tx in s.txs && s.txs[tx].Selecting? && pick in SelectView(s, tx, s.txs[tx].key)
    ensures InQueue(s.db, s.txs[tx].key, pick) && pick !in LockedByOthers(s, tx)
    ensures s.db.tickets[pick].appointmentId.Some? ==> s.db.tickets[pick].appointmentId.value !in HeldByOthers(s, tx)
    ensures SelectView(s, tx, s.txs[tx].key)[pick] == CandidateOf(s.db, s.db.tickets[pick])
  {
  }

  /** The choice of a call: it obeyed the row it locked, and locks what it chose. */
  lemma ChoiceHolds(limit: int, s: Sys, tx: string, counter: string, pick: string)
    requires CallsHold(limit, s) && AppointmentRowsRegular(s) && LocksExclusive(s)
    requires CanStep(limit, s, SelectOne(tx, counter, pick))
    ensures var w := Next(limit, s, SelectOne(tx, counter, pick)).txs[tx];
      CallHolds(limit, s, w) && LocksFree(s, w, tx) && RowsRegular(PendingOf(w))
  {
    var w, view := s.txs[tx], SelectView(s, tx, s.txs[tx].key);
    assert CallHolds(limit, s, w) && HoldsRoute(w, w.key);
    SelectsObey(limit, w.read, w.policy, w.at, w.views, view, pick);
    ViewsShowRegularAppointments(s.db, w.key, SkippedBy(s, tx));
    MoreRegularViews(w.views, view);
    PickIsFree(limit, s, tx, pick);
  }

  lemma SelectOneKeepsInv(limit: int, s: Sys, tx: string, counter: string, pick: string)
    requires LockInv(limit, s) && CanStep(limit, s, SelectOne(tx, counter, pick))
    ensures LockInv(limit, Next(limit, s, SelectOne(tx, counter, pick)))
  {
    ChoiceHolds(limit, s, tx, counter, pick);
    WorkKeepsInv(limit, s, Next(limit, s, SelectOne(tx, counter, pick)), tx);
  }

  lemma MoveRowKeepsInv(limit: int, s: Sys, tx: string, id: string, m: Move)
    requires LockInv(limit, s) && CanStep(limit, s, MoveRow(tx, id, m))
    ensures LockInv(limit, Next(limit, s, MoveRow(tx, id, m)))
  {
    OwnLocksAreFree(s, tx);
    assert RowsRegular(PendingOf(s.txs[tx]));
    WorkKeepsInv(limit, s, Next(limit, s, MoveRow(tx, id, m)), tx);
  }

  lemma InsertRowKeepsInv(limit: int, s: Sys, tx: string, row: TicketRow)
    requires LockInv(limit, s) && CanStep(limit, s, InsertRow(tx, row))
    ensures LockInv(limit, Next(limit, s, InsertRow(tx, row)))
  {
    OwnLocksAreFree(s, tx);
    assert RowsRegular(PendingOf(s.txs[tx]));
    WorkKeepsInv(limit, s, Next(limit, s, InsertRow(tx, row)), tx);
  }

  /** Reading or marking an appointment touches no ticket. */
  lemma AppointmentStatementKeepsInv(limit: int, s: Sys, step: Step)
    requires LockInv(limit, s) && CanStep(limit, s, step) && (step.SeeAppointment? || step.MarkAppointment?)
    ensures LockInv(limit, Next(limit, s, step))
  {
    OwnLocksAreFree(s, step.tx);
    assert RowsRegular(PendingOf(s.txs[step.tx]));
    WorkKeepsInv(limit, s, Next(limit, s, step), step.tx);
  }

  /** A booking is committed at once; no row refers to it yet. */
  lemma BookKeepsInv(limit: int, s: Sys, id: string, appointment: Appointment)
    requires LockInv(limit, s) && CanStep(limit, s, Step.Book(id, appointment))
    ensures LockInv(limit, Next(limit, s, Step.Book(id, appointment)))
  {
    var s' := Next(limit, s, Step.Book(id, appointment));
    SameTablesKeepHistory(limit, s, s');
    forall t | t in s'.txs ensures CallHolds(limit, s', s'.txs[t]) {
      assert CallHolds(limit, s, s.txs[t]);
    }
  }

  /** A transaction that has just begun has written nothing, one that is gone has left nothing. */
  lemma EdgeKeepsInv(limit: int, s: Sys, step: Step)
    requires LockInv(limit, s) && CanStep(limit, s, step) && (step.Begin? || step.LockRoute? || step.Abort?)
    ensures LockInv(limit, Next(limit, s, step))
  {
    WorkKeepsInv(limit, s, Next(limit, s, step), step.tx);
  }

  lemma StatementKeepsInv(limit: int, s: Sys, step: Step)
    requires LockInv(limit, s) && CanStep(limit, s, step) && !step.Commit?
    ensures LockInv(limit, Next(limit, s, step))
  {
    match step
    case Book(id, appointment) => BookKeepsInv(limit, s, id, appointment);
    case SeeAppointment(_, _) => AppointmentStatementKeepsInv(limit, s, step);
    case MarkAppointment(_, _) => AppointmentStatementKeepsInv(limit, s, step);
    case MoveRow(tx, id, m) => MoveRowKeepsInv(limit, s, tx, id, m);
    case InsertRow(tx, row) => InsertRowKeepsInv(limit, s, tx, row);
    case SelectNone(tx) => SelectNoneKeepsInv(limit, s, tx);
    case SelectOne(tx, counter, pick) => SelectOneKeepsInv(limit, s, tx, counter, pick);
    case Begin(_) => EdgeKeepsInv(limit, s, step);
    case LockRoute(_, _, _, _) => EdgeKeepsInv(limit, s, step);
    case Abort(_) => EdgeKeepsInv(limit, s, step);
  }

  // ------------------------------------------------------------------- commit

  /** A commit leaves to another call what that call has read: the locks keep it so. */
  lemma CommitKeepsCall(limit: int, s: Sys, tx: string, t: string)
    requires LocksExclusive(s) && tx in s.txs && t in s.txs && t != tx && CallHolds(limit, s, s.txs[t])
    ensures CallHolds(limit, Committed(s, tx), s.txs[t])
  {
    var w, s' := s.txs[t], Committed(s, tx);
    if !w.Moving? {
      assert HoldsRoute(w, w.key);
      if !s.txs[tx].Moving? {
        assert HoldsRoute(s.txs[tx], s.txs[tx].key);
      }
      assert RoutingOf(s'.db, w.key) == RoutingOf(s.db, w.key);
      if w.Chosen? {
        assert w.call.pick in PendingOf(w) && w.call.pick !in PendingOf(s.txs[tx]);
        assert s'.db.tickets[w.call.pick] == s.db.tickets[w.call.pick];
        SameCandidate(s, tx, s.db.tickets[w.call.pick]);
      }
    }
  }

  lemma SameCandidate(s: Sys, tx: string, row: TicketRow)
    requires tx in s.txs && Joins(s.db, row)
    ensures Joins(Committed(s, tx).db, row) && CandidateOf(Committed(s, tx).db, row) == CandidateOf(s.db, row)
  {
  }

  lemma CommitKeepsCalls(limit: int, s: Sys, tx: string)
    requires LocksExclusive(s) && CallsHold(limit, s) && tx in s.txs
    ensures CallsHold(limit, Committed(s, tx)) && LocksExclusive(Committed(s, tx))
  {
    var s' := Committed(s, tx);
    forall t | t in s'.txs ensures CallHolds(limit, s', s'.txs[t]) {
      CommitKeepsCall(limit, s, tx, t);
    }
  }

  /** A committed call extends its service's calls, and moves its routing row as they say. */
  lemma CallExtendsFold(limit: int, s: Sys, tx: string)
    requires tx in s.txs && s.txs[tx].Chosen? && CallHolds(limit, s, s.txs[tx])
    requires RoutingIsFoldOf(limit, s, s.txs[tx].key)
    ensures RoutingIsFoldOf(limit, Committed(s, tx), s.txs[tx].key)
  {
    var w, calls := s.txs[tx], CallsOf(s, s.txs[tx].key);
    StagedTraceExtends(limit, FRESH, calls, w.call);
    assert CallsOf(Committed(s, tx), w.key) == calls + [w.call];
  }

  lemma CommitKeepsRoutingOf(limit: int, s: Sys, tx: string, key: Key)
    requires tx in s.txs && CallHolds(limit, s, s.txs[tx]) && RoutingIsFoldOf(limit, s, key)
    ensures RoutingIsFoldOf(limit, Committed(s, tx), key)
  {
    if s.txs[tx].Chosen? && s.txs[tx].key == key {
      CallExtendsFold(limit, s, tx);
    } else {
      assert CallsOf(Committed(s, tx), key) == CallsOf(s, key);
      assert RoutingOf(Committed(s, tx).db, key) == RoutingOf(s.db, key);
    }
  }

  lemma CommitKeepsRouting(limit: int, s: Sys, tx: string)
    requires CallsHold(limit, s) && RoutingIsFold(limit, s) && tx in s.txs
    ensures RoutingIsFold(limit, Committed(s, tx))
  {
    forall key ensures RoutingIsFoldOf(limit, Committed(s, tx), key) {
      assert RoutingIsFoldOf(limit, s, key);
      CommitKeepsRoutingOf(limit, s, tx, key);
    }
  }

  lemma CommitKeepsSpent(s: Sys, tx: string, g: (string, nat))
    requires tx in s.txs && Spent(s, g)
    ensures Spent(Committed(s, tx), g)
  {
    var pending := PendingOf(s.txs[tx]);
    assert PeriodOf(Committed(s, tx), g.0) ==
      if BeginsToWait(s.db, pending, g.0) then PeriodOf(s, g.0) + 1 else PeriodOf(s, g.0);
  }

  lemma CallSpends(limit: int, s: Sys, tx: string)
    requires tx in s.txs && s.txs[tx].Chosen? && CallHolds(limit, s, s.txs[tx])
    ensures var pick := s.txs[tx].call.pick;
      pick in s.db.tickets && s.db.tickets[pick].status == Waiting &&
      Spent(Committed(s, tx), (pick, PeriodOf(s, pick)))
  {
    var pick := s.txs[tx].call.pick;
    assert PeriodOf(Committed(s, tx), pick) == PeriodOf(s, pick);
  }

  lemma CommitKeepsPeriods(limit: int, s: Sys, tx: string)
    requires CallsHold(limit, s) && PeriodsGivenOnce(s) && tx in s.txs
    ensures PeriodsGivenOnce(Committed(s, tx))
  {
    var s', w := Committed(s, tx), s.txs[tx];
    assert CallHolds(limit, s, w);
    forall i | 0 <= i < |s.given| ensures Spent(s', s.given[i]) {
      CommitKeepsSpent(s, tx, s.given[i]);
    }
    if w.Chosen? {
      CallSpends(limit, s, tx);
      forall i | 0 <= i < |s.given| ensures s.given[i] != (w.call.pick, PeriodOf(s, w.call.pick)) {
        assert Spent(s, s.given[i]);
      }
    }
  }

  lemma CommitKeepsInv(limit: int, s: Sys, tx: string)
    requires LockInv(limit, s) && tx in s.txs
    ensures LockInv(limit, Committed(s, tx))
  {
    CommitKeepsCalls(limit, s, tx);
    CommitKeepsRouting(limit, s, tx);
    CommitKeepsPeriods(limit, s, tx);
    assert RowsRegular(PendingOf(s.txs[tx]));
  }

  // --------------------------------------------------------------------- runs

  /** The system after the first n steps from the idle one; a step that is not possible does nothing. */
  ghost function SysAfter(limit: int, steps: seq<Step>, n: nat): Sys
    requires n <= |steps|
  {
    if n == 0 then IDLE else
    var s := SysAfter(limit, steps, n - 1);
    if CanStep(limit, s, steps[n - 1]) then Next(limit, s, steps[n - 1]) else s
  }

  ghost function Run(limit: int, steps: seq<Step>): Sys {
    SysAfter(limit, steps, |steps|)
  }

  ghost predicate PossibleAt(limit: int, steps: seq<Step>, i: nat)
    requires i < |steps|
  {
    CanStep(limit, SysAfter(limit, steps, i), steps[i])
  }

  ghost predicate Possible(limit: int, steps: seq<Step>) {
    forall i :: 0 <= i < |steps| ==> PossibleAt(limit, steps, i)
  }

  lemma StepKeepsInv(limit: int, s: Sys, step: Step)
    requires LockInv(limit, s) && CanStep(limit, s, step)
    ensures LockInv(limit, Next(limit, s, step))
  {
    if step.Commit? {
      CommitKeepsInv(limit, s, step.tx);
    } else {
      StatementKeepsInv(limit, s, step);
    }
  }

  lemma {:induction false} EveryInterleavingKeepsInv(limit: int, steps: seq<Step>, n: nat)
    requires Possible(limit, steps) && n <= |steps|
    ensures LockInv(limit, SysAfter(limit, steps, n))
  {
    if n == 0 {
      IdleInv(limit);
    } else {
      EveryInterleavingKeepsInv(limit, steps, n - 1);
      assert PossibleAt(limit, steps, n - 1);
      StepKeepsInv(limit, SysAfter(limit, steps, n - 1), steps[n - 1]);
    }
  }

  /** Under every interleaving one waiting period of a ticket is given to at most one committed call. */
  lemma NoPeriodGivenTwice(limit: int, steps: seq<Step>, i: nat, j: nat)
    requires Possible(limit, steps)
    requires i < j < |Run(limit, steps).given|
    ensures Run(limit, steps).given[i] != Run(limit, steps).given[j]
  {
    EveryInterleavingKeepsInv(limit, steps, |steps|);
  }

  /** How many of the first n steps commit a call. */
  ghost function CallCommits(limit: int, steps: seq<Step>, n: nat): nat
    requires n <= |steps|
  {
    if n == 0 then 0 else
    var s := SysAfter(limit, steps, n - 1);
    CallCommits(limit, steps, n - 1) + if CommitsCall(s, steps[n - 1]) then 1 else 0
  }

  predicate CommitsCall(s: Sys, step: Step) {
    step.Commit? && step.tx in s.txs && s.txs[step.tx].Chosen?
  }

  lemma StepGives(limit: int, s: Sys, step: Step)
    requires CanStep(limit, s, step)
    ensures |Next(limit, s, step).given| == |s.given| + if CommitsCall(s, step) then 1 else 0
  {
  }

  /** Every committed call is given one waiting period. */
  lemma {:induction false} EveryCallIsGivenOne(limit: int, steps: seq<Step>, n: nat)
    requires Possible(limit, steps) && n <= |steps|
    ensures |SysAfter(limit, steps, n).given| == CallCommits(limit, steps, n)
  {
    if n > 0 {
      EveryCallIsGivenOne(limit, steps, n - 1);
      assert PossibleAt(limit, steps, n - 1);
      StepGives(limit, SysAfter(limit, steps, n - 1), steps[n - 1]);
    }
  }

  predicate WaitsIn(db: Db, id: string) {
    id in db.tickets && db.tickets[id].status == Waiting
  }

  ghost predicate WaitsAt(limit: int, steps: seq<Step>, n: nat, id: string)
    requires n <= |steps|
  {
    WaitsIn(SysAfter(limit, steps, n).db, id)
  }

  /** The step commits a call of this ticket. */
  predicate CommitsCallOf(s: Sys, step: Step, id: string) {
    step.Commit? && step.tx in s.txs && s.txs[step.tx].Chosen? && s.txs[step.tx].call.pick == id
  }

  ghost predicate CallsAt(limit: int, steps: seq<Step>, i: nat, id: string)
    requires i < |steps|
  {
    CommitsCallOf(SysAfter(limit, steps, i), steps[i], id)
  }

  /** The step puts the ticket, which did not wait, into a queue. */
  ghost predicate QueuesAt(limit: int, steps: seq<Step>, k: nat, id: string)
    requires k < |steps|
  {
    !WaitsAt(limit, steps, k, id) && WaitsAt(limit, steps, k + 1, id)
  }

  lemma {:induction false} WaitsSince(limit: int, steps: seq<Step>, i: nat, j: nat, id: string) returns (k: nat)
    requires i <= j <= |steps|
    requires !WaitsAt(limit, steps, i, id) && WaitsAt(limit, steps, j, id)
    ensures i <= k < j && QueuesAt(limit, steps, k, id)
    decreases j
  {
    if WaitsAt(limit, steps, j - 1, id) {
      k := WaitsSince(limit, steps, i, j - 1, id);
    } else {
      k := j - 1;
    }
  }

  lemma CalledWaitsNoMore(limit: int, s: Sys, step: Step, id: string)
    requires LockInv(limit, s) && CanStep(limit, s, step) && CommitsCallOf(s, step, id)
    ensures WaitsIn(s.db, id) && !WaitsIn(Next(limit, s, step).db, id)
  {
    assert CallHolds(limit, s, s.txs[step.tx]);
  }

  lemma CallAtFindsWaiting(limit: int, steps: seq<Step>, i: nat, id: string)
    requires Possible(limit, steps) && i < |steps| && CallsAt(limit, steps, i, id)
    ensures WaitsAt(limit, steps, i, id)
  {
    EveryInterleavingKeepsInv(limit, steps, i);
    assert PossibleAt(limit, steps, i);
    CalledWaitsNoMore(limit, SysAfter(limit, steps, i), steps[i], id);
  }

  lemma CallAtEndsWaiting(limit: int, steps: seq<Step>, i: nat, id: string)
    requires Possible(limit, steps) && i < |steps| && CallsAt(limit, steps, i, id)
    ensures !WaitsAt(limit, steps, i + 1, id)
  {
    EveryInterleavingKeepsInv(limit, steps, i);
    assert PossibleAt(limit, steps, i);
    CalledWaitsNoMore(limit, SysAfter(limit, steps, i), steps[i], id);
  }

  /** Under every interleaving a ticket has been queued anew between two committed calls of it. */
  lemma CalledTwiceQueuedBetween(limit: int, steps: seq<Step>, i: nat, j: nat, id: string) returns (k: nat)
    requires Possible(limit, steps) && i < j < |steps| && CallsAt(limit, steps, i, id) && CallsAt(limit, steps, j, id)
    ensures i < k < j && QueuesAt(limit, steps, k, id)
  {
    CallAtEndsWaiting(limit, steps, i, id);
    CallAtFindsWaiting(limit, steps, j, id);
    k := WaitsSince(limit, steps, i + 1, j, id);
  }

  /**
   * Under every interleaving each routing row is the fold of its service's committed calls in commit order,
   * each of which ran its selects by the row that the calls before it left.
   */
  lemma RoutingFoldsCommittedCalls(limit: int, steps: seq<Step>, key: Key)
    requires Possible(limit, steps)
    ensures StagedTrace(limit, FRESH, CallsOf(Run(limit, steps), key))
    ensures RoutingOf(Run(limit, steps).db, key) == Fold(FRESH, Records(CallsOf(Run(limit, steps), key)))
  {
    EveryInterleavingKeepsInv(limit, steps, |steps|);
    assert RoutingIsFoldOf(limit, Run(limit, steps), key);
  }

  // ---------------------------------------------- committed calls as commands

  /** The tickets that not all selects of the call saw as they are when it commits, its choice apart. */
  ghost function NotSeenThroughout(db: Db, key: Key, call: StagedCall): set<string> {
    set id | id in db.tickets && id != call.pick &&
      (InQueue(db, key, id) ==> !SeenThroughout(call, id, CandidateOf(db, db.tickets[id])))
  }

  /** The command of a call that finds these tickets locked. */
  function CommandOf(key: Key, call: StagedCall, counter: string, requestId: string, locked: set<string>): Command {
    CallNext(CallInput(requestId, key.tenantId, key.branchId, key.serviceId, counter, call.at),
             CallEnv(true, true, Some(true), call.policy, locked), Some(call.pick), call.at)
  }

  lemma StillBest(limit: int, db: Db, key: Key, row: RoutingRow, call: StagedCall)
    requires StagedObeys(limit, row, call)
    requires InQueue(db, key, call.pick) && LastView(call)[call.pick] == CandidateOf(db, db.tickets[call.pick])
    ensures Best(ServiceView(db, key, NotSeenThroughout(db, key, call)),
                 Prefer(limit, row, call.policy, call.at), call.pick)
  {
    var view, p := ServiceView(db, key, NotSeenThroughout(db, key, call)), Prefer(limit, row, call.policy, call.at);
    forall id | id in view ensures RankLe(RankOf(view[call.pick], p), RankOf(view[id], p)) {
      if id != call.pick {
        PickIsBestOfSeen(limit, row, call, id, view[id]);
      }
    }
  }

  /** What the command of a queued pick writes into the ticket and routing tables. */
  lemma CallWrites(cfg: Config, db: Db, key: Key, call: StagedCall, counter: string, requestId: string,
                   locked: set<string>)
    requires InQueue(db, key, call.pick) && requestId !in db.actions
    requires call.pick in LastView(call) && LastView(call)[call.pick] == CandidateOf(db, db.tickets[call.pick])
    ensures var (db', reply) := Exec(cfg, db, CommandOf(key, call, counter, requestId, locked));
      && reply == Answered(call.pick, true)
      && db'.tickets == db.tickets[call.pick := After(db.tickets[call.pick], Call(counter, call.at))]
      && db'.routing == db.routing[key := Advance(RoutingOf(db, key), RecordOf(call))]
  {
  }

  lemma AddsOneRow(rows: map<string, TicketRow>, id: string, row: TicketRow)
    ensures rows + map[id := row] == rows[id := row]
  {
  }

  /**
   * Under every interleaving a committed call is, at its commit, a call of the store: the command is
   * possible there, with the tickets that not all of its selects saw as locked, and leaves the same ticket
   * and routing rows.
   */
  lemma CommittedCallIsACommand(cfg: Config, steps: seq<Step>, tx: string, requestId: string)
    requires Possible(cfg.streakLimit, steps) && tx in Run(cfg.streakLimit, steps).txs
    requires Run(cfg.streakLimit, steps).txs[tx].Chosen? && requestId !in Run(cfg.streakLimit, steps).db.actions
    ensures var s, w := Run(cfg.streakLimit, steps), Run(cfg.streakLimit, steps).txs[tx];
      var cmd := CommandOf(w.key, w.call, w.counter, requestId, NotSeenThroughout(s.db, w.key, w.call));
      && Enabled(cfg, s.db, cmd)
      && Exec(cfg, s.db, cmd).1 == Answered(w.call.pick, true)
      && Exec(cfg, s.db, cmd).0.tickets == Committed(s, tx).db.tickets
      && Exec(cfg, s.db, cmd).0.routing == Committed(s, tx).db.routing
  {
    var s, w := Run(cfg.streakLimit, steps), Run(cfg.streakLimit, steps).txs[tx];
    EveryInterleavingKeepsInv(cfg.streakLimit, steps, |steps|);
    assert CallHolds(cfg.streakLimit, s, s.txs[tx]);
    StillBest(cfg.streakLimit, s.db, w.key, w.read, w.call);
    CallWrites(cfg, s.db, w.key, w.call, w.counter, requestId, NotSeenThroughout(s.db, w.key, w.call));
    AddsOneRow(s.db.tickets, w.call.pick, w.row);
  }
}
