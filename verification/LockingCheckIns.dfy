/** When concurrent check-ins give one appointment two tickets: exactly when a late one commits. */
module LockingCheckIns {
  import opened Basics
  import opened Tickets
  import opened StoreSpec
  import opened Locking

  predicate Filed(db: Db, id: string, a: string) {
    id in db.tickets && db.tickets[id].appointmentId == Some(a)
  }

  /** The failure: two tickets for one appointment. */
  ghost predicate FiledTwice(db: Db, a: string) {
    exists x, y :: x != y && Filed(db, x, a) && Filed(db, y, a)
  }

  predicate IsCheckedIn(db: Db, a: string) {
    a in db.appointments && db.appointments[a].status == CheckedIn
  }

  /**
   * The step commits a check-in of `a` whose update found the appointment checked in already: the update has
   * no guard against it.
   */
  predicate CommitsLate(s: Sys, step: Step, a: string) {
    step.Commit? && step.tx in s.txs && a in MarksOf(s.txs[step.tx]) && MarksOf(s.txs[step.tx])[a] == CheckedIn
  }

  // --------------------------------------------------------------- invariants

  /** From its update of an appointment to its commit, a check-in's lock keeps the status that it overwrote. */
  ghost predicate MarksKeepStatus(s: Sys) {
    forall t :: t in s.txs ==> KeepStatus(s.db, MarksOf(s.txs[t]))
  }

  ghost predicate KeepStatus(db: Db, marks: map<string, AppointmentStatus>) {
    forall a :: a in marks ==> a in db.appointments && db.appointments[a].status == marks[a]
  }

  /** Written rows keep their appointment; new ones are for marked appointments, each for its own. */
  ghost predicate PendingFile(s: Sys) {
    forall t :: t in s.txs ==> FilesMarked(s.db.tickets, PendingOf(s.txs[t]), MarksOf(s.txs[t]).Keys)
  }

  ghost predicate FilesMarked(rows: map<string, TicketRow>, pending: map<string, TicketRow>, marks: set<string>) {
    && (forall id :: id in pending && id in rows ==> pending[id].appointmentId == rows[id].appointmentId)
    && (forall id :: id in pending && id !in rows && pending[id].appointmentId.Some? ==>
          pending[id].appointmentId.value in marks)
    && (forall x, y :: x in pending && x !in rows && y in pending && y !in rows && x != y ==>
          pending[x].appointmentId.None? || pending[x].appointmentId != pending[y].appointmentId)
  }

  ghost predicate CheckedInIffFiled(db: Db) {
    forall a :: IsCheckedIn(db, a) <==> exists id :: Filed(db, id, a)
  }

  ghost predicate CheckInInv(s: Sys) {
    MarksKeepStatus(s) && PendingFile(s) && CheckedInIffFiled(s.db)
  }

  // ------------------------------------------------------------------- commit

  lemma CommitKeepsMarks(s: Sys, tx: string)
    requires LocksExclusive(s) && MarksKeepStatus(s) && tx in s.txs
    ensures MarksKeepStatus(Committed(s, tx))
  {
    forall t | t in s.txs && t != tx ensures KeepStatus(Committed(s, tx).db, MarksOf(s.txs[t])) {
      assert KeepStatus(s.db, MarksOf(s.txs[t]));
      assert forall a :: a in MarksOf(s.txs[t]) ==> a in HeldBy(s.txs[t]);
      assert forall a :: a in MarksOf(s.txs[tx]) ==> a in HeldBy(s.txs[tx]);
    }
  }

  lemma CommitKeepsPending(s: Sys, tx: string)
    requires LocksExclusive(s) && PendingFile(s) && tx in s.txs
    ensures PendingFile(Committed(s, tx))
  {
    forall t | t in s.txs && t != tx
      ensures FilesMarked(Committed(s, tx).db.tickets, PendingOf(s.txs[t]), MarksOf(s.txs[t]).Keys)
    {
      assert FilesMarked(s.db.tickets, PendingOf(s.txs[t]), MarksOf(s.txs[t]).Keys);
      assert forall id :: id in PendingOf(s.txs[t]) ==> id !in PendingOf(s.txs[tx]);
    }
  }

  lemma CommittedRows(s: Sys, tx: string)
    requires tx in s.txs
    ensures Committed(s, tx).db.tickets == s.db.tickets + PendingOf(s.txs[tx])
  {
  }

  lemma RowFiles(rows: map<string, TicketRow>, pending: map<string, TicketRow>, id: string, a: string)
    requires id in pending && id in rows ==> pending[id].appointmentId == rows[id].appointmentId
    ensures id in rows + pending && (rows + pending)[id].appointmentId == Some(a) <==>
      (id in rows && rows[id].appointmentId == Some(a)) ||
      (id in pending && id !in rows && pending[id].appointmentId == Some(a))
  {
  }

  /** What a commit files: what was filed before, and the new rows of the transaction. */
  lemma CommitFiles(s: Sys, tx: string, id: string, a: string)
    requires tx in s.txs && PendingFile(s)
    ensures Filed(Committed(s, tx).db, id, a) <==> Filed(s.db, id, a) || Files(s, tx, id, a)
  {
    assert FilesMarked(s.db.tickets, PendingOf(s.txs[tx]), MarksOf(s.txs[tx]).Keys);
    CommittedRows(s, tx);
    RowFiles(s.db.tickets, PendingOf(s.txs[tx]), id, a);
  }

  /** A commit checks in and files the same appointments: those that it has marked. */
  lemma CommitMarksWhatItFiles(s: Sys, tx: string, a: string)
    requires CallsOnlyMove(s, tx) && PendingFile(s) && MarksKeepStatus(s) && MayCommit(s, tx)
    ensures a in MarksOf(s.txs[tx]) <==> exists id :: Files(s, tx, id, a)
    ensures IsCheckedIn(Committed(s, tx).db, a) <==> IsCheckedIn(s.db, a) || a in MarksOf(s.txs[tx])
  {
    assert KeepStatus(s.db, MarksOf(s.txs[tx]));
    assert FilesMarked(s.db.tickets, PendingOf(s.txs[tx]), MarksOf(s.txs[tx]).Keys);
  }

  /** The only row that a call writes is that of a committed ticket. */
  predicate CallsOnlyMove(s: Sys, tx: string) {
    tx in s.txs && (s.txs[tx].Chosen? ==> s.txs[tx].call.pick in s.db.tickets)
  }

  lemma CommitKeepsFiled(s: Sys, tx: string)
    requires CallsOnlyMove(s, tx) && CheckInInv(s) && MayCommit(s, tx)
    ensures CheckedInIffFiled(Committed(s, tx).db)
  {
    var db' := Committed(s, tx).db;
    forall a ensures IsCheckedIn(db', a) <==> exists id :: Filed(db', id, a) {
      CommitMarksWhatItFiles(s, tx, a);
      forall id ensures Filed(db', id, a) <==> Filed(s.db, id, a) || Files(s, tx, id, a) {
        CommitFiles(s, tx, id, a);
      }
      assert IsCheckedIn(s.db, a) <==> exists id :: Filed(s.db, id, a);
    }
  }

  /** Only a late commit files an appointment for the second time, and each one does. */
  lemma CommitFilesTwice(s: Sys, tx: string, a: string)
    requires CallsOnlyMove(s, tx) && CheckInInv(s) && MayCommit(s, tx)
    ensures FiledTwice(Committed(s, tx).db, a) <==> FiledTwice(s.db, a) || CommitsLate(s, Commit(tx), a)
  {
    var db' := Committed(s, tx).db;
    CommitMarksWhatItFiles(s, tx, a);
    assert IsCheckedIn(s.db, a) <==> exists id :: Filed(s.db, id, a);
    assert KeepStatus(s.db, MarksOf(s.txs[tx]));
    assert FilesMarked(s.db.tickets, PendingOf(s.txs[tx]), MarksOf(s.txs[tx]).Keys);
    if FiledTwice(s.db, a) {
      var x, y :| x != y && Filed(s.db, x, a) && Filed(s.db, y, a);
      CommitFiles(s, tx, x, a);
      CommitFiles(s, tx, y, a);
    } else if CommitsLate(s, Commit(tx), a) {
      var x :| Filed(s.db, x, a);
      var y :| Files(s, tx, y, a);
      CommitFiles(s, tx, x, a);
      CommitFiles(s, tx, y, a);
    } else if FiledTwice(db', a) {
      var x, y :| x != y && Filed(db', x, a) && Filed(db', y, a);
      CommitFiles(s, tx, x, a);
      CommitFiles(s, tx, y, a);
    }
  }

  // --------------------------------------------------------------- statements

  /** A statement leaves the tables alone, and its transaction's work files what it has marked. */
  lemma WorkKeepsCheckIns(s: Sys, s': Sys, tx: string)
    requires CheckInInv(s) && OnlyWork(s, s', tx)
    requires tx in s'.txs ==>
      && KeepStatus(s.db, MarksOf(s'.txs[tx]))
      && FilesMarked(s.db.tickets, PendingOf(s'.txs[tx]), MarksOf(s'.txs[tx]).Keys)
    ensures CheckInInv(s')
  {
    assert s'.db == s.db;
    forall t | t in s'.txs && t != tx
      ensures KeepStatus(s.db, MarksOf(s'.txs[t]))
      ensures FilesMarked(s.db.tickets, PendingOf(s'.txs[t]), MarksOf(s'.txs[t]).Keys)
    {
      assert s'.txs[t] == s.txs[t];
    }
  }

  lemma OwnWorkFiles(s: Sys, tx: string)
    requires CheckInInv(s) && tx in s.txs
    ensures KeepStatus(s.db, MarksOf(s.txs[tx]))
    ensures FilesMarked(s.db.tickets, PendingOf(s.txs[tx]), MarksOf(s.txs[tx]).Keys)
  {
  }

  /** A move keeps the row's appointment. */
  lemma MovedRowFiles(rows: map<string, TicketRow>, pending: map<string, TicketRow>, marks: set<string>, id: string,
                      m: Move)
    requires FilesMarked(rows, pending, marks) && (id in pending || id in rows)
    requires Guard(if id in pending then pending[id] else rows[id], m)
    ensures FilesMarked(rows, pending[id := After(if id in pending then pending[id] else rows[id], m)], marks)
  {
  }

  lemma MoveRowKeepsCheckIns(limit: int, s: Sys, tx: string, id: string, m: Move)
    requires CheckInInv(s) && CanStep(limit, s, MoveRow(tx, id, m))
    ensures CheckInInv(Next(limit, s, MoveRow(tx, id, m)))
  {
    OwnWorkFiles(s, tx);
    MovedRowFiles(s.db.tickets, s.txs[tx].pending, s.txs[tx].marks.Keys, id, m);
    WorkKeepsCheckIns(s, Next(limit, s, MoveRow(tx, id, m)), tx);
  }

  lemma InsertRowKeepsCheckIns(limit: int, s: Sys, tx: string, row: TicketRow)
    requires CheckInInv(s) && CanStep(limit, s, InsertRow(tx, row))
    ensures CheckInInv(Next(limit, s, InsertRow(tx, row)))
  {
    OwnWorkFiles(s, tx);
    WorkKeepsCheckIns(s, Next(limit, s, InsertRow(tx, row)), tx);
  }

  lemma AppointmentKeepsCheckIns(limit: int, s: Sys, step: Step)
    requires CheckInInv(s) && CanStep(limit, s, step) && (step.SeeAppointment? || step.MarkAppointment?)
    ensures CheckInInv(Next(limit, s, step))
  {
    OwnWorkFiles(s, step.tx);
    WorkKeepsCheckIns(s, Next(limit, s, step), step.tx);
  }

  lemma EdgeKeepsCheckIns(limit: int, s: Sys, step: Step)
    requires CheckInInv(s) && CanStep(limit, s, step) && (step.Begin? || step.Abort? || step.LockRoute?)
    ensures CheckInInv(Next(limit, s, step))
  {
    WorkKeepsCheckIns(s, Next(limit, s, step), step.tx);
  }

  lemma SelectKeepsCheckIns(limit: int, s: Sys, step: Step)
    requires CheckInInv(s) && CanStep(limit, s, step) && (step.SelectNone? || step.SelectOne?)
    ensures CheckInInv(Next(limit, s, step))
  {
    WorkKeepsCheckIns(s, Next(limit, s, step), step.tx);
  }

  /** A new booking is neither checked in nor filed. */
  lemma BookKeepsCheckIns(limit: int, s: Sys, id: string, appointment: Appointment)
    requires CheckInInv(s) && CanStep(limit, s, Step.Book(id, appointment))
    ensures CheckInInv(Next(limit, s, Step.Book(id, appointment)))
  {
    var s' := Next(limit, s, Step.Book(id, appointment));
    forall t | t in s.txs ensures KeepStatus(s'.db, MarksOf(s.txs[t])) {
      assert KeepStatus(s.db, MarksOf(s.txs[t]));
    }
    forall a ensures IsCheckedIn(s'.db, a) <==> exists t :: Filed(s'.db, t, a) {
      assert IsCheckedIn(s.db, a) <==> exists t :: Filed(s.db, t, a);
      assert forall t :: Filed(s'.db, t, a) <==> Filed(s.db, t, a);
    }
  }

  lemma StatementKeepsCheckIns(limit: int, s: Sys, step: Step)
    requires CheckInInv(s) && CanStep(limit, s, step) && !step.Commit?
    ensures CheckInInv(Next(limit, s, step)) && Next(limit, s, step).db.tickets == s.db.tickets
  {
    match step
    case Book(id, appointment) => BookKeepsCheckIns(limit, s, id, appointment);
    case SeeAppointment(_, _) => AppointmentKeepsCheckIns(limit, s, step);
    case MarkAppointment(_, _) => AppointmentKeepsCheckIns(limit, s, step);
    case MoveRow(tx, id, m) => MoveRowKeepsCheckIns(limit, s, tx, id, m);
    case InsertRow(tx, row) => InsertRowKeepsCheckIns(limit, s, tx, row);
    case SelectNone(_) => SelectKeepsCheckIns(limit, s, step);
    case SelectOne(_, _, _) => SelectKeepsCheckIns(limit, s, step);
    case Begin(_) => EdgeKeepsCheckIns(limit, s, step);
    case LockRoute(_, _, _, _) => EdgeKeepsCheckIns(limit, s, step);
    case Abort(_) => EdgeKeepsCheckIns(limit, s, step);
  }

  // --------------------------------------------------------------------- runs

  lemma StepFilesTwice(limit: int, s: Sys, step: Step, a: string)
    requires LocksExclusive(s) && CallsHold(limit, s) && CheckInInv(s) && CanStep(limit, s, step)
    ensures CheckInInv(Next(limit, s, step))
    ensures FiledTwice(Next(limit, s, step).db, a) <==> FiledTwice(s.db, a) || CommitsLate(s, step, a)
  {
    if step.Commit? {
      assert CallHolds(limit, s, s.txs[step.tx]);
      CommitKeepsMarks(s, step.tx);
      CommitKeepsPending(s, step.tx);
      CommitKeepsFiled(s, step.tx);
      CommitFilesTwice(s, step.tx, a);
    } else {
      StatementKeepsCheckIns(limit, s, step);
      assert forall id :: Filed(Next(limit, s, step).db, id, a) <==> Filed(s.db, id, a);
    }
  }

  lemma {:induction false} EveryInterleavingKeepsCheckIns(limit: int, steps: seq<Step>, n: nat)
    requires Possible(limit, steps) && n <= |steps|
    ensures CheckInInv(SysAfter(limit, steps, n))
  {
    if n > 0 {
      EveryInterleavingKeepsInv(limit, steps, n - 1);
      EveryInterleavingKeepsCheckIns(limit, steps, n - 1);
      assert PossibleAt(limit, steps, n - 1);
      StepFilesTwice(limit, SysAfter(limit, steps, n - 1), steps[n - 1], "");
    }
  }

  predicate Holds(s: Sys, tx: string, a: string, status: AppointmentStatus) {
    tx in s.txs && a in MarksOf(s.txs[tx]) && MarksOf(s.txs[tx])[a] == status
  }

  ghost predicate CommitsLateAt(limit: int, steps: seq<Step>, i: nat, a: string)
    requires i < |steps|
  {
    CommitsLate(SysAfter(limit, steps, i), steps[i], a)
  }

  lemma LateSoFar(limit: int, steps: seq<Step>, n: nat, a: string)
    requires 0 < n <= |steps|
    ensures (exists i :: 0 <= i < n && CommitsLateAt(limit, steps, i, a)) <==>
      (exists i :: 0 <= i < n - 1 && CommitsLateAt(limit, steps, i, a)) ||
      CommitsLate(SysAfter(limit, steps, n - 1), steps[n - 1], a)
  {
    assert CommitsLateAt(limit, steps, n - 1, a) <==> CommitsLate(SysAfter(limit, steps, n - 1), steps[n - 1], a);
  }

  /**
   * An appointment gets a second ticket exactly when a check-in of it commits whose update found it checked
   * in already, under every interleaving.
   */
  lemma {:induction false} FiledTwiceIffLateCommit(limit: int, steps: seq<Step>, n: nat, a: string)
    requires Possible(limit, steps) && n <= |steps|
    ensures FiledTwice(SysAfter(limit, steps, n).db, a) <==> exists i :: 0 <= i < n && CommitsLateAt(limit, steps, i, a)
  {
    if n == 0 {
    } else {
      FiledTwiceIffLateCommit(limit, steps, n - 1, a);
      EveryInterleavingKeepsInv(limit, steps, n - 1);
      EveryInterleavingKeepsCheckIns(limit, steps, n - 1);
      assert PossibleAt(limit, steps, n - 1);
      StepFilesTwice(limit, SysAfter(limit, steps, n - 1), steps[n - 1], a);
      LateSoFar(limit, steps, n, a);
    }
  }

  /** The row lock keeps the status from the update to the commit. */
  lemma LockKeepsStatus(limit: int, steps: seq<Step>, n: nat, tx: string, a: string)
    requires Possible(limit, steps) && n <= |steps|
    requires tx in SysAfter(limit, steps, n).txs && a in MarksOf(SysAfter(limit, steps, n).txs[tx])
    ensures var s := SysAfter(limit, steps, n);
      a in s.db.appointments && s.db.appointments[a].status == MarksOf(s.txs[tx])[a]
  {
    EveryInterleavingKeepsCheckIns(limit, steps, n);
    OwnWorkFiles(SysAfter(limit, steps, n), tx);
  }

  /** The step is an update that finds the appointment checked in. */
  ghost predicate MarksLateAt(limit: int, steps: seq<Step>, i: nat, tx: string, a: string)
    requires i < |steps|
  {
    steps[i] == MarkAppointment(tx, a) && IsCheckedIn(SysAfter(limit, steps, i).db, a)
  }

  lemma NewMarks(limit: int, s: Sys, step: Step, tx: string, a: string)
    requires CanStep(limit, s, step) && Holds(Next(limit, s, step), tx, a, CheckedIn)
    ensures Holds(s, tx, a, CheckedIn) || (step == MarkAppointment(tx, a) && IsCheckedIn(s.db, a))
  {
  }

  /** A mark that overwrote a check-in stems from an update that found one. */
  lemma {:induction false} LateMarkWasMade(limit: int, steps: seq<Step>, n: nat, tx: string, a: string) returns (i: nat)
    requires Possible(limit, steps) && n <= |steps|
    requires Holds(SysAfter(limit, steps, n), tx, a, CheckedIn)
    ensures i < n && MarksLateAt(limit, steps, i, tx, a)
  {
    i := 0;
    if n > 0 {
      assert PossibleAt(limit, steps, n - 1);
      NewMarks(limit, SysAfter(limit, steps, n - 1), steps[n - 1], tx, a);
      if Holds(SysAfter(limit, steps, n - 1), tx, a, CheckedIn) {
        i := LateMarkWasMade(limit, steps, n - 1, tx, a);
      } else {
        i := n - 1;
      }
    }
  }

  /** With the missing guard, an update that never finds its appointment checked in, nothing is filed twice. */
  lemma FiledOnceIfGuarded(limit: int, steps: seq<Step>, a: string)
    requires Possible(limit, steps)
    requires forall i, tx :: 0 <= i < |steps| ==> !MarksLateAt(limit, steps, i, tx, a)
    ensures !FiledTwice(Locking.Run(limit, steps).db, a)
  {
    FiledTwiceIffLateCommit(limit, steps, |steps|, a);
    forall i | 0 <= i < |steps| ensures !CommitsLateAt(limit, steps, i, a) {
      if CommitsLateAt(limit, steps, i, a) {
        var k := LateMarkWasMade(limit, steps, i, steps[i].tx, a);
      }
    }
  }

  // ------------------------------------------------------- check-ins and calls

  /** While a call holds a ticket, no check-in can mark the ticket's appointment. */
  lemma ChosenAppointmentIsLocked(limit: int, s: Sys, tx: string, other: string, a: string)
    requires tx in s.txs && s.txs[tx].Chosen? && s.txs[tx].row.appointmentId == Some(a) && other != tx
    ensures !CanStep(limit, s, MarkAppointment(other, a))
  {
    assert a in HeldBy(s.txs[tx]);
    assert a in HeldByOthers(s, other);
  }

  /** While a check-in has marked an appointment, no select of a call sees a ticket of it. */
  lemma MarkedAppointmentIsSkipped(s: Sys, tx: string, other: string, a: string, id: string, key: Key)
    requires other in s.txs && other != tx && a in MarksOf(s.txs[other])
    requires Filed(s.db, id, a)
    ensures id !in SelectView(s, tx, key)
  {
    assert a in HeldBy(s.txs[other]);
    assert a in HeldByOthers(s, tx);
  }
}
