/** Interleavings that can happen: an appointment is called, and concurrent check-ins file one twice. */
module LockingRuns {
  import opened Basics
  import opened Transitions
  import opened Tickets
  import opened Routing
  import opened Selects
  import opened StoreSpec
  import opened Locking
  import opened LockingCheckIns

  // ------------------------------------------------------------ building runs

  lemma {:induction false} SysAfterExtends(limit: int, steps: seq<Step>, step: Step, n: nat)
    requires n <= |steps|
    ensures SysAfter(limit, steps + [step], n) == SysAfter(limit, steps, n)
  {
    if n > 0 {
      SysAfterExtends(limit, steps, step, n - 1);
    }
  }

  /** A possible run that ends in this system. */
  ghost predicate LeadsTo(limit: int, steps: seq<Step>, s: Sys) {
    Possible(limit, steps) && Locking.Run(limit, steps) == s
  }

  /** A run to s extends by a step to the state it names. */
  lemma Reaches(limit: int, steps: seq<Step>, s: Sys, step: Step, next: Sys) returns (more: seq<Step>)
    requires LeadsTo(limit, steps, s)
    requires CanStep(limit, s, step) && Next(limit, s, step) == next
    ensures LeadsTo(limit, more, next)
  {
    more := steps + [step];
    forall i | 0 <= i < |more| ensures PossibleAt(limit, more, i) {
      SysAfterExtends(limit, steps, step, i);
      assert i < |steps| ==> PossibleAt(limit, steps, i);
    }
    SysAfterExtends(limit, steps, step, |steps|);
  }

  const DESK := Key("tenant", "branch", "service")

  function DeskRow(id: string, appointment: string): TicketRow {
    TicketRow(id, id, id, DESK.tenantId, DESK.branchId, DESK.serviceId,
              Waiting, REGULAR, 0, None, None, None, None, false,
              Some(appointment))
  }

  // -------------------------------------------------------------- a check-in

  /** The check-in of an appointment that the transaction has seen scheduled, up to its commit. */
  function CheckedInto(s: Sys, tx: string, id: string, a: string): Sys
    requires a in s.db.appointments
  {
    s.(db := s.db.(tickets := s.db.tickets[id := DeskRow(id, a)],
                   appointments := s.db.appointments[a := s.db.appointments[a].(status := CheckedIn)]),
       txs := s.txs - {tx},
       period := s.period[id := PeriodOf(s, id) + 1])
  }

  function Marking(s: Sys, a: string): map<string, AppointmentStatus>
    requires a in s.db.appointments
  {
    map[a := s.db.appointments[a].status]
  }

  lemma FinishCheckIn(limit: int, steps: seq<Step>, s: Sys, tx: string, id: string, a: string) returns (more: seq<Step>)
    requires LeadsTo(limit, steps, s)
    requires tx in s.txs && s.txs[tx] == Moving(map[], {a}, map[]) && s.period.Keys <= s.db.tickets.Keys
    requires forall t :: t in s.txs && t != tx ==> PendingOf(s.txs[t]) == map[] && HeldBy(s.txs[t]) == {}
    requires id !in s.db.tickets && a in s.db.appointments
    requires KeyOf(DeskRow(id, a)) ==
        Key(s.db.appointments[a].tenantId, s.db.appointments[a].branchId, s.db.appointments[a].serviceId)
    ensures LeadsTo(limit, more, CheckedInto(s, tx, id, a))
  {
    var marked := s.(txs := s.txs[tx := Moving(map[], {a}, Marking(s, a))]);
    var filed := s.(txs := s.txs[tx := Moving(map[id := DeskRow(id, a)], {a}, Marking(s, a))]);
    more := Reaches(limit, steps, s, MarkAppointment(tx, a), marked);
    assert LockedByOthers(marked, tx) == {};
    more := Reaches(limit, more, marked, InsertRow(tx, DeskRow(id, a)), filed);
    CommitsCheckIn(s, filed, tx, id, a);
    assert Files(filed, tx, id, a);
    more := Reaches(limit, more, filed, Commit(tx), CheckedInto(s, tx, id, a));
  }

  lemma CommitsCheckIn(s: Sys, filed: Sys, tx: string, id: string, a: string)
    requires tx in s.txs && id !in s.db.tickets && a in s.db.appointments && s.period.Keys <= s.db.tickets.Keys
    requires filed == s.(txs := s.txs[tx := Moving(map[id := DeskRow(id, a)], {a}, Marking(s, a))])
    ensures Committed(filed, tx) == CheckedInto(s, tx, id, a)
  {
    AddsOneRow(s.db.tickets, id, DeskRow(id, a));
    MarksOne(s.db.appointments, a);
    assert Marking(s, a).Keys == {a};
    assert filed.txs - {tx} == s.txs - {tx};
    PeriodBegins(filed, tx, id, DeskRow(id, a));
  }

  lemma MarksOne(appointments: map<string, Appointment>, a: string)
    requires a in appointments
    ensures CheckedInAll(appointments, {a}) == appointments[a := appointments[a].(status := CheckedIn)]
  {
  }

  lemma PeriodBegins(s: Sys, tx: string, id: string, row: TicketRow)
    requires tx in s.txs && s.txs[tx].Moving? && s.txs[tx].pending == map[id := row] && row.status == Waiting
    requires id !in s.db.tickets
    ensures Committed(s, tx).period == s.period[id := PeriodOf(s, id) + 1]
  {
  }

  /** The system in which an appointment has been booked and nothing else has happened. */
  function Booked(a: string, at: Time): Sys {
    var appointment := Appointment(DESK.tenantId, DESK.branchId, DESK.serviceId, at, Scheduled);
    IDLE.(db := EMPTY_DB.(appointments := map[a := appointment]))
  }

  lemma BookAndSee(limit: int, a: string, at: Time, tx: string) returns (steps: seq<Step>)
    ensures LeadsTo(limit, steps, Booked(a, at).(txs := map[tx := Moving(map[], {a}, map[])]))
  {
    var appointment := Appointment(DESK.tenantId, DESK.branchId, DESK.serviceId, at, Scheduled);
    var begun := Booked(a, at).(txs := map[tx := Moving(map[], {}, map[])]);
    steps := Reaches(limit, [], IDLE, Step.Book(a, appointment), Booked(a, at));
    steps := Reaches(limit, steps, Booked(a, at), Begin(tx), begun);
    assert {} + {a} == {a};
    steps := Reaches(limit, steps, begun, SeeAppointment(tx, a),
                     Booked(a, at).(txs := map[tx := Moving(map[], {a}, map[])]));
  }

  // ------------------------------------------------------------------- a call

  const PLAIN := Policy(0, 0, 0)

  ghost predicate CalledAnAppointment(s: Sys, key: Key) {
    exists i :: 0 <= i < |CallsOf(s, key)| && CallsAppointment(RecordOf(CallsOf(s, key)[i]))
  }

  lemma OnlyFiledIsSeen(s: Sys, tx: string, id: string, a: string, at: Time)
    requires s.txs.Keys == {tx} && s.db.tickets == map[id := DeskRow(id, a)]
    requires a in s.db.appointments && s.db.appointments[a].scheduledAt == at
    ensures SelectView(s, tx, DESK) == map[id := Candidate(REGULAR, 0, Some(at))]
  {
  }

  /** Without quota and boost a regular appointment is found by the seventh select, or the eighth. */
  function FoundAt(p: Preference): nat {
    if p.regular then 6 else 7
  }

  lemma FoundThen(p: Preference, at: Time, i: nat)
    requires !p.appointment && p.boostCutoff.None?
    ensures i < FoundAt(p) ==> !StageMatches(p, i, Candidate(REGULAR, 0, Some(at)))
    ensures StageMatches(p, FoundAt(p), Candidate(REGULAR, 0, Some(at)))
  {
  }

  /** The desk's call while this is all it sees, after n selects. */
  function Searching(s: Sys, view: View, n: nat): Sys {
    s.(txs := map["counter" := Selecting(DESK, RoutingOf(s.db, DESK), PLAIN, 0, seq(n, _ => view))])
  }

  lemma {:induction false} SelectsInVain(limit: int, steps: seq<Step>, s: Sys, id: string, a: string, at: Time, n: nat)
      returns (more: seq<Step>)
    requires LeadsTo(limit, steps, s) && s.txs == map[]
    requires s.db.tickets == map[id := DeskRow(id, a)] && a in s.db.appointments &&
        s.db.appointments[a].scheduledAt == at
    requires n <= FoundAt(Prefer(limit, RoutingOf(s.db, DESK), PLAIN, 0))
    ensures LeadsTo(limit, more, Searching(s, map[id := Candidate(REGULAR, 0, Some(at))], n))
  {
    var view := map[id := Candidate(REGULAR, 0, Some(at))];
    if n == 0 {
      assert seq(0, _ => view) == [];
      assert s.txs["counter" := Selecting(DESK, RoutingOf(s.db, DESK), PLAIN, 0, [])] == Searching(s, view, 0).txs;
      more := Reaches(limit, steps, s, LockRoute("counter", DESK, PLAIN, 0), Searching(s, view, 0));
    } else {
      more := SelectsInVain(limit, steps, s, id, a, at, n - 1);
      var before := Searching(s, view, n - 1);
      OnlyFiledIsSeen(before, "counter", id, a, at);
      FoundThen(Prefer(limit, RoutingOf(s.db, DESK), PLAIN, 0), at, n - 1);
      assert seq(n - 1, _ => view) + [view] == seq(n, _ => view);
      more := Reaches(limit, more, before, SelectNone("counter"), Searching(s, view, n));
    }
  }

  /** The call that has chosen this ticket after its selects. */
  function Searched(s: Sys, limit: int, view: View, id: string): StagedCall {
    var n := FoundAt(Prefer(limit, RoutingOf(s.db, DESK), PLAIN, 0));
    StagedCall(PLAIN, 0, id, seq(n, _ => view) + [view])
  }

  function Choosing(s: Sys, call: StagedCall, row: TicketRow): Sys {
    s.(txs := map["counter" := Chosen(DESK, RoutingOf(s.db, DESK), call, "c", After(row, Call("c", 0)))])
  }

  lemma ChoosesFiled(limit: int, steps: seq<Step>, s: Sys, id: string, a: string, at: Time) returns (more: seq<Step>)
    requires LeadsTo(limit, steps, s) && s.txs == map[]
    requires s.db.tickets == map[id := DeskRow(id, a)] && a in s.db.appointments &&
        s.db.appointments[a].scheduledAt == at
    ensures LeadsTo(limit, more,
                    Choosing(s, Searched(s, limit, map[id := Candidate(REGULAR, 0, Some(at))], id), DeskRow(id, a)))
  {
    var p, view := Prefer(limit, RoutingOf(s.db, DESK), PLAIN, 0), map[id := Candidate(REGULAR, 0, Some(at))];
    var searched := Searching(s, view, FoundAt(p));
    more := SelectsInVain(limit, steps, s, id, a, at, FoundAt(p));
    OnlyFiledIsSeen(searched, "counter", id, a, at);
    FoundThen(p, at, FoundAt(p));
    more := Reaches(limit, more, searched, SelectOne("counter", "c", id),
                    Choosing(s, Searched(s, limit, view, id), DeskRow(id, a)));
  }

  /** One call of the desk's queue while only this checked-in ticket waits. */
  lemma CallFiled(limit: int, steps: seq<Step>, s: Sys, id: string, a: string, at: Time) returns (more: seq<Step>)
    requires LeadsTo(limit, steps, s) && s.txs == map[]
    requires s.db.tickets == map[id := DeskRow(id, a)] && a in s.db.appointments &&
        s.db.appointments[a].scheduledAt == at
    ensures Possible(limit, more) && CalledAnAppointment(Locking.Run(limit, more), DESK)
  {
    var call := Searched(s, limit, map[id := Candidate(REGULAR, 0, Some(at))], id);
    var chosen := Choosing(s, call, DeskRow(id, a));
    more := ChoosesFiled(limit, steps, s, id, a, at);
    more := Reaches(limit, more, chosen, Commit("counter"), Committed(chosen, "counter"));
    assert CallsOf(Committed(chosen, "counter"), DESK)[|CallsOf(s, DESK)|] == call;
  }

  /** The interleavings call appointments too: one is booked, checked in and called. */
  lemma AppointmentIsCalled(limit: int, at: Time)
    ensures exists steps :: Possible(limit, steps) && CalledAnAppointment(Locking.Run(limit, steps), DESK)
  {
    var steps := BookAndSee(limit, "a", at, "desk");
    var seen := Locking.Run(limit, steps);
    steps := FinishCheckIn(limit, steps, seen, "desk", "ticket", "a");
    steps := CallFiled(limit, steps, CheckedInto(seen, "desk", "ticket", "a"), "ticket", "a", at);
  }

  // ------------------------------------------------------------- two check-ins

  /**
   * Statement by statement an appointment can be checked in twice: both transactions see it scheduled
   * before either has marked it.
   */
  lemma ConcurrentCheckInsFileTwice(limit: int, at: Time)
    ensures exists steps :: Possible(limit, steps) && FiledTwice(Locking.Run(limit, steps).db, "a")
  {
    var steps := BookAndSee(limit, "a", at, "left");
    var one := Locking.Run(limit, steps);
    var two := one.(txs := one.txs["right" := Moving(map[], {}, map[])]);
    steps := Reaches(limit, steps, one, Begin("right"), two);
    assert {} + {"a"} == {"a"};
    var both := one.(txs := one.txs["right" := Moving(map[], {"a"}, map[])]);
    steps := Reaches(limit, steps, two, SeeAppointment("right", "a"), both);
    steps := FinishCheckIn(limit, steps, both, "left", "first", "a");
    var once := CheckedInto(both, "left", "first", "a");
    steps := FinishCheckIn(limit, steps, once, "right", "second", "a");
    assert Filed(Locking.Run(limit, steps).db, "first", "a") && Filed(Locking.Run(limit, steps).db, "second", "a");
  }
}
