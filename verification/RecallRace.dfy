/**
 * One ticket's row and log while recalls run beside the guarded updates: a recall reads the row without a
 * lock, and its event is appended later, from what it read.
 */
module RecallRace {
  import opened Basics
  import opened Transitions
  import opened EventLog
  import opened Tickets
  import opened StoreSpec
  import opened StoreInvariants

  /** A recall in progress: the row as it read it, and how many updates had been committed by then. */
  datatype Open = Open(row: TicketRow, version: nat)

  /** The committed row and log, the number of committed updates, the latest call's time, the open recalls. */
  datatype Desk = Desk(row: TicketRow, log: seq<TicketEvent>, version: nat, lastCall: Option<Time>,
                       recalls: map<string, Open>)

  /** An update writes row and event in one transaction under the row's lock; an append commits a recall. */
  datatype Step =
    | Update(m: Move, requestId: string, now: Time)
    | Read(tx: string)
    | Append(tx: string, requestId: string, now: Time)
    | Drop(tx: string)

  predicate CanStep(d: Desk, step: Step) {
    match step
    case Update(m, _, _) => Guard(d.row, m) && !m.Recall?
    case Read(tx) => tx !in d.recalls && d.row.status == Called
    case Append(tx, _, _) => tx in d.recalls
    case Drop(tx) => tx in d.recalls
  }

  function MoveEvent(codec: Codec, log: seq<TicketEvent>, row: TicketRow, m: Move, requestId: string,
                     now: Time): TicketEvent {
    NextEvent(codec, log, row.ticketId, MoveKind(m), MovePayload(row, m, requestId), now)
  }

  function Next(codec: Codec, d: Desk, step: Step): Desk
    requires CanStep(d, step)
  {
    match step
    case Update(m, requestId, now) =>
      d.(row := After(d.row, m), log := d.log + [MoveEvent(codec, d.log, d.row, m, requestId, now)],
         version := d.version + 1, lastCall := if m.Call? then Some(m.at) else d.lastCall)
    case Read(tx) => d.(recalls := d.recalls[tx := Open(d.row, d.version)])
    case Append(tx, requestId, now) =>
      d.(log := d.log + [MoveEvent(codec, d.log, d.recalls[tx].row, Recall, requestId, now)],
         recalls := d.recalls - {tx})
    case Drop(tx) => d.(recalls := d.recalls - {tx})
  }

  function StateAt(codec: Codec, d: Desk, steps: seq<Step>, n: nat): Desk
    requires n <= |steps|
  {
    if n == 0 then d else
    var before := StateAt(codec, d, steps, n - 1);
    if CanStep(before, steps[n - 1]) then Next(codec, before, steps[n - 1]) else before
  }

  ghost predicate PossibleAt(codec: Codec, d: Desk, steps: seq<Step>, i: nat)
    requires i < |steps|
  {
    CanStep(StateAt(codec, d, steps, i), steps[i])
  }

  ghost predicate Possible(codec: Codec, d: Desk, steps: seq<Step>) {
    forall i :: 0 <= i < |steps| ==> PossibleAt(codec, d, steps, i)
  }

  // ------------------------------------------------------------ one late event

  predicate SameTicket(a: TicketRow, b: TicketRow) {
    && a.ticketId == b.ticketId && a.ticketNumber == b.ticketNumber && a.tenantId == b.tenantId
    && a.branchId == b.branchId && a.createdAt == b.createdAt
  }

  /** What a recall read is, as far as its event tells, still the row. */
  predicate UpToDate(read: TicketRow, row: TicketRow) {
    && row.status == Called && row.counterId == read.counterId && row.calledAt == read.calledAt
    && OrKeep(read.serviceId, row.serviceId) == row.serviceId
    && OrElse(read.servedAt, row.servedAt) == row.servedAt
  }

  lemma RecallKeepsStory(log: seq<TicketEvent>, e: TicketEvent)
    requires e.entry.kind == MoveKind(Recall) && CallsAlternate(log)
    ensures CallsAlternate(log + [e]) && (CallStands(log + [e]) <==> CallStands(log))
    ensures EverCalled(log + [e]) <==> EverCalled(log)
  {
    assert MoveKind(Recall)[7] == 'r' && CALLED[7] == 'c' && TRANSFERRED[7] == 't' && NO_SHOW[7] == 'n';
    EverCalledExtends(log, e);
    AlternationExtends(log, e);
    assert (log + [e])[..|log|] == log;
  }

  /** The event of a recall keeps row and log in agreement exactly when it is up to date. */
  lemma RecallIsFaithfulIff(row: TicketRow, log: seq<TicketEvent>, read: TicketRow, requestId: string, e: TicketEvent)
    requires TicketOk(row, log) && SameTicket(read, row)
    requires RowShape(read) && read.status == Called
    requires e.entry.kind == MoveKind(Recall) && e.body == Json(MovePayload(read, Recall, requestId))
    ensures TicketOk(row, log + [e]) <==> UpToDate(read, row)
  {
    RecallKeepsStory(log, e);
    assert (log + [e])[..|log|] == log;
    assert Replay(log + [e]) == Some(Absorb(Replay(log).value, MovePayload(read, Recall, requestId)));
  }

  // ---------------------------------------------------- what every run keeps

  /** What recalls have read is this ticket as it was: called, and unchanged if nothing was committed since. */
  ghost predicate ReadOk(d: Desk, open: Open) {
    && SameTicket(open.row, d.row) && RowShape(open.row) && open.row.status == Called
    && open.version <= d.version && (open.version == d.version ==> open.row == d.row)
  }

  /** The row's shape, an unbroken hash chain, and the story of calls and requeues, whatever recalls append. */
  ghost predicate DeskInv(codec: Codec, d: Desk) {
    && RowShape(d.row) && ChainOk(codec, d.log) && NoBar(d.row.ticketId) && Replay(d.log).Some?
    && CallsAlternate(d.log) && (CallStands(d.log) <==> AtCounter(d.row.status))
    && forall tx :: tx in d.recalls ==> ReadOk(d, d.recalls[tx])
  }

  /** A ticket as committed transactions leave it, no recall in progress. */
  ghost predicate Settled(codec: Codec, d: Desk) {
    TicketOk(d.row, d.log) && ChainOk(codec, d.log) && NoBar(d.row.ticketId) && d.recalls == map[]
  }

  lemma MoveKeepsStory(row: TicketRow, log: seq<TicketEvent>, m: Move, requestId: string, e: TicketEvent)
    requires CallsAlternate(log) && (CallStands(log) <==> AtCounter(row.status)) && Guard(row, m)
    requires e.entry.kind == MoveKind(m) && e.body == Json(MovePayload(row, m, requestId))
    ensures CallsAlternate(log + [e]) && (CallStands(log + [e]) <==> AtCounter(After(row, m).status))
  {
    assert (log + [e])[..|log|] == log;
    if IsCall(e) {
      assert m.Call?;
    }
    AlternationExtends(log, e);
  }

  lemma ReplayAbsorbs(log: seq<TicketEvent>, e: TicketEvent, p: Payload)
    requires Replay(log).Some? && e.body == Json(p)
    ensures Replay(log + [e]) == Some(Absorb(Replay(log).value, p))
  {
    assert (log + [e])[..|log|] == log;
  }

  lemma UpdateKeepsInv(codec: Codec, d: Desk, m: Move, requestId: string, now: Time)
    requires CodecOk(codec) && DeskInv(codec, d) && CanStep(d, Update(m, requestId, now))
    ensures DeskInv(codec, Next(codec, d, Update(m, requestId, now)))
  {
    var e := MoveEvent(codec, d.log, d.row, m, requestId, now);
    MoveKeepsShape(d.row, m);
    MoveKeepsStory(d.row, d.log, m, requestId, e);
    ReplayAbsorbs(d.log, e, MovePayload(d.row, m, requestId));
    KindsHaveNoBar(m);
    NextEventKeepsChain(codec, d.log, d.row.ticketId, MoveKind(m), MovePayload(d.row, m, requestId), now);
    UpdateKeepsReads(d, Next(codec, d, Update(m, requestId, now)), m);
  }

  lemma UpdateKeepsReads(d: Desk, d': Desk, m: Move)
    requires d'.recalls == d.recalls && d'.row == After(d.row, m) && d'.version == d.version + 1
    requires forall tx :: tx in d.recalls ==> ReadOk(d, d.recalls[tx])
    ensures forall tx :: tx in d'.recalls ==> ReadOk(d', d'.recalls[tx])
  {
    assert SameTicket(d.row, d'.row);
    forall tx | tx in d'.recalls ensures ReadOk(d', d'.recalls[tx]) {
      assert ReadOk(d, d.recalls[tx]);
    }
  }

  lemma AppendKeepsInv(codec: Codec, d: Desk, tx: string, requestId: string, now: Time)
    requires CodecOk(codec) && DeskInv(codec, d) && CanStep(d, Append(tx, requestId, now))
    ensures DeskInv(codec, Next(codec, d, Append(tx, requestId, now)))
  {
    var read := d.recalls[tx].row;
    var e := MoveEvent(codec, d.log, read, Recall, requestId, now);
    assert ReadOk(d, d.recalls[tx]);
    RecallKeepsStory(d.log, e);
    ReplayAbsorbs(d.log, e, MovePayload(read, Recall, requestId));
    KindsHaveNoBar(Recall);
    NextEventKeepsChain(codec, d.log, read.ticketId, MoveKind(Recall), MovePayload(read, Recall, requestId), now);
    assert forall t :: t in d.recalls ==> ReadOk(d, d.recalls[t]);
  }

  lemma StepKeepsInv(codec: Codec, d: Desk, step: Step)
    requires CodecOk(codec) && DeskInv(codec, d) && CanStep(d, step)
    ensures DeskInv(codec, Next(codec, d, step))
  {
    match step
    case Update(m, requestId, now) => UpdateKeepsInv(codec, d, m, requestId, now);
    case Append(tx, requestId, now) => AppendKeepsInv(codec, d, tx, requestId, now);
    case Read(tx) =>
      assert ReadOk(d, Open(d.row, d.version));
      assert forall t :: t in d.recalls ==> ReadOk(d, d.recalls[t]);
    case Drop(tx) =>
      assert forall t :: t in d.recalls ==> ReadOk(d, d.recalls[t]);
  }

  /** Late recalls or not: the chain verifies, and two calls of the ticket have a requeue between them. */
  lemma {:induction false} EveryRunKeepsInv(codec: Codec, d: Desk, steps: seq<Step>, n: nat)
    requires CodecOk(codec) && Settled(codec, d) && Possible(codec, d, steps) && n <= |steps|
    ensures DeskInv(codec, StateAt(codec, d, steps, n))
  {
    if n == 0 {
    } else {
      EveryRunKeepsInv(codec, d, steps, n - 1);
      assert PossibleAt(codec, d, steps, n - 1);
      StepKeepsInv(codec, StateAt(codec, d, steps, n - 1), steps[n - 1]);
    }
  }

  // -------------------------------------------------------------- exactness

  ghost predicate AgreesAt(codec: Codec, d: Desk, steps: seq<Step>, n: nat)
    requires n <= |steps|
  {
    TicketOk(StateAt(codec, d, steps, n).row, StateAt(codec, d, steps, n).log)
  }

  /** The step is no append of an event that is out of date. */
  predicate TimelyAppend(d: Desk, step: Step) {
    step.Append? && step.tx in d.recalls ==> UpToDate(d.recalls[step.tx].row, d.row)
  }

  ghost predicate TimelyAt(codec: Codec, d: Desk, steps: seq<Step>, i: nat)
    requires i < |steps|
  {
    TimelyAppend(StateAt(codec, d, steps, i), steps[i])
  }

  /** A step keeps row and log in agreement exactly when it is no late append. */
  lemma StepAgreesIff(codec: Codec, d: Desk, step: Step)
    requires DeskInv(codec, d) && CanStep(d, step) && TicketOk(d.row, d.log)
    ensures TicketOk(Next(codec, d, step).row, Next(codec, d, step).log) <==> TimelyAppend(d, step)
  {
    match step
    case Update(m, requestId, now) =>
      MoveIsFaithful(d.row, d.log, m, requestId, MoveEvent(codec, d.log, d.row, m, requestId, now));
    case Append(tx, requestId, now) =>
      var read := d.recalls[tx].row;
      assert ReadOk(d, d.recalls[tx]);
      RecallIsFaithfulIff(d.row, d.log, read, requestId, MoveEvent(codec, d.log, read, Recall, requestId, now));
    case _ =>
  }

  lemma {:induction false} AgreesUpTo(codec: Codec, d: Desk, steps: seq<Step>, n: nat)
    requires CodecOk(codec) && Settled(codec, d) && Possible(codec, d, steps) && n <= |steps|
    requires forall i :: 0 <= i < n ==> TimelyAt(codec, d, steps, i)
    ensures AgreesAt(codec, d, steps, n)
  {
    if n == 0 {
    } else {
      AgreesUpTo(codec, d, steps, n - 1);
      EveryRunKeepsInv(codec, d, steps, n - 1);
      assert PossibleAt(codec, d, steps, n - 1) && TimelyAt(codec, d, steps, n - 1);
      StepAgreesIff(codec, StateAt(codec, d, steps, n - 1), steps[n - 1]);
    }
  }

  ghost predicate AgreesThroughout(codec: Codec, d: Desk, steps: seq<Step>) {
    forall n :: 0 <= n <= |steps| ==> AgreesAt(codec, d, steps, n)
  }

  ghost predicate AllTimely(codec: Codec, d: Desk, steps: seq<Step>) {
    forall i :: 0 <= i < |steps| ==> TimelyAt(codec, d, steps, i)
  }

  /** Over all runs: the replay matches the row at every moment exactly when no recall appends a late event. */
  lemma AgreesThroughoutIff(codec: Codec, d: Desk, steps: seq<Step>)
    requires CodecOk(codec) && Settled(codec, d) && Possible(codec, d, steps)
    ensures AgreesThroughout(codec, d, steps) <==> AllTimely(codec, d, steps)
  {
    if AllTimely(codec, d, steps) {
      forall n | 0 <= n <= |steps| ensures AgreesAt(codec, d, steps, n) {
        AgreesUpTo(codec, d, steps, n);
      }
    }
    if AgreesThroughout(codec, d, steps) {
      forall i | 0 <= i < |steps| ensures TimelyAt(codec, d, steps, i) {
        EveryRunKeepsInv(codec, d, steps, i);
        assert PossibleAt(codec, d, steps, i) && AgreesAt(codec, d, steps, i) && AgreesAt(codec, d, steps, i + 1);
        StepAgreesIff(codec, StateAt(codec, d, steps, i), steps[i]);
      }
    }
  }

  // ------------------------------------------------------- the status it shows

  /** The last event was appended by a recall when the ticket was no longer called. */
  ghost predicate ShowsLateRecall(codec: Codec, d: Desk, steps: seq<Step>, n: nat)
    requires n <= |steps|
  {
    if n == 0 then false else
    var before := StateAt(codec, d, steps, n - 1);
    match steps[n - 1]
    case Append(_, _, _) => before.row.status != Called
    case Update(_, _, _) => false
    case _ => ShowsLateRecall(codec, d, steps, n - 1)
  }

  predicate ShowsStatus(d: Desk) {
    Replay(d.log).Some? && Replay(d.log).value.status == Some(d.row.status)
  }

  lemma UpdateShowsStatus(codec: Codec, d: Desk, m: Move, requestId: string, now: Time)
    requires DeskInv(codec, d) && CanStep(d, Update(m, requestId, now))
    ensures ShowsStatus(Next(codec, d, Update(m, requestId, now)))
  {
    ReplayAbsorbs(d.log, MoveEvent(codec, d.log, d.row, m, requestId, now), MovePayload(d.row, m, requestId));
  }

  lemma AppendShowsStatus(codec: Codec, d: Desk, tx: string, requestId: string, now: Time)
    requires DeskInv(codec, d) && CanStep(d, Append(tx, requestId, now))
    ensures ShowsStatus(Next(codec, d, Append(tx, requestId, now))) <==> d.row.status == Called
  {
    var read := d.recalls[tx].row;
    assert ReadOk(d, d.recalls[tx]);
    ReplayAbsorbs(d.log, MoveEvent(codec, d.log, read, Recall, requestId, now), MovePayload(read, Recall, requestId));
  }

  lemma StepShowsStatus(codec: Codec, d: Desk, step: Step)
    requires DeskInv(codec, d) && CanStep(d, step)
    ensures match step
      case Append(_, _, _) => ShowsStatus(Next(codec, d, step)) <==> d.row.status == Called
      case Update(_, _, _) => ShowsStatus(Next(codec, d, step))
      case _ => ShowsStatus(Next(codec, d, step)) <==> ShowsStatus(d)
  {
    match step
    case Update(m, requestId, now) => UpdateShowsStatus(codec, d, m, requestId, now);
    case Append(tx, requestId, now) => AppendShowsStatus(codec, d, tx, requestId, now);
    case _ =>
  }

  /** At any moment the replay shows the row's status unless the last event is a late recall's. */
  lemma {:induction false} ReplayStatusIff(codec: Codec, d: Desk, steps: seq<Step>, n: nat)
    requires CodecOk(codec) && Settled(codec, d) && Possible(codec, d, steps) && n <= |steps|
    ensures ShowsStatus(StateAt(codec, d, steps, n)) <==> !ShowsLateRecall(codec, d, steps, n)
  {
    if n == 0 {
    } else {
      ReplayStatusIff(codec, d, steps, n - 1);
      EveryRunKeepsInv(codec, d, steps, n - 1);
      assert PossibleAt(codec, d, steps, n - 1);
      StepShowsStatus(codec, StateAt(codec, d, steps, n - 1), steps[n - 1]);
    }
  }

  // ---------------------------------------------- no update between read and append

  /** The step is no append of a recall since whose read an update has been committed. */
  predicate UndisturbedAppend(d: Desk, step: Step) {
    step.Append? && step.tx in d.recalls ==> d.recalls[step.tx].version == d.version
  }

  ghost predicate UndisturbedAt(codec: Codec, d: Desk, steps: seq<Step>, i: nat)
    requires i < |steps|
  {
    UndisturbedAppend(StateAt(codec, d, steps, i), steps[i])
  }

  /** A call carries a later time than the calls of this ticket before it. */
  predicate CallIsLater(d: Desk, step: Step) {
    step.Update? && step.m.Call? && d.lastCall.Some? ==> step.m.at > d.lastCall.value
  }

  ghost predicate LaterAt(codec: Codec, d: Desk, steps: seq<Step>, i: nat)
    requires i < |steps|
  {
    CallIsLater(StateAt(codec, d, steps, i), steps[i])
  }

  ghost predicate CallsGetLater(codec: Codec, d: Desk, steps: seq<Step>) {
    (d.row.status == Called ==> d.row.calledAt == d.lastCall) &&
    forall i :: 0 <= i < |steps| ==> LaterAt(codec, d, steps, i)
  }

  /** A called row bears the latest call's time, and what was read before an update an earlier one. */
  ghost predicate LaterInv(d: Desk) {
    && (d.row.status == Called ==> d.row.calledAt == d.lastCall)
    && forall tx :: tx in d.recalls ==> ReadBefore(d, d.recalls[tx])
  }

  ghost predicate ReadBefore(d: Desk, open: Open) {
    && open.row.calledAt.Some? && d.lastCall.Some? && open.row.calledAt.value <= d.lastCall.value
    && (open.version < d.version && d.row.status == Called ==> open.row.calledAt.value < d.lastCall.value)
  }

  lemma StepKeepsLater(codec: Codec, d: Desk, step: Step)
    requires DeskInv(codec, d) && LaterInv(d) && CanStep(d, step) && CallIsLater(d, step)
    ensures LaterInv(Next(codec, d, step))
  {
    var d' := Next(codec, d, step);
    forall tx | tx in d'.recalls ensures ReadBefore(d', d'.recalls[tx]) {
      assert tx in d.recalls ==> ReadOk(d, d.recalls[tx]) && ReadBefore(d, d.recalls[tx]);
    }
  }

  lemma {:induction false} EveryRunKeepsLater(codec: Codec, d: Desk, steps: seq<Step>, n: nat)
    requires CodecOk(codec) && Settled(codec, d) && Possible(codec, d, steps) && CallsGetLater(codec, d, steps)
    requires n <= |steps|
    ensures LaterInv(StateAt(codec, d, steps, n))
  {
    if n == 0 {
    } else {
      EveryRunKeepsLater(codec, d, steps, n - 1);
      EveryRunKeepsInv(codec, d, steps, n - 1);
      assert PossibleAt(codec, d, steps, n - 1) && LaterAt(codec, d, steps, n - 1);
      StepKeepsLater(codec, StateAt(codec, d, steps, n - 1), steps[n - 1]);
    }
  }

  lemma TimelyIffUndisturbed(codec: Codec, d: Desk, step: Step)
    requires DeskInv(codec, d) && CanStep(d, step)
    ensures UndisturbedAppend(d, step) ==> TimelyAppend(d, step)
    ensures LaterInv(d) ==> (TimelyAppend(d, step) <==> UndisturbedAppend(d, step))
  {
    if step.Append? {
      assert ReadOk(d, d.recalls[step.tx]);
      assert LaterInv(d) ==> ReadBefore(d, d.recalls[step.tx]);
    }
  }

  /**
   * When the calls of the ticket carry ever later times, the replay matches the row at every moment exactly
   * when no update of it is committed between a recall's read and its append.
   */
  lemma AgreesIffUndisturbed(codec: Codec, d: Desk, steps: seq<Step>)
    requires CodecOk(codec) && Settled(codec, d) && Possible(codec, d, steps) && CallsGetLater(codec, d, steps)
    ensures AgreesThroughout(codec, d, steps) <==> forall i :: 0 <= i < |steps| ==> UndisturbedAt(codec, d, steps, i)
  {
    AgreesThroughoutIff(codec, d, steps);
    forall i | 0 <= i < |steps| ensures TimelyAt(codec, d, steps, i) <==> UndisturbedAt(codec, d, steps, i) {
      EveryRunKeepsInv(codec, d, steps, i);
      EveryRunKeepsLater(codec, d, steps, i);
      assert PossibleAt(codec, d, steps, i);
      TimelyIffUndisturbed(codec, StateAt(codec, d, steps, i), steps[i]);
    }
  }

  /** Whatever the times: with no update in between, the replay matches. */
  lemma UndisturbedAgrees(codec: Codec, d: Desk, steps: seq<Step>)
    requires CodecOk(codec) && Settled(codec, d) && Possible(codec, d, steps)
    requires forall i :: 0 <= i < |steps| ==> UndisturbedAt(codec, d, steps, i)
    ensures AgreesThroughout(codec, d, steps)
  {
    AgreesThroughoutIff(codec, d, steps);
    forall i | 0 <= i < |steps| ensures TimelyAt(codec, d, steps, i) {
      EveryRunKeepsInv(codec, d, steps, i);
      assert PossibleAt(codec, d, steps, i) && UndisturbedAt(codec, d, steps, i);
      TimelyIffUndisturbed(codec, StateAt(codec, d, steps, i), steps[i]);
    }
  }

  lemma StepsOn(codec: Codec, d: Desk, steps: seq<Step>, i: nat, before: Desk)
    requires i < |steps| && StateAt(codec, d, steps, i) == before && CanStep(before, steps[i])
    ensures PossibleAt(codec, d, steps, i) && StateAt(codec, d, steps, i + 1) == Next(codec, before, steps[i])
  {
  }

  /** Any called ticket can be recalled late: it is served, and its log ends up showing it called. */
  lemma LateRecallShowsCalled(codec: Codec, d: Desk, now: Time) returns (steps: seq<Step>)
    requires CodecOk(codec) && Settled(codec, d) && d.row.status == Called
    ensures Possible(codec, d, steps)
    ensures var end := StateAt(codec, d, steps, |steps|);
      && end.row.status == Serving
      && Replay(end.log).Some? && Replay(end.log).value.status == Some(Called)
  {
    var start := Update(Start(d.row.counterId.value, now), "start", now);
    steps := [Read("recall"), start, Append("recall", "again", now)];
    var d1 := Next(codec, d, steps[0]);
    var d2 := Next(codec, d1, steps[1]);
    StepsOn(codec, d, steps, 0, d);
    StepsOn(codec, d, steps, 1, d1);
    StepsOn(codec, d, steps, 2, d2);
    ReplayAbsorbs(d1.log, MoveEvent(codec, d1.log, d.row, start.m, "start", now), MovePayload(d.row, start.m, "start"));
    ReplayAbsorbs(d2.log, MoveEvent(codec, d2.log, d.row, Recall, "again", now), MovePayload(d.row, Recall, "again"));
  }
}
