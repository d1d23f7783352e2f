/** What every run of the producer, the poller, the worker and the cleaner keeps. */
module OutboxRuns {
  import opened Basics
  import opened Outbox

  // ---------------------------------------------------------------- the invariant

  ghost predicate TableInv(w: World) {
    && w.table <= w.ever && UniqueIds(w.ever) && w.pool <= w.ever
    && forall e :: e in w.ever ==> e.createdAt > EPOCH.time
  }

  function Batch(w: World): seq<Event> {
    if w.phase.Sending? then w.phase.batch else []
  }

  ghost predicate CursorInv(w: World) {
    && (w.saved.Some? ==> NotAfter(EPOCH, w.saved.value))
    && NotAfter(EPOCH, w.start)
    && w.cursor == PageEnd(w.start, w.life)
    && (w.phase.Sending? ==> w.phase.batch != [])
  }

  /** Sent and fetched together are, in ascending order, exactly the pool between start and horizon. */
  ghost predicate LifeInv(w: World) {
    && Ascending(w.life + Batch(w))
    && (forall e :: e in w.life + Batch(w) <==> e in w.pool && Above(e, w.start) && !Above(e, Horizon(w)))
    && (forall e :: Above(e, Horizon(w)) ==> (e in w.pool <==> e in w.table))
  }

  /** What was inserted ahead and not heard is fetched, or lies in the table ahead of the horizon. */
  ghost predicate HeardInv(w: World) {
    && (forall e :: e in w.life ==> e in w.heard)
    && (forall e :: e in w.ever && e !in w.late && e !in w.heard ==>
          e in w.table && AboveSaved(w, e) && (e in Batch(w) || Above(e, Horizon(w))))
  }

  /** The offsets are times since the zero time, and a computed clean-up bound stays behind both cursors. */
  ghost predicate BoundInv(w: World) {
    && ZERO_TIME <= Offset(w.notified) <= WorkerHorizon(w)
    && (w.worker.Working? ==> Offset(w.notified) <= w.worker.last)
    && (w.worker.Working? ==> forall e :: e in w.worker.todo ==> w.worker.last <= e.createdAt)
    && (w.worker.Working? ==> forall i, j :: 0 <= i < j < |w.worker.todo| ==>
        w.worker.todo[i].createdAt <= w.worker.todo[j].createdAt)
    && (w.phase.Cleaning? ==> w.phase.bound <= w.cursor.time && w.phase.bound <= Offset(w.notified))
  }

  ghost predicate Inv(w: World) {
    TableInv(w) && CursorInv(w) && LifeInv(w) && HeardInv(w) && BoundInv(w)
  }

  lemma StartInv()
    ensures Inv(START)
  {
  }

  // --------------------------------------------------------------- the paging order

  lemma AscendingEnd(start: Cursor, page: seq<Event>, e: Event)
    requires Ascending(page) && forall f :: f in page ==> Above(f, start)
    ensures NotAfter(start, PageEnd(start, page))
    ensures e in page ==> Above(e, start) && !Above(e, PageEnd(start, page))
  {
    if page != [] {
      assert page[|page| - 1] in page;
    }
    if e in page {
      var i :| 0 <= i < |page| && page[i] == e;
      assert i < |page| - 1 ==> Before(KeyOf(page[i]), KeyOf(page[|page| - 1]));
    }
  }

  /** In this state: the cursor lies between the start and the horizon, with the batch beyond it. */
  lemma CursorBetween(w: World, e: Event)
    requires CursorInv(w) && LifeInv(w)
    ensures NotAfter(w.start, w.cursor) && NotAfter(w.cursor, Horizon(w))
    ensures e in w.life ==> Above(e, w.start) && !Above(e, w.cursor)
    ensures e in Batch(w) ==> Above(e, w.cursor)
  {
    var all := w.life + Batch(w);
    forall f ensures f in w.life || f in Batch(w) <==> f in all { }
    AscendingEnd(w.start, w.life, e) by {
      forall i, j | 0 <= i < j < |w.life| ensures Before(KeyOf(w.life[i]), KeyOf(w.life[j])) {
        assert all[i] == w.life[i] && all[j] == w.life[j];
      }
    }
    forall j | 0 <= j < |Batch(w)| ensures Above(Batch(w)[j], w.cursor) {
      assert all[|w.life| + j] == Batch(w)[j];
      if w.life != [] {
        assert all[|w.life| - 1] == w.life[|w.life| - 1];
        assert Before(KeyOf(all[|w.life| - 1]), KeyOf(all[|w.life| + j]));
      } else {
        assert Batch(w)[j] in Batch(w);
      }
    }
  }

  // ------------------------------------------------------------ each step keeps it

  lemma InsertKeepsInv(w: World, e: Event)
    requires Inv(w) && CanStep(w, Insert(e))
    ensures Inv(Next(w, Insert(e)))
  {
    var w' := Next(w, Insert(e));
    assert Batch(w') == Batch(w) && Horizon(w') == Horizon(w);
    forall f | f in w.life + Batch(w) ensures f != e {
      assert f in w.pool;
    }
  }

  lemma PollListKeepsInv(w: World, page: seq<Event>, limit: nat)
    requires Inv(w) && CanStep(w, PollList(page, limit))
    ensures Inv(Next(w, PollList(page, limit)))
  {
    var w' := Next(w, PollList(page, limit));
    assert Batch(w) == [] && Batch(w') == page;
    assert w.life + [] == w.life;
    assert Horizon(w') == PageEnd(w.cursor, page);
    forall e | e in w.table
      ensures e in page <==> Above(e, w.cursor) && !Above(e, Horizon(w'))
      ensures Above(e, Horizon(w')) ==> Above(e, w.cursor)
    {
      PageJumpsNothing(w.table, w.cursor, limit, page, e);
    }
    PollListKeepsLife(w, page, limit);
  }

  lemma PollListKeepsLife(w: World, page: seq<Event>, limit: nat)
    requires Inv(w) && CanStep(w, PollList(page, limit))
    requires forall e :: e in w.table ==> (e in page <==> Above(e, w.cursor) && !Above(e, PageEnd(w.cursor, page)))
    ensures LifeInv(Next(w, PollList(page, limit)))
  {
    var w' := Next(w, PollList(page, limit));
    var end := PageEnd(w.cursor, page);
    assert w.life + Batch(w) == w.life && w'.life + Batch(w') == w.life + page;
    forall e ensures Above(e, end) ==> Above(e, w.cursor) ensures NotAfter(w.start, w.cursor) {
      AscendingEnd(w.cursor, page, e);
      CursorBetween(w, e);
    }
    forall e ensures e in w.life + page <==> e in w.pool && Above(e, w.start) && !Above(e, end) {
      assert e in w.life + page <==> e in w.life || e in page;
      assert e in page ==> e in w.table && Above(e, w.cursor);
    }
    forall i, j | 0 <= i < j < |w.life + page| ensures Before(KeyOf((w.life + page)[i]), KeyOf((w.life + page)[j])) {
      if i < |w.life| <= j {
        assert w.life[i] in w.life && page[j - |w.life|] in page;
        assert !Above(w.life[i], w.cursor) && Above(page[j - |w.life|], w.cursor);
      }
    }
  }

  lemma PollSendKeepsInv(w: World)
    requires Inv(w) && CanStep(w, PollSend)
    ensures Inv(Next(w, PollSend))
  {
    var w' := Next(w, PollSend);
    var e := w.phase.batch[0];
    assert Batch(w) == [e] + Batch(w');
    assert w.life + Batch(w) == w'.life + Batch(w');
    assert Horizon(w') == Horizon(w);
    forall f ensures f in Batch(w) <==> f == e || f in Batch(w') { }
  }

  lemma PollSaveKeepsInv(w: World, ok: bool)
    requires Inv(w) && CanStep(w, PollSave(ok))
    ensures Inv(Next(w, PollSave(ok)))
  {
    CursorBetween(w, Event(0, 0, ""));
    assert Horizon(w) == w.cursor;
  }

  lemma PollReadKeepsInv(w: World, ok: bool)
    requires Inv(w) && CanStep(w, PollRead(ok))
    ensures Inv(Next(w, PollRead(ok)))
  {
  }

  lemma PollCleanKeepsInv(w: World, ok: bool)
    requires Inv(w) && CanStep(w, PollClean(ok))
    ensures Inv(Next(w, PollClean(ok)))
  {
    var w' := Next(w, PollClean(ok));
    assert Horizon(w) == w.cursor == Horizon(w');
    forall e | e in w.table && Above(e, w.cursor) ensures e in w'.table { }
  }

  lemma RestartKeepsInv(w: World, loaded: bool)
    requires Inv(w) && CanStep(w, Restart(loaded))
    ensures Inv(Next(w, Restart(loaded)))
  {
    var w' := Next(w, Restart(loaded));
    assert NotAfter(EPOCH, w'.cursor) && (loaded && w.saved.Some? ==> w'.cursor == w.saved.value);
    assert w'.life + Batch(w') == [];
  }

  lemma WorkerKeepsInv(w: World, step: Step)
    requires Inv(w) && CanStep(w, step)
    requires step.WorkerList? || step.WorkerHandle? || step.WorkerSave? || step.WorkerFail?
    ensures Inv(Next(w, step))
  {
    var w' := Next(w, step);
    assert Batch(w') == Batch(w) && Horizon(w') == Horizon(w);
    WorkerKeepsBound(w, step);
  }

  lemma WorkerKeepsBound(w: World, step: Step)
    requires BoundInv(w) && CanStep(w, step)
    requires step.WorkerList? || step.WorkerHandle? || step.WorkerSave? || step.WorkerFail?
    ensures BoundInv(Next(w, step))
    ensures Offset(w.notified) <= Offset(Next(w, step).notified)
  {
    if step.WorkerList? && step.page != [] {
      assert step.page[|step.page| - 1] in step.page;
    }
    if step.WorkerHandle? {
      var todo := w.worker.todo;
      assert todo[0] in todo && todo[|todo| - 1] in todo;
      forall e | e in todo[1..] ensures todo[0].createdAt <= e.createdAt {
        var i :| 0 < i < |todo| && todo[i] == e;
      }
    }
  }

  lemma StepKeepsInv(w: World, step: Step)
    requires Inv(w) && CanStep(w, step)
    ensures Inv(Next(w, step))
  {
    match step
    case Insert(e) => InsertKeepsInv(w, e);
    case PollList(page, limit) => PollListKeepsInv(w, page, limit);
    case PollSend => PollSendKeepsInv(w);
    case PollSave(ok) => PollSaveKeepsInv(w, ok);
    case PollRead(ok) => PollReadKeepsInv(w, ok);
    case PollClean(ok) => PollCleanKeepsInv(w, ok);
    case Restart(loaded) => RestartKeepsInv(w, loaded);
    case _ => WorkerKeepsInv(w, step);
  }

  lemma {:induction false} RunKeepsInv(w: World, steps: seq<Step>)
    requires Inv(w) && Possible(w, steps)
    ensures Inv(After(w, steps))
    decreases |steps|
  {
    if steps != [] {
      StepKeepsInv(w, steps[0]);
      RunKeepsInv(Next(w, steps[0]), steps[1..]);
    }
  }

  // ------------------------------------------------------- what the poller guarantees

  /** A life of the poller in which every insert lies above the page being broadcast. */
  ghost predicate AheadRun(w: World, steps: seq<Step>)
    requires Possible(w, steps)
    decreases |steps|
  {
    steps == [] ||
    (!steps[0].Restart? && (steps[0].Insert? ==> Above(steps[0].e, Horizon(w))) &&
     AheadRun(Next(w, steps[0]), steps[1..]))
  }

  function Inserted(steps: seq<Step>): set<Event> {
    set s | s in steps && s.Insert? :: s.e
  }

  lemma {:induction false} PoolGrowsByInserts(w: World, steps: seq<Step>)
    requires Possible(w, steps) && AheadRun(w, steps)
    ensures After(w, steps).pool == w.pool + Inserted(steps) && After(w, steps).start == w.start
    decreases |steps|
  {
    if steps != [] {
      PoolGrowsByInserts(Next(w, steps[0]), steps[1..]);
      forall e ensures e in Inserted(steps) <==> steps[0] == Insert(e) || e in Inserted(steps[1..]) {
        assert e in Inserted(steps) <==> Insert(e) in steps;
        assert e in Inserted(steps[1..]) <==> Insert(e) in steps[1..];
      }
      assert Inserted(steps) == (if steps[0].Insert? then {steps[0].e} else {}) + Inserted(steps[1..]);
    }
  }

  /** At any moment of any life: the broadcasts are exactly the pool between start and cursor, in order. */
  lemma LifeIsExact(steps: seq<Step>)
    requires Possible(START, steps)
    ensures var w := After(START, steps);
      && Ascending(w.life)
      && forall e :: e in w.life <==> e in w.pool && Above(e, w.start) && !Above(e, w.cursor)
  {
    StartInv();
    RunKeepsInv(START, steps);
    ExactFromInv(After(START, steps));
  }

  lemma ExactFromInv(w: World)
    requires Inv(w)
    ensures Ascending(w.life)
    ensures forall e :: e in w.life <==> e in w.pool && Above(e, w.start) && !Above(e, w.cursor)
  {
    var all := w.life + Batch(w);
    forall i, j | 0 <= i < j < |w.life| ensures Before(KeyOf(w.life[i]), KeyOf(w.life[j])) {
      assert all[i] == w.life[i] && all[j] == w.life[j];
    }
    forall e ensures e in w.life <==> e in w.pool && Above(e, w.start) && !Above(e, w.cursor) {
      assert e in all <==> e in w.life || e in Batch(w);
      CursorBetween(w, e);
    }
  }

  /**
   * From a restart on, and for any batch sizes: when every insert lies above the page being broadcast,
   * the poller broadcasts, once each and in strictly increasing order, exactly the events up to its
   * cursor that lay above its starting offset or were inserted since.
   */
  lemma OneLifeBroadcastsExactly(before: seq<Step>, loaded: bool, steps: seq<Step>)
    requires Possible(START, before)
    requires Possible(Next(After(START, before), Restart(loaded)), steps)
    requires AheadRun(Next(After(START, before), Restart(loaded)), steps)
    ensures var crashed := After(START, before);
      var w := After(Next(crashed, Restart(loaded)), steps);
      && w.start == Booted(loaded, crashed.saved)
      && Ascending(w.life)
      && forall e :: e in w.life <==>
           e in crashed.table + Inserted(steps) && Above(e, w.start) && !Above(e, w.cursor)
  {
    var crashed := After(START, before);
    var booted := Next(crashed, Restart(loaded));
    StartInv();
    RunKeepsInv(START, before);
    StepKeepsInv(crashed, Restart(loaded));
    RunKeepsInv(booted, steps);
    PoolGrowsByInserts(booted, steps);
    ExactFromInv(After(booted, steps));
  }

  /** Over all lives: an event inserted ahead of the poller and reached by its cursor has been broadcast. */
  lemma EveryReachedEventIsHeard(steps: seq<Step>, e: Event)
    requires Possible(START, steps)
    requires e in After(START, steps).ever && e !in After(START, steps).late
    ensures var w := After(START, steps);
      && (!Above(e, w.cursor) ==> e in w.heard)
      && (e !in w.heard ==> e in w.table && AboveSaved(w, e))
  {
    StartInv();
    RunKeepsInv(START, steps);
    var w := After(START, steps);
    CursorBetween(w, e);
    if e in Batch(w) {
      CursorBetween(w, e);
    }
  }

  /** What the steps of a run broadcast, in order. */
  ghost function Broadcasts(w: World, steps: seq<Step>): seq<Event>
    requires Possible(w, steps)
    decreases |steps|
  {
    if steps == [] then []
    else (if steps[0].PollSend? then [w.phase.batch[0]] else []) + Broadcasts(Next(w, steps[0]), steps[1..])
  }

  /** The history holds what has been broadcast: over all lives, and in the life in progress. */
  lemma {:induction false} HistoryIsBroadcasts(w: World, steps: seq<Step>)
    requires Possible(w, steps)
    ensures forall e :: e in After(w, steps).heard <==> e in w.heard || e in Broadcasts(w, steps)
    ensures NoRestart(steps) ==> After(w, steps).life == w.life + Broadcasts(w, steps)
    decreases |steps|
  {
    if steps == [] {
      assert w.life + [] == w.life;
    } else {
      HistoryIsBroadcasts(Next(w, steps[0]), steps[1..]);
      assert NoRestart(steps) ==> steps[0] in steps && NoRestart(steps[1..]);
      if steps[0].PollSend? {
        assert w.life + ([w.phase.batch[0]] + Broadcasts(Next(w, steps[0]), steps[1..]))
            == (w.life + [w.phase.batch[0]]) + Broadcasts(Next(w, steps[0]), steps[1..]);
      } else {
        assert [] + Broadcasts(Next(w, steps[0]), steps[1..]) == Broadcasts(Next(w, steps[0]), steps[1..]);
      }
    }
  }

  lemma {:induction false} NeverLateAfterwards(w: World, steps: seq<Step>, e: Event)
    requires Possible(w, steps) && e in w.ever && e !in w.late
    ensures e in After(w, steps).ever && e !in After(w, steps).late
    decreases |steps|
  {
    if steps != [] {
      NeverLateAfterwards(Next(w, steps[0]), steps[1..], e);
    }
  }

  lemma {:induction false} RunsCompose(w: World, first: seq<Step>, second: seq<Step>)
    requires Possible(w, first) && Possible(After(w, first), second)
    ensures Possible(w, first + second) && After(w, first + second) == After(After(w, first), second)
    decreases |first|
  {
    if first == [] {
      assert [] + second == second;
    } else {
      RunsCompose(Next(w, first[0]), first[1..], second);
      assert (first + second)[1..] == first[1..] + second;
    }
  }

  /**
   * At least once, over all restarts: an event inserted above the page being broadcast and the saved offset
   * has been broadcast by the time that a cursor has passed it, and until then it is kept.
   */
  lemma EventAheadIsBroadcast(before: seq<Step>, e: Event, later: seq<Step>)
    requires Possible(START, before) && CanStep(After(START, before), Insert(e))
    requires Above(e, Horizon(After(START, before))) && AboveSaved(After(START, before), e)
    requires Possible(After(START, before), [Insert(e)] + later)
    ensures Possible(START, before + ([Insert(e)] + later))
    ensures var w := After(After(START, before), [Insert(e)] + later);
      && (!Above(e, w.cursor) ==> e in Broadcasts(START, before + ([Insert(e)] + later)))
      && (e !in Broadcasts(START, before + ([Insert(e)] + later)) ==> e in w.table)
  {
    var at, steps := After(START, before), [Insert(e)] + later;
    assert steps[1..] == later;
    StartInv();
    RunKeepsInv(START, before);
    LateAreInserted(START, before);
    NewEventIsNotLate(at, e);
    NeverLateAfterwards(Next(at, Insert(e)), later, e);
    RunsCompose(START, before, steps);
    EveryReachedEventIsHeard(before + steps, e);
    HistoryIsBroadcasts(START, before + steps);
  }

  ghost predicate LateWereInserted(w: World) {
    w.late <= w.ever
  }

  lemma {:induction false} LateAreInserted(w: World, steps: seq<Step>)
    requires Possible(w, steps) && LateWereInserted(w)
    ensures LateWereInserted(After(w, steps))
    decreases |steps|
  {
    if steps != [] {
      LateAreInserted(Next(w, steps[0]), steps[1..]);
    }
  }

  lemma NewEventIsNotLate(w: World, e: Event)
    requires Inv(w) && LateWereInserted(w) && CanStep(w, Insert(e)) && Above(e, Horizon(w)) && AboveSaved(w, e)
    ensures e in Next(w, Insert(e)).ever && e !in Next(w, Insert(e)).late
  {
  }

  // --------------------------------------------------------------------- clean-up

  /** Clean-up removes nothing that the poller or the worker still has ahead of its cursor. */
  lemma CleanupSparesBothReaders(steps: seq<Step>, ok: bool, e: Event)
    requires Possible(START, steps) && CanStep(After(START, steps), PollClean(ok))
    requires e in After(START, steps).table && e !in Next(After(START, steps), PollClean(ok)).table
    ensures var w := After(START, steps);
      !Above(e, w.cursor) && e.createdAt < Offset(w.notified) && (e !in w.late ==> e in w.heard)
  {
    StartInv();
    RunKeepsInv(START, steps);
    assert Batch(After(START, steps)) == [];
  }

  /**
   * And it removes all else: once a tick has read the worker's offset and cleaned up, what is left of the
   * table is exactly what is not earlier than both the poller's cursor and that offset.
   */
  lemma CleanupLeavesWhatIsAhead(steps: seq<Step>, e: Event)
    requires Possible(START, steps) && After(START, steps).phase == Reading && e in After(START, steps).table
    ensures var w := After(START, steps);
      && Possible(w, [PollRead(true)])
      && if w.notified.None? || w.notified.value == 0 then After(w, [PollRead(true)]) == w.(phase := Idle)
         else
           && Possible(w, [PollRead(true), PollClean(true)])
           && (e !in After(w, [PollRead(true), PollClean(true)]).table <==>
                 e.createdAt < w.cursor.time && e.createdAt < w.notified.value)
  {
    StartInv();
    RunKeepsInv(START, steps);
    var w := After(START, steps);
    CursorIsPastEpoch(w);
    RunExtends(w, [], PollRead(true));
    assert [] + [PollRead(true)] == [PollRead(true)];
    if w.notified.Some? && w.notified.value != 0 {
      RunExtends(w, [PollRead(true)], PollClean(true));
      assert [PollRead(true)] + [PollClean(true)] == [PollRead(true), PollClean(true)];
    }
  }

  lemma CursorIsPastEpoch(w: World)
    requires Inv(w)
    ensures w.cursor.time >= EPOCH.time
  {
    CursorBetween(w, Event(0, 0, ""));
  }

  ghost predicate NoRestart(steps: seq<Step>) {
    forall s :: s in steps ==> !s.Restart?
  }

  /** The worker's saved offset never goes back; the poller's cursor never does within one life. */
  lemma {:induction false} CursorsOnlyAdvance(w: World, steps: seq<Step>)
    requires Inv(w) && Possible(w, steps)
    ensures Offset(w.notified) <= Offset(After(w, steps).notified)
    ensures NoRestart(steps) ==> NotAfter(w.cursor, After(w, steps).cursor)
    decreases |steps|
  {
    if steps != [] {
      assert steps[0] in steps;
      StepKeepsInv(w, steps[0]);
      StepAdvances(w, steps[0]);
      assert forall s :: s in steps[1..] ==> s in steps;
      CursorsOnlyAdvance(Next(w, steps[0]), steps[1..]);
    }
  }

  lemma StepAdvances(w: World, step: Step)
    requires Inv(w) && CanStep(w, step)
    ensures Offset(w.notified) <= Offset(Next(w, step).notified)
    ensures !step.Restart? ==> NotAfter(w.cursor, Next(w, step).cursor)
  {
    if step.PollSend? {
      CursorBetween(w, w.phase.batch[0]);
      assert w.phase.batch[0] in Batch(w);
    }
  }

  ghost predicate SavedBehind(w: World) {
    w.saved.Some? ==> NotAfter(w.saved.value, w.cursor)
  }

  ghost predicate SavedGoesBack(w: World, w': World) {
    w.saved.Some? && w'.saved.Some? && Before(w'.saved.value, w.saved.value)
  }

  /** A start leaves the cursor before the saved offset exactly when it fails to load one past the epoch. */
  lemma StartIsBehindIff(w: World, loaded: bool)
    requires Inv(w)
    ensures SavedBehind(Next(w, Restart(loaded))) <==> loaded || w.saved.None? || w.saved.value == EPOCH
  {
  }

  /** The saved offset goes back exactly at a successful save by a cursor before it. */
  lemma SavedGoesBackIff(w: World, step: Step)
    requires Inv(w) && CanStep(w, step)
    ensures SavedGoesBack(w, Next(w, step)) <==> step == PollSave(true) && !SavedBehind(w)
  {
  }

  /** Some step of the run takes the saved offset back. */
  ghost predicate TurnsBack(w: World, steps: seq<Step>)
    requires Possible(w, steps)
    decreases |steps|
  {
    steps != [] && (SavedGoesBack(w, Next(w, steps[0])) || TurnsBack(Next(w, steps[0]), steps[1..]))
  }

  /** The first successful save of this life comes before the next start, by a cursor before the offset. */
  ghost predicate EndsShort(w: World, steps: seq<Step>, offset: Cursor)
    requires Possible(w, steps)
    decreases |steps|
  {
    && steps != [] && !steps[0].Restart?
    && if steps[0] == PollSave(true) then Before(w.cursor, offset)
       else EndsShort(Next(w, steps[0]), steps[1..], offset)
  }

  /** Some life of the run fails to load the saved offset and ends its first saved page before it. */
  ghost predicate FailedLifeEndsShort(w: World, steps: seq<Step>)
    requires Possible(w, steps)
    decreases |steps|
  {
    steps != [] &&
    ((steps[0] == Restart(false) && w.saved.Some? && EndsShort(Next(w, steps[0]), steps[1..], w.saved.value)) ||
     FailedLifeEndsShort(Next(w, steps[0]), steps[1..]))
  }

  lemma {:induction false} PastTheOffset(w: World, steps: seq<Step>, offset: Cursor)
    requires Inv(w) && Possible(w, steps) && NotAfter(offset, w.cursor)
    ensures !EndsShort(w, steps, offset)
    decreases |steps|
  {
    if steps == [] {
    } else if !steps[0].Restart? && steps[0] != PollSave(true) {
      StepKeepsInv(w, steps[0]);
      StepAdvances(w, steps[0]);
      PastTheOffset(Next(w, steps[0]), steps[1..], offset);
    }
  }

  /** From any state: also the life in progress may end short of the offset. */
  lemma {:induction false} TurnsBackFrom(w: World, steps: seq<Step>)
    requires Inv(w) && Possible(w, steps)
    ensures TurnsBack(w, steps) <==>
      FailedLifeEndsShort(w, steps) || (!SavedBehind(w) && EndsShort(w, steps, w.saved.value))
    decreases |steps|
  {
    if steps == [] {
    } else {
      var w' := Next(w, steps[0]);
      StepKeepsInv(w, steps[0]);
      StepAdvances(w, steps[0]);
      SavedGoesBackIff(w, steps[0]);
      TurnsBackFrom(w', steps[1..]);
      if SavedBehind(w') && w.saved.Some? && steps[0] != PollSave(true) {
        PastTheOffset(w', steps[1..], w.saved.value);
      }
    }
  }

  /**
   * Over all runs: the poller's saved offset goes back exactly when some start fails to load it and the
   * first page which that life saves ends before it.
   */
  lemma SavedTurnsBackIff(steps: seq<Step>)
    requires Possible(START, steps)
    ensures TurnsBack(START, steps) <==> FailedLifeEndsShort(START, steps)
  {
    StartInv();
    TurnsBackFrom(START, steps);
  }

  /** The poller's saved offset goes back only after a start that failed to load it. */
  lemma {:induction false} SavedOffsetOnlyAdvances(w: World, steps: seq<Step>)
    requires Inv(w) && SavedBehind(w) && Possible(w, steps) && Restart(false) !in steps
    ensures SavedBehind(After(w, steps))
    ensures w.saved.Some? ==>
      After(w, steps).saved.Some? && NotAfter(w.saved.value, After(w, steps).saved.value)
    decreases |steps|
  {
    if steps != [] {
      assert steps[0] in steps;
      StepKeepsInv(w, steps[0]);
      StepAdvances(w, steps[0]);
      assert forall s :: s in steps[1..] ==> s in steps;
      SavedOffsetOnlyAdvances(Next(w, steps[0]), steps[1..]);
    }
  }

  /** A run to w extends by a step to the state it names. */
  lemma Reaches(steps: seq<Step>, w: World, step: Step, next: World) returns (more: seq<Step>)
    requires Possible(START, steps) && After(START, steps) == w
    requires CanStep(w, step) && Next(w, step) == next
    ensures Possible(START, more) && After(START, more) == next && more == steps + [step]
  {
    RunExtends(START, steps, step);
    more := steps + [step];
  }

  /** One round of the poller over a page of one event, up to saving. */
  lemma RoundOfOne(steps: seq<Step>, w: World, e: Event) returns (more: seq<Step>)
    requires Possible(START, steps) && After(START, steps) == w
    requires w.phase == Idle && IsPage(w.table, w.cursor, 1, [e])
    ensures Possible(START, more)
    ensures After(START, more) ==
      w.(cursor := KeyOf(e), life := w.life + [e], heard := w.heard + {e}, saved := Some(KeyOf(e)), phase := Reading)
  {
    var sent := w.(cursor := KeyOf(e), life := w.life + [e], heard := w.heard + {e}, phase := Saving);
    more := Reaches(steps, w, PollList([e], 1), w.(phase := Sending([e])));
    assert [e][1..] == [];
    more := Reaches(more, w.(phase := Sending([e])), PollSend, sent);
    more := Reaches(more, sent, PollSave(true), sent.(saved := Some(KeyOf(e)), phase := Reading));
  }

  /** Such a start: two events broadcast and saved, then, from the epoch, the first one again. */
  lemma FailedLoadTurnsSavedBack(a: Event, b: Event)
    requires EPOCH.time < a.createdAt < b.createdAt && a.eventId != b.eventId
    ensures SavedCanGoBack()
  {
    var s1 := Reaches([], START, Insert(a), Next(START, Insert(a)));
    s1 := RoundOfOne(s1, After(START, s1), a);
    var w1 := After(START, s1);
    s1 := Reaches(s1, w1, PollRead(true), w1.(phase := Idle));
    var w2 := Next(w1.(phase := Idle), Insert(b));
    s1 := Reaches(s1, w1.(phase := Idle), Insert(b), w2);
    s1 := RoundOfOne(s1, w2, b);
    var w3 := After(START, s1);
    SecondRound(s1, w3, a, b);
  }

  ghost predicate SavedCanGoBack() {
    exists before, later | Possible(START, before) && Possible(After(START, before), later) ::
      SavedGoesBack(After(START, before), After(After(START, before), later))
  }

  lemma SecondRound(before: seq<Step>, w: World, a: Event, b: Event)
    requires Possible(START, before) && After(START, before) == w
    requires EPOCH.time < a.createdAt < b.createdAt && w.table == {a, b} && w.saved == Some(KeyOf(b))
    ensures SavedCanGoBack()
  {
    var later := [Restart(false), PollList([a], 1), PollSend, PollSave(true)];
    var r := Next(w, Restart(false));
    assert IsPage(r.table, r.cursor, 1, [a]);
    RunExtends(w, [], Restart(false));
    RunExtends(w, [Restart(false)], PollList([a], 1));
    assert [Restart(false)] + [PollList([a], 1)] == [Restart(false), PollList([a], 1)];
    RunExtends(w, [Restart(false), PollList([a], 1)], PollSend);
    assert [Restart(false), PollList([a], 1)] + [PollSend] == [Restart(false), PollList([a], 1), PollSend];
    assert [a][1..] == [];
    RunExtends(w, [Restart(false), PollList([a], 1), PollSend], PollSave(true));
    assert [Restart(false), PollList([a], 1), PollSend] + [PollSave(true)] == later;
    assert SavedGoesBack(After(START, before), After(w, later));
  }

  /** Inserted ahead of the poller's cursor, and yet behind it later without having been broadcast. */
  ghost predicate Overtaken(w: World, e: Event) {
    e in w.ever && !Above(e, w.cursor) && e !in w.heard && e !in w.life
  }

  ghost predicate InsertIsMissed(before: seq<Step>, e: Event, later: seq<Step>) {
    && Possible(START, before) && Above(e, After(START, before).cursor)
    && Possible(After(START, before), [Insert(e)] + later)
    && Overtaken(After(After(START, before), [Insert(e)] + later), e)
  }

  /**
   * Why an insert must lie above the end of the page and not just above the cursor: `b` is inserted ahead
   * of the cursor while the page `a`, `c` is being broadcast, and the cursor passes it unheard.
   */
  lemma InsertIntoThePageIsMissed(a: Event, b: Event, c: Event)
    requires EPOCH.time < a.createdAt < b.createdAt < c.createdAt
    requires a.eventId != b.eventId && b.eventId != c.eventId && a.eventId != c.eventId
    ensures exists before, later :: InsertIsMissed(before, b, later)
  {
    var w1 := Next(START, Insert(a));
    var steps := Reaches([], START, Insert(a), w1);
    var w2 := Next(w1, Insert(c));
    steps := Reaches(steps, w1, Insert(c), w2);
    assert w2.table == {a, c};
    var w3 := w2.(phase := Sending([a, c]));
    steps := Reaches(steps, w2, PollList([a, c], 2), w3);
    assert [a, c][1..] == [c];
    var w4 := w3.(cursor := KeyOf(a), life := [a], heard := {a}, phase := Sending([c]));
    steps := Reaches(steps, w3, PollSend, w4);
    OvertakenInFlight(steps, w4, b, c);
  }

  lemma OvertakenInFlight(steps: seq<Step>, w: World, b: Event, c: Event)
    requires Possible(START, steps) && After(START, steps) == w && w.phase == Sending([c])
    requires Above(b, w.cursor) && Above(c, KeyOf(b)) && CanStep(w, Insert(b)) && b !in w.heard && b !in w.life
    ensures InsertIsMissed(steps, b, [PollSend])
  {
    RunExtends(w, [], Insert(b));
    assert [] + [Insert(b)] == [Insert(b)];
    RunExtends(w, [Insert(b)], PollSend);
  }

  // ------------------------------------------------------- what the worker guarantees

  function Todo(w: World): seq<Event> {
    if w.worker.Working? then w.worker.todo else []
  }

  /** How far the worker has got: its local cursor, or the saved offset when it rests. */
  function Progress(w: World): Time {
    if w.worker.Resting? then Offset(w.notified) else w.worker.last
  }

  /** Clean-up keeps what the saved offset has not passed. */
  ghost predicate KeptInv(w: World) {
    forall e :: e in w.ever && e.createdAt > Offset(w.notified) ==> e in w.table
  }

  /** What the cursor has passed is handled, and the rest up to the horizon is at hand, in order. */
  ghost predicate Covers(ever: set<Event>, handled: seq<Event>, todo: seq<Event>, cursor: Time, horizon: Time) {
    && (forall e :: e in ever && e.createdAt <= cursor ==> e in handled)
    && (forall e :: e in todo <==> e in ever && cursor < e.createdAt <= horizon)
    && (forall i, j :: 0 <= i < j < |todo| ==> todo[i].createdAt < todo[j].createdAt)
  }

  ghost predicate CoveredInv(w: World) {
    && NoTies(w.ever) && Progress(w) >= Offset(w.notified)
    && (w.worker.Working? ==> w.worker.todo != [])
    && Covers(w.ever, w.handled, Todo(w), Progress(w), WorkerHorizon(w))
  }

  ghost predicate OnceInv(w: World) {
    && (forall e :: e in w.handled ==> e in w.ever && e.createdAt <= Progress(w))
    && (forall i, j :: 0 <= i < j < |w.handled| ==> w.handled[i].createdAt < w.handled[j].createdAt)
  }

  /** Inserts lie above the worker's cursor and share no instant with an earlier event. */
  ghost predicate Orderly(w: World, step: Step) {
    step.Insert? ==> step.e.createdAt > WorkerHorizon(w) && forall f :: f in w.ever ==> f.createdAt != step.e.createdAt
  }

  ghost predicate OrderlyRun(w: World, steps: seq<Step>)
    requires Possible(w, steps)
    decreases |steps|
  {
    steps == [] || (Orderly(w, steps[0]) && OrderlyRun(Next(w, steps[0]), steps[1..]))
  }

  lemma StepKeepsKept(w: World, step: Step)
    requires Inv(w) && KeptInv(w) && CanStep(w, step)
    ensures KeptInv(Next(w, step))
  {
    StepAdvances(w, step);
  }

  lemma ListKeepsCovered(w: World, page: seq<Event>, limit: nat)
    requires Inv(w) && KeptInv(w) && CoveredInv(w) && CanStep(w, WorkerList(page, limit))
    ensures CoveredInv(Next(w, WorkerList(page, limit)))
  {
    var w' := Next(w, WorkerList(page, limit));
    var t := Offset(w.notified);
    assert Todo(w') == page && WorkerHorizon(w') == TimePageEnd(t, page);
    forall e | e in w.ever ensures e in page <==> t < e.createdAt <= TimePageEnd(t, page) {
      if e in page {
        var i :| 0 <= i < |page| && page[i] == e;
      } else if page != [] && e.createdAt > t {
        var last := page[|page| - 1];
        assert last in page && last.createdAt <= e.createdAt && last in w.ever;
      }
    }
    forall i, j | 0 <= i < j < |page| ensures page[i].createdAt < page[j].createdAt {
      assert page[i] in page && page[j] in page;
    }
  }

  lemma HandleKeepsCovered(w: World)
    requires BoundInv(w) && CoveredInv(w) && CanStep(w, WorkerHandle)
    ensures CoveredInv(Next(w, WorkerHandle))
  {
    var w' := Next(w, WorkerHandle);
    var head, rest := w.worker.todo[0], w.worker.todo[1..];
    HandleFrame(w, head, rest);
    NextIsCovered(w.ever, w.handled, head, rest, Progress(w), WorkerHorizon(w));
  }

  lemma HandleFrame(w: World, head: Event, rest: seq<Event>)
    requires w.worker.Working? && w.worker.todo == [head] + rest
    ensures var w' := Next(w, WorkerHandle);
      && Todo(w') == rest && Progress(w') == head.createdAt && WorkerHorizon(w') == WorkerHorizon(w)
      && w'.handled == w.handled + [head] && w'.ever == w.ever && w'.notified == w.notified
      && (w'.worker.Working? ==> w'.worker.todo != [])
    ensures BoundInv(w) ==> head.createdAt >= Offset(w.notified)
  {
    assert w.worker.todo[1..] == rest && w.worker.todo[0] in w.worker.todo;
  }

  /** Without ties, handling the head moves the cursor to its time and past nothing else. */
  lemma NextIsCovered(ever: set<Event>, handled: seq<Event>, head: Event, rest: seq<Event>, cursor: Time, horizon: Time)
    requires NoTies(ever) && Covers(ever, handled, [head] + rest, cursor, horizon)
    ensures Covers(ever, handled + [head], rest, head.createdAt, horizon)
  {
    var todo := [head] + rest;
    assert todo[0] == head && head in todo;
    forall e ensures e in todo <==> e == head || e in rest { }
    forall i | 0 <= i < |rest| ensures rest[i] == todo[i + 1] && rest[i].createdAt > head.createdAt {
      assert todo[i + 1] == rest[i];
    }
  }

  lemma InsertKeepsCovered(w: World, e: Event)
    requires CoveredInv(w) && CanStep(w, Insert(e)) && Orderly(w, Insert(e))
    requires Progress(w) <= WorkerHorizon(w)
    ensures CoveredInv(Next(w, Insert(e)))
  {
    var w' := Next(w, Insert(e));
    assert Todo(w') == Todo(w) && Progress(w') == Progress(w) && WorkerHorizon(w') == WorkerHorizon(w);
  }

  /** The poller, the cleaner, and a failure or save of the worker add nothing to what it must cover. */
  lemma OtherStepsKeepCovered(w: World, step: Step)
    requires BoundInv(w) && CoveredInv(w) && CanStep(w, step)
    requires !step.Insert? && !step.WorkerList? && !step.WorkerHandle?
    ensures CoveredInv(Next(w, step))
  {
    var w' := Next(w, step);
    assert w'.ever == w.ever && w'.handled == w.handled && Progress(w') <= Progress(w);
    if !step.WorkerSave? && !step.WorkerFail? {
      assert w'.worker == w.worker && w'.notified == w.notified;
    } else {
      assert Todo(w') == [] && WorkerHorizon(w') == Progress(w');
    }
  }

  lemma StepKeepsCovered(w: World, step: Step)
    requires Inv(w) && KeptInv(w) && CoveredInv(w) && CanStep(w, step) && Orderly(w, step)
    ensures CoveredInv(Next(w, step))
  {
    ProgressBehindHorizon(w);
    match step
    case Insert(e) => InsertKeepsCovered(w, e);
    case WorkerList(page, limit) => ListKeepsCovered(w, page, limit);
    case WorkerHandle => HandleKeepsCovered(w);
    case _ => OtherStepsKeepCovered(w, step);
  }

  lemma ProgressBehindHorizon(w: World)
    requires BoundInv(w)
    ensures Progress(w) <= WorkerHorizon(w)
  {
    if w.worker.Working? && w.worker.todo != [] {
      assert w.worker.todo[|w.worker.todo| - 1] in w.worker.todo;
    }
  }

  lemma StepKeepsOnce(w: World, step: Step)
    requires BoundInv(w) && CoveredInv(w) && OnceInv(w) && CanStep(w, step) && step != WorkerFail
    ensures OnceInv(Next(w, step))
  {
    var w' := Next(w, step);
    if step.WorkerHandle? {
      var head := w.worker.todo[0];
      assert head in Todo(w) && w'.handled == w.handled + [head] && Progress(w') == head.createdAt;
      assert forall i :: 0 <= i < |w.handled| ==> w.handled[i] in w.handled;
    } else {
      assert w'.handled == w.handled && w.ever <= w'.ever && Progress(w') == Progress(w);
    }
  }

  lemma {:induction false} RunKeepsCovered(w: World, steps: seq<Step>)
    requires Inv(w) && KeptInv(w) && CoveredInv(w) && Possible(w, steps) && OrderlyRun(w, steps)
    ensures CoveredInv(After(w, steps))
    ensures OnceInv(w) && WorkerFail !in steps ==> OnceInv(After(w, steps))
    decreases |steps|
  {
    if steps != [] {
      StepKeepsInv(w, steps[0]);
      StepKeepsKept(w, steps[0]);
      StepKeepsCovered(w, steps[0]);
      if OnceInv(w) && WorkerFail !in steps {
        StepKeepsOnce(w, steps[0]);
      }
      RunKeepsCovered(Next(w, steps[0]), steps[1..]);
    }
  }

  /**
   * Without failures, ties or inserts behind it, the time-only worker handles every event exactly once,
   * in order: strictly ascending times, and exactly the events up to its cursor.
   */
  lemma WorkerHandlesExactlyOnce(steps: seq<Step>)
    requires Possible(START, steps) && OrderlyRun(START, steps) && WorkerFail !in steps
    ensures var w := After(START, steps);
      && (forall i, j :: 0 <= i < j < |w.handled| ==> w.handled[i].createdAt < w.handled[j].createdAt)
      && forall e :: e in w.handled <==> e in w.ever && e.createdAt <= Progress(w)
  {
    StartInv();
    RunKeepsCovered(START, steps);
  }

  /** Failures at any point only repeat work: what the worker's cursor has passed has been handled. */
  lemma WorkerHandlesAtLeastOnce(steps: seq<Step>, e: Event)
    requires Possible(START, steps) && OrderlyRun(START, steps)
    ensures var w := After(START, steps);
      && (e in w.ever && e.createdAt <= Offset(w.notified) ==> e in w.handled)
      && (e in w.ever && e !in w.handled ==> e in w.table)
  {
    StartInv();
    RunKeepsInv(START, steps);
    RunKeepsCovered(START, steps);
    RunKeepsKept(START, steps);
  }

  lemma {:induction false} RunKeepsKept(w: World, steps: seq<Step>)
    requires Inv(w) && KeptInv(w) && Possible(w, steps)
    ensures KeptInv(After(w, steps))
    decreases |steps|
  {
    if steps != [] {
      StepKeepsInv(w, steps[0]);
      StepKeepsKept(w, steps[0]);
      RunKeepsKept(Next(w, steps[0]), steps[1..]);
    }
  }

  // -------------------------------------------------------- what a tie costs the worker

  /** The worker's saved offset has passed an event that it neither handled nor holds. */
  ghost predicate PassedOver(w: World, e: Event) {
    e in w.ever && e.createdAt <= Offset(w.notified) && e !in w.handled && e !in Todo(w)
  }

  lemma StepKeepsPassedOver(w: World, step: Step, e: Event)
    requires Inv(w) && CanStep(w, step) && PassedOver(w, e)
    ensures PassedOver(Next(w, step), e)
  {
    StepAdvances(w, step);
    if step.WorkerHandle? {
      assert w.worker.todo[0] in Todo(w);
      assert forall f :: f in w.worker.todo[1..] ==> f in w.worker.todo;
    }
  }

  /** An event that was passed over is never handled, whatever happens later. */
  lemma {:induction false} PassedOverForever(w: World, steps: seq<Step>, e: Event)
    requires Inv(w) && Possible(w, steps) && PassedOver(w, e)
    ensures PassedOver(After(w, steps), e)
    decreases |steps|
  {
    if steps != [] {
      StepKeepsInv(w, steps[0]);
      StepKeepsPassedOver(w, steps[0], e);
      PassedOverForever(Next(w, steps[0]), steps[1..], e);
    }
  }

  /** It happens without any failure: two events of one instant and a batch of one. */
  lemma TieIsPassedOver(a: Event, b: Event)
    requires EPOCH.time < a.createdAt == b.createdAt && a.eventId != b.eventId
    ensures exists steps :: Possible(START, steps) && WorkerFail !in steps && PassedOver(After(START, steps), b)
  {
    var w1 := Next(START, Insert(a));
    var w2 := Next(w1, Insert(b));
    assert w2.table == {a, b};
    var steps := Reaches([], START, Insert(a), w1);
    steps := Reaches(steps, w1, Insert(b), w2);
    steps := PassOfOne(steps, w2, a);
  }

  /** One pass of the worker over a page of one event, up to saving. */
  lemma PassOfOne(steps: seq<Step>, w: World, e: Event) returns (more: seq<Step>)
    requires Possible(START, steps) && After(START, steps) == w && WorkerFail !in steps
    requires w.worker == Resting && IsTimePage(w.table, Offset(w.notified), 1, [e]) && e.createdAt != ZERO_TIME
    ensures Possible(START, more) && WorkerFail !in more
    ensures After(START, more) == w.(handled := w.handled + [e], notified := Some(e.createdAt))
  {
    var listed := w.(worker := Working([e], Offset(w.notified)));
    var handled := w.(handled := w.handled + [e], worker := Recording(e.createdAt));
    assert [e][1..] == [];
    more := Reaches(steps, w, WorkerList([e], 1), listed);
    more := Reaches(more, listed, WorkerHandle, handled);
    more := Reaches(more, handled, WorkerSave, w.(handled := w.handled + [e], notified := Some(e.createdAt)));
  }
}
