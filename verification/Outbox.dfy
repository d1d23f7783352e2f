/** The outbox protocol: a producer, the realtime poller, the notification worker, clean-up and restarts. */
module Outbox {
  import opened Basics

  /** One row of `outbox_events`; UUIDs compare like the numbers they denote. */
  datatype Event = Event(createdAt: Time, eventId: nat, body: string)

  /** The keyset cursor (last_event_time, last_event_id). */
  datatype Cursor = Cursor(time: Time, id: nat)

  /** time.Unix(0, 0) counted from Go's zero time, with the zero UUID. */
  const EPOCH := Cursor(62135596800_000_000_000, 0)

  function KeyOf(e: Event): Cursor {
    Cursor(e.createdAt, e.eventId)
  }

  predicate Before(a: Cursor, b: Cursor) {
    a.time < b.time || (a.time == b.time && a.id < b.id)
  }

  predicate NotAfter(a: Cursor, b: Cursor) {
    a == b || Before(a, b)
  }

  /** The keyset WHERE clause: created_at > t OR (created_at = t AND event_id > id). */
  predicate Above(e: Event, c: Cursor) {
    e.createdAt > c.time || (e.createdAt == c.time && e.eventId > c.id)
  }

  ghost predicate Ascending(page: seq<Event>) {
    forall i, j :: 0 <= i < j < |page| ==> Before(KeyOf(page[i]), KeyOf(page[j]))
  }

  /** ORDER BY created_at, event_id LIMIT n under the keyset clause. */
  ghost predicate IsPage(table: set<Event>, c: Cursor, limit: nat, page: seq<Event>) {
    && |page| <= limit
    && (forall e :: e in page ==> e in table && Above(e, c))
    && Ascending(page)
    && (forall e :: e in table && Above(e, c) && e !in page ==>
          |page| == limit && forall f :: f in page ==> Before(KeyOf(f), KeyOf(e)))
  }

  /** ORDER BY created_at LIMIT n under created_at > t; ties come in any order. */
  ghost predicate IsTimePage(table: set<Event>, t: Time, limit: nat, page: seq<Event>) {
    && |page| <= limit
    && (forall e :: e in page ==> e in table && e.createdAt > t)
    && (forall i, j :: 0 <= i < j < |page| ==> page[i] != page[j] && page[i].createdAt <= page[j].createdAt)
    && (forall e :: e in table && e.createdAt > t && e !in page ==>
          |page| == limit && forall f :: f in page ==> f.createdAt <= e.createdAt)
  }

  function PageEnd(c: Cursor, page: seq<Event>): Cursor {
    if page == [] then c else KeyOf(page[|page| - 1])
  }

  function TimePageEnd(t: Time, page: seq<Event>): Time {
    if page == [] then t else page[|page| - 1].createdAt
  }

  // ------------------------------------------------------------ the two pagings

  /** Event ids are the primary key. */
  ghost predicate UniqueIds(events: set<Event>) {
    forall e, f :: e in events && f in events && e.eventId == f.eventId ==> e == f
  }

  ghost predicate NoTies(events: set<Event>) {
    forall e, f :: e in events && f in events && e.createdAt == f.createdAt ==> e == f
  }

  /** Everything up to the end of a page is on it: nothing is jumped over. */
  lemma PageJumpsNothing(table: set<Event>, c: Cursor, limit: nat, page: seq<Event>, e: Event)
    requires UniqueIds(table) && IsPage(table, c, limit, page) && limit > 0 && e in table
    ensures e in page <==> Above(e, c) && !Above(e, PageEnd(c, page))
    ensures Above(e, PageEnd(c, page)) ==> Above(e, c)
  {
    if page != [] {
      var last := page[|page| - 1];
      assert last in page;
      if e in page {
        var i :| 0 <= i < |page| && page[i] == e;
        assert i < |page| - 1 ==> Before(KeyOf(page[i]), KeyOf(last));
      }
    }
  }

  /** Without ties, and with the cursor's id behind every event of its instant, the two pagings agree. */
  lemma TimePagingRefinesKeyset(table: set<Event>, c: Cursor, limit: nat, page: seq<Event>)
    requires NoTies(table) && UniqueIds(table)
    requires forall e :: e in table && e.createdAt == c.time ==> e.eventId <= c.id
    ensures IsTimePage(table, c.time, limit, page) <==> IsPage(table, c, limit, page)
  {
    assert forall e :: e in table ==> (Above(e, c) <==> e.createdAt > c.time);
    if IsTimePage(table, c.time, limit, page) {
      forall i, j | 0 <= i < j < |page| ensures Before(KeyOf(page[i]), KeyOf(page[j])) {
        assert page[i] in page && page[j] in page;
      }
      forall e, f | e in table && Above(e, c) && e !in page && f in page ensures Before(KeyOf(f), KeyOf(e)) {
        assert f.createdAt <= e.createdAt && f != e;
      }
    }
    if IsPage(table, c, limit, page) {
      forall i, j | 0 <= i < j < |page| ensures page[i] != page[j] && page[i].createdAt <= page[j].createdAt {
        assert Before(KeyOf(page[i]), KeyOf(page[j]));
      }
    }
  }

  /** An event that the time cursor passes although it was not on the page. */
  predicate Skipped(table: set<Event>, t: Time, page: seq<Event>, e: Event) {
    e in table && e.createdAt > t && e !in page && e.createdAt <= TimePageEnd(t, page)
  }

  function EarlierThan(table: set<Event>, t: Time, e: Event): set<Event> {
    set f | f in table && t < f.createdAt < e.createdAt
  }

  function NoLaterThan(table: set<Event>, t: Time, e: Event): set<Event> {
    set f | f in table && t < f.createdAt <= e.createdAt
  }

  /** The batch ends inside the tie of this event: it holds all that is earlier, but not all of its instant. */
  predicate CutsTieOf(table: set<Event>, t: Time, limit: nat, e: Event) {
    e in table && e.createdAt > t && |EarlierThan(table, t, e)| < limit < |NoLaterThan(table, t, e)|
  }

  /** What a page leaves out is no earlier than its end, and left out only by a full page. */
  lemma LeftOutIsNoEarlier(table: set<Event>, t: Time, limit: nat, page: seq<Event>, e: Event)
    requires IsTimePage(table, t, limit, page) && limit > 0
    requires e in table && e.createdAt > t && e !in page
    ensures |page| == limit && TimePageEnd(t, page) <= e.createdAt
  {
    assert page[|page| - 1] in page;
  }

  lemma PageIsNoLaterThanEnd(page: seq<Event>, t: Time, f: Event)
    requires f in page && forall i, j :: 0 <= i < j < |page| ==> page[i].createdAt <= page[j].createdAt
    ensures f.createdAt <= TimePageEnd(t, page)
  {
    var i :| 0 <= i < |page| && page[i] == f;
    assert i < |page| - 1 ==> page[i].createdAt <= page[|page| - 1].createdAt;
  }

  lemma SkipCutsTie(table: set<Event>, t: Time, limit: nat, page: seq<Event>, e: Event)
    requires IsTimePage(table, t, limit, page) && limit > 0 && Skipped(table, t, page, e)
    ensures CutsTieOf(table, t, limit, e)
  {
    var on := set f | f in page;
    DistinctCount(page);
    LeftOutIsNoEarlier(table, t, limit, page, e);
    var last := page[|page| - 1];
    assert last in on && last.createdAt == e.createdAt;
    forall f | f in EarlierThan(table, t, e) ensures f in on - {last} {
      if f !in page {
        LeftOutIsNoEarlier(table, t, limit, page, f);
      }
    }
    ProperSubsetIsSmaller(EarlierThan(table, t, e), on, last);
    forall f | f in on ensures f in NoLaterThan(table, t, e) - {e} {
      PageIsNoLaterThanEnd(page, t, f);
    }
    ProperSubsetIsSmaller(on, NoLaterThan(table, t, e), e);
  }

  lemma CutTieIsSkipped(table: set<Event>, t: Time, limit: nat, page: seq<Event>, e: Event)
    requires IsTimePage(table, t, limit, page) && CutsTieOf(table, t, limit, e)
    ensures exists g :: Skipped(table, t, page, g)
  {
    var on := set f | f in page;
    DistinctCount(page);
    if NoLaterThan(table, t, e) <= on {
      SubsetIsNoLarger(NoLaterThan(table, t, e), on);
    }
    var g :| g in NoLaterThan(table, t, e) && g !in on;
    LeftOutIsNoEarlier(table, t, limit, page, g);
    if TimePageEnd(t, page) < g.createdAt {
      forall f | f in on ensures f in EarlierThan(table, t, e) {
        PageIsNoLaterThanEnd(page, t, f);
      }
      SubsetIsNoLarger(on, EarlierThan(table, t, e));
    }
    assert Skipped(table, t, page, g);
  }

  /** Whatever page the database returns, time-only paging loses an event exactly when the batch cuts a tie. */
  lemma TimePagingSkipsIffTieIsCut(table: set<Event>, t: Time, limit: nat, page: seq<Event>)
    requires IsTimePage(table, t, limit, page) && limit > 0
    ensures (exists e :: Skipped(table, t, page, e)) <==> exists e :: CutsTieOf(table, t, limit, e)
  {
    if e :| Skipped(table, t, page, e) {
      SkipCutsTie(table, t, limit, page, e);
    }
    if e :| CutsTieOf(table, t, limit, e) {
      CutTieIsSkipped(table, t, limit, page, e);
    }
  }

  /** Such a cut happens: two events of one instant and a batch of one. */
  lemma TieCutLosesAnEvent()
    ensures exists table, page, e :: IsTimePage(table, 0, 1, page) && UniqueIds(table) && Skipped(table, 0, page, e)
  {
    var a, b := Event(5, 1, ""), Event(5, 2, "");
    var table, page := {a, b}, [a];
    assert IsTimePage(table, 0, 1, page);
    assert Skipped(table, 0, page, b);
  }

  function Pending(table: set<Event>, c: Cursor): set<Event> {
    set e | e in table && Above(e, c)
  }

  /** Polling drains: each page takes the batch size, or all there is, off what lies ahead of the cursor. */
  lemma PageDrains(table: set<Event>, c: Cursor, limit: nat, page: seq<Event>)
    requires UniqueIds(table) && IsPage(table, c, limit, page) && limit > 0
    ensures |page| == Min(limit, |Pending(table, c)|)
    ensures |Pending(table, PageEnd(c, page))| == |Pending(table, c)| - |page|
  {
    var on := set e | e in page;
    forall e | e in table
      ensures e in page <==> Above(e, c) && !Above(e, PageEnd(c, page))
      ensures Above(e, PageEnd(c, page)) ==> Above(e, c)
    {
      PageJumpsNothing(table, c, limit, page, e);
    }
    assert Pending(table, c) == Pending(table, PageEnd(c, page)) + on;
    assert Pending(table, PageEnd(c, page)) !! on;
    forall i, j | 0 <= i < j < |page| ensures page[i] != page[j] {
      assert Before(KeyOf(page[i]), KeyOf(page[j]));
    }
    DistinctCount(page);
    if |page| < limit {
      assert Pending(table, PageEnd(c, page)) == {};
    }
  }

  // --------------------------------------------------------------- the protocol

  /** Where the poller stands between its statements. */
  datatype Phase = Idle | Sending(batch: seq<Event>) | Saving | Reading | Cleaning(bound: Time)

  /** Where the worker stands between its statements; `last` is its local time cursor. */
  datatype WorkerPhase = Resting | Working(todo: seq<Event>, last: Time) | Recording(last: Time)

  /**
   * The shared tables, the two processes, and the history: every event ever inserted; where this life
   * of the poller started, what it broadcast and what any life did; the events this life can be expected
   * to see (in the table at its start, or inserted ahead of it); those inserted behind it; and what the
   * worker handled.
   */
  datatype World = World(
    table: set<Event>,
    saved: Option<Cursor>,
    notified: Option<Time>,
    cursor: Cursor,
    phase: Phase,
    worker: WorkerPhase,
    ever: set<Event>,
    start: Cursor,
    life: seq<Event>,
    heard: set<Event>,
    pool: set<Event>,
    late: set<Event>,
    handled: seq<Event>)

  const START := World({}, None, None, EPOCH, Idle, Resting, {}, EPOCH, [], {}, {}, {}, [])

  datatype Step =
    | Insert(e: Event)
    | PollList(page: seq<Event>, limit: nat)
    | PollSend
    | PollSave(ok: bool)
    | PollRead(ok: bool)
    | PollClean(ok: bool)
    | Restart(loaded: bool)
    | WorkerList(page: seq<Event>, limit: nat)
    | WorkerHandle
    | WorkerSave
    | WorkerFail

  /** The end of the page being broadcast: what is inserted below it now will not be listed again. */
  function Horizon(w: World): Cursor {
    if w.phase.Sending? then PageEnd(w.cursor, w.phase.batch) else w.cursor
  }

  /** The saved time offset; a missing row reads as the zero time. */
  function Offset(notified: Option<Time>): Time {
    if notified.Some? then notified.value else ZERO_TIME
  }

  function WorkerHorizon(w: World): Time {
    match w.worker
    case Resting => Offset(w.notified)
    case Working(todo, last) => TimePageEnd(last, todo)
    case Recording(last) => last
  }

  predicate AboveSaved(w: World, e: Event) {
    w.saved.Some? ==> Above(e, w.saved.value)
  }

  ghost predicate CanStep(w: World, step: Step) {
    match step
    case Insert(e) => e.createdAt > EPOCH.time && forall f :: f in w.ever ==> f.eventId != e.eventId
    case PollList(page, limit) => w.phase == Idle && limit > 0 && IsPage(w.table, w.cursor, limit, page)
    case PollSend => w.phase.Sending? && w.phase.batch != []
    case PollSave(_) => w.phase == Saving
    case PollRead(_) => w.phase == Reading
    case PollClean(_) => w.phase.Cleaning?
    case Restart(_) => true
    case WorkerList(page, limit) =>
      w.worker == Resting && limit > 0 && IsTimePage(w.table, Offset(w.notified), limit, page)
    case WorkerHandle => w.worker.Working? && w.worker.todo != []
    case WorkerSave => w.worker.Recording?
    case WorkerFail => true
  }

  /** The clean-up bound: the earlier of the cursor's and the notification offset's time. */
  function CleanupBound(cursor: Cursor, notified: Time): Time {
    if notified < cursor.time then notified else cursor.time
  }

  /** DELETE … WHERE created_at < before, skipped for the zero time. */
  function Cleaned(table: set<Event>, before: Time): set<Event> {
    if before == ZERO_TIME then table else set e | e in table && !(e.createdAt < before)
  }

  /** The offset a new process starts from: the saved one, with defaults for what is missing. */
  function Booted(loaded: bool, saved: Option<Cursor>): Cursor {
    var offset := if loaded && saved.Some? then saved.value else Cursor(ZERO_TIME, EPOCH.id);
    if offset.time == ZERO_TIME then Cursor(EPOCH.time, offset.id) else offset
  }

  function SendPhase(batch: seq<Event>, done: Phase): Phase {
    if batch == [] then done else Sending(batch)
  }

  function WorkPhase(todo: seq<Event>, last: Time): WorkerPhase {
    if todo == [] then Recording(last) else Working(todo, last)
  }

  ghost function Next(w: World, step: Step): World
    requires CanStep(w, step)
  {
    match step
    case Insert(e) =>
      w.(table := w.table + {e}, ever := w.ever + {e},
         pool := if Above(e, Horizon(w)) then w.pool + {e} else w.pool,
         late := if Above(e, Horizon(w)) && AboveSaved(w, e) then w.late else w.late + {e})
    case PollList(page, _) => w.(phase := SendPhase(page, Idle))
    case PollSend =>
      var e := w.phase.batch[0];
      w.(cursor := KeyOf(e), life := w.life + [e], heard := w.heard + {e},
         phase := SendPhase(w.phase.batch[1..], Saving))
    case PollSave(ok) => w.(saved := if ok then Some(w.cursor) else w.saved, phase := Reading)
    case PollRead(ok) =>
      if !ok || Offset(w.notified) == ZERO_TIME then w.(phase := Idle)
      else w.(phase := Cleaning(CleanupBound(w.cursor, Offset(w.notified))))
    case PollClean(ok) => w.(table := if ok then Cleaned(w.table, w.phase.bound) else w.table, phase := Idle)
    case Restart(loaded) =>
      var cursor := Booted(loaded, w.saved);
      w.(cursor := cursor, start := cursor, life := [], pool := w.table, phase := Idle)
    case WorkerList(page, _) => w.(worker := WorkPhase(page, Offset(w.notified)))
    case WorkerHandle =>
      var e := w.worker.todo[0];
      w.(handled := w.handled + [e], worker := WorkPhase(w.worker.todo[1..], e.createdAt))
    case WorkerSave =>
      w.(notified := if w.worker.last != ZERO_TIME then Some(w.worker.last) else w.notified, worker := Resting)
    case WorkerFail => w.(worker := Resting)
  }

  /** A run: each step is possible where it is taken. */
  ghost predicate Possible(w: World, steps: seq<Step>)
    decreases |steps|
  {
    steps == [] || (CanStep(w, steps[0]) && Possible(Next(w, steps[0]), steps[1..]))
  }

  ghost function After(w: World, steps: seq<Step>): World
    requires Possible(w, steps)
    decreases |steps|
  {
    if steps == [] then w else After(Next(w, steps[0]), steps[1..])
  }

  lemma {:induction false} RunExtends(w: World, steps: seq<Step>, step: Step)
    requires Possible(w, steps) && CanStep(After(w, steps), step)
    ensures Possible(w, steps + [step]) && After(w, steps + [step]) == Next(After(w, steps), step)
    decreases |steps|
  {
    if steps == [] {
      assert [step][1..] == [];
    } else {
      RunExtends(Next(w, steps[0]), steps[1..], step);
      assert (steps + [step])[1..] == steps[1..] + [step];
    }
  }
}
