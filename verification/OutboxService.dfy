/**
 * The two consumers in their own form: the tables both stores share, the realtime service's poll loop and
 * the notification worker's run, each proved to take steps of the outbox protocol.
 */
module OutboxService {
  import opened Basics
  import opened Outbox

  const REALTIME_LIMIT := 100
  const NOTIFICATION_LIMIT := 50

  function Limit(limit: int, standard: nat): (n: nat)
    requires standard > 0
    ensures n > 0
  {
    if limit <= 0 then standard else limit
  }

  lemma {:induction false} EarliestExists(events: set<Event>)
    requires events != {} && UniqueIds(events)
    ensures exists e :: e in events && forall f :: f in events ==> NotAfter(KeyOf(e), KeyOf(f))
    decreases |events|
  {
    var e :| e in events;
    var rest := events - {e};
    if rest != {} {
      EarliestExists(rest);
      var r :| r in rest && forall f :: f in rest ==> NotAfter(KeyOf(r), KeyOf(f));
      var least := if NotAfter(KeyOf(e), KeyOf(r)) then e else r;
      assert least in events;
      forall f | f in events ensures NotAfter(KeyOf(least), KeyOf(f)) {
        assert f == e || f in rest;
      }
    } else {
      assert events == {e};
    }
  }

  method Earliest(events: set<Event>) returns (e: Event)
    requires events != {} && UniqueIds(events)
    ensures e in events && forall f :: f in events - {e} ==> Before(KeyOf(e), KeyOf(f))
  {
    EarliestExists(events);
    e :| e in events && forall f :: f in events ==> NotAfter(KeyOf(e), KeyOf(f));
    forall f | f in events - {e} ensures Before(KeyOf(e), KeyOf(f)) {
      assert f.eventId != e.eventId;
    }
  }

  /** outbox_events, realtime_offsets and notification_offsets, as the two stores use them. */
  class OutboxTables {
    var events: set<Event>
    var realtimeOffset: Option<Cursor>
    var notificationOffset: Option<Time>

    ghost predicate Valid()
      reads this
    {
      UniqueIds(events)
    }

    constructor ()
      ensures Valid() && events == {} && realtimeOffset == None && notificationOffset == None
    {
      events := {};
      realtimeOffset := None;
      notificationOffset := None;
    }

    /** The realtime store's page: keyset order after the offset. */
    method ListOutboxEvents(offset: Cursor, limit: int) returns (page: seq<Event>)
      requires Valid()
      ensures IsPage(events, offset, Limit(limit, 100), page)
    {
      var n := Limit(limit, REALTIME_LIMIT);
      var rest := set e | e in events && Above(e, offset);
      page := [];
      while |page| < n && rest != {}
        invariant |page| <= n
        invariant forall e :: e in events && Above(e, offset) <==> e in page || e in rest
        invariant forall e, f :: e in page && f in rest ==> Before(KeyOf(e), KeyOf(f))
        invariant Ascending(page)
        decreases |rest|
      {
        var e := Earliest(rest);
        page := page + [e];
        rest := rest - {e};
      }
    }

    /** The notification store's page: by time alone, in whatever order ties come. */
    method ListEventsSince(after: Time, limit: int) returns (page: seq<Event>)
      requires Valid()
      ensures IsTimePage(events, after, Limit(limit, 50), page)
    {
      var n := Limit(limit, NOTIFICATION_LIMIT);
      var rest := set e | e in events && e.createdAt > after;
      page := [];
      while |page| < n && rest != {}
        invariant |page| <= n
        invariant forall e :: e in events && e.createdAt > after <==> e in page || e in rest
        invariant forall e, f :: e in page && f in rest ==> Before(KeyOf(e), KeyOf(f))
        invariant Ascending(page)
        decreases |rest|
      {
        var e := Earliest(rest);
        page := page + [e];
        rest := rest - {e};
      }
      forall i, j | 0 <= i < j < |page| ensures page[i] != page[j] && page[i].createdAt <= page[j].createdAt {
        assert Before(KeyOf(page[i]), KeyOf(page[j]));
      }
    }

    method GetOffset() returns (offset: Cursor)
      ensures offset == if realtimeOffset.Some? then realtimeOffset.value else Cursor(ZERO_TIME, EPOCH.id)
    {
      offset := if realtimeOffset.Some? then realtimeOffset.value else Cursor(ZERO_TIME, EPOCH.id);
    }

    method UpdateOffset(offset: Cursor)
      modifies this`realtimeOffset
      ensures realtimeOffset == Some(offset)
    {
      realtimeOffset := Some(offset);
    }

    method GetNotificationOffset() returns (last: Time)
      ensures last == Offset(notificationOffset)
    {
      last := if notificationOffset.Some? then notificationOffset.value else ZERO_TIME;
    }

    method UpdateNotificationOffset(last: Time)
      modifies this`notificationOffset
      ensures notificationOffset == Some(last)
    {
      notificationOffset := Some(last);
    }

    /** Exactly the events before the bound go; a missing bound removes none. */
    method CleanupOutbox(before: Time)
      requires Valid()
      modifies this`events
      ensures Valid() && events == Cleaned(old(events), before)
      ensures before != 0 ==> forall e :: e in old(events) ==> (e !in events <==> e.createdAt < before)
      ensures events <= old(events) && (before == 0 ==> events == old(events))
    {
      if before == ZERO_TIME {
        return;
      }
      events := set e | e in events && !(e.createdAt < before);
    }
  }

  /** Which of the statements of one round succeed. */
  datatype Outcome = Outcome(list: bool, save: bool, read: bool, clean: bool)

  /** The realtime service's poll loop. */
  class Poller {
    const tables: OutboxTables
    const batchSize: int
    var offset: Cursor

    /** This process and its tables are what the protocol's state shows, with the poller idle. */
    ghost predicate Shows(w: World)
      reads this, tables
    {
      && tables.events == w.table && tables.realtimeOffset == w.saved && tables.notificationOffset == w.notified
      && offset == w.cursor && w.phase == Idle
    }

    /** A start of the service: it reads the saved offset, or falls back to the epoch. */
    constructor (tables: OutboxTables, batchSize: int, loaded: bool, ghost w: World)
      requires tables.events == w.table && tables.realtimeOffset == w.saved && tables.notificationOffset == w.notified
      ensures this.tables == tables && this.batchSize == batchSize
      ensures offset == Booted(loaded, tables.realtimeOffset)
      ensures loaded && w.saved.Some? && w.saved.value.time != 0 ==> offset == w.saved.value
      ensures !loaded || w.saved.None? ==> offset == Cursor(62135596800_000_000_000, 0)
      ensures Shows(Next(w, Restart(loaded)))
    {
      var read := Cursor(ZERO_TIME, EPOCH.id);
      if loaded {
        read := tables.GetOffset();
      }
      if read.time == ZERO_TIME {
        read := Cursor(EPOCH.time, read.id);
      }
      this.tables := tables;
      this.batchSize := batchSize;
      offset := read;
    }

    /**
     * One tick. The broadcasts are the page after the offset, which moves to its end even when saving
     * fails; clean-up follows a page that was sent, never past the worker's saved offset. Seen from the
     * protocol, the tick is a possible run whose broadcasts extend the life by that page.
     */
    method Poll(outcome: Outcome, ghost w: World) returns (sent: seq<Event>, ghost steps: seq<Step>)
      requires tables.Valid() && Shows(w)
      modifies this, tables
      ensures tables.Valid() && tables.notificationOffset == old(tables.notificationOffset)
      ensures if outcome.list then IsPage(old(tables.events), old(offset), Limit(batchSize, 100), sent)
          else sent == []
      ensures offset == PageEnd(old(offset), sent)
      ensures tables.realtimeOffset == if sent != [] && outcome.save then Some(offset) else old(tables.realtimeOffset)
      ensures tables.events ==
        if sent != [] && outcome.read && outcome.clean && Offset(tables.notificationOffset) != ZERO_TIME
        then Cleaned(old(tables.events), CleanupBound(offset, Offset(tables.notificationOffset)))
        else old(tables.events)
      ensures forall e :: e in old(tables.events) ==>
        (e !in tables.events <==>
          && sent != [] && outcome.read && outcome.clean && tables.notificationOffset.Some?
          && tables.notificationOffset.value != 0 && Min(offset.time, tables.notificationOffset.value) != 0
          && e.createdAt < offset.time && e.createdAt < tables.notificationOffset.value)
      ensures Possible(w, steps) && Shows(After(w, steps)) && After(w, steps).life == w.life + sent
    {
      sent, steps := [], [];
      assert w.life + [] == w.life;
      if !outcome.list {
        return;
      }
      var page := tables.ListOutboxEvents(offset, batchSize);
      RunExtends(w, steps, PollList(page, Limit(batchSize, REALTIME_LIMIT)));
      steps := steps + [PollList(page, Limit(batchSize, REALTIME_LIMIT))];
      for i := 0 to |page|
        modifies this
        invariant sent == page[..i] && offset == PageEnd(old(offset), sent)
        invariant Possible(w, steps)
        invariant After(w, steps) == w.(cursor := offset, life := w.life + sent, heard := After(w, steps).heard,
                                        phase := SendPhase(page[i..], if page == [] then Idle else Saving))
      {
        assert page[i..][0] == page[i] && page[i..][1..] == page[i + 1..];
        RunExtends(w, steps, PollSend);
        steps := steps + [PollSend];
        offset := KeyOf(page[i]);
        sent := sent + [page[i]];
      }
      assert sent == page && page[|page|..] == [];
      if |page| > 0 {
        steps := SaveAndClean(outcome, w, steps);
      }
    }

    /** After a page was sent: save the offset, read the worker's, and clean up behind both. */
    method SaveAndClean(outcome: Outcome, ghost w: World, ghost before: seq<Step>) returns (ghost steps: seq<Step>)
      requires tables.Valid() && Possible(w, before)
      requires var at := After(w, before);
        at.phase == Saving && at.cursor == offset && tables.events == at.table &&
        tables.realtimeOffset == at.saved && tables.notificationOffset == at.notified
      modifies tables
      ensures tables.Valid() && tables.notificationOffset == old(tables.notificationOffset)
      ensures tables.realtimeOffset == if outcome.save then Some(offset) else old(tables.realtimeOffset)
      ensures tables.events ==
        if outcome.read && outcome.clean && Offset(tables.notificationOffset) != ZERO_TIME
        then Cleaned(old(tables.events), CleanupBound(offset, Offset(tables.notificationOffset)))
        else old(tables.events)
      ensures Possible(w, steps) && Shows(After(w, steps)) && After(w, steps).life == After(w, before).life
    {
      RunExtends(w, before, PollSave(outcome.save));
      steps := before + [PollSave(outcome.save)];
      if outcome.save {
        tables.UpdateOffset(offset);
      }
      RunExtends(w, steps, PollRead(outcome.read));
      steps := steps + [PollRead(outcome.read)];
      if !outcome.read {
        return;
      }
      var notifyOffset := tables.GetNotificationOffset();
      if notifyOffset != ZERO_TIME {
        var cleanupBefore := offset.time;
        if notifyOffset < cleanupBefore {
          cleanupBefore := notifyOffset;
        }
        RunExtends(w, steps, PollClean(outcome.clean));
        steps := steps + [PollClean(outcome.clean)];
        if outcome.clean {
          tables.CleanupOutbox(cleanupBefore);
        }
      }
    }
  }

  /** The notification worker's pass over new events. */
  class Worker {
    const tables: OutboxTables
    const batchSize: int

    ghost predicate Shows(w: World)
      reads this, tables
    {
      && tables.events == w.table && tables.realtimeOffset == w.saved && tables.notificationOffset == w.notified
      && w.worker == Resting
    }

    /** New replaces a missing batch size by 50. */
    constructor (tables: OutboxTables, batchSize: int)
      ensures this.tables == tables && this.batchSize == Limit(batchSize, 50)
    {
      this.tables := tables;
      this.batchSize := if batchSize <= 0 then NOTIFICATION_LIMIT else batchSize;
    }

    /** Run's loop: each event of the page is processed, and its time becomes the local cursor. */
    method Process(events: seq<Event>, since: Time, ghost w: World, ghost before: seq<Step>)
      returns (last: Time, ghost steps: seq<Step>)
      requires Possible(w, before) && WorkerFail !in before
      requires After(w, before) == w.(worker := WorkPhase(events, since))
      ensures last == TimePageEnd(since, events)
      ensures Possible(w, steps) && WorkerFail !in steps
      ensures After(w, steps) == w.(handled := w.handled + events, worker := Recording(last))
    {
      last, steps := since, before;
      assert w.handled + [] == w.handled && events[0..] == events;
      for i := 0 to |events|
        invariant last == TimePageEnd(since, events[..i])
        invariant Possible(w, steps) && WorkerFail !in steps
        invariant After(w, steps) == w.(handled := w.handled + events[..i], worker := WorkPhase(events[i..], last))
      {
        assert events[i..][0] == events[i] && events[i..][1..] == events[i + 1..];
        assert events[..i + 1] == events[..i] + [events[i]];
        RunExtends(w, steps, WorkerHandle);
        steps := steps + [WorkerHandle];
        last := events[i].createdAt;
      }
      assert events[..|events|] == events && events[|events|..] == [];
    }

    /**
     * One pass: the events since the saved time are processed, errors or not, and their last time is
     * saved; a failing statement ends the pass with nothing saved. The retries that follow are the
     * Notifications module's.
     */
    method Run(outcome: Outcome, ghost w: World) returns (handled: seq<Event>, ok: bool, ghost steps: seq<Step>)
      requires tables.Valid() && Shows(w)
      modifies tables`notificationOffset
      ensures var last := TimePageEnd(Offset(old(tables.notificationOffset)), handled);
        tables.Valid() && (ok <==> outcome.read && outcome.list && (outcome.save || last == ZERO_TIME))
      ensures if outcome.read && outcome.list
        then IsTimePage(tables.events, Offset(old(tables.notificationOffset)), Limit(batchSize, 50), handled)
        else handled == []
      ensures tables.notificationOffset ==
        var last := TimePageEnd(Offset(old(tables.notificationOffset)), handled);
        if ok && last != ZERO_TIME then Some(last) else old(tables.notificationOffset)
      ensures Possible(w, steps) && Shows(After(w, steps)) && After(w, steps).handled == w.handled + handled
      ensures ok ==> WorkerFail !in steps
    {
      handled, steps, ok := [], [], false;
      assert w.handled + [] == w.handled;
      if !outcome.read {
        return;
      }
      var last := tables.GetNotificationOffset();
      if !outcome.list {
        return;
      }
      var events := tables.ListEventsSince(last, batchSize);
      ghost var listed := WorkerList(events, Limit(batchSize, NOTIFICATION_LIMIT));
      RunExtends(w, steps, listed);
      steps := steps + [listed];
      last, steps := Process(events, last, w, steps);
      handled := events;
      if last != ZERO_TIME {
        if !outcome.save {
          RunExtends(w, steps, WorkerFail);
          steps := steps + [WorkerFail];
          return;
        }
        tables.UpdateNotificationOffset(last);
      }
      RunExtends(w, steps, WorkerSave);
      steps := steps + [WorkerSave];
      ok := true;
    }
  }
}
