/** The kiosk app's ticket code in its own form, posting to the ticket store. */
module KioskApp {
  import opened Basics
  import opened StoreSpec
  import opened Store
  import opened Kiosk

  /** One POST: whether it reaches the server, whether the answer comes back, and what the server adds. */
  datatype Trip = Trip(reached: bool, returned: bool, code: Option<string>, newId: string, now: Time)

  function Creation(payload: CreateInput, trip: Trip): Command {
    Create(payload, trip.code, trip.newId, trip.now)
  }

  /** The payloads whose post was not acknowledged, in order. */
  function Unanswered(stored: seq<CreateInput>, acked: seq<bool>): (kept: seq<CreateInput>)
    requires |stored| == |acked|
    ensures forall i :: 0 <= i < |stored| && !acked[i] ==> stored[i] in kept
    ensures (forall i :: 0 <= i < |acked| ==> acked[i]) ==> kept == []
  {
    if stored == [] then []
    else
      var n := |stored| - 1;
      Unanswered(stored[..n], acked[..n]) + if acked[n] then [] else [stored[n]]
  }

  /** How many of the first n posts were not acknowledged. */
  function Missed(acked: seq<bool>, n: nat): nat
    requires n <= |acked|
  {
    if n == 0 then 0 else Missed(acked, n - 1) + if acked[n - 1] then 0 else 1
  }

  lemma {:induction false} KeptAreMissed(stored: seq<CreateInput>, acked: seq<bool>)
    requires |stored| == |acked|
    ensures |Unanswered(stored, acked)| == Missed(acked, |acked|)
    decreases |stored|
  {
    if stored != [] {
      var n := |stored| - 1;
      KeptAreMissed(stored[..n], acked[..n]);
      MissedBefore(acked, n, n);
    }
  }

  /** What is kept is in the order in which it was stored: an unacknowledged payload stands behind those before it. */
  lemma {:induction false} UnansweredInOrder(stored: seq<CreateInput>, acked: seq<bool>, i: nat)
    requires |stored| == |acked| && i < |stored| && !acked[i]
    ensures |Unanswered(stored, acked)| == Missed(acked, |acked|)
    ensures Missed(acked, i) < |Unanswered(stored, acked)| && Unanswered(stored, acked)[Missed(acked, i)] == stored[i]
    decreases |stored|
  {
    var n := |stored| - 1;
    KeptAreMissed(stored, acked);
    KeptAreMissed(stored[..n], acked[..n]);
    MissedBefore(acked, n, i);
    if i < n {
      UnansweredInOrder(stored[..n], acked[..n], i);
    }
  }

  lemma {:induction false} MissedBefore(acked: seq<bool>, n: nat, i: nat)
    requires i <= n <= |acked|
    ensures Missed(acked[..n], i) == Missed(acked, i)
  {
    if i > 0 {
      MissedBefore(acked, n, i - 1);
    }
  }

  lemma UnansweredStep(stored: seq<CreateInput>, i: nat, acked: seq<bool>, ok: bool)
    requires |acked| == i < |stored|
    ensures Unanswered(stored[..i + 1], acked + [ok]) == Unanswered(stored[..i], acked) + if ok then [] else [stored[i]]
  {
    assert stored[..i + 1][..i] == stored[..i] && (acked + [ok])[..i] == acked;
  }

  /** Server-generated ids for the posts still to come are fresh and differ from post to post. */
  predicate FreshFrom(db: Db, trips: seq<Trip>, i: nat) {
    && (forall j :: i <= j < |trips| ==> FreshId(db, trips[j].newId))
    && (forall j, k :: i <= j < k < |trips| ==> trips[j].newId != trips[k].newId)
  }

  /** The acknowledged payloads have their tickets. */
  predicate AckedAreTicketed(db: Db, stored: seq<CreateInput>, acked: seq<bool>)
    requires |acked| <= |stored|
  {
    forall j :: 0 <= j < |acked| && acked[j] ==> Ticketed(db, stored[j])
  }

  /** A post uses up its own id only, and no ticket goes away. */
  lemma StayTicketedAndFresh(cfg: Config, db: Db, stored: seq<CreateInput>, i: nat, trips: seq<Trip>, acked: seq<bool>)
    requires |acked| == i < |stored| == |trips|
    requires FreshFrom(db, trips, i) && AckedAreTicketed(db, stored, acked)
    ensures FreshId(db, trips[i].newId)
    ensures FreshFrom(db, trips, i + 1)
    ensures var after := Exec(cfg, db, Creation(stored[i], trips[i])).0;
      FreshFrom(after, trips, i + 1) && AckedAreTicketed(after, stored, acked)
  {
    forall j | 0 <= j < i && acked[j] ensures Ticketed(Exec(cfg, db, Creation(stored[i], trips[i])).0, stored[j]) {
      TicketsStay(cfg, db, Creation(stored[i], trips[i]), stored[j]);
    }
  }

  lemma AckedStep(db: Db, stored: seq<CreateInput>, acked: seq<bool>, ok: bool)
    requires |acked| < |stored| && AckedAreTicketed(db, stored, acked) && (ok ==> Ticketed(db, stored[|acked|]))
    ensures AckedAreTicketed(db, stored, acked + [ok])
  {
  }

  class KioskDevice {
    const server: TicketStore
    var offlineTickets: seq<CreateInput>
    /** What the panel shows: a server ticket, or the request id as a local one. */
    var lastTicket: Option<string>

    ghost predicate Shows(w: World)
      reads this, server
    {
      w.db == server.Snapshot() && w.buffer == offlineTickets && w.syncs == []
    }

    constructor (server: TicketStore)
      ensures this.server == server && offlineTickets == [] && lastTicket == None
    {
      this.server := server;
      offlineTickets, lastTicket := [], None;
    }

    /** fetch: an answer means the request has its ticket. */
    method Post(payload: CreateInput, trip: Trip) returns (answer: Option<string>)
      modifies server
      ensures server.Snapshot() ==
        if trip.reached then Exec(server.Options(), old(server.Snapshot()), Creation(payload, trip)).0
            else old(server.Snapshot())
      ensures answer.Some? <==> trip.reached && trip.returned && Ticketed(server.Snapshot(), payload)
      ensures answer.Some? ==> server.Snapshot().requestIndex[payload.requestId] == answer.value
    {
      if !trip.reached {
        return None;
      }
      var reply := server.CreateTicket(payload, trip.code, trip.newId, trip.now);
      if !trip.returned || !reply.Answered? {
        return None;
      }
      return Some(reply.ticketId);
    }

    method QueueOfflineTicket(payload: CreateInput)
      modifies this`offlineTickets
      ensures offlineTickets == old(offlineTickets) + [payload]
    {
      var stored := offlineTickets;
      stored := stored + [payload];
      offlineTickets := stored;
    }

    /** Post once; without an answer show a local ticket and buffer the payload. */
    method IssueTicket(payload: CreateInput, trip: Trip, ghost w: World) returns (ghost steps: seq<Step>)
      requires Shows(w) && payload !in w.issued && FreshId(server.Snapshot(), trip.newId)
      modifies this, server
      ensures if trip.reached && trip.returned && Ticketed(server.Snapshot(), payload)
        then offlineTickets == old(offlineTickets) &&
            lastTicket == Some(server.Snapshot().requestIndex[payload.requestId])
        else offlineTickets == old(offlineTickets) + [payload] && lastTicket == Some(payload.requestId)
      ensures Possible(server.Options(), w, steps) && Shows(After(server.Options(), w, steps))
      ensures After(server.Options(), w, steps).issued == w.issued + {payload}
      ensures After(server.Options(), w, steps).inFlight == w.inFlight - {payload}
    {
      ghost var cfg := server.Options();
      steps := [];
      RunExtends(cfg, w, steps, Issue(payload));
      steps := steps + [Issue(payload)];
      if trip.reached {
        RunExtends(cfg, w, steps, Step.Server(Creation(payload, trip)));
        steps := steps + [Step.Server(Creation(payload, trip))];
      }
      var answer := Post(payload, trip);
      if answer.Some? {
        lastTicket := answer;
        RunExtends(cfg, w, steps, Step.Answered(payload));
        steps := steps + [Step.Answered(payload)];
      } else {
        lastTicket := Some(payload.requestId);
        QueueOfflineTicket(payload);
        RunExtends(cfg, w, steps, Lost(payload));
        steps := steps + [Lost(payload)];
      }
    }

    /** One turn of the synchronisation's loop, as the protocol sees it. */
    method SyncOne(stored: seq<CreateInput>, i: nat, trip: Trip, ghost remaining: seq<CreateInput>, ghost w: World,
                   ghost before: seq<Step>)
      returns (ok: bool, ghost steps: seq<Step>)
      requires i < |stored| && FreshId(server.Snapshot(), trip.newId) && Possible(server.Options(), w, before)
      requires After(server.Options(), w, before) ==
          w.(db := server.Snapshot(), syncs := [Sync(stored, stored[i..], remaining)])
      modifies server
      ensures server.Snapshot() ==
        if trip.reached then Exec(server.Options(), old(server.Snapshot()), Creation(stored[i], trip)).0
            else old(server.Snapshot())
      ensures ok <==> trip.reached && trip.returned && Ticketed(server.Snapshot(), stored[i])
      ensures Possible(server.Options(), w, steps)
      ensures After(server.Options(), w, steps) ==
        w.(db := server.Snapshot(),
           syncs := [Sync(stored, stored[i + 1..], if ok then remaining else remaining + [stored[i]])])
    {
      ghost var cfg := server.Options();
      steps := before;
      if trip.reached {
        RunExtends(cfg, w, steps, Step.Server(Creation(stored[i], trip)));
        steps := steps + [Step.Server(Creation(stored[i], trip))];
      }
      var answer := Post(stored[i], trip);
      ok := answer.Some?;
      assert stored[i..][0] == stored[i] && stored[i..][1..] == stored[i + 1..];
      RunExtends(cfg, w, steps, if ok then SyncAcked(0) else SyncLost(0));
      steps := steps + [if ok then SyncAcked(0) else SyncLost(0)];
    }

    /** The synchronisation's loop: post each payload read, keep what is not acknowledged. */
    method PostAll(stored: seq<CreateInput>, trips: seq<Trip>, ghost w: World, ghost before: seq<Step>)
      returns (acked: seq<bool>, remaining: seq<CreateInput>, ghost steps: seq<Step>)
      requires |trips| == |stored| && FreshFrom(server.Snapshot(), trips, 0) && Possible(server.Options(), w, before)
      requires After(server.Options(), w, before) == w.(db := server.Snapshot(), syncs := [Sync(stored, stored, [])])
      modifies server
      ensures |acked| == |stored| && remaining == Unanswered(stored, acked)
      ensures forall i :: 0 <= i < |stored| && acked[i] ==> Ticketed(server.Snapshot(), stored[i])
      ensures Possible(server.Options(), w, steps)
      ensures After(server.Options(), w, steps) == w.(db := server.Snapshot(), syncs := [Sync(stored, [], remaining)])
    {
      acked, remaining, steps := [], [], before;
      assert stored[0..] == stored;
      for i := 0 to |stored|
        invariant |acked| == i && remaining == Unanswered(stored[..i], acked)
        invariant AckedAreTicketed(server.Snapshot(), stored, acked) && FreshFrom(server.Snapshot(), trips, i)
        invariant Possible(server.Options(), w, steps)
        invariant After(server.Options(), w, steps) ==
            w.(db := server.Snapshot(), syncs := [Sync(stored, stored[i..], remaining)])
      {
        StayTicketedAndFresh(server.Options(), server.Snapshot(), stored, i, trips, acked);
        var ok;
        ok, steps := SyncOne(stored, i, trips[i], remaining, w, steps);
        UnansweredStep(stored, i, acked, ok);
        AckedStep(server.Snapshot(), stored, acked, ok);
        acked := acked + [ok];
        if !ok {
          remaining := remaining + [stored[i]];
        }
      }
      assert stored[|stored|..] == [] && stored[..|stored|] == stored;
    }

    /**
     * Post everything buffered, in order, and write back what was not acknowledged: in particular the
     * buffer is empty after a fully acknowledged synchronisation.
     */
    method SyncOfflineTickets(trips: seq<Trip>, ghost w: World) returns (acked: seq<bool>, ghost steps: seq<Step>)
      requires Shows(w) && |trips| == |offlineTickets| && FreshFrom(server.Snapshot(), trips, 0)
      modifies this`offlineTickets, server
      ensures |acked| == |trips| && offlineTickets == Unanswered(old(offlineTickets), acked)
      ensures forall i :: 0 <= i < |trips| && acked[i] ==> Ticketed(server.Snapshot(), old(offlineTickets)[i])
      ensures Possible(server.Options(), w, steps) && Shows(After(server.Options(), w, steps))
      ensures After(server.Options(), w, steps).issued == w.issued &&
          After(server.Options(), w, steps).inFlight == w.inFlight
    {
      ghost var cfg := server.Options();
      var stored := offlineTickets;
      acked, steps := [], [];
      if |stored| == 0 {
        return;
      }
      RunExtends(cfg, w, steps, SyncRead);
      steps := steps + [SyncRead];
      var remaining;
      acked, remaining, steps := PostAll(stored, trips, w, steps);
      offlineTickets := remaining;
      RunExtends(cfg, w, steps, SyncWrite(0));
      steps := steps + [SyncWrite(0)];
    }
  }
}
