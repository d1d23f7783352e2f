/** The notification store's tables and the worker that delivers and retries. */
module Mailer {
  import opened Basics
  import opened Notifications
  import opened Delivery

  const STANDARD_BATCH := 50
  const STANDARD_ATTEMPTS := 3

  function TimeOf(rows: map<string, Notification>, id: string): Time {
    if id in rows && rows[id].nextAttemptAt.Some? then rows[id].nextAttemptAt.value else ZERO_TIME
  }

  /** Pending and due now, ORDER BY next_attempt_at LIMIT n; ties come in any order. */
  ghost predicate IsDuePage(rows: map<string, Notification>, now: Time, limit: nat, page: seq<string>) {
    && |page| <= limit
    && (forall id :: id in page ==> id in rows && Due(rows[id], now))
    && (forall i, j :: 0 <= i < j < |page| ==> page[i] != page[j] && TimeOf(rows, page[i]) <= TimeOf(rows, page[j]))
    && (forall id :: id in rows && Due(rows[id], now) && id !in page ==>
          |page| == limit && forall p :: p in page ==> TimeOf(rows, p) <= TimeOf(rows, id))
  }

  lemma {:induction false} SoonestExists(rows: map<string, Notification>, ids: set<string>)
    requires ids != {}
    ensures exists id :: id in ids && forall other :: other in ids ==> TimeOf(rows, id) <= TimeOf(rows, other)
    decreases |ids|
  {
    var id :| id in ids;
    var rest := ids - {id};
    if rest != {} {
      SoonestExists(rows, rest);
      var r :| r in rest && forall other :: other in rest ==> TimeOf(rows, r) <= TimeOf(rows, other);
      var soonest := if TimeOf(rows, id) <= TimeOf(rows, r) then id else r;
      assert soonest in ids;
      assert forall other :: other in ids ==> other == id || other in rest;
    } else {
      assert ids == {id};
    }
  }

  method Soonest(rows: map<string, Notification>, ids: set<string>) returns (id: string)
    requires ids != {}
    ensures id in ids && forall other :: other in ids ==> TimeOf(rows, id) <= TimeOf(rows, other)
  {
    SoonestExists(rows, ids);
    id :| id in ids && forall other :: other in ids ==> TimeOf(rows, id) <= TimeOf(rows, other);
  }

  /** The retries of one pass, as steps: each listed notification once, with what its send reported. */
  function PassSteps(due: seq<string>, errors: map<string, string>, listed: Time,
                     clock: string -> Time): (steps: seq<Step>)
    ensures |steps| == |due|
  {
    if due == [] then []
    else
      var id := due[|due| - 1];
      PassSteps(due[..|due| - 1], errors, listed, clock) + [Retry(id, Report(errors, id), listed, clock(id))]
  }

  function Report(errors: map<string, string>, id: string): Option<string> {
    if id in errors then Some(errors[id]) else None
  }

  lemma PassExtends(start: Mail, max: nat, due: seq<string>, i: nat, errors: map<string, string>, listed: Time,
                    clock: string -> Time)
    requires i < |due| && Possible(start, max, PassSteps(due[..i], errors, listed, clock))
    requires CanStep(After(start, max, PassSteps(due[..i], errors, listed, clock)),
                     Retry(due[i], Report(errors, due[i]), listed, clock(due[i])))
    ensures Possible(start, max, PassSteps(due[..i + 1], errors, listed, clock))
    ensures After(start, max, PassSteps(due[..i + 1], errors, listed, clock)) ==
      Delivered(After(start, max, PassSteps(due[..i], errors, listed, clock)), max, due[i], Report(errors, due[i]),
                clock(due[i]))
  {
    assert due[..i + 1][..i] == due[..i];
    RunExtends(start, max, PassSteps(due[..i], errors, listed, clock),
               Retry(due[i], Report(errors, due[i]), listed, clock(due[i])));
  }

  lemma OthersUntouched(mail: Mail, max: nat, due: seq<string>, i: nat, error: Option<string>, now: Time)
    requires i < |due| && due[i] in mail.rows && forall j :: i < j < |due| ==> due[j] in mail.rows && due[j] != due[i]
    ensures forall j :: i < j < |due| ==>
      due[j] in Delivered(mail, max, due[i], error, now).rows &&
      Delivered(mail, max, due[i], error, now).rows[due[j]] == mail.rows[due[j]]
  {
    forall j | i < j < |due|
      ensures due[j] in Delivered(mail, max, due[i], error, now).rows
      ensures Delivered(mail, max, due[i], error, now).rows[due[j]] == mail.rows[due[j]]
    {
      DeliveredElsewhere(mail, max, due[i], error, now, due[j]);
    }
  }

  /** A notification that waits for its next attempt, which was set for no later than this time. */
  predicate AwaitsBy(row: Notification, time: Time) {
    row.status == Pending && row.nextAttemptAt.Some? && row.nextAttemptAt.value <= time
  }

  ghost function AllAwaiting(rows: map<string, Notification>, time: Time): set<string> {
    set id | id in rows && AwaitsBy(rows[id], time)
  }

  /** A page lists the awaited in the order of their times, and leaves out none that is due before one it lists. */
  lemma SoonestAreListed(rows: map<string, Notification>, time: Time, limit: nat, page: seq<string>)
    requires IsDuePage(rows, time, limit, page)
    ensures forall id :: id in page ==> id in rows && AwaitsBy(rows[id], time)
    ensures forall i, j :: 0 <= i < j < |page| ==>
      rows[page[i]].nextAttemptAt.value <= rows[page[j]].nextAttemptAt.value
    ensures forall p, id :: p in page && id in rows && AwaitsBy(rows[id], time) && id !in page ==>
      rows[p].nextAttemptAt.value <= rows[id].nextAttemptAt.value
  {
    assert forall id :: id in page ==> Due(rows[id], time);
    forall i, j | 0 <= i < j < |page|
      ensures rows[page[i]].nextAttemptAt.value <= rows[page[j]].nextAttemptAt.value
    {
      assert page[i] in page && page[j] in page;
    }
    forall p, id | p in page && id in rows && AwaitsBy(rows[id], time) && id !in page
      ensures rows[p].nextAttemptAt.value <= rows[id].nextAttemptAt.value
    {
      assert Due(rows[id], time);
    }
  }

  /** A page with room lists all that are awaited by its time. */
  lemma RoomListsAll(rows: map<string, Notification>, time: Time, limit: nat, page: seq<string>)
    requires IsDuePage(rows, time, limit, page) && |AllAwaiting(rows, time)| <= limit
    ensures forall id :: id in rows ==> (id in page <==> AwaitsBy(rows[id], time))
  {
    SoonestAreListed(rows, time, limit, page);
    forall id | id in rows && AwaitsBy(rows[id], time) ensures id in page {
      if id !in page {
        var listed := set p | p in page;
        DistinctCount(page);
        assert Due(rows[id], time);
        assert listed <= AllAwaiting(rows, time) - {id};
        ProperSubsetIsSmaller(listed, AllAwaiting(rows, time), id);
      }
    }
  }

  lemma {:induction false} PassHandsOver(start: Mail, max: nat, due: seq<string>, errors: map<string, string>,
                                         listed: Time, clock: string -> Time, id: string)
    requires Possible(start, max, PassSteps(due, errors, listed, clock)) && id in start.rows
    requires forall i, j :: 0 <= i < j < |due| ==> due[i] != due[j]
    ensures var rows := After(start, max, PassSteps(due, errors, listed, clock)).rows;
      && id in rows
      && if id in due then rows[id].attempts == start.rows[id].attempts + 1 else rows[id] == start.rows[id]
    decreases |due|
  {
    if due == [] {
    } else {
      var n := |due| - 1;
      var last := Retry(due[n], Report(errors, due[n]), listed, clock(due[n]));
      var before := PassSteps(due[..n], errors, listed, clock);
      PossibleBefore(start, max, before, last);
      PassHandsOver(start, max, due[..n], errors, listed, clock, id);
      assert due[n] !in due[..n] && (id in due <==> id == due[n] || id in due[..n]);
      RetryHandsOver(After(start, max, before), max, last, id);
    }
  }

  lemma {:induction false} PossibleBefore(mail: Mail, max: nat, steps: seq<Step>, step: Step)
    requires Possible(mail, max, steps + [step])
    ensures Possible(mail, max, steps) && CanStep(After(mail, max, steps), step)
    ensures After(mail, max, steps + [step]) == Next(After(mail, max, steps), max, step)
    decreases |steps|
  {
    if steps == [] {
      assert [step][1..] == [];
    } else {
      assert (steps + [step])[1..] == steps[1..] + [step];
      PossibleBefore(Next(mail, max, steps[0]), max, steps[1..], step);
    }
  }

  lemma RetryHandsOver(mail: Mail, max: nat, step: Step, id: string)
    requires step.Retry? && CanStep(mail, step) && id in mail.rows
    ensures var rows := Next(mail, max, step).rows;
      && id in rows
      && if id == step.id then rows[id].attempts == mail.rows[id].attempts + 1 else rows[id] == mail.rows[id]
  {
    if id != step.id {
      DeliveredElsewhere(mail, max, step.id, step.error, step.now, id);
    }
  }

  /** A pass with room hands over each notification awaited by its time, once, and no other. */
  lemma PassTakesAllAwaited(start: Mail, max: nat, limit: nat, due: seq<string>, errors: map<string, string>,
                            listed: Time, clock: string -> Time, id: string)
    requires IsDuePage(start.rows, listed, limit, due) && |AllAwaiting(start.rows, listed)| <= limit
    requires Possible(start, max, PassSteps(due, errors, listed, clock)) && id in start.rows
    ensures var rows := After(start, max, PassSteps(due, errors, listed, clock)).rows;
      && id in rows
      && if AwaitsBy(start.rows[id], listed) then rows[id].attempts == start.rows[id].attempts + 1
         else rows[id] == start.rows[id]
  {
    RoomListsAll(start.rows, listed, limit, due);
    PassHandsOver(start, max, due, errors, listed, clock, id);
  }

  /** The tables `notifications` and `notification_dlq`. */
  class NotificationTables {
    var rows: map<string, Notification>
    var dlq: seq<DeadLetter>

    constructor ()
      ensures rows == map[] && dlq == []
    {
      rows := map[];
      dlq := [];
    }

    method InsertNotification(id: string, row: Notification)
      requires id !in rows
      modifies this`rows
      ensures rows == old(rows)[id := row]
    {
      rows := rows[id := row];
    }

    method ListDueNotifications(limit: int, now: Time) returns (page: seq<string>)
      ensures IsDuePage(rows, now, if limit <= 0 then 50 else limit, page)
    {
      var n := if limit <= 0 then STANDARD_BATCH else limit;
      var rest := set id | id in rows && Due(rows[id], now);
      page := [];
      while |page| < n && rest != {}
        invariant |page| <= n
        invariant forall id :: id in rows && Due(rows[id], now) <==> id in page || id in rest
        invariant forall p, id :: p in page && id in rest ==> p != id && TimeOf(rows, p) <= TimeOf(rows, id)
        invariant forall i, j :: 0 <= i < j < |page| ==>
            page[i] != page[j] && TimeOf(rows, page[i]) <= TimeOf(rows, page[j])
        decreases |rest|
      {
        var id := Soonest(rows, rest);
        page := page + [id];
        rest := rest - {id};
      }
    }

    method MarkNotificationSent(id: string, now: Time)
      requires id in rows
      modifies this`rows
      ensures rows == var row := old(rows)[id];
        old(rows)[id := row.(status := Sent, sentAt := Some(now), lastError := None, nextAttemptAt := None,
                             attempts := row.attempts + 1)]
    {
      var row := rows[id];
      rows := rows[id := row.(status := Sent, sentAt := Some(now), lastError := None, nextAttemptAt := None,
                              attempts := row.attempts + 1)];
    }

    method MarkNotificationRetry(id: string, error: string, nextAttemptAt: Time)
      requires id in rows
      modifies this`rows
      ensures rows == var row := old(rows)[id];
        old(rows)[id := row.(status := Pending, lastError := Some(error), nextAttemptAt := Some(nextAttemptAt),
                             attempts := row.attempts + 1)]
    {
      var row := rows[id];
      rows := rows[id := row.(status := Pending, lastError := Some(error), nextAttemptAt := Some(nextAttemptAt),
                              attempts := row.attempts + 1)];
    }

    method MarkNotificationFailed(id: string, error: string)
      requires id in rows
      modifies this`rows
      ensures rows == var row := old(rows)[id];
        old(rows)[id := row.(status := Failed, lastError := Some(error), nextAttemptAt := None,
                             attempts := row.attempts + 1)]
    {
      var row := rows[id];
      rows := rows[id := row.(status := Failed, lastError := Some(error), nextAttemptAt := None,
                              attempts := row.attempts + 1)];
    }

    method InsertDLQ(id: string, reason: string)
      modifies this`dlq
      ensures dlq == old(dlq) + [DeadLetter(id, reason)]
    {
      dlq := dlq + [DeadLetter(id, reason)];
    }
  }

  /** The sending half of the worker. */
  class Sender {
    const tables: NotificationTables
    const batchSize: nat
    const maxAttempts: nat
    ghost var sends: multiset<string>

    ghost function State(): Mail
      reads this, tables
    {
      Mail(tables.rows, tables.dlq, sends)
    }

    /** New: a missing batch size becomes 50 and a missing maximum of attempts 3. */
    constructor (tables: NotificationTables, batch: int, attempts: int)
      ensures this.tables == tables && sends == multiset{}
      ensures batchSize == if batch <= 0 then 50 else batch
      ensures maxAttempts == if attempts <= 0 then 3 else attempts
    {
      this.tables := tables;
      batchSize := if batch <= 0 then STANDARD_BATCH else batch;
      maxAttempts := if attempts <= 0 then STANDARD_ATTEMPTS else attempts;
      sends := multiset{};
    }

    /** `listed` is the row as it was read; `error` is what the provider would report for it. */
    method DeliverNotification(id: string, listed: Notification, error: Option<string>, now: Time)
      requires id in tables.rows && tables.rows[id] == listed
      modifies this, tables
      ensures State() == Delivered(old(State()), maxAttempts, id, error, now)
    {
      if listed.message == "" {
        tables.MarkNotificationFailed(id, "missing message");
        tables.InsertDLQ(id, "missing message");
        return;
      }
      sends := sends + multiset{id};
      if error.Some? {
        var nextAttempts := listed.attempts + 1;
        if nextAttempts >= maxAttempts {
          tables.MarkNotificationFailed(id, error.value);
          tables.InsertDLQ(id, "max attempts reached");
          return;
        }
        var nextAttemptAt := now + RetryDelay(nextAttempts);
        tables.MarkNotificationRetry(id, error.value, nextAttemptAt);
        return;
      }
      tables.MarkNotificationSent(id, now);
    }

    /** sendNotifications for one channel: store the notification, then hand it over at once. */
    method SendNotification(id: string, channel: string, recipient: string, message: string, error: Option<string>,
                            now: Time)
      requires CanStep(State(), Post(id, channel, recipient, message, error, now))
      modifies this, tables
      ensures State() == Next(old(State()), maxAttempts, Post(id, channel, recipient, message, error, now))
    {
      var notification := Fresh(channel, recipient, message);
      tables.InsertNotification(id, notification);
      DeliverNotification(id, notification, error, now);
    }

    /** One retry pass: the due notifications, read once, are each handed over once, in that order. */
    method ProcessRetries(listed: Time, errors: map<string, string>, clock: string -> Time) returns (due: seq<string>)
      modifies this, tables
      ensures IsDuePage(old(tables.rows), listed, if batchSize == 0 then 50 else batchSize, due)
      ensures Possible(old(State()), maxAttempts, PassSteps(due, errors, listed, clock))
      ensures State() == After(old(State()), maxAttempts, PassSteps(due, errors, listed, clock))
    {
      due := tables.ListDueNotifications(batchSize, listed);
      var notifications := tables.rows;
      ghost var start := State();
      for i := 0 to |due|
        invariant Possible(start, maxAttempts, PassSteps(due[..i], errors, listed, clock))
        invariant State() == After(start, maxAttempts, PassSteps(due[..i], errors, listed, clock))
        invariant forall j :: i <= j < |due| ==> due[j] in tables.rows && tables.rows[due[j]] == notifications[due[j]]
      {
        var id := due[i];
        assert id in due;
        PassExtends(start, maxAttempts, due, i, errors, listed, clock);
        OthersUntouched(State(), maxAttempts, due, i, Report(errors, id), clock(id));
        DeliverNotification(id, notifications[id], Report(errors, id), clock(id));
      }
      assert due[..|due|] == due;
    }
  }
}
