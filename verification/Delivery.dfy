/** The notification worker's delivery: what one hand-over does, runs of them, and the worker class itself. */
module Delivery {
  import opened Basics
  import opened Notifications

  // --------------------------------------------------------------- one hand-over

  function Mark(mail: Mail, id: string, row: Notification): Mail {
    mail.(rows := mail.rows[id := row.(attempts := row.attempts + 1)])
  }

  function FailedRow(row: Notification, error: string): Notification {
    row.(status := Failed, lastError := Some(error), nextAttemptAt := None)
  }

  /**
   * deliverNotification for a stored row: `error` is what the provider's Send reports, if anything. A row
   * without a message is failed and buried unsent; a failing send is retried later until the last attempt.
   */
  function Delivered(mail: Mail, max: nat, id: string, error: Option<string>, now: Time): (m: Mail)
    requires id in mail.rows
  {
    var row := mail.rows[id];
    if row.message == "" then
      Mark(mail, id, FailedRow(row, "missing message")).(dlq := mail.dlq + [DeadLetter(id, "missing message")])
    else
      var sent := mail.(sends := mail.sends + multiset{id});
      match error
      case None => Mark(sent, id, row.(status := Sent, sentAt := Some(now), lastError := None, nextAttemptAt := None))
      case Some(reason) =>
        if row.attempts + 1 >= max then
          Mark(sent, id, FailedRow(row, reason)).(dlq := mail.dlq + [DeadLetter(id, "max attempts reached")])
        else
          Mark(sent, id, row.(status := Pending, lastError := Some(reason),
                              nextAttemptAt := Some(now + RetryDelay(row.attempts + 1))))
  }

  function Fresh(channel: string, recipient: string, message: string): Notification {
    Notification(channel, recipient, message, Pending, 0, None, None, None)
  }

  /** Listed by ListDueNotifications at this time. */
  predicate Due(row: Notification, now: Time) {
    row.status == Pending && row.nextAttemptAt.Some? && row.nextAttemptAt.value <= now
  }

  // ------------------------------------------------------------------------- runs

  datatype Step =
    | Post(id: string, channel: string, recipient: string, message: string, error: Option<string>, now: Time)
    | Retry(id: string, error: Option<string>, listed: Time, now: Time)

  predicate CanStep(mail: Mail, step: Step) {
    match step
    case Post(id, _, _, _, _, _) =>
      id !in mail.rows && mail.sends[id] == 0 && forall d :: d in mail.dlq ==> d.notificationId != id
    case Retry(id, _, listed, _) => id in mail.rows && Due(mail.rows[id], listed)
  }

  /** The tables as a hand-over finds them: a new notification is inserted first, as pending. */
  function Found(mail: Mail, step: Step): Mail {
    match step
    case Post(id, channel, recipient, message, _, _) =>
      mail.(rows := mail.rows[id := Fresh(channel, recipient, message)])
    case Retry(_, _, _, _) => mail
  }

  function Next(mail: Mail, max: nat, step: Step): Mail
    requires CanStep(mail, step)
  {
    Delivered(Found(mail, step), max, step.id, step.error, step.now)
  }

  predicate Possible(mail: Mail, max: nat, steps: seq<Step>)
    decreases |steps|
  {
    steps == [] || (CanStep(mail, steps[0]) && Possible(Next(mail, max, steps[0]), max, steps[1..]))
  }

  function After(mail: Mail, max: nat, steps: seq<Step>): Mail
    requires Possible(mail, max, steps)
    decreases |steps|
  {
    if steps == [] then mail else After(Next(mail, max, steps[0]), max, steps[1..])
  }

  lemma {:induction false} RunExtends(mail: Mail, max: nat, steps: seq<Step>, step: Step)
    requires Possible(mail, max, steps) && CanStep(After(mail, max, steps), step)
    ensures Possible(mail, max, steps + [step])
    ensures After(mail, max, steps + [step]) == Next(After(mail, max, steps), max, step)
    decreases |steps|
  {
    if steps == [] {
      assert [step][1..] == [];
    } else {
      RunExtends(Next(mail, max, steps[0]), max, steps[1..], step);
      assert (steps + [step])[1..] == steps[1..] + [step];
    }
  }

  function Letters(dlq: seq<DeadLetter>, id: string): nat {
    if dlq == [] then 0
    else Letters(dlq[..|dlq| - 1], id) + if dlq[|dlq| - 1].notificationId == id then 1 else 0
  }

  lemma LettersExtend(dlq: seq<DeadLetter>, d: DeadLetter, id: string)
    ensures Letters(dlq + [d], id) == Letters(dlq, id) + if d.notificationId == id then 1 else 0
  {
    assert (dlq + [d])[..|dlq|] == dlq;
  }

  lemma {:induction false} NoLetters(dlq: seq<DeadLetter>, id: string)
    requires forall d :: d in dlq ==> d.notificationId != id
    ensures Letters(dlq, id) == 0
  {
    if dlq != [] {
      NoLetters(dlq[..|dlq| - 1], id);
    }
  }

  // -------------------------------------------------------------------- invariant

  /**
   * What a row's status says: how often it was sent, and where it is in the queue. A row without a
   * message was never sent; a failed one with a message used up its attempts.
   */
  predicate RowOk(row: Notification, max: nat, sends: nat, letters: nat) {
    && letters == (if row.status == Failed then 1 else 0)
    && (row.nextAttemptAt.Some? <==> row.status == Pending)
    && (row.sentAt.Some? <==> row.status == Sent)
    && match row.status
       case Pending => row.message != "" && sends == row.attempts && 1 <= sends < max
       case Sent => row.message != "" && sends == row.attempts && 1 <= sends <= max
       case Failed => if row.message == "" then sends == 0 else sends == row.attempts == max
  }

  ghost predicate Inv(mail: Mail, max: nat) {
    && (forall id :: id in mail.rows ==> RowOk(mail.rows[id], max, mail.sends[id], Letters(mail.dlq, id)))
    && (forall id :: id !in mail.rows ==> mail.sends[id] == 0 && Letters(mail.dlq, id) == 0)
  }

  lemma DeliveredElsewhere(mail: Mail, max: nat, id: string, error: Option<string>, now: Time, other: string)
    requires id in mail.rows && other != id
    ensures var m := Delivered(mail, max, id, error, now);
      && (other in m.rows <==> other in mail.rows) && (other in mail.rows ==> m.rows[other] == mail.rows[other])
      && m.sends[other] == mail.sends[other] && Letters(m.dlq, other) == Letters(mail.dlq, other)
  {
    LettersExtend(mail.dlq, DeadLetter(id, "missing message"), other);
    LettersExtend(mail.dlq, DeadLetter(id, "max attempts reached"), other);
  }

  lemma DeliveredHere(mail: Mail, max: nat, id: string, error: Option<string>, now: Time)
    requires max > 0 && id in mail.rows && Letters(mail.dlq, id) == 0
    requires var row := mail.rows[id];
      row.status == Pending && row.sentAt == None && row.attempts == mail.sends[id] < max &&
          (row.message == "" ==> row.attempts == 0)
    ensures var m := Delivered(mail, max, id, error, now);
      id in m.rows && RowOk(m.rows[id], max, m.sends[id], Letters(m.dlq, id))
  {
    LettersExtend(mail.dlq, DeadLetter(id, "missing message"), id);
    LettersExtend(mail.dlq, DeadLetter(id, "max attempts reached"), id);
  }

  lemma StepKeepsInv(mail: Mail, max: nat, step: Step)
    requires max > 0 && Inv(mail, max) && CanStep(mail, step)
    ensures Inv(Next(mail, max, step), max)
  {
    var id := step.id;
    var base := Found(mail, step);
    var m := Next(mail, max, step);
    DeliveredHere(base, max, id, step.error, step.now);
    forall other | other != id
      ensures other in m.rows ==> RowOk(m.rows[other], max, m.sends[other], Letters(m.dlq, other))
      ensures other !in m.rows ==> m.sends[other] == 0 && Letters(m.dlq, other) == 0
    {
      DeliveredElsewhere(base, max, id, step.error, step.now, other);
    }
  }

  lemma {:induction false} RunKeepsInv(mail: Mail, max: nat, steps: seq<Step>)
    requires max > 0 && Inv(mail, max) && Possible(mail, max, steps)
    ensures Inv(After(mail, max, steps), max)
    decreases |steps|
  {
    if steps != [] {
      StepKeepsInv(mail, max, steps[0]);
      RunKeepsInv(Next(mail, max, steps[0]), max, steps[1..]);
    }
  }

  /** Every run from empty tables: at most `max` sends, and exactly one dead letter iff failed. */
  lemma SendsAndLetters(max: nat, steps: seq<Step>, id: string)
    requires max > 0 && Possible(EMPTY, max, steps)
    ensures var mail := After(EMPTY, max, steps);
      && mail.sends[id] <= max
      && Letters(mail.dlq, id) == (if id in mail.rows && mail.rows[id].status == Failed then 1 else 0)
      && (id in mail.rows && mail.rows[id].status == Failed && mail.rows[id].message != "" ==> mail.sends[id] == max)
      && (id in mail.rows && mail.rows[id].status == Sent ==> mail.sends[id] >= 1)
  {
    RunKeepsInv(EMPTY, max, steps);
  }

  /** Sent and failed are final: nothing about such a notification changes any more. */
  lemma {:induction false} FinalForever(mail: Mail, max: nat, steps: seq<Step>, id: string)
    requires Possible(mail, max, steps) && id in mail.rows && mail.rows[id].status != Pending
    ensures var m := After(mail, max, steps);
      && id in m.rows && m.rows[id] == mail.rows[id] && m.sends[id] == mail.sends[id]
      && Letters(m.dlq, id) == Letters(mail.dlq, id)
    decreases |steps|
  {
    if steps != [] {
      var step := steps[0];
      DeliveredElsewhere(Found(mail, step), max, step.id, step.error, step.now, id);
      FinalForever(Next(mail, max, step), max, steps[1..], id);
    }
  }

  function Retries(steps: seq<Step>, id: string): nat {
    if steps == [] then 0 else Retries(steps[1..], id) + if steps[0].Retry? && steps[0].id == id then 1 else 0
  }

  /** What is left of a notification's attempts; a settled one has none. */
  function AttemptsLeft(mail: Mail, max: nat, id: string): int {
    if id in mail.rows && mail.rows[id].status == Pending then max - mail.rows[id].attempts else 0
  }

  /** Each retry uses up an attempt, so a notification is retried at most as often as it has attempts left. */
  lemma {:induction false} RetriesUseUpAttempts(mail: Mail, max: nat, steps: seq<Step>, id: string)
    requires max > 0 && Inv(mail, max) && Possible(mail, max, steps) && id in mail.rows
    ensures AttemptsLeft(After(mail, max, steps), max, id) + Retries(steps, id) <= AttemptsLeft(mail, max, id)
    decreases |steps|
  {
    if steps != [] {
      var step := steps[0];
      StepKeepsInv(mail, max, step);
      if step.id != id {
        DeliveredElsewhere(Found(mail, step), max, step.id, step.error, step.now, id);
      }
      RetriesUseUpAttempts(Next(mail, max, step), max, steps[1..], id);
    }
  }

  /** A failing first send and failing retries: settled as failed, buried once, after exactly `max` sends. */
  lemma {:induction false} FailingSendsAreBuried(mail: Mail, max: nat, id: string, steps: seq<Step>)
    requires max > 0 && Inv(mail, max) && id in mail.rows && mail.rows[id].status == Pending
    requires Possible(mail, max, steps) && |steps| == AttemptsLeft(mail, max, id)
    requires forall s :: s in steps ==> s.Retry? && s.id == id && s.error.Some?
    ensures var m := After(mail, max, steps);
      && id in m.rows && m.rows[id].status == Failed && m.sends[id] == max
      && m.dlq == mail.dlq + [DeadLetter(id, "max attempts reached")]
    decreases |steps|
  {
    var step := steps[0];
    assert step in steps;
    StepKeepsInv(mail, max, step);
    if |steps| > 1 {
      assert forall s :: s in steps[1..] ==> s in steps;
      FailingSendsAreBuried(Next(mail, max, step), max, id, steps[1..]);
    } else {
      assert steps[1..] == [];
    }
  }

  lemma PendingAgainLater(mail: Mail, max: nat, id: string, error: Option<string>, now: Time)
    requires id in mail.rows
    ensures var m := Delivered(mail, max, id, error, now);
      m.rows[id].status == Pending ==> m.rows[id].nextAttemptAt == Some(now + RetryDelay(m.rows[id].attempts))
  {
  }

  lemma PendingLeavesAttempts(mail: Mail, max: nat, id: string)
    requires Inv(mail, max) && id in mail.rows
    ensures mail.rows[id].status == Pending ==> mail.rows[id].attempts < max
  {
  }

  /** The time a failing send sets for the next try is the intended one. */
  predicate RetryTimeOk(mail: Mail, max: nat, step: Step)
    requires CanStep(mail, step)
  {
    var row := Next(mail, max, step).rows[step.id];
    row.status == Pending ==> row.nextAttemptAt == Some(step.now + IntendedDelay(row.attempts))
  }

  lemma RetryTimeIsIntended(max: nat, mail: Mail, step: Step)
    requires 0 < max <= 32 && Inv(mail, max) && CanStep(mail, step)
    ensures RetryTimeOk(mail, max, step)
  {
    StepKeepsInv(mail, max, step);
    PendingAgainLater(Found(mail, step), max, step.id, step.error, step.now);
    PendingLeavesAttempts(Next(mail, max, step), max, step.id);
    RetryDelayIsIntendedIff(Next(mail, max, step).rows[step.id].attempts);
  }

  ghost predicate AllRetryTimesOk(max: nat) {
    forall steps, step | Possible(EMPTY, max, steps) && CanStep(After(EMPTY, max, steps), step) ::
      RetryTimeOk(After(EMPTY, max, steps), max, step)
  }

  /** Failing sends alone bring a notification to any number of attempts below the maximum. */
  lemma {:induction false} AnyAttemptIsReached(max: nat, k: nat) returns (steps: seq<Step>)
    requires 1 <= k < max
    ensures Possible(EMPTY, max, steps) && "n" in After(EMPTY, max, steps).rows
    ensures var row := After(EMPTY, max, steps).rows["n"];
      row.status == Pending && row.attempts == k && row.nextAttemptAt.Some? && row.message == "m"
  {
    var step := Post("n", "sms", "r", "m", Some("e"), 0);
    steps := [];
    if k > 1 {
      steps := AnyAttemptIsReached(max, k - 1);
      step := Retry("n", Some("e"), After(EMPTY, max, steps).rows["n"].nextAttemptAt.value, 0);
    }
    RunExtends(EMPTY, max, steps, step);
    steps := steps + [step];
  }

  /** Every retry of every run is set to the intended time exactly when there are at most 32 attempts. */
  lemma RetryTimesAreIntendedIff(max: nat)
    requires max > 0
    ensures AllRetryTimesOk(max) <==> max <= 32
  {
    if max <= 32 {
      forall steps, step | Possible(EMPTY, max, steps) && CanStep(After(EMPTY, max, steps), step)
        ensures RetryTimeOk(After(EMPTY, max, steps), max, step)
      {
        RunKeepsInv(EMPTY, max, steps);
        RetryTimeIsIntended(max, After(EMPTY, max, steps), step);
      }
    } else {
      var steps := AnyAttemptIsReached(max, 31);
      var mail := After(EMPTY, max, steps);
      var step := Retry("n", Some("e"), mail.rows["n"].nextAttemptAt.value, 0);
      RetryDelayIsIntendedIff(32);
      PendingAgainLater(mail, max, "n", Some("e"), 0);
      assert CanStep(mail, step) && !RetryTimeOk(mail, max, step);
    }
  }
}
