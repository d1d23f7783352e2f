/** What a notification's row tells of its hand-overs, and when the next one may come. */
module DeliveryHistory {
  import opened Basics
  import opened Notifications
  import opened Delivery

  // ----------------------------------------------------------- runs by index

  /** The tables after the first n steps of a run. */
  function At(mail: Mail, max: nat, steps: seq<Step>, n: nat): Mail
    requires Possible(mail, max, steps) && n <= |steps|
    decreases n
  {
    if n == 0 then mail else At(Next(mail, max, steps[0]), max, steps[1..], n - 1)
  }

  lemma {:induction false} AtGoesOn(mail: Mail, max: nat, steps: seq<Step>, n: nat)
    requires Possible(mail, max, steps) && n < |steps|
    ensures CanStep(At(mail, max, steps, n), steps[n])
    ensures At(mail, max, steps, n + 1) == Next(At(mail, max, steps, n), max, steps[n])
    decreases n
  {
    if n == 0 {
      assert At(mail, max, steps, 1) == At(Next(mail, max, steps[0]), max, steps[1..], 0);
    } else {
      AtGoesOn(Next(mail, max, steps[0]), max, steps[1..], n - 1);
    }
  }

  lemma {:induction false} AtTheEnd(mail: Mail, max: nat, steps: seq<Step>)
    requires Possible(mail, max, steps)
    ensures At(mail, max, steps, |steps|) == After(mail, max, steps)
    decreases |steps|
  {
    if steps == [] {
    } else {
      AtTheEnd(Next(mail, max, steps[0]), max, steps[1..]);
    }
  }

  lemma {:induction false} AtKeepsInv(max: nat, steps: seq<Step>, n: nat)
    requires max > 0 && Possible(EMPTY, max, steps) && n <= |steps|
    ensures Inv(At(EMPTY, max, steps, n), max)
    decreases n
  {
    if n == 0 {
    } else {
      AtKeepsInv(max, steps, n - 1);
      AtGoesOn(EMPTY, max, steps, n - 1);
      StepKeepsInv(At(EMPTY, max, steps, n - 1), max, steps[n - 1]);
    }
  }

  // --------------------------------------------------------- rows as histories

  /** How often the notification was handed over in the first n steps. */
  function HandOvers(steps: seq<Step>, n: nat, id: string): nat
    requires n <= |steps|
  {
    if n == 0 then 0 else HandOvers(steps, n - 1, id) + if steps[n - 1].id == id then 1 else 0
  }

  /** The latest of these hand-overs. */
  function LatestOf(steps: seq<Step>, n: nat, id: string): (i: Option<nat>)
    requires n <= |steps|
    ensures i.Some? ==> i.value < n && steps[i.value].id == id
    ensures forall j :: (if i.Some? then i.value + 1 else 0) <= j < n ==> steps[j].id != id
  {
    if n == 0 then None else if steps[n - 1].id == id then Some(n - 1) else LatestOf(steps, n - 1, id)
  }

  /** The hand-over reached the provider, and the provider reported no error. */
  predicate Succeeded(step: Step) {
    step.error.None? && (step.Post? ==> step.message != "")
  }

  /** A new notification without a message is not sent at all. */
  predicate Hopeless(step: Step) {
    step.Post? && step.message == ""
  }

  /** The row after `count` hand-overs, the latest of which was this one. */
  predicate Tells(row: Notification, step: Step, count: nat, max: nat) {
    && row.attempts == count
    && (row.status == Sent <==> Succeeded(step))
    && (row.status == Failed <==> Hopeless(step) || (step.error.Some? && count >= max))
    && row.sentAt == (if Succeeded(step) then Some(step.now) else None)
    && row.lastError == (if Hopeless(step) then Some("missing message") else step.error)
    && row.nextAttemptAt ==
         if row.status == Pending then Some(step.now + RetryDelay(count)) else None
  }

  lemma PostTells(mail: Mail, max: nat, step: Step)
    requires CanStep(mail, step) && max > 0 && step.Post?
    ensures step.id in Next(mail, max, step).rows && Tells(Next(mail, max, step).rows[step.id], step, 1, max)
  {
  }

  lemma RetryTells(mail: Mail, max: nat, step: Step)
    requires Inv(mail, max) && CanStep(mail, step) && step.Retry?
    ensures step.id in Next(mail, max, step).rows
    ensures Tells(Next(mail, max, step).rows[step.id], step, mail.rows[step.id].attempts + 1, max)
  {
    assert RowOk(mail.rows[step.id], max, mail.sends[step.id], Letters(mail.dlq, step.id));
  }

  lemma HandOverTells(mail: Mail, max: nat, step: Step)
    requires Inv(mail, max) && CanStep(mail, step) && max > 0
    ensures step.id in Next(mail, max, step).rows
    ensures Tells(Next(mail, max, step).rows[step.id], step,
                  (if step.id in mail.rows then mail.rows[step.id].attempts else 0) + 1, max)
  {
    if step.Post? {
      PostTells(mail, max, step);
    } else {
      RetryTells(mail, max, step);
    }
  }

  /**
   * After any run a notification's row is what its hand-overs make it: their number, the outcome of the
   * latest, the time it was sent, or else when to try again.
   */
  lemma {:induction false} RowTellsHistory(max: nat, steps: seq<Step>, n: nat, id: string)
    requires max > 0 && Possible(EMPTY, max, steps) && n <= |steps|
    ensures var mail, latest := At(EMPTY, max, steps, n), LatestOf(steps, n, id);
      && (id in mail.rows <==> latest.Some?)
      && (latest.None? ==> HandOvers(steps, n, id) == 0)
      && (latest.Some? ==> Tells(mail.rows[id], steps[latest.value], HandOvers(steps, n, id), max))
    decreases n
  {
    if n == 0 {
    } else {
      var mail, step := At(EMPTY, max, steps, n - 1), steps[n - 1];
      RowTellsHistory(max, steps, n - 1, id);
      AtKeepsInv(max, steps, n - 1);
      AtGoesOn(EMPTY, max, steps, n - 1);
      if step.id == id {
        HandOverTells(mail, max, step);
      } else {
        OthersStay(mail, max, step, id);
      }
    }
  }

  lemma OthersStay(mail: Mail, max: nat, step: Step, id: string)
    requires CanStep(mail, step) && step.id != id
    ensures var mail' := Next(mail, max, step);
      (id in mail'.rows <==> id in mail.rows) && (id in mail.rows ==> mail'.rows[id] == mail.rows[id])
  {
    DeliveredElsewhere(Found(mail, step), max, step.id, step.error, step.now, id);
  }

  /** Nothing is handed over again after a success. */
  lemma {:induction false} SuccessIsTheLast(max: nat, steps: seq<Step>, i: nat, j: nat)
    requires max > 0 && Possible(EMPTY, max, steps) && i < j < |steps| && steps[i].id == steps[j].id
    ensures !Succeeded(steps[i])
    decreases j
  {
    if k: nat :| i < k < j && steps[k].id == steps[i].id {
      SuccessIsTheLast(max, steps, i, k);
    } else {
      RowTellsHistory(max, steps, j, steps[i].id);
      assert LatestOf(steps, j, steps[i].id) == Some(i);
      AtGoesOn(EMPTY, max, steps, j);
    }
  }

  /**
   * In every run a notification is Sent exactly if one of its hand-overs succeeded; then that one is the only
   * success and the last hand-over, and the row bears its time.
   */
  lemma SentIffSucceeded(max: nat, steps: seq<Step>, id: string)
    requires max > 0 && Possible(EMPTY, max, steps)
    ensures var mail := Delivery.After(EMPTY, max, steps);
      && ((id in mail.rows && mail.rows[id].status == Sent) <==>
            exists i :: 0 <= i < |steps| && steps[i].id == id && Succeeded(steps[i]))
      && (forall i :: 0 <= i < |steps| && steps[i].id == id && Succeeded(steps[i]) ==>
            id in mail.rows && mail.rows[id].sentAt == Some(steps[i].now) &&
            forall j :: i < j < |steps| ==> steps[j].id != id)
  {
    var n := |steps|;
    AtTheEnd(EMPTY, max, steps);
    RowTellsHistory(max, steps, n, id);
    forall i | 0 <= i < n && steps[i].id == id && Succeeded(steps[i]) ensures LatestOf(steps, n, id) == Some(i) {
      forall j | i < j < n ensures steps[j].id != id {
        if steps[j].id == id {
          SuccessIsTheLast(max, steps, i, j);
        }
      }
    }
  }

  // ------------------------------------------------------------- dead letters

  /** Every dead letter tells why its notification was given up, and every row whom it was posted for. */
  ghost predicate LettersTellWhy(mail: Mail) {
    forall d :: d in mail.dlq ==>
      && d.notificationId in mail.rows
      && d.reason == if mail.rows[d.notificationId].message == "" then "missing message" else "max attempts reached"
  }

  ghost predicate AddressedAs(row: Notification, step: Step) {
    step.Post? && row.channel == step.channel && row.recipient == step.recipient && row.message == step.message
  }

  ghost predicate PostedBy(mail: Mail, steps: seq<Step>, n: nat, id: string)
    requires n <= |steps|
  {
    id in mail.rows ==> exists i :: 0 <= i < n && steps[i].id == id && AddressedAs(mail.rows[id], steps[i])
  }

  lemma StepAddresses(mail: Mail, max: nat, step: Step)
    requires CanStep(mail, step)
    ensures var rows' := Next(mail, max, step).rows;
      && step.id in rows'
      && (step.Post? ==> AddressedAs(rows'[step.id], step))
      && (step.Retry? ==>
            && rows'[step.id].channel == mail.rows[step.id].channel
            && rows'[step.id].recipient == mail.rows[step.id].recipient
            && rows'[step.id].message == mail.rows[step.id].message)
  {
  }

  lemma StepTellsWhy(mail: Mail, max: nat, step: Step)
    requires CanStep(mail, step) && LettersTellWhy(mail)
    ensures LettersTellWhy(Next(mail, max, step))
  {
    var mail' := Next(mail, max, step);
    StepAddresses(mail, max, step);
    forall d | d in mail'.dlq
      ensures d.notificationId in mail'.rows
      ensures d.reason ==
        if mail'.rows[d.notificationId].message == "" then "missing message" else "max attempts reached"
    {
      if d in mail.dlq && d.notificationId != step.id {
        OthersStay(mail, max, step, d.notificationId);
      }
    }
  }

  /** In every run: what the letters say, and that a row keeps channel, recipient and message of its post. */
  lemma {:induction false} LettersAndAddresses(max: nat, steps: seq<Step>, n: nat, id: string)
    requires Possible(EMPTY, max, steps) && n <= |steps|
    ensures LettersTellWhy(At(EMPTY, max, steps, n)) && PostedBy(At(EMPTY, max, steps, n), steps, n, id)
    decreases n
  {
    if n == 0 {
    } else {
      var mail, step := At(EMPTY, max, steps, n - 1), steps[n - 1];
      LettersAndAddresses(max, steps, n - 1, id);
      AtGoesOn(EMPTY, max, steps, n - 1);
      StepTellsWhy(mail, max, step);
      StepAddresses(mail, max, step);
      if step.id != id {
        OthersStay(mail, max, step, id);
      }
    }
  }

  // ------------------------------------------------------------------- waiting

  /** A retry is listed no earlier than the delay after the hand-over before it. */
  lemma RetriesKeepTheirDelay(max: nat, steps: seq<Step>, i: nat, j: nat, id: string)
    requires max > 0 && Possible(EMPTY, max, steps) && i < j < |steps| && steps[i].id == steps[j].id == id
    requires forall k :: i < k < j ==> steps[k].id != id
    ensures steps[j].Retry? && steps[j].listed >= steps[i].now + RetryDelay(HandOvers(steps, i + 1, id))
  {
    RowTellsHistory(max, steps, j, id);
    AtGoesOn(EMPTY, max, steps, j);
    assert LatestOf(steps, j, id) == Some(i);
    HandOversBetween(steps, i + 1, j, id);
  }

  lemma {:induction false} HandOversBetween(steps: seq<Step>, i: nat, j: nat, id: string)
    requires i <= j <= |steps| && forall k :: i <= k < j ==> steps[k].id != id
    ensures HandOvers(steps, j, id) == HandOvers(steps, i, id)
    decreases j
  {
    if i < j {
      HandOversBetween(steps, i, j - 1, id);
    }
  }

  /** The delays in seconds: 5, 10, 20, 40, 80, 160, and 300 from the seventh attempt up to the 31st. */
  lemma DelaysInSeconds(attempt: int)
    requires 1 <= attempt <= 31
    ensures RetryDelay(attempt) ==
      (if attempt <= 6 then [5, 10, 20, 40, 80, 160][attempt - 1] else 300) * 1_000_000_000
  {
    RetryDelayIsIntendedIff(attempt);
    if attempt >= 2 {
      IntendedIsCapped(attempt - 1);
    }
    assert Pow2(0) == 1 && Pow2(1) == 2 && Pow2(2) == 4 && Pow2(3) == 8 && Pow2(4) == 16 && Pow2(5) == 32;
  }
}
