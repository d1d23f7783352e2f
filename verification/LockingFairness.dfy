/** Fairness and bounded waiting for the committed calls of every interleaving. */
module LockingFairness {
  import opened Basics
  import opened Tickets
  import opened Routing
  import opened Fairness
  import opened Selects
  import opened StoreSpec
  import opened StoreWaiting
  import opened Locking

  // ------------------------------------------------------------ named classes

  /** The guard of the HTTP layer: an inserted row names its class. */
  predicate NamesClass(step: Step) {
    step.InsertRow? ==> step.row.priorityClass != ""
  }

  predicate NamesClasses(steps: seq<Step>) {
    forall i :: 0 <= i < |steps| ==> NamesClass(steps[i])
  }

  predicate NamedRows(rows: map<string, TicketRow>) {
    forall id :: id in rows ==> rows[id].priorityClass != ""
  }

  function ViewsOf(w: Work): seq<View> {
    match w
    case Moving(_, _, _) => []
    case Selecting(_, _, _, _, views) => views
    case Chosen(_, _, call, _, _) => call.views
  }

  ghost predicate NamedAll(views: seq<View>) {
    forall i :: 0 <= i < |views| ==> ClassesAreNamed(views[i])
  }

  ghost predicate CallsNamed(calls: seq<StagedCall>) {
    forall i :: 0 <= i < |calls| ==> NamedAll(calls[i].views)
  }

  /** Every row, committed or not, and every view of a call shows named classes only. */
  ghost predicate NamedInv(s: Sys) {
    && NamedRows(s.db.tickets)
    && (forall t :: t in s.txs ==> NamedRows(PendingOf(s.txs[t])) && NamedAll(ViewsOf(s.txs[t])))
    && forall key :: CallsNamed(CallsOf(s, key))
  }

  lemma ViewsShowNamedClasses(db: Db, key: Key, skipped: set<string>)
    requires NamedRows(db.tickets)
    ensures ClassesAreNamed(ServiceView(db, key, skipped))
  {
  }

  lemma CommitKeepsNamed(s: Sys, tx: string)
    requires NamedInv(s) && tx in s.txs
    ensures NamedInv(Committed(s, tx))
  {
    var s' := Committed(s, tx);
    assert NamedRows(PendingOf(s.txs[tx])) && NamedAll(ViewsOf(s.txs[tx]));
    forall key ensures CallsNamed(CallsOf(s', key)) {
      assert CallsNamed(CallsOf(s, key));
    }
  }

  lemma WorkKeepsNamed(s: Sys, s': Sys, tx: string)
    requires NamedInv(s) && OnlyWork(s, s', tx)
    requires tx in s'.txs ==> NamedRows(PendingOf(s'.txs[tx])) && NamedAll(ViewsOf(s'.txs[tx]))
    ensures NamedInv(s')
  {
    forall key ensures CallsNamed(CallsOf(s', key)) {
      assert CallsNamed(CallsOf(s, key));
    }
  }

  lemma MoreNamedViews(views: seq<View>, view: View)
    requires NamedAll(views) && ClassesAreNamed(view)
    ensures NamedAll(views + [view])
  {
  }

  lemma SelectNoneKeepsNamed(limit: int, s: Sys, tx: string)
    requires NamedInv(s) && CanStep(limit, s, SelectNone(tx))
    ensures NamedInv(Next(limit, s, SelectNone(tx)))
  {
    var w := s.txs[tx];
    ViewsShowNamedClasses(s.db, w.key, SkippedBy(s, tx));
    assert NamedAll(ViewsOf(w));
    MoreNamedViews(w.views, SelectView(s, tx, w.key));
    WorkKeepsNamed(s, Next(limit, s, SelectNone(tx)), tx);
  }

  lemma SelectOneKeepsNamed(limit: int, s: Sys, tx: string, counter: string, pick: string)
    requires NamedInv(s) && CanStep(limit, s, SelectOne(tx, counter, pick))
    ensures NamedInv(Next(limit, s, SelectOne(tx, counter, pick)))
  {
    var w := s.txs[tx];
    ViewsShowNamedClasses(s.db, w.key, SkippedBy(s, tx));
    assert NamedAll(ViewsOf(w)) && pick in s.db.tickets;
    MoreNamedViews(w.views, SelectView(s, tx, w.key));
    WorkKeepsNamed(s, Next(limit, s, SelectOne(tx, counter, pick)), tx);
  }

  lemma RowKeepsNamed(limit: int, s: Sys, step: Step)
    requires NamedInv(s) && CanStep(limit, s, step) && NamesClass(step) && (step.MoveRow? || step.InsertRow?)
    ensures NamedInv(Next(limit, s, step))
  {
    assert NamedRows(PendingOf(s.txs[step.tx]));
    WorkKeepsNamed(s, Next(limit, s, step), step.tx);
  }

  lemma AppointmentKeepsNamed(limit: int, s: Sys, step: Step)
    requires NamedInv(s) && CanStep(limit, s, step) && (step.SeeAppointment? || step.MarkAppointment?)
    ensures NamedInv(Next(limit, s, step))
  {
    assert NamedRows(PendingOf(s.txs[step.tx]));
    WorkKeepsNamed(s, Next(limit, s, step), step.tx);
  }

  lemma StepKeepsNamed(limit: int, s: Sys, step: Step)
    requires NamedInv(s) && CanStep(limit, s, step) && NamesClass(step)
    ensures NamedInv(Next(limit, s, step))
  {
    match step
    case Commit(tx) => CommitKeepsNamed(s, tx);
    case SelectNone(tx) => SelectNoneKeepsNamed(limit, s, tx);
    case SelectOne(tx, counter, pick) => SelectOneKeepsNamed(limit, s, tx, counter, pick);
    case Book(_, _) =>
      forall key ensures CallsNamed(CallsOf(Next(limit, s, step), key)) {
        assert CallsNamed(CallsOf(s, key));
      }
    case MoveRow(_, _, _) => RowKeepsNamed(limit, s, step);
    case InsertRow(_, _) => RowKeepsNamed(limit, s, step);
    case SeeAppointment(_, _) => AppointmentKeepsNamed(limit, s, step);
    case MarkAppointment(_, _) => AppointmentKeepsNamed(limit, s, step);
    case Begin(tx) => WorkKeepsNamed(s, Next(limit, s, step), tx);
    case LockRoute(tx, _, _, _) => WorkKeepsNamed(s, Next(limit, s, step), tx);
    case Abort(tx) => WorkKeepsNamed(s, Next(limit, s, step), tx);
  }

  lemma {:induction false} EveryInterleavingKeepsNames(limit: int, steps: seq<Step>, n: nat)
    requires Possible(limit, steps) && n <= |steps| && NamesClasses(steps)
    ensures NamedInv(SysAfter(limit, steps, n))
  {
    if n > 0 {
      EveryInterleavingKeepsNames(limit, steps, n - 1);
      assert PossibleAt(limit, steps, n - 1);
      StepKeepsNamed(limit, SysAfter(limit, steps, n - 1), steps[n - 1]);
    }
  }

  // ---------------------------------------------------------------- the streak

  /**
   * Under every interleaving in which inserted tickets name their class, limit + 1 consecutive committed
   * calls, each with a regular walk-in in sight of all its selects, include a regular one, whatever
   * appointments compete.
   */
  lemma InterleavedCallsAreFair(limit: nat, steps: seq<Step>, key: Key, from: nat)
    requires Possible(limit, steps) && NamesClasses(steps)
    requires from + limit + 1 <= |CallsOf(Locking.Run(limit, steps), key)|
    requires forall i :: from <= i < from + limit + 1 ==> RegularInSight(CallsOf(Locking.Run(limit, steps), key)[i])
    ensures exists i ::
      from <= i < from + limit + 1 && CalledClass(RecordOf(CallsOf(Locking.Run(limit, steps), key)[i])) == REGULAR
  {
    InterleavedCallsAreSound(limit, steps, key);
    var k := WithinLimit(limit, CallsOf(Locking.Run(limit, steps), key), from);
  }

  /** The calls of a service as a history from a fresh row, with views as the names and appointments allow. */
  ghost predicate SoundCalls(limit: int, calls: seq<StagedCall>) {
    StagedTrace(limit, FRESH, calls) && forall i :: 0 <= i < |calls| ==> SoundCall(calls[i])
  }

  ghost predicate SoundCall(c: StagedCall) {
    SoundViews(c) && NamedViews(c)
  }

  lemma InterleavedCallsAreSound(limit: int, steps: seq<Step>, key: Key)
    requires Possible(limit, steps) && NamesClasses(steps)
    ensures SoundCalls(limit, CallsOf(Locking.Run(limit, steps), key))
  {
    EveryInterleavingKeepsInv(limit, steps, |steps|);
    EveryInterleavingKeepsNames(limit, steps, |steps|);
    var calls := CallsOf(Locking.Run(limit, steps), key);
    assert RoutingIsFoldOf(limit, Locking.Run(limit, steps), key) && CallsNamed(calls);
    forall i | 0 <= i < |calls| ensures SoundCall(calls[i]) {
      assert RegularViews(calls[i].views) && NamedAll(calls[i].views);
    }
  }

  lemma WithinLimit(limit: nat, calls: seq<StagedCall>, from: nat) returns (k: nat)
    requires SoundCalls(limit, calls) && from + limit + 1 <= |calls|
    requires forall i :: from <= i < from + limit + 1 ==> RegularInSight(calls[i])
    ensures from <= k < from + limit + 1 && CalledClass(RecordOf(calls[k])) == REGULAR
  {
    assert forall i :: from <= i < from + limit + 1 ==> SoundCall(calls[i]);
    RegularWithinLimitStaged(limit, FRESH, calls, from);
    k :| from <= k < from + limit + 1 && CalledClass(RecordOf(calls[k])) == REGULAR;
  }

  // ------------------------------------------------------------------- waiting

  /**
   * The step leaves the waiting walk-in `x` alone: no commit touches it or puts a regular walk-in no younger
   * into the queue, and every call of its service that commits saw it with all its selects, under ratio and
   * boost 0.
   */
  ghost predicate Leaves(s: Sys, step: Step, key: Key, x: string, born: Time) {
    step.Commit? && step.tx in s.txs && x in s.db.tickets && Joins(s.db, s.db.tickets[x]) ==>
      var w := s.txs[step.tx];
      && x !in PendingOf(w)
      && (forall id :: id in PendingOf(w) && AheadRow(PendingOf(w)[id], key, born) ==>
            id in s.db.tickets && AheadRow(s.db.tickets[id], key, born))
      && (w.Chosen? && w.key == key ==> WaitsThroughStaged(w.call, x, CandidateOf(s.db, s.db.tickets[x])))
  }

  ghost predicate LeavesAt(limit: int, steps: seq<Step>, i: nat, key: Key, x: string, born: Time)
    requires i < |steps|
  {
    Leaves(SysAfter(limit, steps, i), steps[i], key, x, born)
  }

  /** The call of this service that the step commits, if it commits one. */
  function CommittedCall(s: Sys, step: Step, key: Key): Option<StagedCall> {
    if step.Commit? && step.tx in s.txs && s.txs[step.tx].Chosen? && s.txs[step.tx].key == key
    then Some(s.txs[step.tx].call) else None
  }

  lemma StepCalls(limit: int, s: Sys, step: Step, key: Key)
    requires CanStep(limit, s, step)
    ensures CallsOf(Next(limit, s, step), key) ==
      CallsOf(s, key) + if CommittedCall(s, step, key).Some? then [CommittedCall(s, step, key).value] else []
  {
  }

  /** Rows change by commits only. */
  lemma StepRows(limit: int, s: Sys, step: Step)
    requires CanStep(limit, s, step)
    ensures Next(limit, s, step).db.tickets ==
      if step.Commit? then s.db.tickets + PendingOf(s.txs[step.tx]) else s.db.tickets
  {
  }

  lemma QueuedByRow(db: Db, key: Key, x: string, born: Time)
    ensures QueuedRegular(db, key, x, born) <==>
      x in db.tickets && AheadRow(db.tickets[x], key, born) && db.tickets[x].createdAt == born
  {
  }

  /** Such a step keeps `x` queued, adds nobody to the queue ahead, and takes out whom it calls. */
  lemma StepShrinks(limit: int, s: Sys, step: Step, key: Key, x: string, born: Time)
    requires CallsHold(limit, s) && CanStep(limit, s, step) && QueuedRegular(s.db, key, x, born)
    requires Leaves(s, step, key, x, born)
    ensures var s' := Next(limit, s, step);
      && QueuedRegular(s'.db, key, x, born)
      && QueueAhead(s'.db, key, x, born) <= QueueAhead(s.db, key, x, born)
      && (CommittedCall(s, step, key).Some? ==>
            CommittedCall(s, step, key).value.pick !in QueueAhead(s'.db, key, x, born))
  {
    var s' := Next(limit, s, step);
    StepRows(limit, s, step);
    QueuedByRow(s.db, key, x, born);
    QueuedByRow(s'.db, key, x, born);
    forall id ensures id in QueueAhead(s'.db, key, x, born) ==> id in QueueAhead(s.db, key, x, born) {
      QueueAheadByRows(s.db, key, x, born, id);
      QueueAheadByRows(s'.db, key, x, born, id);
    }
    var call := CommittedCall(s, step, key);
    if call.Some? {
      assert CallHolds(limit, s, s.txs[step.tx]);
      QueueAheadByRows(s'.db, key, x, born, call.value.pick);
    }
  }

  /** A regular call that saw `x` takes somebody of the queue ahead. */
  lemma RegularCallServes(limit: int, s: Sys, step: Step, key: Key, x: string, born: Time)
    requires CallsHold(limit, s) && CanStep(limit, s, step) && QueuedRegular(s.db, key, x, born)
    requires Leaves(s, step, key, x, born) && CommittedCall(s, step, key).Some?
    ensures var call := CommittedCall(s, step, key).value;
      && WaitsThroughStaged(call, x, CandidateOf(s.db, s.db.tickets[x]))
      && (CalledClass(RecordOf(call)) == REGULAR ==> call.pick in QueueAhead(s.db, key, x, born))
  {
    var w := s.txs[step.tx];
    assert CallHolds(limit, s, w);
    if CalledClass(RecordOf(w.call)) == REGULAR {
      RegularCallServesNoYounger(limit, w.read, w.call, x, CandidateOf(s.db, s.db.tickets[x]));
      QueueAheadByRows(s.db, key, x, born, w.call.pick);
    }
  }

  function PicksOf(calls: seq<StagedCall>): seq<string> {
    seq(|calls|, i requires 0 <= i < |calls| => calls[i].pick)
  }

  /** The call had a regular walk-in in sight throughout, and if regular, took somebody of this queue. */
  ghost predicate CallServes(c: StagedCall, ahead: set<string>) {
    RegularInSight(c) && (CalledClass(RecordOf(c)) == REGULAR ==> c.pick in ahead)
  }

  ghost predicate AllServe(calls: seq<StagedCall>, ahead: seq<set<string>>)
    requires |calls| == |ahead|
  {
    forall i :: 0 <= i < |calls| ==> CallServes(calls[i], ahead[i])
  }

  /** The queue went from `first` to `last`, and was `ahead[i]` when call i committed. */
  ghost predicate Story(calls: seq<StagedCall>, ahead: seq<set<string>>, first: set<string>, last: set<string>) {
    && |calls| == |ahead| && AllServe(calls, ahead) && Shrinks(ahead, PicksOf(calls))
    && last <= first
    && (calls != [] ==> ahead[0] <= first && last <= ahead[|ahead| - 1] - {calls[|calls| - 1].pick})
  }

  lemma StoryGoesOn(calls: seq<StagedCall>, ahead: seq<set<string>>, first: set<string>, mid: set<string>,
                    c: StagedCall, last: set<string>)
    requires Story(calls, ahead, first, mid) && CallServes(c, mid) && last <= mid - {c.pick}
    ensures Story(calls + [c], ahead + [mid], first, last)
  {
    var picks, picks' := PicksOf(calls), PicksOf(calls + [c]);
    assert picks' == picks + [c.pick];
    forall i | 0 <= i < |picks'| - 1 ensures LosesPick(ahead + [mid], picks', i) {
      if i + 1 < |calls| {
        assert LosesPick(ahead, picks, i);
      }
    }
  }

  lemma StoryWith(calls: seq<StagedCall>, ahead: seq<set<string>>, first: set<string>, mid: set<string>,
                  call: Option<StagedCall>, last: set<string>)
      returns (calls': seq<StagedCall>, ahead': seq<set<string>>)
    requires Story(calls, ahead, first, mid) && last <= mid
    requires call.Some? ==> CallServes(call.value, mid) && call.value.pick !in last
    ensures Story(calls', ahead', first, last)
    ensures calls' == calls + if call.Some? then [call.value] else []
  {
    calls', ahead' := calls, ahead;
    if call.Some? {
      StoryGoesOn(calls, ahead, first, mid, call.value, last);
      calls', ahead' := calls + [call.value], ahead + [mid];
    }
  }

  /** The story of the calls that steps `from` to n commit. */
  lemma {:induction false} InterleavedStory(limit: int, steps: seq<Step>, from: nat, n: nat, key: Key, x: string,
                                           born: Time)
      returns (calls: seq<StagedCall>, ahead: seq<set<string>>)
    requires Possible(limit, steps) && from <= n <= |steps|
    requires QueuedRegular(SysAfter(limit, steps, from).db, key, x, born)
    requires forall i :: from <= i < |steps| ==> LeavesAt(limit, steps, i, key, x, born)
    ensures QueuedRegular(SysAfter(limit, steps, n).db, key, x, born)
    ensures CallsOf(SysAfter(limit, steps, n), key) == CallsOf(SysAfter(limit, steps, from), key) + calls
    ensures Story(calls, ahead, QueueAhead(SysAfter(limit, steps, from).db, key, x, born),
                  QueueAhead(SysAfter(limit, steps, n).db, key, x, born))
    decreases n
  {
    calls, ahead := [], [];
    if n > from {
      calls, ahead := InterleavedStory(limit, steps, from, n - 1, key, x, born);
      EveryInterleavingKeepsInv(limit, steps, n - 1);
      assert PossibleAt(limit, steps, n - 1) && LeavesAt(limit, steps, n - 1, key, x, born);
      var s, first := SysAfter(limit, steps, n - 1), QueueAhead(SysAfter(limit, steps, from).db, key, x, born);
      calls, ahead := StoryStep(limit, s, steps[n - 1], key, x, born, calls, ahead, first,
                                CallsOf(SysAfter(limit, steps, from), key));
    }
  }

  lemma SeenIsInSight(c: StagedCall, x: string, row: Candidate)
    requires WaitsThroughStaged(c, x, row)
    ensures RegularInSight(c)
  {
    assert forall i :: 0 <= i < |c.views| ==> x in c.views[i] && RegularWalkin(c.views[i][x]);
  }

  lemma CallFits(limit: int, s: Sys, step: Step, key: Key, x: string, born: Time)
    requires CallsHold(limit, s) && CanStep(limit, s, step) && QueuedRegular(s.db, key, x, born)
    requires Leaves(s, step, key, x, born)
    ensures CommittedCall(s, step, key).Some? ==>
      CallServes(CommittedCall(s, step, key).value, QueueAhead(s.db, key, x, born))
  {
    if CommittedCall(s, step, key).Some? {
      RegularCallServes(limit, s, step, key, x, born);
      SeenIsInSight(CommittedCall(s, step, key).value, x, CandidateOf(s.db, s.db.tickets[x]));
    }
  }

  lemma StoryStep(limit: int, s: Sys, step: Step, key: Key, x: string, born: Time, calls: seq<StagedCall>,
                  ahead: seq<set<string>>, first: set<string>, before: seq<StagedCall>)
      returns (calls': seq<StagedCall>, ahead': seq<set<string>>)
    requires CallsHold(limit, s) && CanStep(limit, s, step) && QueuedRegular(s.db, key, x, born)
    requires Leaves(s, step, key, x, born)
    requires CallsOf(s, key) == before + calls && Story(calls, ahead, first, QueueAhead(s.db, key, x, born))
    ensures var s' := Next(limit, s, step);
      && QueuedRegular(s'.db, key, x, born) && CallsOf(s', key) == before + calls'
      && Story(calls', ahead', first, QueueAhead(s'.db, key, x, born))
  {
    var call := CommittedCall(s, step, key);
    StepShrinks(limit, s, step, key, x, born);
    StepCalls(limit, s, step, key);
    CallFits(limit, s, step, key, x, born);
    calls', ahead' := StoryWith(calls, ahead, first, QueueAhead(s.db, key, x, born), call,
                                QueueAhead(Next(limit, s, step).db, key, x, born));
  }

  /**
   * Bounded waiting under every interleaving: while steps leave the regular walk-in `x` alone and waiting,
   * fewer than (k + 1) * (limit + 1) calls of its service commit, k being the number of regular walk-ins
   * no younger that are queued at the start.
   */
  lemma InterleavedWaitIsBounded(limit: nat, steps: seq<Step>, from: nat, key: Key, x: string, born: Time)
    requires Possible(limit, steps) && NamesClasses(steps) && from <= |steps|
    requires QueuedRegular(SysAfter(limit, steps, from).db, key, x, born)
    requires forall i :: from <= i < |steps| ==> LeavesAt(limit, steps, i, key, x, born)
    ensures |CallsOf(Locking.Run(limit, steps), key)| - |CallsOf(SysAfter(limit, steps, from), key)| <
      (|QueueAhead(SysAfter(limit, steps, from).db, key, x, born)| + 1) * (limit + 1)
  {
    var first := QueueAhead(SysAfter(limit, steps, from).db, key, x, born);
    var calls, ahead := InterleavedStory(limit, steps, from, |steps|, key, x, born);
    InterleavedCallsAreSound(limit, steps, key);
    var before := CallsOf(SysAfter(limit, steps, from), key);
    StoryBounds(limit, before, calls, ahead, first, QueueAhead(Locking.Run(limit, steps).db, key, x, born));
  }

  lemma StoryBounds(limit: nat, before: seq<StagedCall>, calls: seq<StagedCall>, ahead: seq<set<string>>,
                    first: set<string>, last: set<string>)
    requires SoundCalls(limit, before + calls)
    requires Story(calls, ahead, first, last)
    ensures |calls| < (|first| + 1) * (limit + 1)
  {
    var picks, block := PicksOf(calls), limit + 1;
    forall i | 0 <= i && i + block <= |picks| ensures Serves(ahead, picks, block, i) {
      BlockServes(limit, before, calls, ahead, i);
    }
    BlockAtLeastOnce(|first|, block);
    if calls != [] {
      ServedWithinBlocks(ahead, picks, block, 0);
      SubsetIsNoLarger(ahead[0], first);
      MulMonotone(|ahead[0]| + 1, |first| + 1, block);
    }
  }

  lemma SightOfBlock(before: seq<StagedCall>, calls: seq<StagedCall>, ahead: seq<set<string>>, i: nat, block: nat)
    requires |calls| == |ahead| && AllServe(calls, ahead) && i + block <= |calls|
    ensures forall j :: |before| + i <= j < |before| + i + block ==> RegularInSight((before + calls)[j])
  {
    forall j | |before| + i <= j < |before| + i + block ensures RegularInSight((before + calls)[j]) {
      assert CallServes(calls[j - |before|], ahead[j - |before|]);
    }
  }

  lemma RegularServes(calls: seq<StagedCall>, ahead: seq<set<string>>, k: nat)
    requires |calls| == |ahead| && AllServe(calls, ahead) && k < |calls| && CalledClass(RecordOf(calls[k])) == REGULAR
    ensures PicksOf(calls)[k] in ahead[k]
  {
    assert CallServes(calls[k], ahead[k]);
  }

  lemma BlockServes(limit: nat, before: seq<StagedCall>, calls: seq<StagedCall>, ahead: seq<set<string>>, i: nat)
    requires SoundCalls(limit, before + calls)
    requires |calls| == |ahead| && AllServe(calls, ahead) && i + limit + 1 <= |calls|
    ensures Serves(ahead, PicksOf(calls), limit + 1, i)
  {
    SightOfBlock(before, calls, ahead, i, limit + 1);
    var j := WithinLimit(limit, before + calls, |before| + i);
    assert (before + calls)[j] == calls[j - |before|];
    RegularServes(calls, ahead, j - |before|);
  }
}
