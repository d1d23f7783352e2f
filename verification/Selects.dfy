/**
 * The cascade of a call select by select: up to eight statements, each on what is committed and unlocked
 * when it runs.
 */
module Selects {
  import opened Basics
  import opened Routing
  import opened Fairness

  /** The selects in order: two passes each for boosted appointments, preferred ones, walk-ins, all others. */
  const STAGES: nat := 8

  /** Select number i is issued under this preference, and its WHERE clause admits the candidate. */
  predicate StageMatches(p: Preference, i: nat, c: Candidate) {
    var filter := if i % 2 == 1 then AnyClass else if p.regular then OnlyRegular else NotRegular;
    && i < STAGES
    && (i < 2 ==> p.boostCutoff.Some?) && (2 <= i < 4 ==> p.appointment)
    && Matches(c, i < 4 || i >= 6, filter, if i < 2 then p.boostCutoff else None)
  }

  /** What select number i finds in its view; one that is not issued finds nothing. */
  ghost predicate Finds(view: View, p: Preference, i: nat, pick: Option<string>) {
    match pick
    case None => forall id :: id in view ==> !StageMatches(p, i, view[id])
    case Some(best) =>
      && best in view && StageMatches(p, i, view[best])
      && forall id :: id in view && StageMatches(p, i, view[id]) ==> SortsBefore(view[best], view[id])
  }

  /** A successful call with the views of the selects that it ran; the last one found the pick. */
  datatype StagedCall = StagedCall(policy: Policy, at: Time, pick: string, views: seq<View>)

  function LastView(c: StagedCall): View {
    if c.views == [] then map[] else c.views[|c.views| - 1]
  }

  /** The call as the routing row records it. */
  function RecordOf(c: StagedCall): CallRecord {
    CallRecord(LastView(c), LastView(c), c.policy, c.at, c.pick)
  }

  function Records(calls: seq<StagedCall>): seq<CallRecord> {
    seq(|calls|, i requires 0 <= i < |calls| => RecordOf(calls[i]))
  }

  ghost predicate FindNothing(views: seq<View>, p: Preference, n: nat)
    requires n <= |views|
  {
    forall i :: 0 <= i < n ==> Finds(views[i], p, i, None)
  }

  /** All selects before the last found nothing, the last one its pick. */
  ghost predicate StagedObeys(limit: int, row: RoutingRow, c: StagedCall) {
    var p := Prefer(limit, row, c.policy, c.at);
    && 0 < |c.views| <= STAGES
    && FindNothing(c.views, p, |c.views| - 1)
    && Finds(LastView(c), p, |c.views| - 1, Some(c.pick))
  }

  ghost predicate StagedObeysAt(limit: int, start: RoutingRow, calls: seq<StagedCall>, i: nat)
    requires i < |calls|
  {
    StagedObeys(limit, StateAt(start, Records(calls), i), calls[i])
  }

  ghost predicate StagedTrace(limit: int, start: RoutingRow, calls: seq<StagedCall>) {
    forall i :: 0 <= i < |calls| ==> StagedObeysAt(limit, start, calls, i)
  }

  lemma StagedTraceExtends(limit: int, start: RoutingRow, calls: seq<StagedCall>, c: StagedCall)
    requires StagedTrace(limit, start, calls) && StagedObeys(limit, Fold(start, Records(calls)), c)
    ensures StagedTrace(limit, start, calls + [c])
    ensures Fold(start, Records(calls + [c])) == Advance(Fold(start, Records(calls)), RecordOf(c))
  {
    assert Records(calls + [c]) == Records(calls) + [RecordOf(c)];
    StateAtExtends(start, Records(calls), RecordOf(c), |calls|);
    forall i | 0 <= i <= |calls| ensures StagedObeysAt(limit, start, calls + [c], i) {
      StateAtExtends(start, Records(calls), RecordOf(c), i);
      assert i < |calls| ==> StagedObeysAt(limit, start, calls, i);
    }
  }

  // ------------------------------------------------------- selects and the ranking

  /** The first select that can find the candidate: its tier, and the pass of its class. */
  function FirstStage(c: Candidate, p: Preference): nat {
    2 * RankOf(c, p).tier + RankOf(c, p).offClass
  }

  lemma FirstStageIsFirst(c: Candidate, p: Preference, i: nat)
    ensures StageMatches(p, FirstStage(c, p), c)
    ensures StageMatches(p, i, c) ==> FirstStage(c, p) <= i
  {
  }

  /** A candidate that no earlier select could find ranks no better than one that this select puts first. */
  lemma LaterRanksNoBetter(p: Preference, k: nat, pick: Candidate, c: Candidate)
    requires StageMatches(p, k, pick) && forall i :: 0 <= i < k ==> !StageMatches(p, i, c)
    requires StageMatches(p, k, c) ==> SortsBefore(pick, c)
    ensures RankLe(RankOf(pick, p), RankOf(c, p))
  {
    FirstStageIsFirst(pick, p, k);
    FirstStageIsFirst(c, p, k);
  }

  /** The candidate was in the view of every select of the call, as it is. */
  ghost predicate SeenThroughout(c: StagedCall, id: string, now: Candidate) {
    forall i :: 0 <= i < |c.views| ==> id in c.views[i] && c.views[i][id] == now
  }

  /** The call ranks its pick no worse than any candidate that all its selects saw. */
  lemma PickIsBestOfSeen(limit: int, row: RoutingRow, c: StagedCall, id: string, now: Candidate)
    requires StagedObeys(limit, row, c) && SeenThroughout(c, id, now)
    ensures var p := Prefer(limit, row, c.policy, c.at); RankLe(RankOf(LastView(c)[c.pick], p), RankOf(now, p))
  {
    var p, k := Prefer(limit, row, c.policy, c.at), |c.views| - 1;
    forall i | 0 <= i < k ensures !StageMatches(p, i, now) {
      assert Finds(c.views[i], p, i, None) && id in c.views[i];
    }
    assert id in c.views[k];
    LaterRanksNoBetter(p, k, LastView(c)[c.pick], now);
  }

  /** On one snapshot the selects find what the ranking puts first. */
  lemma OneSnapshotIsBest(limit: int, row: RoutingRow, c: StagedCall, view: View)
    requires StagedObeys(limit, row, c) && forall i :: 0 <= i < |c.views| ==> c.views[i] == view
    ensures Best(view, Prefer(limit, row, c.policy, c.at), c.pick)
  {
    var p := Prefer(limit, row, c.policy, c.at);
    forall id | id in view ensures RankLe(RankOf(view[c.pick], p), RankOf(view[id], p)) {
      PickIsBestOfSeen(limit, row, c, id, view[id]);
    }
  }

  /** On this one snapshot all selects before number k find nothing, and number k finds this ticket. */
  ghost predicate FoundBy(view: View, p: Preference, k: nat, pick: string) {
    k < STAGES && (forall i :: 0 <= i < k ==> Finds(view, p, i, None)) && Finds(view, p, k, Some(pick))
  }

  lemma BestIsFound(view: View, p: Preference, pick: string)
    requires Best(view, p, pick)
    ensures FoundBy(view, p, FirstStage(view[pick], p), pick)
  {
    var k := FirstStage(view[pick], p);
    FirstStageIsFirst(view[pick], p, k);
    forall i: nat, id | i <= k && id in view && StageMatches(p, i, view[id])
      ensures i == k && SortsBefore(view[pick], view[id])
    {
      FirstStageIsFirst(view[id], p, i);
    }
  }

  /** The cascade finds on one snapshot exactly the tickets of least rank. */
  lemma CascadeFindsBestIff(view: View, p: Preference, pick: string)
    ensures (exists k: nat :: FoundBy(view, p, k, pick)) <==> Best(view, p, pick)
  {
    if k: nat :| FoundBy(view, p, k, pick) {
      forall id | id in view ensures RankLe(RankOf(view[pick], p), RankOf(view[id], p)) {
        forall i | 0 <= i < k ensures !StageMatches(p, i, view[id]) {
          assert Finds(view, p, i, None);
        }
        LaterRanksNoBetter(p, k, view[pick], view[id]);
      }
    }
    if Best(view, p, pick) {
      BestIsFound(view, p, pick);
    }
  }

  // ----------------------------------------------------------------------- fairness

  /** Every select of the call saw an unlocked regular walk-in, not necessarily the same. */
  ghost predicate RegularInSight(c: StagedCall) {
    forall i :: 0 <= i < |c.views| ==> ShowsRegularWalkin(c.views[i])
  }

  ghost predicate ShowsRegularWalkin(view: View) {
    exists id :: id in view && RegularWalkin(view[id])
  }

  ghost predicate SoundViews(c: StagedCall) {
    forall i :: 0 <= i < |c.views| ==> AppointmentsAreRegular(c.views[i])
  }

  /** At a full streak the fifth select, that for regular walk-ins, finds one if there is one. */
  lemma RegularStopsTheCascade(view: View, p: Preference)
    requires p.regular && ShowsRegularWalkin(view)
    ensures !Finds(view, p, 4, None)
  {
    var id :| id in view && RegularWalkin(view[id]);
    assert StageMatches(p, 4, view[id]);
  }

  /** Once the streak has reached the limit, a regular walk-in in sight of every select forces a regular call. */
  lemma FullStreakCallsRegularStaged(limit: int, row: RoutingRow, c: StagedCall)
    requires StagedObeys(limit, row, c) && row.streak >= limit
    requires RegularInSight(c) && SoundViews(c)
    ensures CalledClass(RecordOf(c)) == REGULAR
  {
    var p, k := Prefer(limit, row, c.policy, c.at), |c.views| - 1;
    assert k <= 4 by {
      if k > 4 {
        RegularStopsTheCascade(c.views[4], p);
      }
    }
    assert AppointmentsAreRegular(c.views[k]);
  }

  ghost predicate NamedViews(c: StagedCall) {
    forall i :: 0 <= i < |c.views| ==> ClassesAreNamed(c.views[i])
  }

  /**
   * In any limit + 1 consecutive calls, each with a regular walk-in in sight of all its selects, some called
   * ticket is regular.
   */
  lemma RegularWithinLimitStaged(limit: nat, start: RoutingRow, calls: seq<StagedCall>, from: nat)
    requires StagedTrace(limit, start, calls) && start.streak >= 0 && from + limit + 1 <= |calls|
    requires forall i :: from <= i < from + limit + 1 ==>
        RegularInSight(calls[i]) && SoundViews(calls[i]) && NamedViews(calls[i])
    ensures exists i :: from <= i < from + limit + 1 && CalledClass(RecordOf(calls[i])) == REGULAR
  {
    forall i | from <= i < from + limit + 1
      ensures CalledClass(Records(calls)[i]) != ""
      ensures StateAt(start, Records(calls), i).streak >= limit ==> CalledClass(Records(calls)[i]) == REGULAR
    {
      assert StagedObeysAt(limit, start, calls, i) && ClassesAreNamed(LastView(calls[i]));
      if StateAt(start, Records(calls), i).streak >= limit {
        FullStreakCallsRegularStaged(limit, StateAt(start, Records(calls), i), calls[i]);
      }
    }
    StreakBound(limit, start, Records(calls), from);
  }

  /** All selects of the call saw `x` as this regular walk-in, and no quota or boost favours appointments. */
  ghost predicate WaitsThroughStaged(c: StagedCall, x: string, row: Candidate) {
    && SeenThroughout(c, x, row) && RegularWalkin(row)
    && c.policy.ratioPercent <= 0 && c.policy.boostMinutes <= 0
  }

  /** Such a call, if regular, takes a regular walk-in no younger than `x`. */
  lemma RegularCallServesNoYounger(limit: int, row: RoutingRow, c: StagedCall, x: string, now: Candidate)
    requires StagedObeys(limit, row, c) && WaitsThroughStaged(c, x, now)
    requires CalledClass(RecordOf(c)) == REGULAR
    ensures RegularWalkin(LastView(c)[c.pick]) && LastView(c)[c.pick].createdAt <= now.createdAt
  {
    PickIsBestOfSeen(limit, row, c, x, now);
  }
}
