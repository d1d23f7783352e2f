/** On which classes of tickets the streak bound rests: it fails exactly when both "" and "regular" are in use. */
module StoreStarvation {
  import opened Basics
  import opened Transitions
  import opened EventLog
  import opened Tickets
  import opened Routing
  import opened Fairness
  import opened StoreSpec
  import opened StoreInvariants
  import opened StoreRuns
  import opened StoreFairness

  const DESK := Key("tenant", "branch", "service")

  /** A fresh identifier for each round. */
  function Name(n: nat): (s: string)
    ensures |s| == n + 2 && NoBar(s)
  {
    seq(n + 2, i => 'u')
  }

  function Creation(id: string, priorityClass: string): Command {
    Create(CreateInput(id, DESK.tenantId, DESK.branchId, DESK.serviceId, priorityClass, 1), Some("C"), id, 1)
  }

  function Calling(id: string): Command {
    CallNext(CallInput(id, DESK.tenantId, DESK.branchId, DESK.serviceId, "counter", 1),
             CallEnv(true, true, Some(true), Policy(0, 0, 0), {}), Some(id), 1)
  }

  /** After n rounds the walk-in "w" waits alone, the streak is 0, and longer names are unused. */
  ghost predicate Starving(db: Db, n: nat) {
    && "w" in db.tickets && AloneRow(db.tickets["w"])
    && (forall id :: id in db.tickets && id != "w" ==> db.tickets[id].status == Called)
    && RoutingOf(db, DESK).streak == 0
    && (forall id :: id in db.tickets || id in db.events || id in db.requestIndex || id in db.actions ==> |id| <= n + 1)
  }

  predicate AloneRow(row: TicketRow) {
    && row.status == Waiting && KeyOf(row) == DESK && row.appointmentId.None?
    && row.priorityClass == REGULAR && row.createdAt == 1
  }

  /** A created ticket is of one of these classes; check-ins only make regular appointments. */
  predicate CreatesIn(cmd: Command, classes: iset<string>) {
    cmd.Create? ==> cmd.create.priorityClass in classes
  }

  ghost predicate AllCreateIn(cmds: seq<Command>, classes: iset<string>) {
    forall i :: 0 <= i < |cmds| ==> CreatesIn(cmds[i], classes)
  }

  /** The two classes that clash: tickets without a class are irregular but do not count as such. */
  const CLASHING: iset<string> := iset{"", REGULAR}

  /** An unnamed ticket is created and, being of the preferred irregular class, called at once. */
  lemma OneRound(cfg: Config, db: Db, n: nat) returns (create: Command, call: Command)
    requires Starving(db, n) && cfg.streakLimit > 0
    ensures Enabled(cfg, db, create) && CallOf(cfg, db, create, DESK) == None
    ensures CreatesIn(create, CLASHING) && CreatesIn(call, CLASHING)
    ensures Enabled(cfg, Exec(cfg, db, create).0, call)
    ensures var called := CallOf(cfg, Exec(cfg, db, create).0, call, DESK); called.Some? && PassesRegular(called.value)
    ensures Starving(Exec(cfg, Exec(cfg, db, create).0, call).0, n + 1)
  {
    create, call := Creation(Name(n), ""), Calling(Name(n));
    CreationAddsRow(cfg, db, n);
    ViewOfTwo(Exec(cfg, db, create).0, n);
    CallTakesUnnamed(cfg, Exec(cfg, db, create).0, n);
  }

  /** The call saw a regular walk-in and took a ticket of another class. */
  ghost predicate PassesRegular(c: CallRecord) {
    SeesRegularWalkin(c) && CalledClass(c) != REGULAR
  }

  ghost predicate Created(db: Db, n: nat) {
    && "w" in db.tickets && AloneRow(db.tickets["w"])
    && Name(n) in db.tickets && db.tickets[Name(n)].status == Waiting && KeyOf(db.tickets[Name(n)]) == DESK
    && db.tickets[Name(n)].appointmentId.None? && db.tickets[Name(n)].priorityClass == "" &&
        db.tickets[Name(n)].createdAt == 1
    && (forall id :: id in db.tickets && id != "w" && id != Name(n) ==> db.tickets[id].status == Called)
    && RoutingOf(db, DESK).streak == 0 && Name(n) !in db.actions
    && (forall id :: id in db.tickets || id in db.events || id in db.requestIndex || id in db.actions ==> |id| <= n + 2)
  }

  lemma CreationAddsRow(cfg: Config, db: Db, n: nat)
    requires Starving(db, n)
    ensures Enabled(cfg, db, Creation(Name(n), "")) && Created(Exec(cfg, db, Creation(Name(n), "")).0, n)
  {
  }

  lemma ViewOfTwo(db: Db, n: nat)
    requires Created(db, n)
    ensures ServiceView(db, DESK, {}) == map["w" := Candidate(REGULAR, 1, None), Name(n) := Candidate("", 1, None)]
  {
  }

  lemma UnnamedIsBest(cfg: Config, db: Db, n: nat)
    requires Created(db, n) && cfg.streakLimit > 0
    requires ServiceView(db, DESK, {}) == map["w" := Candidate(REGULAR, 1, None), Name(n) := Candidate("", 1, None)]
    ensures Enabled(cfg, db, Calling(Name(n)))
  {
    var p := CallPreference(cfg, db, Calling(Name(n)).call, Calling(Name(n)).env, 1);
    assert !p.regular && !p.appointment && p.boostCutoff == None;
    assert Best(ServiceView(db, DESK, {}), p, Name(n));
  }

  lemma CallTakesUnnamed(cfg: Config, db: Db, n: nat)
    requires Created(db, n) && cfg.streakLimit > 0
    requires ServiceView(db, DESK, {}) == map["w" := Candidate(REGULAR, 1, None), Name(n) := Candidate("", 1, None)]
    ensures Enabled(cfg, db, Calling(Name(n)))
    ensures CallOf(cfg, db, Calling(Name(n)), DESK).Some? &&
        PassesRegular(CallOf(cfg, db, Calling(Name(n)), DESK).value)
    ensures Starving(Exec(cfg, db, Calling(Name(n))).0, n + 1)
  {
    UnnamedIsBest(cfg, db, n);
    var cmd := Calling(Name(n));
    CallShape(cfg, db, cmd.call, cmd.env, cmd.pick, cmd.now);
    var c := RecordOf(db, cmd.call, cmd.env, Name(n), 1);
    assert RegularWalkin(c.view["w"]);
    UnnamedIsCalled(cfg, db, n);
  }

  lemma UnnamedIsCalled(cfg: Config, db: Db, n: nat)
    requires Created(db, n)
    ensures Starving(CallEffect(cfg, db, Calling(Name(n)).call, Calling(Name(n)).env, Name(n), 1), n + 1)
  {
  }

  lemma {:induction false} StateExtends(cfg: Config, db: Db, cmds: seq<Command>, cmd: Command, n: nat, key: Key)
    requires n <= |cmds|
    ensures StateAfter(cfg, db, cmds + [cmd], n) == StateAfter(cfg, db, cmds, n)
    ensures CallsOf(cfg, db, cmds + [cmd], n, key) == CallsOf(cfg, db, cmds, n, key)
  {
    if n > 0 {
      StateExtends(cfg, db, cmds, cmd, n - 1, key);
    }
  }

  lemma RunGrows(cfg: Config, db: Db, cmds: seq<Command>, cmd: Command, key: Key)
    requires RunEnabled(cfg, db, cmds) && Enabled(cfg, Run(cfg, db, cmds), cmd)
    ensures RunEnabled(cfg, db, cmds + [cmd]) && Run(cfg, db, cmds + [cmd]) == Exec(cfg, Run(cfg, db, cmds), cmd).0
    ensures CallsOf(cfg, db, cmds + [cmd], |cmds| + 1, key)
         == Appended(CallsOf(cfg, db, cmds, |cmds|, key), CallOf(cfg, Run(cfg, db, cmds), cmd, key))
  {
    forall i | 0 <= i <= |cmds| ensures EnabledAt(cfg, db, cmds + [cmd], i) {
      StateExtends(cfg, db, cmds, cmd, i, key);
      assert i < |cmds| ==> EnabledAt(cfg, db, cmds, i);
    }
    StateExtends(cfg, db, cmds, cmd, |cmds|, key);
  }

  ghost predicate AllPassRegular(calls: seq<CallRecord>) {
    forall i :: 0 <= i < |calls| ==> PassesRegular(calls[i])
  }

  /**
   * For every n there is a run from the empty store, with tickets of the two classes only and n successful
   * calls, at each of which a regular walk-in waits and none of which calls a regular ticket.
   */
  lemma {:induction false} UnnamedClassCanStarve(cfg: Config, n: nat) returns (cmds: seq<Command>)
    requires cfg.streakLimit > 0
    ensures RunEnabled(cfg, EMPTY_DB, cmds) && Starving(Run(cfg, EMPTY_DB, cmds), n)
    ensures AllCreateIn(cmds, CLASHING)
    ensures |CallsOf(cfg, EMPTY_DB, cmds, |cmds|, DESK)| == n
    ensures AllPassRegular(CallsOf(cfg, EMPTY_DB, cmds, |cmds|, DESK))
  {
    if n == 0 {
      cmds := FirstRun(cfg);
    } else {
      cmds := UnnamedClassCanStarve(cfg, n - 1);
      cmds := NextRound(cfg, cmds, n - 1);
    }
  }

  lemma FirstRun(cfg: Config) returns (cmds: seq<Command>)
    ensures RunEnabled(cfg, EMPTY_DB, cmds) && Starving(Run(cfg, EMPTY_DB, cmds), 0)
    ensures AllCreateIn(cmds, CLASHING)
    ensures CallsOf(cfg, EMPTY_DB, cmds, |cmds|, DESK) == []
  {
    var cmd := FirstCreation(cfg);
    RunGrows(cfg, EMPTY_DB, [], cmd, DESK);
    cmds := [] + [cmd];
  }

  /** A run that has made exactly these calls and come to this state. */
  ghost predicate Leads(cfg: Config, cmds: seq<Command>, calls: seq<CallRecord>, db: Db) {
    RunEnabled(cfg, EMPTY_DB, cmds) && CallsOf(cfg, EMPTY_DB, cmds, |cmds|, DESK) == calls &&
        Run(cfg, EMPTY_DB, cmds) == db
  }

  lemma LeadsOn(cfg: Config, cmds: seq<Command>, calls: seq<CallRecord>, db: Db, cmd: Command)
    requires Leads(cfg, cmds, calls, db) && Enabled(cfg, db, cmd)
    ensures Leads(cfg, cmds + [cmd], Appended(calls, CallOf(cfg, db, cmd, DESK)), Exec(cfg, db, cmd).0)
  {
    RunGrows(cfg, EMPTY_DB, cmds, cmd, DESK);
  }

  lemma NextRound(cfg: Config, cmds: seq<Command>, n: nat) returns (more: seq<Command>)
    requires cfg.streakLimit > 0 && RunEnabled(cfg, EMPTY_DB, cmds) && Starving(Run(cfg, EMPTY_DB, cmds), n)
    requires AllCreateIn(cmds, CLASHING)
    requires |CallsOf(cfg, EMPTY_DB, cmds, |cmds|, DESK)| == n &&
        AllPassRegular(CallsOf(cfg, EMPTY_DB, cmds, |cmds|, DESK))
    ensures RunEnabled(cfg, EMPTY_DB, more) && Starving(Run(cfg, EMPTY_DB, more), n + 1)
    ensures AllCreateIn(more, CLASHING)
    ensures |CallsOf(cfg, EMPTY_DB, more, |more|, DESK)| == n + 1 &&
        AllPassRegular(CallsOf(cfg, EMPTY_DB, more, |more|, DESK))
  {
    var db, calls := Run(cfg, EMPTY_DB, cmds), CallsOf(cfg, EMPTY_DB, cmds, |cmds|, DESK);
    var create, call := OneRound(cfg, db, n);
    more := TwoStepsOn(cfg, cmds, calls, db, create, call);
  }

  lemma TwoStepsOn(cfg: Config, cmds: seq<Command>, calls: seq<CallRecord>, db: Db, create: Command, call: Command)
      returns (more: seq<Command>)
    requires Leads(cfg, cmds, calls, db) && AllPassRegular(calls)
    requires AllCreateIn(cmds, CLASHING) && CreatesIn(create, CLASHING) && CreatesIn(call, CLASHING)
    requires Enabled(cfg, db, create) && CallOf(cfg, db, create, DESK) == None &&
        Enabled(cfg, Exec(cfg, db, create).0, call)
    requires var called := CallOf(cfg, Exec(cfg, db, create).0, call, DESK); called.Some? && PassesRegular(called.value)
    ensures AllCreateIn(more, CLASHING)
    ensures RunEnabled(cfg, EMPTY_DB, more) && Run(cfg, EMPTY_DB, more) == Exec(cfg, Exec(cfg, db, create).0, call).0
    ensures var after := CallsOf(cfg, EMPTY_DB, more, |more|, DESK); |after| == |calls| + 1 && AllPassRegular(after)
  {
    var created, called := Exec(cfg, db, create).0, CallOf(cfg, Exec(cfg, db, create).0, call, DESK);
    LeadsOn(cfg, cmds, calls, db, create);
    assert Appended(calls, None) == calls;
    LeadsOn(cfg, cmds + [create], calls, created, call);
    more := cmds + [create] + [call];
    CreateOn(cmds, create, CLASHING);
    CreateOn(cmds + [create], call, CLASHING);
    PassesOn(calls, called.value);
  }

  lemma CreateOn(cmds: seq<Command>, cmd: Command, classes: iset<string>)
    requires AllCreateIn(cmds, classes) && CreatesIn(cmd, classes)
    ensures AllCreateIn(cmds + [cmd], classes)
  {
  }

  lemma PassesOn(calls: seq<CallRecord>, c: CallRecord)
    requires AllPassRegular(calls) && PassesRegular(c)
    ensures AllPassRegular(Appended(calls, Some(c)))
  {
  }

  lemma FirstCreation(cfg: Config) returns (cmd: Command)
    ensures Enabled(cfg, EMPTY_DB, cmd) && Starving(Exec(cfg, EMPTY_DB, cmd).0, 0) &&
        CallOf(cfg, EMPTY_DB, cmd, DESK) == None && CreatesIn(cmd, CLASHING)
  {
    cmd := Creation("w", REGULAR);
  }

  // ------------------------------------------------- no regular class, no walk-in

  predicate NoRegularWalkins(db: Db) {
    forall id :: id in db.tickets ==> NoRegularWalkin(db.tickets[id])
  }

  predicate NoRegularWalkin(row: TicketRow) {
    row.appointmentId.None? ==> row.priorityClass != REGULAR
  }

  lemma NewIsIrregular(cfg: Config, db: Db, cmd: Command, id: string, classes: iset<string>)
    requires Enabled(cfg, db, cmd) && id !in db.tickets && id in Exec(cfg, db, cmd).0.tickets
    requires CreatesIn(cmd, classes) && REGULAR !in classes
    ensures NoRegularWalkin(Exec(cfg, db, cmd).0.tickets[id])
  {
    NewTicketIsIssued(cfg, db, cmd, id);
  }

  lemma StepAddsNoRegular(cfg: Config, db: Db, cmd: Command, classes: iset<string>)
    requires Enabled(cfg, db, cmd) && NoRegularWalkins(db) && CreatesIn(cmd, classes) && REGULAR !in classes
    ensures NoRegularWalkins(Exec(cfg, db, cmd).0)
  {
    forall id | id in Exec(cfg, db, cmd).0.tickets ensures NoRegularWalkin(Exec(cfg, db, cmd).0.tickets[id]) {
      if id in db.tickets {
        StepKeepsClass(cfg, db, cmd, id);
      } else {
        NewIsIrregular(cfg, db, cmd, id, classes);
      }
    }
  }

  lemma CallSeesNoRegular(cfg: Config, db: Db, cmd: Command, key: Key)
    requires NoRegularWalkins(db)
    ensures CallOf(cfg, db, cmd, key).Some? ==> !SeesRegularWalkin(CallOf(cfg, db, cmd, key).value)
  {
  }

  ghost predicate NoneSeesRegular(calls: seq<CallRecord>) {
    forall i :: 0 <= i < |calls| ==> !SeesRegularWalkin(calls[i])
  }

  lemma NobodyInSight(calls: seq<CallRecord>, from: nat, limit: nat)
    requires NoneSeesRegular(calls)
    ensures !SeeRegularWalkins(calls, from, limit)
  {
    assert from < |calls| ==> !SeesRegularWalkin(calls[from]);
  }

  lemma {:induction false} RunSeesNoRegular(cfg: Config, cmds: seq<Command>, n: nat, key: Key, classes: iset<string>)
    requires RunEnabled(cfg, EMPTY_DB, cmds) && n <= |cmds| && AllCreateIn(cmds, classes) && REGULAR !in classes
    ensures NoRegularWalkins(StateAfter(cfg, EMPTY_DB, cmds, n))
    ensures NoneSeesRegular(CallsOf(cfg, EMPTY_DB, cmds, n, key))
  {
    if n > 0 {
      RunSeesNoRegular(cfg, cmds, n - 1, key, classes);
      assert EnabledAt(cfg, EMPTY_DB, cmds, n - 1);
      StepAddsNoRegular(cfg, StateAfter(cfg, EMPTY_DB, cmds, n - 1), cmds[n - 1], classes);
      CallSeesNoRegular(cfg, StateAfter(cfg, EMPTY_DB, cmds, n - 1), cmds[n - 1], key);
    }
  }

  // -------------------------------------------------------------- the exact classes

  /** The streak bound over all runs from the empty store that create tickets of these classes. */
  ghost predicate StreakBoundHolds(cfg: Config, classes: iset<string>)
    requires cfg.streakLimit > 0
  {
    forall cmds, key, from |
      RunEnabled(cfg, EMPTY_DB, cmds) && AllCreateIn(cmds, classes)
      && SeeRegularWalkins(CallsOf(cfg, EMPTY_DB, cmds, |cmds|, key), from, cfg.streakLimit) ::
      RegularAmong(CallsOf(cfg, EMPTY_DB, cmds, |cmds|, key), from, cfg.streakLimit)
  }

  lemma BoundHoldsWithout(cfg: Config, cmds: seq<Command>, key: Key, from: nat, classes: iset<string>)
    requires CodecOk(cfg.codec) && cfg.streakLimit > 0 && !(CLASHING <= classes)
    requires RunEnabled(cfg, EMPTY_DB, cmds) && AllCreateIn(cmds, classes)
    requires SeeRegularWalkins(CallsOf(cfg, EMPTY_DB, cmds, |cmds|, key), from, cfg.streakLimit)
    ensures RegularAmong(CallsOf(cfg, EMPTY_DB, cmds, |cmds|, key), from, cfg.streakLimit)
  {
    if REGULAR !in classes {
      RunSeesNoRegular(cfg, cmds, |cmds|, key, classes);
      NobodyInSight(CallsOf(cfg, EMPTY_DB, cmds, |cmds|, key), from, cfg.streakLimit);
    } else {
      assert "" !in classes;
      assert NameClasses(cmds) by {
        assert forall i :: 0 <= i < |cmds| ==> CreatesIn(cmds[i], classes);
      }
      EmptyStoreInv(cfg.codec);
      StoreCallsRegularWithinLimit(cfg, EMPTY_DB, cmds, key, from);
    }
  }

  lemma BoundFailsWith(cfg: Config, classes: iset<string>)
    requires cfg.streakLimit > 0 && CLASHING <= classes
    ensures !StreakBoundHolds(cfg, classes)
  {
    var cmds := UnnamedClassCanStarve(cfg, cfg.streakLimit + 1);
    var calls := CallsOf(cfg, EMPTY_DB, cmds, |cmds|, DESK);
    assert AllCreateIn(cmds, classes) by {
      assert forall i :: 0 <= i < |cmds| ==> CreatesIn(cmds[i], CLASHING);
    }
    assert forall i :: 0 <= i < |calls| ==> PassesRegular(calls[i]);
    assert SeeRegularWalkins(calls, 0, cfg.streakLimit) && !RegularAmong(calls, 0, cfg.streakLimit);
  }

  /** The bound holds of all runs exactly if unnamed and regular tickets are not created side by side. */
  lemma StreakBoundIff(cfg: Config, classes: iset<string>)
    requires CodecOk(cfg.codec) && cfg.streakLimit > 0
    ensures StreakBoundHolds(cfg, classes) <==> !("" in classes && REGULAR in classes)
  {
    if "" in classes && REGULAR in classes {
      BoundFailsWith(cfg, classes);
    } else {
      forall cmds, key, from: nat |
        RunEnabled(cfg, EMPTY_DB, cmds) && AllCreateIn(cmds, classes)
        && SeeRegularWalkins(CallsOf(cfg, EMPTY_DB, cmds, |cmds|, key), from, cfg.streakLimit)
        ensures RegularAmong(CallsOf(cfg, EMPTY_DB, cmds, |cmds|, key), from, cfg.streakLimit)
      {
        BoundHoldsWithout(cfg, cmds, key, from, classes);
      }
    }
  }
}
