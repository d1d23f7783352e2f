/**
 * The kiosk's offline buffer against the server's deduplication: requests and responses may be lost,
 * requests may reach the server late, and synchronisations may overlap.
 */
module Kiosk {
  import opened StoreSpec
  import opened StoreInvariants
  import opened StoreRuns

  /** A running synchronisation: what it read, what it has yet to post, and what it will write back. */
  datatype Sync = Sync(snapshot: seq<CreateInput>, todo: seq<CreateInput>, remaining: seq<CreateInput>)

  /** The server's tables; the payloads issued so far, those awaiting their first answer, and localStorage. */
  datatype World = World(
    db: Db,
    issued: set<CreateInput>,
    inFlight: set<CreateInput>,
    buffer: seq<CreateInput>,
    syncs: seq<Sync>)

  const START := World(EMPTY_DB, {}, {}, [], [])

  datatype Step =
    | Server(cmd: Command)
    | Issue(payload: CreateInput)
    | Answered(payload: CreateInput)
    | Lost(payload: CreateInput)
    | SyncRead
    | SyncAcked(k: nat)
    | SyncLost(k: nat)
    | SyncWrite(k: nat)

  /** A ticket was created for this request, so that the server answers it with that ticket. */
  predicate Ticketed(db: Db, payload: CreateInput) {
    payload.requestId in db.requestIndex
  }

  /**
   * The server may process any command, the kiosk's requests among them, at any time. An answer that
   * arrives says the request has its ticket; a lost request, a lost answer or an error says nothing.
   */
  ghost predicate CanStep(cfg: Config, w: World, step: Step) {
    match step
    case Server(cmd) => Enabled(cfg, w.db, cmd)
    case Issue(payload) => payload !in w.issued
    case Answered(payload) => payload in w.inFlight && Ticketed(w.db, payload)
    case Lost(payload) => payload in w.inFlight
    case SyncRead => w.buffer != []
    case SyncAcked(k) => k < |w.syncs| && w.syncs[k].todo != [] && Ticketed(w.db, w.syncs[k].todo[0])
    case SyncLost(k) => k < |w.syncs| && w.syncs[k].todo != []
    case SyncWrite(k) => k < |w.syncs| && w.syncs[k].todo == []
  }

  function Next(cfg: Config, w: World, step: Step): World
    requires CanStep(cfg, w, step)
  {
    match step
    case Server(cmd) => w.(db := Exec(cfg, w.db, cmd).0)
    case Issue(payload) => w.(issued := w.issued + {payload}, inFlight := w.inFlight + {payload})
    case Answered(payload) => w.(inFlight := w.inFlight - {payload})
    case Lost(payload) => w.(inFlight := w.inFlight - {payload}, buffer := w.buffer + [payload])
    case SyncRead => w.(syncs := w.syncs + [Sync(w.buffer, w.buffer, [])])
    case SyncAcked(k) => w.(syncs := w.syncs[k := w.syncs[k].(todo := w.syncs[k].todo[1..])])
    case SyncLost(k) =>
      var s := w.syncs[k];
      w.(syncs := w.syncs[k := s.(todo := s.todo[1..], remaining := s.remaining + [s.todo[0]])])
    case SyncWrite(k) => w.(buffer := w.syncs[k].remaining, syncs := w.syncs[..k] + w.syncs[k + 1..])
  }

  ghost predicate Possible(cfg: Config, w: World, steps: seq<Step>)
    decreases |steps|
  {
    steps == [] || (CanStep(cfg, w, steps[0]) && Possible(cfg, Next(cfg, w, steps[0]), steps[1..]))
  }

  ghost function After(cfg: Config, w: World, steps: seq<Step>): World
    requires Possible(cfg, w, steps)
    decreases |steps|
  {
    if steps == [] then w else After(cfg, Next(cfg, w, steps[0]), steps[1..])
  }

  lemma {:induction false} RunExtends(cfg: Config, w: World, steps: seq<Step>, step: Step)
    requires Possible(cfg, w, steps) && CanStep(cfg, After(cfg, w, steps), step)
    ensures Possible(cfg, w, steps + [step])
    ensures After(cfg, w, steps + [step]) == Next(cfg, After(cfg, w, steps), step)
    decreases |steps|
  {
    if steps == [] {
      assert [step][1..] == [];
    } else {
      RunExtends(cfg, Next(cfg, w, steps[0]), steps[1..], step);
      assert (steps + [step])[1..] == steps[1..] + [step];
    }
  }

  // ------------------------------------------------------------------- invariants

  /** What a synchronisation read is still to be posted, to be written back, or ticketed. */
  ghost predicate SyncOk(db: Db, s: Sync) {
    forall p :: p in s.snapshot ==> p in s.todo || p in s.remaining || Ticketed(db, p)
  }

  /** Payloads come from the kiosk, and one awaiting its first answer is nowhere else. */
  ghost predicate Placed(w: World) {
    && w.inFlight <= w.issued
    && (forall p :: p in w.buffer ==> p in w.issued && p !in w.inFlight)
    && (forall s :: s in w.syncs ==> forall p :: p in s.snapshot || p in s.todo || p in s.remaining ==>
        p in w.issued && p !in w.inFlight)
  }

  ghost predicate Ok(w: World) {
    Placed(w) && forall s :: s in w.syncs ==> SyncOk(w.db, s)
  }

  /** No issued payload is lost: it awaits its answer, is buffered, or has its ticket. */
  ghost predicate NothingLost(w: World) {
    forall p :: p in w.issued ==> p in w.inFlight || p in w.buffer || Ticketed(w.db, p)
  }

  /** Every running synchronisation read all that is still without a ticket and not awaiting its answer. */
  ghost predicate AllRead(w: World) {
    forall s, p :: s in w.syncs && p in w.issued && p !in w.inFlight && !Ticketed(w.db, p) ==> p in s.snapshot
  }

  lemma TicketsStay(cfg: Config, db: Db, cmd: Command, p: CreateInput)
    requires Enabled(cfg, db, cmd) && Ticketed(db, p)
    ensures Ticketed(Exec(cfg, db, cmd).0, p)
  {
    StepKeepsAnswers(cfg, db, cmd);
  }

  lemma SyncStepKeepsOk(cfg: Config, w: World, k: nat, acked: bool)
    requires Ok(w) && k < |w.syncs| && w.syncs[k].todo != [] && (acked ==> Ticketed(w.db, w.syncs[k].todo[0]))
    ensures Ok(Next(cfg, w, if acked then SyncAcked(k) else SyncLost(k)))
  {
    var w' := Next(cfg, w, if acked then SyncAcked(k) else SyncLost(k));
    var s, s' := w.syncs[k], w'.syncs[k];
    assert s in w.syncs && s.todo == [s.todo[0]] + s'.todo;
    forall p ensures p in s.todo <==> p == s.todo[0] || p in s'.todo { }
    forall t | t in w'.syncs ensures t == s' || t in w.syncs { }
  }

  lemma StepKeepsOk(cfg: Config, w: World, step: Step)
    requires Ok(w) && CanStep(cfg, w, step)
    ensures Ok(Next(cfg, w, step))
  {
    match step
    case SyncAcked(k) => SyncStepKeepsOk(cfg, w, k, true);
    case SyncLost(k) => SyncStepKeepsOk(cfg, w, k, false);
    case SyncWrite(k) =>
      assert w.syncs[k] in w.syncs;
      assert forall t :: t in Next(cfg, w, step).syncs ==> t in w.syncs;
    case SyncRead =>
      assert forall t :: t in Next(cfg, w, step).syncs ==> t in w.syncs || t == Sync(w.buffer, w.buffer, []);
    case Server(cmd) =>
      forall p | Ticketed(w.db, p) ensures Ticketed(Exec(cfg, w.db, cmd).0, p) {
        TicketsStay(cfg, w.db, cmd, p);
      }
    case _ =>
  }

  /**
   * When a synchronisation writes back, nothing is lost exactly when everything that was buffered since
   * it read the store has its ticket by now.
   */
  lemma WriteLosesNothingIff(cfg: Config, w: World, k: nat)
    requires Ok(w) && NothingLost(w) && CanStep(cfg, w, SyncWrite(k))
    ensures NothingLost(Next(cfg, w, SyncWrite(k))) <==>
      forall p :: p in w.buffer && p !in w.syncs[k].snapshot ==> p in w.syncs[k].remaining || Ticketed(w.db, p)
  {
    var s := w.syncs[k];
    assert s in w.syncs;
    assert forall p :: p in s.snapshot ==> p in s.remaining || Ticketed(w.db, p);
  }

  /** Only the write-back can lose anything. */
  lemma OtherStepsLoseNothing(cfg: Config, w: World, step: Step)
    requires NothingLost(w) && CanStep(cfg, w, step) && !step.SyncWrite?
    ensures NothingLost(Next(cfg, w, step))
  {
    var w' := Next(cfg, w, step);
    forall p | p in w'.issued ensures p in w'.inFlight || p in w'.buffer || Ticketed(w'.db, p) {
      if step.Server? && Ticketed(w.db, p) {
        TicketsStay(cfg, w.db, step.cmd, p);
      }
    }
  }

  /** No payload is buffered while a synchronisation runs. */
  ghost predicate Quiet(w: World, step: Step) {
    step.Lost? ==> w.syncs == []
  }

  ghost predicate QuietRun(cfg: Config, w: World, steps: seq<Step>)
    requires Possible(cfg, w, steps)
    decreases |steps|
  {
    steps == [] || (Quiet(w, steps[0]) && QuietRun(cfg, Next(cfg, w, steps[0]), steps[1..]))
  }

  lemma QuietStepKeepsAll(cfg: Config, w: World, step: Step)
    requires Ok(w) && NothingLost(w) && AllRead(w) && CanStep(cfg, w, step) && Quiet(w, step)
    ensures Ok(Next(cfg, w, step)) && NothingLost(Next(cfg, w, step)) && AllRead(Next(cfg, w, step))
  {
    var w' := Next(cfg, w, step);
    StepKeepsOk(cfg, w, step);
    if step.SyncWrite? {
      WriteLosesNothingIff(cfg, w, step.k);
      assert w.syncs[step.k] in w.syncs;
    } else {
      OtherStepsLoseNothing(cfg, w, step);
    }
    forall s, p | s in w'.syncs && p in w'.issued && p !in w'.inFlight && !Ticketed(w'.db, p) ensures p in s.snapshot {
      match step
      case Server(cmd) =>
        if Ticketed(w.db, p) {
          TicketsStay(cfg, w.db, cmd, p);
        }
      case SyncRead => assert s in w.syncs || s.snapshot == w.buffer;
      case SyncAcked(k) => assert w.syncs[k] in w.syncs && (s in w.syncs || s.snapshot == w.syncs[k].snapshot);
      case SyncLost(k) => assert w.syncs[k] in w.syncs && (s in w.syncs || s.snapshot == w.syncs[k].snapshot);
      case SyncWrite(k) => assert s in w.syncs;
      case _ =>
    }
  }

  lemma {:induction false} QuietRunKeepsAll(cfg: Config, w: World, steps: seq<Step>)
    requires Ok(w) && NothingLost(w) && AllRead(w) && Possible(cfg, w, steps) && QuietRun(cfg, w, steps)
    ensures Ok(After(cfg, w, steps)) && NothingLost(After(cfg, w, steps))
    decreases |steps|
  {
    if steps != [] {
      QuietStepKeepsAll(cfg, w, steps[0]);
      QuietRunKeepsAll(cfg, Next(cfg, w, steps[0]), steps[1..]);
    }
  }

  lemma {:induction false} RunKeepsStore(cfg: Config, w: World, steps: seq<Step>)
    requires CodecOk(cfg.codec) && Inv(cfg.codec, w.db) && Possible(cfg, w, steps)
    ensures Inv(cfg.codec, After(cfg, w, steps).db)
    decreases |steps|
  {
    if steps != [] {
      if steps[0].Server? {
        StepKeepsInv(cfg, w.db, steps[0].cmd);
      }
      RunKeepsStore(cfg, Next(cfg, w, steps[0]), steps[1..]);
    }
  }

  // ------------------------------------------------------------------ exactly once

  /** The tickets created for a request id. */
  ghost function TicketsWith(db: Db, requestId: string): set<string> {
    set id | id in db.tickets && db.tickets[id].requestId == requestId
  }

  lemma OneTicketPerRequest(codec: Codec, db: Db, p: CreateInput)
    requires Inv(codec, db)
    ensures |TicketsWith(db, p.requestId)| == if Ticketed(db, p) then 1 else 0
  {
    InvMeans(codec, db);
    if Ticketed(db, p) {
      assert TicketsWith(db, p.requestId) == {db.requestIndex[p.requestId]};
    } else {
      assert TicketsWith(db, p.requestId) == {};
    }
  }

  /** In every run: no request id ever has two tickets, whatever is lost, late or repeated. */
  lemma NeverTwoTickets(cfg: Config, steps: seq<Step>, p: CreateInput)
    requires CodecOk(cfg.codec) && Possible(cfg, START, steps)
    ensures |TicketsWith(After(cfg, START, steps).db, p.requestId)| <= 1
  {
    EmptyStoreInv(cfg.codec);
    RunKeepsStore(cfg, START, steps);
    OneTicketPerRequest(cfg.codec, After(cfg, START, steps).db, p);
  }

  /**
   * In every run in which nothing is buffered while a synchronisation runs, overlapping synchronisations
   * included: an issued payload awaits its first answer, is buffered, or has exactly one ticket.
   */
  lemma KioskExactlyOnce(cfg: Config, steps: seq<Step>, p: CreateInput)
    requires CodecOk(cfg.codec) && Possible(cfg, START, steps) && QuietRun(cfg, START, steps)
    requires p in After(cfg, START, steps).issued
    ensures var w := After(cfg, START, steps);
      p in w.inFlight || p in w.buffer || |TicketsWith(w.db, p.requestId)| == 1
  {
    EmptyStoreInv(cfg.codec);
    RunKeepsStore(cfg, START, steps);
    QuietRunKeepsAll(cfg, START, steps);
    OneTicketPerRequest(cfg.codec, After(cfg, START, steps).db, p);
  }

  /** A run to w extends by a step to the state it names. */
  lemma Reaches(cfg: Config, steps: seq<Step>, w: World, step: Step, next: World) returns (more: seq<Step>)
    requires Possible(cfg, START, steps) && After(cfg, START, steps) == w
    requires CanStep(cfg, w, step) && Next(cfg, w, step) == next
    ensures Possible(cfg, START, more) && After(cfg, START, more) == next
  {
    RunExtends(cfg, START, steps, step);
    more := steps + [step];
  }

  ghost predicate Vanished(w: World, p: CreateInput) {
    p in w.issued && p !in w.inFlight && p !in w.buffer && !Ticketed(w.db, p)
  }

  /** A payload buffered while a synchronisation runs can vanish: no ticket, not buffered, not awaited. */
  lemma BufferedDuringSyncIsLost(cfg: Config, a: CreateInput, b: CreateInput)
    requires a != b
    ensures exists steps :: Possible(cfg, START, steps) && Vanished(After(cfg, START, steps), b)
  {
    var read, posted := Sync([a], [a], []), Sync([a], [], [a]);
    assert [a][1..] == [] && [] + [a] == [a] && [a] + [b] == [a, b];
    var w2 := World(EMPTY_DB, {a}, {}, [a], []);
    var w4 := World(EMPTY_DB, {a, b}, {b}, [a], [read]);
    var w5 := World(EMPTY_DB, {a, b}, {}, [a, b], [read]);
    var w6 := World(EMPTY_DB, {a, b}, {}, [a, b], [posted]);
    var w7 := World(EMPTY_DB, {a, b}, {}, [a], []);
    var steps := Reaches(cfg, [], START, Issue(a), World(EMPTY_DB, {a}, {a}, [], []));
    steps := Reaches(cfg, steps, World(EMPTY_DB, {a}, {a}, [], []), Lost(a), w2);
    steps := Reaches(cfg, steps, w2, SyncRead, w2.(syncs := [read]));
    steps := Reaches(cfg, steps, w2.(syncs := [read]), Issue(b), w4);
    steps := Reaches(cfg, steps, w4, Lost(b), w5);
    steps := Reaches(cfg, steps, w5, SyncLost(0), w6);
    steps := Reaches(cfg, steps, w6, SyncWrite(0), w7);
  }
}
