/** The hash-chained ticket log: preimages, appending, verification and tamper evidence. */
module EventLog {
  import opened Basics
  import opened Decimals

  /** One row of `ticket_events`; `stamp` and `payload` are the exact texts that were hashed. */
  datatype Entry = Entry(
    ticketId: string,
    seqNo: nat,
    kind: string,
    payload: string,
    stamp: string,
    prevHash: string,
    hash: string)

  predicate NoBar(s: string) {
    '|' !in s
  }

  /** The text that is digested: six fields joined by bars, the free-form payload last. */
  function Preimage(prevHash: string, ticketId: string, kind: string, payload: string, stamp: string,
                    seqNo: nat): string {
    prevHash + "|" + (ticketId + "|" + (kind + "|" + (stamp + "|" + (Decimal(seqNo) + "|" + payload))))
  }

  function EntryPreimage(e: Entry): string {
    Preimage(e.prevHash, e.ticketId, e.kind, e.payload, e.stamp, e.seqNo)
  }

  /** The hash chain continues from the last stored row, or from the empty string. */
  function LastHash(log: seq<Entry>): string {
    if log == [] then "" else log[|log| - 1].hash
  }

  /** The row that follows `last` in a ticket's chain. */
  function NextEntry(digest: string -> string, last: Option<Entry>, ticketId: string, kind: string, payload: string,
                     stamp: string): Entry
  {
    var prev := if last.None? then "" else last.value.hash;
    var seqNo := if last.None? then 1 else last.value.seqNo + 1;
    Entry(ticketId, seqNo, kind, payload, stamp, prev, digest(Preimage(prev, ticketId, kind, payload, stamp, seqNo)))
  }

  /** Row `i` carries its own number, the previous row's hash and the recomputed digest. */
  ghost predicate Linked(digest: string -> string, log: seq<Entry>, i: nat)
    requires i < |log|
  {
    && log[i].seqNo == i + 1
    && log[i].prevHash == LastHash(log[..i])
    && log[i].hash == digest(EntryPreimage(log[i]))
  }

  /** What an auditor checks: consecutive numbers, linked hashes, recomputed digests. */
  ghost predicate Verifies(digest: string -> string, log: seq<Entry>) {
    forall i :: 0 <= i < |log| ==> Linked(digest, log, i)
  }

  predicate CleanEntry(e: Entry) {
    NoBar(e.prevHash) && NoBar(e.ticketId) && NoBar(e.kind) && NoBar(e.stamp)
  }

  /** The fields in front of the payload carry no separator. */
  ghost predicate CleanFields(log: seq<Entry>) {
    forall i :: 0 <= i < |log| ==> CleanEntry(log[i])
  }

  ghost predicate NoCollision(digest: string -> string, e: Entry, f: Entry) {
    digest(EntryPreimage(e)) == digest(EntryPreimage(f)) ==> EntryPreimage(e) == EntryPreimage(f)
  }

  /** No two of the compared texts collide. */
  ghost predicate CollisionFree(digest: string -> string, a: seq<Entry>, b: seq<Entry>) {
    forall i, j :: 0 <= i < |a| && 0 <= j < |b| ==> NoCollision(digest, a[i], b[j])
  }

  lemma FirstBarSplits(a: string, x: string, b: string, y: string)
    requires NoBar(a) && NoBar(b)
    requires a + "|" + x == b + "|" + y
    ensures a == b && x == y
  {
    var s := a + "|" + x;
    assert s[|a|] == '|' && forall i :: 0 <= i < |a| ==> s[i] == a[i] != '|';
    assert s[|b|] == '|' && forall i :: 0 <= i < |b| ==> s[i] == (b + "|" + y)[i] == b[i] != '|';
    assert a == s[..|a|] && b == s[..|b|];
    assert x == s[|a| + 1..] && y == s[|b| + 1..];
  }

  lemma DecimalHasNoBar(n: nat)
    ensures NoBar(Decimal(n))
  {
    assert forall c :: c in Decimal(n) ==> IsDigit(c);
  }

  /** The joined text determines all six fields; only the payload may contain bars. */
  lemma PreimageInjective(e: Entry, f: Entry)
    requires CleanEntry(e) && CleanEntry(f)
    requires EntryPreimage(e) == EntryPreimage(f)
    ensures e.(hash := f.hash) == f
  {
    var e5, f5 := Decimal(e.seqNo) + "|" + e.payload, Decimal(f.seqNo) + "|" + f.payload;
    var e4, f4 := e.stamp + "|" + e5, f.stamp + "|" + f5;
    var e3, f3 := e.kind + "|" + e4, f.kind + "|" + f4;
    var e2, f2 := e.ticketId + "|" + e3, f.ticketId + "|" + f3;
    FirstBarSplits(e.prevHash, e2, f.prevHash, f2);
    FirstBarSplits(e.ticketId, e3, f.ticketId, f3);
    FirstBarSplits(e.kind, e4, f.kind, f4);
    FirstBarSplits(e.stamp, e5, f.stamp, f5);
    DecimalHasNoBar(e.seqNo);
    DecimalHasNoBar(f.seqNo);
    FirstBarSplits(Decimal(e.seqNo), e.payload, Decimal(f.seqNo), f.payload);
    DecimalInjective(e.seqNo, f.seqNo);
  }

  /** The order of the fields, by an example: hash, ticket, kind, time, number, payload. */
  lemma PreimageByExample()
    ensures Preimage("h", "t", "k", "{}", "s", 12) == "h|t|k|s|12|{}"
  {
    assert Decimal(12) == "12";
  }

  /** Were bars allowed in front of the payload, two different entries could share a text. */
  lemma BarsWouldConfuse()
    ensures exists e: Entry, f: Entry :: e != f && e.hash == f.hash && EntryPreimage(e) == EntryPreimage(f)
  {
    var e := Entry("a|b", 1, "c", "", "", "", "");
    var f := Entry("a", 1, "b|c", "", "", "", "");
    assert "a|b" + ("|" + ("c" + "|")) == "a" + "|" + ("b|c" + "|");
    assert EntryPreimage(e) == EntryPreimage(f);
  }

  /** Appending as the store does keeps the log verifiable. */
  lemma AppendVerifies(digest: string -> string, log: seq<Entry>, ticketId: string, kind: string, payload: string,
                       stamp: string)
    requires Verifies(digest, log)
    ensures Verifies(digest, log + [NextEntry(digest, Last(log), ticketId, kind, payload, stamp)])
  {
    var log' := log + [NextEntry(digest, Last(log), ticketId, kind, payload, stamp)];
    forall i | 0 <= i < |log'|
      ensures Linked(digest, log', i)
    {
      assert log'[..i] == log[..i];
      if i < |log| {
        assert Linked(digest, log, i);
      } else {
        assert log[..i] == log;
        assert log != [] ==> Linked(digest, log, |log| - 1);
      }
    }
  }

  lemma PrefixVerifies(digest: string -> string, log: seq<Entry>, n: nat)
    requires Verifies(digest, log) && n <= |log|
    ensures Verifies(digest, log[..n])
  {
    forall i | 0 <= i < n
      ensures Linked(digest, log[..n], i)
    {
      assert log[..n][..i] == log[..i] && Linked(digest, log, i);
    }
  }

  /**
   * Tamper evidence: two verifying logs with the same last hash are the same log.
   * The induction walks both chains backwards from the shared hash.
   */
  lemma {:induction false} LastHashPinsTheLog(digest: string -> string, a: seq<Entry>, b: seq<Entry>)
    requires Verifies(digest, a) && Verifies(digest, b)
    requires CleanFields(a) && CleanFields(b)
    requires CollisionFree(digest, a, b)
    requires a != [] && b != [] && LastHash(a) == LastHash(b)
    ensures a == b
    decreases |a|
  {
    var m, n := |a| - 1, |b| - 1;
    assert Linked(digest, a, m) && Linked(digest, b, n) && NoCollision(digest, a[m], b[n]);
    PreimageInjective(a[m], b[n]);
    assert a == a[..m] + [a[m]] && b == b[..m] + [b[m]];
    if m > 0 {
      PrefixVerifies(digest, a, m);
      PrefixVerifies(digest, b, m);
      LastHashPinsTheLog(digest, a[..m], b[..m]);
    }
  }

  /** Any stored hash pins the history up to it: rewriting, dropping or inserting earlier rows shows. */
  lemma EveryHashPinsItsHistory(digest: string -> string, a: seq<Entry>, b: seq<Entry>, k: nat)
    requires Verifies(digest, a) && Verifies(digest, b)
    requires CleanFields(a) && CleanFields(b)
    requires CollisionFree(digest, a, b)
    requires k < |a| && b != [] && a[k].hash == LastHash(b)
    ensures b == a[..k + 1]
  {
    PrefixVerifies(digest, a, k + 1);
    LastHashPinsTheLog(digest, a[..k + 1], b);
  }
}
