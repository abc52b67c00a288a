/** How fast a single drainer gets through its backlog, and when it does not. */
module DrainProgress {
  import opened Prelude
  import opened Relay
  import opened RelayService

  /** Rows committed since the last drain, then one drain. */
  datatype Round = Round(arrivals: map<Id, Row>, faults: Faults)

  ghost predicate Arrive(rows: map<Id, Row>, arrivals: map<Id, Row>) {
    && (forall id :: id in arrivals ==> id !in rows && !arrivals[id].published)
    && (forall old_, new_ :: old_ in rows && new_ in arrivals ==> old_ < new_)
  }

  ghost predicate Legal(targets: Targets, rows: map<Id, Row>, rounds: seq<Round>)
    decreases |rounds|
  {
    rounds == [] || (Arrive(rows, rounds[0].arrivals) && Legal(targets, After(targets, rows, rounds[0]), rounds[1..]))
  }

  ghost function After(targets: Targets, rows: map<Id, Row>, round: Round): map<Id, Row> {
    Settled(targets, rows + round.arrivals, {}, round.faults)
  }

  ghost function Rounds(targets: Targets, rows: map<Id, Row>, rounds: seq<Round>): map<Id, Row>
    decreases |rounds|
  {
    if rounds == [] then rows else Rounds(targets, After(targets, rows, rounds[0]), rounds[1..])
  }

  /** No target of a good row throws in any round. */
  ghost predicate Spared(rounds: seq<Round>, good: set<Id>) {
    rounds == [] || (good !! rounds[0].faults.Keys && Spared(rounds[1..], good))
  }

  function Max0(n: int): nat {
    if n <= 0 then 0 else n
  }

  /** Rows of `good` have a route; rows outside `known` are younger than it. */
  ghost predicate Aged(targets: Targets, rows: map<Id, Row>, good: set<Id>, known: set<Id>) {
    && good <= known <= rows.Keys
    && (forall id :: id in good ==> ClientsFor(targets, rows[id].pattern) != [])
    && (forall a, b :: a in known && b in rows && b !in known ==> a < b)
  }

  /** At most `n` good rows are pending, and at most `p` other known ones. */
  ghost predicate Counts(pending: set<Id>, good: set<Id>, known: set<Id>, n: nat, p: nat) {
    |pending * good| <= n && |(pending - good) * known| <= p
  }

  ghost predicate Backlog(targets: Targets, rows: map<Id, Row>, good: set<Id>, known: set<Id>, n: nat, p: nat) {
    Aged(targets, rows, good, known) && Counts(Pending(rows), good, known, n, p)
  }

  /** The rows a drain publishes. */
  ghost function Published(targets: Targets, rows: map<Id, Row>, faults: Faults): set<Id> {
    set id | id in DrainBatch(rows, {}) && Succeeds(targets, rows[id], id, faults)
  }

  lemma DrainMarks(targets: Targets, rows: map<Id, Row>, faults: Faults)
    ensures var rows' := Settled(targets, rows, {}, faults);
      && rows'.Keys == rows.Keys
      && (forall id :: id in rows ==> rows'[id].pattern == rows[id].pattern)
      && Pending(rows') == Pending(rows) - Published(targets, rows, faults)
  {
    BatchEffectSets(targets, rows, DrainBatch(rows, {}), faults);
    var rows' := Settled(targets, rows, {}, faults);
    assert forall id :: id in Pending(rows') <==> id in Pending(rows) && id !in Published(targets, rows, faults);
  }

  lemma PendingJoin(rows: map<Id, Row>, arrivals: map<Id, Row>)
    requires Arrive(rows, arrivals)
    ensures Pending(rows + arrivals) == Pending(rows) + arrivals.Keys
    ensures forall id :: id in rows ==> (rows + arrivals)[id] == rows[id]
  {
    assert forall id :: id in arrivals ==> (rows + arrivals)[id] == arrivals[id];
    assert forall id :: id in rows ==> id !in arrivals;
    assert forall id :: id in Pending(rows + arrivals) <==> id in Pending(rows) || id in arrivals.Keys;
  }

  lemma {:induction false} DistinctCount(q: seq<Id>)
    requires Increasing(q)
    ensures |set x | x in q| == |q|
  {
    if q != [] {
      var n := |q| - 1;
      DistinctCount(q[..n]);
      assert q == q[..n] + [q[n]];
      assert (set x | x in q) == (set x | x in q[..n]) + {q[n]};
      assert q[n] !in q[..n];
    }
  }

  lemma SubsetCount(a: set<Id>, b: set<Id>)
    requires a <= b
    ensures |a| <= |b|
    ensures |a| == |b| ==> a == b
  {
    assert b == a + (b - a);
    if |a| == |b| { assert |b - a| == 0; }
  }

  /** A pending row outside the batch means a full batch of smaller rows. */
  lemma OutsideBatch(rows: map<Id, Row>, x: Id)
    requires x in Pending(rows) && x !in DrainBatch(rows, {})
    ensures var taken := set id | id in DrainBatch(rows, {});
      |taken| == BATCH_SIZE && forall y :: y in taken ==> y < x && y in Pending(rows)
  {
    var c := Pending(rows) - {};
    assert c == Pending(rows);
    SelectTakesSmallest(c);
    AscendingSorted(c);
    DistinctCount(Select(c));
    assert x in Ascending(c);
  }

  /** A batch takes all remaining good rows, or fills up with rows no younger
      than the known ones: at most `p` of them not good. */
  lemma BatchShare(targets: Targets, rows: map<Id, Row>, good: set<Id>, known: set<Id>, n: nat, p: nat)
    requires Backlog(targets, rows, good, known, n, p)
    ensures var left := Pending(rows) * good;
      var taken := set id | id in DrainBatch(rows, {});
      left <= taken || |taken * left| >= BATCH_SIZE - p
  {
    hide DrainBatch;
    var left, others := Pending(rows) * good, (Pending(rows) - good) * known;
    var taken := set id | id in DrainBatch(rows, {});
    if !(left <= taken) {
      var x := Missing(left, taken);
      OutsideBatch(rows, x);
      forall y | y in taken - left ensures y in others {
        assert y < x;
      }
      SubsetCount(taken - left, others);
      assert taken == taken * left + (taken - left);
    }
  }

  lemma ArrivalsJoin(targets: Targets, rows: map<Id, Row>, arrivals: map<Id, Row>, good: set<Id>, known: set<Id>, n: nat, p: nat)
    requires Backlog(targets, rows, good, known, n, p) && Arrive(rows, arrivals)
    ensures Backlog(targets, rows + arrivals, good, known, n, p)
  {
    hide Counts, Pending, Aged;
    AgedJoin(targets, rows, arrivals, good, known);
    PendingJoin(rows, arrivals);
    KnownApart(targets, rows, arrivals, good, known);
    CountsJoin(Pending(rows), arrivals.Keys, good, known, n, p);
  }

  lemma KnownApart(targets: Targets, rows: map<Id, Row>, arrivals: map<Id, Row>, good: set<Id>, known: set<Id>)
    requires Aged(targets, rows, good, known) && Arrive(rows, arrivals)
    ensures arrivals.Keys !! known && good <= known
  {
    forall x | x in arrivals ensures x !in known { assert x !in rows.Keys; }
  }

  lemma AgedJoin(targets: Targets, rows: map<Id, Row>, arrivals: map<Id, Row>, good: set<Id>, known: set<Id>)
    requires Aged(targets, rows, good, known) && Arrive(rows, arrivals)
    ensures Aged(targets, rows + arrivals, good, known)
  {
    var all := rows + arrivals;
    forall a, b | a in known && b in all && b !in known ensures a < b {
      assert b in rows || b in arrivals;
    }
    forall id | id in good ensures ClientsFor(targets, all[id].pattern) != [] {
      assert id in rows && all[id] == rows[id];
    }
  }

  lemma CountsJoin(pending: set<Id>, extra: set<Id>, good: set<Id>, known: set<Id>, n: nat, p: nat)
    requires Counts(pending, good, known, n, p) && good <= known && extra !! known
    ensures Counts(pending + extra, good, known, n, p)
  {
    assert (pending + extra) * good == pending * good;
    assert ((pending + extra) - good) * known == (pending - good) * known;
  }

  /** Taking all good rows, or `q` of them, out of the pending ones. */
  lemma CountsShrink(pending: set<Id>, out: set<Id>, taken: set<Id>, good: set<Id>, known: set<Id>, n: nat, p: nat, q: nat)
    requires Counts(pending, good, known, n, p) && taken * good <= out
    requires pending * good <= taken || |taken * (pending * good)| >= q
    ensures Counts(pending - out, good, known, Max0(n - q), p)
  {
    var left, left' := pending * good, (pending - out) * good;
    SubsetCount(((pending - out) - good) * known, (pending - good) * known);
    SubsetCount(left', left - taken);
    assert left == (left - taken) + taken * left;
    if left <= taken { assert left - taken == {}; }
  }

  /** One drain publishes every good row left, or 20 minus `p` of them. */
  lemma RoundProgress(targets: Targets, rows: map<Id, Row>, faults: Faults, good: set<Id>, known: set<Id>, n: nat, p: nat)
    requires Backlog(targets, rows, good, known, n, p) && p <= BATCH_SIZE
    requires good !! faults.Keys
    ensures Backlog(targets, Settled(targets, rows, {}, faults), good, known, Max0(n - (BATCH_SIZE - p)), p)
  {
    hide Settled, DrainBatch, Counts, Pending, Aged, Published;
    var taken := set id | id in DrainBatch(rows, {});
    DrainMarks(targets, rows, faults);
    AgedSame(targets, rows, Settled(targets, rows, {}, faults), good, known);
    BatchShare(targets, rows, good, known, n, p);
    GoodPublished(targets, rows, faults, good, known);
    CountsShrink(Pending(rows), Published(targets, rows, faults), taken, good, known, n, p, BATCH_SIZE - p);
  }

  lemma AgedSame(targets: Targets, rows: map<Id, Row>, rows': map<Id, Row>, good: set<Id>, known: set<Id>)
    requires Aged(targets, rows, good, known) && rows'.Keys == rows.Keys
    requires forall id :: id in rows ==> rows'[id].pattern == rows[id].pattern
    ensures Aged(targets, rows', good, known)
  {
    assert forall id :: id in rows' <==> id in rows;
  }

  lemma GoodPublished(targets: Targets, rows: map<Id, Row>, faults: Faults, good: set<Id>, known: set<Id>)
    requires Aged(targets, rows, good, known) && good !! faults.Keys
    ensures (set id | id in DrainBatch(rows, {})) * good <= Published(targets, rows, faults)
  {
    hide DrainBatch;
  }

  lemma Steps(n: nat, q: nat, k: nat)
    ensures LeftAfter(n, q, 0) == n
    ensures k > 0 ==> LeftAfter(LeftAfter(n, q, 1), q, k - 1) == LeftAfter(n, q, k)
    ensures LeftAfter(n, q, 1) == Max0(n - q)
  {
    if k > 0 {
      assert k * q == (k - 1) * q + q;
      assert (k - 1) * q >= 0;
    }
  }

  /** What `k` drains of at least `q` rows each leave of `n`. */
  function LeftAfter(n: nat, q: nat, k: nat): nat {
    Max0(n - k * q)
  }

  /** The progress bound: of `n` publishable rows at most n - k * (20 - p) are
      left after k drains, when `p` < 20 other rows were pending at the start;
      rows that arrive meanwhile delay nothing. */
  lemma {:induction false} ProgressBound(targets: Targets, rows: map<Id, Row>, rounds: seq<Round>, good: set<Id>, known: set<Id>, n: nat, p: nat)
    requires Legal(targets, rows, rounds) && Backlog(targets, rows, good, known, n, p) && p < BATCH_SIZE
    requires Spared(rounds, good)
    ensures Backlog(targets, Rounds(targets, rows, rounds), good, known, LeftAfter(n, BATCH_SIZE - p, |rounds|), p)
    ensures var left := |Pending(Rounds(targets, rows, rounds)) * good|; left == 0 || left <= n - |rounds| * (20 - p)
    decreases |rounds|
  {
    hide Backlog, Settled, Arrive, LeftAfter;
    var q := BATCH_SIZE - p;
    Steps(n, q, |rounds|);
    if rounds != [] {
      ArrivalsJoin(targets, rows, rounds[0].arrivals, good, known, n, p);
      RoundProgress(targets, rows + rounds[0].arrivals, rounds[0].faults, good, known, n, p);
      ProgressBound(targets, After(targets, rows, rounds[0]), rounds[1..], good, known, LeftAfter(n, q, 1), p);
    }
    LeftOver(targets, Rounds(targets, rows, rounds), good, known, n, p, |rounds|);
  }

  lemma LeftOver(targets: Targets, rows: map<Id, Row>, good: set<Id>, known: set<Id>, n: nat, p: nat, k: nat)
    requires p < BATCH_SIZE && Backlog(targets, rows, good, known, LeftAfter(n, BATCH_SIZE - p, k), p)
    ensures var left := |Pending(rows) * good|; left == 0 || left <= n - k * (20 - p)
  {
    hide Aged;
  }

  /** Enough drains empty the backlog of publishable rows. */
  lemma BacklogClears(targets: Targets, rows: map<Id, Row>, rounds: seq<Round>, good: set<Id>)
    requires Legal(targets, rows, rounds) && good <= Pending(rows)
    requires forall id :: id in good ==> ClientsFor(targets, rows[id].pattern) != []
    requires Spared(rounds, good)
    requires |Pending(rows) - good| < 20
    requires |good| <= |rounds| * (20 - |Pending(rows) - good|)
    ensures forall id :: id in good ==>
              id in Rounds(targets, rows, rounds) && Rounds(targets, rows, rounds)[id].published
  {
    hide Settled, Legal, Rounds, Spared, Pending, Aged;
    var p := |Pending(rows) - good|;
    assert LeftAfter(|good|, BATCH_SIZE - p, |rounds|) == 0;
    hide LeftAfter;
    AllKnown(targets, rows, good);
    ProgressBound(targets, rows, rounds, good, rows.Keys, |good|, p);
    NoneLeft(targets, Rounds(targets, rows, rounds), good, rows.Keys, p);
  }

  lemma AllKnown(targets: Targets, rows: map<Id, Row>, good: set<Id>)
    requires good <= Pending(rows)
    requires forall id :: id in good ==> ClientsFor(targets, rows[id].pattern) != []
    ensures Backlog(targets, rows, good, rows.Keys, |good|, |Pending(rows) - good|)
  {
    assert Pending(rows) * good == good;
    assert (Pending(rows) - good) * rows.Keys == Pending(rows) - good;
  }

  lemma NoneLeft(targets: Targets, rows: map<Id, Row>, good: set<Id>, known: set<Id>, p: nat)
    requires Backlog(targets, rows, good, known, 0, p)
    ensures forall id :: id in good ==> id in rows && rows[id].published
  {
    assert Pending(rows) * good == {};
    forall id | id in good ensures id in rows && rows[id].published {
      assert id in rows.Keys && id !in Pending(rows) * good;
    }
  }

  // ---- Starvation ----------------------------------------------------------

  /** The 20 oldest pending rows fail whatever happens. */
  ghost predicate Blocked(targets: Targets, rows: map<Id, Row>, stuck: set<Id>, rounds: seq<Round>) {
    && |stuck| == 20
    && stuck <= Pending(rows)
    && (forall x, y :: x in stuck && y in Pending(rows) - stuck ==> x < y)
    && (forall id :: id in stuck ==> AlwaysFails(targets, rows[id], id, rounds))
  }

  ghost predicate AlwaysFails(targets: Targets, row: Row, id: Id, rounds: seq<Round>) {
    rounds == [] || (!Succeeds(targets, row, id, rounds[0].faults) && AlwaysFails(targets, row, id, rounds[1..]))
  }

  lemma BlockedBatch(targets: Targets, rows: map<Id, Row>, stuck: set<Id>)
    requires Blocked(targets, rows, stuck, [])
    ensures (set id | id in DrainBatch(rows, {})) == stuck
  {
    var taken := set id | id in DrainBatch(rows, {});
    assert Pending(rows) - {} == Pending(rows);
    SelectTakesSmallest(Pending(rows));
    DistinctCount(DrainBatch(rows, {}));
    if x :| x in stuck && x !in taken {
      OutsideBatch(rows, x);
      assert forall y :: y in taken ==> y !in Pending(rows) - stuck;
      assert taken <= stuck - {x};
      SubsetCount(taken, stuck - {x});
    }
    assert stuck <= taken;
    SubsetCount(stuck, taken);
  }

  lemma BlockedJoin(targets: Targets, rows: map<Id, Row>, arrivals: map<Id, Row>, stuck: set<Id>, rounds: seq<Round>)
    requires Blocked(targets, rows, stuck, rounds) && Arrive(rows, arrivals)
    ensures Blocked(targets, rows + arrivals, stuck, rounds)
  {
    PendingJoin(rows, arrivals);
    forall x, y | x in stuck && y in Pending(rows + arrivals) - stuck ensures x < y {
      assert y in Pending(rows) - stuck || y in arrivals;
    }
  }

  /** A drain of a blocked table leaves exactly the same rows pending. */
  lemma BlockedDrain(targets: Targets, rows: map<Id, Row>, stuck: set<Id>, rounds: seq<Round>)
    requires rounds != [] && Blocked(targets, rows, stuck, rounds)
    ensures var rows' := Settled(targets, rows, {}, rounds[0].faults);
      Pending(rows') == Pending(rows) && Blocked(targets, rows', stuck, rounds[1..])
  {
    hide Settled, DrainBatch, Succeeds;
    var rows' := Settled(targets, rows, {}, rounds[0].faults);
    BlockedBatch(targets, rows, stuck);
    DrainMarks(targets, rows, rounds[0].faults);
    assert Published(targets, rows, rounds[0].faults) == {};
    forall id | id in stuck ensures AlwaysFails(targets, rows'[id], id, rounds[1..]) {
      SamePatternFails(targets, rows[id], rows'[id], id, rounds[1..]);
    }
  }

  lemma {:induction false} SamePatternFails(targets: Targets, a: Row, b: Row, id: Id, rounds: seq<Round>)
    requires a.pattern == b.pattern && AlwaysFails(targets, a, id, rounds)
    ensures AlwaysFails(targets, b, id, rounds)
  {
    if rounds != [] { SamePatternFails(targets, a, b, id, rounds[1..]); }
  }

  /** A drainer whose 20 oldest pending rows cannot be published never
      publishes anything else, however often it runs. */
  lemma {:induction false} Starvation(targets: Targets, rows: map<Id, Row>, rounds: seq<Round>, stuck: set<Id>)
    requires Legal(targets, rows, rounds) && Blocked(targets, rows, stuck, rounds)
    ensures forall id :: id in Pending(rows) ==> id in Pending(Rounds(targets, rows, rounds))
    decreases |rounds|
  {
    if rounds != [] {
      hide Settled, Blocked;
      var all := rows + rounds[0].arrivals;
      BlockedJoin(targets, rows, rounds[0].arrivals, stuck, rounds);
      BlockedDrain(targets, all, stuck, rounds);
      Starvation(targets, After(targets, rows, rounds[0]), rounds[1..], stuck);
    }
  }
}
