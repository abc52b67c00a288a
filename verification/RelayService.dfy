/** The write side (`OutboxService`) and the read side (`OutboxRelay`) of one
    service's outbox, as objects that update the table in place. */
module RelayService {
  import opened Prelude
  import opened Envelope
  import opened Relay

  // ---- What one drain does -----------------------------------------------

  /** The publish to this target throws; the broker may have taken the message
      all the same. */
  datatype Fault = Fault(target: nat, delivered: bool)

  type Faults = map<Id, Fault>

  /** The drain's transaction fails: after `rows` rows of the batch and `sends`
      messages of the next one, or at its commit when the batch is over. */
  datatype Death = Death(rows: nat, sends: nat)

  /** How many targets are reached before one throws. */
  function Reach(targets: Targets, row: Row, id: Id, faults: Faults): nat {
    var n := |ClientsFor(targets, row.pattern)|;
    if id in faults && faults[id].target < n then faults[id].target else n
  }

  predicate Succeeds(targets: Targets, row: Row, id: Id, faults: Faults) {
    var n := |ClientsFor(targets, row.pattern)|;
    n > 0 && Reach(targets, row, id, faults) == n
  }

  predicate ThrowsDelivered(targets: Targets, row: Row, id: Id, faults: Faults) {
    id in faults && faults[id].target < |ClientsFor(targets, row.pattern)| && faults[id].delivered
  }

  /** How many messages go out. */
  function Sent(targets: Targets, row: Row, id: Id, faults: Faults): (n: nat)
    ensures n <= |ClientsFor(targets, row.pattern)|
  {
    Reach(targets, row, id, faults) + (if ThrowsDelivered(targets, row, id, faults) then 1 else 0)
  }

  function RowMessages(targets: Targets, row: Row, id: Id, reach: nat): seq<Message>
    requires reach <= |ClientsFor(targets, row.pattern)|
  {
    seq(reach, j requires 0 <= j < reach =>
      Message(id, ClientsFor(targets, row.pattern)[j], row.pattern, Strip(row.payload)))
  }

  /** What publishing a batch does: messages out, rows marked, rows bumped. */
  datatype Effect = Effect(messages: seq<Message>, marked: set<Id>, bumped: set<Id>)

  function RowEffect(targets: Targets, row: Row, id: Id, faults: Faults): Effect {
    Effect(RowMessages(targets, row, id, Sent(targets, row, id, faults)),
           if Succeeds(targets, row, id, faults) then {id} else {},
           if Succeeds(targets, row, id, faults) || ClientsFor(targets, row.pattern) == [] then {} else {id})
  }

  function Then(a: Effect, b: Effect): Effect {
    Effect(a.messages + b.messages, a.marked + b.marked, a.bumped + b.bumped)
  }

  function BatchEffect(targets: Targets, rows: map<Id, Row>, batch: seq<Id>, faults: Faults): Effect
    requires forall id :: id in batch ==> id in rows
  {
    if batch == [] then Effect([], {}, {})
    else
      var id := batch[|batch| - 1];
      Then(BatchEffect(targets, rows, batch[..|batch| - 1], faults), RowEffect(targets, rows[id], id, faults))
  }

  /** A batch marks exactly its rows all of whose targets were reached, and
      bumps exactly its rows one of whose targets threw. */
  lemma {:induction false} BatchEffectSets(targets: Targets, rows: map<Id, Row>, batch: seq<Id>, faults: Faults)
    requires forall id :: id in batch ==> id in rows
    ensures var e := BatchEffect(targets, rows, batch, faults);
      && (forall id :: id in e.marked <==> id in batch && Succeeds(targets, rows[id], id, faults))
      && (forall id :: id in e.bumped <==>
            id in batch && ClientsFor(targets, rows[id].pattern) != [] && !Succeeds(targets, rows[id], id, faults))
  {
    if batch != [] {
      var n := |batch| - 1;
      assert batch == batch[..n] + [batch[n]];
      BatchEffectSets(targets, rows, batch[..n], faults);
    }
  }

  function Pending(rows: map<Id, Row>): set<Id> {
    set id | id in rows && !rows[id].published
  }

  ghost function DrainBatch(rows: map<Id, Row>, locked: set<Id>): (batch: seq<Id>)
    ensures Increasing(batch) && forall id :: id in batch ==> id in rows && !rows[id].published && id !in locked
  {
    SelectTakesSmallest(Pending(rows) - locked);
    Select(Pending(rows) - locked)
  }

  ghost function DrainEffect(targets: Targets, rows: map<Id, Row>, locked: set<Id>, faults: Faults): Effect {
    BatchEffect(targets, rows, DrainBatch(rows, locked), faults)
  }

  /** The messages of a batch that is cut short. */
  function CutShort(targets: Targets, rows: map<Id, Row>, batch: seq<Id>, faults: Faults, d: Death): seq<Message>
    requires forall id :: id in batch ==> id in rows
  {
    if d.rows >= |batch| then BatchEffect(targets, rows, batch, faults).messages
    else
      var id := batch[d.rows];
      BatchEffect(targets, rows, batch[..d.rows], faults).messages
      + RowMessages(targets, rows[id], id, Least2(d.sends, Sent(targets, rows[id], id, faults)))
  }

  function Least2(a: nat, b: nat): nat {
    if a < b then a else b
  }

  /** What a drain sends, whether it commits or dies. */
  ghost function DrainMessages(targets: Targets, rows: map<Id, Row>, locked: set<Id>, faults: Faults, dies: Option<Death>): seq<Message> {
    match dies
    case None => DrainEffect(targets, rows, locked, faults).messages
    case Some(d) => CutShort(targets, rows, DrainBatch(rows, locked), faults, d)
  }

  /** The table after a drain that committed. */
  ghost function Settled(targets: Targets, rows: map<Id, Row>, locked: set<Id>, faults: Faults): map<Id, Row> {
    var e := DrainEffect(targets, rows, locked, faults);
    Updated(rows, e.marked, e.bumped)
  }

  /** What a committed drain does to each row: locked, younger and unrouted rows
      are left alone; a row of the batch one of whose targets throws stays pending
      with one attempt more; one that reached all its targets is published. */
  lemma DrainOutcome(targets: Targets, rows: map<Id, Row>, locked: set<Id>, faults: Faults)
    ensures var rows', batch := Settled(targets, rows, locked, faults), DrainBatch(rows, locked);
      && rows'.Keys == rows.Keys
      && forall id :: id in rows ==>
           var n := |ClientsFor(targets, rows[id].pattern)|;
           rows'[id] == if id !in batch || n == 0 then rows[id]
                        else if id in faults && faults[id].target < n then rows[id].(attempts := rows[id].attempts + 1)
                        else rows[id].(published := true)
  {
    BatchEffectSets(targets, rows, DrainBatch(rows, locked), faults);
    hide BatchEffect, DrainBatch;
  }

  lemma AscendingHead(s: set<Id>, m: Id)
    requires m in s && forall x :: x in s ==> m <= x
    ensures Ascending(s) == [m] + Ascending(s - {m})
  {
  }

  /** How the i-th row extends what the rows before it did. */
  lemma NextInBatch(targets: Targets, rows: map<Id, Row>, batch: seq<Id>, i: nat, faults: Faults)
    requires i < |batch| && forall id :: id in batch ==> id in rows
    ensures BatchEffect(targets, rows, batch[..i + 1], faults)
         == Then(BatchEffect(targets, rows, batch[..i], faults), RowEffect(targets, rows[batch[i]], batch[i], faults))
  {
    assert batch[..i + 1][..i] == batch[..i];
  }

  // ---- The objects -------------------------------------------------------

  lemma NothingYet(targets: Targets, rows: map<Id, Row>, batch: seq<Id>, faults: Faults)
    requires forall id :: id in batch ==> id in rows
    ensures BatchEffect(targets, rows, batch[..0], faults) == Effect([], {}, {})
  {
  }

  class Outbox {
    var rows: map<Id, Row>
    var nextId: nat

    ghost predicate Valid()
      reads this
    {
      forall id :: id in rows ==> id < nextId
    }

    constructor ()
      ensures Valid() && rows == map[]
    {
      rows, nextId := map[], 0;
    }

    /** Adds the event row of a domain write, in the caller's transaction. */
    method Enqueue(pattern: string, payload: Payload, carrier: Carrier) returns (id: Id)
      requires Valid()
      modifies this
      ensures Valid() && id !in old(rows)
      ensures rows == old(rows)[id := Row(pattern, Wrap(payload, carrier), false, 0)]
      ensures forall other :: other in old(rows) ==> other < id
      ensures TRACE_CARRIER_KEY !in payload ==> Strip(rows[id].payload) == payload
    {
      id := nextId;
      var stored := payload;
      if carrier.Keys != {} {
        stored := stored[TRACE_CARRIER_KEY := CarrierJson(carrier)];
      }
      rows := rows[id := Row(pattern, stored, false, 0)];
      nextId := nextId + 1;
      RoundTripIffKeyUnused(payload, carrier);
    }

    /** SELECT id ... ORDER BY id LIMIT 20, rows locked elsewhere skipped. */
    method SelectPending(locked: set<Id>) returns (batch: seq<Id>)
      ensures batch == Select(Pending(rows) - locked)
    {
      var left := Pending(rows) - locked;
      ghost var all := left;
      batch := [];
      while left != {} && |batch| < BATCH_SIZE
        invariant Ascending(all) == batch + Ascending(left)
        invariant |batch| <= BATCH_SIZE
        decreases |left|
      {
        var m := Least(left);
        AscendingHead(left, m);
        assert batch + ([m] + Ascending(left - {m})) == (batch + [m]) + Ascending(left - {m});
        batch := batch + [m];
        left := left - {m};
      }
      AscendingSorted(left);
      assert Ascending(all)[..|batch|] == batch;
      if left == {} { assert Ascending(all) == batch; }
    }
  }

  method Least(s: set<Id>) returns (m: Id)
    requires s != {}
    ensures m in s && forall x :: x in s ==> m <= x
  {
    m := PickElement(s);
    var left := s - {m};
    while left != {}
      invariant m in s && left <= s
      invariant forall x :: x in s && x !in left ==> m <= x
      decreases |left|
    {
      var x := PickElement(left);
      if x < m { m := x; }
      left := left - {x};
    }
  }

  class OutboxRelay {
    const targets: Targets
    const outbox: Outbox
    var draining: bool
    var sent: seq<Message>

    constructor (outbox: Outbox, targets: Targets)
      ensures this.outbox == outbox && this.targets == targets && !draining && sent == []
    {
      this.outbox, this.targets := outbox, targets;
      draining, sent := false, [];
    }

    /** One tick of the relay. */
    method Drain(enabled: string, locked: set<Id>, faults: Faults, dies: Option<Death>) returns (ran: bool)
      requires outbox.Valid()
      modifies this, outbox`rows
      ensures outbox.Valid() && draining == old(draining)
      ensures ran <==> enabled != "false" && !old(draining)
      ensures !ran ==> outbox.rows == old(outbox.rows) && sent == old(sent)
      ensures ran ==>
                && sent == old(sent) + DrainMessages(targets, old(outbox.rows), locked, faults, dies)
                && outbox.rows == if dies.Some? then old(outbox.rows)
                                  else Settled(targets, old(outbox.rows), locked, faults)
    {
      if enabled == "false" { return false; }
      if draining { return false; }
      draining := true;
      var _ := DrainOnce(locked, faults, dies);
      draining := false;
      ran := true;
    }

    /** The drain transaction. Wherever it dies, the table is as before, but what
        was sent stays sent. */
    method DrainOnce(locked: set<Id>, faults: Faults, dies: Option<Death>) returns (published: nat)
      requires outbox.Valid()
      modifies this`sent, outbox`rows
      ensures outbox.Valid()
      ensures sent == old(sent) + DrainMessages(targets, old(outbox.rows), locked, faults, dies)
      ensures outbox.rows == if dies.Some? then old(outbox.rows)
                             else Settled(targets, old(outbox.rows), locked, faults)
      ensures published == if dies.Some? then 0 else |DrainEffect(targets, old(outbox.rows), locked, faults).marked|
    {
      hide BatchEffect, RowMessages, Sent;
      var rows := outbox.rows;
      var batch := outbox.SelectPending(locked);
      assert batch == DrainBatch(rows, locked);
      hide DrainBatch;
      var stop := if dies.Some? && dies.value.rows < |batch| then dies.value.rows else |batch|;
      assert batch[..|batch|] == batch;
      var marked, bumped := PublishBatch(rows, batch[..stop], faults);
      if dies.Some? {
        if stop < |batch| {
          var _ := PublishRow(batch[stop], rows[batch[stop]], faults, dies.value.sends);
        }
        return 0;
      }
      published := |marked|;
      outbox.rows := Updated(rows, marked, bumped);
    }

    /** The loop over the locked rows. A failed row does not stop later ones. */
    method PublishBatch(rows: map<Id, Row>, batch: seq<Id>, faults: Faults)
      returns (marked: set<Id>, bumped: set<Id>)
      requires forall id :: id in batch ==> id in rows
      modifies this`sent
      ensures var e := BatchEffect(targets, rows, batch, faults);
                sent == old(sent) + e.messages && marked == e.marked && bumped == e.bumped
    {
      hide BatchEffect;
      marked, bumped := {}, {};
      NothingYet(targets, rows, batch, faults);
      ghost var e := Effect([], {}, {});
      for i := 0 to |batch|
        invariant e == BatchEffect(targets, rows, batch[..i], faults)
        invariant sent == old(sent) + e.messages && marked == e.marked && bumped == e.bumped
      {
        var id := batch[i];
        NextInBatch(targets, rows, batch, i, faults);
        e := Then(e, RowEffect(targets, rows[id], id, faults));
        if |ClientsFor(targets, rows[id].pattern)| == 0 { continue; }
        var threw := PublishRow(id, rows[id], faults, |ClientsFor(targets, rows[id].pattern)|);
        if !threw {
          marked := marked + {id};
        } else {
          bumped := bumped + {id};
        }
      }
      assert batch[..|batch|] == batch;
    }

    /** Sends one row to its targets, one after the other; after `limit`
        messages the process is gone. */
    method PublishRow(id: Id, row: Row, faults: Faults, limit: nat) returns (threw: bool)
      modifies this`sent
      ensures sent == old(sent) + RowMessages(targets, row, id, Least2(limit, Sent(targets, row, id, faults)))
      ensures limit >= |ClientsFor(targets, row.pattern)| ==> (threw <==> Reach(targets, row, id, faults) < |ClientsFor(targets, row.pattern)|)
    {
      var payload := Strip(row.payload);
      var clients := ClientsFor(targets, row.pattern);
      for j := 0 to |clients|
        invariant j <= Reach(targets, row, id, faults) && j <= limit
        invariant sent == old(sent) + RowMessages(targets, row, id, j)
      {
        if j == limit { return false; }
        assert RowMessages(targets, row, id, j + 1)
            == RowMessages(targets, row, id, j) + [Message(id, clients[j], row.pattern, payload)];
        if id in faults && faults[id].target == j {
          if faults[id].delivered {
            sent := sent + [Message(id, clients[j], row.pattern, payload)];
          }
          return true;
        }
        sent := sent + [Message(id, clients[j], row.pattern, payload)];
      }
      threw := false;
    }
  }
}
