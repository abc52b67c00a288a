/** Runs that show the side conditions of the recording theorems are needed. */
module TracingLimits {
  import opened Prelude
  import opened Envelope
  import opened Runs
  import opened Tracing
  import Relay
  import Broker

  const PATTERN := "crop.initialized"
  const DATA: Payload := map["payload" := JObj(map["id" := JNum(7)])]
  const KEY := Key("CROP_INITIALIZED", Some(7))

  function Copy(handled: nat, crashes: nat): Broker.Msg {
    Broker.Msg(PATTERN, DATA, 0, 0, handled, crashes)
  }

  lemma CopyKey(handled: nat, crashes: nat)
    ensures MsgKey(Copy(handled, crashes)) == KEY
  {
  }

  /** The run goes on to an explicitly given state. */
  lemma Step(ls: seq<Label>, l: Label, s': State) returns (ls': seq<Label>)
    requires Valid(System(), Init, ls) && Enabled(Exec(System(), Init, ls), l)
    requires Next(Exec(System(), Init, ls), l) == s'
    ensures ls' == ls + [l] && Valid(System(), Init, ls') && Exec(System(), Init, ls') == s'
  {
    Extend(System(), Init, ls, l);
    ls' := ls + [l];
  }

  /** The outbox with the event's row, and its history. */
  function OneRow(published: bool, drains: map<Relay.Replica, Relay.Drain>, sent: nat): Relay.State {
    Relay.State(map[1 := Relay.Row(PATTERN, DATA, published, 0)], drains, map[1 := Relay.Log([sent], sent, 0, 0)])
  }

  function Queues(main: seq<Broker.Msg>, unacked: seq<Broker.Delivery>, done: seq<Broker.Msg>, deaths: nat): Broker.State {
    Broker.State(main, unacked, [], [], done, [], 1, deaths, map[0 := 1])
  }

  /** The relay has published the event; the rest as given. */
  function After(broker: Broker.State, claims: set<Key>, docs: seq<Doc>, orphans: set<Key>, expired: set<Key>): State {
    State(OneRow(true, map[], 1), broker, claims, docs, orphans, expired)
  }

  function With(m: Broker.Msg, phase: Broker.Phase): seq<Broker.Delivery> {
    [Broker.Delivery(0, m, phase)]
  }

  // ---- Single steps on these states ------------------------------------------

  lemma Commits()
    ensures var l := Commit(1, PATTERN, DATA, map[]);
      Enabled(Init, l) && Next(Init, l) == State(OneRow(false, map[], 0), Broker.Init, {}, [], {}, {})
  {
    var carrier: Carrier := map[];
    assert Wrap(DATA, carrier) == DATA;
    assert seq(1, _ => 0) == [0];
  }

  const BATCH := Relay.Drain([1], 0, 0, {}, {})

  lemma Begins()
    ensures var s := State(OneRow(false, map[], 0), Broker.Init, {}, [], {}, {});
      Enabled(s, RelayStep(Relay.Begin(0)))
      && Next(s, RelayStep(Relay.Begin(0))) == s.(relay := OneRow(false, map[0 := BATCH], 0))
  {
    var s := State(OneRow(false, map[], 0), Broker.Init, {}, [], {}, {});
    assert Relay.Candidates(s.relay) == {1};
    Relay.SelectTakesSmallest({1});
    assert Relay.Select({1}) == [1];
  }

  lemma Sends()
    ensures var s := State(OneRow(false, map[0 := BATCH], 0), Broker.Init, {}, [], {}, {});
      Enabled(s, RelayStep(Relay.Send(0)))
      && Next(s, RelayStep(Relay.Send(0)))
         == State(OneRow(false, map[0 := BATCH.(reached := 1)], 1), Queues([Copy(0, 0)], [], [], 0), {}, [], {}, {})
  {
    assert Strip(DATA) == DATA;
    assert Relay.Tried(Relay.Delivered(Relay.Log([0], 0, 0, 0), 0), 0) == Relay.Log([1], 1, 0, 0);
    assert Broker.Init.main + [Copy(0, 0)] == [Copy(0, 0)];
  }

  lemma Marks(b: Broker.State)
    ensures var s := State(OneRow(false, map[0 := BATCH.(reached := 1)], 1), b, {}, [], {}, {});
      Enabled(s, RelayStep(Relay.Mark(0)))
      && Next(s, RelayStep(Relay.Mark(0)))
         == s.(relay := OneRow(false, map[0 := BATCH.(pos := 1, marked := {1})], 1))
  {
    var log: map<Relay.Id, Relay.Log> := map[1 := Relay.Log([1], 1, 0, 0)];
    assert log[1 := log[1]] == log;
    var none: set<Relay.Id> := {};
    assert none + {1} == {1} && BATCH.marked == none;
    var s := State(OneRow(false, map[0 := BATCH.(reached := 1)], 1), b, {}, [], {}, {});
    var d := Relay.NextDrain(s.relay, Relay.Mark(0));
    assert d == BATCH.(pos := 1, marked := {1});
    assert s.relay.drains[0 := d] == map[0 := d];
  }

  lemma DrainCommits(b: Broker.State)
    ensures var s := State(OneRow(false, map[0 := BATCH.(pos := 1, marked := {1})], 1), b, {}, [], {}, {});
      Enabled(s, RelayStep(Relay.Commit(0))) && Next(s, RelayStep(Relay.Commit(0))) == After(b, {}, [], {}, {})
  {
    var rows: map<Relay.Id, Relay.Row> := map[1 := Relay.Row(PATTERN, DATA, false, 0)];
    assert Relay.Updated(rows, {1}, {}) == map[1 := Relay.Row(PATTERN, DATA, true, 0)];
    var drains: map<Relay.Replica, Relay.Drain> := map[0 := BATCH.(pos := 1, marked := {1})];
    assert drains - {0} == map[];
  }

  lemma Delivers(h: nat, c: nat, deaths: nat, claims: set<Key>, docs: seq<Doc>, orphans: set<Key>, expired: set<Key>)
    ensures var s := After(Queues([Copy(h, c)], [], [], deaths), claims, docs, orphans, expired);
      Enabled(s, BrokerStep(Broker.Deliver(0)))
      && Next(s, BrokerStep(Broker.Deliver(0)))
         == s.(broker := Queues([], With(Copy(h + 1, c), Broker.Running(Broker.Received)), [], deaths))
  {
    var main := [Copy(h, c)];
    assert main[1..] == [];
  }

  // ---- The runs ----------------------------------------------------------------

  /** One event committed, drained and queued. */
  lemma OneEventQueued() returns (ls: seq<Label>)
    ensures Valid(System(), Init, ls)
    ensures Exec(System(), Init, ls) == After(Queues([Copy(0, 0)], [], [], 0), {}, [], {}, {})
  {
    hide Enabled, Next, After;
    var none: seq<Label> := [];
    assert Valid(System(), Init, none) && Exec(System(), Init, none) == Init;
    hide Valid, Exec, System;
    var q := Queues([Copy(0, 0)], [], [], 0);
    Commits();
    ls := Step(none, Commit(1, PATTERN, DATA, map[]), State(OneRow(false, map[], 0), Broker.Init, {}, [], {}, {}));
    Begins();
    ls := Step(ls, RelayStep(Relay.Begin(0)), State(OneRow(false, map[0 := BATCH], 0), Broker.Init, {}, [], {}, {}));
    Sends();
    ls := Step(ls, RelayStep(Relay.Send(0)), State(OneRow(false, map[0 := BATCH.(reached := 1)], 1), q, {}, [], {}, {}));
    Marks(q);
    ls := Step(ls, RelayStep(Relay.Mark(0)), State(OneRow(false, map[0 := BATCH.(pos := 1, marked := {1})], 1), q, {}, [], {}, {}));
    DrainCommits(q);
    ls := Step(ls, RelayStep(Relay.Commit(0)), After(q, {}, [], {}, {}));
  }

  /** The delivery of that event is with a consumer. */
  lemma OneEventReceived() returns (ls: seq<Label>)
    ensures Valid(System(), Init, ls)
    ensures Exec(System(), Init, ls) == After(Queues([], With(Copy(1, 0), Broker.Running(Broker.Received)), [], 0), {}, [], {}, {})
  {
    ls := OneEventQueued();
    hide Enabled, Next, Valid, Exec, System;
    Delivers(0, 0, 0, {}, [], {}, {});
    ls := Step(ls, BrokerStep(Broker.Deliver(0)),
               After(Queues([], With(Copy(1, 0), Broker.Running(Broker.Received)), [], 0), {}, [], {}, {}));
  }

  // ---- Redelivery after a death, from any state ----------------------------------

  /** The run goes on to an explicitly given state, from any start. */
  lemma Goes(start: State, ls: seq<Label>, s: State, l: Label, s': State) returns (ls': seq<Label>)
    requires Valid(System(), start, ls) && Exec(System(), start, ls) == s && Enabled(s, l) && Next(s, l) == s'
    ensures ls' == ls + [l] && Valid(System(), start, ls') && Exec(System(), start, ls') == s'
  {
    Extend(System(), start, ls, l);
    ls' := ls + [l];
  }

  /** The message as the broker hands it out again after the death. */
  function Again(m: Broker.Msg): Broker.Msg {
    m.(crashes := m.crashes + 1, handled := m.handled + 1)
  }

  /** Delivery `i` is gone and its message is with the same consumer anew, last
      among the unacked ones. */
  function Redelivered(b: Broker.State, i: nat, p: Broker.Phase): Broker.State
    requires i < |b.unacked|
  {
    b.(unacked := RemoveAt(b.unacked, i) + [Broker.Delivery(b.unacked[i].consumer, Again(b.unacked[i].msg), p)],
       deaths := b.deaths + 1)
  }

  function Requeued(b: Broker.State, i: nat): Broker.State
    requires i < |b.unacked|
  {
    var m := b.unacked[i].msg;
    b.(unacked := RemoveAt(b.unacked, i), main := [m.(crashes := m.crashes + 1)] + b.main, deaths := b.deaths + 1)
  }

  lemma DeathRequeues(s: State, i: nat)
    requires i < |s.broker.unacked| && !s.broker.unacked[i].phase.Rerouted?
    ensures Enabled(s, Die(i))
    ensures Next(s, Die(i)) == s.(broker := Requeued(s.broker, i),
                                  orphans := if Claimant(s.broker.unacked[i]) then s.orphans + {KeyAt(s, i)} else s.orphans)
  {
  }

  /** The consumer's place is free, and the message is first in the queue. */
  lemma DeliversAgain(s: State, b: Broker.State, i: nat)
    requires Broker.OneEach(b) && i < |b.unacked| && s.broker == Requeued(b, i)
    ensures var l := BrokerStep(Broker.Deliver(b.unacked[i].consumer));
      && Enabled(s, l) && Next(s, l) == s.(broker := Redelivered(b, i, Broker.Running(Broker.Received)))
  {
    var u, c := s.broker.unacked, b.unacked[i].consumer;
    forall j | 0 <= j < |u| ensures u[j].consumer != c {
      assert u[j] == b.unacked[if j < i then j else j + 1];
    }
    assert s.broker.main[1..] == b.main;
  }

  /** A step of the redelivered message's handler. */
  lemma RedeliveredMoves(b: Broker.State, i: nat, p: Broker.Phase, q: Broker.Phase)
    requires i < |b.unacked|
    ensures var j, r := |b.unacked| - 1, Redelivered(b, i, p);
      && Broker.InPhase(r, j, p) && MsgKey(r.unacked[j].msg) == MsgKey(b.unacked[i].msg)
      && Broker.WithPhase(r, j, q) == Redelivered(b, i, q)
      && RemoveAt(r.unacked, j) == RemoveAt(b.unacked, i)
  {
    var j, u := |b.unacked| - 1, Redelivered(b, i, p).unacked;
    assert u[j := u[j].(phase := q)] == Redelivered(b, i, q).unacked;
    assert u[..j] + u[j + 1..] == RemoveAt(b.unacked, i);
  }

  /** No other copy of the event is on its way. */
  ghost predicate LastCopy(b: Broker.State, i: nat)
    requires i < |b.unacked|
  {
    var k := MsgKey(b.unacked[i].msg);
    && !Holds(b.main, k) && !Holds(b.retry, k) && !Holds(b.dlq, k)
    && forall d :: d in RemoveAt(b.unacked, i) && Live(d) ==> MsgKey(d.msg) != k
  }

  function OrphanSteps(s: State, i: nat): seq<Label>
    requires i < |s.broker.unacked|
  {
    var j := |s.broker.unacked| - 1;
    [Claim(i), Die(i), BrokerStep(Broker.Deliver(s.broker.unacked[i].consumer)), Claim(j), BrokerStep(Broker.Ack(j))]
  }

  /** In any state in which a consumer holds the last copy of an event nobody has
      claimed or stored, a death between claim and save loses the event: the
      redelivery skips, is acked, and leaves neither a copy nor a document. */
  lemma OrphanSwallowsEvent(s: State, i: nat) returns (ls: seq<Label>)
    requires At(s, i, Broker.Received) && Broker.OneEach(s.broker)
    requires KeyAt(s, i) !in s.claims && !Stored(s, KeyAt(s, i)) && LastCopy(s.broker, i)
    ensures ls == OrphanSteps(s, i) && Valid(System(), s, ls)
    ensures var s', k := Exec(System(), s, ls), KeyAt(s, i);
      && !Alive(s'.broker, k) && !Stored(s', k) && k in s'.orphans
      && s'.relay == s.relay && s'.docs == s.docs
  {
    ls := OrphanRun(s, i);
    OrphanEndLost(s, i);
    hide Valid, Exec, System, OrphanEnd, OrphanSteps;
  }

  /** Where that run ends. */
  function OrphanEnd(s: State, i: nat): State
    requires i < |s.broker.unacked|
  {
    var b := s.broker;
    s.(claims := s.claims + {KeyAt(s, i)}, orphans := s.orphans + {KeyAt(s, i)},
       broker := b.(unacked := RemoveAt(b.unacked, i), deaths := b.deaths + 1, done := b.done + [Again(b.unacked[i].msg)]))
  }

  lemma OrphanEndLost(s: State, i: nat)
    requires i < |s.broker.unacked| && !Stored(s, KeyAt(s, i)) && LastCopy(s.broker, i)
    ensures !Alive(OrphanEnd(s, i).broker, KeyAt(s, i)) && !Stored(OrphanEnd(s, i), KeyAt(s, i))
  {
  }

  /** The first three steps: claim, death, redelivery. */
  lemma ClaimedAndDied(s: State, i: nat) returns (ls: seq<Label>)
    requires At(s, i, Broker.Received) && Broker.OneEach(s.broker) && KeyAt(s, i) !in s.claims
    ensures ls == OrphanSteps(s, i)[..3] && Valid(System(), s, ls)
    ensures Exec(System(), s, ls) == s.(claims := s.claims + {KeyAt(s, i)}, orphans := s.orphans + {KeyAt(s, i)},
                                        broker := Redelivered(s.broker, i, Broker.Running(Broker.Received)))
  {
    var k, b := KeyAt(s, i), s.broker;
    var s1 := Advanced(s, i, Broker.Claimed).(claims := s.claims + {k});
    var b1 := s1.broker;
    SingleStep(System(), s, Claim(i));
    assert RemoveAt(b1.unacked, i) == RemoveAt(b.unacked, i);
    assert Redelivered(b1, i, Broker.Running(Broker.Received)) == Redelivered(b, i, Broker.Running(Broker.Received));
    DeathRequeues(s1, i);
    var s2 := s1.(broker := Requeued(b1, i), orphans := s.orphans + {k});
    DeliversAgain(s2, b1, i);
    hide Enabled, Next, Valid, Exec, System, Requeued, Redelivered;
    ls := Goes(s, [Claim(i)], s1, Die(i), s2);
    ls := Goes(s, ls, s2, BrokerStep(Broker.Deliver(b.unacked[i].consumer)), s2.(broker := Redelivered(b1, i, Broker.Running(Broker.Received))));
  }

  lemma OrphanSplit(s: State, i: nat)
    requires i < |s.broker.unacked|
    ensures var j := |s.broker.unacked| - 1;
      OrphanSteps(s, i) == OrphanSteps(s, i)[..3] + [Claim(j)] + [BrokerStep(Broker.Ack(j))]
  {
  }

  lemma AckedEnd(s: State, i: nat, s4: State)
    requires i < |s.broker.unacked|
    requires s4 == s.(claims := s.claims + {KeyAt(s, i)}, orphans := s.orphans + {KeyAt(s, i)},
                      broker := Redelivered(s.broker, i, Broker.Succeeded))
    ensures var j := |s.broker.unacked| - 1;
      j < |s4.broker.unacked| &&
      s4.(broker := s4.broker.(unacked := RemoveAt(s4.broker.unacked, j), done := s4.broker.done + [s4.broker.unacked[j].msg]))
      == OrphanEnd(s, i)
  {
    RedeliveredMoves(s.broker, i, Broker.Succeeded, Broker.Succeeded);
  }

  lemma OrphanRun(s: State, i: nat) returns (ls: seq<Label>)
    requires At(s, i, Broker.Received) && Broker.OneEach(s.broker) && KeyAt(s, i) !in s.claims
    ensures ls == OrphanSteps(s, i) && Valid(System(), s, ls) && Exec(System(), s, ls) == OrphanEnd(s, i)
  {
    hide Valid, Exec, System;
    var k, b, j := KeyAt(s, i), s.broker, |s.broker.unacked| - 1;
    ls := ClaimedAndDied(s, i);
    var s3 := Exec(System(), s, ls);
    var s4 := s3.(broker := Redelivered(b, i, Broker.Succeeded));
    RedeliveredMoves(b, i, Broker.Running(Broker.Received), Broker.Succeeded);
    RedeliveredMoves(b, i, Broker.Succeeded, Broker.Succeeded);
    SkipsAndAcks(s3, s4, j, k);
    AckedEnd(s, i, s4);
    hide Enabled, Next, OrphanEnd, Redelivered, OrphanSteps;
    OrphanSplit(s, i);
    ls := Goes(s, ls, s3, Claim(j), s4);
    ls := Goes(s, ls, s4, BrokerStep(Broker.Ack(j)), OrphanEnd(s, i));
  }

  lemma SkipsAndAcks(s3: State, s4: State, j: nat, k: Key)
    requires At(s3, j, Broker.Received) && KeyAt(s3, j) == k && k in s3.claims
    requires s4 == s3.(broker := Broker.WithPhase(s3.broker, j, Broker.Succeeded))
    ensures Enabled(s3, Claim(j)) && Next(s3, Claim(j)) == s4
    ensures Enabled(s4, BrokerStep(Broker.Ack(j)))
    ensures Next(s4, BrokerStep(Broker.Ack(j)))
            == s4.(broker := s4.broker.(unacked := RemoveAt(s4.broker.unacked, j), done := s4.broker.done + [s4.broker.unacked[j].msg]))
  {
  }

  function DuplicateSteps(s: State, i: nat): seq<Label>
    requires i < |s.broker.unacked|
  {
    var j := |s.broker.unacked| - 1;
    [Save(i), Die(i), TtlExpiry(KeyAt(s, i)), BrokerStep(Broker.Deliver(s.broker.unacked[i].consumer)), Claim(j), Save(j)]
  }

  /** In any state in which a consumer is about to save, an expiry of its claim
      before the last redelivery stores the event twice: here the consumer dies
      after saving and before acking. */
  lemma EarlyExpiryDuplicates(s: State, i: nat) returns (ls: seq<Label>)
    requires At(s, i, Broker.Claimed) && Broker.OneEach(s.broker) && KeyAt(s, i) in s.claims
    ensures ls == DuplicateSteps(s, i) && Valid(System(), s, ls)
    ensures var m := s.broker.unacked[i].msg;
      Exec(System(), s, ls).docs == s.docs + [Doc(m.pattern, m.payload), Doc(m.pattern, m.payload)]
  {
    var m := s.broker.unacked[i].msg;
    var doc := Doc(m.pattern, m.payload);
    hide Valid, Exec, System, Enabled, Next, Redelivered, DuplicateSteps;
    var first := SavedAndExpired(s, i, doc);
    ls := StoresAgain(s, first, Exec(System(), s, first), s.broker, i, doc);
    assert s.docs + [doc] + [doc] == s.docs + [doc, doc];
    assert ls == DuplicateSteps(s, i) by { SplitSteps(s, i); }
  }

  lemma SplitSteps(s: State, i: nat)
    requires i < |s.broker.unacked|
    ensures var j := |s.broker.unacked| - 1; DuplicateSteps(s, i) == DuplicateSteps(s, i)[..4] + [Claim(j)] + [Save(j)]
  {
  }

  /** The redelivered message finds its key free and is stored. */
  lemma StoresAgain(s: State, ls: seq<Label>, t: State, b: Broker.State, i: nat, doc: Doc) returns (ls': seq<Label>)
    requires Valid(System(), s, ls) && Exec(System(), s, ls) == t
    requires i < |b.unacked| && t.broker == Redelivered(b, i, Broker.Running(Broker.Received))
    requires MsgKey(b.unacked[i].msg) !in t.claims && doc == Doc(b.unacked[i].msg.pattern, b.unacked[i].msg.payload)
    ensures var j := |b.unacked| - 1; ls' == ls + [Claim(j)] + [Save(j)] && Valid(System(), s, ls')
    ensures Exec(System(), s, ls').docs == t.docs + [doc]
  {
    hide Valid, Exec, System;
    var k, j := MsgKey(b.unacked[i].msg), |b.unacked| - 1;
    var u := t.(broker := Redelivered(b, i, Broker.Running(Broker.Claimed)), claims := t.claims + {k});
    RedeliveredMoves(b, i, Broker.Running(Broker.Received), Broker.Running(Broker.Claimed));
    RedeliveredMoves(b, i, Broker.Running(Broker.Claimed), Broker.Succeeded);
    assert u.broker.unacked[j].msg == Again(b.unacked[i].msg);
    ClaimsAgain(t, j, k);
    SavesAgain(u, j, doc);
    hide Enabled, Next, Redelivered;
    ls' := Goes(s, ls, t, Claim(j), u);
    ls' := Goes(s, ls', u, Save(j), Next(u, Save(j)));
  }

  /** The first four steps: save, death, expiry, redelivery. */
  lemma SavedAndExpired(s: State, i: nat, doc: Doc) returns (ls: seq<Label>)
    requires At(s, i, Broker.Claimed) && Broker.OneEach(s.broker) && KeyAt(s, i) in s.claims
    requires doc == Doc(s.broker.unacked[i].msg.pattern, s.broker.unacked[i].msg.payload)
    ensures ls == DuplicateSteps(s, i)[..4] && Valid(System(), s, ls)
    ensures Exec(System(), s, ls) == s.(docs := s.docs + [doc], claims := s.claims - {KeyAt(s, i)}, expired := s.expired + {KeyAt(s, i)},
                                        broker := Redelivered(s.broker, i, Broker.Running(Broker.Received)))
  {
    var k, b := KeyAt(s, i), s.broker;
    var s1 := Finished(s, i, true).(docs := s.docs + [doc]);
    var b1 := s1.broker;
    SingleStep(System(), s, Save(i));
    assert RemoveAt(b1.unacked, i) == RemoveAt(b.unacked, i);
    assert Redelivered(b1, i, Broker.Running(Broker.Received)) == Redelivered(b, i, Broker.Running(Broker.Received));
    DeathRequeues(s1, i);
    var s2 := s1.(broker := Requeued(b1, i));
    var s3 := s2.(claims := s.claims - {k}, expired := s.expired + {k});
    assert Enabled(s2, TtlExpiry(k)) && Next(s2, TtlExpiry(k)) == s3;
    DeliversAgain(s3, b1, i);
    hide Enabled, Next, Valid, Exec, System, Requeued, Redelivered;
    ls := Goes(s, [Save(i)], s1, Die(i), s2);
    ls := Goes(s, ls, s2, TtlExpiry(k), s3);
    ls := Goes(s, ls, s3, BrokerStep(Broker.Deliver(b.unacked[i].consumer)), s3.(broker := Redelivered(b1, i, Broker.Running(Broker.Received))));
  }

  lemma ClaimsAgain(s: State, j: nat, k: Key)
    requires At(s, j, Broker.Received) && KeyAt(s, j) == k && k !in s.claims
    ensures Enabled(s, Claim(j)) && Next(s, Claim(j)) == Advanced(s, j, Broker.Claimed).(claims := s.claims + {k})
  {
  }

  lemma SavesAgain(s: State, j: nat, doc: Doc)
    requires At(s, j, Broker.Claimed) && Doc(s.broker.unacked[j].msg.pattern, s.broker.unacked[j].msg.payload) == doc
    ensures Enabled(s, Save(j)) && Next(s, Save(j)).docs == s.docs + [doc]
  {
  }

  /** Such states are reached: here, from nothing, a committed and published
      event that ends up neither queued nor stored. */
  lemma EventLost() returns (ls: seq<Label>)
    ensures Valid(System(), Init, ls)
    ensures var s := Exec(System(), Init, ls);
      && 1 in s.relay.rows && s.relay.rows[1].published && RowKey(s.relay.rows[1]) == KEY
      && !Alive(s.broker, KEY) && !Stored(s, KEY)
  {
    ls := OneEventReceived();
    var s := Exec(System(), Init, ls);
    CopyKey(1, 0);
    assert RemoveAt(s.broker.unacked, 0) == [];
    var rest := OrphanSwallowsEvent(s, 0);
    Concat(System(), Init, ls, rest);
    ls := ls + rest;
    assert Strip(DATA) == DATA;
  }
}
