/** The farms-to-tracing pipeline: outbox, relay replicas, broker, and tracing
    consumers that claim a Redis key, save the event, and roll the claim back
    when the save fails. Consumers and replicas may die between any two steps,
    and a claim may expire at any time. */
module Tracing {
  import opened Prelude
  import opened Envelope
  import opened Runs
  import Relay
  import Broker

  const QUEUE := Broker.Config(3, true, true)
  const TARGETS := Relay.Single("tracing")

  type Consumer = Broker.Consumer

  // ---- Keys and documents --------------------------------------------------

  /** What the idempotency key is built from. */
  datatype Key = Key(eventType: string, entityId: Option<int>)

  /** The controller's three event patterns. */
  function EventType(pattern: string): Option<string> {
    if pattern == "crop.initialized" then Some("CROP_INITIALIZED")
    else if pattern == "activity.created" then Some("ACTIVITY_CREATED")
    else if pattern == "harvest.created" then Some("HARVEST_CREATED")
    else None
  }

  /** `data.payload?.id`. */
  function EntityId(data: Payload): Option<int> {
    if "payload" in data && data["payload"].JObj? && "id" in data["payload"].fields
       && data["payload"].fields["id"].JNum?
    then Some(data["payload"].fields["id"].num) else None
  }

  function KeyOf(pattern: string, data: Payload): Key {
    Key(match EventType(pattern) case Some(t) => t case None => "", EntityId(data))
  }

  function MsgKey(m: Broker.Msg): Key {
    KeyOf(m.pattern, m.payload)
  }

  function RowKey(row: Relay.Row): Key {
    KeyOf(row.pattern, Strip(row.payload))
  }

  datatype Doc = Doc(pattern: string, data: Payload) {
    function TheKey(): Key { KeyOf(pattern, data) }
  }

  // ---- The machine ---------------------------------------------------------

  /** `orphans` and `expired` are history: keys claimed by a consumer that died
      or could not roll back before saving, and keys that expired. */
  datatype State = State(
    relay: Relay.State,
    broker: Broker.State,
    claims: set<Key>,
    docs: seq<Doc>,
    orphans: set<Key>,
    expired: set<Key>)

  datatype Label =
    | Commit(id: Relay.Id, pattern: string, data: Payload, carrier: Carrier)
    | RelayStep(r: Relay.Label)
    | BrokerStep(b: Broker.Label)
    | Claim(i: nat)
    | ClaimError(i: nat)
    | Save(i: nat)
    | SaveError(i: nat)
    | Undo(i: nat)
    | UndoError(i: nat)
    | Die(i: nat)
    | TtlExpiry(key: Key)

  const Init := State(Relay.Init, Broker.Init, {}, [], {}, {})

  predicate At(s: State, i: nat, stage: Broker.Stage) {
    Broker.InPhase(s.broker, i, Broker.Running(stage))
  }

  function KeyAt(s: State, i: nat): Key
    requires i < |s.broker.unacked|
  {
    MsgKey(s.broker.unacked[i].msg)
  }

  /** Queue mechanics that are not part of the handler. */
  predicate Plumbing(b: Broker.Label) {
    b.Deliver? || b.Ack? || b.Reroute? || b.AckRerouted? || b.Expire?
  }

  ghost predicate Enabled(s: State, l: Label) {
    match l
    case Commit(id, pattern, data, carrier) =>
      && id !in s.relay.rows && EventType(pattern).Some? && TRACE_CARRIER_KEY !in data
      && (forall other :: other in s.relay.rows ==> RowKey(s.relay.rows[other]) != KeyOf(pattern, data))
    case RelayStep(r) => !r.Insert? && Relay.Enabled(TARGETS, s.relay, r)
    case BrokerStep(b) => Plumbing(b) && Broker.Enabled(s.broker, b)
    case Claim(i) => At(s, i, Broker.Received)
    case ClaimError(i) => At(s, i, Broker.Received)
    case Save(i) => At(s, i, Broker.Claimed)
    case SaveError(i) => At(s, i, Broker.Claimed)
    case Undo(i) => At(s, i, Broker.SaveFailed)
    case UndoError(i) => At(s, i, Broker.SaveFailed)
    case Die(i) => i < |s.broker.unacked|
    case TtlExpiry(key) => key in s.claims
  }

  function Finished(s: State, i: nat, ok: bool): State
    requires i < |s.broker.unacked|
  {
    s.(broker := Broker.WithPhase(s.broker, i, if ok then Broker.Succeeded else Broker.Failed))
  }

  function Advanced(s: State, i: nat, stage: Broker.Stage): State
    requires i < |s.broker.unacked|
  {
    s.(broker := Broker.WithPhase(s.broker, i, Broker.Running(stage)))
  }

  /** What the relay sends goes to the end of the tracing queue. */
  ghost function Relayed(s: State, r: Relay.Label): State
    requires Relay.Enabled(TARGETS, s.relay, r)
  {
    var s' := s.(relay := Relay.Next(TARGETS, s.relay, r));
    match Relay.Emitted(TARGETS, s.relay, r)
    case None => s'
    case Some(m) => s'.(broker := Broker.Next(QUEUE, s.broker, Broker.Publish(m.pattern, m.payload)))
  }

  ghost function Next(s: State, l: Label): State
    requires Enabled(s, l)
  {
    match l
    case Commit(id, pattern, data, carrier) =>
      s.(relay := Relay.Next(TARGETS, s.relay, Relay.Insert(id, pattern, Wrap(data, carrier))))
    case RelayStep(r) => Relayed(s, r)
    case BrokerStep(b) => s.(broker := Broker.Next(QUEUE, s.broker, b))
    case Claim(i) =>
      if KeyAt(s, i) in s.claims then Finished(s, i, true)
      else Advanced(s, i, Broker.Claimed).(claims := s.claims + {KeyAt(s, i)})
    case ClaimError(i) => Finished(s, i, false)
    case Save(i) =>
      var m := s.broker.unacked[i].msg;
      Finished(s, i, true).(docs := s.docs + [Doc(m.pattern, m.payload)])
    case SaveError(i) => Advanced(s, i, Broker.SaveFailed)
    case Undo(i) => Finished(s, i, false).(claims := s.claims - {KeyAt(s, i)})
    case UndoError(i) => Finished(s, i, false).(orphans := s.orphans + {KeyAt(s, i)})
    case Die(i) =>
      s.(broker := Broker.Next(QUEUE, s.broker, Broker.Die(i)),
         orphans := if Claimant(s.broker.unacked[i]) then s.orphans + {KeyAt(s, i)} else s.orphans)
    case TtlExpiry(key) => s.(claims := s.claims - {key}, expired := s.expired + {key})
  }

  /** A consumer that has claimed its key and not finished. */
  predicate Claimant(d: Broker.Delivery) {
    d.phase == Broker.Running(Broker.Claimed) || d.phase == Broker.Running(Broker.SaveFailed)
  }

  ghost function System(): Machine<State, Label> {
    Machine((s, l) => Enabled(s, l), (s, l) => if Enabled(s, l) then Next(s, l) else s)
  }

  // ---- Nothing is lost -----------------------------------------------------

  ghost predicate Holds(q: seq<Broker.Msg>, k: Key) {
    exists m :: m in q && MsgKey(m) == k
  }

  /** With a handler, or failed and about to be re-routed. */
  predicate Live(d: Broker.Delivery) {
    d.phase.Running? || d.phase.Failed?
  }

  ghost predicate Alive(b: Broker.State, k: Key) {
    || Holds(b.main, k) || Holds(b.retry, k) || Holds(b.dlq, k)
    || (exists d :: d in b.unacked && Live(d) && MsgKey(d.msg) == k)
  }

  ghost predicate Stored(s: State, k: Key) {
    exists d :: d in s.docs && d.TheKey() == k
  }

  ghost predicate Covered(s: State, k: Key) {
    Alive(s.broker, k) || Stored(s, k) || k in s.orphans
  }

  ghost predicate HasClaimant(s: State, k: Key) {
    exists d :: d in s.broker.unacked && Claimant(d) && MsgKey(d.msg) == k
  }

  /** A key in Redis has a consumer working on it, a document or an orphan. */
  ghost predicate ClaimsBacked(s: State) {
    forall k :: k in s.claims ==> HasClaimant(s, k) || Stored(s, k) || k in s.orphans
  }

  lemma AliveKept(b: Broker.State, l: Broker.Label, k: Key)
    requires Broker.Enabled(b, l) && Alive(b, k)
    requires Plumbing(l) || l.Publish? || l.Progress? || l.Die? || (l.Finish? && !l.ok)
    ensures Alive(Broker.Next(QUEUE, b, l), k)
  {
    var b' := Broker.Next(QUEUE, b, l);
    if m :| m in b.main && MsgKey(m) == k {
      if l.Deliver? {
        if m == b.main[0] {
          assert b'.unacked[|b.unacked|] in b'.unacked;
        } else {
          assert m in b.main[1..];
        }
      }
      assert Alive(b', k);
    } else if m :| m in b.retry && MsgKey(m) == k {
      if l.Expire? {
        assert m == b.retry[0] || m in b.retry[1..];
        assert b.retry[0] in b'.main;
      }
      assert Alive(b', k);
    } else if m :| m in b.dlq && MsgKey(m) == k {
      assert m in b'.dlq;
    } else {
      var d :| d in b.unacked && Live(d) && MsgKey(d.msg) == k;
      LiveKept(b, l, d);
    }
  }

  lemma LiveKept(b: Broker.State, l: Broker.Label, d: Broker.Delivery)
    requires Broker.Enabled(b, l) && d in b.unacked && Live(d)
    requires Plumbing(l) || l.Publish? || l.Progress? || l.Die? || (l.Finish? && !l.ok)
    ensures Alive(Broker.Next(QUEUE, b, l), MsgKey(d.msg))
  {
    var b' := Broker.Next(QUEUE, b, l);
    if l.Progress? || l.Finish? || l.Reroute? || l.Ack? || l.AckRerouted? || l.Die? {
      RemoveAtElements(b.unacked, l.i);
      if d == b.unacked[l.i] {
        if l.Die? {
          assert b'.main[0] in b'.main;
        } else if l.Reroute? {
          var m := d.msg;
          if Broker.Decide(QUEUE, m.retries) == Broker.ToRetry {
            assert b'.retry[|b.retry|] in b'.retry;
          } else {
            assert b'.dlq[|b.dlq|] in b'.dlq;
          }
        } else {
          assert b'.unacked[l.i] in b'.unacked;
        }
      } else {
        var j :| 0 <= j < |b.unacked| && b.unacked[j] == d;
        assert j != l.i;
        if !(l.Ack? || l.AckRerouted? || l.Die?) { assert b'.unacked[j] == d; }
        assert d in b'.unacked;
      }
    } else {
      assert d in b'.unacked;
    }
  }

  /** Once an event is covered it stays covered, whatever happens. */
  lemma CoveredStep(s: State, l: Label, k: Key)
    requires Enabled(s, l) && Covered(s, k) && ClaimsBacked(s)
    ensures Covered(Next(s, l), k)
  {
    var s' := Next(s, l);
    if k in s.orphans {
    } else if Stored(s, k) {
      var d :| d in s.docs && d.TheKey() == k;
      assert d in s'.docs;
    } else {
      match l
      case Commit(_, _, _, _) =>
      case RelayStep(r) =>
        var e := Relay.Emitted(TARGETS, s.relay, r);
        if e.Some? { AliveKept(s.broker, Broker.Publish(e.value.pattern, e.value.payload), k); }
      case BrokerStep(b) => AliveKept(s.broker, b, k);
      case Claim(i) => ClaimCovers(s, i, k);
      case ClaimError(i) => AliveKept(s.broker, Broker.Finish(i, false), k);
      case Save(i) => SaveCovers(s, i, k);
      case SaveError(i) => AliveKept(s.broker, Broker.Progress(i, Broker.SaveFailed), k);
      case Undo(i) => AliveKept(s.broker, Broker.Finish(i, false), k);
      case UndoError(i) => AliveKept(s.broker, Broker.Finish(i, false), k);
      case Die(i) => AliveKept(s.broker, Broker.Die(i), k);
      case TtlExpiry(_) =>
    }
  }

  /** A delivery that skips because its key is claimed leaves the event to
      whoever holds the claim. */
  lemma ClaimCovers(s: State, i: nat, k: Key)
    requires Enabled(s, Claim(i)) && Alive(s.broker, k) && ClaimsBacked(s)
    ensures Covered(Next(s, Claim(i)), k)
  {
    var s' := Next(s, Claim(i));
    if KeyAt(s, i) !in s.claims {
      AliveKept(s.broker, Broker.Progress(i, Broker.Claimed), k);
    } else if KeyAt(s, i) == k {
      if HasClaimant(s, k) {
        var d :| d in s.broker.unacked && Claimant(d) && MsgKey(d.msg) == k;
        var j :| 0 <= j < |s.broker.unacked| && s.broker.unacked[j] == d;
        assert s'.broker.unacked[j] == d;
        assert d in s'.broker.unacked && Live(d);
      }
    } else {
      OthersStayAlive(s.broker, i, k);
    }
  }

  lemma SaveCovers(s: State, i: nat, k: Key)
    requires Enabled(s, Save(i)) && Alive(s.broker, k)
    ensures Covered(Next(s, Save(i)), k)
  {
    var s' := Next(s, Save(i));
    if KeyAt(s, i) == k {
      assert s'.docs[|s.docs|] in s'.docs;
      assert Stored(s', k);
    } else {
      OthersStayAlive(s.broker, i, k);
    }
  }

  lemma OthersStayAlive(b: Broker.State, i: nat, k: Key)
    requires i < |b.unacked| && MsgKey(b.unacked[i].msg) != k && Alive(b, k)
    ensures Alive(Broker.WithPhase(b, i, Broker.Succeeded), k)
  {
    var b' := Broker.WithPhase(b, i, Broker.Succeeded);
    if d :| d in b.unacked && Live(d) && MsgKey(d.msg) == k {
      var j :| 0 <= j < |b.unacked| && b.unacked[j] == d;
      assert b'.unacked[j] == d;
      assert d in b'.unacked;
    }
  }

  // ---- Claims are backed ---------------------------------------------------

  /** The delivery a step works on, if it works on one. */
  ghost function Touched(l: Label): Option<nat> {
    match l
    case BrokerStep(b) => if b.Ack? || b.Reroute? || b.AckRerouted? then Some(b.i) else None
    case Claim(i) => Some(i)
    case ClaimError(i) => Some(i)
    case Save(i) => Some(i)
    case SaveError(i) => Some(i)
    case Undo(i) => Some(i)
    case UndoError(i) => Some(i)
    case Die(i) => Some(i)
    case _ => None
  }

  /** A delivery nobody touches stays as it is. */
  lemma UntouchedStays(s: State, l: Label, d: Broker.Delivery)
    requires Enabled(s, l) && d in s.broker.unacked
    requires Touched(l).Some? ==> d != s.broker.unacked[Touched(l).value]
    ensures d in Next(s, l).broker.unacked
  {
    var j :| 0 <= j < |s.broker.unacked| && s.broker.unacked[j] == d;
    var u' := Next(s, l).broker.unacked;
    if Touched(l).Some? {
      var i := Touched(l).value;
      RemoveAtElements(s.broker.unacked, i);
      if |u'| == |s.broker.unacked| { assert u'[j] == d; }
    } else {
      assert u'[j] == d;
    }
  }

  lemma ClaimsBackedStep(s: State, l: Label)
    requires ClaimsBacked(s) && Enabled(s, l)
    ensures ClaimsBacked(Next(s, l))
  {
    hide HasClaimant, Stored;
    var s' := Next(s, l);
    forall k | k in s'.claims ensures HasClaimant(s', k) || Stored(s', k) || k in s'.orphans {
      if k !in s.claims {
        NewClaim(s, l, k);
      } else if Stored(s, k) {
        StoredStep(s, l, k);
      } else if k !in s.orphans {
        ClaimantStep(s, l, k);
      }
    }
  }

  lemma NewClaim(s: State, l: Label, k: Key)
    requires Enabled(s, l) && k !in s.claims && k in Next(s, l).claims
    ensures HasClaimant(Next(s, l), k)
  {
    var s' := Next(s, l);
    assert l.Claim? && Claimant(s'.broker.unacked[l.i]);
    assert s'.broker.unacked[l.i] in s'.broker.unacked;
  }

  lemma StoredStep(s: State, l: Label, k: Key)
    requires Enabled(s, l) && Stored(s, k)
    ensures Stored(Next(s, l), k)
  {
    var d :| d in s.docs && d.TheKey() == k;
    assert d in Next(s, l).docs;
  }

  /** A claimant saves, is orphaned, gives its claim up, or goes on. */
  lemma ClaimantStep(s: State, l: Label, k: Key)
    requires Enabled(s, l) && HasClaimant(s, k)
    ensures var s' := Next(s, l);
      HasClaimant(s', k) || Stored(s', k) || k in s'.orphans || k !in s'.claims
  {
    var d :| d in s.broker.unacked && Claimant(d) && MsgKey(d.msg) == k;
    if Touched(l).Some? && d == s.broker.unacked[Touched(l).value] {
      TouchedClaimant(s, l);
    } else {
      UntouchedStays(s, l, d);
      hide Next, Enabled;
    }
  }

  lemma TouchedClaimant(s: State, l: Label)
    requires Enabled(s, l) && Touched(l).Some? && Claimant(s.broker.unacked[Touched(l).value])
    ensures var s', k := Next(s, l), KeyAt(s, Touched(l).value);
      HasClaimant(s', k) || Stored(s', k) || k in s'.orphans || k !in s'.claims
  {
    var s' := Next(s, l);
    if l.Save? { assert s'.docs[|s.docs|] in s'.docs; }
    if l.SaveError? { assert s'.broker.unacked[l.i] in s'.broker.unacked; }
  }

  // ---- No loss -------------------------------------------------------------

  /** What was sent of a row is covered from then on. */
  ghost predicate SentCovered(s: State) {
    forall id :: Relay.SentOnce(s.relay, id) ==> Covered(s, RowKey(s.relay.rows[id]))
  }

  ghost predicate LossInv(s: State) {
    && Relay.LocksInv(TARGETS, s.relay)
    && (forall id :: id in s.relay.rows ==> Relay.ClientsFor(TARGETS, s.relay.rows[id].pattern) != [])
    && ClaimsBacked(s)
    && SentCovered(s)
  }

  lemma RelaySendCovers(s: State, r: Relay.Label)
    requires Relay.LocksInv(TARGETS, s.relay) && r.Send? && Relay.Enabled(TARGETS, s.relay, r)
    ensures Covered(Relayed(s, r), RowKey(s.relay.rows[Relay.Current(s.relay, r.r)]))
  {
    var s' := Relayed(s, r);
    assert s'.broker.main[|s.broker.main|] in s'.broker.main;
  }

  lemma SentCoveredStep(s: State, l: Label)
    requires LossInv(s) && Enabled(s, l)
    ensures SentCovered(Next(s, l))
  {
    var s' := Next(s, l);
    forall id | Relay.SentOnce(s'.relay, id) ensures Covered(s', RowKey(s'.relay.rows[id])) {
      if l.Commit? || l.RelayStep? {
        var r := if l.Commit? then Relay.Insert(l.id, l.pattern, Wrap(l.data, l.carrier)) else l.r;
        Relay.SentOnceStep(TARGETS, s.relay, r, id);
        if id in s.relay.rows { Relay.RowsOnlyProgress(TARGETS, s.relay, r, id); }
        if !Relay.SentOnce(s.relay, id) {
          RelaySendCovers(s, r);
        } else {
          CoveredStep(s, l, RowKey(s.relay.rows[id]));
        }
      } else {
        CoveredStep(s, l, RowKey(s.relay.rows[id]));
      }
    }
  }

  lemma LossStep(s: State, l: Label)
    requires LossInv(s) && Enabled(s, l)
    ensures LossInv(Next(s, l))
  {
    ClaimsBackedStep(s, l);
    SentCoveredStep(s, l);
    match l
    case Commit(id, pattern, data, carrier) =>
      Relay.LocksStep(TARGETS, s.relay, Relay.Insert(id, pattern, Wrap(data, carrier)));
    case RelayStep(r) => Relay.LocksStep(TARGETS, s.relay, r);
    case _ =>
  }

  lemma PublishedCovered(s: State)
    requires LossInv(s)
    ensures forall id :: id in s.relay.rows && s.relay.rows[id].published ==> Covered(s, RowKey(s.relay.rows[id]))
  {
    forall id | id in s.relay.rows && s.relay.rows[id].published ensures Covered(s, RowKey(s.relay.rows[id])) {
      assert Relay.SentOnce(s.relay, id);
    }
  }

  /** No loss, over every run: rolled-back drains, failed publishes and saves,
      dying consumers and replicas, duplicate deliveries, expiring claims. Each
      committed event is still pending in the outbox, or on its way (queued,
      with a handler, in backoff, dead-lettered), or stored in the history, or
      its key was orphaned by a consumer that stopped between claim and save. */
  lemma NoLoss(ls: seq<Label>)
    requires Valid(System(), Init, ls)
    ensures var s := Exec(System(), Init, ls);
      forall id :: id in s.relay.rows ==>
        !s.relay.rows[id].published || Covered(s, RowKey(s.relay.rows[id]))
  {
    forall s, l | LossInv(s) && Enabled(s, l) ensures LossInv(Next(s, l)) { LossStep(s, l); }
    assert LossInv(Init);
    Invariant(System(), s => LossInv(s), _ => true, Init, ls);
    var s := Exec(System(), Init, ls);
    PublishedCovered(s);
  }

  /** The machine in which no consumer dies between claim and save and no
      rollback fails. Consumers may still die before claiming, after saving, and
      between republishing an event and acking it. */
  ghost predicate Careful(s: State, l: Label) {
    Enabled(s, l) && !l.UndoError? && (l.Die? ==> !Claimant(s.broker.unacked[l.i]))
  }

  ghost function CarefulSystem(): Machine<State, Label> {
    Machine((s, l) => Careful(s, l), (s, l) => if Careful(s, l) then Next(s, l) else s)
  }

  /** Outbox drained, queues empty, nothing with a consumer. */
  ghost predicate AtRest(s: State) {
    && (forall id :: id in s.relay.rows ==> s.relay.rows[id].published)
    && s.broker.main == [] && s.broker.unacked == [] && s.broker.retry == []
  }

  /** Only a death between claim and save, or a failed rollback, orphans a key:
      without them no run has an orphan, and once it comes to rest every
      committed event is in the history or parked in the dead-letter queue. */
  lemma EverythingRecorded(ls: seq<Label>)
    requires Valid(CarefulSystem(), Init, ls)
    ensures var s := Exec(CarefulSystem(), Init, ls);
      && s.orphans == {}
      && (AtRest(s) ==> forall id :: id in s.relay.rows ==>
            Stored(s, RowKey(s.relay.rows[id])) || Holds(s.broker.dlq, RowKey(s.relay.rows[id])))
  {
    var inv := (s: State) => LossInv(s) && s.orphans == {};
    forall s: State, l: Label | inv(s) && Careful(s, l) ensures inv(Next(s, l)) { LossStep(s, l); }
    assert inv(Init);
    Invariant(CarefulSystem(), inv, _ => true, Init, ls);
    var s := Exec(CarefulSystem(), Init, ls);
    PublishedCovered(s);
  }

  // ---- Retries and the dead-letter queue -------------------------------------------

  /** The queue's own step behind a pipeline step, if there is one. */
  ghost function QueueStep(s: State, l: Label): Option<Broker.Label>
    requires Enabled(s, l)
  {
    match l
    case Commit(_, _, _, _) => None
    case RelayStep(r) =>
      (match Relay.Emitted(TARGETS, s.relay, r) case Some(m) => Some(Broker.Publish(m.pattern, m.payload)) case None => None)
    case BrokerStep(b) => Some(b)
    case Claim(i) => Some(if KeyAt(s, i) in s.claims then Broker.Finish(i, true) else Broker.Progress(i, Broker.Claimed))
    case ClaimError(i) => Some(Broker.Finish(i, false))
    case Save(i) => Some(Broker.Finish(i, true))
    case SaveError(i) => Some(Broker.Progress(i, Broker.SaveFailed))
    case Undo(i) => Some(Broker.Finish(i, false))
    case UndoError(i) => Some(Broker.Finish(i, false))
    case Die(i) => Some(Broker.Die(i))
    case TtlExpiry(_) => None
  }

  /** The tracing queue of the pipeline is the broker machine's queue. */
  lemma QueueSteps(s: State, l: Label)
    requires Enabled(s, l)
    ensures match QueueStep(s, l)
            case Some(b) => Broker.Enabled(s.broker, b) && Next(s, l).broker == Broker.Next(QUEUE, s.broker, b)
            case None => Next(s, l).broker == s.broker
  {
    hide Relay.Enabled, Relay.Next, Relay.Emitted, MsgKey;
  }

  /** Over every run: tracing drops no event; one is dead-lettered only after
      three retries; and none is handled more than four times, deaths apart. */
  lemma ThreeRetriesThenParked(ls: seq<Label>)
    requires Valid(System(), Init, ls)
    ensures var b := Exec(System(), Init, ls).broker;
      && b.dropped == []
      && (forall m :: m in b.dlq ==> m.retries == 3)
      && (forall m :: Broker.InSystem(b, m) ==> m.handled <= 4 + m.crashes)
  {
    forall s: State, l: Label | Broker.HandledInv(QUEUE, s.broker) && Enabled(s, l) ensures Broker.HandledInv(QUEUE, Next(s, l).broker) {
      QueueSteps(s, l);
      if QueueStep(s, l).Some? { Broker.HandledStep(QUEUE, s.broker, QueueStep(s, l).value); }
    }
    assert Broker.HandledInv(QUEUE, Init.broker);
    Invariant(System(), (s: State) => Broker.HandledInv(QUEUE, s.broker), _ => true, Init, ls);
  }
}
