/** Idempotent recording: at most one document per event type and entity. */
module TracingOnce {
  import opened Prelude
  import opened Envelope
  import opened Runs
  import opened Tracing
  import Relay
  import Broker

  // ---- At most one document ------------------------------------------------

  /** The key can never be delivered again: its row is published and no copy of
      its event is queued, in backoff or with a consumer. */
  ghost predicate Retired(s: State, k: Key) {
    && (forall id :: id in s.relay.rows && RowKey(s.relay.rows[id]) == k ==> s.relay.rows[id].published)
    && !Holds(s.broker.main, k) && !Holds(s.broker.retry, k)
    && (forall d :: d in s.broker.unacked ==> MsgKey(d.msg) != k)
  }

  /** The machine in which the claim on `k` outlives the redeliveries of its
      event. Claims on other keys may expire at any time. */
  ghost predicate Patient(s: State, l: Label, k: Key) {
    Enabled(s, l) && (l == TtlExpiry(k) ==> Retired(s, k))
  }

  ghost function PatientSystem(k: Key): Machine<State, Label> {
    Machine((s, l) => Patient(s, l, k), (s, l) => if Patient(s, l, k) then Next(s, l) else s)
  }

  ghost predicate FromRow(rows: map<Relay.Id, Relay.Row>, pattern: string, data: Payload) {
    exists id :: id in rows && rows[id].pattern == pattern && Strip(rows[id].payload) == data
  }

  ghost predicate KnownKey(s: State, k: Key) {
    exists id :: id in s.relay.rows && RowKey(s.relay.rows[id]) == k
  }

  ghost predicate InBroker(b: Broker.State, m: Broker.Msg) {
    m in b.main || m in b.retry || (exists d :: d in b.unacked && d.msg == m)
  }

  /** Every message and document carries the payload of a committed row. */
  ghost predicate Provenance(s: State) {
    && (forall m :: InBroker(s.broker, m) ==> FromRow(s.relay.rows, m.pattern, m.payload))
    && (forall d :: d in s.docs ==> FromRow(s.relay.rows, d.pattern, d.data))
    && (forall k :: k in s.claims || k in s.orphans || k in s.expired ==> KnownKey(s, k))
  }

  /** Some consumer, document or orphan accounts for the key. */
  ghost predicate Taken(s: State, k: Key) {
    HasClaimant(s, k) || Stored(s, k) || k in s.orphans
  }

  ghost predicate Claiming(s: State, d: Broker.Delivery) {
    d in s.broker.unacked && Claimant(d)
  }

  /** At most one of them does, and only one of its kind. */
  ghost predicate Exclusive(s: State, k: Key) {
    && (forall d, e :: (Claiming(s, d) && Claiming(s, e) && MsgKey(d.msg) == k && MsgKey(e.msg) == k) ==> d.consumer == e.consumer)
    && (HasClaimant(s, k) ==> !Stored(s, k) && k !in s.orphans)
    && (k in s.orphans ==> !Stored(s, k))
    && OneDocument(s, k)
  }

  ghost predicate OneDocument(s: State, k: Key) {
    forall i, j :: (0 <= i < |s.docs| && 0 <= j < |s.docs| && s.docs[i].TheKey() == k && s.docs[j].TheKey() == k) ==> i == j
  }

  /** Whatever accounts for the key keeps it in Redis, or the claim expired
      after the last redelivery. */
  ghost predicate KeyInv(s: State, k: Key) {
    Taken(s, k) ==> k in s.claims || (k in s.expired && Retired(s, k))
  }

  /** What holds of every run, whichever claims expire. */
  ghost predicate BaseInv(s: State) {
    && Relay.LocksInv(TARGETS, s.relay) && Broker.OneEach(s.broker)
    && Provenance(s) && ClaimsBacked(s)
  }

  ghost predicate OnceInv(s: State, k: Key) {
    BaseInv(s) && Exclusive(s, k) && KeyInv(s, k)
  }

  lemma ComponentsStep(s: State, l: Label)
    requires Enabled(s, l) && Relay.LocksInv(TARGETS, s.relay) && Broker.OneEach(s.broker)
    ensures Relay.LocksInv(TARGETS, Next(s, l).relay) && Broker.OneEach(Next(s, l).broker)
  {
    if l.Commit? {
      Relay.LocksStep(TARGETS, s.relay, Relay.Insert(l.id, l.pattern, Wrap(l.data, l.carrier)));
    } else if l.RelayStep? {
      Relay.LocksStep(TARGETS, s.relay, l.r);
    } else if l.BrokerStep? {
      Broker.OneEachStep(QUEUE, s.broker, l.b);
    } else if l.Die? {
      Broker.OneEachStep(QUEUE, s.broker, Broker.Die(l.i));
    }
  }

  lemma RowsStep(s: State, l: Label, pattern: string, data: Payload)
    requires Enabled(s, l) && FromRow(s.relay.rows, pattern, data)
    ensures FromRow(Next(s, l).relay.rows, pattern, data)
  {
    var id :| id in s.relay.rows && s.relay.rows[id].pattern == pattern && Strip(s.relay.rows[id].payload) == data;
    if l.Commit? {
      assert id in Next(s, l).relay.rows;
    } else if l.RelayStep? {
      Relay.RowsOnlyProgress(TARGETS, s.relay, l.r, id);
    }
  }

  lemma KnownStep(s: State, l: Label, k: Key)
    requires Enabled(s, l) && KnownKey(s, k)
    ensures KnownKey(Next(s, l), k)
  {
    var id :| id in s.relay.rows && RowKey(s.relay.rows[id]) == k;
    if l.Commit? {
      assert id in Next(s, l).relay.rows;
    } else if l.RelayStep? {
      Relay.RowsOnlyProgress(TARGETS, s.relay, l.r, id);
    }
  }

  /** The relay has just sent this. */
  ghost predicate JustSent(s: State, l: Label, pattern: string, data: Payload)
    requires Enabled(s, l)
  {
    && l.RelayStep? && Relay.Emitted(TARGETS, s.relay, l.r).Some?
    && Relay.Emitted(TARGETS, s.relay, l.r).value.pattern == pattern
    && Relay.Emitted(TARGETS, s.relay, l.r).value.payload == data
  }

  /** A message in the queues after a step was there before it, up to its
      counters, or is the one the relay has just sent. */
  lemma MsgOrigin(s: State, l: Label, m: Broker.Msg)
    requires Enabled(s, l) && InBroker(Next(s, l).broker, m)
    ensures (exists m0 :: InBroker(s.broker, m0) && m0.pattern == m.pattern && m0.payload == m.payload)
         || JustSent(s, l, m.pattern, m.payload)
  {
    if Touched(l).Some? {
      TouchedOrigin(s, l, m);
    } else if l.BrokerStep? {
      QueueOrigin(s, l, m);
    } else if l.RelayStep? {
      RelayOrigin(s, l, m);
    }
  }

  lemma TouchedOrigin(s: State, l: Label, m: Broker.Msg)
    requires Enabled(s, l) && Touched(l).Some? && InBroker(Next(s, l).broker, m)
    ensures exists m0 :: InBroker(s.broker, m0) && m0.pattern == m.pattern && m0.payload == m.payload
  {
    var b, b', i := s.broker, Next(s, l).broker, Touched(l).value;
    assert b.unacked[i] in b.unacked && InBroker(b, b.unacked[i].msg);
    RemoveAtElements(b.unacked, i);
    forall d | d in b'.unacked ensures InBroker(b, d.msg) {
      assert d in b.unacked || d.msg == b.unacked[i].msg;
    }
  }

  lemma QueueOrigin(s: State, l: Label, m: Broker.Msg)
    requires Enabled(s, l) && Touched(l).None? && l.BrokerStep? && InBroker(Next(s, l).broker, m)
    ensures exists m0 :: InBroker(s.broker, m0) && m0.pattern == m.pattern && m0.payload == m.payload
  {
    var b := s.broker;
    assert l.b.Deliver? ==> InBroker(b, b.main[0]);
    assert l.b.Expire? ==> InBroker(b, b.retry[0]);
  }

  lemma RelayOrigin(s: State, l: Label, m: Broker.Msg)
    requires Enabled(s, l) && l.RelayStep? && InBroker(Next(s, l).broker, m)
    ensures InBroker(s.broker, m) || JustSent(s, l, m.pattern, m.payload)
  {
    hide Relay.Enabled, Relay.Next, Relay.Emitted;
  }

  lemma ProvenanceStep(s: State, l: Label)
    requires Provenance(s) && Enabled(s, l)
    ensures Provenance(Next(s, l))
  {
    var s' := Next(s, l);
    forall m | InBroker(s'.broker, m) ensures FromRow(s'.relay.rows, m.pattern, m.payload) { MsgKnown(s, l, m); }
    forall d | d in s'.docs ensures FromRow(s'.relay.rows, d.pattern, d.data) { DocKnown(s, l, d); }
    forall k | k in s'.claims || k in s'.orphans || k in s'.expired ensures KnownKey(s', k) { KeyKnown(s, l, k); }
  }

  lemma MsgKnown(s: State, l: Label, m: Broker.Msg)
    requires Provenance(s) && Enabled(s, l) && InBroker(Next(s, l).broker, m)
    ensures FromRow(Next(s, l).relay.rows, m.pattern, m.payload)
  {
    MsgOrigin(s, l, m);
    if JustSent(s, l, m.pattern, m.payload) { assert Relay.Current(s.relay, l.r.r) in s.relay.rows; }
    RowsStep(s, l, m.pattern, m.payload);
  }

  lemma DocKnown(s: State, l: Label, d: Doc)
    requires Provenance(s) && Enabled(s, l) && d in Next(s, l).docs
    ensures FromRow(Next(s, l).relay.rows, d.pattern, d.data)
  {
    if d !in s.docs {
      assert s.broker.unacked[l.i] in s.broker.unacked && InBroker(s.broker, s.broker.unacked[l.i].msg);
    }
    RowsStep(s, l, d.pattern, d.data);
  }

  lemma KeyKnown(s: State, l: Label, k: Key)
    requires Provenance(s) && Enabled(s, l)
    requires k in Next(s, l).claims || k in Next(s, l).orphans || k in Next(s, l).expired
    ensures KnownKey(Next(s, l), k)
  {
    if !(k in s.claims || k in s.orphans || k in s.expired) {
      var m := s.broker.unacked[l.i].msg;
      assert s.broker.unacked[l.i] in s.broker.unacked && InBroker(s.broker, m) && MsgKey(m) == k;
    }
    KnownStep(s, l, k);
  }

  /** Retirement is final. */
  lemma RetiredStep(s: State, l: Label, k: Key)
    requires Relay.LocksInv(TARGETS, s.relay) && Enabled(s, l) && Retired(s, k) && KnownKey(s, k)
    ensures Retired(Next(s, l), k)
  {
    hide Next, Enabled;
    var s' := Next(s, l);
    RetiredRows(s, l, k);
    forall m | InBroker(s'.broker, m) ensures MsgKey(m) != k {
      MsgOrigin(s, l, m);
      if JustSent(s, l, m.pattern, m.payload) { SentPending(s, l, m, k); }
    }
    assert forall d :: d in s'.broker.unacked ==> InBroker(s'.broker, d.msg);
  }

  lemma RetiredRows(s: State, l: Label, k: Key)
    requires Enabled(s, l) && Retired(s, k) && KnownKey(s, k)
    ensures var rows := Next(s, l).relay.rows;
      forall id :: id in rows && RowKey(rows[id]) == k ==> rows[id].published
  {
    var s' := Next(s, l);
    forall id | id in s'.relay.rows && RowKey(s'.relay.rows[id]) == k ensures s'.relay.rows[id].published {
      if id in s.relay.rows {
        if l.RelayStep? { Relay.RowsOnlyProgress(TARGETS, s.relay, l.r, id); }
      } else {
        NewRowNewKey(s, l, id);
      }
    }
  }

  lemma NewRowNewKey(s: State, l: Label, id: Relay.Id)
    requires Enabled(s, l) && id in Next(s, l).relay.rows && id !in s.relay.rows
    ensures !KnownKey(s, RowKey(Next(s, l).relay.rows[id]))
  {
    assert l.Commit?;
    RoundTripIffKeyUnused(l.data, l.carrier);
    hide Wrap, Strip;
  }

  /** Only pending rows are sent, and no row of a retired key is pending. */
  lemma SentPending(s: State, l: Label, m: Broker.Msg, k: Key)
    requires Relay.LocksInv(TARGETS, s.relay) && Enabled(s, l) && Retired(s, k)
    requires JustSent(s, l, m.pattern, m.payload)
    ensures MsgKey(m) != k
  {
    Relay.OnlyHolder(TARGETS, s.relay, l.r.r);
    var id := Relay.Current(s.relay, l.r.r);
    assert MsgKey(m) == RowKey(s.relay.rows[id]);
  }

  /** This step takes the claim on `k`. */
  ghost predicate TakesClaim(s: State, l: Label, k: Key)
    requires Enabled(s, l)
  {
    l.Claim? && KeyAt(s, l.i) == k && k !in s.claims
  }

  /** This step ends the claimant of `k`. */
  ghost predicate EndsClaimant(s: State, l: Label, k: Key)
    requires Enabled(s, l)
  {
    (l.Save? || l.Undo? || l.UndoError? || (l.Die? && Claimant(s.broker.unacked[l.i]))) && KeyAt(s, l.i) == k
  }

  lemma ClaimerOrigin(s: State, l: Label, d: Broker.Delivery)
    requires Enabled(s, l) && Claiming(Next(s, l), d)
    ensures (TakesClaim(s, l, MsgKey(d.msg)) && d == Next(s, l).broker.unacked[l.i])
         || (exists d0 :: Claiming(s, d0) && d0.consumer == d.consumer && d0.msg == d.msg)
  {
    var b, b' := s.broker, Next(s, l).broker;
    if Touched(l).Some? {
      var i := Touched(l).value;
      assert b.unacked[i] in b.unacked;
      RemoveAtElements(b.unacked, i);
      assert d in b.unacked || (d.consumer == b.unacked[i].consumer && d.msg == b.unacked[i].msg);
    } else {
      assert Claiming(s, d);
    }
  }

  /** Nobody accounts for a key that is about to be claimed. */
  lemma FreeKey(s: State, l: Label, k: Key)
    requires KeyInv(s, k) && Enabled(s, l) && TakesClaim(s, l, k)
    ensures !Taken(s, k)
  {
    assert s.broker.unacked[l.i] in s.broker.unacked;
  }

  /** Once its claimant is gone the key has no claimant. */
  lemma Departed(s: State, l: Label, k: Key)
    requires OnceInv(s, k) && Enabled(s, l) && EndsClaimant(s, l, k)
    ensures !HasClaimant(Next(s, l), k)
    ensures HasClaimant(s, k)
  {
    var me := s.broker.unacked[l.i];
    assert me in s.broker.unacked && Claiming(s, me);
    forall d | Claiming(Next(s, l), d) ensures MsgKey(d.msg) != k {
      ClaimerOrigin(s, l, d);
      if l.Die? { DeadIsGone(s, l.i); } else { OneDelivery(s, l); }
    }
  }

  lemma DeadIsGone(s: State, i: nat)
    requires Broker.OneEach(s.broker) && Enabled(s, Die(i))
    ensures forall d :: d in Next(s, Die(i)).broker.unacked ==> d.consumer != s.broker.unacked[i].consumer
  {
    var u, u' := s.broker.unacked, Next(s, Die(i)).broker.unacked;
    forall j | 0 <= j < |u'| ensures u'[j].consumer != u[i].consumer {
      assert u'[j] == u[if j < i then j else j + 1];
    }
  }

  /** A consumer has one delivery, and this step finished it. */
  lemma OneDelivery(s: State, l: Label)
    requires Broker.OneEach(s.broker) && Enabled(s, l) && (l.Save? || l.Undo? || l.UndoError?)
    ensures forall d :: d in Next(s, l).broker.unacked && d.consumer == s.broker.unacked[l.i].consumer ==> !Claimant(d)
  {
    var u, u' := s.broker.unacked, Next(s, l).broker.unacked;
    forall j | 0 <= j < |u'| && u'[j].consumer == u[l.i].consumer ensures j == l.i {
      assert u'[j].consumer == u[j].consumer;
    }
  }

  lemma TakenOrigin(s: State, l: Label, k: Key)
    requires OnceInv(s, k) && Enabled(s, l) && Taken(Next(s, l), k)
    ensures Taken(s, k) || TakesClaim(s, l, k)
  {
    if HasClaimant(Next(s, l), k) {
      ClaimantOrigin(s, l, k);
    } else if Stored(Next(s, l), k) {
      StoredOrigin(s, l, k);
      if EndsClaimant(s, l, k) { Departed(s, l, k); }
    } else if k !in s.orphans {
      Departed(s, l, k);
    }
    hide Next, Enabled, OnceInv;
  }

  lemma ClaimantOrigin(s: State, l: Label, k: Key)
    requires Enabled(s, l) && HasClaimant(Next(s, l), k)
    ensures HasClaimant(s, k) || TakesClaim(s, l, k)
  {
    hide MsgKey;
    var d :| d in Next(s, l).broker.unacked && Claimant(d) && MsgKey(d.msg) == k;
    assert Claiming(Next(s, l), d);
    ClaimerOrigin(s, l, d);
    hide Next, Enabled;
  }

  lemma KeyInvStep(s: State, l: Label, k: Key)
    requires OnceInv(s, k) && Patient(s, l, k)
    ensures KeyInv(Next(s, l), k)
  {
    var s' := Next(s, l);
    if Taken(s', k) {
      TakenOrigin(s, l, k);
      if TakesClaim(s, l, k) {
        assert k in s'.claims;
      } else if k in s.claims {
        if k !in s'.claims {
          ClaimLeaves(s, l, k);
          if l.Undo? { UndoFrees(s, l, k); }
        }
      } else {
        RetiredStep(s, l, k);
        ExpiredStays(s, l, k);
      }
    }
  }

  /** A claim goes only by expiring or by its claimant's rollback. */
  lemma ClaimLeaves(s: State, l: Label, k: Key)
    requires Patient(s, l, k) && k in s.claims && k !in Next(s, l).claims
    ensures (l.Undo? && KeyAt(s, l.i) == k) || (l == TtlExpiry(k) && Retired(s, k) && k in Next(s, l).expired)
  {
  }

  lemma ExpiredStays(s: State, l: Label, k: Key)
    requires Enabled(s, l) && k in s.expired
    ensures k in Next(s, l).expired
  {
  }

  /** After a rollback the event is as if it had not been touched. */
  lemma UndoFrees(s: State, l: Label, k: Key)
    requires OnceInv(s, k) && Enabled(s, l) && l.Undo? && KeyAt(s, l.i) == k
    ensures !Taken(Next(s, l), k) && k !in Next(s, l).claims
  {
    Departed(s, l, k);
  }

  lemma ExclusiveStep(s: State, l: Label, k: Key)
    requires OnceInv(s, k) && Enabled(s, l)
    ensures Exclusive(Next(s, l), k)
  {
    var s' := Next(s, l);
    forall d, e | Claiming(s', d) && Claiming(s', e) && MsgKey(d.msg) == k && MsgKey(e.msg) == k ensures d.consumer == e.consumer {
      ClaimerOrigin(s, l, d);
      ClaimerOrigin(s, l, e);
      if TakesClaim(s, l, k) { FreeKey(s, l, k); }
    }
    if HasClaimant(s', k) { ClaimantAlone(s, l, k); }
    if k in s'.orphans { OrphanNotStored(s, l, k); }
    NewDocNew(s, l, k);
  }

  lemma StoredOrigin(s: State, l: Label, k: Key)
    requires Enabled(s, l) && Stored(Next(s, l), k)
    ensures Stored(s, k) || (l.Save? && EndsClaimant(s, l, k))
  {
    var d :| d in Next(s, l).docs && d.TheKey() == k;
    assert d in s.docs || (l.Save? && d.TheKey() == KeyAt(s, l.i));
  }

  lemma ClaimantAlone(s: State, l: Label, k: Key)
    requires OnceInv(s, k) && Enabled(s, l) && HasClaimant(Next(s, l), k)
    ensures !Stored(Next(s, l), k) && k !in Next(s, l).orphans
  {
    var s' := Next(s, l);
    assert !EndsClaimant(s, l, k) by {
      if EndsClaimant(s, l, k) { Departed(s, l, k); }
    }
    assert !Stored(s, k) && k !in s.orphans by {
      var d :| d in s'.broker.unacked && Claimant(d) && MsgKey(d.msg) == k;
      assert Claiming(s', d);
      ClaimerOrigin(s, l, d);
      if TakesClaim(s, l, k) { FreeKey(s, l, k); }
    }
    if Stored(s', k) { StoredOrigin(s, l, k); }
  }

  lemma OrphanNotStored(s: State, l: Label, k: Key)
    requires OnceInv(s, k) && Enabled(s, l) && k in Next(s, l).orphans
    ensures !Stored(Next(s, l), k)
  {
    assert k in s.orphans || (EndsClaimant(s, l, k) && !l.Save?);
    if EndsClaimant(s, l, k) { Departed(s, l, k); }
    if Stored(Next(s, l), k) { StoredOrigin(s, l, k); }
  }

  lemma NewDocNew(s: State, l: Label, k: Key)
    requires OnceInv(s, k) && Enabled(s, l)
    ensures OneDocument(Next(s, l), k)
  {
    DocsGrow(s, l);
    if l.Save? && KeyAt(s, l.i) == k {
      Departed(s, l, k);
      forall i | 0 <= i < |s.docs| ensures s.docs[i].TheKey() != k {
        assert s.docs[i] in s.docs;
      }
    }
    hide Next, Enabled, BaseInv, KeyInv, KeyOf;
  }

  lemma DocsGrow(s: State, l: Label)
    requires Enabled(s, l)
    ensures if l.Save? then
              |Next(s, l).docs| == |s.docs| + 1 && Next(s, l).docs[..|s.docs|] == s.docs && Next(s, l).docs[|s.docs|].TheKey() == KeyAt(s, l.i)
            else Next(s, l).docs == s.docs
  {
  }

  lemma BaseStep(s: State, l: Label)
    requires BaseInv(s) && Enabled(s, l)
    ensures BaseInv(Next(s, l))
  {
    hide Next, Enabled;
    ComponentsStep(s, l);
    ProvenanceStep(s, l);
    ClaimsBackedStep(s, l);
  }

  lemma OnceStep(s: State, l: Label, k: Key)
    requires OnceInv(s, k) && Patient(s, l, k)
    ensures OnceInv(Next(s, l), k)
  {
    BaseStep(s, l);
    ExclusiveStep(s, l, k);
    KeyInvStep(s, l, k);
  }

  lemma OnceRun(ls: seq<Label>, k: Key)
    requires Valid(PatientSystem(k), Init, ls)
    ensures OnceInv(Exec(PatientSystem(k), Init, ls), k)
  {
    forall s, l | OnceInv(s, k) && Patient(s, l, k) ensures OnceInv(Next(s, l), k) { OnceStep(s, l, k); }
    assert OnceInv(Init, k);
    Invariant(PatientSystem(k), s => OnceInv(s, k), _ => true, Init, ls);
  }

  /** The claim on `k` never expires while its event can still be delivered. */
  ghost predicate NoEarlyExpiry(s: State, ls: seq<Label>, k: Key) {
    forall i :: 0 <= i < |ls| && ls[i] == TtlExpiry(k) ==> Retired(Exec(System(), s, ls[..i]), k)
  }

  /** Such runs are the runs of the patient machine. */
  lemma {:induction false} RunIsPatient(s: State, ls: seq<Label>, k: Key)
    requires Valid(System(), s, ls) && NoEarlyExpiry(s, ls, k)
    ensures Valid(PatientSystem(k), s, ls) && Exec(PatientSystem(k), s, ls) == Exec(System(), s, ls)
    decreases |ls|
  {
    hide Enabled, Next, Retired;
    if ls != [] {
      var t := Next(s, ls[0]);
      assert ls[..0] == [] && Patient(s, ls[0], k);
      forall i | 0 <= i < |ls[1..]| && ls[1..][i] == TtlExpiry(k) ensures Retired(Exec(System(), t, ls[1..][..i]), k) {
        assert ls[i + 1] == TtlExpiry(k);
        assert ls[..i + 1][0] == ls[0] && ls[..i + 1][1..] == ls[1..][..i];
        assert Exec(System(), s, ls[..i + 1]) == Exec(System(), t, ls[1..][..i]);
      }
      RunIsPatient(t, ls[1..], k);
    }
  }

  /** However deliveries interleave, and whatever is retried, sent again, expires
      or crashes: the history has two documents for one event type and entity
      only if the claim on that very key expired while its event could still be
      delivered; and each document carries the payload of a committed event. */
  lemma AtMostOneDocument(ls: seq<Label>, k: Key)
    requires Valid(System(), Init, ls) && NoEarlyExpiry(Init, ls, k)
    ensures var s := Exec(System(), Init, ls);
      && OneDocument(s, k)
      && (forall d :: d in s.docs ==> FromRow(s.relay.rows, d.pattern, d.data))
  {
    RunIsPatient(Init, ls, k);
    OnceRun(ls, k);
  }

  /** The exact condition for a published event to end up in the history: at
      rest, and not parked in the dead-letter queue, it is stored if and only if
      its key was not orphaned. */
  lemma RecordedIffNotOrphaned(ls: seq<Label>, id: Relay.Id)
    requires Valid(System(), Init, ls)
    requires var s := Exec(System(), Init, ls);
      && id in s.relay.rows && s.relay.rows[id].published
      && NoEarlyExpiry(Init, ls, RowKey(s.relay.rows[id]))
      && s.broker.main == [] && s.broker.unacked == [] && s.broker.retry == []
      && !Holds(s.broker.dlq, RowKey(s.relay.rows[id]))
    ensures var s := Exec(System(), Init, ls);
      Stored(s, RowKey(s.relay.rows[id])) <==> RowKey(s.relay.rows[id]) !in s.orphans
  {
    var s := Exec(System(), Init, ls);
    NoLoss(ls);
    RunIsPatient(Init, ls, RowKey(s.relay.rows[id]));
    OnceRun(ls, RowKey(s.relay.rows[id]));
  }

  /** While its claim does not expire, a key is in Redis exactly when one
      consumer is working on it, or its document is stored, or it was orphaned;
      and then only one of the three, with one consumer and one document at
      most. */
  lemma KeyPresentIffTaken(ls: seq<Label>, k: Key)
    requires Valid(System(), Init, ls) && Only(ls, (l: Label) => l != TtlExpiry(k))
    ensures var s := Exec(System(), Init, ls);
      && (k in s.claims <==> HasClaimant(s, k) || Stored(s, k) || k in s.orphans)
      && Exclusive(s, k)
  {
    var inv := (s: State) => OnceInv(s, k) && k !in s.expired;
    forall s: State, l: Label | inv(s) && l != TtlExpiry(k) && Enabled(s, l) ensures inv(Next(s, l)) {
      OnceStep(s, l, k);
    }
    assert inv(Init);
    Invariant(System(), inv, (l: Label) => l != TtlExpiry(k), Init, ls);
  }
}
