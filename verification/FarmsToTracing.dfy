/** From a crop, activity or harvest in farms to its document in tracing: the
    farms machine and the tracing pipeline as one machine, joined at the outbox. */
module FarmsToTracing {
  import opened Prelude
  import opened Envelope
  import opened Runs
  import opened FarmData
  import FarmMachine
  import FarmSafety
  import FarmEvents
  import Tracing
  import TracingOnce
  import Relay

  datatype State = State(farms: FarmMachine.State, tracing: Tracing.State)

  /** A step of farms, with the trace context of the request, or of the pipeline. */
  datatype Label = Farm(f: FarmMachine.Label, carrier: Carrier) | Pipe(p: Tracing.Label)

  const Init := State(FarmMachine.State(Db(map[], map[], []), map[], map[]), Tracing.Init)

  // ---- The event row ---------------------------------------------------------------

  function Pattern(kind: Kind): string {
    match kind
    case Crops => "crop.initialized"
    case Activities => "activity.created"
    case Harvests => "harvest.created"
    case Farms => ""
  }

  function Number(n: Option<int>): Json {
    match n case Some(k) => JNum(k) case None => JNull
  }

  /** What `enqueue` is given: the crop, its farm and owner, and the saved row. */
  function EventData(e: Event): Payload {
    map["cropId" := JNum(e.crop), "farmId" := Number(e.farm), "userId" := Number(e.user),
        "payload" := JObj(map["id" := JNum(e.ref.id)])]
  }

  function KeyOfRef(ref: Ref): Tracing.Key {
    Tracing.Key(match Tracing.EventType(Pattern(ref.kind)) case Some(t) => t case None => "", Some(ref.id))
  }

  lemma EventFits(e: Event)
    requires !e.ref.kind.Farms?
    ensures TRACE_CARRIER_KEY !in EventData(e)
    ensures Tracing.EventType(Pattern(e.ref.kind)).Some?
    ensures Tracing.KeyOf(Pattern(e.ref.kind), EventData(e)) == KeyOfRef(e.ref)
  {
    assert EventData(e)["payload"] == JObj(map["id" := JNum(e.ref.id)]);
  }

  lemma KeysApart(a: Ref, b: Ref)
    requires !a.kind.Farms? && !b.kind.Farms? && KeyOfRef(a) == KeyOfRef(b)
    ensures a == b
  {
  }

  // ---- The machine -----------------------------------------------------------------

  /** `key` is the one whose claim must not expire early; the others may. */
  ghost predicate Enabled(s: State, l: Label, key: Tracing.Key) {
    match l
    case Farm(f, _) => FarmMachine.Enabled(s.farms, f)
    case Pipe(p) => !p.Commit? && TracingOnce.Patient(s.tracing, p, key)
  }

  /** The outbox row of the farms' newest event. */
  function RowOf(e: Event, id: Relay.Id, carrier: Carrier): Tracing.Label {
    Tracing.Commit(id, Pattern(e.ref.kind), EventData(e), carrier)
  }

  ghost function Next(s: State, l: Label, key: Tracing.Key): State
    requires Enabled(s, l, key)
  {
    match l
    case Pipe(p) => s.(tracing := Tracing.Next(s.tracing, p))
    case Farm(f, carrier) =>
      var farms' := FarmMachine.Next(s.farms, f);
      var s' := s.(farms := farms');
      var n := |s.farms.db.events|;
      if |farms'.db.events| == n + 1 && Tracing.Enabled(s.tracing, RowOf(farms'.db.events[n], n, carrier))
      then s'.(tracing := Tracing.Next(s.tracing, RowOf(farms'.db.events[n], n, carrier)))
      else s'
  }

  ghost function System(key: Tracing.Key): Machine<State, Label> {
    Machine((s, l) => Enabled(s, l, key), (s, l) => if Enabled(s, l, key) then Next(s, l, key) else s)
  }

  // ---- One outbox ------------------------------------------------------------------

  /** Row `i` of the outbox is the i-th event farms committed. */
  ghost predicate SameOutbox(events: seq<Event>, rows: map<Relay.Id, Relay.Row>) {
    && (forall id :: id in rows <==> 0 <= id < |events|)
    && (forall i :: 0 <= i < |events| && i in rows ==>
          rows[i].pattern == Pattern(events[i].ref.kind) && Strip(rows[i].payload) == EventData(events[i]))
  }

  ghost predicate OneEventEach(events: seq<Event>) {
    && (forall i :: 0 <= i < |events| ==> !events[i].ref.kind.Farms?)
    && (forall i, j :: 0 <= i < |events| && 0 <= j < |events| && events[i].ref == events[j].ref ==> i == j)
  }

  ghost predicate FarmsInv(f: FarmMachine.State) {
    FarmSafety.Inv(f) && FarmEvents.Announced(Init.farms, f) && FarmSafety.Extends(Init.farms.born, f.born)
  }

  ghost predicate TracingInv(t: Tracing.State, key: Tracing.Key) {
    Tracing.LossInv(t) && TracingOnce.OnceInv(t, key)
  }

  ghost predicate Inv(s: State, key: Tracing.Key) {
    FarmsInv(s.farms) && TracingInv(s.tracing, key) && SameOutbox(s.farms.db.events, s.tracing.relay.rows)
  }

  lemma FarmsStep(f: FarmMachine.State, l: FarmMachine.Label)
    requires FarmsInv(f) && FarmMachine.Enabled(f, l)
    ensures FarmsInv(FarmMachine.Next(f, l))
  {
    FarmSafety.InvStep(f, l);
    FarmEvents.AnnouncedStep(Init.farms, f, l);
  }

  lemma EventsOnce(f: FarmMachine.State)
    requires FarmsInv(f)
    ensures OneEventEach(f.db.events)
  {
  }

  lemma TracingStep(t: Tracing.State, l: Tracing.Label, key: Tracing.Key)
    requires TracingInv(t, key) && TracingOnce.Patient(t, l, key)
    ensures TracingInv(Tracing.Next(t, l), key)
  {
    Tracing.LossStep(t, l);
    TracingOnce.OnceStep(t, l, key);
  }

  lemma NewEvent(f: FarmMachine.State, l: FarmMachine.Label)
    requires FarmsInv(f) && FarmMachine.Enabled(f, l)
    ensures var es, es' := f.db.events, FarmMachine.Next(f, l).db.events;
      es' == es || (|es'| == |es| + 1 && es'[..|es|] == es)
  {
    FarmEvents.EventsStep(f, l);
    hide FarmMachine.Next;
  }

  /** The new row's key is nobody's, so the pipeline takes it. */
  lemma RowTaken(s: State, key: Tracing.Key, e: Event, carrier: Carrier)
    requires Inv(s, key) && OneEventEach(s.farms.db.events + [e])
    ensures TracingOnce.Patient(s.tracing, RowOf(e, |s.farms.db.events|, carrier), key)
  {
    var events, rows, n := s.farms.db.events, s.tracing.relay.rows, |s.farms.db.events|;
    assert (events + [e])[n] == e;
    EventFits(e);
    forall other | other in rows ensures Tracing.RowKey(rows[other]) != KeyOfRef(e.ref) {
      assert (events + [e])[other] == events[other];
      EventFits(events[other]);
      if KeyOfRef(events[other].ref) == KeyOfRef(e.ref) { KeysApart(events[other].ref, e.ref); }
    }
  }

  lemma RowAdded(t: Tracing.State, events: seq<Event>, e: Event, carrier: Carrier)
    requires SameOutbox(events, t.relay.rows) && Tracing.Enabled(t, RowOf(e, |events|, carrier)) && TRACE_CARRIER_KEY !in EventData(e)
    ensures SameOutbox(events + [e], Tracing.Next(t, RowOf(e, |events|, carrier)).relay.rows)
  {
    RoundTripIffKeyUnused(EventData(e), carrier);
    hide Wrap, Strip, EventData, Pattern;
  }

  lemma FarmKeeps(s: State, l: FarmMachine.Label, carrier: Carrier, key: Tracing.Key)
    requires Inv(s, key) && FarmMachine.Enabled(s.farms, l)
    ensures Inv(Next(s, Farm(l, carrier), key), key)
  {
    hide FarmMachine.Next, FarmMachine.Enabled, FarmsInv, TracingInv, SameOutbox, Tracing.Next, Tracing.Enabled, EventData,
         OneEventEach, RowOf;
    FarmsStep(s.farms, l);
    NewEvent(s.farms, l);
    var farms' := FarmMachine.Next(s.farms, l);
    EventsOnce(farms');
    var n := |s.farms.db.events|;
    if |farms'.db.events| == n + 1 {
      assert farms'.db.events == s.farms.db.events + [farms'.db.events[n]];
      NewRow(s, key, farms'.db.events[n], carrier);
    }
  }

  lemma NewRow(s: State, key: Tracing.Key, e: Event, carrier: Carrier)
    requires Inv(s, key) && OneEventEach(s.farms.db.events + [e])
    ensures var l := RowOf(e, |s.farms.db.events|, carrier);
      && Tracing.Enabled(s.tracing, l) && TracingInv(Tracing.Next(s.tracing, l), key)
      && SameOutbox(s.farms.db.events + [e], Tracing.Next(s.tracing, l).relay.rows)
  {
    RowTaken(s, key, e, carrier);
    assert (s.farms.db.events + [e])[|s.farms.db.events|] == e;
    EventFits(e);
    RowAdded(s.tracing, s.farms.db.events, e, carrier);
    TracingStep(s.tracing, RowOf(e, |s.farms.db.events|, carrier), key);
  }

  lemma PipeKeeps(s: State, p: Tracing.Label, key: Tracing.Key)
    requires Inv(s, key) && Enabled(s, Pipe(p), key)
    ensures Inv(Next(s, Pipe(p), key), key)
  {
    TracingStep(s.tracing, p, key);
    PipeRows(s.tracing, p);
    hide Tracing.Next, Tracing.Enabled, TracingInv, FarmsInv, EventData, Strip;
    var rows, rows' := s.tracing.relay.rows, Tracing.Next(s.tracing, p).relay.rows;
    assert forall i :: i in rows' <==> i in rows.Keys;
  }

  lemma PipeRows(t: Tracing.State, p: Tracing.Label)
    requires !p.Commit? && Tracing.Enabled(t, p)
    ensures var rows, rows' := t.relay.rows, Tracing.Next(t, p).relay.rows;
      && rows'.Keys == rows.Keys
      && forall id :: id in rows ==> rows'[id].pattern == rows[id].pattern && rows'[id].payload == rows[id].payload
  {
    if p.RelayStep? {
      RelayRows(t.relay, p.r);
      hide Relay.Next, Relay.Enabled;
    } else {
      assert Tracing.Next(t, p).relay == t.relay;
    }
  }

  lemma RelayRows(s: Relay.State, r: Relay.Label)
    requires !r.Insert? && Relay.Enabled(Tracing.TARGETS, s, r)
    ensures var rows, rows' := s.rows, Relay.Next(Tracing.TARGETS, s, r).rows;
      && rows'.Keys == rows.Keys
      && forall id :: id in rows ==> rows'[id].pattern == rows[id].pattern && rows'[id].payload == rows[id].payload
  {
  }

  lemma InvRun(ls: seq<Label>, key: Tracing.Key)
    requires Valid(System(key), Init, ls)
    ensures Inv(Exec(System(key), Init, ls), key)
  {
    StartInv(key);
    forall s, l | Inv(s, key) && Enabled(s, l, key) ensures Inv(Next(s, l, key), key) {
      match l
      case Farm(f, carrier) => FarmKeeps(s, f, carrier, key);
      case Pipe(p) => PipeKeeps(s, p, key);
    }
    hide Inv, Enabled, Next;
    Invariant(System(key), s => Inv(s, key), _ => true, Init, ls);
  }

  lemma StartInv(key: Tracing.Key)
    ensures Inv(Init, key)
  {
    FarmSafety.EmptyStart();
    assert Init.farms.db.events[..0] == [];
  }

  // ---- Exactly one document ---------------------------------------------------------

  /** The farm's row is owned by the user the document names. */
  ghost predicate NamesFarm(born: Rows, data: Payload, farm: Id) {
    && "farmId" in data && data["farmId"] == JNum(farm) && Ref(Farms, farm) in born
    && born[Ref(Farms, farm)].userId.Some? && "userId" in data && data["userId"] == JNum(born[Ref(Farms, farm)].userId.value)
  }

  /** The crop's farm is the one the document names. */
  ghost predicate NamesCrop(born: Rows, data: Payload, crop: Id) {
    && "cropId" in data && data["cropId"] == JNum(crop) && Ref(Crops, crop) in born
    && born[Ref(Crops, crop)].parent.Some? && NamesFarm(born, data, born[Ref(Crops, crop)].parent.value)
  }

  /** The document's fields: for a crop its own id, farm and owner; for an activity
      or harvest its crop's; and the id of the row it records. */
  ghost predicate Names(born: Rows, ref: Ref, data: Payload)
    requires ref in born
  {
    && data.Keys == {"cropId", "farmId", "userId", "payload"}
    && data["payload"] == JObj(map["id" := JNum(ref.id)])
    && if ref.kind.Crops? then NamesCrop(born, data, ref.id)
       else born[ref].parent.Some? && NamesCrop(born, data, born[ref].parent.value)
  }

  /** The kind of row shows in the event's pattern and in the document's type. */
  ghost predicate OfKind(kind: Kind, doc: Tracing.Doc) {
    match kind
    case Crops => doc.pattern == "crop.initialized" && doc.TheKey().eventType == "CROP_INITIALIZED"
    case Activities => doc.pattern == "activity.created" && doc.TheKey().eventType == "ACTIVITY_CREATED"
    case Harvests => doc.pattern == "harvest.created" && doc.TheKey().eventType == "HARVEST_CREATED"
    case Farms => false
  }

  /** Document `i` is the row's only one and names its true crop, farm and owner. */
  ghost predicate RecordedAs(s: State, ref: Ref, i: nat)
    requires ref in s.farms.born
  {
    && i < |s.tracing.docs| && OfKind(ref.kind, s.tracing.docs[i]) && Names(s.farms.born, ref, s.tracing.docs[i].data)
    && s.tracing.docs[i].TheKey().entityId == Some(ref.id)
    && forall j :: 0 <= j < |s.tracing.docs| && s.tracing.docs[j].TheKey() == s.tracing.docs[i].TheKey() ==> j == i
  }

  /** An event that is right about its row names what the row's relations say. */
  lemma EventNames(born: Rows, e: Event)
    requires FarmEvents.EventOk(born, e)
    ensures Names(born, e.ref, EventData(e))
  {
    var data := EventData(e);
    assert data.Keys == {"cropId", "farmId", "userId", "payload"};
    if e.ref.kind.Crops? {
      OwnedCrop(born, e.ref, e.user.value);
    } else {
      var crop := Ref(Crops, e.crop);
      assert OwnerOf(born, e.ref) == OwnerOf(born, crop);
      OwnedCrop(born, crop, e.user.value);
    }
  }

  lemma OwnedCrop(born: Rows, crop: Ref, user: User)
    requires crop in born && crop.kind.Crops? && OwnerOf(born, crop) == Some(user)
    ensures born[crop].parent.Some? && Ref(Farms, born[crop].parent.value) in born
    ensures born[Ref(Farms, born[crop].parent.value)].userId == Some(user)
  {
    assert OwnerOf(born, crop) == OwnerOf(born, Ref(Farms, born[crop].parent.value));
  }

  lemma KindShows(ref: Ref, d: Tracing.Doc)
    requires !ref.kind.Farms? && d.pattern == Pattern(ref.kind) && d.TheKey() == KeyOfRef(ref)
    ensures OfKind(ref.kind, d) && d.TheKey().entityId == Some(ref.id)
  {
  }

  /** From nothing, with any number of consumers and replicas, whatever aborts,
      dies, is retried or sent again: at rest each crop, activity and harvest
      ever committed has exactly one document, and it names its true crop, farm
      and owner, unless its key was orphaned or its event was dead-lettered. */
  lemma RecordedExactlyOnce(ls: seq<Label>, ref: Ref)
    requires Valid(System(KeyOfRef(ref)), Init, ls)
    requires var s := Exec(System(KeyOfRef(ref)), Init, ls);
      && ref in s.farms.born && !ref.kind.Farms?
      && Tracing.AtRest(s.tracing)
      && !Tracing.Holds(s.tracing.broker.dlq, KeyOfRef(ref)) && KeyOfRef(ref) !in s.tracing.orphans
    ensures exists i :: RecordedAs(Exec(System(KeyOfRef(ref)), Init, ls), ref, i)
  {
    InvRun(ls, KeyOfRef(ref));
    AtRestRecorded(Exec(System(KeyOfRef(ref)), Init, ls), ref);
  }

  lemma AtRestRecorded(s: State, ref: Ref)
    requires Inv(s, KeyOfRef(ref)) && ref in s.farms.born && !ref.kind.Farms? && Tracing.AtRest(s.tracing)
    requires !Tracing.Holds(s.tracing.broker.dlq, KeyOfRef(ref)) && KeyOfRef(ref) !in s.tracing.orphans
    ensures exists i :: RecordedAs(s, ref, i)
  {
    hide RecordedAs, Tracing.LossInv, TracingOnce.OnceInv, FarmsInv, FarmEvents.EventOk, EventData, Tracing.KeyOf;
    var k := KeyOfRef(ref);
    var n := EventOfRow(s.farms, ref);
    RowKeyOf(s, ref, n);
    RestIsStored(s.tracing, k, n);
    var d :| d in s.tracing.docs && d.TheKey() == k;
    var i :| 0 <= i < |s.tracing.docs| && s.tracing.docs[i] == d;
    FoundRecorded(s, ref, n, i);
  }

  lemma RowKeyOf(s: State, ref: Ref, n: nat)
    requires Inv(s, KeyOfRef(ref)) && n < |s.farms.db.events| && s.farms.db.events[n].ref == ref && !ref.kind.Farms?
    ensures n in s.tracing.relay.rows && Tracing.RowKey(s.tracing.relay.rows[n]) == KeyOfRef(ref)
  {
    EventFits(s.farms.db.events[n]);
  }

  lemma FoundRecorded(s: State, ref: Ref, n: nat, i: nat)
    requires Inv(s, KeyOfRef(ref)) && ref in s.farms.born && !ref.kind.Farms?
    requires n < |s.farms.db.events| && s.farms.db.events[n].ref == ref && FarmEvents.EventOk(s.farms.born, s.farms.db.events[n])
    requires i < |s.tracing.docs| && s.tracing.docs[i].TheKey() == KeyOfRef(ref)
    ensures RecordedAs(s, ref, i)
  {
    assert TracingOnce.OneDocument(s.tracing, KeyOfRef(ref));
    assert s.tracing.docs[i] in s.tracing.docs;
    DocumentData(s, ref, n, s.tracing.docs[i]);
    EventNames(s.farms.born, s.farms.db.events[n]);
    KindShows(ref, s.tracing.docs[i]);
    hide Names, OfKind, Tracing.KeyOf, Inv, FarmEvents.EventOk;
  }

  /** The row's one event. */
  lemma EventOfRow(f: FarmMachine.State, ref: Ref) returns (n: nat)
    requires FarmsInv(f) && ref in f.born && !ref.kind.Farms?
    ensures n < |f.db.events| && f.db.events[n].ref == ref && FarmEvents.EventOk(f.born, f.db.events[n])
  {
    n :| 0 <= n < |f.db.events| && f.db.events[n].ref == ref;
  }

  lemma RestIsStored(t: Tracing.State, k: Tracing.Key, n: nat)
    requires Tracing.LossInv(t) && Tracing.AtRest(t) && n in t.relay.rows && Tracing.RowKey(t.relay.rows[n]) == k
    requires !Tracing.Holds(t.broker.dlq, k) && k !in t.orphans
    ensures Tracing.Stored(t, k)
  {
    Tracing.PublishedCovered(t);
    assert Tracing.Covered(t, k);
  }

  /** The document carries the payload of the row's own event. */
  lemma DocumentData(s: State, ref: Ref, n: nat, d: Tracing.Doc)
    requires Inv(s, KeyOfRef(ref)) && n < |s.farms.db.events| && s.farms.db.events[n].ref == ref
    requires d in s.tracing.docs && d.TheKey() == KeyOfRef(ref)
    ensures d.data == EventData(s.farms.db.events[n]) && d.pattern == Pattern(ref.kind)
  {
    var events, rows := s.farms.db.events, s.tracing.relay.rows;
    EventsOnce(s.farms);
    assert TracingOnce.FromRow(rows, d.pattern, d.data);
    var id :| id in rows && rows[id].pattern == d.pattern && Strip(rows[id].payload) == d.data;
    EventFits(events[id]);
    KeysApart(events[id].ref, ref);
    assert id == n;
  }
}
