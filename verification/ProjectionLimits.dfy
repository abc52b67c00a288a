/** Runs that show what the projection's convergence depends on. */
module ProjectionLimits {
  import opened Prelude
  import opened Envelope
  import opened Runs
  import opened Projection
  import opened Convergence
  import Relay

  const USER: User := 5
  const OLD: Payload := map["id" := JNum(5), "fullName" := JStr("old")]
  const NEW: Payload := map["id" := JNum(5), "fullName" := JStr("new")]
  const NO_TRACE: Carrier := map[]

  function First(published: bool, attempts: nat): Relay.Row {
    Relay.Row("user.created", OLD, published, attempts)
  }

  function Second(published: bool): Relay.Row {
    Relay.Row("user.updated", NEW, published, 0)
  }

  const OLD_ITEM := Item(1, USER, OLD)
  const NEW_ITEM := Item(2, USER, NEW)

  /** Two rows, the drain of replica 0 if one is open, and the histories. */
  function Two(a: Relay.Row, b: Relay.Row, drain: Option<Relay.Drain>, g: Relay.Log, h: Relay.Log): Relay.State {
    Relay.State(map[1 := a, 2 := b], match drain case Some(d) => map[0 := d] case None => map[], map[1 := g, 2 := h])
  }

  /** The run goes on with one label. */
  lemma Step(ls: seq<Label>, l: Label, s': State) returns (ls': seq<Label>)
    requires Valid(System(), Init, ls) && Enabled(Exec(System(), Init, ls), l)
    requires Next(Exec(System(), Init, ls), l) == s'
    ensures ls' == ls + [l] && Valid(System(), Init, ls') && Exec(System(), Init, ls') == s'
  {
    Extend(System(), Init, ls, l);
    ls' := ls + [l];
  }

  /** One relay step, given what it does to the outbox and what arrives. */
  lemma RelayGoes(ls: seq<Label>, r: Relay.Label, relay': Relay.State, item: Option<Item>) returns (ls': seq<Label>)
    requires Valid(System(), Init, ls)
    requires !r.Insert? && r.r == 0 && Relay.Enabled(ROUTES, Exec(System(), Init, ls).relay, r)
    requires Relay.Next(ROUTES, Exec(System(), Init, ls).relay, r) == relay'
    requires Arrived(Exec(System(), Init, ls), r) == item
    ensures var s, s' := Exec(System(), Init, ls), Exec(System(), Init, ls');
      && ls' == ls + [RelayStep(r)] && Valid(System(), Init, ls')
      && s' == s.(relay := relay', queue := match item case Some(x) => s.queue + [x] case None => s.queue,
                  overtaken := if r.Commit? then s.overtaken + OvertakenUsers(relay'.rows) else s.overtaken)
  {
    ls' := Step(ls, RelayStep(r), Next(Exec(System(), Init, ls), RelayStep(r)));
  }

  // ---- The consumer empties any queue ----------------------------------------

  function Upserts(projection: map<User, Item>, q: seq<Item>): map<User, Item>
    decreases |q|
  {
    if q == [] then projection else Upserts(projection[q[0].user := q[0]], q[1..])
  }

  /** With nothing failing, farms consumes whatever is queued, in order. */
  lemma {:induction false} ConsumeAll(ls: seq<Label>) returns (ls': seq<Label>)
    requires Valid(System(), Init, ls) && Exec(System(), Init, ls).inflight.None? && !Exec(System(), Init, ls).upserted
    ensures Valid(System(), Init, ls') && (Only(ls, (l: Label) => !l.Drop?) ==> Only(ls', (l: Label) => !l.Drop?))
    ensures var s := Exec(System(), Init, ls);
      Exec(System(), Init, ls') == s.(queue := [], projection := Upserts(s.projection, s.queue))
    decreases |Exec(System(), Init, ls).queue|
  {
    var s := Exec(System(), Init, ls);
    if s.queue == [] {
      ls' := ls;
    } else {
      hide Valid, Exec, System;
      var taken := s.(inflight := Some(s.queue[0]), queue := s.queue[1..]);
      var done := taken.(projection := s.projection[s.queue[0].user := s.queue[0]], upserted := true);
      ls' := Step(ls, Take, taken);
      ls' := Step(ls', Upsert, done);
      ls' := Step(ls', Ack, done.(inflight := None, upserted := false));
      ls' := ConsumeAll(ls');
    }
  }

  // ---- One failed fan-out target ------------------------------------------------

  const ZERO1 := Relay.Log([0, 0], 0, 0, 0)
  const ZERO2 := Relay.Log([0], 0, 0, 0)
  const ONCE2 := Relay.Log([1], 1, 0, 0)
  const HALF1 := Relay.Log([1, 0], 1, 0, 0)
  const FAILED1 := Relay.Log([1, 0], 1, 1, 0)
  const BOTH := Relay.Drain([1, 2], 0, 0, {}, {})
  const ONLY_FIRST := Relay.Drain([1], 0, 0, {}, {})

  lemma Registers()
    ensures var l := Event(1, "user.created", OLD, NO_TRACE);
      && Enabled(Init, l)
      && Next(Init, l) == Init.(relay := Relay.State(map[1 := First(false, 0)], map[], map[1 := ZERO1]))
  {
    assert Wrap(OLD, NO_TRACE) == OLD;
    assert seq(2, _ => 0) == [0, 0];
  }

  lemma Updates()
    ensures var s := Init.(relay := Relay.State(map[1 := First(false, 0)], map[], map[1 := ZERO1]));
      var l := Event(2, "user.updated", NEW, NO_TRACE);
      && Enabled(s, l)
      && Next(s, l) == Init.(relay := Two(First(false, 0), Second(false), None, ZERO1, ZERO2))
  {
    assert Wrap(NEW, NO_TRACE) == NEW;
    assert seq(1, _ => 0) == [0];
    var s := Init.(relay := Relay.State(map[1 := First(false, 0)], map[], map[1 := ZERO1]));
    assert s.relay.rows[2 := Second(false)] == map[1 := First(false, 0), 2 := Second(false)];
    assert s.relay.log[2 := ZERO2] == map[1 := ZERO1, 2 := ZERO2];
    assert s.overtaken - {USER} == {} && s.dropped - {USER} == {};
  }

  /** Registration and a profile update, both still in the outbox. */
  lemma TwoEvents() returns (ls: seq<Label>)
    ensures Valid(System(), Init, ls) && Only(ls, (l: Label) => !l.Drop?)
    ensures Exec(System(), Init, ls) == Init.(relay := Two(First(false, 0), Second(false), None, ZERO1, ZERO2))
  {
    var none: seq<Label> := [];
    assert Valid(System(), Init, none) && Exec(System(), Init, none) == Init;
    Registers();
    Updates();
    hide Valid, Exec, System, Enabled, Next;
    ls := Step(none, Event(1, "user.created", OLD, NO_TRACE),
               Init.(relay := Relay.State(map[1 := First(false, 0)], map[], map[1 := ZERO1])));
    ls := Step(ls, Event(2, "user.updated", NEW, NO_TRACE),
               Init.(relay := Two(First(false, 0), Second(false), None, ZERO1, ZERO2)));
  }

  lemma TakesBoth()
    ensures var s := Two(First(false, 0), Second(false), None, ZERO1, ZERO2);
      && Relay.Enabled(ROUTES, s, Relay.Begin(0))
      && Relay.Next(ROUTES, s, Relay.Begin(0)) == Two(First(false, 0), Second(false), Some(BOTH), ZERO1, ZERO2)
  {
    var s := Two(First(false, 0), Second(false), None, ZERO1, ZERO2);
    assert Relay.Candidates(s) == {1, 2};
    Relay.SelectTakesSmallest({1, 2});
    var b := Relay.Select({1, 2});
    assert |b| == 2 && {b[0], b[1]} <= {1, 2} && b[0] < b[1];
    assert b == [1, 2];
  }

  /** One step of the drain on its current row, spelt out. */
  ghost predicate Works(s: Relay.State, r: Relay.Label, s': Relay.State, arrives: Option<Item>) {
    && !r.Insert? && r.r == 0 && Relay.Enabled(ROUTES, s, r)
    && Relay.Next(ROUTES, s, r) == s'
    && Arrived(Init.(relay := s), r) == arrives
  }

  lemma FirstReachesFarms()
    ensures Works(Two(First(false, 0), Second(false), Some(BOTH), ZERO1, ZERO2), Relay.Send(0),
                  Two(First(false, 0), Second(false), Some(BOTH.(reached := 1)), HALF1, ZERO2), Some(OLD_ITEM))
  {
    assert Strip(OLD) == OLD;
    assert Relay.Tried(Relay.Delivered(ZERO1, 0), 0) == HALF1;
    assert map[1 := ZERO1, 2 := ZERO2][1 := HALF1] == map[1 := HALF1, 2 := ZERO2];
  }

  const ONE_BUMPED := Relay.Drain([1, 2], 1, 0, {}, {1})

  lemma NotificationsFails()
    ensures Works(Two(First(false, 0), Second(false), Some(BOTH.(reached := 1)), HALF1, ZERO2), Relay.Fail(0, false),
                  Two(First(false, 0), Second(false), Some(ONE_BUMPED), FAILED1, ZERO2), None)
  {
    var none: set<Id> := {};
    assert none + {1} == {1};
    assert map[1 := HALF1, 2 := ZERO2][1 := FAILED1] == map[1 := FAILED1, 2 := ZERO2];
  }

  lemma SecondReachesFarms()
    ensures Works(Two(First(false, 0), Second(false), Some(ONE_BUMPED), FAILED1, ZERO2), Relay.Send(0),
                  Two(First(false, 0), Second(false), Some(ONE_BUMPED.(reached := 1)), FAILED1, ONCE2), Some(NEW_ITEM))
  {
    assert Strip(NEW) == NEW;
    assert Relay.Tried(Relay.Delivered(ZERO2, 0), 0) == ONCE2;
    assert map[1 := FAILED1, 2 := ZERO2][2 := ONCE2] == map[1 := FAILED1, 2 := ONCE2];
  }

  const DRAINED := Relay.Drain([1, 2], 2, 0, {2}, {1})

  lemma SecondMarked()
    ensures Works(Two(First(false, 0), Second(false), Some(ONE_BUMPED.(reached := 1)), FAILED1, ONCE2), Relay.Mark(0),
                  Two(First(false, 0), Second(false), Some(DRAINED), FAILED1, ONCE2), None)
  {
    var none: set<Id> := {};
    assert none + {2} == {2};
    assert map[1 := FAILED1, 2 := ONCE2][2 := ONCE2] == map[1 := FAILED1, 2 := ONCE2];
  }

  lemma FirstDrainCommits()
    ensures Works(Two(First(false, 0), Second(false), Some(DRAINED), FAILED1, ONCE2), Relay.Commit(0),
                  Two(First(false, 1), Second(true), None, FAILED1, ONCE2), None)
  {
    var rows: map<Id, Relay.Row> := map[1 := First(false, 0), 2 := Second(false)];
    assert Relay.Updated(rows, {2}, {1}) == map[1 := First(false, 1), 2 := Second(true)];
    var drains: map<Relay.Replica, Relay.Drain> := map[0 := DRAINED];
    assert drains - {0} == map[];
  }

  lemma UpdateOvertook()
    ensures OvertakenUsers(map[1 := First(false, 1), 2 := Second(true)]) == {USER}
  {
    var rows: map<Id, Relay.Row> := map[1 := First(false, 1), 2 := Second(true)];
    assert Strip(NEW) == NEW && Strip(OLD) == OLD;
    assert RowUser(rows[1]) == Some(USER) == RowUser(rows[2]);
    assert Newest(rows, 2, USER);
    assert Overtaken(rows, USER);
    forall u ensures u in OvertakenUsers(rows) <==> u == USER { OvertakenIff(rows, u); }
  }

  lemma TakesFirst()
    ensures Works(Two(First(false, 1), Second(true), None, FAILED1, ONCE2), Relay.Begin(0),
                  Two(First(false, 1), Second(true), Some(ONLY_FIRST), FAILED1, ONCE2), None)
  {
    var s := Two(First(false, 1), Second(true), None, FAILED1, ONCE2);
    assert Relay.Candidates(s) == {1};
    Relay.SelectTakesSmallest({1});
    assert Relay.Select({1}) == [1];
  }

  lemma FirstReachesFarmsAgain()
    ensures Works(Two(First(false, 1), Second(true), Some(ONLY_FIRST), FAILED1, ONCE2), Relay.Send(0),
                  Two(First(false, 1), Second(true), Some(ONLY_FIRST.(reached := 1)), Relay.Log([2, 0], 2, 1, 0), ONCE2),
                  Some(OLD_ITEM))
  {
    assert Strip(OLD) == OLD;
    var g := Relay.Log([2, 0], 2, 1, 0);
    assert Relay.Tried(Relay.Delivered(FAILED1, 0), 0) == g;
    assert map[1 := FAILED1, 2 := ONCE2][1 := g] == map[1 := g, 2 := ONCE2];
  }

  lemma FirstReachesNotifications()
    ensures Works(Two(First(false, 1), Second(true), Some(ONLY_FIRST.(reached := 1)), Relay.Log([2, 0], 2, 1, 0), ONCE2), Relay.Send(0),
                  Two(First(false, 1), Second(true), Some(ONLY_FIRST.(reached := 2)), Relay.Log([2, 1], 2, 1, 0), ONCE2), None)
  {
    var g, h := Relay.Log([2, 0], 2, 1, 0), Relay.Log([2, 1], 2, 1, 0);
    assert Relay.Tried(Relay.Delivered(g, 1), 1) == h;
    assert map[1 := g, 2 := ONCE2][1 := h] == map[1 := h, 2 := ONCE2];
  }

  lemma FirstMarked()
    ensures Works(Two(First(false, 1), Second(true), Some(ONLY_FIRST.(reached := 2)), Relay.Log([2, 1], 2, 1, 0), ONCE2), Relay.Mark(0),
                  Two(First(false, 1), Second(true), Some(Relay.Drain([1], 1, 0, {1}, {})), Relay.Log([2, 1], 2, 1, 0), ONCE2), None)
  {
    var none: set<Id> := {};
    assert none + {1} == {1};
    var h := Relay.Log([2, 1], 2, 1, 0);
    assert map[1 := h, 2 := ONCE2][1 := h] == map[1 := h, 2 := ONCE2];
  }

  lemma SecondDrainCommits()
    ensures var h := Relay.Log([2, 1], 2, 1, 0);
      Works(Two(First(false, 1), Second(true), Some(Relay.Drain([1], 1, 0, {1}, {})), h, ONCE2), Relay.Commit(0),
            Two(First(true, 1), Second(true), None, h, ONCE2), None)
    ensures OvertakenUsers(map[1 := First(true, 1), 2 := Second(true)]) == {}
  {
    var rows: map<Id, Relay.Row> := map[1 := First(false, 1), 2 := Second(true)];
    assert Relay.Updated(rows, {1}, {}) == map[1 := First(true, 1), 2 := Second(true)];
    var drains: map<Relay.Replica, Relay.Drain> := map[0 := Relay.Drain([1], 1, 0, {1}, {})];
    assert drains - {0} == map[];
  }

  /** A run in which no handler fails leads to `s`. */
  ghost predicate LeadsTo(ls: seq<Label>, s: State) {
    Valid(System(), Init, ls) && Only(ls, (l: Label) => !l.Drop?) && Exec(System(), Init, ls) == s
  }

  /** A state between handlings, nothing consumed yet. */
  function Waiting(relay: Relay.State, queue: seq<Item>, overtaken: set<User>): State {
    State(relay, queue, None, false, map[], overtaken, {})
  }

  /** `RelayGoes` for a step spelt out on the outbox alone. */
  lemma Goes(ls: seq<Label>, s: State, r: Relay.Label, relay': Relay.State, item: Option<Item>) returns (ls': seq<Label>)
    requires LeadsTo(ls, s) && Works(s.relay, r, relay', item)
    ensures LeadsTo(ls', s.(relay := relay', queue := match item case Some(x) => s.queue + [x] case None => s.queue,
                            overtaken := if r.Commit? then s.overtaken + OvertakenUsers(relay'.rows) else s.overtaken))
  {
    ls' := RelayGoes(ls, r, relay', item);
  }

  /** The first drain: the registration reaches farms but not notifications,
      the update goes out behind it. */
  lemma FirstDrain() returns (ls: seq<Label>)
    ensures LeadsTo(ls, Waiting(Two(First(false, 1), Second(true), None, FAILED1, ONCE2), [OLD_ITEM, NEW_ITEM], {USER}))
  {
    ls := TwoEvents();
    TakesBoth();
    assert Works(Two(First(false, 0), Second(false), None, ZERO1, ZERO2), Relay.Begin(0),
                 Two(First(false, 0), Second(false), Some(BOTH), ZERO1, ZERO2), None);
    FirstReachesFarms();
    NotificationsFails();
    hide LeadsTo, Works, Two, OvertakenUsers;
    ls := Goes(ls, Waiting(Two(First(false, 0), Second(false), None, ZERO1, ZERO2), [], {}), Relay.Begin(0),
               Two(First(false, 0), Second(false), Some(BOTH), ZERO1, ZERO2), None);
    ls := Goes(ls, Waiting(Two(First(false, 0), Second(false), Some(BOTH), ZERO1, ZERO2), [], {}), Relay.Send(0),
               Two(First(false, 0), Second(false), Some(BOTH.(reached := 1)), HALF1, ZERO2), Some(OLD_ITEM));
    ls := Goes(ls, Waiting(Two(First(false, 0), Second(false), Some(BOTH.(reached := 1)), HALF1, ZERO2), [OLD_ITEM], {}),
               Relay.Fail(0, false), Two(First(false, 0), Second(false), Some(ONE_BUMPED), FAILED1, ZERO2), None);
    ls := FirstDrainEnds(ls);
  }

  lemma FirstDrainEnds(start: seq<Label>) returns (ls: seq<Label>)
    requires LeadsTo(start, Waiting(Two(First(false, 0), Second(false), Some(ONE_BUMPED), FAILED1, ZERO2), [OLD_ITEM], {}))
    ensures LeadsTo(ls, Waiting(Two(First(false, 1), Second(true), None, FAILED1, ONCE2), [OLD_ITEM, NEW_ITEM], {USER}))
  {
    SecondReachesFarms();
    SecondMarked();
    FirstDrainCommits();
    UpdateOvertook();
    TwoRows(First(false, 1), Second(true), None, FAILED1, ONCE2);
    hide LeadsTo, Works, Two, OvertakenUsers;
    ls := Goes(start, Waiting(Two(First(false, 0), Second(false), Some(ONE_BUMPED), FAILED1, ZERO2), [OLD_ITEM], {}),
               Relay.Send(0), Two(First(false, 0), Second(false), Some(ONE_BUMPED.(reached := 1)), FAILED1, ONCE2), Some(NEW_ITEM));
    ls := Goes(ls, Waiting(Two(First(false, 0), Second(false), Some(ONE_BUMPED.(reached := 1)), FAILED1, ONCE2), [OLD_ITEM, NEW_ITEM], {}),
               Relay.Mark(0), Two(First(false, 0), Second(false), Some(DRAINED), FAILED1, ONCE2), None);
    ls := Goes(ls, Waiting(Two(First(false, 0), Second(false), Some(DRAINED), FAILED1, ONCE2), [OLD_ITEM, NEW_ITEM], {}),
               Relay.Commit(0), Two(First(false, 1), Second(true), None, FAILED1, ONCE2), None);
  }

  lemma TwoRows(a: Relay.Row, b: Relay.Row, drain: Option<Relay.Drain>, g: Relay.Log, h: Relay.Log)
    ensures Two(a, b, drain, g, h).rows == map[1 := a, 2 := b]
  {
  }

  lemma SecondDrain(start: seq<Label>) returns (ls: seq<Label>)
    requires LeadsTo(start, Waiting(Two(First(false, 1), Second(true), None, FAILED1, ONCE2), [OLD_ITEM, NEW_ITEM], {USER}))
    ensures LeadsTo(ls, Waiting(Two(First(true, 1), Second(true), None, Relay.Log([2, 1], 2, 1, 0), ONCE2),
                                [OLD_ITEM, NEW_ITEM, OLD_ITEM], {USER}))
  {
    TakesFirst();
    FirstReachesFarmsAgain();
    FirstReachesNotifications();
    hide LeadsTo, Works, Two, OvertakenUsers;
    var g, h, q := Relay.Log([2, 0], 2, 1, 0), Relay.Log([2, 1], 2, 1, 0), [OLD_ITEM, NEW_ITEM];
    ls := Goes(start, Waiting(Two(First(false, 1), Second(true), None, FAILED1, ONCE2), q, {USER}),
               Relay.Begin(0), Two(First(false, 1), Second(true), Some(ONLY_FIRST), FAILED1, ONCE2), None);
    ls := Goes(ls, Waiting(Two(First(false, 1), Second(true), Some(ONLY_FIRST), FAILED1, ONCE2), q, {USER}),
               Relay.Send(0), Two(First(false, 1), Second(true), Some(ONLY_FIRST.(reached := 1)), g, ONCE2), Some(OLD_ITEM));
    ls := Goes(ls, Waiting(Two(First(false, 1), Second(true), Some(ONLY_FIRST.(reached := 1)), g, ONCE2), q + [OLD_ITEM], {USER}),
               Relay.Send(0), Two(First(false, 1), Second(true), Some(ONLY_FIRST.(reached := 2)), h, ONCE2), None);
    assert q + [OLD_ITEM] == [OLD_ITEM, NEW_ITEM, OLD_ITEM];
    ls := SecondDrainEnds(ls, h, q + [OLD_ITEM]);
  }

  lemma SecondDrainEnds(start: seq<Label>, h: Relay.Log, q: seq<Item>) returns (ls: seq<Label>)
    requires h == Relay.Log([2, 1], 2, 1, 0)
    requires LeadsTo(start, Waiting(Two(First(false, 1), Second(true), Some(ONLY_FIRST.(reached := 2)), h, ONCE2), q, {USER}))
    ensures LeadsTo(ls, Waiting(Two(First(true, 1), Second(true), None, h, ONCE2), q, {USER}))
  {
    FirstMarked();
    SecondDrainCommits();
    TwoRows(First(true, 1), Second(true), None, h, ONCE2);
    hide LeadsTo, Works, Two, OvertakenUsers;
    ls := Goes(start, Waiting(Two(First(false, 1), Second(true), Some(ONLY_FIRST.(reached := 2)), h, ONCE2), q, {USER}),
               Relay.Mark(0), Two(First(false, 1), Second(true), Some(Relay.Drain([1], 1, 0, {1}, {})), h, ONCE2), None);
    ls := Goes(ls, Waiting(Two(First(false, 1), Second(true), Some(Relay.Drain([1], 1, 0, {1}, {})), h, ONCE2), q, {USER}),
               Relay.Commit(0), Two(First(true, 1), Second(true), None, h, ONCE2), None);
    assert {USER} + {} == {USER};
  }

  /** A registration whose second target fails goes out again behind the update
      that overtook it: everything comes to rest with farms showing the old
      profile, though no message was lost and no handler failed. */
  lemma FailedFanOutLeavesStale() returns (ls: seq<Label>)
    ensures Valid(System(), Init, ls) && Only(ls, (l: Label) => !l.Drop?)
    ensures var s := Exec(System(), Init, ls);
      Quiet(s) && Newest(s.relay.rows, 2, USER) && Shows(s, USER, 1) && s.projection[USER].data == OLD
  {
    ls := FirstDrain();
    ls := SecondDrain(ls);
    var before := Waiting(Two(First(true, 1), Second(true), None, Relay.Log([2, 1], 2, 1, 0), ONCE2),
                          [OLD_ITEM, NEW_ITEM, OLD_ITEM], {USER});
    StaleState(before);
    assert Valid(System(), Init, ls) && Only(ls, (l: Label) => !l.Drop?) && Exec(System(), Init, ls) == before;
    hide Valid, Exec, System, Enabled, Next, Two, Quiet, Newest, Shows, Upserts, Waiting, LeadsTo, Only;
    ls := ConsumeAll(ls);
  }

  lemma StaleState(before: State)
    requires before == Waiting(Two(First(true, 1), Second(true), None, Relay.Log([2, 1], 2, 1, 0), ONCE2),
                               [OLD_ITEM, NEW_ITEM, OLD_ITEM], {USER})
    ensures before.inflight.None? && !before.upserted
    ensures var s := before.(queue := [], projection := Upserts(before.projection, before.queue));
      Quiet(s) && Newest(s.relay.rows, 2, USER) && Shows(s, USER, 1) && s.projection[USER].data == OLD
  {
    assert Strip(OLD) == OLD && Strip(NEW) == NEW;
    var none: map<User, Item> := map[];
    var q := [OLD_ITEM, NEW_ITEM, OLD_ITEM];
    assert q[1..] == [NEW_ITEM, OLD_ITEM] && [NEW_ITEM, OLD_ITEM][1..] == [OLD_ITEM] && [OLD_ITEM][1..] == [];
    var p1, p2, p3 := none[USER := OLD_ITEM], none[USER := OLD_ITEM][USER := NEW_ITEM], none[USER := OLD_ITEM][USER := NEW_ITEM][USER := OLD_ITEM];
    assert Upserts(p3, []) == p3;
    assert Upserts(p2, [OLD_ITEM]) == p3;
    assert Upserts(p1, [NEW_ITEM, OLD_ITEM]) == Upserts(p2, [OLD_ITEM]);
    assert Upserts(none, q) == p3;
  }

  // ---- One failed handler --------------------------------------------------------

  /** Farms has no dead-letter queue, so a registration whose upsert fails is
      gone: nothing was overtaken and the user is missing from the projection. */
  lemma DroppedEventIsMissing() returns (ls: seq<Label>)
    ensures Valid(System(), Init, ls)
    ensures var s := Exec(System(), Init, ls);
      Quiet(s) && Newest(s.relay.rows, 1, USER) && USER !in s.overtaken && !Shows(s, USER, 1)
  {
    ls := OnePublished();
    hide Valid, Exec, System;
    var s := Exec(System(), Init, ls);
    var taken := s.(inflight := Some(OLD_ITEM), queue := []);
    assert [OLD_ITEM][1..] == [];
    ls := Step(ls, Take, taken);
    ls := Step(ls, Drop, taken.(inflight := None, dropped := s.dropped + {USER}));
    assert Strip(OLD) == OLD;
  }

  function One(a: Relay.Row, drain: Option<Relay.Drain>, g: Relay.Log): Relay.State {
    Relay.State(map[1 := a], match drain case Some(d) => map[0 := d] case None => map[], map[1 := g])
  }

  lemma OneTaken()
    ensures Works(One(First(false, 0), None, ZERO1), Relay.Begin(0), One(First(false, 0), Some(ONLY_FIRST), ZERO1), None)
  {
    var s := One(First(false, 0), None, ZERO1);
    assert Relay.Candidates(s) == {1};
    Relay.SelectTakesSmallest({1});
    assert Relay.Select({1}) == [1];
  }

  lemma OneWorks()
    ensures Works(One(First(false, 0), Some(ONLY_FIRST), ZERO1), Relay.Send(0),
                  One(First(false, 0), Some(ONLY_FIRST.(reached := 1)), HALF1), Some(OLD_ITEM))
  {
    assert Strip(OLD) == OLD;
    assert Relay.Tried(Relay.Delivered(ZERO1, 0), 0) == HALF1;
  }

  lemma OneWorksOn()
    ensures Works(One(First(false, 0), Some(ONLY_FIRST.(reached := 1)), HALF1), Relay.Send(0),
                  One(First(false, 0), Some(ONLY_FIRST.(reached := 2)), Relay.Log([1, 1], 1, 0, 0)), None)
  {
    assert Relay.Tried(Relay.Delivered(HALF1, 1), 1) == Relay.Log([1, 1], 1, 0, 0);
  }

  lemma OneEnds()
    ensures var h := Relay.Log([1, 1], 1, 0, 0);
      && Works(One(First(false, 0), Some(ONLY_FIRST.(reached := 2)), h), Relay.Mark(0),
               One(First(false, 0), Some(Relay.Drain([1], 1, 0, {1}, {})), h), None)
      && Works(One(First(false, 0), Some(Relay.Drain([1], 1, 0, {1}, {})), h), Relay.Commit(0),
               One(First(true, 0), None, h), None)
      && OvertakenUsers(One(First(true, 0), None, h).rows) == {}
  {
    var none: set<Id> := {};
    assert none + {1} == {1};
    var rows: map<Id, Relay.Row> := map[1 := First(false, 0)];
    assert Relay.Updated(rows, {1}, {}) == map[1 := First(true, 0)];
    var drains: map<Relay.Replica, Relay.Drain> := map[0 := Relay.Drain([1], 1, 0, {1}, {})];
    assert drains - {0} == map[];
  }

  lemma OnePublished() returns (ls: seq<Label>)
    ensures LeadsTo(ls, Waiting(One(First(true, 0), None, Relay.Log([1, 1], 1, 0, 0)), [OLD_ITEM], {}))
  {
    var none: seq<Label> := [];
    assert Valid(System(), Init, none) && Exec(System(), Init, none) == Init;
    Registers();
    OneTaken();
    OneWorks();
    OneWorksOn();
    ls := Step(none, Event(1, "user.created", OLD, NO_TRACE), Waiting(One(First(false, 0), None, ZERO1), [], {}));
    hide Works, OvertakenUsers, LeadsTo, One;
    ls := Goes(ls, Waiting(One(First(false, 0), None, ZERO1), [], {}), Relay.Begin(0), One(First(false, 0), Some(ONLY_FIRST), ZERO1), None);
    ls := Goes(ls, Waiting(One(First(false, 0), Some(ONLY_FIRST), ZERO1), [], {}), Relay.Send(0),
               One(First(false, 0), Some(ONLY_FIRST.(reached := 1)), HALF1), Some(OLD_ITEM));
    ls := Goes(ls, Waiting(One(First(false, 0), Some(ONLY_FIRST.(reached := 1)), HALF1), [OLD_ITEM], {}), Relay.Send(0),
               One(First(false, 0), Some(ONLY_FIRST.(reached := 2)), Relay.Log([1, 1], 1, 0, 0)), None);
    ls := OneCommitted(ls, Relay.Log([1, 1], 1, 0, 0));
  }

  lemma OneCommitted(start: seq<Label>, h: Relay.Log) returns (ls: seq<Label>)
    requires h == Relay.Log([1, 1], 1, 0, 0)
    requires LeadsTo(start, Waiting(One(First(false, 0), Some(ONLY_FIRST.(reached := 2)), h), [OLD_ITEM], {}))
    ensures LeadsTo(ls, Waiting(One(First(true, 0), None, h), [OLD_ITEM], {}))
  {
    OneEnds();
    var none: set<User> := {};
    assert none + {} == none;
    hide Works, OvertakenUsers, LeadsTo, One;
    ls := Goes(start, Waiting(One(First(false, 0), Some(ONLY_FIRST.(reached := 2)), h), [OLD_ITEM], {}), Relay.Mark(0),
               One(First(false, 0), Some(Relay.Drain([1], 1, 0, {1}, {})), h), None);
    ls := Goes(ls, Waiting(One(First(false, 0), Some(Relay.Drain([1], 1, 0, {1}, {})), h), [OLD_ITEM], {}), Relay.Commit(0),
               One(First(true, 0), None, h), None);
  }
}
