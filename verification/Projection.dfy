/** The auth-to-farms pipeline: auth's outbox drained by one relay replica, the
    farms queue consumed in order by one consumer, and the `user_projection`
    read model it upserts into. Drains and the consumer may crash anywhere. */
module Projection {
  import opened Prelude
  import opened Envelope
  import opened Runs
  import Relay

  type Id = Relay.Id
  type User = int

  /** Auth's routing table. */
  const ROUTES := Relay.Table(map[
    "user.created" := ["farms", "notifications"],
    "user.updated" := ["farms"],
    "user.password_reset_requested" := ["notifications"]])

  predicate IsUserPattern(pattern: string) {
    pattern == "user.created" || pattern == "user.updated"
  }

  function UserId(data: Payload): Option<User> {
    if "id" in data && data["id"].JNum? then Some(data["id"].num) else None
  }

  /** The user whose profile the row announces to farms, if it does. */
  function RowUser(row: Relay.Row): Option<User> {
    if IsUserPattern(row.pattern) then UserId(Strip(row.payload)) else None
  }

  /** A user event on its way to farms, and the outbox row it came from. */
  datatype Item = Item(row: Id, user: User, data: Payload)

  /** `overtaken` and `dropped` are history: users whose newest row was published
      by a drain that left an older row of theirs pending, and users one of whose
      events a failed handler dropped, as long as they had no event since. */
  datatype State = State(
    relay: Relay.State,
    queue: seq<Item>,
    inflight: Option<Item>,
    upserted: bool,
    projection: map<User, Item>,
    overtaken: set<User>,
    dropped: set<User>)

  datatype Label =
    | Event(id: Id, pattern: string, data: Payload, carrier: Carrier)
    | RelayStep(r: Relay.Label)
    | Take
    | Upsert
    | Ack
    | Crash
    | Drop

  const Init := State(Relay.Init, [], None, false, map[], {}, {})

  /** Requests to auth are handled one at a time, so rows commit in id order,
      and each user event carries the user's id. */
  ghost predicate Enabled(s: State, l: Label) {
    match l
    case Event(id, pattern, data, _) =>
      && (forall other :: other in s.relay.rows ==> other < id)
      && TRACE_CARRIER_KEY !in data
      && (IsUserPattern(pattern) ==> UserId(data).Some?)
    case RelayStep(r) => !r.Insert? && r.r == 0 && Relay.Enabled(ROUTES, s.relay, r)
    case Take => s.inflight.None? && s.queue != []
    case Upsert => s.inflight.Some? && !s.upserted
    case Ack => s.inflight.Some? && s.upserted
    case Crash => s.inflight.Some?
    case Drop => s.inflight.Some? && !s.upserted
  }

  /** The newest row of user `u`. */
  ghost predicate Newest(rows: map<Id, Relay.Row>, m: Id, u: User) {
    && m in rows && RowUser(rows[m]) == Some(u)
    && (forall id :: id in rows && RowUser(rows[id]) == Some(u) ==> id <= m)
  }

  /** The user's newest row is published while an older one is pending. */
  ghost predicate Overtaken(rows: map<Id, Relay.Row>, u: User) {
    && (exists m :: Newest(rows, m, u) && rows[m].published)
    && (exists r :: r in rows && RowUser(rows[r]) == Some(u) && !rows[r].published)
  }

  ghost function OvertakenUsers(rows: map<Id, Relay.Row>): set<User> {
    set id | id in rows && RowUser(rows[id]).Some? && Overtaken(rows, RowUser(rows[id]).value) :: RowUser(rows[id]).value
  }

  /** What the step put on the farms queue. */
  ghost function Arrived(s: State, r: Relay.Label): Option<Item>
    requires Relay.Enabled(ROUTES, s.relay, r)
  {
    var e := Relay.Emitted(ROUTES, s.relay, r);
    if e.Some? && e.value.target == "farms" && UserId(e.value.payload).Some?
    then Some(Item(e.value.row, UserId(e.value.payload).value, e.value.payload)) else None
  }

  ghost function Relayed(s: State, r: Relay.Label): State
    requires Relay.Enabled(ROUTES, s.relay, r)
  {
    var relay' := Relay.Next(ROUTES, s.relay, r);
    s.(relay := relay',
       queue := match Arrived(s, r) case Some(item) => s.queue + [item] case None => s.queue,
       overtaken := if r.Commit? then s.overtaken + OvertakenUsers(relay'.rows) else s.overtaken)
  }

  ghost function Next(s: State, l: Label): State
    requires Enabled(s, l)
  {
    match l
    case Event(id, pattern, data, carrier) =>
      s.(relay := Relay.Next(ROUTES, s.relay, Relay.Insert(id, pattern, Wrap(data, carrier))),
         overtaken := if IsUserPattern(pattern) then s.overtaken - {UserId(data).value} else s.overtaken,
         dropped := if IsUserPattern(pattern) then s.dropped - {UserId(data).value} else s.dropped)
    case RelayStep(r) => Relayed(s, r)
    case Take => s.(inflight := Some(s.queue[0]), queue := s.queue[1..], upserted := false)
    case Upsert => s.(projection := s.projection[s.inflight.value.user := s.inflight.value], upserted := true)
    case Ack => s.(inflight := None, upserted := false)
    case Crash => s.(inflight := None, upserted := false, queue := [s.inflight.value] + s.queue)
    case Drop => s.(inflight := None, dropped := s.dropped + {s.inflight.value.user})
  }

  ghost function System(): Machine<State, Label> {
    Machine((s, l) => Enabled(s, l), (s, l) => if Enabled(s, l) then Next(s, l) else s)
  }

  // ---- What the projection will show ---------------------------------------

  function Pipe(s: State): seq<Item> {
    (if s.inflight.Some? then [s.inflight.value] else []) + s.queue
  }

  function LastOf(q: seq<Item>, u: User): Option<Item> {
    if q == [] then None
    else if q[|q| - 1].user == u then Some(q[|q| - 1])
    else LastOf(q[..|q| - 1], u)
  }

  /** The row the projection of `u` will come from once the queue is consumed. */
  function Eventual(s: State, u: User): Option<Id> {
    match LastOf(Pipe(s), u)
    case Some(item) => Some(item.row)
    case None => if u in s.projection then Some(s.projection[u].row) else None
  }

  lemma LastOfAppend(q: seq<Item>, x: Item, u: User)
    ensures LastOf(q + [x], u) == if x.user == u then Some(x) else LastOf(q, u)
  {
    assert (q + [x])[..|q|] == q;
  }

  lemma {:induction false} LastOfPrepend(q: seq<Item>, x: Item, u: User)
    ensures LastOf([x] + q, u) == if LastOf(q, u).Some? then LastOf(q, u) else if x.user == u then Some(x) else None
  {
    if q == [] {
      assert [x] + q == [x] && [x][..0] == [];
    } else {
      var n := |q| - 1;
      assert ([x] + q)[..n + 1] == [x] + q[..n];
      LastOfPrepend(q[..n], x, u);
    }
  }

  /** Consuming, acking and crashing change nothing about the outcome, and a
      dropped event matters to its own user only. */
  lemma ConsumerKeepsEventual(s: State, l: Label, u: User)
    requires Enabled(s, l) && (l.Take? || l.Upsert? || l.Ack? || l.Crash? || (l.Drop? && s.inflight.value.user != u))
    requires s.upserted && s.inflight.Some? ==>
               s.inflight.value.user in s.projection && s.projection[s.inflight.value.user] == s.inflight.value
    ensures Eventual(Next(s, l), u) == Eventual(s, u)
  {
    var s' := Next(s, l);
    match l
    case Take => assert Pipe(s') == Pipe(s);
    case Upsert =>
      assert Pipe(s') == Pipe(s);
      LastOfPrepend(s.queue, s.inflight.value, u);
    case Ack =>
      LastOfPrepend(s.queue, s.inflight.value, u);
      assert Pipe(s') == s.queue;
    case Crash => assert Pipe(s') == Pipe(s);
    case Drop =>
      LastOfPrepend(s.queue, s.inflight.value, u);
      assert Pipe(s') == s.queue;
  }
}
