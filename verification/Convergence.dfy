/** When farms' user projection converges to auth's newest events, and when an
    overtaken row leaves it stale for good. */
module Convergence {
  import opened Prelude
  import opened Envelope
  import opened Runs
  import opened Projection
  import Relay

  // ---- Shape and provenance --------------------------------------------------

  /** One replica drains, and what the consumer upserted is in the projection. */
  ghost predicate Shape(s: State) {
    && Relay.LocksInv(ROUTES, s.relay)
    && s.relay.drains.Keys <= {0}
    && (forall id :: id in s.relay.rows && IsUserPattern(s.relay.rows[id].pattern) ==> RowUser(s.relay.rows[id]).Some?)
    && (s.upserted && s.inflight.Some? ==>
          s.inflight.value.user in s.projection && s.projection[s.inflight.value.user] == s.inflight.value)
  }

  /** The item is what its row announces. */
  ghost predicate Genuine(rows: map<Id, Relay.Row>, item: Item) {
    && item.row in rows
    && RowUser(rows[item.row]) == Some(item.user)
    && item.data == Strip(rows[item.row].payload)
  }

  ghost predicate AllGenuine(s: State) {
    && (forall x :: x in s.queue ==> Genuine(s.relay.rows, x))
    && (s.inflight.Some? ==> Genuine(s.relay.rows, s.inflight.value))
    && (forall u :: u in s.projection ==> Genuine(s.relay.rows, s.projection[u]) && s.projection[u].user == u)
  }

  /** Something arrives exactly when the first target of a user row is reached,
      and it is that row's event. */
  lemma ArrivedIsCurrent(s: State, r: Relay.Label)
    requires Shape(s) && Enabled(s, RelayStep(r))
    ensures Arrived(s, r).Some? ==>
              Relay.WorkLabel(r) && Arrived(s, r).value.row == Relay.Current(s.relay, 0) && Genuine(s.relay.rows, Arrived(s, r).value)
    ensures r.Send? && s.relay.drains[0].reached == 0 && RowUser(s.relay.rows[Relay.Current(s.relay, 0)]).Some? ==>
              Arrived(s, r).Some?
  {
  }

  lemma RelayedFields(s: State, r: Relay.Label)
    requires Enabled(s, RelayStep(r))
    ensures var s', a := Next(s, RelayStep(r)), Arrived(s, r);
      && s'.relay == Relay.Next(ROUTES, s.relay, r)
      && s'.queue == (if a.Some? then s.queue + [a.value] else s.queue)
      && s'.inflight == s.inflight && s'.upserted == s.upserted && s'.projection == s.projection
      && s'.overtaken == (if r.Commit? then s.overtaken + OvertakenUsers(s'.relay.rows) else s.overtaken)
      && s'.dropped == s.dropped
  {
  }

  lemma GenuineKept(s: State, l: Label, x: Item)
    requires Shape(s) && Enabled(s, l) && Genuine(s.relay.rows, x)
    ensures Genuine(Next(s, l).relay.rows, x)
  {
  }

  lemma ShapeStep(s: State, l: Label)
    requires Shape(s) && Enabled(s, l)
    ensures Shape(Next(s, l))
  {
    match l
    case Event(id, pattern, data, carrier) =>
      RoundTripIffKeyUnused(data, carrier);
      Relay.LocksStep(ROUTES, s.relay, Relay.Insert(id, pattern, Wrap(data, carrier)));
    case RelayStep(r) =>
      RelayedFields(s, r);
      Relay.LocksStep(ROUTES, s.relay, r);
    case _ =>
  }

  lemma AllGenuineStep(s: State, l: Label)
    requires Shape(s) && AllGenuine(s) && Enabled(s, l)
    ensures AllGenuine(Next(s, l))
  {
    hide Genuine;
    forall x | Genuine(s.relay.rows, x) ensures Genuine(Next(s, l).relay.rows, x) { GenuineKept(s, l, x); }
    if l.RelayStep? {
      RelayedFields(s, l.r);
      ArrivedIsCurrent(s, l.r);
    }
  }

  // ---- What the projection will show -----------------------------------------

  /** The running drain has sent the row and may yet commit it. */
  ghost predicate SentNow(rs: Relay.State, id: Id) {
    && 0 in rs.drains
    && (id in rs.drains[0].marked
        || (Relay.Working(rs, 0) && Relay.Current(rs, 0) == id && rs.drains[0].reached > 0))
  }

  ghost predicate PendingOf(rs: Relay.State, id: Id, u: User) {
    id in rs.rows && RowUser(rs.rows[id]) == Some(u) && !rs.rows[id].published
  }

  /** A row of `u` is still to be sent by a drain that can commit it. */
  ghost predicate Owed(rs: Relay.State, u: User) {
    exists id :: PendingOf(rs, id, u) && !SentNow(rs, id)
  }

  /** Where user `u` stands; the outcome matters only if no event of theirs was
      dropped. */
  ghost predicate Settled(s: State, u: User, m: Id)
    requires Newest(s.relay.rows, m, u)
  {
    && (s.relay.rows[m].published && u !in s.overtaken ==> forall id :: !PendingOf(s.relay, id, u))
    && (u in s.overtaken ==> s.relay.rows[m].published)
    && (u !in s.dropped ==> Heading(s, u, m))
  }

  ghost predicate Heading(s: State, u: User, m: Id)
    requires Newest(s.relay.rows, m, u)
  {
    && (SentNow(s.relay, m) ==> Eventual(s, u) == Some(m))
    && (s.relay.rows[m].published && u !in s.overtaken ==> Eventual(s, u) == Some(m))
    && (u in s.overtaken ==> Eventual(s, u) != Some(m) || Owed(s.relay, u))
  }

  ghost predicate Inv(s: State) {
    && Shape(s) && AllGenuine(s)
    && (forall u, m :: Newest(s.relay.rows, m, u) ==> Settled(s, u, m))
  }

  /** An arrival decides the outcome for its user and for nobody else. */
  lemma EventualRelayed(s: State, r: Relay.Label, u: User)
    requires Shape(s) && Enabled(s, RelayStep(r))
    ensures var a := Arrived(s, r);
      Eventual(Next(s, RelayStep(r)), u) == if a.Some? && a.value.user == u then Some(a.value.row) else Eventual(s, u)
  {
    hide Relay.Next, Relay.Enabled, Relay.Emitted, Arrived, Shape;
    var s' := Next(s, RelayStep(r));
    RelayedFields(s, r);
    hide Next;
    if Arrived(s, r).Some? {
      assert Pipe(s') == Pipe(s) + [Arrived(s, r).value];
      LastOfAppend(Pipe(s), Arrived(s, r).value, u);
    } else {
      assert Pipe(s') == Pipe(s);
    }
  }

  /** What a step on the current row does to who has been sent. */
  lemma SentNowWork(s: State, r: Relay.Label, id: Id)
    requires Shape(s) && Enabled(s, RelayStep(r)) && Relay.WorkLabel(r)
    ensures var rs, rs' := s.relay, Relay.Next(ROUTES, s.relay, r);
      && rs'.rows == rs.rows
      && (SentNow(rs', id) ==> SentNow(rs, id) || (r.Send? && id == Relay.Current(rs, 0)))
      && (SentNow(rs', id) && id == Relay.Current(rs, 0) && !SentNow(rs, id) ==> r.Send? && rs.drains[0].reached == 0)
  {
    var rs := s.relay;
    assert Relay.DrainOk(ROUTES, rs, 0);
    Relay.PositionNotBefore(rs.drains[0].batch, rs.drains[0].pos);
  }

  /** Nothing sent in this drain is newer than the row being sent. */
  lemma SentNotAfter(s: State, id: Id)
    requires Shape(s) && Relay.Working(s.relay, 0) && SentNow(s.relay, id)
    ensures id <= Relay.Current(s.relay, 0) && id in s.relay.rows
  {
    var rs := s.relay;
    assert Relay.DrainOk(ROUTES, rs, 0);
    if id in rs.drains[0].marked {
      var i :| 0 <= i < rs.drains[0].pos && rs.drains[0].batch[i] == id;
    }
  }

  lemma CurrentPending(s: State)
    requires Shape(s) && Relay.Working(s.relay, 0)
    ensures !s.relay.rows[Relay.Current(s.relay, 0)].published
  {
    assert Relay.DrainOk(ROUTES, s.relay, 0);
  }

  lemma WorkSettles(s: State, r: Relay.Label, u: User, m: Id)
    requires Shape(s) && Enabled(s, RelayStep(r)) && Relay.WorkLabel(r)
    requires Newest(s.relay.rows, m, u) && Settled(s, u, m)
    ensures Newest(Next(s, RelayStep(r)).relay.rows, m, u) && Settled(Next(s, RelayStep(r)), u, m)
  {
    var s', a, cur := Next(s, RelayStep(r)), Arrived(s, r), Relay.Current(s.relay, 0);
    RelayedFields(s, r);
    EventualRelayed(s, r, u);
    ArrivedIsCurrent(s, r);
    SentNowWork(s, r, m);
    CurrentPending(s);
    if SentNow(s.relay, m) { SentNotAfter(s, m); }
    hide Relay.Next, Relay.Enabled, SentNow, Eventual, Relay.LocksInv, Next;
    if a.Some? && a.value.user == u { assert PendingOf(s.relay, cur, u); }
    assert forall id :: PendingOf(s'.relay, id, u) ==> PendingOf(s.relay, id, u);
    if u in s.overtaken && u !in s.dropped && Eventual(s, u) == Some(m) && !(a.Some? && a.value.user == u) {
      var id :| PendingOf(s.relay, id, u) && !SentNow(s.relay, id);
      SentNowWork(s, r, id);
      assert PendingOf(s'.relay, id, u) && !SentNow(s'.relay, id);
    }
  }

  lemma CommitFacts(s: State, r: Relay.Label, id: Id)
    requires Shape(s) && Enabled(s, RelayStep(r)) && (r.Commit? || r.Rollback? || r.Begin?)
    ensures var rs, rs' := s.relay, Relay.Next(ROUTES, s.relay, r);
      && rs'.rows.Keys == rs.rows.Keys && !SentNow(rs', id)
      && (id in rs.rows ==>
            && RowUser(rs'.rows[id]) == RowUser(rs.rows[id])
            && (rs'.rows[id].published <==> rs.rows[id].published || (r.Commit? && SentNow(rs, id))))
  {
    if r.Commit? { assert Relay.DrainOk(ROUTES, s.relay, 0); }
  }

  lemma OvertakenIff(rows: map<Id, Relay.Row>, u: User)
    ensures u in OvertakenUsers(rows) <==> Overtaken(rows, u)
  {
    if Overtaken(rows, u) {
      var m :| Newest(rows, m, u) && rows[m].published;
      assert RowUser(rows[m]) == Some(u);
    }
  }

  lemma EndSettles(s: State, r: Relay.Label, u: User, m: Id)
    requires Shape(s) && Enabled(s, RelayStep(r)) && (r.Commit? || r.Rollback? || r.Begin?)
    requires Newest(s.relay.rows, m, u) && Settled(s, u, m)
    ensures Newest(Next(s, RelayStep(r)).relay.rows, m, u) && Settled(Next(s, RelayStep(r)), u, m)
  {
    var s' := Next(s, RelayStep(r));
    RelayedFields(s, r);
    EventualRelayed(s, r, u);
    assert Arrived(s, r).None?;
    forall id
      ensures s'.relay.rows.Keys == s.relay.rows.Keys && !SentNow(s'.relay, id)
      ensures id in s.relay.rows ==>
                && RowUser(s'.relay.rows[id]) == RowUser(s.relay.rows[id])
                && (s'.relay.rows[id].published <==> s.relay.rows[id].published || (r.Commit? && SentNow(s.relay, id)))
    {
      CommitFacts(s, r, id);
    }
    OvertakenIff(s'.relay.rows, u);
    hide Relay.Next, Relay.Enabled, SentNow, Eventual, Relay.LocksInv, Next, OvertakenUsers;
    assert Newest(s'.relay.rows, m, u);
    if u in s'.overtaken {
      if u in s.overtaken {
        if u !in s.dropped && Eventual(s, u) == Some(m) {
          var id :| PendingOf(s.relay, id, u) && !SentNow(s.relay, id);
          assert PendingOf(s'.relay, id, u) && !SentNow(s'.relay, id);
        }
      } else {
        var id :| id in s'.relay.rows && RowUser(s'.relay.rows[id]) == Some(u) && !s'.relay.rows[id].published;
        assert PendingOf(s'.relay, id, u) && !SentNow(s'.relay, id);
      }
    } else {
      assert r.Commit? && s'.relay.rows[m].published ==> !Overtaken(s'.relay.rows, u);
      forall id | s'.relay.rows[m].published ensures !PendingOf(s'.relay, id, u) {
        assert PendingOf(s'.relay, id, u) ==> PendingOf(s.relay, id, u);
      }
    }
  }

  /** A new event is its user's newest row, pending and not yet sent; the other
      users' rows are as before. */
  lemma EventSettles(s: State, l: Label, u: User, m: Id)
    requires Inv(s) && Enabled(s, l) && l.Event?
    requires Newest(Next(s, l).relay.rows, m, u)
    ensures Settled(Next(s, l), u, m)
  {
    var s' := Next(s, l);
    RoundTripIffKeyUnused(l.data, l.carrier);
    assert Pipe(s') == Pipe(s) && Eventual(s', u) == Eventual(s, u);
    EventSent(s, l);
    if RowUser(s'.relay.rows[l.id]) == Some(u) {
      assert m == l.id;
    } else {
      assert forall id :: id in s.relay.rows ==> s'.relay.rows[id] == s.relay.rows[id];
      assert Newest(s.relay.rows, m, u);
      assert Settled(s, u, m);
      hide SentNow, Eventual, Relay.LocksInv;
      assert forall id :: PendingOf(s'.relay, id, u) <==> PendingOf(s.relay, id, u);
      if u in s'.overtaken && u !in s.dropped && Eventual(s, u) == Some(m) {
        var id :| PendingOf(s.relay, id, u) && !SentNow(s.relay, id);
        assert PendingOf(s'.relay, id, u) && !SentNow(s'.relay, id);
      }
    }
  }

  lemma EventSent(s: State, l: Label)
    requires Shape(s) && Enabled(s, l) && l.Event?
    ensures !SentNow(Next(s, l).relay, l.id)
    ensures forall id :: SentNow(Next(s, l).relay, id) <==> SentNow(s.relay, id)
  {
    var rs, rs' := s.relay, Next(s, l).relay;
    assert rs'.drains == rs.drains && l.id !in rs.rows;
    if 0 in rs.drains {
      assert Relay.DrainOk(ROUTES, rs, 0);
      assert forall id :: id in rs.drains[0].marked ==> id in rs.drains[0].batch;
      assert Relay.Working(rs', 0) <==> Relay.Working(rs, 0);
    }
  }

  lemma InvStep(s: State, l: Label)
    requires Inv(s) && Enabled(s, l)
    ensures Inv(Next(s, l))
  {
    ShapeStep(s, l);
    AllGenuineStep(s, l);
    var s' := Next(s, l);
    forall u, m | Newest(s'.relay.rows, m, u) ensures Settled(s', u, m) {
      SettledStep(s, l, u, m);
    }
  }

  lemma SettledStep(s: State, l: Label, u: User, m: Id)
    requires Inv(s) && Enabled(s, l)
    requires Newest(Next(s, l).relay.rows, m, u)
    ensures Settled(Next(s, l), u, m)
  {
    if l.Event? {
      EventSettles(s, l, u, m);
    } else {
      SameNewest(s, l, u, m);
      assert Settled(s, u, m);
      if l.RelayStep? {
        if Relay.WorkLabel(l.r) { WorkSettles(s, l.r, u, m); } else { EndSettles(s, l.r, u, m); }
      } else {
        ConsumerSettles(s, l, u, m);
      }
    }
  }

  lemma ConsumerSettles(s: State, l: Label, u: User, m: Id)
    requires Shape(s) && Enabled(s, l) && !l.Event? && !l.RelayStep?
    requires Newest(s.relay.rows, m, u) && Settled(s, u, m)
    ensures Newest(Next(s, l).relay.rows, m, u) && Settled(Next(s, l), u, m)
  {
    if !(l.Drop? && s.inflight.value.user == u) { ConsumerKeepsEventual(s, l, u); }
    hide Eventual, SentNow, Relay.LocksInv;
  }

  lemma SameNewest(s: State, l: Label, u: User, m: Id)
    requires Shape(s) && Enabled(s, l) && !l.Event?
    ensures Newest(Next(s, l).relay.rows, m, u) <==> Newest(s.relay.rows, m, u)
  {
    if l.RelayStep? {
      RelayedFields(s, l.r);
      var rows, rows' := s.relay.rows, Next(s, l).relay.rows;
      assert rows'.Keys == rows.Keys;
      assert forall id :: id in rows ==> RowUser(rows'[id]) == RowUser(rows[id]);
    }
  }

  lemma InvRun(ls: seq<Label>)
    requires Valid(System(), Init, ls)
    ensures Inv(Exec(System(), Init, ls))
  {
    assert Inv(Init);
    forall s: State, l: Label | Inv(s) && Enabled(s, l) ensures Inv(Next(s, l)) { InvStep(s, l); }
    Invariant(System(), (s: State) => Inv(s), _ => true, Init, ls);
  }

  /** Outbox and queue are empty and nothing is being handled. */
  ghost predicate Quiet(s: State) {
    && (forall id :: id in s.relay.rows ==> s.relay.rows[id].published)
    && s.queue == [] && s.inflight.None?
  }

  /** The projection of `u` is what the row announces. */
  ghost predicate Shows(s: State, u: User, m: Id) {
    && u in s.projection && m in s.relay.rows
    && s.projection[u] == Item(m, u, Strip(s.relay.rows[m].payload))
  }

  /** Every run that comes to rest leaves the projection of a user none of whose
      events was dropped equal to their newest event exactly when no drain
      published that event ahead of an older one. Crashed drains, lost commits,
      duplicate sends, consumer crashes and other users' failures do not
      matter. */
  lemma ConvergesIffNotOvertaken(ls: seq<Label>, u: User, m: Id)
    requires Valid(System(), Init, ls)
    requires var s := Exec(System(), Init, ls); Quiet(s) && Newest(s.relay.rows, m, u) && u !in s.dropped
    ensures Shows(Exec(System(), Init, ls), u, m) <==> u !in Exec(System(), Init, ls).overtaken
  {
    InvRun(ls);
    RestShows(Exec(System(), Init, ls), u, m);
  }

  lemma RestShows(s: State, u: User, m: Id)
    requires Inv(s) && Quiet(s) && Newest(s.relay.rows, m, u) && u !in s.dropped
    ensures Shows(s, u, m) <==> u !in s.overtaken
  {
    assert Settled(s, u, m);
    assert Pipe(s) == [] && LastOf(Pipe(s), u).None?;
    assert forall id :: !PendingOf(s.relay, id, u);
    assert Shows(s, u, m) <==> Eventual(s, u) == Some(m);
  }

  // ---- How a row is overtaken --------------------------------------------------

  /** The running drain took every pending row below its last one, and each row
      it is past was marked or bumped if it had a route. */
  ghost predicate BatchOk(rs: Relay.State) {
    0 in rs.drains ==>
      var d := rs.drains[0];
      && d.pos <= |d.batch|
      && (forall x, y :: x in d.batch && y in rs.rows && !rs.rows[y].published && y < x ==> y in d.batch)
      && (forall id :: id in d.batch[..d.pos] && id in rs.rows && RowUser(rs.rows[id]).Some? ==>
            id in d.marked || id in d.bumped)
  }

  lemma BatchOkStep(s: State, l: Label)
    requires Shape(s) && BatchOk(s.relay) && Enabled(s, l)
    ensures BatchOk(Next(s, l).relay)
  {
    match l
    case Event(id, _, _, _) =>
      if 0 in s.relay.drains { assert Relay.DrainOk(ROUTES, s.relay, 0); }
    case RelayStep(r) =>
      RelayedFields(s, r);
      if Relay.WorkLabel(r) { BatchOkWork(s, r); } else if r.Begin? { BatchOkBegin(s, r); }
    case _ =>
  }

  lemma BatchOkWork(s: State, r: Relay.Label)
    requires Shape(s) && BatchOk(s.relay) && Enabled(s, RelayStep(r)) && Relay.WorkLabel(r)
    ensures BatchOk(Relay.Next(ROUTES, s.relay, r))
  {
    assert Relay.DrainOk(ROUTES, s.relay, 0);
    DrainAdvances(s, r);
    hide Relay.Enabled, Relay.Next, Relay.LocksInv, Shape, RowUser;
  }

  /** The drain passes its current row, marked or bumped if it has a route. */
  lemma DrainAdvances(s: State, r: Relay.Label)
    requires Shape(s) && Enabled(s, RelayStep(r)) && Relay.WorkLabel(r)
    ensures var d, rs' := s.relay.drains[0], Relay.Next(ROUTES, s.relay, r);
      && 0 in rs'.drains && rs'.rows == s.relay.rows
      && var d' := rs'.drains[0];
      && d'.batch == d.batch && d.pos < |d.batch| && d.marked <= d'.marked && d.bumped <= d'.bumped
      && (d'.pos == d.pos
          || (d'.pos == d.pos + 1 && d.batch[..d.pos + 1] == d.batch[..d.pos] + [d.batch[d.pos]]
              && (d.batch[d.pos] in s.relay.rows && RowUser(s.relay.rows[d.batch[d.pos]]).Some? ==>
                    d.batch[d.pos] in d'.marked || d.batch[d.pos] in d'.bumped)))
  {
    Relay.PositionNotBefore(s.relay.drains[0].batch, s.relay.drains[0].pos);
    hide Relay.LocksInv, Relay.NextLog;
  }

  lemma BatchOkBegin(s: State, r: Relay.Label)
    requires Shape(s) && Enabled(s, RelayStep(r)) && r.Begin?
    ensures BatchOk(Relay.Next(ROUTES, s.relay, r))
  {
    assert s.relay.drains.Keys == {};
    assert forall id :: !Relay.Locked(s.relay, id);
    Relay.SelectTakesSmallest(Relay.Candidates(s.relay));
  }

  /** The step commits a drain that published the user's newest event and gave
      up on an older one. */
  ghost predicate FailedBehindNewer(s: State, l: Label, u: User) {
    && l.RelayStep? && l.r.Commit? && 0 in s.relay.drains
    && exists m, older ::
       && Newest(s.relay.rows, m, u) && PendingOf(s.relay, older, u) && older < m
       && m in s.relay.drains[0].marked && older in s.relay.drains[0].bumped
  }

  lemma OvertakenCause(s: State, l: Label, u: User)
    requires Inv(s) && BatchOk(s.relay) && Enabled(s, l) && u !in s.overtaken && u in Next(s, l).overtaken
    ensures FailedBehindNewer(s, l, u)
  {
    OnlyCommitsOvertake(s, l, u);
    hide Relay.Next, Relay.Enabled, Eventual, Heading, Relay.LocksInv, Next, OvertakenUsers, SentNow, AllGenuine, RowUser;
    var rows' := Next(s, l).relay.rows;
    var m :| Newest(rows', m, u) && rows'[m].published;
    var older :| older in rows' && RowUser(rows'[older]) == Some(u) && !rows'[older].published;
    RelayedFields(s, l.r);
    SameNewest(s, l, u, m);
    CommitFacts(s, l.r, m);
    CommitFacts(s, l.r, older);
    CommittedBatch(s, l.r);
    hide Shape, BatchOk, Enabled;
    assert Settled(s, u, m);
    CauseFacts(s, u, m, older);
  }

  lemma CauseFacts(s: State, u: User, m: Id, older: Id)
    requires 0 in s.relay.drains && Newest(s.relay.rows, m, u) && Settled(s, u, m) && u !in s.overtaken
    requires s.relay.rows[m].published || SentNow(s.relay, m)
    requires PendingOf(s.relay, older, u) && !SentNow(s.relay, older)
    requires SentBatch(s.relay)
    ensures m in s.relay.drains[0].marked && older in s.relay.drains[0].bumped && older < m
  {
    hide SentNow, Heading, RowUser;
  }

  lemma OnlyCommitsOvertake(s: State, l: Label, u: User)
    requires Enabled(s, l) && u !in s.overtaken && u in Next(s, l).overtaken
    ensures l.RelayStep? && l.r.Commit? && 0 in s.relay.drains && Overtaken(Next(s, l).relay.rows, u)
  {
    hide Relay.Next, Overtaken, OvertakenUsers;
    if l.RelayStep? && l.r.Commit? {
      RelayedFields(s, l.r);
      OvertakenIff(Next(s, l).relay.rows, u);
    }
  }

  /** A drain past its whole batch has sent what it marked and marked or bumped
      every user row of it, and no older row was left out. */
  ghost predicate SentBatch(rs: Relay.State)
    requires 0 in rs.drains
  {
    var d := rs.drains[0];
    && (forall id :: SentNow(rs, id) <==> id in d.marked)
    && (forall id :: id in d.marked ==> id in d.batch)
    && (forall x, y :: x in d.batch && y in rs.rows && !rs.rows[y].published && y < x ==> y in d.batch)
    && (forall id :: id in d.batch && id in rs.rows && RowUser(rs.rows[id]).Some? ==> id in d.marked || id in d.bumped)
  }

  lemma CommittedBatch(s: State, r: Relay.Label)
    requires Shape(s) && BatchOk(s.relay) && Enabled(s, RelayStep(r)) && r.Commit?
    ensures SentBatch(s.relay)
  {
    var d := s.relay.drains[0];
    assert Relay.DrainOk(ROUTES, s.relay, 0);
    assert d.batch[..d.pos] == d.batch;
  }

  /** In every run a user becomes overtaken only when a drain commits their
      newest event together with the failed publish of an older one. */
  lemma OvertakenOnlyByFailedPublish(ls: seq<Label>, l: Label, u: User)
    requires Valid(System(), Init, ls)
    requires var s := Exec(System(), Init, ls); Enabled(s, l) && u !in s.overtaken && u in Next(s, l).overtaken
    ensures FailedBehindNewer(Exec(System(), Init, ls), l, u)
  {
    hide Valid, Exec, System, Only, Enabled, Next, Inv, BatchOk, FailedBehindNewer;
    BatchOkRun(ls);
    OvertakenCause(Exec(System(), Init, ls), l, u);
  }

  lemma BatchOkRun(ls: seq<Label>)
    requires Valid(System(), Init, ls)
    ensures Inv(Exec(System(), Init, ls)) && BatchOk(Exec(System(), Init, ls).relay)
  {
    assert Inv(Init) && BatchOk(Init.relay);
    forall s: State, l: Label | Inv(s) && BatchOk(s.relay) && Enabled(s, l)
      ensures Inv(Next(s, l)) && BatchOk(Next(s, l).relay)
    {
      InvStep(s, l);
      assert Shape(s);
      BatchOkStep(s, l);
    }
    hide BatchOk, Enabled, Next, Inv;
    Invariant(System(), (s: State) => Inv(s) && BatchOk(s.relay), _ => true, Init, ls);
  }

  ghost predicate NeverFails(s: State) {
    && Inv(s) && BatchOk(s.relay) && s.overtaken == {}
    && (0 in s.relay.drains ==> s.relay.drains[0].bumped == {})
  }

  /** When no publish fails, the projection converges for every user none of
      whose events was dropped, however often drains and consumers crash and
      replay. */
  lemma ConvergesWithoutFailures(ls: seq<Label>)
    requires Valid(System(), Init, ls)
    requires Only(ls, (l: Label) => !(l.RelayStep? && l.r.Fail?))
    requires Quiet(Exec(System(), Init, ls))
    ensures var s := Exec(System(), Init, ls);
      forall u, m :: Newest(s.relay.rows, m, u) && u !in s.dropped ==> Shows(s, u, m)
  {
    var ok := (l: Label) => !(l.RelayStep? && l.r.Fail?);
    forall s: State, l: Label | NeverFails(s) && ok(l) && Enabled(s, l) ensures NeverFails(Next(s, l)) {
      NeverFailsStep(s, l);
    }
    assert NeverFails(Init);
    Invariant(System(), (s: State) => NeverFails(s), ok, Init, ls);
    var s := Exec(System(), Init, ls);
    forall u, m | Newest(s.relay.rows, m, u) && u !in s.dropped ensures Shows(s, u, m) {
      ConvergesIffNotOvertaken(ls, u, m);
    }
  }

  lemma NeverFailsStep(s: State, l: Label)
    requires NeverFails(s) && Enabled(s, l) && !(l.RelayStep? && l.r.Fail?)
    ensures NeverFails(Next(s, l))
  {
    InvStep(s, l);
    BatchOkStep(s, l);
    var s' := Next(s, l);
    forall u ensures u !in s'.overtaken {
      if u in s'.overtaken { OvertakenCause(s, l, u); }
    }
    assert s'.overtaken == {};
  }
}
