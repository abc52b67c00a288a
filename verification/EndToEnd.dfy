/** From a user's row in auth to the read model in farms: the accounts machine
    and the pipeline as one machine, joined at the outbox. */
module EndToEnd {
  import opened Prelude
  import opened Envelope
  import opened Runs
  import AuthUsers
  import Projection
  import Convergence
  import Relay

  datatype State = State(accounts: AuthUsers.State, pipeline: Projection.State)

  /** A step of auth, with the trace context of the request, or of the pipeline. */
  datatype Label = Auth(l: AuthUsers.Label, carrier: Carrier) | Pipe(p: Projection.Label)

  const Init := State(AuthUsers.Init, Projection.Init)

  /** One auth consumer; events come from its commits only. */
  ghost predicate Enabled(s: State, l: Label) {
    match l
    case Auth(a, _) => AuthUsers.Enabled(s.accounts, a) && AuthUsers.OneConsumer(a)
    case Pipe(p) => !p.Event? && Projection.Enabled(s.pipeline, p)
  }

  /** The outbox row a committing step writes. */
  ghost function Written(s: AuthUsers.State, l: AuthUsers.Label, carrier: Carrier): Projection.Label
    requires AuthUsers.Enabled(s, l) && AuthUsers.Commits(s, l)
  {
    var t := s.tasks[l.c];
    var e := AuthUsers.EventOf(t.op, t.phase.id, t.phase.row);
    Projection.Event(t.phase.event, e.pattern, e.data, carrier)
  }

  ghost function Next(s: State, l: Label): State
    requires Enabled(s, l)
  {
    match l
    case Pipe(p) => s.(pipeline := Projection.Next(s.pipeline, p))
    case Auth(a, carrier) =>
      var s' := s.(accounts := AuthUsers.Next(s.accounts, a));
      if AuthUsers.Commits(s.accounts, a) && Projection.Enabled(s.pipeline, Written(s.accounts, a, carrier))
      then s'.(pipeline := Projection.Next(s.pipeline, Written(s.accounts, a, carrier)))
      else s'
  }

  ghost function System(): Machine<State, Label> {
    Machine((s, l) => Enabled(s, l), (s, l) => if Enabled(s, l) then Next(s, l) else s)
  }

  // ---- One outbox ------------------------------------------------------------------

  /** The rows the relay drains are the events auth committed. */
  ghost predicate SameOutbox(outbox: map<nat, AuthUsers.OutEvent>, rows: map<Relay.Id, Relay.Row>) {
    && (forall e :: e in outbox <==> e in rows)
    && (forall id :: id in rows ==> id >= 0)
    && (forall e :: e in outbox && e in rows ==>
          rows[e].pattern == outbox[e].pattern && Strip(rows[e].payload) == outbox[e].data)
  }

  ghost predicate Inv(s: State) {
    AuthUsers.FullInv(s.accounts) && Convergence.Inv(s.pipeline) && SameOutbox(s.accounts.outbox, s.pipeline.relay.rows)
  }

  lemma EventsFit(op: AuthUsers.Op, id: int, row: AuthUsers.Entity)
    ensures var e := AuthUsers.EventOf(op, id, row);
      TRACE_CARRIER_KEY !in e.data && (Projection.IsUserPattern(e.pattern) ==> Projection.UserId(e.data).Some?)
  {
  }

  /** Every commit of auth reaches the outbox the relay drains. */
  lemma CommitWrites(s: State, l: AuthUsers.Label, carrier: Carrier)
    requires Inv(s) && Enabled(s, Auth(l, carrier)) && AuthUsers.Commits(s.accounts, l)
    ensures Projection.Enabled(s.pipeline, Written(s.accounts, l, carrier))
  {
    var t := s.accounts.tasks[l.c];
    EventsFit(t.op, t.phase.id, t.phase.row);
    assert forall e :: e in s.accounts.outbox ==> e < t.phase.event;
    hide AuthUsers.EventOf, AuthUsers.Inv, AuthUsers.Matching, Convergence.Inv;
    forall other | other in s.pipeline.relay.rows ensures other < t.phase.event {
      var e: nat := other;
      assert e in s.accounts.outbox;
    }
  }

  lemma CommitKeepsOutbox(s: State, l: AuthUsers.Label, carrier: Carrier)
    requires Inv(s) && Enabled(s, Auth(l, carrier)) && AuthUsers.Commits(s.accounts, l)
    ensures var s' := Next(s, Auth(l, carrier)); SameOutbox(s'.accounts.outbox, s'.pipeline.relay.rows)
  {
    CommitWrites(s, l, carrier);
    AuthUsers.StepAdds(s.accounts, l);
    hide AuthUsers.EventOf, AuthUsers.Next, AuthUsers.Enabled, AuthUsers.FullInv, Convergence.Inv, SameOutbox, Wrap, Strip;
    var t := s.accounts.tasks[l.c];
    var e := AuthUsers.EventOf(t.op, t.phase.id, t.phase.row);
    EventsFit(t.op, t.phase.id, t.phase.row);
    EventAddsRow(s.pipeline, t.phase.event, e, carrier);
    OutboxGrows(s.accounts.outbox, s.pipeline.relay.rows, t.phase.event, e, carrier);
  }

  lemma EventAddsRow(p: Projection.State, id: nat, e: AuthUsers.OutEvent, carrier: Carrier)
    requires Projection.Enabled(p, Projection.Event(id, e.pattern, e.data, carrier))
    ensures Projection.Next(p, Projection.Event(id, e.pattern, e.data, carrier)).relay.rows
         == p.relay.rows[id := Relay.Row(e.pattern, Wrap(e.data, carrier), false, 0)]
  {
  }

  lemma OutboxGrows(outbox: map<nat, AuthUsers.OutEvent>, rows: map<Relay.Id, Relay.Row>, id: nat, e: AuthUsers.OutEvent, carrier: Carrier)
    requires SameOutbox(outbox, rows) && TRACE_CARRIER_KEY !in e.data
    ensures SameOutbox(outbox[id := e], rows[id := Relay.Row(e.pattern, Wrap(e.data, carrier), false, 0)])
  {
    RoundTripIffKeyUnused(e.data, carrier);
    hide Wrap, Strip;
  }

  lemma PipeKeepsOutbox(s: State, p: Projection.Label)
    requires SameOutbox(s.accounts.outbox, s.pipeline.relay.rows) && !p.Event? && Projection.Enabled(s.pipeline, p)
    ensures SameOutbox(s.accounts.outbox, Projection.Next(s.pipeline, p).relay.rows)
  {
    if p.RelayStep? {
      var rows, rows' := s.pipeline.relay.rows, Projection.Next(s.pipeline, p).relay.rows;
      SameRows(s.pipeline.relay, p.r);
      assert rows'.Keys == rows.Keys;
      forall id | id in rows ensures rows'[id].pattern == rows[id].pattern && rows'[id].payload == rows[id].payload {
        Relay.RowsOnlyProgress(Projection.ROUTES, s.pipeline.relay, p.r, id);
      }
    }
  }

  lemma SameRows(s: Relay.State, r: Relay.Label)
    requires !r.Insert? && Relay.Enabled(Projection.ROUTES, s, r)
    ensures Relay.Next(Projection.ROUTES, s, r).rows.Keys == s.rows.Keys
  {
  }

  lemma InvStep(s: State, l: Label)
    requires Inv(s) && Enabled(s, l)
    ensures Inv(Next(s, l))
  {
    match l
    case Pipe(p) =>
      Convergence.InvStep(s.pipeline, p);
      PipeKeepsOutbox(s, p);
    case Auth(a, carrier) => AuthKeeps(s, a, carrier);
  }

  lemma AuthKeeps(s: State, l: AuthUsers.Label, carrier: Carrier)
    requires Inv(s) && Enabled(s, Auth(l, carrier))
    ensures Inv(Next(s, Auth(l, carrier)))
  {
    AuthUsers.FullStep(s.accounts, l);
    if AuthUsers.Commits(s.accounts, l) {
      CommitWrites(s, l, carrier);
      CommitKeepsOutbox(s, l, carrier);
      Convergence.InvStep(s.pipeline, Written(s.accounts, l, carrier));
    } else {
      AuthUsers.StepAdds(s.accounts, l);
    }
    hide AuthUsers.Next, Projection.Next, Projection.Enabled, SameOutbox, Written, AuthUsers.FullInv, Convergence.Inv;
  }

  // ---- What farms shows ------------------------------------------------------------

  lemma SameAnnouncement(e: AuthUsers.OutEvent, row: Relay.Row, user: int)
    requires row.pattern == e.pattern && Strip(row.payload) == e.data
    ensures AuthUsers.Announces(e, user) <==> Projection.RowUser(row) == Some(user)
  {
  }

  /** The user's newest event is their newest row. */
  lemma NewestRow(s: AuthUsers.State, rows: map<Relay.Id, Relay.Row>, user: int, e: nat)
    requires SameOutbox(s.outbox, rows) && user in s.users && AuthUsers.NewestMatches(s, user, e)
    ensures Projection.Newest(rows, e, user)
    ensures Strip(rows[e].payload) == AuthUsers.EventData(user, s.users[user])
  {
    hide Projection.RowUser, AuthUsers.Announces, AuthUsers.EventData;
    SameAnnouncement(s.outbox[e], rows[e], user);
    forall id | id in rows && Projection.RowUser(rows[id]) == Some(user) ensures id <= e {
      var f: nat := id;
      assert f in s.outbox;
      SameAnnouncement(s.outbox[f], rows[f], user);
    }
  }

  lemma InvRun(ls: seq<Label>)
    requires Valid(System(), Init, ls)
    ensures Inv(Exec(System(), Init, ls))
  {
    assert Inv(Init);
    forall s, l | Inv(s) && Enabled(s, l) ensures Inv(Next(s, l)) { InvStep(s, l); }
    Invariant(System(), s => Inv(s), _ => true, Init, ls);
  }

  /** Whatever auth did with one consumer, and however the drains, the queue and
      farms crashed and replayed: at rest, farms shows a user exactly as auth
      stores them, unless a failed publish let an older event overtake the
      newest, a failed handler dropped one of theirs, or the seed wrote the row
      without an event. */
  lemma FarmsShowsAuthsProfile(ls: seq<Label>, user: int)
    requires Valid(System(), Init, ls)
    requires var s := Exec(System(), Init, ls);
      && Convergence.Quiet(s.pipeline)
      && user in s.accounts.users && user !in s.accounts.seeded && user !in s.accounts.reconciled
      && user !in s.pipeline.overtaken && user !in s.pipeline.dropped
    ensures var s := Exec(System(), Init, ls);
      user in s.pipeline.projection && AuthUsers.CarriesProfile(s.pipeline.projection[user].data, user, s.accounts.users[user])
  {
    InvRun(ls);
    hide Valid, Exec, System, AuthUsers.EventData, AuthUsers.CarriesProfile, AuthUsers.NewestMatches, Projection.Newest, SameOutbox, Convergence.Quiet,
         Convergence.Inv, AuthUsers.Inv, AuthUsers.Serial;
    var s := Exec(System(), Init, ls);
    assert AuthUsers.Matching(s.accounts);
    var e: nat :| AuthUsers.NewestMatches(s.accounts, user, e);
    NewestRow(s.accounts, s.pipeline.relay.rows, user, e);
    Convergence.RestShows(s.pipeline, user, e);
    AuthUsers.EventDataCarries(user, s.accounts.users[user]);
  }
}
