/** Auth's account operations as a labelled machine: registrations and updates
    commit the user row together with its event, other writes and the seed do
    not announce anything, and any step may fail. */
module AuthUsers {
  import opened Prelude
  import opened Envelope
  import opened Runs

  type Id = int
  type Consumer = nat

  /** A user row or entity: column name to value, the id kept apart. */
  type Entity = Payload

  datatype OutEvent = OutEvent(pattern: string, data: Payload)

  const CREATED := "user.created"
  const UPDATED := "user.updated"
  const RESET := "user.password_reset_requested"

  /** The columns events carry. */
  const PROFILE: set<string> := {"firstName", "lastName", "email", "rol"}

  function Field(row: Entity, column: string): Json {
    if column in row then row[column] else JNull
  }

  /** The payload of `user.created` and `user.updated`. */
  function EventData(id: Id, row: Entity): Payload {
    map["id" := JNum(id), "firstName" := Field(row, "firstName"), "lastName" := Field(row, "lastName"),
        "email" := Field(row, "email"), "rol" := Field(row, "rol")]
  }

  datatype Op =
    | Register(properties: Entity)
    | UpdateInfo(id: Id, patch: Entity)
    | Forgot(user: Id, email: Json, token: Json)

  /** `row` is the entity about to be saved. */
  datatype Phase =
    | Start
    | Loaded(row: Entity)
    | Saved(id: Id, row: Entity)
    | Enqueued(id: Id, row: Entity, event: nat)

  datatype Task = Task(op: Op, phase: Phase)

  /** `seeded` and `reconciled` are history: users the start-up seed created,
      and users whose row it changed. */
  datatype State = State(
    users: map<Id, Entity>, usedIds: nat,
    outbox: map<nat, OutEvent>, usedEvents: nat,
    tasks: map<Consumer, Task>,
    seeded: set<Id>, reconciled: set<Id>)

  datatype Label =
    | Request(c: Consumer, op: Op)
    | Look(c: Consumer)
    | Save(c: Consumer)
    | Enqueue(c: Consumer)
    | Commit(c: Consumer)
    | Abort(c: Consumer)
    | Touch(id: Id, columns: Entity)
    | Seed(row: Entity)
    | Reconcile(id: Id, columns: Entity)

  const Init := State(map[], 0, map[], 0, map[], {}, {})

  predicate EmailTaken(users: map<Id, Entity>, email: Json, except: Option<Id>) {
    exists id :: id in users && Some(id) != except && Field(users[id], "email") == email
  }

  ghost predicate Enabled(s: State, l: Label) {
    match l
    case Request(c, _) => c !in s.tasks
    case Look(c) => c in s.tasks && s.tasks[c].phase.Start?
    case Save(c) => c in s.tasks && s.tasks[c].phase.Loaded?
    case Enqueue(c) => c in s.tasks && s.tasks[c].phase.Saved?
    case Commit(c) => c in s.tasks && s.tasks[c].phase.Enqueued?
    case Abort(c) => c in s.tasks
    case Touch(id, columns) => id in s.users && columns.Keys !! PROFILE
    case Seed(row) => !EmailTaken(s.users, Field(row, "email"), None)
    case Reconcile(id, columns) => id in s.users && columns.Keys <= {"rol", "password"}
  }

  function Done(s: State, c: Consumer): State {
    s.(tasks := s.tasks - {c})
  }

  function At(s: State, c: Consumer, p: Phase): State
    requires c in s.tasks
  {
    s.(tasks := s.tasks[c := s.tasks[c].(phase := p)])
  }

  /** A read user leaves the password out; the patch is copied over it. */
  function Patched(row: Entity, patch: Entity): Entity {
    (row - {"password"}) + patch
  }

  function Looked(s: State, c: Consumer): State
    requires c in s.tasks
  {
    match s.tasks[c].op
    case Register(properties) =>
      if EmailTaken(s.users, Field(properties, "email"), None) then Done(s, c) else At(s, c, Loaded(properties))
    case UpdateInfo(id, patch) =>
      if id !in s.users then Done(s, c) else At(s, c, Loaded(Patched(s.users[id], patch)))
    case Forgot(user, email, token) =>
      if user !in s.users || Field(s.users[user], "email") != email then Done(s, c)
      else At(s, c, Loaded(map["forgotPasswordToken" := token]))
  }

  /** An insert takes the next id; an update keeps its own. */
  function SavedRow(s: State, c: Consumer): State
    requires c in s.tasks && s.tasks[c].phase.Loaded?
  {
    var row := s.tasks[c].phase.row;
    match s.tasks[c].op
    case Register(_) => At(s, c, Saved(s.usedIds + 1, row)).(usedIds := s.usedIds + 1)
    case UpdateInfo(id, _) => At(s, c, Saved(id, row))
    case Forgot(user, _, _) => At(s, c, Saved(user, row))
  }

  function EventOf(op: Op, id: Id, row: Entity): OutEvent {
    match op
    case Register(_) => OutEvent(CREATED, EventData(id, row))
    case UpdateInfo(_, _) => OutEvent(UPDATED, EventData(id, row))
    case Forgot(_, email, token) => OutEvent(RESET, map["email" := email, "token" := token])
  }

  function RowOrEmpty(users: map<Id, Entity>, id: Id): Entity {
    if id in users then users[id] else map[]
  }

  /** Row and event become visible together, unless the e-mail was taken in the
      meantime. */
  function Committed(s: State, c: Consumer): State
    requires c in s.tasks && s.tasks[c].phase.Enqueued?
  {
    var op, p := s.tasks[c].op, s.tasks[c].phase;
    var row := RowOrEmpty(s.users, p.id) + p.row;
    if EmailTaken(s.users, Field(row, "email"), Some(p.id)) then Done(s, c)
    else Done(s, c).(users := s.users[p.id := row], outbox := s.outbox[p.event := EventOf(op, p.id, p.row)])
  }

  ghost function Next(s: State, l: Label): State
    requires Enabled(s, l)
  {
    match l
    case Request(c, op) => s.(tasks := s.tasks[c := Task(op, Start)])
    case Look(c) => Looked(s, c)
    case Save(c) => SavedRow(s, c)
    case Enqueue(c) => At(s, c, Enqueued(s.tasks[c].phase.id, s.tasks[c].phase.row, s.usedEvents + 1)).(usedEvents := s.usedEvents + 1)
    case Commit(c) => Committed(s, c)
    case Abort(c) => Done(s, c)
    case Touch(id, columns) => s.(users := s.users[id := s.users[id] + columns])
    case Seed(row) =>
      s.(users := s.users[s.usedIds + 1 := row], usedIds := s.usedIds + 1, seeded := s.seeded + {s.usedIds + 1})
    case Reconcile(id, columns) => s.(users := s.users[id := s.users[id] + columns], reconciled := s.reconciled + {id})
  }

  ghost function System(): Machine<State, Label> {
    Machine((s, l) => Enabled(s, l), (s, l) => if Enabled(s, l) then Next(s, l) else s)
  }

  // ---- Every registration is announced exactly once ------------------------------

  predicate Creates(e: OutEvent, id: Id) {
    e.pattern == CREATED && "id" in e.data && e.data["id"] == JNum(id)
  }

  ghost predicate Pending(t: Task) {
    t.op.Register? && (t.phase.Saved? || t.phase.Enqueued?)
  }

  ghost predicate TaskOk(s: State, t: Task) {
    && (Pending(t) ==> 0 < t.phase.id <= s.usedIds && t.phase.id !in s.users)
    && (!t.op.Register? && (t.phase.Saved? || t.phase.Enqueued?) ==> t.phase.id in s.users)
    && (t.op.UpdateInfo? && t.phase.Loaded? ==> t.op.id in s.users)
    && (t.op.Forgot? && t.phase.Loaded? ==> t.op.user in s.users)
    && (t.phase.Enqueued? ==> 0 < t.phase.event <= s.usedEvents && t.phase.event !in s.outbox)
  }

  /** Two open transactions inserting the same row or the same event. */
  ghost predicate Clash(a: Task, b: Task) {
    || (Pending(a) && Pending(b) && a.phase.id == b.phase.id)
    || (a.phase.Enqueued? && b.phase.Enqueued? && a.phase.event == b.phase.event)
  }

  ghost predicate TasksOk(s: State) {
    && (forall c :: c in s.tasks ==> TaskOk(s, s.tasks[c]))
    && (forall c, d :: c in s.tasks && d in s.tasks && Clash(s.tasks[c], s.tasks[d]) ==> c == d)
  }

  ghost predicate Announced(s: State) {
    && s.seeded <= s.users.Keys
    && (forall e :: e in s.outbox ==> 0 < e <= s.usedEvents)
    && (forall id :: id in s.users ==> 0 < id <= s.usedIds)
    && (forall id :: id in s.users && id !in s.seeded ==> exists e :: e in s.outbox && Creates(s.outbox[e], id))
    && (forall e, id :: e in s.outbox && Creates(s.outbox[e], id) ==> id in s.users && id !in s.seeded)
    && (forall e, f, id :: e in s.outbox && f in s.outbox && Creates(s.outbox[e], id) && Creates(s.outbox[f], id) ==> e == f)
  }

  ghost predicate UniqueEmails(s: State) {
    forall a, b :: a in s.users && b in s.users && Field(s.users[a], "email") == Field(s.users[b], "email") ==> a == b
  }

  ghost predicate Inv(s: State) {
    TasksOk(s) && Announced(s) && UniqueEmails(s)
  }

  ghost predicate Commits(s: State, l: Label)
    requires Enabled(s, l)
  {
    && l.Commit?
    && var p := s.tasks[l.c].phase;
    !EmailTaken(s.users, Field(RowOrEmpty(s.users, p.id) + p.row, "email"), Some(p.id))
  }

  /** What a step adds: users only by a commit or the seed, events only by a
      commit. */
  lemma StepAdds(s: State, l: Label)
    requires Enabled(s, l)
    ensures var s' := Next(s, l);
      && s'.users.Keys == s.users.Keys + (if Commits(s, l) then {s.tasks[l.c].phase.id} else if l.Seed? then {s.usedIds + 1} else {})
      && s'.outbox == (if Commits(s, l) then var t := s.tasks[l.c]; s.outbox[t.phase.event := EventOf(t.op, t.phase.id, t.phase.row)]
                       else s.outbox)
      && s.usedIds <= s'.usedIds && s.usedEvents <= s'.usedEvents
      && s'.seeded == s.seeded + (if l.Seed? then {s.usedIds + 1} else {}) && (l.Seed? ==> s'.usedIds == s.usedIds + 1)
  {
    hide EventData, EmailTaken, Patched, Field;
  }

  predicate Working(l: Label) {
    !l.Touch? && !l.Seed? && !l.Reconcile?
  }

  lemma TasksElsewhere(s: State, l: Label)
    requires Enabled(s, l)
    ensures forall d :: !(Working(l) && d == l.c) ==>
              (d in Next(s, l).tasks <==> d in s.tasks) && (d in s.tasks ==> Next(s, l).tasks[d] == s.tasks[d])
  {
    hide EventData, EmailTaken, Patched, Field, EventOf;
  }

  /** The handler's own next position. */
  lemma OwnTask(s: State, l: Label)
    requires Inv(s) && Enabled(s, l) && Working(l) && l.c in Next(s, l).tasks
    ensures TaskOk(Next(s, l), Next(s, l).tasks[l.c])
  {
    hide EventData, EmailTaken, Patched, Field, EventOf, Announced, UniqueEmails, Clash;
    if l.c in s.tasks { assert TaskOk(s, s.tasks[l.c]); }
    if l.Save? {
      OwnSaved(s, l.c);
    } else if l.Enqueue? {
      NextIdsFree(s);
    }
  }

  lemma OwnSaved(s: State, c: Consumer)
    requires Inv(s) && Enabled(s, Save(c))
    ensures TaskOk(Next(s, Save(c)), Next(s, Save(c)).tasks[c])
  {
    assert TaskOk(s, s.tasks[c]);
    NextIdsFree(s);
    hide Announced, UniqueEmails, Clash;
  }

  lemma NextIdsFree(s: State)
    requires Inv(s)
    ensures s.usedIds + 1 !in s.users && s.usedEvents + 1 !in s.outbox
  {
  }

  /** Ids are taken by the save and kept, event ids by the enqueue. */
  lemma OwnIds(s: State, l: Label)
    requires Enabled(s, l) && Working(l) && l.c in Next(s, l).tasks
    ensures var t' := Next(s, l).tasks[l.c];
      && (Pending(t') ==> (l.Save? && t'.phase.id == s.usedIds + 1)
                          || (l.c in s.tasks && Pending(s.tasks[l.c]) && s.tasks[l.c].phase.id == t'.phase.id))
      && (t'.phase.Enqueued? ==> t'.phase.event == s.usedEvents + 1)
  {
    hide EventData, EmailTaken, Patched, Field, EventOf;
  }

  lemma OtherTask(s: State, l: Label, d: Consumer)
    requires Inv(s) && Enabled(s, l) && d in s.tasks && !(Working(l) && d == l.c)
    ensures d in Next(s, l).tasks && Next(s, l).tasks[d] == s.tasks[d] && TaskOk(Next(s, l), s.tasks[d])
  {
    TasksElsewhere(s, l);
    StepAdds(s, l);
    assert TaskOk(s, s.tasks[d]);
    if Commits(s, l) { assert TaskOk(s, s.tasks[l.c]); }
    hide Next, Announced, UniqueEmails, EventOf;
  }

  lemma NoClash(s: State, l: Label, d: Consumer)
    requires Inv(s) && Enabled(s, l) && Working(l) && l.c in Next(s, l).tasks && d in s.tasks && d != l.c
    ensures !Clash(Next(s, l).tasks[l.c], s.tasks[d]) && !Clash(s.tasks[d], Next(s, l).tasks[l.c])
  {
    OwnIds(s, l);
    assert TaskOk(s, s.tasks[d]);
    hide Next, Enabled, Announced, UniqueEmails;
  }

  lemma TasksStep(s: State, l: Label)
    requires Inv(s) && Enabled(s, l)
    ensures TasksOk(Next(s, l))
  {
    var s' := Next(s, l);
    TasksElsewhere(s, l);
    forall d | d in s'.tasks ensures TaskOk(s', s'.tasks[d]) {
      if Working(l) && d == l.c { OwnTask(s, l); } else { OtherTask(s, l, d); }
    }
    forall c, d | c in s'.tasks && d in s'.tasks && Clash(s'.tasks[c], s'.tasks[d]) ensures c == d {
      if c != d {
        if Working(l) && c == l.c { NoClash(s, l, d); } else if Working(l) && d == l.c { NoClash(s, l, c); }
      }
    }
  }

  lemma AnnouncedStep(s: State, l: Label)
    requires Inv(s) && Enabled(s, l)
    ensures Announced(Next(s, l))
  {
    var s' := Next(s, l);
    StepAdds(s, l);
    if Commits(s, l) {
      assert TaskOk(s, s.tasks[l.c]);
      CommitAnnounces(s, s', s.tasks[l.c]);
    } else {
      hide Next, Enabled, TasksOk, UniqueEmails, Creates;
    }
  }

  lemma CreatesOnly(op: Op, id: Id, row: Entity)
    ensures forall u :: Creates(EventOf(op, id, row), u) <==> op.Register? && u == id
  {
  }

  lemma CommitAnnounces(s: State, s': State, t: Task)
    requires Announced(s) && TaskOk(s, t) && t.phase.Enqueued?
    requires s'.users.Keys == s.users.Keys + {t.phase.id} && s'.outbox == s.outbox[t.phase.event := EventOf(t.op, t.phase.id, t.phase.row)]
    requires s.usedIds <= s'.usedIds && s.usedEvents <= s'.usedEvents && s'.seeded == s.seeded
    requires t.phase.id !in s.users ==> t.phase.id !in s.seeded
    ensures Announced(s')
  {
    CreatesOnly(t.op, t.phase.id, t.phase.row);
    hide EventOf, Creates;
    forall id | id in s'.users && id !in s'.seeded ensures exists e :: e in s'.outbox && Creates(s'.outbox[e], id) {
      if id in s.users {
        var e :| e in s.outbox && Creates(s.outbox[e], id);
        assert e in s'.outbox && s'.outbox[e] == s.outbox[e];
      } else {
        assert Creates(s'.outbox[t.phase.event], id);
      }
    }
  }

  lemma EmailsStep(s: State, l: Label)
    requires Inv(s) && Enabled(s, l)
    ensures UniqueEmails(Next(s, l))
  {
    if l.Commit? {
      hide EventOf;
    } else if l.Seed? || l.Touch? || l.Reconcile? {
      hide TasksOk, Announced;
    } else {
      UsersSame(s, l);
    }
  }

  lemma UsersSame(s: State, l: Label)
    requires Enabled(s, l) && !l.Commit? && !l.Seed? && !l.Touch? && !l.Reconcile?
    ensures Next(s, l).users == s.users
  {
    hide EventData, EmailTaken, Patched, Field;
  }

  lemma InvStep(s: State, l: Label)
    requires Inv(s) && Enabled(s, l)
    ensures Inv(Next(s, l))
  {
    TasksStep(s, l);
    AnnouncedStep(s, l);
    EmailsStep(s, l);
  }

  /** Whatever aborts and however handlers interleave: every user that the seed
      did not create has exactly one `user.created` event, every such event
      announces such a user, and no two users share an e-mail. */
  lemma RegistrationAtomicity(ls: seq<Label>)
    requires Valid(System(), Init, ls)
    ensures var s := Exec(System(), Init, ls);
      && (forall id :: id in s.users && id !in s.seeded ==> exists e :: e in s.outbox && Creates(s.outbox[e], id))
      && (forall e, id :: e in s.outbox && Creates(s.outbox[e], id) ==> id in s.users && id !in s.seeded)
      && (forall e, f, id :: e in s.outbox && f in s.outbox && Creates(s.outbox[e], id) && Creates(s.outbox[f], id) ==> e == f)
      && UniqueEmails(s)
  {
    assert Inv(Init);
    forall s, l | Inv(s) && Enabled(s, l) ensures Inv(Next(s, l)) { InvStep(s, l); }
    Invariant(System(), s => Inv(s), _ => true, Init, ls);
  }

  // ---- The newest event is the current profile --------------------------------------

  predicate Announces(e: OutEvent, id: Id) {
    (e.pattern == CREATED || e.pattern == UPDATED) && "id" in e.data && e.data["id"] == JNum(id)
  }

  /** Event `e` is the user's newest and says what their row says. */
  ghost predicate NewestMatches(s: State, id: Id, e: nat)
    requires id in s.users
  {
    && e in s.outbox && Announces(s.outbox[e], id) && s.outbox[e].data == EventData(id, s.users[id])
    && forall f :: f in s.outbox && Announces(s.outbox[f], id) ==> f <= e
  }

  /** One handler at a time: what it loaded is still the row, profile-wise. */
  ghost predicate Serial(s: State) {
    && s.tasks.Keys <= {0}
    && (0 in s.tasks ==> var t := s.tasks[0];
        && (t.op.UpdateInfo? && !t.phase.Start? ==> t.op.id in s.users && (t.op.id in s.reconciled || Covers(t.phase.row, s.users[t.op.id])))
        && (t.op.UpdateInfo? && (t.phase.Saved? || t.phase.Enqueued?) ==> t.phase.id == t.op.id)
        && (t.op.Forgot? && !t.phase.Start? ==> t.phase.row.Keys == {"forgotPasswordToken"})
        && (t.phase.Enqueued? ==> forall e :: e in s.outbox ==> e < t.phase.event))
  }

  /** The entity has every profile column the row has. */
  ghost predicate Covers(entity: Entity, row: Entity) {
    forall k :: k in PROFILE && k in row ==> k in entity
  }

  ghost predicate Matching(s: State) {
    forall id :: id in s.users && id !in s.seeded && id !in s.reconciled ==> exists e :: NewestMatches(s, id, e)
  }

  ghost predicate OneConsumer(l: Label) {
    Working(l) ==> l.c == 0
  }

  lemma PatchedCovers(row: Entity, patch: Entity)
    ensures Covers(Patched(row, patch), row)
  {
  }

  lemma SerialStep(s: State, l: Label)
    requires Inv(s) && Serial(s) && Enabled(s, l) && OneConsumer(l)
    ensures Serial(Next(s, l))
  {
    hide EventData, EmailTaken, EventOf, UniqueEmails, TasksOk, Creates;
    if l.Look? && s.tasks[0].op.UpdateInfo? && s.tasks[0].op.id in s.users {
      PatchedCovers(s.users[s.tasks[0].op.id], s.tasks[0].op.patch);
    }
    hide Patched;
  }

  /** The step leaves the user's profile and events as they are. */
  ghost predicate ProfileKept(s: State, s': State, id: Id)
    requires id in s.users
  {
    && id in s'.users && EventData(id, s'.users[id]) == EventData(id, s.users[id])
    && (forall e :: e in s.outbox ==> e in s'.outbox && s'.outbox[e] == s.outbox[e])
    && (forall e :: e in s'.outbox && Announces(s'.outbox[e], id) ==> e in s.outbox)
  }

  lemma KeptMatches(s: State, s': State, id: Id, e: nat)
    requires id in s.users && NewestMatches(s, id, e) && ProfileKept(s, s', id)
    ensures NewestMatches(s', id, e)
  {
  }

  lemma MatchingStep(s: State, l: Label)
    requires Inv(s) && Serial(s) && Matching(s) && Enabled(s, l) && OneConsumer(l)
    ensures Matching(Next(s, l))
  {
    var s' := Next(s, l);
    StepAdds(s, l);
    forall id | id in s'.users && id !in s'.seeded && id !in s'.reconciled ensures exists e :: NewestMatches(s', id, e) {
      if Commits(s, l) && s.tasks[l.c].phase.id == id && !s.tasks[l.c].op.Forgot? {
        CommitMatches(s, l);
        assert NewestMatches(s', id, s.tasks[l.c].phase.event);
      } else {
        StepKeeps(s, l, id);
        var e :| NewestMatches(s, id, e);
        KeptMatches(s, s', id, e);
      }
    }
  }

  /** A committed registration or update is announced as it is stored. */
  lemma CommitMatches(s: State, l: Label)
    requires Inv(s) && Serial(s) && Enabled(s, l) && OneConsumer(l) && Commits(s, l) && !s.tasks[l.c].op.Forgot?
    requires s.tasks[l.c].phase.id !in s.reconciled
    ensures var p := s.tasks[l.c].phase; p.id in Next(s, l).users && NewestMatches(Next(s, l), p.id, p.event)
  {
    var t := s.tasks[0];
    assert TaskOk(s, t);
    MergeAnnounced(t.phase.id, RowOrEmpty(s.users, t.phase.id), t.phase.row);
    hide EmailTaken, UniqueEmails, Patched, EventData;
  }

  lemma MergeAnnounced(id: Id, row: Entity, entity: Entity)
    requires Covers(entity, row)
    ensures EventData(id, row + entity) == EventData(id, entity)
    ensures "id" in EventData(id, entity) && EventData(id, entity)["id"] == JNum(id)
  {
    assert forall k :: k in PROFILE ==> Field(row + entity, k) == Field(entity, k);
  }

  lemma ColumnsKeepProfile(id: Id, row: Entity, columns: Entity)
    requires columns.Keys !! PROFILE
    ensures EventData(id, row + columns) == EventData(id, row)
  {
    assert forall k :: k in PROFILE ==> Field(row + columns, k) == Field(row, k);
  }

  lemma StepKeeps(s: State, l: Label, id: Id)
    requires Inv(s) && Serial(s) && Enabled(s, l) && OneConsumer(l) && id in Next(s, l).users
    requires id !in Next(s, l).seeded && id !in Next(s, l).reconciled
    requires Commits(s, l) ==> s.tasks[l.c].phase.id != id || s.tasks[l.c].op.Forgot?
    ensures id in s.users && id !in s.seeded && id !in s.reconciled && ProfileKept(s, Next(s, l), id)
  {
    hide EventData, Inv, Serial, Announces;
    if Commits(s, l) {
      CommitKeeps(s, l, id);
    } else if l.Touch? || l.Seed? || l.Reconcile? {
      OutsideKeeps(s, l, id);
    } else {
      RowsSame(s, l);
      hide Next, Enabled;
    }
  }

  /** Writes that bypass the outbox and leave the user's profile alone. */
  lemma OutsideKeeps(s: State, l: Label, id: Id)
    requires Enabled(s, l) && (l.Touch? || l.Seed? || l.Reconcile?) && id in Next(s, l).users
    requires id !in Next(s, l).seeded && id !in Next(s, l).reconciled
    ensures id in s.users && id !in s.seeded && id !in s.reconciled && ProfileKept(s, Next(s, l), id)
  {
    hide EventData, Announces, EmailTaken;
    if l.Touch? { ColumnsKeepProfile(l.id, s.users[l.id], l.columns); }
  }

  lemma RowsSame(s: State, l: Label)
    requires Enabled(s, l) && !Commits(s, l) && !l.Seed? && !l.Touch? && !l.Reconcile?
    ensures Next(s, l).users == s.users && Next(s, l).outbox == s.outbox
    ensures Next(s, l).seeded == s.seeded && Next(s, l).reconciled == s.reconciled
  {
    hide EventData, Patched, Field, EventOf;
  }

  lemma CommitKeeps(s: State, l: Label, id: Id)
    requires Inv(s) && Serial(s) && Enabled(s, l) && OneConsumer(l) && Commits(s, l) && id in Next(s, l).users
    requires s.tasks[l.c].phase.id != id || s.tasks[l.c].op.Forgot?
    ensures id in s.users && ProfileKept(s, Next(s, l), id)
    ensures Next(s, l).seeded == s.seeded && Next(s, l).reconciled == s.reconciled
  {
    hide EmailTaken, UniqueEmails, EventData, Patched, Announced, Clash, Covers;
    var t := s.tasks[0];
    assert TaskOk(s, t);
    ColumnsIfForgot(s, t);
    hide Serial, TasksOk;
    CommitFields(s, l);
    hide Next, Enabled;
    EventUser(t.op, t.phase.id, t.phase.row);
  }

  lemma CommitFields(s: State, l: Label)
    requires Enabled(s, l) && Commits(s, l)
    ensures var s', t := Next(s, l), s.tasks[l.c];
      && s'.users == s.users[t.phase.id := RowOrEmpty(s.users, t.phase.id) + t.phase.row]
      && s'.outbox == s.outbox[t.phase.event := EventOf(t.op, t.phase.id, t.phase.row)]
      && s'.seeded == s.seeded && s'.reconciled == s.reconciled
  {
    hide EmailTaken, EventOf;
  }

  /** A reset request announces nobody's profile. */
  lemma EventUser(op: Op, id: Id, row: Entity)
    ensures forall u :: Announces(EventOf(op, id, row), u) ==> !op.Forgot? && u == id
  {
  }

  lemma ColumnsIfForgot(s: State, t: Task)
    requires Serial(s) && 0 in s.tasks && t == s.tasks[0] && t.phase.Enqueued? && TaskOk(s, t)
    ensures t.op.Forgot? ==> t.phase.id in s.users && EventData(t.phase.id, s.users[t.phase.id] + t.phase.row) == EventData(t.phase.id, s.users[t.phase.id])
  {
    if t.op.Forgot? { ColumnsKeepProfile(t.phase.id, s.users[t.phase.id], t.phase.row); }
  }

  /** Column `c` of the event is the row's, null where the row has none. */
  ghost predicate Shows(data: Payload, row: Entity, c: string) {
    c in data && data[c] == if c in row then row[c] else JNull
  }

  /** The event carries the user's id and the row's four profile columns, and
      nothing else. */
  ghost predicate CarriesProfile(data: Payload, id: Id, row: Entity) {
    && data.Keys == {"id", "firstName", "lastName", "email", "rol"}
    && data["id"] == JNum(id)
    && Shows(data, row, "firstName") && Shows(data, row, "lastName") && Shows(data, row, "email") && Shows(data, row, "rol")
  }

  lemma EventDataCarries(id: Id, row: Entity)
    ensures CarriesProfile(EventData(id, row), id, row)
  {
    var data := EventData(id, row);
    assert data.Keys == {"id", "firstName", "lastName", "email", "rol"};
  }

  /** A creation or update event that announces user `id`. */
  ghost predicate IsAbout(e: OutEvent, id: Id) {
    (e.pattern == "user.created" || e.pattern == "user.updated") && "id" in e.data && e.data["id"] == JNum(id)
  }

  /** Event `e` is the newest about the user and carries their row's profile. */
  ghost predicate NewestIsProfile(s: State, id: Id, e: nat)
    requires id in s.users
  {
    && e in s.outbox && IsAbout(s.outbox[e], id) && CarriesProfile(s.outbox[e].data, id, s.users[id])
    && forall f :: f in s.outbox && IsAbout(s.outbox[f], id) ==> f <= e
  }

  /** With one consumer and no seed on the row, a user's newest event always
      carries the profile the user has: what farms converges to is the truth. */
  lemma NewestEventIsProfile(ls: seq<Label>, id: Id)
    requires Valid(System(), Init, ls) && Only(ls, (l: Label) => OneConsumer(l))
    requires var s := Exec(System(), Init, ls); id in s.users && id !in s.seeded && id !in s.reconciled
    ensures exists e :: NewestIsProfile(Exec(System(), Init, ls), id, e)
  {
    assert FullInv(Init);
    forall s: State, l: Label | FullInv(s) && OneConsumer(l) && Enabled(s, l) ensures FullInv(Next(s, l)) { FullStep(s, l); }
    Invariant(System(), (s: State) => FullInv(s), (l: Label) => OneConsumer(l), Init, ls);
    MatchIsProfile(Exec(System(), Init, ls), id);
  }

  lemma MatchIsProfile(s: State, id: Id)
    requires Matching(s) && id in s.users && id !in s.seeded && id !in s.reconciled
    ensures exists e :: NewestIsProfile(s, id, e)
  {
    var e :| NewestMatches(s, id, e);
    EventDataCarries(id, s.users[id]);
    hide EventData, CarriesProfile;
    assert NewestIsProfile(s, id, e);
  }

  ghost predicate FullInv(s: State) {
    Inv(s) && Serial(s) && Matching(s)
  }

  lemma FullStep(s: State, l: Label)
    requires FullInv(s) && OneConsumer(l) && Enabled(s, l)
    ensures FullInv(Next(s, l))
  {
    InvStep(s, l);
    SerialStep(s, l);
    MatchingStep(s, l);
  }
}
