/** The account methods of `AuthService` over their in-memory state, and why a
    call nothing interrupts is a run of the accounts machine. */
module AuthAccounts {
  import opened Prelude
  import opened Envelope
  import opened Runs
  import opened AuthUsers

  datatype Refusal = EmailInUse | UserNotFound | TransactionFailed

  datatype Tables = Tables(users: map<Id, Entity>, usedIds: nat, outbox: map<nat, OutEvent>, usedEvents: nat)

  // ---- What a call does ------------------------------------------------------------

  /** The transaction of a call: row and event, or neither. */
  function Transact(t: Tables, op: Op, id: Id, row: Entity, commits: bool): (Tables, Result<Id, Refusal>) {
    var merged := RowOrEmpty(t.users, id) + row;
    if !commits then (t, Err(TransactionFailed))
    else if EmailTaken(t.users, Field(merged, "email"), Some(id)) then (t.(usedEvents := t.usedEvents + 1), Err(TransactionFailed))
    else
      (t.(users := t.users[id := merged], usedEvents := t.usedEvents + 1, outbox := t.outbox[t.usedEvents + 1 := EventOf(op, id, row)]),
       Ok(id))
  }

  function Called(t: Tables, op: Op, commits: bool): (Tables, Result<Id, Refusal>) {
    match op
    case Register(properties) =>
      if EmailTaken(t.users, Field(properties, "email"), None) then (t, Err(EmailInUse))
      else Transact(t.(usedIds := t.usedIds + 1), op, t.usedIds + 1, properties, commits)
    case UpdateInfo(id, patch) =>
      if id !in t.users then (t, Err(UserNotFound)) else Transact(t, op, id, Patched(t.users[id], patch), commits)
    case Forgot(user, email, token) =>
      if user !in t.users || Field(t.users[user], "email") != email then (t, Err(UserNotFound))
      else Transact(t, op, user, map["forgotPasswordToken" := token], commits)
  }

  /** The rows before and after: only the user's own changes. */
  ghost predicate OnlyRow(users: map<Id, Entity>, users': map<Id, Entity>, id: Id) {
    && id in users'
    && forall other :: other != id ==>
         (other in users' <==> other in users) && (other in users ==> users'[other] == users[other])
  }

  /** One event more, number `e`. */
  ghost predicate OneEvent(outbox: map<nat, OutEvent>, outbox': map<nat, OutEvent>, e: nat) {
    && e !in outbox && outbox'.Keys == outbox.Keys + {e}
    && forall f :: f in outbox ==> outbox'[f] == outbox[f]
  }

  /** Another user has the e-mail. */
  ghost predicate EmailElsewhere(users: map<Id, Entity>, email: Json, id: Id) {
    exists other :: other in users && other != id && (if "email" in users[other] then users[other]["email"] else JNull) == email
  }

  function EmailOf(row: Entity): Json {
    if "email" in row then row["email"] else JNull
  }

  /** A registration stores exactly the given columns under a new id and announces
      them as `user.created`; it is refused exactly when the e-mail is taken or
      the transaction fails. */
  ghost predicate RegisterLaw(t: Tables, t': Tables, reply: Result<Id, Refusal>, row: Entity, commits: bool) {
    var id, e := t.usedIds + 1, t.usedEvents + 1;
    if EmailElsewhere(t.users, EmailOf(row), -1) then reply == Err(EmailInUse) && t' == t
    else if !commits then reply == Err(TransactionFailed) && t'.users == t.users && t'.outbox == t.outbox
    else
      && reply == Ok(id) && OnlyRow(t.users, t'.users, id) && t'.users[id] == row
      && OneEvent(t.outbox, t'.outbox, e)
      && t'.outbox[e].pattern == "user.created" && CarriesProfile(t'.outbox[e].data, id, row)
  }

  /** The update wins on its own columns and leaves the others; the row is
      announced as stored. */
  ghost predicate UpdateLaw(t: Tables, t': Tables, reply: Result<Id, Refusal>, id: Id, patch: Entity, commits: bool) {
    var e := t.usedEvents + 1;
    if id !in t.users then reply == Err(UserNotFound) && t' == t
    else if !commits || EmailElsewhere(t.users, if "email" in patch then patch["email"] else EmailOf(t.users[id]), id)
    then reply == Err(TransactionFailed) && t'.users == t.users && t'.outbox == t.outbox
    else
      && reply == Ok(id) && OnlyRow(t.users, t'.users, id)
      && t'.users[id].Keys == t.users[id].Keys + patch.Keys
      && (forall c :: c in t'.users[id] ==> t'.users[id][c] == if c in patch then patch[c] else t.users[id][c])
      && OneEvent(t.outbox, t'.outbox, e)
      && t'.outbox[e].pattern == "user.updated" && CarriesProfile(t'.outbox[e].data, id, t'.users[id])
  }

  /** The token is stored on the user's row and sent, with the e-mail, in the
      reset event. */
  ghost predicate ForgotLaw(t: Tables, t': Tables, reply: Result<Id, Refusal>, id: Id, email: Json, token: Json, commits: bool) {
    var e := t.usedEvents + 1;
    if id !in t.users || EmailOf(t.users[id]) != email then reply == Err(UserNotFound) && t' == t
    else if !commits || EmailElsewhere(t.users, email, id)
    then reply == Err(TransactionFailed) && t'.users == t.users && t'.outbox == t.outbox
    else
      && reply == Ok(id) && OnlyRow(t.users, t'.users, id)
      && t'.users[id] == t.users[id]["forgotPasswordToken" := token]
      && OneEvent(t.outbox, t'.outbox, e)
      && t'.outbox[e].pattern == "user.password_reset_requested"
      && t'.outbox[e].data == map["email" := email, "token" := token]
  }

  /** Both or neither, and what exactly: a call that succeeds stores the row and
      announces it as stored in one new event; one that fails changes no user and
      records nothing. */
  lemma CalledFacts(t: Tables, op: Op, commits: bool)
    requires (forall e :: e in t.outbox ==> e <= t.usedEvents) && (forall id :: id in t.users ==> 0 < id <= t.usedIds)
    ensures var (t', reply) := Called(t, op, commits);
      && (reply.Err? ==> t'.users == t.users && t'.outbox == t.outbox)
      && (op.Register? ==> RegisterLaw(t, t', reply, op.properties, commits))
      && (op.UpdateInfo? ==> UpdateLaw(t, t', reply, op.id, op.patch, commits))
      && (op.Forgot? ==> ForgotLaw(t, t', reply, op.user, op.email, op.token, commits))
  {
    match op
    case Register(properties) => RegisterFacts(t, properties, commits);
    case UpdateInfo(id, patch) => UpdateFacts(t, id, patch, commits);
    case Forgot(user, email, token) => ForgotFacts(t, user, email, token, commits);
  }

  lemma TakenElsewhere(users: map<Id, Entity>, email: Json, id: Option<Id>)
    ensures id.Some? ==> (EmailTaken(users, email, id) <==> EmailElsewhere(users, email, id.value))
    ensures id.None? && -1 !in users ==> (EmailTaken(users, email, id) <==> EmailElsewhere(users, email, -1))
  {
    if EmailTaken(users, email, id) {
      var other :| other in users && Some(other) != id && Field(users[other], "email") == email;
      assert other in users && (if "email" in users[other] then users[other]["email"] else JNull) == email;
    }
    if other :| other in users && Some(other) != id && (if "email" in users[other] then users[other]["email"] else JNull) == email {
      assert Field(users[other], "email") == email;
    }
  }

  lemma RegisterFacts(t: Tables, row: Entity, commits: bool)
    requires (forall e :: e in t.outbox ==> e <= t.usedEvents) && (forall id :: id in t.users ==> 0 < id <= t.usedIds)
    ensures var (t', reply) := Called(t, Register(row), commits);
      RegisterLaw(t, t', reply, row, commits) && (reply.Err? ==> t'.users == t.users && t'.outbox == t.outbox)
  {
    hide EmailTaken, EmailElsewhere, EventData, CarriesProfile;
    var id := t.usedIds + 1;
    TakenByAnyone(t.users, EmailOf(row), id);
    EventDataCarries(id, row);
    assert RowOrEmpty(t.users, id) + row == row;
    assert Field(row, "email") == EmailOf(row);
    hide RowOrEmpty, Field, EmailOf;
  }

  /** Before the user is stored, both checks look at everybody. */
  lemma TakenByAnyone(users: map<Id, Entity>, email: Json, id: Id)
    requires id !in users && -1 !in users
    ensures EmailTaken(users, email, None) == EmailTaken(users, email, Some(id)) == EmailElsewhere(users, email, -1)
  {
    TakenElsewhere(users, email, None);
    TakenElsewhere(users, email, Some(id));
    hide EmailTaken;
    if EmailElsewhere(users, email, id) {
      var other :| other in users && other != id && (if "email" in users[other] then users[other]["email"] else JNull) == email;
      assert other != -1;
    }
    if EmailElsewhere(users, email, -1) {
      var other :| other in users && other != -1 && (if "email" in users[other] then users[other]["email"] else JNull) == email;
      assert other != id;
    }
  }

  /** What saving the patched user leaves, and what is announced of it. */
  lemma MergedFacts(id: Id, row: Entity, patch: Entity)
    ensures var merged := row + Patched(row, patch);
      && merged.Keys == row.Keys + patch.Keys
      && (forall c :: c in merged ==> merged[c] == if c in patch then patch[c] else row[c])
      && EmailOf(merged) == (if "email" in patch then patch["email"] else EmailOf(row))
      && CarriesProfile(EventData(id, Patched(row, patch)), id, merged)
  {
    PatchedCovers(row, patch);
    MergeAnnounced(id, row, Patched(row, patch));
    EventDataCarries(id, row + Patched(row, patch));
    hide EventData, CarriesProfile;
  }

  lemma UpdateFacts(t: Tables, id: Id, patch: Entity, commits: bool)
    requires forall e :: e in t.outbox ==> e <= t.usedEvents
    ensures var (t', reply) := Called(t, UpdateInfo(id, patch), commits);
      UpdateLaw(t, t', reply, id, patch, commits) && (reply.Err? ==> t'.users == t.users && t'.outbox == t.outbox)
  {
    hide EmailTaken, EmailElsewhere, EventData, CarriesProfile;
    if id in t.users {
      var row, entity := t.users[id], Patched(t.users[id], patch);
      var merged := row + entity;
      MergedFacts(id, row, patch);
      TakenElsewhere(t.users, EmailOf(merged), Some(id));
      hide Patched;
    }
  }

  lemma ForgotFacts(t: Tables, user: Id, email: Json, token: Json, commits: bool)
    requires forall e :: e in t.outbox ==> e <= t.usedEvents
    ensures var (t', reply) := Called(t, Forgot(user, email, token), commits);
      ForgotLaw(t, t', reply, user, email, token, commits) && (reply.Err? ==> t'.users == t.users && t'.outbox == t.outbox)
  {
    hide EmailTaken, EmailElsewhere;
    if user in t.users {
      TakenElsewhere(t.users, email, Some(user));
      assert t.users[user] + map["forgotPasswordToken" := token] == t.users[user]["forgotPasswordToken" := token];
    }
  }

  class AuthService {
    var users: map<Id, Entity>
    var usedIds: nat
    var outbox: map<nat, OutEvent>
    var usedEvents: nat

    ghost function State(): Tables
      reads this
    {
      Tables(users, usedIds, outbox, usedEvents)
    }

    /** Ids come from sequences. */
    ghost predicate Valid()
      reads this
    {
      (forall e :: e in outbox ==> e <= usedEvents) && (forall id :: id in users ==> 0 < id <= usedIds)
    }

    constructor ()
      ensures Valid() && State() == Tables(map[], 0, map[], 0)
    {
      users, usedIds, outbox, usedEvents := map[], 0, map[], 0;
    }

    /** Saves the row and enqueues its event in one transaction. */
    method SaveAndEnqueue(op: Op, id: Id, row: Entity, commits: bool) returns (reply: Result<Id, Refusal>)
      requires Valid() && 0 < id <= usedIds
      modifies this
      ensures Valid()
      ensures (State(), reply) == Transact(old(State()), op, id, row, commits)
    {
      if !commits {
        return Err(TransactionFailed);
      }
      var merged := (if id in users then users[id] else map[]) + row;
      usedEvents := usedEvents + 1;
      if EmailTaken(users, Field(merged, "email"), Some(id)) {
        return Err(TransactionFailed);
      }
      users := users[id := merged];
      outbox := outbox[usedEvents := EventOf(op, id, row)];
      return Ok(id);
    }

    /** The reply carries the new user without the password. */
    method Register(newUser: Entity, hashed: Json, commits: bool) returns (reply: Result<Id, Refusal>, user: Entity)
      requires Valid()
      modifies this
      ensures Valid() && RegisterLaw(old(State()), State(), reply, newUser["password" := hashed], commits)
      ensures var toSave := newUser["password" := hashed];
        (State(), reply) == Called(old(State()), AuthUsers.Register(toSave), commits)
      ensures user == newUser - {"password"}
    {
      user := newUser - {"password"};
      var toSave := newUser["password" := hashed];
      CalledFacts(State(), AuthUsers.Register(toSave), commits);
      hide RegisterLaw;
      if EmailTaken(users, Field(toSave, "email"), None) {
        return Err(EmailInUse), user;
      }
      usedIds := usedIds + 1;
      reply := SaveAndEnqueue(AuthUsers.Register(toSave), usedIds, toSave, commits);
    }

    /** The keys of the update are copied onto the loaded user one by one. */
    method UpdateUserInfo(id: Id, updatedData: Entity, commits: bool) returns (reply: Result<Id, Refusal>)
      requires Valid()
      modifies this
      ensures Valid() && UpdateLaw(old(State()), State(), reply, id, updatedData, commits)
      ensures (State(), reply) == Called(old(State()), UpdateInfo(id, updatedData), commits)
    {
      CalledFacts(State(), UpdateInfo(id, updatedData), commits);
      hide UpdateLaw;
      if id !in users {
        return Err(UserNotFound);
      }
      var user := CopyKeys(users[id] - {"password"}, updatedData);
      reply := SaveAndEnqueue(UpdateInfo(id, updatedData), id, user, commits);
    }

    method CopyKeys(user: Entity, updatedData: Entity) returns (copied: Entity)
      ensures copied == user + updatedData
    {
      copied := user;
      var keys := updatedData.Keys;
      while keys != {}
        invariant keys <= updatedData.Keys
        invariant copied == user + map k | k in updatedData && k !in keys :: updatedData[k]
        decreases |keys|
      {
        var key := PickElement(keys);
        copied := copied[key := updatedData[key]];
        keys := keys - {key};
      }
      assert updatedData == map k | k in updatedData && k !in keys :: updatedData[k];
    }

    /** The caller cannot tell an unknown e-mail from a known one. */
    method ForgotPassword(email: Json, token: Json, commits: bool) returns (replied: bool)
      requires Valid()
      modifies this
      ensures Valid()
      ensures (forall id :: id in old(users) ==> EmailOf(old(users)[id]) != email) ==> replied && State() == old(State())
      ensures (exists id :: id in old(users) && EmailOf(old(users)[id]) == email) ==>
                exists id: Id, reply: Result<Id, Refusal> :: id in old(users) && EmailOf(old(users)[id]) == email && replied == reply.Ok?
                  && ForgotLaw(old(State()), State(), reply, id, email, token, commits)
    {
      hide ForgotLaw;
      if !EmailTaken(users, email, None) {
        return true;
      }
      var user :| user in users && Field(users[user], "email") == email;
      CalledFacts(State(), Forgot(user, email, token), commits);
      ghost var before := State();
      var reply := SaveAndEnqueue(Forgot(user, email, token), user, map["forgotPasswordToken" := token], commits);
      replied := reply.Ok?;
      assert ForgotLaw(before, State(), reply, user, email, token, commits);
    }

    /** What `login` signs into the tokens. */
    method TokenUser(user: Entity) returns (claims: Entity)
      ensures claims == user - {"password", "forgotPasswordToken", "firstName", "lastName", "email"}
    {
      claims := user - {"password"};
      claims := claims - {"forgotPasswordToken"};
      claims := claims - {"firstName"};
      claims := claims - {"lastName"};
      claims := claims - {"email"};
    }
  }

  // ---- The call and the machine --------------------------------------------------------

  function View(s: State): Tables {
    Tables(s.users, s.usedIds, s.outbox, s.usedEvents)
  }

  /** `s` with the tables `t`. */
  function Holding(s: State, t: Tables): State {
    s.(users := t.users, usedIds := t.usedIds, outbox := t.outbox, usedEvents := t.usedEvents)
  }

  function Busy(s: State, c: Consumer, op: Op, p: Phase): State {
    s.(tasks := s.tasks[c := Task(op, p)])
  }

  lemma BusyMoves(s: State, c: Consumer, op: Op, p: Phase, q: Phase)
    ensures At(Busy(s, c, op, p), c, q) == Busy(s, c, op, q)
    ensures c !in s.tasks ==> Done(Busy(s, c, op, p), c) == s
  {
    assert s.tasks[c := Task(op, p)][c := Task(op, q)] == s.tasks[c := Task(op, q)];
    assert c !in s.tasks ==> s.tasks[c := Task(op, p)] - {c} == s.tasks;
  }

  ghost predicate Leads(s: State, ls: seq<Label>, t: State) {
    Valid(System(), s, ls) && Exec(System(), s, ls) == t
  }

  lemma Goes(s: State, ls: seq<Label>, t: State, l: Label, t': State) returns (ls': seq<Label>)
    requires Leads(s, ls, t) && Enabled(t, l) && Next(t, l) == t'
    ensures Leads(s, ls', t')
  {
    Extend(System(), s, ls, l);
    ls' := ls + [l];
  }

  /** A call nothing interrupts is a run of the machine that leaves the tables
      the method promises and the consumer idle. */
  lemma CallIsRun(s: State, c: Consumer, op: Op, commits: bool) returns (ls: seq<Label>)
    requires c !in s.tasks
    ensures Leads(s, ls, Holding(s, Called(View(s), op, commits).0))
  {
    hide EmailTaken, EventOf, Patched, Transact;
    TwoSteps(System(), s, Request(c, op), Look(c));
    ls := [Request(c, op), Look(c)];
    BusyMoves(s, c, op, Start, Start);
    var looked := Looked(Busy(s, c, op, Start), c);
    assert Leads(s, ls, looked);
    hide Leads, Valid, Exec, System, Next, Enabled;
    if looked.tasks.Keys == s.tasks.Keys {
      assert c !in looked.tasks;
      assert looked == s;
      assert Holding(s, View(s)) == s;
    } else {
      var row := looked.tasks[c].phase.row;
      BusyMoves(s, c, op, Start, Loaded(row));
      ls := TransactRuns(s, s, c, op, row, ls, commits);
    }
  }

  lemma TransactRuns(start: State, s: State, c: Consumer, op: Op, row: Entity, looked: seq<Label>, commits: bool) returns (ls: seq<Label>)
    requires c !in s.tasks && Leads(start, looked, Busy(s, c, op, Loaded(row)))
    ensures var (t, id) := match op
                           case Register(_) => (View(s).(usedIds := s.usedIds + 1), s.usedIds + 1)
                           case UpdateInfo(id, _) => (View(s), id)
                           case Forgot(user, _, _) => (View(s), user);
      Leads(start, ls, Holding(s, Transact(t, op, id, row, commits).0))
  {
    var id := match op case Register(_) => s.usedIds + 1 case UpdateInfo(id, _) => id case Forgot(user, _, _) => user;
    var u := if op.Register? then s.(usedIds := s.usedIds + 1) else s;
    BusyMoves(u, c, op, Loaded(row), Saved(id, row));
    ls := Goes(start, looked, Busy(s, c, op, Loaded(row)), Save(c), Busy(u, c, op, Saved(id, row)));
    if commits {
      ls := CommitRuns(start, u, c, op, id, row, ls);
    } else {
      BusyMoves(u, c, op, Saved(id, row), Start);
      ls := Goes(start, ls, Busy(u, c, op, Saved(id, row)), Abort(c), u);
    }
  }

  lemma CommitRuns(start: State, u: State, c: Consumer, op: Op, id: Id, row: Entity, saved: seq<Label>) returns (ls: seq<Label>)
    requires c !in u.tasks && Leads(start, saved, Busy(u, c, op, Saved(id, row)))
    ensures Leads(start, ls, Holding(u, Transact(View(u), op, id, row, true).0))
  {
    var event := u.usedEvents + 1;
    var v := u.(usedEvents := event);
    BusyMoves(v, c, op, Saved(id, row), Enqueued(id, row, event));
    ls := Goes(start, saved, Busy(u, c, op, Saved(id, row)), Enqueue(c), Busy(v, c, op, Enqueued(id, row, event)));
    BusyMoves(v, c, op, Enqueued(id, row, event), Start);
    hide EmailTaken, EventOf;
    var t := Committed(Busy(v, c, op, Enqueued(id, row, event)), c);
    ls := Goes(start, ls, Busy(v, c, op, Enqueued(id, row, event)), Commit(c), t);
  }
}
