/** The outbox relay as a labelled state machine. Any number of replicas drain
    one table; every await of a drain is a step, and the environment chooses
    which publish fails and when a replica dies. A drain's marks and bumps stay
    in its transaction until `Commit`; what it has sent is out for good. */
module Relay {
  import opened Prelude
  import opened Envelope
  import opened Runs

  const BATCH_SIZE: nat := 20

  type Id = int
  type Replica = nat
  type Target = string

  /** Either one client for every pattern or a routing table per pattern. */
  datatype Targets = Single(client: Target) | Table(routes: map<string, seq<Target>>)

  function ClientsFor(targets: Targets, pattern: string): seq<Target> {
    match targets
    case Single(client) => [client]
    case Table(routes) => if pattern in routes then routes[pattern] else []
  }

  datatype Row = Row(pattern: string, payload: Payload, published: bool, attempts: nat)

  /** An open drain transaction: the locked rows, the row being published, how
      many of its targets were reached, and the uncommitted updates. */
  datatype Drain = Drain(batch: seq<Id>, pos: nat, reached: nat, marked: set<Id>, bumped: set<Id>)

  /** History of one row: `copies[j]` counts the messages its j-th target got;
      the other counters say how often it was tried and how the tries ended. */
  datatype Log = Log(copies: seq<nat>, tries: nat, failed: nat, rolledBack: nat)

  datatype State = State(rows: map<Id, Row>, drains: map<Replica, Drain>, log: map<Id, Log>)

  datatype Message = Message(row: Id, target: Target, pattern: string, payload: Payload)

  datatype Label =
    | Insert(id: Id, pattern: string, payload: Payload)
    | Begin(r: Replica)
    | Skip(r: Replica)
    | Send(r: Replica)
    | Fail(r: Replica, delivered: bool)
    | Mark(r: Replica)
    | Commit(r: Replica)
    | Rollback(r: Replica)

  // ---- Selecting a batch -------------------------------------------------

  /** The elements of a finite set in ascending order. */
  ghost function Ascending(s: set<Id>): seq<Id>
    decreases |s|
  {
    if s == {} then []
    else
      LeastExists(s);
      var m :| m in s && forall x :: x in s ==> m <= x;
      [m] + Ascending(s - {m})
  }

  lemma {:induction false} LeastExists(s: set<Id>)
    requires s != {}
    ensures exists m :: m in s && forall x :: x in s ==> m <= x
    decreases |s|
  {
    var a := SomeElement(s);
    if s == {a} {
      assert forall x :: x in s ==> a <= x;
    } else {
      LeastExists(s - {a});
      var b :| b in s - {a} && forall x :: x in s - {a} ==> b <= x;
      var m := if a <= b then a else b;
      assert forall x :: x in s ==> x == a || x in s - {a};
      assert m in s && forall x :: x in s ==> m <= x;
    }
  }

  ghost predicate Increasing(q: seq<Id>) {
    forall i, j :: 0 <= i < j < |q| ==> q[i] < q[j]
  }

  lemma {:induction false} AscendingSorted(s: set<Id>)
    ensures |Ascending(s)| == |s|
    ensures Increasing(Ascending(s))
    ensures forall x :: x in Ascending(s) <==> x in s
    decreases |s|
  {
    if s != {} {
      LeastExists(s);
      var q := Ascending(s);
      var m := q[0];
      assert m in s && (forall x :: x in s ==> m <= x) && q == [m] + Ascending(s - {m});
      AscendingSorted(s - {m});
      assert forall i :: 1 <= i < |q| ==> q[i] == Ascending(s - {m})[i - 1] && q[i] in s - {m};
      assert forall x :: x in s <==> x == m || x in s - {m};
    }
  }

  ghost predicate Locked(s: State, id: Id) {
    exists r :: r in s.drains && id in s.drains[r].batch
  }

  ghost function Candidates(s: State): set<Id> {
    set id | id in s.rows && !s.rows[id].published && !Locked(s, id)
  }

  /** SELECT ... ORDER BY id LIMIT 20 FOR UPDATE SKIP LOCKED. */
  ghost function Select(candidates: set<Id>): seq<Id> {
    var q := Ascending(candidates);
    if |q| <= BATCH_SIZE then q else q[..BATCH_SIZE]
  }

  /** A batch holds the smallest candidates, in order, and is short only when
      the candidates run out. */
  lemma SelectTakesSmallest(candidates: set<Id>)
    ensures var b := Select(candidates);
      && Increasing(b)
      && |b| == Min(|candidates|, 20)
      && (forall x :: x in b ==> x in candidates)
      && (forall x, y :: x in b && y in candidates && y !in b ==> x < y)
  {
    AscendingSorted(candidates);
    var q, b := Ascending(candidates), Select(candidates);
    forall x, y | x in b && y in candidates && y !in b ensures x < y {
      var i :| 0 <= i < |b| && b[i] == x;
      assert y in q;
      var j :| 0 <= j < |q| && q[j] == y;
      assert |b| <= j;
    }
  }

  // ---- Steps -------------------------------------------------------------

  ghost predicate Working(s: State, r: Replica) {
    && r in s.drains
    && s.drains[r].pos < |s.drains[r].batch|
    && s.drains[r].batch[s.drains[r].pos] in s.rows
    && s.drains[r].batch[s.drains[r].pos] in s.log
  }

  ghost function Current(s: State, r: Replica): Id
    requires Working(s, r)
  {
    s.drains[r].batch[s.drains[r].pos]
  }

  ghost function Route(targets: Targets, s: State, id: Id): seq<Target>
    requires id in s.rows
  {
    ClientsFor(targets, s.rows[id].pattern)
  }

  ghost predicate Enabled(targets: Targets, s: State, l: Label) {
    match l
    case Insert(id, _, _) => id !in s.rows
    case Begin(r) => r !in s.drains
    case Skip(r) => Working(s, r) && Route(targets, s, Current(s, r)) == []
    case Send(r) => Working(s, r) && s.drains[r].reached < |Route(targets, s, Current(s, r))|
    case Fail(r, _) => Working(s, r) && s.drains[r].reached < |Route(targets, s, Current(s, r))|
    case Mark(r) => Working(s, r) && s.drains[r].reached == |Route(targets, s, Current(s, r))| > 0
    case Commit(r) => r in s.drains && s.drains[r].pos == |s.drains[r].batch|
    case Rollback(r) => r in s.drains
  }

  /** The j-th target got one more message. */
  function Delivered(g: Log, j: nat): Log {
    if j < |g.copies| then g.(copies := g.copies[j := g.copies[j] + 1]) else g
  }

  /** The first publish of a row opens a new try. */
  function Tried(g: Log, reached: nat): Log {
    if reached == 0 then g.(tries := g.tries + 1) else g
  }

  ghost predicate WorkLabel(l: Label) {
    l.Skip? || l.Send? || l.Fail? || l.Mark?
  }

  /** The drain after a step on its current row. A publish that throws ends the
      row; a row all of whose targets were reached is marked. */
  ghost function NextDrain(s: State, l: Label): Drain
    requires WorkLabel(l) && Working(s, l.r)
  {
    var d, id := s.drains[l.r], Current(s, l.r);
    match l
    case Skip(_) => d.(pos := d.pos + 1)
    case Send(_) => d.(reached := d.reached + 1)
    case Fail(_, _) => d.(pos := d.pos + 1, reached := 0, bumped := d.bumped + {id})
    case _ => d.(pos := d.pos + 1, reached := 0, marked := d.marked + {id})
  }

  /** The history of the current row after the step. When a publish throws the
      broker may have taken the message all the same. */
  ghost function NextLog(s: State, l: Label): Log
    requires WorkLabel(l) && Working(s, l.r)
  {
    var m, g := s.drains[l.r].reached, s.log[Current(s, l.r)];
    match l
    case Send(_) => Tried(Delivered(g, m), m)
    case Fail(_, delivered) =>
      Tried(if delivered then Delivered(g, m) else g, m).(failed := g.failed + 1)
    case _ => g
  }

  ghost function Worked(s: State, l: Label): State
    requires WorkLabel(l) && Working(s, l.r)
  {
    s.(drains := s.drains[l.r := NextDrain(s, l)], log := s.log[Current(s, l.r) := NextLog(s, l)])
  }

  function Updated(rows: map<Id, Row>, marked: set<Id>, bumped: set<Id>): map<Id, Row> {
    map id | id in rows ::
      rows[id].(published := rows[id].published || id in marked,
                attempts := rows[id].attempts + (if id in bumped then 1 else 0))
  }

  function Lost(log: map<Id, Log>, ids: set<Id>): map<Id, Log> {
    map id | id in log :: if id in ids then log[id].(rolledBack := log[id].rolledBack + 1) else log[id]
  }

  /** Rows whose messages went out in a drain that is now being undone. */
  ghost function Undone(s: State, r: Replica): set<Id>
    requires r in s.drains
  {
    s.drains[r].marked + (if Working(s, r) && s.drains[r].reached > 0 then {Current(s, r)} else {})
  }

  ghost function Next(targets: Targets, s: State, l: Label): State
    requires Enabled(targets, s, l)
  {
    match l
    case Insert(id, pattern, payload) =>
      s.(rows := s.rows[id := Row(pattern, payload, false, 0)],
         log := s.log[id := Log(seq(|ClientsFor(targets, pattern)|, _ => 0), 0, 0, 0)])
    case Begin(r) => s.(drains := s.drains[r := Drain(Select(Candidates(s)), 0, 0, {}, {})])
    case Commit(r) =>
      s.(rows := Updated(s.rows, s.drains[r].marked, s.drains[r].bumped), drains := s.drains - {r})
    case Rollback(r) =>
      s.(drains := s.drains - {r}, log := Lost(s.log, Undone(s, r)))
    case _ => Worked(s, l)
  }

  /** The message a step puts on a target's queue. */
  ghost function Emitted(targets: Targets, s: State, l: Label): Option<Message>
    requires Enabled(targets, s, l)
  {
    if l.Send? || (l.Fail? && l.delivered) then
      var id := Current(s, l.r);
      Some(Message(id, Route(targets, s, id)[s.drains[l.r].reached],
                   s.rows[id].pattern, Strip(s.rows[id].payload)))
    else None
  }

  // ---- Runs --------------------------------------------------------------

  const Init := State(map[], map[], map[])

  ghost function System(targets: Targets): Machine<State, Label> {
    Machine((s, l) => Enabled(targets, s, l), (s, l) => if Enabled(targets, s, l) then Next(targets, s, l) else s)
  }

  // ---- Locks -------------------------------------------------------------

  ghost predicate DrainOk(targets: Targets, s: State, r: Replica)
    requires r in s.drains
  {
    DrainFits(targets, s, s.drains[r])
  }

  ghost predicate DrainFits(targets: Targets, s: State, d: Drain) {
    && Increasing(d.batch)
    && |d.batch| <= BATCH_SIZE
    && d.pos <= |d.batch|
    && (forall id :: id in d.batch ==> id in s.rows && id in s.log && !s.rows[id].published)
    && (forall id :: id in d.marked || id in d.bumped ==> id in d.batch[..d.pos])
    && d.marked !! d.bumped
    && (if d.pos < |d.batch| then d.reached <= |ClientsFor(targets, s.rows[d.batch[d.pos]].pattern)|
        else d.reached == 0)
  }

  /** Rows locked by different drains are disjoint, and all of them pending. */
  ghost predicate LocksInv(targets: Targets, s: State) {
    && s.rows.Keys == s.log.Keys
    && (forall r :: r in s.drains ==> DrainOk(targets, s, r))
    && (forall r1, r2, id ::
          (r1 in s.drains && r2 in s.drains && id in s.drains[r1].batch && id in s.drains[r2].batch) ==> r1 == r2)
  }

  lemma PositionNotBefore(q: seq<Id>, pos: nat)
    requires Increasing(q) && pos < |q|
    ensures q[pos] !in q[..pos]
    ensures q[..pos + 1] == q[..pos] + [q[pos]]
  {
  }

  lemma LocksStep(targets: Targets, s: State, l: Label)
    requires LocksInv(targets, s) && Enabled(targets, s, l)
    ensures LocksInv(targets, Next(targets, s, l))
  {
    match l
    case Insert(_, _, _) => LocksInsert(targets, s, l);
    case Begin(r) => LocksBegin(targets, s, l);
    case Skip(r) => LocksWork(targets, s, l);
    case Send(r) => LocksWork(targets, s, l);
    case Fail(r, _) => LocksWork(targets, s, l);
    case Mark(r) => LocksWork(targets, s, l);
    case Commit(r) => LocksEnd(targets, s, l);
    case Rollback(r) => LocksEnd(targets, s, l);
  }

  lemma LocksInsert(targets: Targets, s: State, l: Label)
    requires LocksInv(targets, s) && l.Insert? && Enabled(targets, s, l)
    ensures LocksInv(targets, Next(targets, s, l))
  {
    var s' := Next(targets, s, l);
    forall r | r in s'.drains ensures DrainOk(targets, s', r) {
      assert DrainOk(targets, s, r);
    }
  }

  lemma LocksBegin(targets: Targets, s: State, l: Label)
    requires LocksInv(targets, s) && l.Begin? && Enabled(targets, s, l)
    ensures LocksInv(targets, Next(targets, s, l))
  {
    var s' := Next(targets, s, l);
    SelectTakesSmallest(Candidates(s));
    forall r | r in s'.drains ensures DrainOk(targets, s', r) {
      if r != l.r { assert DrainOk(targets, s, r); }
    }
    assert forall id :: id in s'.drains[l.r].batch ==> !Locked(s, id);
  }

  lemma LocksWork(targets: Targets, s: State, l: Label)
    requires LocksInv(targets, s) && WorkLabel(l) && Enabled(targets, s, l)
    ensures LocksInv(targets, Worked(s, l))
  {
    var s' := Worked(s, l);
    assert DrainOk(targets, s, l.r);
    NextDrainOk(targets, s, l);
    LocksReplace(targets, s, l.r, NextDrain(s, l), Current(s, l.r), NextLog(s, l));
  }

  lemma NextDrainOk(targets: Targets, s: State, l: Label)
    requires WorkLabel(l) && Enabled(targets, s, l) && DrainOk(targets, s, l.r)
    ensures DrainFits(targets, s, NextDrain(s, l)) && NextDrain(s, l).batch == s.drains[l.r].batch
  {
    var d := s.drains[l.r];
    PositionNotBefore(d.batch, d.pos);
  }

  lemma LocksReplace(targets: Targets, s: State, r: Replica, d: Drain, id: Id, g: Log)
    requires LocksInv(targets, s) && r in s.drains && d.batch == s.drains[r].batch && DrainFits(targets, s, d)
    requires id in s.log
    ensures LocksInv(targets, s.(drains := s.drains[r := d], log := s.log[id := g]))
  {
    var s' := s.(drains := s.drains[r := d], log := s.log[id := g]);
    forall q | q in s'.drains ensures DrainOk(targets, s', q) {
      assert DrainOk(targets, s, q);
    }
  }

  lemma LocksEnd(targets: Targets, s: State, l: Label)
    requires LocksInv(targets, s) && Enabled(targets, s, l)
    requires l.Commit? || l.Rollback?
    ensures LocksInv(targets, Next(targets, s, l))
  {
    var s' := Next(targets, s, l);
    assert DrainOk(targets, s, l.r);
    forall r | r in s'.drains ensures DrainOk(targets, s', r) {
      assert DrainOk(targets, s, r);
    }
  }

  // ---- Copies ------------------------------------------------------------

  /** Drain `r` is part-way through publishing row `id`. */
  ghost predicate Open(s: State, id: Id, r: Replica) {
    Working(s, r) && Current(s, r) == id && s.drains[r].reached > 0
  }

  /** Drain `r` has published row `id` but not committed. */
  ghost predicate Done(s: State, id: Id, r: Replica) {
    r in s.drains && id in s.drains[r].marked
  }

  ghost predicate InProgress(s: State, id: Id) {
    exists r :: Open(s, id, r) || Done(s, id, r)
  }

  ghost predicate SentToAll(g: Log) {
    forall j :: 0 <= j < |g.copies| ==> g.copies[j] >= 1
  }

  /** Earlier targets of a route never have fewer copies than later ones. */
  ghost predicate EarlierFirst(g: Log) {
    forall j :: 0 < j < |g.copies| ==> g.copies[j - 1] >= g.copies[j]
  }

  /** What the history of a row looks like when `reached` of its targets have
      been reached in an open try, or a whole try (`done`) awaits its commit. */
  ghost predicate LogOk(g: Log, published: bool, reached: nat, done: bool) {
    && reached <= |g.copies|
    && (published || done ==> SentToAll(g))
    && EarlierFirst(g)
    && (forall j :: 0 <= j < reached ==> g.copies[j] >= 1)
    && (0 < reached < |g.copies| ==> g.copies[reached - 1] > g.copies[reached])
    && (forall j :: 0 <= j < |g.copies| ==> g.copies[j] <= g.tries)
    && (reached > 0 ==> forall j :: reached <= j < |g.copies| ==> g.copies[j] < g.tries)
    && g.tries == (if published then 1 else 0) + g.failed + g.rolledBack + (if reached > 0 || done then 1 else 0)
  }

  ghost predicate RowOk(targets: Targets, s: State, id: Id)
    requires id in s.rows && id in s.log
  {
    && |s.log[id].copies| == |Route(targets, s, id)|
    && (forall r :: Open(s, id, r) ==> LogOk(s.log[id], s.rows[id].published, s.drains[r].reached, false))
    && (forall r :: Done(s, id, r) ==> LogOk(s.log[id], s.rows[id].published, 0, true))
    && (!InProgress(s, id) ==> LogOk(s.log[id], s.rows[id].published, 0, false))
  }

  ghost predicate Inv(targets: Targets, s: State) {
    LocksInv(targets, s) && forall id :: id in s.rows ==> RowOk(targets, s, id)
  }

  lemma LogSend(g: Log, m: nat)
    requires LogOk(g, false, m, false) && m < |g.copies|
    ensures LogOk(Tried(Delivered(g, m), m), false, m + 1, false)
  {
  }

  lemma LogFail(g: Log, m: nat, delivered: bool)
    requires LogOk(g, false, m, false) && m < |g.copies|
    ensures LogOk(Tried(if delivered then Delivered(g, m) else g, m).(failed := g.failed + 1), false, 0, false)
  {
  }

  /** Nothing that matters to row `id` changed. */
  ghost predicate SameFor(s: State, s': State, id: Id)
    requires id in s.rows && id in s.log
  {
    && id in s'.rows && id in s'.log && s'.rows[id].pattern == s.rows[id].pattern
    && s'.rows[id].published == s.rows[id].published
    && s'.log[id] == s.log[id]
    && (forall r :: Done(s', id, r) <==> Done(s, id, r))
    && (forall r :: Open(s', id, r) <==> Open(s, id, r))
    && (forall r :: Open(s, id, r) ==> s'.drains[r].reached == s.drains[r].reached)
  }

  lemma SameKeepsRow(targets: Targets, s: State, s': State, id: Id)
    requires id in s.rows && id in s.log && RowOk(targets, s, id) && SameFor(s, s', id)
    ensures RowOk(targets, s', id)
  {
    if InProgress(s, id) {
      var r :| Open(s, id, r) || Done(s, id, r);
      assert Open(s', id, r) || Done(s', id, r);
    }
  }

  /** The row a drain works on is no other drain's business. */
  lemma OnlyHolder(targets: Targets, s: State, r: Replica)
    requires LocksInv(targets, s) && Working(s, r)
    ensures forall q :: (Open(s, Current(s, r), q) || Done(s, Current(s, r), q)) ==> q == r
    ensures !Done(s, Current(s, r), r)
    ensures !s.rows[Current(s, r)].published
  {
    assert DrainOk(targets, s, r);
    PositionNotBefore(s.drains[r].batch, s.drains[r].pos);
    assert Current(s, r) in s.drains[r].batch;
    forall q | Open(s, Current(s, r), q) || Done(s, Current(s, r), q) ensures q == r {
      assert DrainOk(targets, s, q);
      assert Current(s, r) in s.drains[q].batch;
    }
  }

  /** The history of the row being worked on, before the step. */
  lemma CurrentLog(targets: Targets, s: State, r: Replica)
    requires Inv(targets, s) && Working(s, r)
    ensures LogOk(s.log[Current(s, r)], false, s.drains[r].reached, false)
  {
    var id := Current(s, r);
    OnlyHolder(targets, s, r);
    assert RowOk(targets, s, id);
    if s.drains[r].reached > 0 {
      assert Open(s, id, r);
    } else {
      assert !InProgress(s, id);
    }
  }

  /** Every row but the one being worked on is left alone. */
  lemma OtherRowsSame(targets: Targets, s: State, l: Label, id: Id)
    requires LocksInv(targets, s) && Enabled(targets, s, l) && WorkLabel(l)
    requires id in s.rows && id != Current(s, l.r)
    ensures SameFor(s, Next(targets, s, l), id)
  {
    var s' := Next(targets, s, l);
    forall r ensures Open(s', id, r) <==> Open(s, id, r) {
      if r == l.r { assert !Open(s, id, r); }
    }
  }

  /** After a step on it, a row is open only if the step was a send, and done
      only if the step marked it. */
  lemma AfterWork(targets: Targets, s: State, l: Label)
    requires LocksInv(targets, s) && Enabled(targets, s, l) && WorkLabel(l)
    ensures var s', id := Next(targets, s, l), Current(s, l.r);
      && (forall q :: Open(s', id, q) ==> q == l.r && l.Send?)
      && (forall q :: Done(s', id, q) ==> q == l.r && l.Mark?)
  {
    var s', id := Next(targets, s, l), Current(s, l.r);
    OnlyHolder(targets, s, l.r);
    PositionNotBefore(s.drains[l.r].batch, s.drains[l.r].pos);
    forall q | Done(s', id, q) ensures q == l.r && l.Mark? {
      if q != l.r || !l.Mark? { assert Done(s, id, q); }
    }
    forall q | Open(s', id, q) ensures q == l.r && l.Send? {
      if q != l.r { assert Open(s, id, q); }
    }
  }

  lemma WorkKeepsCurrent(targets: Targets, s: State, l: Label)
    requires Inv(targets, s) && Enabled(targets, s, l) && WorkLabel(l)
    ensures RowOk(targets, Next(targets, s, l), Current(s, l.r))
  {
    AfterWork(targets, s, l);
    CurrentLog(targets, s, l.r);
    assert RowOk(targets, s, Current(s, l.r));
    match l
    case Skip(r) =>
    case Send(r) => SendKeepsRow(targets, s, r);
    case Fail(r, delivered) => LogFail(s.log[Current(s, r)], s.drains[r].reached, delivered);
    case Mark(r) => MarkKeepsRow(targets, s, r);
  }

  lemma SendKeepsRow(targets: Targets, s: State, r: Replica)
    requires Inv(targets, s) && Enabled(targets, s, Send(r))
    ensures RowOk(targets, Next(targets, s, Send(r)), Current(s, r))
  {
    var s', id := Next(targets, s, Send(r)), Current(s, r);
    AfterWork(targets, s, Send(r));
    CurrentLog(targets, s, r);
    assert RowOk(targets, s, id);
    LogSend(s.log[id], s.drains[r].reached);
    OnlyHolder(targets, s, r);
    assert Open(s', id, r);
  }

  lemma MarkKeepsRow(targets: Targets, s: State, r: Replica)
    requires Inv(targets, s) && Enabled(targets, s, Mark(r))
    ensures RowOk(targets, Next(targets, s, Mark(r)), Current(s, r))
  {
    var s', id := Next(targets, s, Mark(r)), Current(s, r);
    AfterWork(targets, s, Mark(r));
    CurrentLog(targets, s, r);
    assert RowOk(targets, s, id);
    OnlyHolder(targets, s, r);
    assert Done(s', id, r);
  }

  lemma OnlySelf(s: State, r: Replica, id: Id, targets: Targets)
    requires LocksInv(targets, s) && r in s.drains && id in s.drains[r].batch
    ensures forall q :: (Open(s, id, q) || Done(s, id, q)) ==> q == r
    ensures id in s.rows && !s.rows[id].published
  {
    assert DrainOk(targets, s, r);
    forall q | Open(s, id, q) || Done(s, id, q) ensures q == r {
      assert DrainOk(targets, s, q);
      assert id in s.drains[q].batch;
    }
  }

  /** Closing a drain leaves the progress of the other drains alone. */
  lemma EndFrame(targets: Targets, s: State, l: Label, id: Id)
    requires LocksInv(targets, s) && Enabled(targets, s, l) && (l.Commit? || l.Rollback?)
    ensures var s' := Next(targets, s, l);
      && s'.rows.Keys == s.rows.Keys && s'.log.Keys == s.log.Keys
      && (forall q :: Open(s', id, q) <==> q != l.r && Open(s, id, q))
      && (forall q :: Done(s', id, q) <==> q != l.r && Done(s, id, q))
  {
    var s' := Next(targets, s, l);
    forall q ensures Open(s', id, q) <==> q != l.r && Open(s, id, q) {
      if q in s.drains && q != l.r {
        assert s'.drains[q] == s.drains[q];
        assert Working(s', q) <==> Working(s, q);
      }
    }
  }

  lemma EndKeepsRow(targets: Targets, s: State, l: Label, id: Id)
    requires Inv(targets, s) && Enabled(targets, s, l) && (l.Commit? || l.Rollback?)
    requires id in s.rows
    ensures RowOk(targets, Next(targets, s, l), id)
  {
    var s' := Next(targets, s, l);
    EndFrame(targets, s, l, id);
    assert DrainOk(targets, s, l.r);
    assert RowOk(targets, s, id);
    if Done(s, id, l.r) || Open(s, id, l.r) {
      assert id in s.drains[l.r].batch;
      OnlySelf(s, l.r, id, targets);
      EndSettlesRow(targets, s, l, id);
    } else {
      assert id !in s.drains[l.r].marked;
      SameKeepsRow(targets, s, s', id);
    }
  }

  /** A row published in the drain becomes published on commit and counts a
      lost publication on rollback. */
  lemma EndSettlesRow(targets: Targets, s: State, l: Label, id: Id)
    requires Inv(targets, s) && Enabled(targets, s, l) && (l.Commit? || l.Rollback?)
    requires id in s.rows && (Done(s, id, l.r) || Open(s, id, l.r)) && !s.rows[id].published
    requires forall q :: (Open(s, id, q) || Done(s, id, q)) ==> q == l.r
    ensures RowOk(targets, Next(targets, s, l), id)
  {
    var s' := Next(targets, s, l);
    EndFrame(targets, s, l, id);
    assert RowOk(targets, s, id);
    assert !InProgress(s', id);
    if l.Commit? {
      assert Done(s, id, l.r);
      assert s'.log[id] == s.log[id] && s'.rows[id].published;
    } else {
      assert id in Undone(s, l.r);
      assert s'.log[id] == s.log[id].(rolledBack := s.log[id].rolledBack + 1);
    }
  }

  lemma BeginKeepsRow(targets: Targets, s: State, l: Label, id: Id)
    requires Inv(targets, s) && Enabled(targets, s, l) && l.Begin? && id in s.rows
    ensures RowOk(targets, Next(targets, s, l), id)
  {
    var s' := Next(targets, s, l);
    assert RowOk(targets, s, id);
    assert forall q :: Open(s', id, q) <==> Open(s, id, q);
    SameKeepsRow(targets, s, s', id);
  }

  lemma InsertKeepsRow(targets: Targets, s: State, l: Label, id: Id)
    requires Inv(targets, s) && Enabled(targets, s, l) && l.Insert? && id in s.rows + map[l.id := Row(l.pattern, l.payload, false, 0)]
    ensures RowOk(targets, Next(targets, s, l), id)
  {
    var s' := Next(targets, s, l);
    forall q ensures Open(s', id, q) ==> id in s.rows && Open(s, id, q) {
      if q in s.drains { assert DrainOk(targets, s, q); }
    }
    if id == l.id {
      forall q ensures !Done(s', id, q) {
        if q in s.drains { assert DrainOk(targets, s, q); }
      }
      assert !InProgress(s', id);
    } else {
      assert RowOk(targets, s, id);
      assert forall q :: Open(s, id, q) ==> Open(s', id, q);
      SameKeepsRow(targets, s, s', id);
    }
  }

  /** Relay safety is kept by every step of every replica. */
  lemma InvStep(targets: Targets, s: State, l: Label)
    requires Inv(targets, s) && Enabled(targets, s, l)
    ensures Inv(targets, Next(targets, s, l))
  {
    var s' := Next(targets, s, l);
    LocksStep(targets, s, l);
    forall id | id in s'.rows ensures RowOk(targets, s', id) {
      match l
      case Insert(_, _, _) => InsertKeepsRow(targets, s, l, id);
      case Begin(_) => BeginKeepsRow(targets, s, l, id);
      case Commit(_) => EndKeepsRow(targets, s, l, id);
      case Rollback(_) => EndKeepsRow(targets, s, l, id);
      case _ =>
        if id == Current(s, l.r) {
          WorkKeepsCurrent(targets, s, l);
        } else {
          OtherRowsSame(targets, s, l, id);
          SameKeepsRow(targets, s, s', id);
        }
    }
  }

  lemma InvRun(targets: Targets, s: State, ls: seq<Label>)
    requires Inv(targets, s) && Valid(System(targets), s, ls)
    ensures Inv(targets, Exec(System(targets), s, ls))
  {
    forall t, l | Inv(targets, t) && Enabled(targets, t, l) ensures Inv(targets, Next(targets, t, l)) {
      InvStep(targets, t, l);
    }
    Invariant(System(targets), t => Inv(targets, t), _ => true, s, ls);
  }

  /** In every reachable state: no row is locked twice, locked rows are
      pending; each target of a published row has a copy (that these copies are
      the messages sent, and that no other target gets one, is
      `RelayMessages.OnlyItsTargets`); earlier targets are never behind later ones; and no target got more
      copies than one, plus the failed tries, plus the drains that published
      the row and were rolled back, plus a try that is still open. */
  lemma RelaySafety(targets: Targets, ls: seq<Label>)
    requires Valid(System(targets), Init, ls)
    ensures var s := Exec(System(targets), Init, ls);
      && s.rows.Keys == s.log.Keys
      && (forall r1, r2, id ::
            (r1 in s.drains && r2 in s.drains && id in s.drains[r1].batch && id in s.drains[r2].batch) ==> r1 == r2)
      && (forall r, id :: r in s.drains && id in s.drains[r].batch ==> id in s.rows && !s.rows[id].published)
      && (forall id :: id in s.rows ==>
            var g := s.log[id];
            && |g.copies| == |ClientsFor(targets, s.rows[id].pattern)|
            && (s.rows[id].published ==> SentToAll(g))
            && EarlierFirst(g)
            && (forall j :: 0 <= j < |g.copies| ==>
                  g.copies[j] <= (if s.rows[id].published then 1 else 0) + g.failed + g.rolledBack
                               + (if InProgress(s, id) then 1 else 0)))
  {
    InvRun(targets, Init, ls);
    var s := Exec(System(targets), Init, ls);
    forall r, id | r in s.drains && id in s.drains[r].batch ensures id in s.rows && !s.rows[id].published {
      assert DrainOk(targets, s, r);
    }
    forall id | id in s.rows
      ensures |s.log[id].copies| == |ClientsFor(targets, s.rows[id].pattern)|
      ensures exists reached, done :: LogOk(s.log[id], s.rows[id].published, reached, done)
                && (reached > 0 || done ==> InProgress(s, id))
    {
      assert RowOk(targets, s, id);
    }
  }

  /** Some message of the row went out and has not been given up on. */
  ghost predicate SentOnce(s: State, id: Id) {
    id in s.rows && (s.rows[id].published || InProgress(s, id))
  }

  /** Only a send makes a row count as sent. */
  lemma SentOnceStep(targets: Targets, s: State, l: Label, id: Id)
    requires LocksInv(targets, s) && Enabled(targets, s, l) && SentOnce(Next(targets, s, l), id)
    ensures SentOnce(s, id) || (l.Send? && id == Current(s, l.r))
  {
    var s' := Next(targets, s, l);
    if InProgress(s', id) {
      var q :| Open(s', id, q) || Done(s', id, q);
      if WorkLabel(l) {
        SentOnceWork(targets, s, l, id);
      } else if l.Commit? || l.Rollback? {
        EndFrame(targets, s, l, id);
      } else {
        if q in s.drains { assert DrainOk(targets, s, q); }
        assert Open(s, id, q) || Done(s, id, q);
      }
    } else if l.Commit? && !s.rows[id].published {
      assert Done(s, id, l.r);
    }
  }

  lemma SentOnceWork(targets: Targets, s: State, l: Label, id: Id)
    requires LocksInv(targets, s) && WorkLabel(l) && Enabled(targets, s, l)
    requires id in s.rows && InProgress(Next(targets, s, l), id)
    ensures InProgress(s, id) || (l.Send? && id == Current(s, l.r))
  {
    if id == Current(s, l.r) {
      AfterWork(targets, s, l);
      assert l.Mark? ==> Open(s, id, l.r);
    } else {
      OtherRowsSame(targets, s, l, id);
    }
  }

  lemma RowsOnlyProgress(targets: Targets, s: State, l: Label, id: Id)
    requires Enabled(targets, s, l) && id in s.rows
    ensures Progressed(s.rows[id], Next(targets, s, l), id)
  {
  }

  ghost predicate Progressed(row: Row, s: State, id: Id) {
    && id in s.rows && s.rows[id].pattern == row.pattern && s.rows[id].payload == row.payload
    && (row.published ==> s.rows[id].published) && row.attempts <= s.rows[id].attempts
  }

  /** Over every run no committed event is removed, rewritten or put back to
      pending. */
  lemma RowsPersist(targets: Targets, s: State, ls: seq<Label>, id: Id)
    requires id in s.rows && Valid(System(targets), s, ls)
    ensures Progressed(s.rows[id], Exec(System(targets), s, ls), id)
  {
    var inv := (t: State) => Progressed(s.rows[id], t, id);
    forall t: State, l: Label | inv(t) && Enabled(targets, t, l) ensures inv(Next(targets, t, l)) {
      RowsOnlyProgress(targets, t, l, id);
    }
    Invariant(System(targets), inv, _ => true, s, ls);
  }
}
