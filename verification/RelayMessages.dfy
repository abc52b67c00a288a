/** The relay's counters are what its targets really got: every message a run
    puts on a queue goes to a target of its row's pattern with the row's own
    payload, and the copies of a row are the messages that went out. */
module RelayMessages {
  import opened Prelude
  import opened Envelope
  import opened Runs
  import opened Relay
  import opened DrainRefinement
  import Projection

  /** How many of the messages are row `id`'s for this target. */
  function Received(ms: seq<Message>, id: Id, target: Target): nat {
    if ms == [] then 0
    else (if ms[0].row == id && ms[0].target == target then 1 else 0) + Received(ms[1..], id, target)
  }

  lemma {:induction false} ReceivedConcat(a: seq<Message>, b: seq<Message>, id: Id, target: Target)
    ensures Received(a + b, id, target) == Received(a, id, target) + Received(b, id, target)
  {
    if a == [] {
      assert a + b == b;
    } else {
      assert (a + b)[1..] == a[1..] + b;
      ReceivedConcat(a[1..], b, id, target);
    }
  }

  /** Copies counted per position of the route, summed per target. */
  function Tally(route: seq<Target>, copies: seq<nat>, target: Target): nat
    requires |route| == |copies|
  {
    if route == [] then 0
    else (if route[0] == target then copies[0] else 0) + Tally(route[1..], copies[1..], target)
  }

  lemma {:induction false} TallyUpdate(route: seq<Target>, copies: seq<nat>, j: nat, target: Target)
    requires |route| == |copies| && j < |route|
    ensures Tally(route, copies[j := copies[j] + 1], target) == Tally(route, copies, target) + (if route[j] == target then 1 else 0)
  {
    if j > 0 {
      assert copies[j := copies[j] + 1][1..] == copies[1..][j - 1 := copies[1..][j - 1] + 1];
      TallyUpdate(route[1..], copies[1..], j - 1, target);
    } else {
      assert copies[0 := copies[0] + 1][1..] == copies[1..];
    }
  }

  lemma {:induction false} TallyZero(route: seq<Target>, copies: seq<nat>, target: Target)
    requires |route| == |copies| && forall j :: 0 <= j < |copies| ==> route[j] == target ==> copies[j] == 0
    ensures Tally(route, copies, target) == 0
  {
    if route != [] { TallyZero(route[1..], copies[1..], target); }
  }

  lemma {:induction false} TallyAtLeast(route: seq<Target>, copies: seq<nat>, j: nat)
    requires |route| == |copies| && j < |route|
    ensures Tally(route, copies, route[j]) >= copies[j]
    ensures (forall i :: 0 <= i < |route| && i != j ==> route[i] != route[j]) ==> Tally(route, copies, route[j]) == copies[j]
  {
    if j > 0 {
      TallyAtLeast(route[1..], copies[1..], j - 1);
      assert route[1..][j - 1] == route[j];
      assert forall i :: 0 <= i < |route[1..]| ==> route[1..][i] == route[i + 1];
    } else if forall i :: 0 <= i < |route| && i != 0 ==> route[i] != route[0] {
      TallyZero(route[1..], copies[1..], route[0]);
    }
  }

  /** What the counters say row `id` sent to the target so far. */
  ghost function Counted(targets: Targets, s: State, id: Id, target: Target): nat {
    if id in s.rows && id in s.log && |s.log[id].copies| == |Route(targets, s, id)|
    then Tally(Route(targets, s, id), s.log[id].copies, target) else 0
  }

  /** The message is one of its row's, for a target of the row's pattern. */
  ghost predicate Genuine(targets: Targets, rows: map<Id, Row>, m: Message) {
    && m.row in rows && m.pattern == rows[m.row].pattern
    && m.target in ClientsFor(targets, rows[m.row].pattern)
    && m.payload == Strip(rows[m.row].payload)
  }

  lemma EmissionGenuine(targets: Targets, s: State, l: Label)
    requires Enabled(targets, s, l)
    ensures |Emission(targets, s, l)| <= 1
    ensures forall m :: m in Emission(targets, s, l) ==> Genuine(targets, s.rows, m)
  {
  }

  /** A step adds to the counters exactly the message it sends. */
  lemma StepCounts(targets: Targets, s: State, l: Label, id: Id, target: Target)
    requires Inv(targets, s) && Enabled(targets, s, l)
    ensures Counted(targets, Next(targets, s, l), id, target)
         == Counted(targets, s, id, target) + Received(Emission(targets, s, l), id, target)
  {
    if WorkLabel(l) {
      WorkCounts(targets, s, l, id, target);
    } else {
      OtherCounts(targets, s, l, id, target);
    }
  }

  lemma WorkCounts(targets: Targets, s: State, l: Label, id: Id, target: Target)
    requires Inv(targets, s) && Enabled(targets, s, l) && WorkLabel(l) && Working(s, l.r)
    ensures Counted(targets, Next(targets, s, l), id, target)
         == Counted(targets, s, id, target) + Received(Emission(targets, s, l), id, target)
  {
    hide LogOk, LocksInv, InProgress, Open, Done, Next, Enabled, Emission, Tally, Received;
    var cur := Current(s, l.r);
    var g, j := s.log[cur], s.drains[l.r].reached;
    assert RowOk(targets, s, cur);
    hide Inv;
    EmissionReceived(targets, s, l, id, target);
    NextCopies(targets, s, l, id);
    if Sends(l) { TallyUpdate(Route(targets, s, cur), g.copies, j, target); }
  }

  predicate Sends(l: Label) {
    l.Send? || (l.Fail? && l.delivered)
  }

  lemma EmissionReceived(targets: Targets, s: State, l: Label, id: Id, target: Target)
    requires Enabled(targets, s, l) && WorkLabel(l)
    ensures Sends(l) ==> s.drains[l.r].reached < |Route(targets, s, Current(s, l.r))|
    ensures Received(Emission(targets, s, l), id, target)
         == if Sends(l) && Current(s, l.r) == id && Route(targets, s, id)[s.drains[l.r].reached] == target then 1 else 0
  {
    var n := Emission(targets, s, l);
    if Sends(l) { assert n == [Emitted(targets, s, l).value] && n[1..] == []; }
  }

  lemma NextCopies(targets: Targets, s: State, l: Label, id: Id)
    requires LocksInv(targets, s) && Enabled(targets, s, l) && WorkLabel(l) && Working(s, l.r)
    requires |s.log[Current(s, l.r)].copies| == |Route(targets, s, Current(s, l.r))|
    ensures var s', cur := Next(targets, s, l), Current(s, l.r);
      && s'.rows == s.rows && s'.log.Keys == s.log.Keys
      && (id in s.log ==>
            s'.log[id].copies == (if id == cur && Sends(l)
                                  then s.log[id].copies[s.drains[l.r].reached := s.log[id].copies[s.drains[l.r].reached] + 1]
                                  else s.log[id].copies))
  {
  }

  lemma OtherCounts(targets: Targets, s: State, l: Label, id: Id, target: Target)
    requires LocksInv(targets, s) && Enabled(targets, s, l) && !WorkLabel(l)
    ensures Emission(targets, s, l) == []
    ensures Counted(targets, Next(targets, s, l), id, target) == Counted(targets, s, id, target)
  {
    var s' := Next(targets, s, l);
    if l.Insert? && id == l.id {
      TallyZero(Route(targets, s', id), s'.log[id].copies, target);
    }
    hide Tally;
  }

  /** Over any run the counters grow by exactly the messages sent, and every
      message is genuine. */
  lemma {:induction false} Ledger(targets: Targets, s: State, ls: seq<Label>)
    requires Inv(targets, s) && Valid(System(targets), s, ls)
    ensures var s', ms := Exec(System(targets), s, ls), Emissions(targets, s, ls);
      && (forall id, t :: Counted(targets, s', id, t) == Counted(targets, s, id, t) + Received(ms, id, t))
      && (forall m :: m in ms ==> Genuine(targets, s'.rows, m))
    decreases |ls|
  {
    hide Next, Enabled, Inv, Emission, Counted, Genuine, Received;
    if ls == [] {
      NothingReceived();
    } else {
      var l, t := ls[0], Next(targets, s, ls[0]);
      InvStep(targets, s, l);
      Ledger(targets, t, ls[1..]);
      var first, rest := Emission(targets, s, l), Emissions(targets, t, ls[1..]);
      assert Emissions(targets, s, ls) == first + rest;
      forall id, target ensures Received(first + rest, id, target) == Received(first, id, target) + Received(rest, id, target)
        && Counted(targets, t, id, target) == Counted(targets, s, id, target) + Received(first, id, target)
      {
        ReceivedConcat(first, rest, id, target);
        StepCounts(targets, s, l, id, target);
      }
      var s' := Exec(System(targets), s, ls);
      assert s' == Exec(System(targets), t, ls[1..]);
      forall m | m in first + rest ensures Genuine(targets, s'.rows, m) {
        if m in first {
          FirstStaysGenuine(targets, s, ls, m);
        } else {
          assert m in rest;
          assert Genuine(targets, Exec(System(targets), t, ls[1..]).rows, m);
        }
      }
    }
  }

  lemma NothingReceived()
    ensures forall id, t :: Received([], id, t) == 0
  {
  }

  lemma FirstStaysGenuine(targets: Targets, s: State, ls: seq<Label>, m: Message)
    requires ls != [] && Valid(System(targets), s, ls) && m in Emission(targets, s, ls[0])
    ensures Genuine(targets, Exec(System(targets), s, ls).rows, m)
  {
    EmissionGenuine(targets, s, ls[0]);
    RowsPersist(targets, s, ls, m.row);
    hide Next, Enabled, Emission;
  }

  /** In every run, with any number of replicas and crashes: no target outside a
      pattern's route ever gets a message of a row, what a target gets carries
      the row's pattern and stripped payload, the counters of `RelaySafety` are
      the messages sent, and a published row has reached every target of its
      route. */
  lemma OnlyItsTargets(targets: Targets, ls: seq<Label>)
    requires Valid(System(targets), Init, ls)
    ensures var s, ms := Exec(System(targets), Init, ls), Emissions(targets, Init, ls);
      && (forall m :: m in ms ==> Genuine(targets, s.rows, m))
      && (forall id :: id in s.rows ==> RowLedger(targets, s, ms, id))
  {
    InvRun(targets, Init, ls);
    Ledger(targets, Init, ls);
    var s, ms := Exec(System(targets), Init, ls), Emissions(targets, Init, ls);
    assert forall id, t :: Counted(targets, Init, id, t) == 0;
    hide Inv, Valid, Exec, Emissions, Counted, Received, Genuine, RowLedger;
    forall id | id in s.rows ensures RowLedger(targets, s, ms, id) {
      forall t ensures Counted(targets, s, id, t) == Received(ms, id, t) {
        assert Counted(targets, s, id, t) == Counted(targets, Init, id, t) + Received(ms, id, t);
      }
      RowLedgerHolds(targets, s, ms, id);
    }
  }

  /** Messages and counters of row `id` agree. */
  ghost predicate RowLedger(targets: Targets, s: State, ms: seq<Message>, id: Id)
    requires id in s.rows
  {
    var route := Route(targets, s, id);
    && id in s.log && |s.log[id].copies| == |route|
    && (forall t :: Received(ms, id, t) == Tally(route, s.log[id].copies, t))
    && (forall t :: t !in route ==> Received(ms, id, t) == 0)
    && (forall j :: 0 <= j < |route| && (forall i :: 0 <= i < |route| && i != j ==> route[i] != route[j]) ==>
          Received(ms, id, route[j]) == s.log[id].copies[j])
    && (s.rows[id].published ==> forall t :: t in route ==> Received(ms, id, t) >= 1)
  }

  lemma RowLedgerHolds(targets: Targets, s: State, ms: seq<Message>, id: Id)
    requires Inv(targets, s) && id in s.rows
    requires forall t :: Counted(targets, s, id, t) == Received(ms, id, t)
    ensures RowLedger(targets, s, ms, id)
  {
    var route, copies := Route(targets, s, id), s.log[id].copies;
    assert RowOk(targets, s, id);
    if s.rows[id].published { PublishedCopies(targets, s, id); }
    hide Inv, RowOk, Received, Tally, LogOk;
    forall t ensures Received(ms, id, t) == Tally(route, copies, t) { assert Counted(targets, s, id, t) == Received(ms, id, t); }
    forall t | t !in route ensures Received(ms, id, t) == 0 {
      assert forall j :: 0 <= j < |route| ==> route[j] in route;
      TallyZero(route, copies, t);
    }
    forall j | 0 <= j < |route|
      ensures Received(ms, id, route[j]) >= copies[j]
      ensures (forall i :: 0 <= i < |route| && i != j ==> route[i] != route[j]) ==> Received(ms, id, route[j]) == copies[j]
    {
      TallyAtLeast(route, copies, j);
    }
  }

  lemma PublishedCopies(targets: Targets, s: State, id: Id)
    requires Inv(targets, s) && id in s.rows && s.rows[id].published
    ensures forall j :: 0 <= j < |s.log[id].copies| ==> s.log[id].copies[j] >= 1
  {
    assert RowOk(targets, s, id);
    if InProgress(s, id) {
      var r :| Open(s, id, r) || Done(s, id, r);
      assert DrainOk(targets, s, r);
    }
  }

  /** Auth's events, over every run to `s` that sent `ms`: profiles go to
      farms, registrations to notifications too, and reset tokens to
      notifications alone; a published event has reached each of them. */
  lemma AuthEventsReach(targets: Targets, ls: seq<Label>, s: State, ms: seq<Message>)
    requires targets == Projection.ROUTES && Valid(System(targets), Init, ls)
    requires s == Exec(System(targets), Init, ls) && ms == Emissions(targets, Init, ls)
    ensures forall m :: m in ms ==> Addressed(m.pattern, m.target)
    ensures forall id, t :: id in s.rows && s.rows[id].published && Addressed(s.rows[id].pattern, t) ==> Received(ms, id, t) >= 1
  {
    hide Genuine, RowLedger, Received, Tally, ClientsFor;
    OnlyItsTargets(targets, ls);
    forall m | m in ms ensures Addressed(m.pattern, m.target) {
      assert Genuine(targets, s.rows, m);
      AuthMessage(targets, s.rows, m);
    }
    forall id, t | id in s.rows && s.rows[id].published && Addressed(s.rows[id].pattern, t) ensures Received(ms, id, t) >= 1 {
      assert RowLedger(targets, s, ms, id);
      AuthRoutes(targets, s.rows[id].pattern, t);
      LedgerReaches(targets, s, ms, id, t);
    }
  }

  /** Who is to be told of which of auth's events. */
  predicate Addressed(pattern: string, target: Target) {
    || (pattern == "user.created" && (target == "farms" || target == "notifications"))
    || (pattern == "user.updated" && target == "farms")
    || (pattern == "user.password_reset_requested" && target == "notifications")
  }

  lemma AuthRoutes(targets: Targets, pattern: string, target: Target)
    requires targets == Projection.ROUTES
    ensures target in ClientsFor(targets, pattern) <==> Addressed(pattern, target)
  {
    assert ["farms", "notifications"][0] == "farms" && ["farms", "notifications"][1] == "notifications";
    assert ["farms"][0] == "farms" && ["notifications"][0] == "notifications";
  }

  lemma AuthMessage(targets: Targets, rows: map<Id, Row>, m: Message)
    requires targets == Projection.ROUTES && Genuine(targets, rows, m)
    ensures Addressed(m.pattern, m.target)
  {
    AuthRoutes(targets, m.pattern, m.target);
  }

  lemma LedgerReaches(targets: Targets, s: State, ms: seq<Message>, id: Id, target: Target)
    requires id in s.rows && s.rows[id].published && RowLedger(targets, s, ms, id)
    requires target in ClientsFor(targets, s.rows[id].pattern)
    ensures Received(ms, id, target) >= 1
  {
    assert target in Route(targets, s, id);
  }
}
