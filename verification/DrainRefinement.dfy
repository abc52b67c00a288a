/** The loop of `OutboxRelay.DrainOnce` is a run of the relay machine, so what
    holds of all runs holds of the code, whatever the other replicas do. */
module DrainRefinement {
  import opened Prelude
  import opened Runs
  import opened Relay
  import opened RelayService

  /** The messages of a run, in the order they went out. */
  ghost function Emissions(targets: Targets, s: State, ls: seq<Label>): seq<Message>
    decreases |ls|
  {
    if ls == [] then []
    else Emission(targets, s, ls[0]) + Emissions(targets, System(targets).next(s, ls[0]), ls[1..])
  }

  ghost function Emission(targets: Targets, s: State, l: Label): seq<Message> {
    if Enabled(targets, s, l) && Emitted(targets, s, l).Some? then [Emitted(targets, s, l).value] else []
  }

  lemma {:induction false} EmissionsConcat(targets: Targets, s: State, a: seq<Label>, b: seq<Label>)
    ensures Emissions(targets, s, a + b)
         == Emissions(targets, s, a) + Emissions(targets, Exec(System(targets), s, a), b)
    decreases |a|
  {
    hide Next, Enabled, Emission;
    if a == [] {
      assert a + b == b;
    } else {
      assert (a + b)[1..] == a[1..] + b && (a + b)[0] == a[0];
      EmissionsConcat(targets, System(targets).next(s, a[0]), a[1..], b);
    }
  }

  /** Runs compose, and so do their messages. */
  lemma Compose(targets: Targets, s: State, a: seq<Label>, b: seq<Label>)
    requires Valid(System(targets), s, a) && Valid(System(targets), Exec(System(targets), s, a), b)
    ensures Valid(System(targets), s, a + b)
    ensures Exec(System(targets), s, a + b) == Exec(System(targets), Exec(System(targets), s, a), b)
    ensures Emissions(targets, s, a + b) == Emissions(targets, s, a) + Emissions(targets, Exec(System(targets), s, a), b)
  {
    Concat(System(targets), s, a, b);
    EmissionsConcat(targets, s, a, b);
  }

  lemma OneStep(targets: Targets, s: State, l: Label)
    requires Enabled(targets, s, l)
    ensures Valid(System(targets), s, [l]) && Exec(System(targets), s, [l]) == Next(targets, s, l)
    ensures Emissions(targets, s, [l]) == Emission(targets, s, l)
  {
    hide Next, Enabled, Emission;
    SingleStep(System(targets), s, l);
    assert [l][1..] == [];
    assert Emissions(targets, System(targets).next(s, l), []) == [];
  }

  /** One publish that succeeds. */
  lemma SendStep(targets: Targets, s: State, r: Replica) returns (s': State)
    requires LocksInv(targets, s) && Working(s, r)
    requires s.drains[r].reached < |Route(targets, s, Current(s, r))|
    ensures Enabled(targets, s, Send(r)) && s' == Next(targets, s, Send(r)) && LocksInv(targets, s')
    ensures var d, id := s.drains[r], Current(s, r);
      && s'.rows == s.rows && s'.drains == s.drains[r := d.(reached := d.reached + 1)]
      && Working(s', r) && Current(s', r) == id
      && Emission(targets, s, Send(r)) == [RowMessages(targets, s.rows[id], id, d.reached + 1)[d.reached]]
  {
    s' := Next(targets, s, Send(r));
    LocksWork(targets, s, Send(r));
  }

  lemma RowMessagesPrefix(targets: Targets, row: Row, id: Id, k: nat, reach: nat)
    requires k < reach <= |ClientsFor(targets, row.pattern)|
    ensures RowMessages(targets, row, id, reach)[k..]
         == [RowMessages(targets, row, id, k + 1)[k]] + RowMessages(targets, row, id, reach)[k + 1..]
  {
  }

  /** Publishing the current row up to its `reach`-th target. */
  lemma {:induction false} RunSends(targets: Targets, s: State, r: Replica, reach: nat) returns (ls: seq<Label>)
    requires LocksInv(targets, s) && Working(s, r)
    requires s.drains[r].reached <= reach <= |Route(targets, s, Current(s, r))|
    ensures Valid(System(targets), s, ls)
    ensures var s', id := Exec(System(targets), s, ls), Current(s, r);
      && LocksInv(targets, s') && s'.rows == s.rows
      && s'.drains == s.drains[r := s.drains[r].(reached := reach)]
      && Working(s', r) && Current(s', r) == id
      && Emissions(targets, s, ls) == RowMessages(targets, s.rows[id], id, reach)[s.drains[r].reached..]
    decreases reach - s.drains[r].reached
  {
    hide Next, Enabled, LocksInv, Emission, System;
    var m, id := s.drains[r].reached, Current(s, r);
    if m == reach {
      ls := [];
      assert s.drains[r := s.drains[r].(reached := reach)] == s.drains;
    } else {
      var s1 := SendStep(targets, s, r);
      OneStep(targets, s, Send(r));
      var rest := RunSends(targets, s1, r, reach);
      ls := [Send(r)] + rest;
      Compose(targets, s, [Send(r)], rest);
      RowMessagesPrefix(targets, s.rows[id], id, m, reach);
    }
  }

  /** The step that closes a row when no more of its targets can be reached. */
  lemma LastStep(targets: Targets, s: State, r: Replica, faults: Faults) returns (l: Label, s': State)
    requires LocksInv(targets, s) && Working(s, r)
    requires s.drains[r].reached == Reach(targets, s.rows[Current(s, r)], Current(s, r), faults)
    ensures Enabled(targets, s, l) && s' == Next(targets, s, l) && LocksInv(targets, s')
    ensures var d, id := s.drains[r], Current(s, r);
      var e := RowEffect(targets, s.rows[id], id, faults);
      && s'.rows == s.rows && Emission(targets, s, l) == e.messages[d.reached..]
      && s'.drains == s.drains[r := d.(pos := d.pos + 1, reached := 0,
                                       marked := d.marked + e.marked, bumped := d.bumped + e.bumped)]
  {
    hide RowEffect, Reach, Succeeds, ThrowsDelivered, LocksInv, Sent, Next, Enabled, Emission, BatchEffect, RowMessages;
    var d, id := s.drains[r], Current(s, r);
    var n, good := |Route(targets, s, id)|, Succeeds(targets, s.rows[id], id, faults);
    EffectCases(targets, s.rows[id], id, faults);
    l := if n == 0 then Skip(r) else if good then Mark(r) else Fail(r, ThrowsDelivered(targets, s.rows[id], id, faults));
    ClosingEnabled(targets, s, l);
    if l.Fail? { FailEmits(targets, s, r, faults); }
    s' := Closes(targets, s, l);
    assert d.marked + {} == d.marked && d.bumped + {} == d.bumped;
  }

  lemma ClosingEnabled(targets: Targets, s: State, l: Label)
    requires l.Skip? || l.Mark? || l.Fail?
    requires Working(s, l.r)
    requires var n := |Route(targets, s, Current(s, l.r))|;
      if n == 0 then l.Skip? else if s.drains[l.r].reached == n then l.Mark? else l.Fail? && s.drains[l.r].reached < n
    ensures Enabled(targets, s, l)
  {
  }

  /** A step that is done with the current row. */
  lemma Closes(targets: Targets, s: State, l: Label) returns (s': State)
    requires LocksInv(targets, s) && Enabled(targets, s, l) && (l.Skip? || l.Mark? || l.Fail?)
    ensures s' == Next(targets, s, l) && LocksInv(targets, s') && s'.rows == s.rows
    ensures l.Skip? || l.Mark? ==> Emission(targets, s, l) == []
    ensures var d, id := s.drains[l.r], Current(s, l.r);
      s'.drains == s.drains[l.r := d.(pos := d.pos + 1, reached := if l.Skip? then d.reached else 0,
                                      marked := if l.Mark? then d.marked + {id} else d.marked,
                                      bumped := if l.Fail? then d.bumped + {id} else d.bumped)]
  {
    hide NextLog;
    LocksWork(targets, s, l);
    hide LocksInv, Enabled;
    s' := Worked(s, l);
    NoEmission(targets, s, l);
  }

  lemma NoEmission(targets: Targets, s: State, l: Label)
    requires Enabled(targets, s, l)
    ensures l.Skip? || l.Mark? ==> Emission(targets, s, l) == []
  {
  }

  lemma FailEmits(targets: Targets, s: State, r: Replica, faults: Faults)
    requires Working(s, r) && s.drains[r].reached == Reach(targets, s.rows[Current(s, r)], Current(s, r), faults)
    requires s.drains[r].reached < |Route(targets, s, Current(s, r))|
    ensures var id, delivered := Current(s, r), ThrowsDelivered(targets, s.rows[Current(s, r)], Current(s, r), faults);
      && Enabled(targets, s, Fail(r, delivered))
      && Emission(targets, s, Fail(r, delivered)) == RowEffect(targets, s.rows[id], id, faults).messages[s.drains[r].reached..]
  {
  }

  lemma EffectCases(targets: Targets, row: Row, id: Id, faults: Faults)
    ensures var n, good, e := |ClientsFor(targets, row.pattern)|, Succeeds(targets, row, id, faults), RowEffect(targets, row, id, faults);
      && e.marked == (if n > 0 && good then {id} else {})
      && e.bumped == (if n > 0 && !good then {id} else {})
      && (if n == 0 || good then Reach(targets, row, id, faults) == n else Reach(targets, row, id, faults) < n)
      && |e.messages| == Sent(targets, row, id, faults) >= Reach(targets, row, id, faults)
      && (n == 0 || good ==> Sent(targets, row, id, faults) == n)
      && e.messages[..Reach(targets, row, id, faults)] == RowMessages(targets, row, id, Reach(targets, row, id, faults))
  {
  }

  /** Publishing the current row, whether or not one of its targets throws. */
  lemma RunRow(targets: Targets, s: State, r: Replica, faults: Faults) returns (ls: seq<Label>)
    requires LocksInv(targets, s) && Working(s, r) && s.drains[r].reached == 0
    ensures Valid(System(targets), s, ls)
    ensures var s', id, d := Exec(System(targets), s, ls), Current(s, r), s.drains[r];
      var e := RowEffect(targets, s.rows[id], id, faults);
      && LocksInv(targets, s') && s'.rows == s.rows
      && s'.drains == s.drains[r := d.(pos := d.pos + 1, marked := d.marked + e.marked, bumped := d.bumped + e.bumped)]
      && Emissions(targets, s, ls) == e.messages
  {
    hide Next, Enabled, LocksInv, Emission, System, Succeeds;
    var id := Current(s, r);
    var reach := Reach(targets, s.rows[id], id, faults);
    EffectCases(targets, s.rows[id], id, faults);
    hide RowEffect, Reach, Sent;
    var sends := RunSends(targets, s, r, reach);
    var s1 := Exec(System(targets), s, sends);
    var last, s2 := LastStep(targets, s1, r, faults);
    OneStep(targets, s1, last);
    ls := sends + [last];
    Compose(targets, s, sends, [last]);
    var e := RowEffect(targets, s.rows[id], id, faults);
    var ms := RowMessages(targets, s.rows[id], id, reach);
    assert ms[0..] == ms && ms == e.messages[..reach] && e.messages[..reach] + e.messages[reach..] == e.messages;
  }

  lemma NoRun(targets: Targets, s: State)
    ensures Valid(System(targets), s, []) && Exec(System(targets), s, []) == s && Emissions(targets, s, []) == []
  {
  }

  /** Going on from the drain's position up to position `stop`. */
  lemma {:induction false} RunBatch(targets: Targets, s: State, r: Replica, faults: Faults, stop: nat) returns (ls: seq<Label>)
    requires LocksInv(targets, s) && r in s.drains && s.drains[r].reached == 0
    requires forall id :: id in s.drains[r].batch ==> id in s.rows
    requires s.drains[r].pos <= stop <= |s.drains[r].batch|
    requires var d := s.drains[r]; var e := BatchEffect(targets, s.rows, d.batch[..d.pos], faults);
      d.marked == e.marked && d.bumped == e.bumped
    ensures Valid(System(targets), s, ls)
    ensures var s', d := Exec(System(targets), s, ls), s.drains[r];
      var e := BatchEffect(targets, s.rows, d.batch[..stop], faults);
      && LocksInv(targets, s') && s'.rows == s.rows
      && s'.drains == s.drains[r := Drain(d.batch, stop, 0, e.marked, e.bumped)]
      && BatchEffect(targets, s.rows, d.batch[..d.pos], faults).messages + Emissions(targets, s, ls) == e.messages
    decreases stop - s.drains[r].pos
  {
    hide Next, Enabled, RowEffect, Emission, System, LocksInv, BatchEffect, Valid, Exec, Emissions;
    var d := s.drains[r];
    if d.pos == stop {
      NoRun(targets, s);
      ls := [];
      assert s.drains[r := d] == s.drains;
    } else {
      WorkingDrain(targets, s, r);
      var row := RunRow(targets, s, r, faults);
      NextInBatch(targets, s.rows, d.batch, d.pos, faults);
      var s1 := Exec(System(targets), s, row);
      var rest := RunBatch(targets, s1, r, faults, stop);
      ls := row + rest;
      Compose(targets, s, row, rest);
    }
  }

  lemma WorkingDrain(targets: Targets, s: State, r: Replica)
    requires LocksInv(targets, s) && r in s.drains && s.drains[r].pos < |s.drains[r].batch|
    ensures Working(s, r)
  {
    assert DrainOk(targets, s, r);
    assert s.drains[r].batch[s.drains[r].pos] in s.drains[r].batch;
  }

  /** From a drain that has just selected its batch to its commit. */
  lemma DrainRun(targets: Targets, s: State, r: Replica, batch: seq<Id>, faults: Faults) returns (ls: seq<Label>)
    requires LocksInv(targets, s) && r in s.drains && s.drains[r] == Drain(batch, 0, 0, {}, {})
    requires forall id :: id in batch ==> id in s.rows
    ensures Valid(System(targets), s, ls)
    ensures var s', e := Exec(System(targets), s, ls), BatchEffect(targets, s.rows, batch, faults);
      && s'.rows == Updated(s.rows, e.marked, e.bumped) && s'.drains == s.drains - {r}
      && Emissions(targets, s, ls) == e.messages
  {
    hide Next, Emission, System, LocksInv, Enabled, Updated;
    NothingYet(targets, s.rows, batch, faults);
    var work := RunBatch(targets, s, r, faults, |batch|);
    assert batch[..|batch|] == batch;
    var s1 := Exec(System(targets), s, work);
    var s2 := Committed(targets, s1, r);
    OneStep(targets, s1, Commit(r));
    Compose(targets, s, work, [Commit(r)]);
    ls := work + [Commit(r)];
    assert s1.drains - {r} == s.drains - {r};
  }

  /** Part of the current row, up to `sends` messages. */
  lemma RunPart(targets: Targets, s: State, r: Replica, faults: Faults, sends: nat) returns (ls: seq<Label>)
    requires LocksInv(targets, s) && Working(s, r) && s.drains[r].reached == 0
    ensures Valid(System(targets), s, ls)
    ensures var s', id := Exec(System(targets), s, ls), Current(s, r);
      && s'.rows == s.rows && r in s'.drains && s'.drains - {r} == s.drains - {r}
      && Emissions(targets, s, ls) == RowMessages(targets, s.rows[id], id, Least2(sends, Sent(targets, s.rows[id], id, faults)))
  {
    hide Next, Enabled, LocksInv, Emission, System, RowMessages;
    var id := Current(s, r);
    EffectCases(targets, s.rows[id], id, faults);
    if sends <= Reach(targets, s.rows[id], id, faults) {
      ls := RunSends(targets, s, r, sends);
      assert RowMessages(targets, s.rows[id], id, sends)[0..] == RowMessages(targets, s.rows[id], id, sends);
    } else {
      ls := RunRow(targets, s, r, faults);
    }
  }

  /** From a drain that has just selected its batch to its death. */
  lemma DeadRun(targets: Targets, s: State, r: Replica, batch: seq<Id>, faults: Faults, d: Death) returns (ls: seq<Label>)
    requires LocksInv(targets, s) && r in s.drains && s.drains[r] == Drain(batch, 0, 0, {}, {})
    requires forall id :: id in batch ==> id in s.rows
    ensures Valid(System(targets), s, ls)
    ensures var s' := Exec(System(targets), s, ls);
      && s'.rows == s.rows && s'.drains == s.drains - {r}
      && Emissions(targets, s, ls) == CutShort(targets, s.rows, batch, faults, d)
  {
    hide Next, Emission, System, LocksInv, Enabled, RowMessages, Valid, Exec, Emissions, CutShort;
    ls := RunCutShort(targets, s, r, batch, faults, d);
    var s2 := Exec(System(targets), s, ls);
    var s3 := RolledBack(targets, s2, r);
    OneStep(targets, s2, Rollback(r));
    Compose(targets, s, ls, [Rollback(r)]);
    ls := ls + [Rollback(r)];
  }

  /** As far as the dying drain gets. */
  lemma RunCutShort(targets: Targets, s: State, r: Replica, batch: seq<Id>, faults: Faults, d: Death) returns (ls: seq<Label>)
    requires LocksInv(targets, s) && r in s.drains && s.drains[r] == Drain(batch, 0, 0, {}, {})
    requires forall id :: id in batch ==> id in s.rows
    ensures Valid(System(targets), s, ls)
    ensures var s' := Exec(System(targets), s, ls);
      && s'.rows == s.rows && r in s'.drains && s'.drains - {r} == s.drains - {r}
      && Emissions(targets, s, ls) == CutShort(targets, s.rows, batch, faults, d)
  {
    hide Next, Emission, System, LocksInv, Enabled, RowMessages, Valid, Exec, Emissions, BatchEffect, Sent;
    NothingYet(targets, s.rows, batch, faults);
    var stop := Least2(d.rows, |batch|);
    ls := RunBatch(targets, s, r, faults, stop);
    var s1 := Exec(System(targets), s, ls);
    assert s1.drains - {r} == s.drains - {r};
    assert batch[..|batch|] == batch;
    if stop < |batch| {
      WorkingDrain(targets, s1, r);
      var part := RunPart(targets, s1, r, faults, d.sends);
      Compose(targets, s, ls, part);
      ls := ls + part;
    }
  }

  /** One call of `DrainOnce` on replica `r`, in any reachable state of the
      other replicas, whatever throws and wherever it dies: the table and the
      messages it leaves are those of a run of the machine. */
  lemma DrainOnceIsRun(targets: Targets, s: State, r: Replica, faults: Faults, dies: Option<Death>) returns (ls: seq<Label>)
    requires LocksInv(targets, s) && r !in s.drains
    ensures Valid(System(targets), s, ls)
    ensures var locked := Pending(s.rows) - Candidates(s);
      var s' := Exec(System(targets), s, ls);
      && s'.rows == (if dies.Some? then s.rows else Settled(targets, s.rows, locked, faults))
      && s'.drains == s.drains
      && Emissions(targets, s, ls) == DrainMessages(targets, s.rows, locked, faults, dies)
  {
    hide Next, Emission, System, LocksInv, Candidates, Enabled, Updated, DrainBatch, BatchEffect, CutShort;
    var locked := Pending(s.rows) - Candidates(s);
    var s1 := Begun(targets, s, r, locked);
    OneStep(targets, s, Begin(r));
    var rest: seq<Label>;
    if dies.Some? {
      rest := DeadRun(targets, s1, r, DrainBatch(s.rows, locked), faults, dies.value);
    } else {
      rest := DrainRun(targets, s1, r, DrainBatch(s.rows, locked), faults);
    }
    Compose(targets, s, [Begin(r)], rest);
    ls := [Begin(r)] + rest;
    assert s1.drains - {r} == s.drains;
  }

  lemma Committed(targets: Targets, s: State, r: Replica) returns (s': State)
    requires r in s.drains && s.drains[r].pos == |s.drains[r].batch|
    ensures Enabled(targets, s, Commit(r)) && s' == Next(targets, s, Commit(r)) && Emission(targets, s, Commit(r)) == []
    ensures s'.rows == Updated(s.rows, s.drains[r].marked, s.drains[r].bumped) && s'.drains == s.drains - {r}
  {
    s' := Next(targets, s, Commit(r));
  }

  lemma RolledBack(targets: Targets, s: State, r: Replica) returns (s': State)
    requires r in s.drains
    ensures Enabled(targets, s, Rollback(r)) && s' == Next(targets, s, Rollback(r)) && Emission(targets, s, Rollback(r)) == []
    ensures s'.rows == s.rows && s'.drains == s.drains - {r}
  {
    s' := Next(targets, s, Rollback(r));
  }

  lemma Begun(targets: Targets, s: State, r: Replica, locked: set<Id>) returns (s1: State)
    requires LocksInv(targets, s) && r !in s.drains && locked == Pending(s.rows) - Candidates(s)
    ensures Enabled(targets, s, Begin(r)) && Emission(targets, s, Begin(r)) == [] && s1 == Next(targets, s, Begin(r)) && LocksInv(targets, s1)
    ensures s1 == s.(drains := s.drains[r := Drain(DrainBatch(s.rows, locked), 0, 0, {}, {})])
  {
    assert Pending(s.rows) - locked == Candidates(s);
    LocksStep(targets, s, Begin(r));
    s1 := Next(targets, s, Begin(r));
  }
}
