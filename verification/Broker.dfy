/** One event queue with its retry queue and dead-letter queue, and consumers
    that hold at most one unacked message each and ack after processing. The
    environment chooses which handlers fail and which consumers die. */
module Broker {
  import opened Prelude
  import opened Envelope
  import opened Runs

  type Consumer = nat

  /** How `RmqReliabilityInterceptor` is configured for the queue. */
  datatype Config = Config(maxRetries: nat, hasRetryQueue: bool, hasDlq: bool)

  /** `retries` is the retry counter header. `lineage`, `handled` and `crashes`
      are history: which published event this is a copy of, how often it was
      handed to a handler, and how many of those consumers died. */
  datatype Msg = Msg(pattern: string, payload: Payload, retries: nat, lineage: nat, handled: nat, crashes: nat)

  /** How far an event handler has got with the message. */
  datatype Stage = Received | Claimed | SaveFailed

  datatype Phase =
    | Running(stage: Stage)
    | Succeeded
    | Failed
    | Rerouted

  datatype Delivery = Delivery(consumer: Consumer, msg: Msg, phase: Phase)

  /** `copies[x]` counts the copies of event `x` that were ever made: one when
      it was published, one more for each consumer that died between
      republishing it and acking it. */
  datatype State = State(
    main: seq<Msg>,
    unacked: seq<Delivery>,
    retry: seq<Msg>,
    dlq: seq<Msg>,
    done: seq<Msg>,
    dropped: seq<Msg>,
    published: nat,
    deaths: nat,
    copies: map<nat, nat>)

  datatype Label =
    | Publish(pattern: string, payload: Payload)
    | Deliver(c: Consumer)
    | Progress(i: nat, stage: Stage)
    | Finish(i: nat, ok: bool)
    | Ack(i: nat)
    | Reroute(i: nat)
    | AckRerouted(i: nat)
    | Expire
    | Die(i: nat)

  const Init := State([], [], [], [], [], [], 0, 0, map[])

  // ---- The retry decision --------------------------------------------------

  datatype Destination = ToRetry | ToDlq | Drop

  /** Where a failed event goes. */
  function Decide(cfg: Config, retries: int): Destination {
    if retries < cfg.maxRetries && cfg.hasRetryQueue then ToRetry
    else if cfg.hasDlq then ToDlq
    else Drop
  }

  // ---- Steps ---------------------------------------------------------------

  function StageRank(stage: Stage): nat {
    match stage case Received => 2 case Claimed => 1 case SaveFailed => 0
  }

  predicate InPhase(s: State, i: nat, p: Phase) {
    i < |s.unacked| && s.unacked[i].phase == p
  }

  predicate IsRunning(s: State, i: nat) {
    i < |s.unacked| && s.unacked[i].phase.Running?
  }

  ghost predicate Busy(s: State, c: Consumer) {
    exists i :: 0 <= i < |s.unacked| && s.unacked[i].consumer == c
  }

  ghost predicate Enabled(s: State, l: Label) {
    match l
    case Publish(_, _) => true
    case Deliver(c) => s.main != [] && !Busy(s, c)
    case Progress(i, stage) => IsRunning(s, i) && StageRank(stage) < StageRank(s.unacked[i].phase.stage)
    case Finish(i, _) => IsRunning(s, i)
    case Ack(i) => InPhase(s, i, Succeeded)
    case Reroute(i) => InPhase(s, i, Failed)
    case AckRerouted(i) => InPhase(s, i, Rerouted)
    case Expire => s.retry != []
    case Die(i) => i < |s.unacked|
  }

  function WithPhase(s: State, i: nat, p: Phase): State
    requires i < |s.unacked|
  {
    s.(unacked := s.unacked[i := s.unacked[i].(phase := p)])
  }

  function Removed(s: State, i: nat): State
    requires i < |s.unacked|
  {
    s.(unacked := RemoveAt(s.unacked, i))
  }

  function Reroutes(cfg: Config, s: State, i: nat): State
    requires i < |s.unacked|
  {
    var m := s.unacked[i].msg;
    match Decide(cfg, m.retries)
    case ToRetry => WithPhase(s, i, Rerouted).(retry := s.retry + [m.(retries := m.retries + 1)])
    case ToDlq => WithPhase(s, i, Rerouted).(dlq := s.dlq + [m])
    case Drop => Removed(s, i).(dropped := s.dropped + [m])
  }

  function Next(cfg: Config, s: State, l: Label): State
    requires Enabled(s, l)
  {
    match l
    case Publish(pattern, payload) =>
      s.(main := s.main + [Msg(pattern, payload, 0, s.published, 0, 0)],
         published := s.published + 1, copies := Bump(s.copies, s.published))
    case Deliver(c) =>
      var m := s.main[0];
      s.(main := s.main[1..],
         unacked := s.unacked + [Delivery(c, m.(handled := m.handled + 1), Running(Received))])
    case Progress(i, stage) => WithPhase(s, i, Running(stage))
    case Finish(i, ok) => WithPhase(s, i, if ok then Succeeded else Failed)
    case Ack(i) => Removed(s, i).(done := s.done + [s.unacked[i].msg])
    case Reroute(i) => Reroutes(cfg, s, i)
    case AckRerouted(i) => Removed(s, i)
    case Expire => s.(retry := s.retry[1..], main := s.main + [s.retry[0]])
    case Die(i) =>
      var m := s.unacked[i].msg;
      Removed(s, i).(main := [m.(crashes := m.crashes + 1)] + s.main, deaths := s.deaths + 1,
                     copies := if s.unacked[i].phase.Rerouted? then Bump(s.copies, m.lineage) else s.copies)
  }

  ghost function System(cfg: Config): Machine<State, Label> {
    Machine((s, l) => Enabled(s, l), (s, l) => if Enabled(s, l) then Next(cfg, s, l) else s)
  }

  ghost predicate CrashFree(l: Label) {
    !l.Die?
  }

  ghost predicate DrainOnly(l: Label) {
    !l.Die? && !l.Publish?
  }

  // ---- Conservation --------------------------------------------------------

  function IsOf(x: nat): Msg -> nat {
    (m: Msg) => if m.lineage == x then 1 else 0
  }

  /** A delivery whose copy has been re-routed no longer counts. */
  function HoldsOf(x: nat): Delivery -> nat {
    (d: Delivery) => if d.msg.lineage == x && !d.phase.Rerouted? then 1 else 0
  }

  /** How many copies of event `x` there are, over all places. */
  function Places(s: State, x: nat): nat {
    Sum(IsOf(x), s.main) + Sum(HoldsOf(x), s.unacked) + Sum(IsOf(x), s.retry)
    + Sum(IsOf(x), s.dlq) + Sum(IsOf(x), s.done) + Sum(IsOf(x), s.dropped)
  }

  lemma MoveSums(x: nat, q: seq<Msg>, m: Msg)
    ensures Sum(IsOf(x), q + [m]) == Sum(IsOf(x), q) + IsOf(x)(m)
    ensures Sum(IsOf(x), [m] + q) == Sum(IsOf(x), q) + IsOf(x)(m)
    ensures q != [] ==> Sum(IsOf(x), q) == IsOf(x)(q[0]) + Sum(IsOf(x), q[1..])
  {
    SumConcat(IsOf(x), q, [m]);
    SumConcat(IsOf(x), [m], q);
    SumOne(IsOf(x), m);
  }

  lemma DeliverySums(x: nat, u: seq<Delivery>, i: nat, d: Delivery)
    ensures Sum(HoldsOf(x), u + [d]) == Sum(HoldsOf(x), u) + HoldsOf(x)(d)
    ensures i < |u| ==> Sum(HoldsOf(x), u) == HoldsOf(x)(u[i]) + Sum(HoldsOf(x), RemoveAt(u, i))
    ensures i < |u| ==> Sum(HoldsOf(x), u[i := d]) + HoldsOf(x)(u[i]) == Sum(HoldsOf(x), u) + HoldsOf(x)(d)
  {
    SumConcat(HoldsOf(x), u, [d]);
    SumOne(HoldsOf(x), d);
    if i < |u| {
      SumRemoveAt(HoldsOf(x), u, i);
      SumUpdate(HoldsOf(x), u, i, d);
    }
  }

  ghost predicate Conserved(s: State) {
    forall x: nat :: Places(s, x) == Count(s.copies, x)
  }

  /** A step moves copies between places and makes one only when it says so. */
  lemma ConservedStep(cfg: Config, s: State, l: Label)
    requires Conserved(s) && Enabled(s, l)
    ensures Conserved(Next(cfg, s, l))
  {
    var s' := Next(cfg, s, l);
    forall x: nat ensures Places(s', x) == Count(s'.copies, x) {
      assert Places(s, x) == Count(s.copies, x);
      if l.Publish? || l.Deliver? || l.Expire? || l.Die? {
        QueueStepPlaces(cfg, s, l, x);
      } else {
        DeliveryStepPlaces(cfg, s, l, x);
      }
    }
  }

  lemma QueueStepPlaces(cfg: Config, s: State, l: Label, x: nat)
    requires Enabled(s, l) && (l.Publish? || l.Deliver? || l.Expire? || l.Die?)
    ensures var s' := Next(cfg, s, l);
      Places(s', x) - Places(s, x) == Count(s'.copies, x) - Count(s.copies, x)
  {
    hide Sum;
    var s' := Next(cfg, s, l);
    match l
    case Publish(pattern, payload) =>
      MoveSums(x, s.main, Msg(pattern, payload, 0, s.published, 0, 0));
    case Deliver(c) =>
      MoveSums(x, s.main, s.main[0]);
      DeliverySums(x, s.unacked, 0, s'.unacked[|s.unacked|]);
    case Expire =>
      MoveSums(x, s.retry, s.retry[0]);
      MoveSums(x, s.main, s.retry[0]);
    case Die(i) =>
      DeliverySums(x, s.unacked, i, s.unacked[i]);
      MoveSums(x, s.main, s'.main[0]);
  }

  lemma DeliveryStepPlaces(cfg: Config, s: State, l: Label, x: nat)
    requires Enabled(s, l) && !(l.Publish? || l.Deliver? || l.Expire? || l.Die?)
    ensures var s' := Next(cfg, s, l);
      Places(s', x) == Places(s, x) && s'.copies == s.copies
  {
    hide Sum;
    var s' := Next(cfg, s, l);
    match l
    case Progress(i, stage) => DeliverySums(x, s.unacked, i, s'.unacked[i]);
    case Finish(i, ok) => DeliverySums(x, s.unacked, i, s'.unacked[i]);
    case Ack(i) =>
      DeliverySums(x, s.unacked, i, s.unacked[i]);
      MoveSums(x, s.done, s.unacked[i].msg);
    case Reroute(i) => RerouteConserves(cfg, s, i, x);
    case AckRerouted(i) => DeliverySums(x, s.unacked, i, s.unacked[i]);
  }

  lemma RerouteConserves(cfg: Config, s: State, i: nat, x: nat)
    requires InPhase(s, i, Failed)
    ensures Places(Reroutes(cfg, s, i), x) == Places(s, x)
  {
    hide Sum;
    var m := s.unacked[i].msg;
    DeliverySums(x, s.unacked, i, s.unacked[i].(phase := Rerouted));
    MoveSums(x, s.retry, m.(retries := m.retries + 1));
    MoveSums(x, s.dlq, m);
    MoveSums(x, s.dropped, m);
  }

  /** Every published event was copied once, plus once per crash. */
  ghost predicate PublishedOnce(s: State) {
    && (forall x: nat :: x < s.published ==> Count(s.copies, x) >= 1)
    && (forall x: nat :: x >= s.published ==> Count(s.copies, x) == 0)
  }

  /** Without crashes there is exactly one copy of each published event. */
  ghost predicate Unduplicated(s: State) {
    forall x: nat :: Count(s.copies, x) == if x < s.published then 1 else 0
  }

  // ---- Every message, wherever it is ---------------------------------------

  /** `final` is 1 for a message that is with a handler or past its last one. */
  ghost predicate MsgOk(cfg: Config, s: State, m: Msg, final: nat) {
    m.lineage < s.published && m.retries <= cfg.maxRetries && m.handled == m.retries + m.crashes + final
    && m.crashes <= s.deaths
  }

  ghost predicate HandledInv(cfg: Config, s: State) {
    && (forall m :: m in s.main || m in s.retry ==> MsgOk(cfg, s, m, 0))
    && (forall d :: d in s.unacked ==> MsgOk(cfg, s, d.msg, 1))
    && (forall m :: m in s.dlq || m in s.done || m in s.dropped ==> MsgOk(cfg, s, m, 1))
    && (cfg.hasDlq ==> s.dropped == [])
    && (forall m :: m in s.dlq || m in s.dropped ==> m.retries == cfg.maxRetries || !cfg.hasRetryQueue)
  }

  lemma HandledStep(cfg: Config, s: State, l: Label)
    requires HandledInv(cfg, s) && Enabled(s, l)
    ensures HandledInv(cfg, Next(cfg, s, l))
  {
    match l
    case Publish(_, _) => HandledPublish(cfg, s, l);
    case Deliver(_) => HandledQueues(cfg, s, l);
    case Expire => HandledQueues(cfg, s, l);
    case Progress(i, stage) => HandledPhase(cfg, s, i, Running(stage));
    case Finish(i, ok) => HandledPhase(cfg, s, i, if ok then Succeeded else Failed);
    case Reroute(i) => HandledReroute(cfg, s, i);
    case _ => HandledRemove(cfg, s, l);
  }

  lemma HandledPublish(cfg: Config, s: State, l: Label)
    requires HandledInv(cfg, s) && l.Publish?
    ensures HandledInv(cfg, Next(cfg, s, l))
  {
    var s' := Next(cfg, s, l);
    assert forall m, final :: MsgOk(cfg, s, m, final) ==> MsgOk(cfg, s', m, final);
  }

  lemma HandledQueues(cfg: Config, s: State, l: Label)
    requires HandledInv(cfg, s) && Enabled(s, l) && (l.Deliver? || l.Expire?)
    ensures HandledInv(cfg, Next(cfg, s, l))
  {
    var s' := Next(cfg, s, l);
    if l.Deliver? {
      assert s.main[0] in s.main;
      forall m | m in s.main[1..] ensures m in s.main {}
    } else {
      assert s.retry[0] in s.retry;
      forall m | m in s.retry[1..] ensures m in s.retry {}
    }
    forall m | m in s'.main || m in s'.retry ensures MsgOk(cfg, s', m, 0) {
      assert m in s.main || m in s.retry;
    }
  }

  lemma HandledPhase(cfg: Config, s: State, i: nat, p: Phase)
    requires HandledInv(cfg, s) && i < |s.unacked|
    ensures HandledInv(cfg, WithPhase(s, i, p))
  {
    var s' := WithPhase(s, i, p);
    assert s.unacked[i] in s.unacked;
    forall d | d in s'.unacked ensures MsgOk(cfg, s', d.msg, 1) {
      assert d in s.unacked || d == s'.unacked[i];
    }
  }

  lemma HandledReroute(cfg: Config, s: State, i: nat)
    requires HandledInv(cfg, s) && InPhase(s, i, Failed)
    ensures HandledInv(cfg, Reroutes(cfg, s, i))
  {
    var m := s.unacked[i].msg;
    assert s.unacked[i] in s.unacked && MsgOk(cfg, s, m, 1);
    HandledPhase(cfg, s, i, Rerouted);
    RemoveAtElements(s.unacked, i);
  }

  lemma HandledRemove(cfg: Config, s: State, l: Label)
    requires HandledInv(cfg, s) && Enabled(s, l) && (l.Ack? || l.AckRerouted? || l.Die?)
    ensures HandledInv(cfg, Next(cfg, s, l))
  {
    var s' := Next(cfg, s, l);
    var m := s.unacked[l.i].msg;
    assert s.unacked[l.i] in s.unacked && MsgOk(cfg, s, m, 1);
    RemoveAtElements(s.unacked, l.i);
    forall m0, final | MsgOk(cfg, s, m0, final) ensures MsgOk(cfg, s', m0, final) {}
    if l.Die? { assert MsgOk(cfg, s', m.(crashes := m.crashes + 1), 0); }
  }

  ghost predicate Inv(cfg: Config, s: State) {
    Conserved(s) && HandledInv(cfg, s) && PublishedOnce(s) && OneEach(s)
  }

  /** Prefetch 1: a consumer holds at most one unacked message. */
  ghost predicate OneEach(s: State) {
    forall i, j :: 0 <= i < j < |s.unacked| ==> s.unacked[i].consumer != s.unacked[j].consumer
  }

  lemma InvStep(cfg: Config, s: State, l: Label)
    requires Inv(cfg, s) && Enabled(s, l)
    ensures Inv(cfg, Next(cfg, s, l))
    ensures Unduplicated(s) && !l.Die? ==> Unduplicated(Next(cfg, s, l))
  {
    var s' := Next(cfg, s, l);
    ConservedStep(cfg, s, l);
    HandledStep(cfg, s, l);
    OneEachStep(cfg, s, l);
    CopiesStep(cfg, s, l);
  }

  lemma OneEachStep(cfg: Config, s: State, l: Label)
    requires OneEach(s) && Enabled(s, l)
    ensures OneEach(Next(cfg, s, l))
  {
    var u, u' := s.unacked, Next(cfg, s, l).unacked;
    if l.Deliver? {
      assert forall i :: 0 <= i < |u| ==> u[i].consumer != l.c;
    } else if |u'| < |u| {
      assert u' == RemoveAt(u, l.i);
    } else {
      assert |u'| == |u| && forall i :: 0 <= i < |u| ==> u'[i].consumer == u[i].consumer;
    }
    hide Next, Enabled, Reroutes, Decide;
  }

  lemma CopiesStep(cfg: Config, s: State, l: Label)
    requires HandledInv(cfg, s) && PublishedOnce(s) && Enabled(s, l)
    ensures PublishedOnce(Next(cfg, s, l))
    ensures Unduplicated(s) && !l.Die? ==> Unduplicated(Next(cfg, s, l))
  {
    var s' := Next(cfg, s, l);
    if l.Die? {
      assert s.unacked[l.i] in s.unacked;
      assert MsgOk(cfg, s, s.unacked[l.i].msg, 1);
    }
    forall x: nat
      ensures x < s'.published ==> Count(s'.copies, x) >= 1
      ensures x >= s'.published ==> Count(s'.copies, x) == 0
      ensures Unduplicated(s) && !l.Die? ==> Count(s'.copies, x) == (if x < s'.published then 1 else 0)
    {
      assert x < s.published ==> Count(s.copies, x) >= 1;
      assert x >= s.published ==> Count(s.copies, x) == 0;
    }
  }

  /** Over all runs, crashes included: no copy of an event ever disappears (each
      published event is somewhere), copies are only added by a consumer dying
      between republishing and acking, and nothing is dropped when a
      dead-letter queue is configured. Each copy was handled once per retry
      counted in its header, once more if it is with a handler or past the last
      one, and once per consumer that died with it. */
  lemma Conservation(cfg: Config, ls: seq<Label>)
    requires Valid(System(cfg), Init, ls)
    ensures var s := Exec(System(cfg), Init, ls);
      && (forall x: nat :: x < s.published ==> Places(s, x) >= 1)
      && (forall x: nat :: Places(s, x) == Count(s.copies, x))
      && HandledInv(cfg, s) && OneEach(s)
  {
    forall s, l | Inv(cfg, s) && Enabled(s, l) ensures Inv(cfg, Next(cfg, s, l)) { InvStep(cfg, s, l); }
    assert Inv(cfg, Init);
    Invariant(System(cfg), s => Inv(cfg, s), _ => true, Init, ls);
  }

  /** In a crash-free run each published event is in exactly one place, once:
      waiting, with a handler, in backoff, dead-lettered, processed or dropped;
      and no copy is handled more than maxRetries + 1 times. */
  lemma CrashFreeConservation(cfg: Config, ls: seq<Label>)
    requires Valid(System(cfg), Init, ls) && Only(ls, CrashFree)
    ensures var s := Exec(System(cfg), Init, ls);
      && (forall x: nat :: Places(s, x) == if x < s.published then 1 else 0)
      && (cfg.hasDlq ==> s.dropped == [])
      && (forall m :: InSystem(s, m) ==> m.handled <= cfg.maxRetries + 1)
  {
    var inv := s => Inv(cfg, s) && Unduplicated(s) && s.deaths == 0;
    forall s, l | inv(s) && CrashFree(l) && Enabled(s, l) ensures inv(Next(cfg, s, l)) {
      InvStep(cfg, s, l);
    }
    assert inv(Init);
    Invariant(System(cfg), inv, CrashFree, Init, ls);
    var s := Exec(System(cfg), Init, ls);
    assert forall x: nat :: Places(s, x) == Count(s.copies, x);
  }

  ghost predicate InSystem(s: State, m: Msg) {
    || m in s.main || m in s.retry || m in s.dlq || m in s.done || m in s.dropped
    || (exists d :: d in s.unacked && d.msg == m)
  }

  // ---- Termination ---------------------------------------------------------

  function MainWeight(cfg: Config): Msg -> nat {
    (m: Msg) => 10 * Left(cfg, m) + 7
  }

  function RetryWeight(cfg: Config): Msg -> nat {
    (m: Msg) => 10 * Left(cfg, m) + 8
  }

  function PhaseWeight(p: Phase): nat {
    match p case Running(stage) => 4 + StageRank(stage) case Succeeded => 3 case Failed => 3 case Rerouted => 1
  }

  function DeliveryWeight(cfg: Config): Delivery -> nat {
    (d: Delivery) => (if d.phase.Rerouted? then 0 else 10 * Left(cfg, d.msg)) + PhaseWeight(d.phase)
  }

  /** Retries a message has left. */
  function Left(cfg: Config, m: Msg): nat {
    if m.retries <= cfg.maxRetries then cfg.maxRetries - m.retries else 0
  }

  /** Work left in the queues: every crash-free step without a new event
      lowers it. */
  function Measure(cfg: Config, s: State): nat {
    Sum(MainWeight(cfg), s.main) + Sum(RetryWeight(cfg), s.retry) + Sum(DeliveryWeight(cfg), s.unacked)
  }

  lemma QueueWeights(f: Msg -> nat, q: seq<Msg>, m: Msg)
    ensures Sum(f, q + [m]) == Sum(f, q) + f(m)
    ensures q != [] ==> Sum(f, q) == f(q[0]) + Sum(f, q[1..])
  {
    SumConcat(f, q, [m]);
    SumOne(f, m);
  }

  lemma UnackedWeights(f: Delivery -> nat, u: seq<Delivery>, i: nat, d: Delivery)
    ensures Sum(f, u + [d]) == Sum(f, u) + f(d)
    ensures i < |u| ==> Sum(f, u) == f(u[i]) + Sum(f, RemoveAt(u, i))
    ensures i < |u| ==> Sum(f, u[i := d]) + f(u[i]) == Sum(f, u) + f(d)
  {
    SumConcat(f, u, [d]);
    SumOne(f, d);
    if i < |u| {
      SumRemoveAt(f, u, i);
      SumUpdate(f, u, i, d);
    }
  }

  lemma MeasureDrops(cfg: Config, s: State, l: Label)
    requires HandledInv(cfg, s) && Enabled(s, l) && DrainOnly(l)
    ensures Measure(cfg, Next(cfg, s, l)) < Measure(cfg, s)
  {
    hide Sum;
    var s' := Next(cfg, s, l);
    var f := DeliveryWeight(cfg);
    match l
    case Deliver(c) => QueueDrops(cfg, s, l);
    case Expire => QueueDrops(cfg, s, l);
    case Progress(i, _) => UnackedWeights(f, s.unacked, i, s'.unacked[i]);
    case Finish(i, _) => UnackedWeights(f, s.unacked, i, s'.unacked[i]);
    case Ack(i) => UnackedWeights(f, s.unacked, i, s.unacked[i]);
    case AckRerouted(i) => UnackedWeights(f, s.unacked, i, s.unacked[i]);
    case Reroute(i) => RerouteDrops(cfg, s, i);
  }

  lemma QueueDrops(cfg: Config, s: State, l: Label)
    requires Enabled(s, l) && (l.Deliver? || l.Expire?)
    ensures Measure(cfg, Next(cfg, s, l)) < Measure(cfg, s)
  {
    hide Sum;
    if l.Deliver? {
      QueueWeights(MainWeight(cfg), s.main, s.main[0]);
      UnackedWeights(DeliveryWeight(cfg), s.unacked, 0, Next(cfg, s, l).unacked[|s.unacked|]);
    } else {
      QueueWeights(RetryWeight(cfg), s.retry, s.retry[0]);
      QueueWeights(MainWeight(cfg), s.main, s.retry[0]);
    }
  }

  lemma RerouteDrops(cfg: Config, s: State, i: nat)
    requires HandledInv(cfg, s) && InPhase(s, i, Failed)
    ensures Measure(cfg, Reroutes(cfg, s, i)) < Measure(cfg, s)
  {
    var d := s.unacked[i];
    assert d in s.unacked && MsgOk(cfg, s, d.msg, 1);
    RerouteWeights(cfg, d);
    UnackedWeights(DeliveryWeight(cfg), s.unacked, i, d.(phase := Rerouted));
    QueueWeights(RetryWeight(cfg), s.retry, d.msg.(retries := d.msg.retries + 1));
    hide HandledInv, MsgOk, Sum, MainWeight, RetryWeight, DeliveryWeight, Left;
  }

  /** A retry costs less than the failed delivery it replaces. */
  lemma RerouteWeights(cfg: Config, d: Delivery)
    requires d.phase.Failed? && d.msg.retries <= cfg.maxRetries
    ensures var now := DeliveryWeight(cfg)(d.(phase := Rerouted));
      && now < DeliveryWeight(cfg)(d)
      && (Decide(cfg, d.msg.retries) == ToRetry ==>
            now + RetryWeight(cfg)(d.msg.(retries := d.msg.retries + 1)) < DeliveryWeight(cfg)(d))
  {
  }

  ghost predicate Quiet(s: State) {
    s.main == [] && s.unacked == [] && s.retry == []
  }

  /** While a queue is not empty and no new event arrives, something can be
      done other than crash: nothing is ever stuck. */
  lemma NeverStuck(s: State)
    requires !Quiet(s)
    ensures exists l :: DrainOnly(l) && Enabled(s, l)
  {
    if s.unacked != [] {
      match s.unacked[0].phase
      case Running(_) => assert Enabled(s, Finish(0, true)) && DrainOnly(Finish(0, true));
      case Succeeded => assert Enabled(s, Ack(0)) && DrainOnly(Ack(0));
      case Failed => assert Enabled(s, Reroute(0)) && DrainOnly(Reroute(0));
      case Rerouted => assert Enabled(s, AckRerouted(0)) && DrainOnly(AckRerouted(0));
    } else if s.main != [] {
      assert !Busy(s, 0);
      assert Enabled(s, Deliver(0)) && DrainOnly(Deliver(0));
    } else {
      assert Enabled(s, Expire) && DrainOnly(Expire);
    }
  }

  /** Retry termination: whatever the schedule and whichever handlers fail, a
      crash-free run without new events has at most `Measure` steps, and if it
      cannot be continued then main, retry and the consumers are empty and each
      event ended processed, dead-lettered or, with no dead-letter queue,
      dropped. */
  lemma RetriesTerminate(cfg: Config, s: State, ls: seq<Label>)
    requires Inv(cfg, s) && Valid(System(cfg), s, ls) && Only(ls, DrainOnly)
    ensures var s' := Exec(System(cfg), s, ls);
      && |ls| <= Measure(cfg, s)
      && ((forall l :: DrainOnly(l) ==> !Enabled(s', l)) ==>
            && Quiet(s')
            && (forall x: nat :: x < s'.published ==>
                  Sum(IsOf(x), s'.done) + Sum(IsOf(x), s'.dlq) + Sum(IsOf(x), s'.dropped) >= 1)
            && (cfg.hasDlq ==> s'.dropped == []))
  {
    forall t, l | Inv(cfg, t) && DrainOnly(l) && Enabled(t, l)
      ensures Inv(cfg, Next(cfg, t, l)) && Measure(cfg, Next(cfg, t, l)) < Measure(cfg, t)
    {
      InvStep(cfg, t, l);
      MeasureDrops(cfg, t, l);
    }
    Bounded(System(cfg), t => Inv(cfg, t), DrainOnly, t => Measure(cfg, t), s, ls);
    Invariant(System(cfg), t => Inv(cfg, t), DrainOnly, s, ls);
    var s' := Exec(System(cfg), s, ls);
    if forall l :: DrainOnly(l) ==> !Enabled(s', l) {
      if !Quiet(s') { NeverStuck(s'); }
      forall x: nat | x < s'.published
        ensures Sum(IsOf(x), s'.done) + Sum(IsOf(x), s'.dlq) + Sum(IsOf(x), s'.dropped) >= 1
      {
        assert Places(s', x) == Count(s'.copies, x) >= 1;
      }
    }
  }
}
