/** The queue graph that closes the retry loop. */
module Topology {
  import opened Prelude

  const REQUEUE_EXCHANGE := "hl.requeue"

  function RetryQueueName(mainQueue: string): string { mainQueue + ".retry" }

  function DlqName(mainQueue: string): string { mainQueue + ".dlq" }

  datatype Args = Args(ttl: Option<int>, deadLetterExchange: Option<string>, deadLetterKey: Option<string>)

  const VANILLA := Args(None, None, None)

  datatype Binding = Binding(exchange: string, key: string, queue: string)

  datatype Graph = Graph(queues: map<string, Args>, exchanges: set<string>, bindings: set<Binding>)

  function RetryArgs(mainQueue: string, backoffMs: int): Args {
    Args(Some(backoffMs), Some(REQUEUE_EXCHANGE), Some(mainQueue))
  }

  /** A declaration is refused when the queue exists with other arguments. */
  predicate Compatible(queues: map<string, Args>, name: string, args: Args) {
    name !in queues || queues[name] == args
  }

  /** Where a message whose TTL expires in `queue` ends up: direct exchange. */
  function DeadLettersTo(g: Graph, queue: string): set<string>
    requires queue in g.queues
  {
    var a := g.queues[queue];
    if a.deadLetterExchange.Some? && a.deadLetterKey.Some? then
      set b | b in g.bindings && b.exchange == a.deadLetterExchange.value && b.key == a.deadLetterKey.value :: b.queue
    else {}
  }

  /** Every binding on the requeue exchange sends a queue's name to that queue,
      and every queue that dead-letters there has such a binding. */
  ghost predicate LoopsClosed(g: Graph) {
    && (forall b :: b in g.bindings && b.exchange == REQUEUE_EXCHANGE ==> b.queue == b.key)
    && (forall q :: q in g.queues && g.queues[q].deadLetterExchange == Some(REQUEUE_EXCHANGE) ==>
          g.queues[q].deadLetterKey.Some?
          && Binding(REQUEUE_EXCHANGE, g.queues[q].deadLetterKey.value, g.queues[q].deadLetterKey.value) in g.bindings)
  }

  function Bound(g: Graph, mainQueue: string): Graph {
    Graph(g.queues[mainQueue := VANILLA], g.exchanges + {REQUEUE_EXCHANGE},
          g.bindings + {Binding(REQUEUE_EXCHANGE, mainQueue, mainQueue)})
  }

  /** All three queues can be declared. */
  predicate CanAssert(g: Graph, mainQueue: string, backoffMs: int) {
    && Compatible(g.queues, mainQueue, VANILLA)
    && Compatible(g.queues, RetryQueueName(mainQueue), RetryArgs(mainQueue, backoffMs))
    && Compatible(g.queues, DlqName(mainQueue), VANILLA)
  }

  function Asserted(g: Graph, mainQueue: string, backoffMs: int): Graph {
    var b := Bound(g, mainQueue);
    b.(queues := b.queues[RetryQueueName(mainQueue) := RetryArgs(mainQueue, backoffMs)][DlqName(mainQueue) := VANILLA])
  }

  /** The main and dead-letter queues are plain; the retry queue keeps a message
      for the backoff and then hands it to the requeue exchange under the main
      queue's name, which is bound to the main queue; everything else stays. */
  ghost predicate GraphLaw(g: Graph, g': Graph, mainQueue: string, backoffMs: int) {
    var retry, dlq := mainQueue + ".retry", mainQueue + ".dlq";
    && g'.queues.Keys == g.queues.Keys + {mainQueue, retry, dlq}
    && g'.queues[mainQueue] == Args(None, None, None) == g'.queues[dlq]
    && g'.queues[retry] == Args(Some(backoffMs), Some("hl.requeue"), Some(mainQueue))
    && (forall q :: q in g.queues && q != mainQueue && q != retry && q != dlq ==> g'.queues[q] == g.queues[q])
    && g'.exchanges == g.exchanges + {"hl.requeue"}
    && g'.bindings == g.bindings + {Binding("hl.requeue", mainQueue, mainQueue)}
  }

  /** Queues that exist already were declared as they are now. */
  ghost predicate NoneDiffers(queues: map<string, Args>, mainQueue: string, backoffMs: int) {
    var retry, dlq := mainQueue + ".retry", mainQueue + ".dlq";
    && (mainQueue in queues ==> queues[mainQueue] == Args(None, None, None))
    && (retry in queues ==> queues[retry] == Args(Some(backoffMs), Some("hl.requeue"), Some(mainQueue)))
    && (dlq in queues ==> queues[dlq] == Args(None, None, None))
  }

  lemma AssertedLaw(g: Graph, mainQueue: string, backoffMs: int)
    ensures GraphLaw(g, Asserted(g, mainQueue, backoffMs), mainQueue, backoffMs)
    ensures CanAssert(g, mainQueue, backoffMs) <==> NoneDiffers(g.queues, mainQueue, backoffMs)
  {
    NamesDiffer(mainQueue);
  }

  class BrokerTopology {
    var queues: map<string, Args>
    var exchanges: set<string>
    var bindings: set<Binding>

    constructor ()
      ensures TheGraph() == Graph(map[], {}, {})
    {
      queues, exchanges, bindings := map[], {}, {};
    }

    function TheGraph(): Graph
      reads this
    {
      Graph(queues, exchanges, bindings)
    }

    method AssertQueue(name: string, args: Args) returns (ok: bool)
      modifies this`queues
      ensures ok == Compatible(old(queues), name, args)
      ensures queues == if ok then old(queues)[name := args] else old(queues)
    {
      ok := name !in queues || queues[name] == args;
      if ok { queues := queues[name := args]; }
    }

    /** Succeeds exactly when none of the three queues exists with other
        arguments; whatever happens, closed loops stay closed. */
    method AssertRetryTopology(mainQueue: string, backoffMs: int) returns (ok: bool)
      modifies this
      ensures ok <==> CanAssert(old(TheGraph()), mainQueue, backoffMs)
      ensures ok ==> TheGraph() == Asserted(old(TheGraph()), mainQueue, backoffMs)
      ensures old(LoopsClosed(TheGraph())) ==> LoopsClosed(TheGraph())
      ensures ok ==> GraphLaw(old(TheGraph()), TheGraph(), mainQueue, backoffMs)
      ensures ok <==> NoneDiffers(old(queues), mainQueue, backoffMs)
    {
      AssertedLaw(TheGraph(), mainQueue, backoffMs);
      ghost var g := TheGraph();
      NamesDiffer(mainQueue);
      if Compatible(queues, mainQueue, VANILLA) { LoopsStayClosed(g, mainQueue, backoffMs); }
      hide GraphLaw, NoneDiffers, LoopsClosed;
      ok := AssertQueue(mainQueue, VANILLA);
      if !ok { return; }
      exchanges := exchanges + {REQUEUE_EXCHANGE};
      bindings := bindings + {Binding(REQUEUE_EXCHANGE, mainQueue, mainQueue)};
      assert TheGraph() == Bound(g, mainQueue);
      ok := AssertQueue(RetryQueueName(mainQueue), RetryArgs(mainQueue, backoffMs));
      if !ok { return; }
      ok := AssertQueue(DlqName(mainQueue), VANILLA);
    }
  }

  lemma NamesDiffer(q: string)
    ensures q != RetryQueueName(q) && q != DlqName(q) && RetryQueueName(q) != DlqName(q)
  {
    assert |RetryQueueName(q)| == |q| + 6 && |DlqName(q)| == |q| + 4;
  }

  /** Loops stay closed, however far the declarations get. */
  lemma LoopsStayClosed(g: Graph, mainQueue: string, backoffMs: int)
    requires Compatible(g.queues, mainQueue, VANILLA)
    ensures var b := Bound(g, mainQueue);
      LoopsClosed(g) ==>
        && LoopsClosed(g.(queues := g.queues[mainQueue := VANILLA])) && LoopsClosed(b)
        && LoopsClosed(b.(queues := b.queues[RetryQueueName(mainQueue) := RetryArgs(mainQueue, backoffMs)]))
        && LoopsClosed(Asserted(g, mainQueue, backoffMs))
  {
    NamesDiffer(mainQueue);
  }

  /** The topologies of several services, declared one after the other on the
      same exchange. */
  ghost function AssertedAll(g: Graph, mains: seq<string>, backoffMs: int): Graph
    decreases |mains|
  {
    if mains == [] then g else AssertedAll(Asserted(g, mains[0], backoffMs), mains[1..], backoffMs)
  }

  ghost predicate CanAssertAll(g: Graph, mains: seq<string>, backoffMs: int)
    decreases |mains|
  {
    mains == [] || (CanAssert(g, mains[0], backoffMs) && CanAssertAll(Asserted(g, mains[0], backoffMs), mains[1..], backoffMs))
  }

  lemma AssertedKeeps(g: Graph, mainQueue: string, backoffMs: int)
    requires LoopsClosed(g) && CanAssert(g, mainQueue, backoffMs)
    ensures var g' := Asserted(g, mainQueue, backoffMs);
      && LoopsClosed(g')
      && (forall q :: q in g.queues ==> q in g'.queues && g'.queues[q] == g.queues[q])
      && RetryQueueName(mainQueue) in g'.queues
      && g'.queues[RetryQueueName(mainQueue)] == RetryArgs(mainQueue, backoffMs)
  {
    NamesDiffer(mainQueue);
  }

  /** A message that expires in a retry queue comes back to its own main queue
      and to no other, however many services share the requeue exchange. */
  lemma {:induction false} RetryReturnsHome(g: Graph, mains: seq<string>, backoffMs: int, q: string)
    requires LoopsClosed(g) && CanAssertAll(g, mains, backoffMs)
    requires q in mains || (RetryQueueName(q) in g.queues && g.queues[RetryQueueName(q)] == RetryArgs(q, backoffMs))
    ensures var g' := AssertedAll(g, mains, backoffMs);
      RetryQueueName(q) in g'.queues && DeadLettersTo(g', RetryQueueName(q)) == {q}
    decreases |mains|
  {
    if mains == [] {
      assert Binding(REQUEUE_EXCHANGE, q, q) in g.bindings;
      assert forall x :: x in DeadLettersTo(g, RetryQueueName(q)) <==> x == q;
    } else {
      AssertedKeeps(g, mains[0], backoffMs);
      RetryReturnsHome(Asserted(g, mains[0], backoffMs), mains[1..], backoffMs, q);
    }
  }

  /** Declaring again changes nothing; declaring with another backoff fails. */
  lemma Redeclare(g: Graph, mainQueue: string, backoffMs: int, otherMs: int)
    requires CanAssert(g, mainQueue, backoffMs)
    ensures var g' := Asserted(g, mainQueue, backoffMs);
      && (CanAssert(g', mainQueue, otherMs) <==> otherMs == backoffMs)
      && Asserted(g', mainQueue, backoffMs) == g'
  {
    NamesDiffer(mainQueue);
    var g' := Asserted(g, mainQueue, backoffMs);
    assert Asserted(g', mainQueue, backoffMs).queues == g'.queues;
  }
}
