/** Ack after processing, and what happens to an event whose handler failed. */
module Interceptor {
  import opened Prelude
  import opened Broker

  const RETRY_COUNT_HEADER := "x-retry-count"
  const DEFAULT_MAX_RETRIES: nat := 3

  /** A header is a number, or something else with its numeric coercion. */
  datatype HeaderValue = Num(n: int) | Coerced(asNumber: Option<int>)

  type Headers = map<string, HeaderValue>

  datatype Message = Message(replyTo: string, headers: Headers, content: string)

  datatype Settlement = Acked | Rejected

  /** Retries so far, from the counter header. */
  function RetryCount(headers: Headers): int {
    if RETRY_COUNT_HEADER !in headers then 0
    else match headers[RETRY_COUNT_HEADER]
      case Num(n) => n
      case Coerced(Some(n)) => n
      case Coerced(None) => 0
  }

  /** The copy that goes to the retry queue. */
  function Retried(m: Message): Message {
    Message("", m.headers[RETRY_COUNT_HEADER := Num(RetryCount(m.headers) + 1)], m.content)
  }

  function Parked(m: Message): Message {
    Message("", m.headers, m.content)
  }

  type Queues = map<string, seq<Message>>

  function Enqueued(queues: Queues, name: string, m: Message): Queues {
    queues[name := (if name in queues then queues[name] else []) + [m]]
  }

  /** A queue name that is configured, the empty string counting as not. */
  function Configured(name: Option<string>): bool {
    name.Some? && name.value != ""
  }

  class Channel {
    var queues: Queues
    var unacked: map<nat, Message>
    var settled: seq<(nat, Settlement)>

    constructor ()
      ensures queues == map[] && unacked == map[] && settled == []
    {
      queues, unacked, settled := map[], map[], [];
    }

    method Ack(tag: nat)
      requires tag in unacked
      modifies this`unacked, this`settled
      ensures unacked == old(unacked) - {tag} && settled == old(settled) + [(tag, Acked)]
    {
      unacked := unacked - {tag};
      settled := settled + [(tag, Acked)];
    }

    /** Negative ack without requeue: with no dead-letter exchange on the
        queue, the message is gone. */
    method Nack(tag: nat)
      requires tag in unacked
      modifies this`unacked, this`settled
      ensures unacked == old(unacked) - {tag} && settled == old(settled) + [(tag, Rejected)]
    {
      unacked := unacked - {tag};
      settled := settled + [(tag, Rejected)];
    }

    method SendToQueue(name: string, m: Message)
      modifies this`queues
      ensures queues == Enqueued(old(queues), name, m)
    {
      var before := if name in queues then queues[name] else [];
      queues := queues[name := before + [m]];
    }
  }

  /** The settlement and the queues a failed event leaves. */
  function AfterFailure(i: Options, queues: Queues, m: Message): (Settlement, Queues) {
    match Decide(i.Config(), RetryCount(m.headers))
    case ToRetry => if i.retryQueue.Some? then (Acked, Enqueued(queues, i.retryQueue.value, Retried(m))) else (Acked, queues)
    case ToDlq => if i.deadLetterQueue.Some? then (Acked, Enqueued(queues, i.deadLetterQueue.value, Parked(m))) else (Acked, queues)
    case Drop => (Rejected, queues)
  }

  datatype Options = Options(maxRetries: Option<nat>, retryQueue: Option<string>, deadLetterQueue: Option<string>) {
    function Config(): Broker.Config {
      Broker.Config(if maxRetries.Some? then maxRetries.value else DEFAULT_MAX_RETRIES,
                    Configured(retryQueue), Configured(deadLetterQueue))
    }
  }

  // ---- What the queues hold afterwards --------------------------------------------

  /** The retries so far are `n`: the number in the counter header, its numeric
      coercion, or zero. */
  ghost predicate RetriedSoFar(headers: Headers, n: int) {
    if "x-retry-count" !in headers then n == 0
    else match headers["x-retry-count"]
      case Num(k) => n == k
      case Coerced(Some(k)) => n == k
      case Coerced(None) => n == 0
  }

  /** Exactly this queue grew, by this message at its end. */
  ghost predicate Grew(before: Queues, after: Queues, name: string, copy: Message) {
    && after.Keys == before.Keys + {name}
    && after[name] == (if name in before then before[name] else []) + [copy]
    && forall other :: other in before && other != name ==> after[other] == before[other]
  }

  /** What a failed event leads to. While retries are left and a retry queue is
      configured, that queue gets the event with its counter one higher and all
      else equal; otherwise the dead-letter queue gets it as it was; with neither
      it is rejected and no queue changes. The copy asks for no reply. */
  ghost predicate FailureLaw(options: Options, m: Message, n: int, before: Queues, after: Queues, how: Settlement) {
    var limit := if options.maxRetries.Some? then options.maxRetries.value else 3;
    if options.retryQueue.Some? && options.retryQueue.value != "" && n < limit then
      how == Acked
      && Grew(before, after, options.retryQueue.value, Message("", m.headers["x-retry-count" := Num(n + 1)], m.content))
    else if options.deadLetterQueue.Some? && options.deadLetterQueue.value != "" then
      how == Acked && Grew(before, after, options.deadLetterQueue.value, Message("", m.headers, m.content))
    else how == Rejected && after == before
  }

  lemma FailureOutcome(options: Options, queues: Queues, m: Message, n: int)
    requires RetriedSoFar(m.headers, n)
    ensures var (how, after) := AfterFailure(options, queues, m); FailureLaw(options, m, n, queues, after, how)
  {
    assert RetryCount(m.headers) == n;
  }

  class RmqReliabilityInterceptor {
    const options: Options
    const maxRetries: nat
    const retryQueue: Option<string>
    const deadLetterQueue: Option<string>

    constructor (options: Options)
      ensures this.options == options && maxRetries == options.Config().maxRetries
      ensures retryQueue == options.retryQueue && deadLetterQueue == options.deadLetterQueue
    {
      this.options := options;
      this.maxRetries := if options.maxRetries.Some? then options.maxRetries.value else DEFAULT_MAX_RETRIES;
      this.retryQueue := options.retryQueue;
      this.deadLetterQueue := options.deadLetterQueue;
    }

    ghost predicate Valid() {
      maxRetries == options.Config().maxRetries
      && retryQueue == options.retryQueue && deadLetterQueue == options.deadLetterQueue
    }

    /** Runs once the handler has completed, normally or not. Every delivery on
        the bus is settled exactly once; RPC errors are acked because the reply
        carries them; anything that is not on the bus is left alone. */
    method Intercept(contextType: string, channel: Channel, tag: nat, handlerOk: bool) returns (rethrown: bool)
      requires Valid() && (contextType == "rpc" ==> tag in channel.unacked)
      modifies channel
      ensures rethrown == !handlerOk
      ensures contextType != "rpc" ==>
                channel.queues == old(channel.queues) && channel.unacked == old(channel.unacked)
                && channel.settled == old(channel.settled)
      ensures contextType == "rpc" ==>
                && channel.unacked == old(channel.unacked) - {tag}
                && (var m := old(channel.unacked)[tag];
                    var isEvent := m.replyTo == "";
                    var (how, queues) := if isEvent && !handlerOk then AfterFailure(options, old(channel.queues), m)
                                         else (Acked, old(channel.queues));
                    channel.settled == old(channel.settled) + [(tag, how)] && channel.queues == queues)
      ensures contextType == "rpc" ==>
                && |channel.settled| == |old(channel.settled)| + 1 && channel.settled[..|old(channel.settled)|] == old(channel.settled)
                && var (which, how) := channel.settled[|old(channel.settled)|];
                && which == tag
                && if handlerOk || old(channel.unacked)[tag].replyTo != "" then how == Acked && channel.queues == old(channel.queues)
                   else forall n :: RetriedSoFar(old(channel.unacked)[tag].headers, n) ==>
                          FailureLaw(options, old(channel.unacked)[tag], n, old(channel.queues), channel.queues, how)
    {
      hide FailureLaw, RetriedSoFar, AfterFailure;
      if contextType != "rpc" { return !handlerOk; }
      var message := channel.unacked[tag];
      var isRpc := message.replyTo != "";
      if handlerOk {
        channel.Ack(tag);
        return false;
      }
      if isRpc {
        channel.Ack(tag);
      } else {
        HandleEventFailure(channel, tag, message);
      }
      return true;
    }

    method HandleEventFailure(channel: Channel, tag: nat, message: Message)
      requires Valid() && tag in channel.unacked
      modifies channel
      ensures channel.unacked == old(channel.unacked) - {tag}
      ensures var (how, queues) := AfterFailure(options, old(channel.queues), message);
                channel.settled == old(channel.settled) + [(tag, how)] && channel.queues == queues
      ensures forall n :: RetriedSoFar(message.headers, n) ==>
                FailureLaw(options, message, n, old(channel.queues), channel.queues, channel.settled[|channel.settled| - 1].1)
    {
      hide FailureLaw, RetriedSoFar;
      forall n | RetriedSoFar(message.headers, n)
        ensures var (how, after) := AfterFailure(options, channel.queues, message); FailureLaw(options, message, n, channel.queues, after, how)
      {
        FailureOutcome(options, channel.queues, message, n);
      }
      var attempts := RetryCount(message.headers);
      if attempts < maxRetries && Configured(retryQueue) {
        channel.SendToQueue(retryQueue.value, Message("", message.headers[RETRY_COUNT_HEADER := Num(attempts + 1)], message.content));
      } else if Configured(deadLetterQueue) {
        channel.SendToQueue(deadLetterQueue.value, Message("", message.headers, message.content));
      } else {
        channel.Nack(tag);
        return;
      }
      channel.Ack(tag);
    }
  }

  /** The message after `k` failures in a row. */
  function AfterRetries(m: Message, k: nat): Message {
    if k == 0 then m else Retried(AfterRetries(m, k - 1))
  }

  /** The counter rises by exactly one per failure, nothing else about the
      event changes, and so an event first published without a counter is
      retried exactly maxRetries times before it is dead-lettered. */
  lemma {:induction false} RetriesCounted(options: Options, m: Message, k: nat)
    requires Configured(options.retryQueue) && Configured(options.deadLetterQueue)
    ensures var r := AfterRetries(m, k);
      && RetryCount(r.headers) == RetryCount(m.headers) + k
      && r.content == m.content
      && r.headers - {RETRY_COUNT_HEADER} == m.headers - {RETRY_COUNT_HEADER}
      && (RETRY_COUNT_HEADER !in m.headers ==>
            (Decide(options.Config(), RetryCount(r.headers)) == ToRetry <==> k < options.Config().maxRetries)
            && (Decide(options.Config(), RetryCount(r.headers)) == ToDlq <==> k >= options.Config().maxRetries))
  {
    if k > 0 {
      RetriesCounted(options, m, k - 1);
      var p := AfterRetries(m, k - 1);
      assert Retried(p).headers - {RETRY_COUNT_HEADER} == p.headers - {RETRY_COUNT_HEADER};
    }
  }

  /** Exactly the events of a queue with no dead-letter queue configured, whose
      retries are used up or have nowhere to go, are dropped: for the farms
      queue, configured with neither, every failed event. */
  lemma DroppedIffUnconfigured(options: Options, queues: Queues, m: Message)
    ensures AfterFailure(options, queues, m).0 == Rejected <==>
              !Configured(options.deadLetterQueue)
              && !(Configured(options.retryQueue) && RetryCount(m.headers) < options.Config().maxRetries)
    ensures AfterFailure(options, queues, m).0 == Acked ==>
              exists name: string, copy: Message ::
                && (options.retryQueue == Some(name) || options.deadLetterQueue == Some(name))
                && copy.content == m.content
                && AfterFailure(options, queues, m).1 == Enqueued(queues, name, copy)
  {
    match Decide(options.Config(), RetryCount(m.headers))
    case ToRetry => assert Retried(m).content == m.content && options.retryQueue == Some(options.retryQueue.value);
    case ToDlq => assert Parked(m).content == m.content && options.deadLetterQueue == Some(options.deadLetterQueue.value);
    case Drop =>
  }
}
