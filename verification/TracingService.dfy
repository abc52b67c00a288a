/** `recordEvent` over the real key strings, and why one undisturbed call is a
    run of the tracing machine. */
module TracingService {
  import opened Prelude
  import opened Envelope
  import opened Runs
  import opened Keys
  import opened Redis
  import Tracing
  import Broker

  const IDEM_TTL_SECONDS := 24 * 60 * 60

  datatype Reply = Deduped | Saved | SaveThrew

  function KeyStringOf(k: Tracing.Key): string {
    IdemKey(k.eventType, k.entityId)
  }

  /** What one call leaves behind: the store, the collection and the reply. */
  datatype Outcome = Outcome(store: Store, docs: seq<Tracing.Doc>, reply: Reply)

  function Recorded(store: Store, now: nat, docs: seq<Tracing.Doc>, doc: Tracing.Doc, saves: bool, undoes: bool): Outcome {
    var key := KeyStringOf(doc.TheKey());
    if Live(store, now, key) then Outcome(store, docs, Deduped)
    else
      var claimed := Put(store, now, key, "1", IDEM_TTL_SECONDS);
      if saves then Outcome(claimed, docs + [doc], Saved)
      else Outcome(if undoes then claimed - {key} else claimed, docs, SaveThrew)
  }

  class TracingService {
    const redis: RedisService
    var docs: seq<Tracing.Doc>

    constructor (redis: RedisService)
      ensures this.redis == redis && docs == []
    {
      this.redis := redis;
      docs := [];
    }

    /** The environment decides whether the insert and the rollback succeed. */
    method RecordEvent(pattern: string, data: Payload, saves: bool, undoes: bool) returns (reply: Reply)
      modifies this`docs, redis`store
      ensures Outcome(redis.store, docs, reply)
              == Recorded(old(redis.store), redis.now, old(docs), Tracing.Doc(pattern, data), saves, undoes)
    {
      var key := Tracing.KeyOf(pattern, data);
      var idemKey := IdemKey(key.eventType, key.entityId);
      var firstTime := redis.SetIfAbsent(idemKey, "1", IDEM_TTL_SECONDS);
      if !firstTime {
        return Deduped;
      }
      if saves {
        docs := docs + [Tracing.Doc(pattern, data)];
        return Saved;
      }
      if undoes {
        redis.Del(idemKey);
      }
      return SaveThrew;
    }
  }

  // ---- The call and the machine --------------------------------------------------

  /** The machine's claims are the idempotency keys alive in Redis. */
  ghost predicate Represents(store: Store, now: nat, claims: set<Tracing.Key>) {
    && (forall k :: k in claims ==> NoColon(k.eventType))
    && (forall k: Tracing.Key :: NoColon(k.eventType) ==> (k in claims <==> Live(store, now, KeyStringOf(k))))
  }

  lemma PutRepresents(store: Store, now: nat, claims: set<Tracing.Key>, k: Tracing.Key)
    requires Represents(store, now, claims) && NoColon(k.eventType)
    ensures Represents(Put(store, now, KeyStringOf(k), "1", IDEM_TTL_SECONDS), now, claims + {k})
  {
    forall j: Tracing.Key | NoColon(j.eventType) && KeyStringOf(j) == KeyStringOf(k) ensures j == k {
      IdemKeyInjective(j.eventType, j.entityId, k.eventType, k.entityId);
    }
    hide IdemKey;
  }

  lemma DelRepresents(store: Store, now: nat, claims: set<Tracing.Key>, k: Tracing.Key)
    requires Represents(store, now, claims) && NoColon(k.eventType)
    ensures Represents(store - {KeyStringOf(k)}, now, claims - {k})
  {
    forall j: Tracing.Key | NoColon(j.eventType) && KeyStringOf(j) == KeyStringOf(k) ensures j == k {
      IdemKeyInjective(j.eventType, j.entityId, k.eventType, k.entityId);
    }
    hide IdemKey;
  }

  /** The handler's own steps, in order. */
  function HandlerSteps(i: nat, claimed: bool, saves: bool, undoes: bool): seq<Tracing.Label> {
    if claimed then [Tracing.Claim(i)]
    else if saves then [Tracing.Claim(i), Tracing.Save(i)]
    else [Tracing.Claim(i), Tracing.SaveError(i), if undoes then Tracing.Undo(i) else Tracing.UndoError(i)]
  }

  lemma EventTypesHaveNoColon(pattern: string, data: Payload)
    ensures NoColon(Tracing.KeyOf(pattern, data).eventType)
  {
    hide Tracing.EntityId, Tracing.EventType, NoColon;
    EventTypePlain(pattern);
    EmptyPlain();
  }

  lemma EmptyPlain()
    ensures NoColon("")
  {
  }

  lemma EventTypePlain(pattern: string)
    ensures Tracing.EventType(pattern).Some? ==> NoColon(Tracing.EventType(pattern).value)
  {
  }

  /** The run `ls` does to the machine what the call did: same collection, the
      claims its store represents, and the verdict its reply stands for. */
  ghost predicate Mirrors(s: Tracing.State, ls: seq<Tracing.Label>, i: nat, o: Outcome, now: nat) {
    && Valid(Tracing.System(), s, ls)
    && var s' := Exec(Tracing.System(), s, ls);
    && s'.docs == o.docs
    && Represents(o.store, now, s'.claims)
    && Broker.InPhase(s'.broker, i, if o.reply.SaveThrew? then Broker.Failed else Broker.Succeeded)
  }

  /** A call that nothing interrupts is a run of the machine. */
  lemma RecordEventIsRun(s: Tracing.State, i: nat, store: Store, now: nat, saves: bool, undoes: bool)
    requires Tracing.At(s, i, Broker.Received) && Represents(store, now, s.claims)
    ensures var m := s.broker.unacked[i].msg;
      Mirrors(s, HandlerSteps(i, Tracing.KeyAt(s, i) in s.claims, saves, undoes), i,
              Recorded(store, now, s.docs, Tracing.Doc(m.pattern, m.payload), saves, undoes), now)
  {
    var k := Tracing.KeyAt(s, i);
    var m := s.broker.unacked[i].msg;
    EventTypesHaveNoColon(m.pattern, m.payload);
    assert Tracing.Doc(m.pattern, m.payload).TheKey() == k;
    assert k in s.claims <==> Live(store, now, KeyStringOf(k));
    if k in s.claims {
      SingleStep(Tracing.System(), s, Tracing.Claim(i));
    } else {
      PutRepresents(store, now, s.claims, k);
      SingleStep(Tracing.System(), s, Tracing.Claim(i));
      if saves {
        SavedRun(s, i);
      } else {
        DelRepresents(Put(store, now, KeyStringOf(k), "1", IDEM_TTL_SECONDS), now, s.claims + {k}, k);
        assert s.claims + {k} - {k} == s.claims;
        UndoneRun(s, i, undoes);
      }
      hide Valid, Exec, Tracing.System, Represents, Tracing.Enabled, Tracing.KeyAt, Tracing.Next, Put, HandlerSteps;
      assert Mirrors(s, HandlerSteps(i, false, saves, undoes), i,
                     Recorded(store, now, s.docs, Tracing.Doc(m.pattern, m.payload), saves, undoes), now);
    }
  }

  lemma SavedRun(s: Tracing.State, i: nat)
    requires Tracing.At(s, i, Broker.Received) && Tracing.KeyAt(s, i) !in s.claims
    ensures var m, ls := s.broker.unacked[i].msg, HandlerSteps(i, false, true, true);
      && Valid(Tracing.System(), s, ls)
      && var s' := Exec(Tracing.System(), s, ls);
      && s'.docs == s.docs + [Tracing.Doc(m.pattern, m.payload)]
      && s'.claims == s.claims + {Tracing.KeyAt(s, i)}
      && Broker.InPhase(s'.broker, i, Broker.Succeeded)
  {
    TwoSteps(Tracing.System(), s, Tracing.Claim(i), Tracing.Save(i));
  }

  lemma UndoneRun(s: Tracing.State, i: nat, undoes: bool)
    requires Tracing.At(s, i, Broker.Received) && Tracing.KeyAt(s, i) !in s.claims
    ensures var ls := HandlerSteps(i, false, false, undoes);
      && Valid(Tracing.System(), s, ls)
      && var s' := Exec(Tracing.System(), s, ls);
      && s'.docs == s.docs
      && s'.claims == (if undoes then s.claims + {Tracing.KeyAt(s, i)} - {Tracing.KeyAt(s, i)} else s.claims + {Tracing.KeyAt(s, i)})
      && Broker.InPhase(s'.broker, i, Broker.Failed)
  {
    var last := if undoes then Tracing.Undo(i) else Tracing.UndoError(i);
    var failed := Tracing.Next(Tracing.Next(s, Tracing.Claim(i)), Tracing.SaveError(i));
    assert Tracing.At(failed, i, Broker.SaveFailed) && Tracing.KeyAt(failed, i) == Tracing.KeyAt(s, i);
    ThreeSteps(Tracing.System(), s, Tracing.Claim(i), Tracing.SaveError(i), last);
  }

  // ---- Idempotence of the call -----------------------------------------------------

  /** Once a call has stored an event, no later call for the same event type and
      entity stores another until the claim expires a day later, whatever the
      other keys go through. */
  lemma SecondCallSkips(store: Store, now: nat, docs: seq<Tracing.Doc>, a: Tracing.Doc, b: Tracing.Doc, cs: seq<Command>,
                        saves: bool, undoes: bool)
    requires a.TheKey() == b.TheKey()
    requires Recorded(store, now, docs, a, true, undoes).reply == Saved
    requires forall i :: 0 <= i < |cs| ==> !Disturbs(cs[i], KeyStringOf(a.TheKey()))
    ensures var s := ApplyAll(Server(Recorded(store, now, docs, a, true, undoes).store, now), cs);
      s.now < now + 86_400_000 ==>
        forall docs' :: Recorded(s.store, s.now, docs', b, saves, undoes) == Outcome(s.store, docs', Deduped)
  {
    var first := Recorded(store, now, docs, a, true, undoes);
    LivesExactly(Server(first.store, now), KeyStringOf(a.TheKey()), cs);
  }

  /** A failed save that rolls back leaves the key free for the retry. */
  lemma RetryGetsThrough(store: Store, now: nat, docs: seq<Tracing.Doc>, doc: Tracing.Doc)
    requires Recorded(store, now, docs, doc, false, true).reply == SaveThrew
    ensures var failed := Recorded(store, now, docs, doc, false, true);
      && failed.docs == docs
      && Recorded(failed.store, now, failed.docs, doc, true, true).reply == Saved
      && Recorded(failed.store, now, failed.docs, doc, true, true).docs == docs + [doc]
  {
  }
}
