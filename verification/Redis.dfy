/** The keyed store with expiry that tracing, auth and reports rest on. Time is
    in milliseconds; a key is gone from the moment its time to live has passed. */
module Redis {
  import opened Prelude

  datatype Entry = Entry(value: string, expiresAt: nat)

  type Store = map<string, Entry>

  predicate Live(store: Store, now: nat, key: string) {
    key in store && now < store[key].expiresAt
  }

  function Lookup(store: Store, now: nat, key: string): Option<string> {
    if Live(store, now, key) then Some(store[key].value) else None
  }

  function Put(store: Store, now: nat, key: string, value: string, ttlSeconds: nat): Store {
    store[key := Entry(value, now + 1000 * ttlSeconds)]
  }

  /** `RedisService` over one store. `now` is the server's clock, which no command
      moves; `Command` below lets time pass between commands. */
  class RedisService {
    var store: Store
    var now: nat

    constructor ()
      ensures store == map[] && now == 0
    {
      store, now := map[], 0;
    }

    method Get(key: string) returns (value: Option<string>)
      ensures value == Lookup(store, now, key)
    {
      value := if key in store && now < store[key].expiresAt then Some(store[key].value) else None;
    }

    method SetWithTtl(key: string, value: string, ttlSeconds: nat)
      modifies this`store
      ensures store == Put(old(store), now, key, value, ttlSeconds)
      ensures key in store && store[key] == Entry(value, now + 1000 * ttlSeconds)
      ensures forall other :: other != key ==> (other in store <==> other in old(store))
      ensures forall other :: other != key && other in store ==> store[other] == old(store)[other]
    {
      store := store[key := Entry(value, now + 1000 * ttlSeconds)];
    }

    /** Sets the key only if nothing live is there; one atomic command. */
    method SetIfAbsent(key: string, value: string, ttlSeconds: nat) returns (first: bool)
      modifies this`store
      ensures first <==> !Live(old(store), now, key)
      ensures store == if first then Put(old(store), now, key, value, ttlSeconds) else old(store)
    {
      first := !(key in store && now < store[key].expiresAt);
      if first {
        SetWithTtl(key, value, ttlSeconds);
      }
    }

    method Exists(key: string) returns (found: bool)
      ensures found <==> Live(store, now, key)
    {
      var value := Get(key);
      found := value.Some?;
    }

    method Del(key: string)
      modifies this`store
      ensures store == old(store) - {key}
    {
      store := store - {key};
    }
  }

  // ---- What a key shows over time ----------------------------------------------

  datatype Command =
    | Wait(ms: nat)
    | Set(key: string, value: string, ttlSeconds: nat)
    | SetNx(key: string, value: string, ttlSeconds: nat)
    | Delete(key: string)

  datatype Server = Server(store: Store, now: nat)

  function Apply(s: Server, c: Command): Server {
    match c
    case Wait(ms) => s.(now := s.now + ms)
    case Set(key, value, ttl) => s.(store := Put(s.store, s.now, key, value, ttl))
    case SetNx(key, value, ttl) => if Live(s.store, s.now, key) then s else s.(store := Put(s.store, s.now, key, value, ttl))
    case Delete(key) => s.(store := s.store - {key})
  }

  function ApplyAll(s: Server, cs: seq<Command>): Server
    decreases |cs|
  {
    if cs == [] then s else ApplyAll(Apply(s, cs[0]), cs[1..])
  }

  /** Overwrites or deletes the key. Set-if-absent does neither to a live key. */
  predicate Disturbs(c: Command, key: string) {
    (c.Set? || c.Delete?) && c.key == key
  }

  /** A key set with a time to live shows its value until exactly that time and
      nothing after it, whatever else happens, set-if-absent on it included as
      long as it is alive: the first claimer of a key keeps it. */
  lemma {:induction false} LivesExactly(s: Server, key: string, cs: seq<Command>)
    requires Live(s.store, s.now, key)
    requires forall i :: 0 <= i < |cs| ==> !Disturbs(cs[i], key)
    ensures var s' := ApplyAll(s, cs);
      s'.now < s.store[key].expiresAt ==> Lookup(s'.store, s'.now, key) == Some(s.store[key].value)
    ensures var s' := ApplyAll(s, cs);
      (s.store[key].expiresAt <= s'.now && forall i :: 0 <= i < |cs| ==> !(cs[i].SetNx? && cs[i].key == key)) ==>
        Lookup(s'.store, s'.now, key) == None
    decreases |cs|
  {
    TimeOnlyPasses(s, cs);
    if cs != [] {
      var t := Apply(s, cs[0]);
      TimeOnlyPasses(t, cs[1..]);
      assert !Disturbs(cs[0], key);
      assert forall i :: 0 <= i < |cs[1..]| ==> cs[1..][i] == cs[i + 1];
      if Live(t.store, t.now, key) {
        LivesExactly(t, key, cs[1..]);
      } else {
        StaysGone(t, key, cs[1..]);
      }
    }
  }

  lemma {:induction false} TimeOnlyPasses(s: Server, cs: seq<Command>)
    ensures s.now <= ApplyAll(s, cs).now
    decreases |cs|
  {
    if cs != [] { TimeOnlyPasses(Apply(s, cs[0]), cs[1..]); }
  }

  /** Nothing but a set brings an expired or deleted key back. */
  lemma {:induction false} StaysGone(s: Server, key: string, cs: seq<Command>)
    requires !Live(s.store, s.now, key)
    requires forall i :: 0 <= i < |cs| ==> !Disturbs(cs[i], key)
    ensures (forall i :: 0 <= i < |cs| ==> !(cs[i].SetNx? && cs[i].key == key)) ==>
              Lookup(ApplyAll(s, cs).store, ApplyAll(s, cs).now, key) == None
    decreases |cs|
  {
    if cs != [] && !(cs[0].SetNx? && cs[0].key == key) {
      assert !Disturbs(cs[0], key);
      assert forall i :: 0 <= i < |cs[1..]| ==> cs[1..][i] == cs[i + 1];
      StaysGone(Apply(s, cs[0]), key, cs[1..]);
    }
  }

}
