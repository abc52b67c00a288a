/** `AuthService`'s refresh-token methods, why one undisturbed call is a run of
    the rotation machine, and what two consumers can do to it. */
module TokenService {
  import opened Prelude
  import opened Runs
  import opened Keys
  import opened Redis
  import opened Tokens

  /** What the client sent, after the signature check. */
  datatype Presented = NoToken | BadSignature | Genuine(token: Token)

  datatype Denial = NotProvided | Invalid | HasBeenRevoked

  class AuthService {
    const redis: RedisService

    constructor (redis: RedisService)
      ensures this.redis == redis
    {
      this.redis := redis;
    }

    /** `jti` is the random id drawn for the new token. */
    method IssueRefreshToken(user: int, jti: Jti) returns (token: Token)
      modifies redis`store
      ensures token == Minted(user, jti, redis.now) == Token(user, jti, redis.now / 1000 + 604_800)
      ensures TokenKey(token) in redis.store && redis.store[TokenKey(token)].expiresAt == redis.now + 604_800_000
      ensures redis.store == Put(old(redis.store), redis.now, TokenKey(token), "1", REFRESH_TTL_SECONDS)
    {
      token := Token(user, jti, redis.now / 1000 + REFRESH_TTL_SECONDS);
      redis.SetWithTtl(RefreshKey(user, jti), "1", REFRESH_TTL_SECONDS);
    }

    method RefreshToken(presented: Presented, jti: Jti) returns (reply: Result<Token, Denial>)
      modifies redis`store
      ensures reply.Ok? <==> Accepts(old(redis.store), redis.now, presented)
      ensures reply.Ok? ==>
                && reply.value == Minted(presented.token.user, jti, redis.now)
                && redis.store == Rotated(old(redis.store), redis.now, presented.token, jti)
      ensures reply.Err? ==> redis.store == old(redis.store) && reply.error == WhyNot(redis.now, presented)
      ensures match presented
              case NoToken => reply == Err(NotProvided)
              case BadSignature => reply == Err(Invalid)
              case Genuine(token) =>
                if redis.now / 1000 >= token.exp then reply == Err(Invalid)
                else if token.jti == "" || !Live(old(redis.store), redis.now, RefreshKey(token.user, token.jti)) then reply == Err(HasBeenRevoked)
                else reply == Ok(Token(token.user, jti, redis.now / 1000 + 604_800))
    {
      if presented.NoToken? {
        return Err(NotProvided);
      }
      if presented.BadSignature? || redis.now / 1000 >= presented.token.exp {
        return Err(Invalid);
      }
      var token := presented.token;
      var key := RefreshKey(token.user, token.jti);
      var present := redis.Exists(key);
      if token.jti == "" || !present {
        return Err(HasBeenRevoked);
      }
      redis.Del(key);
      var next := IssueRefreshToken(token.user, jti);
      return Ok(next);
    }
  }

  predicate Accepts(store: Store, now: nat, presented: Presented) {
    && presented.Genuine? && presented.token.jti != ""
    && Fresh(presented.token, now) && Live(store, now, TokenKey(presented.token))
  }

  function WhyNot(now: nat, presented: Presented): Denial {
    if presented.NoToken? then NotProvided
    else if presented.Genuine? && Fresh(presented.token, now) then HasBeenRevoked
    else Invalid
  }

  /** The presented token's key is gone, the new token's is set. */
  function Rotated(store: Store, now: nat, token: Token, jti: Jti): Store {
    Put(store - {TokenKey(token)}, now, TokenKey(Minted(token.user, jti, now)), "1", REFRESH_TTL_SECONDS)
  }

  /** After a rotation the old token is refused, the new one is accepted, and
      every other token fares as before. */
  lemma RotationSwapsTokens(store: Store, now: nat, token: Token, jti: Jti, other: Token)
    requires Accepts(store, now, Genuine(token)) && jti != token.jti && jti != ""
    requires other.jti != token.jti && other.jti != jti
    ensures var store' := Rotated(store, now, token, jti);
      && !Accepts(store', now, Genuine(token))
      && Accepts(store', now, Genuine(Minted(token.user, jti, now)))
      && (Accepts(store', now, Genuine(other)) <==> Accepts(store, now, Genuine(other)))
  {
    var next := Minted(token.user, jti, now);
    if TokenKey(next) == TokenKey(token) { RefreshKeyInjective(next.user, next.jti, token.user, token.jti); }
    if TokenKey(next) == TokenKey(other) { RefreshKeyInjective(next.user, next.jti, other.user, other.jti); }
    if TokenKey(token) == TokenKey(other) { RefreshKeyInjective(token.user, token.jti, other.user, other.jti); }
    hide RefreshKey;
  }

  // ---- The call and the machine ------------------------------------------------

  /** The steps of one call by handler `h`. */
  function CallSteps(h: Handler, id: Jti, jti: Jti, unexpired: bool, live: bool): seq<Label> {
    if !unexpired then [Present(h, id)]
    else if !live then [Present(h, id), CheckKey(h)]
    else [Present(h, id), CheckKey(h), DeleteKey(h)] + [Sign(h, jti), StoreKey(h)]
  }

  /** A call nothing interrupts is a run of the machine: the handler is idle
      again, and Redis holds what the method leaves there. */
  lemma RefreshTokenIsRun(s: State, h: Handler, id: Jti, jti: Jti)
    requires Inv(s) && h !in s.handlers && id in s.minted && jti !in s.minted && jti != ""
    ensures var token := s.minted[id];
      var ok := Accepts(s.store, s.now, Genuine(token));
      var ls := CallSteps(h, id, jti, Fresh(token, s.now), Live(s.store, s.now, TokenKey(token)));
      && Valid(System(), s, ls)
      && var s' := Exec(System(), s, ls);
      && s'.handlers == s.handlers
      && s'.store == (if ok then Rotated(s.store, s.now, token, jti) else s.store)
      && (ok ==> jti in s'.minted && s'.minted[jti] == Minted(token.user, jti, s.now) && Open(s', jti) && id in s'.accepted)
  {
    var token := s.minted[id];
    assert TokenOk(s, id);
    SingleStep(System(), s, Present(h, id));
    if Fresh(token, s.now) {
      var s1 := Next(s, Present(h, id));
      var s2 := Next(s1, CheckKey(h));
      TwoSteps(System(), s, Present(h, id), CheckKey(h));
      if Live(s.store, s.now, TokenKey(token)) {
        AcceptedCall(s, h, id, jti);
      } else {
        assert s2.handlers == s.handlers;
      }
    }
  }

  /** The handler has deleted the presented token's key. */
  function TradedIn(s: State, h: Handler, token: Token): State
    requires token.jti in s.chainOf
  {
    With(s, h, Revoked(token.user, s.chainOf[token.jti])).(store := s.store - {TokenKey(token)}, accepted := Bump(s.accepted, token.jti))
  }

  /** The handler has minted and stored a token, and is idle. */
  function Issued(s: State, h: Handler, jti: Jti): State
    requires h in s.handlers && Signing(s.handlers[h])
  {
    var t, c := Minted(s.handlers[h].user, jti, s.now), s.handlers[h].chain;
    s.(handlers := s.handlers - {h}, store := Put(s.store, s.now, TokenKey(t), "1", REFRESH_TTL_SECONDS),
       stored := s.stored + {jti}, minted := s.minted[jti := t], chainOf := s.chainOf[jti := c])
  }

  lemma AcceptedCall(s: State, h: Handler, id: Jti, jti: Jti)
    requires Inv(s) && h !in s.handlers && id in s.minted && jti !in s.minted && jti != ""
    requires Accepts(s.store, s.now, Genuine(s.minted[id]))
    ensures var ls := CallSteps(h, id, jti, true, true);
      && Valid(System(), s, ls)
      && var s' := Exec(System(), s, ls);
      && s'.handlers == s.handlers && s'.store == Rotated(s.store, s.now, s.minted[id], jti)
      && jti in s'.minted && s'.minted[jti] == Minted(s.minted[id].user, jti, s.now) && Open(s', jti) && id in s'.accepted
  {
    var token := s.minted[id];
    assert TokenOk(s, id) && id in s.chainOf && jti !in s.accepted && jti != id;
    FirstThree(s, h, id);
    var s3 := TradedIn(s, h, token);
    assert s3.handlers - {h} == s.handlers;
    hide Inv, TokenKey, Put, Valid, Exec, System;
    SignAndStore(s3, h, jti);
    Concat(System(), s, [Present(h, id), CheckKey(h), DeleteKey(h)], [Sign(h, jti), StoreKey(h)]);
  }

  lemma FirstThree(s: State, h: Handler, id: Jti)
    requires h !in s.handlers && id in s.minted && id in s.chainOf && s.minted[id].jti == id
    requires Accepts(s.store, s.now, Genuine(s.minted[id]))
    ensures Valid(System(), s, [Present(h, id), CheckKey(h), DeleteKey(h)])
    ensures Exec(System(), s, [Present(h, id), CheckKey(h), DeleteKey(h)]) == TradedIn(s, h, s.minted[id])
  {
    hide TokenKey;
    var token := s.minted[id];
    var s1, s2 := With(s, h, Verified(token)), With(s, h, Allowed(token));
    assert s1.handlers[h := Allowed(token)] == s2.handlers;
    assert s2.handlers[h := Revoked(token.user, s.chainOf[id])] == TradedIn(s, h, token).handlers;
    ThreeSteps(System(), s, Present(h, id), CheckKey(h), DeleteKey(h));
  }

  lemma SignAndStore(s: State, h: Handler, jti: Jti)
    requires h in s.handlers && Signing(s.handlers[h]) && jti !in s.minted && jti != ""
    ensures Valid(System(), s, [Sign(h, jti), StoreKey(h)])
    ensures Exec(System(), s, [Sign(h, jti), StoreKey(h)]) == Issued(s, h, jti)
  {
    hide TokenKey, Put;
    var t, c := Minted(s.handlers[h].user, jti, s.now), s.handlers[h].chain;
    assert s.handlers[h := Signed(t, c)] - {h} == s.handlers - {h};
    TwoSteps(System(), s, Sign(h, jti), StoreKey(h));
  }

  // ---- Two consumers -------------------------------------------------------------

  /** Both handlers, at the same point of the same request. */
  function Both(s: State, h: Handler, g: Handler, p: Phase): State {
    s.(handlers := s.handlers[h := p][g := p])
  }

  lemma BothPresent(s: State, h: Handler, g: Handler, id: Jti)
    requires h !in s.handlers && g !in s.handlers && h != g && id in s.minted && Fresh(s.minted[id], s.now)
    ensures Valid(System(), s, [Present(h, id), Present(g, id)])
    ensures Exec(System(), s, [Present(h, id), Present(g, id)]) == Both(s, h, g, Verified(s.minted[id]))
  {
    TwoSteps(System(), s, Present(h, id), Present(g, id));
  }

  lemma BothCheck(s: State, h: Handler, g: Handler, token: Token)
    requires h != g && Live(s.store, s.now, TokenKey(token))
    ensures Valid(System(), Both(s, h, g, Verified(token)), [CheckKey(h), CheckKey(g)])
    ensures Exec(System(), Both(s, h, g, Verified(token)), [CheckKey(h), CheckKey(g)]) == Both(s, h, g, Allowed(token))
  {
    hide TokenKey, Live;
    TwoSteps(System(), Both(s, h, g, Verified(token)), CheckKey(h), CheckKey(g));
    assert Both(s, h, g, Verified(token)).handlers[h := Allowed(token)][g := Allowed(token)] == Both(s, h, g, Allowed(token)).handlers;
  }

  /** Both handlers have deleted the key, the second one in vain. */
  function BothTradedIn(s: State, h: Handler, g: Handler, token: Token): State
    requires token.jti in s.chainOf
  {
    Both(s, h, g, Revoked(token.user, s.chainOf[token.jti])).(store := s.store - {TokenKey(token)},
                                                              accepted := Bump(Bump(s.accepted, token.jti), token.jti))
  }

  lemma BothDelete(s: State, h: Handler, g: Handler, token: Token)
    requires h != g && token.jti in s.chainOf
    ensures Valid(System(), Both(s, h, g, Allowed(token)), [DeleteKey(h), DeleteKey(g)])
    ensures Exec(System(), Both(s, h, g, Allowed(token)), [DeleteKey(h), DeleteKey(g)]) == BothTradedIn(s, h, g, token)
  {
    hide TokenKey;
    var start, p := Both(s, h, g, Allowed(token)), Revoked(token.user, s.chainOf[token.jti]);
    TwoSteps(System(), start, DeleteKey(h), DeleteKey(g));
    assert start.handlers[h := p][g := p] == Both(s, h, g, p).handlers;
    assert s.store - {TokenKey(token)} - {TokenKey(token)} == s.store - {TokenKey(token)};
  }

  function DoubleSpend(h: Handler, g: Handler, id: Jti, j: Jti, k: Jti): seq<Label> {
    [Present(h, id), Present(g, id)] + ([CheckKey(h), CheckKey(g)] + ([DeleteKey(h), DeleteKey(g)]
    + ([Sign(h, j), StoreKey(h)] + [Sign(g, k), StoreKey(g)])))
  }

  /** With two consumers every usable token can be traded in twice: the two
      calls check before either deletes, and the login ends up with two open
      tokens. */
  lemma TwoConsumersSplitALogin(s: State, h: Handler, g: Handler, id: Jti, j: Jti, k: Jti)
    requires Inv(s) && Usable(s, id) && h !in s.handlers && g !in s.handlers && h != g
    requires j !in s.minted && k !in s.minted && j != k && j != "" && k != ""
    ensures Valid(System(), s, DoubleSpend(h, g, id, j, k))
    ensures var s' := Exec(System(), s, DoubleSpend(h, g, id, j, k));
      && Count(s'.accepted, id) == Count(s.accepted, id) + 2
      && Open(s', j) && Open(s', k) && j in s'.chainOf && k in s'.chainOf && s'.chainOf[j] == s'.chainOf[k]
  {
    assert TokenOk(s, id) && id in s.chainOf && j !in s.accepted && k !in s.accepted;
    hide Inv, TokenKey, Put, Valid, Exec, System;
    DoubleSpendRun(s, h, g, id, j, k);
    DoubleSpendEnds(s, h, g, id, j, k);
    hide Issued, BothTradedIn;
  }

  lemma DoubleSpendEnds(s: State, h: Handler, g: Handler, id: Jti, j: Jti, k: Jti)
    requires id in s.minted && s.minted[id].jti == id && id in s.chainOf && h != g
    requires j !in s.accepted && k !in s.accepted && j != k && j != id && k != id
    ensures var s' := Issued(Issued(BothTradedIn(s, h, g, s.minted[id]), h, j), g, k);
      && Count(s'.accepted, id) == Count(s.accepted, id) + 2
      && Open(s', j) && Open(s', k) && j in s'.chainOf && k in s'.chainOf && s'.chainOf[j] == s'.chainOf[k]
  {
    hide TokenKey, Put, Minted;
  }

  lemma DoubleSpendRun(s: State, h: Handler, g: Handler, id: Jti, j: Jti, k: Jti)
    requires Usable(s, id) && id in s.chainOf && s.minted[id].jti == id && h !in s.handlers && g !in s.handlers && h != g
    requires j !in s.minted && k !in s.minted && j != k && j != "" && k != ""
    ensures Valid(System(), s, DoubleSpend(h, g, id, j, k))
    ensures Exec(System(), s, DoubleSpend(h, g, id, j, k)) == Issued(Issued(BothTradedIn(s, h, g, s.minted[id]), h, j), g, k)
  {
    var t := s.minted[id];
    BothPresent(s, h, g, id);
    BothCheck(s, h, g, t);
    BothDelete(s, h, g, t);
    var s3 := BothTradedIn(s, h, g, t);
    SignAndStore(s3, h, j);
    SignAndStore(Issued(s3, h, j), g, k);
    hide Valid, Exec, System, TokenKey, Put, Issued, BothTradedIn, Both, Usable;
    Concat(System(), s3, [Sign(h, j), StoreKey(h)], [Sign(g, k), StoreKey(g)]);
    Concat(System(), Both(s, h, g, Allowed(t)), [DeleteKey(h), DeleteKey(g)], [Sign(h, j), StoreKey(h)] + [Sign(g, k), StoreKey(g)]);
    Concat(System(), Both(s, h, g, Verified(t)), [CheckKey(h), CheckKey(g)],
           [DeleteKey(h), DeleteKey(g)] + ([Sign(h, j), StoreKey(h)] + [Sign(g, k), StoreKey(g)]));
    Concat(System(), s, [Present(h, id), Present(g, id)],
           [CheckKey(h), CheckKey(g)] + ([DeleteKey(h), DeleteKey(g)] + ([Sign(h, j), StoreKey(h)] + [Sign(g, k), StoreKey(g)])));
  }
}
