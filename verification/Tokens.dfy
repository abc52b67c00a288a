/** Refresh-token rotation as a labelled machine: every await of `login` and
    `refreshToken` is a step, time passes between steps, and a handler may die
    at any of them. */
module Tokens {
  import opened Prelude
  import opened Runs
  import opened Keys
  import opened Redis

  const REFRESH_TTL_SECONDS: nat := 7 * 24 * 60 * 60

  type Handler = nat
  type Jti = string
  type Chain = nat

  /** A refresh token whose signature verifies; `exp` is in seconds. */
  datatype Token = Token(user: int, jti: Jti, exp: nat)

  function Seconds(now: nat): nat {
    now / 1000
  }

  /** RFC 7519, section 4.1.4: refused on or after `exp`. */
  predicate Fresh(token: Token, now: nat) {
    Seconds(now) < token.exp
  }

  function TokenKey(token: Token): string {
    RefreshKey(token.user, token.jti)
  }

  function Minted(user: int, jti: Jti, now: nat): Token {
    Token(user, jti, Seconds(now) + REFRESH_TTL_SECONDS)
  }

  /** Where a handler stands, after the step named. */
  datatype Phase =
    | LoggedIn(user: int, chain: Chain)
    | Verified(token: Token)
    | Allowed(token: Token)
    | Revoked(user: int, chain: Chain)
    | Signed(token: Token, chain: Chain)

  /** `minted`, `chainOf`, `stored`, `accepted`, `logins` and `broken` are
      history: every token ever signed and the login it descends from, the ids
      ever written to Redis, how often each was traded in, and the logins whose
      handler died holding the turn. */
  datatype State = State(
    now: nat,
    store: Store,
    handlers: map<Handler, Phase>,
    minted: map<Jti, Token>,
    chainOf: map<Jti, Chain>,
    stored: set<Jti>,
    accepted: map<Jti, nat>,
    logins: nat,
    broken: set<Chain>)

  datatype Label =
    | Wait(ms: nat)
    | Login(h: Handler, user: int)
    | Present(h: Handler, jti: Jti)
    | CheckKey(h: Handler)
    | DeleteKey(h: Handler)
    | Sign(h: Handler, jti: Jti)
    | StoreKey(h: Handler)
    | Die(h: Handler)

  const Init := State(0, map[], map[], map[], map[], {}, map[], 0, {})

  /** The handler owes its login chain a token. */
  predicate HoldsTurn(p: Phase) {
    p.LoggedIn? || p.Revoked? || p.Signed?
  }

  predicate Signing(p: Phase) {
    p.LoggedIn? || p.Revoked?
  }

  ghost predicate Enabled(s: State, l: Label) {
    match l
    case Wait(_) => true
    case Login(h, _) => h !in s.handlers
    case Present(h, jti) => h !in s.handlers && jti in s.minted
    case CheckKey(h) => h in s.handlers && s.handlers[h].Verified?
    case DeleteKey(h) => h in s.handlers && s.handlers[h].Allowed? && s.handlers[h].token.jti in s.chainOf
    case Sign(h, jti) => h in s.handlers && Signing(s.handlers[h]) && jti !in s.minted && jti != ""
    case StoreKey(h) => h in s.handlers && s.handlers[h].Signed?
    case Die(h) => h in s.handlers
  }

  function With(s: State, h: Handler, p: Phase): State {
    s.(handlers := s.handlers[h := p])
  }

  function Without(s: State, h: Handler): State {
    s.(handlers := s.handlers - {h})
  }

  ghost function Next(s: State, l: Label): State
    requires Enabled(s, l)
  {
    match l
    case Wait(ms) => s.(now := s.now + ms)
    case Login(h, user) => With(s, h, LoggedIn(user, s.logins)).(logins := s.logins + 1)
    case Present(h, jti) => if Fresh(s.minted[jti], s.now) then With(s, h, Verified(s.minted[jti])) else s
    case CheckKey(h) =>
      var t := s.handlers[h].token;
      if Live(s.store, s.now, TokenKey(t)) then With(s, h, Allowed(t)) else Without(s, h)
    case DeleteKey(h) =>
      var t := s.handlers[h].token;
      With(s, h, Revoked(t.user, s.chainOf[t.jti])).(store := s.store - {TokenKey(t)}, accepted := Bump(s.accepted, t.jti))
    case Sign(h, jti) =>
      var p := s.handlers[h];
      var t := Minted(p.user, jti, s.now);
      With(s, h, Signed(t, p.chain)).(minted := s.minted[jti := t], chainOf := s.chainOf[jti := p.chain])
    case StoreKey(h) =>
      var t := s.handlers[h].token;
      Without(s, h).(store := Put(s.store, s.now, TokenKey(t), "1", REFRESH_TTL_SECONDS), stored := s.stored + {t.jti})
    case Die(h) =>
      Without(s, h).(broken := if HoldsTurn(s.handlers[h]) then s.broken + {s.handlers[h].chain} else s.broken)
  }

  ghost function System(): Machine<State, Label> {
    Machine((s, l) => Enabled(s, l), (s, l) => if Enabled(s, l) then Next(s, l) else s)
  }

  // ---- What always holds -------------------------------------------------------

  /** Written to Redis and not yet traded in. */
  ghost predicate Open(s: State, jti: Jti) {
    jti in s.stored && jti !in s.accepted
  }

  ghost predicate HandlerOk(s: State, p: Phase) {
    match p
    case LoggedIn(_, chain) => chain < s.logins
    case Verified(t) => t.jti in s.minted && s.minted[t.jti] == t
    case Allowed(t) => t.jti in s.stored && t.jti in s.minted && s.minted[t.jti] == t
    case Revoked(_, chain) => chain < s.logins
    case Signed(t, chain) =>
      && t.jti in s.minted && s.minted[t.jti] == t && t.jti !in s.stored && t.jti in s.chainOf && s.chainOf[t.jti] == chain && chain < s.logins
      && 1000 * t.exp <= s.now + 1000 * REFRESH_TTL_SECONDS
  }

  ghost predicate TokenOk(s: State, j: Jti)
    requires s.stored <= s.minted.Keys
  {
    && j in s.minted && s.minted[j].jti == j && j != ""
    && (TokenKey(s.minted[j]) in s.store <==> Open(s, j))
    && (Open(s, j) ==> 1000 * s.minted[j].exp <= s.store[TokenKey(s.minted[j])].expiresAt)
  }

  /** `k` is the key of the open token `j`. */
  ghost predicate KeyOf(s: State, k: string, j: Jti) {
    Open(s, j) && j in s.minted && TokenKey(s.minted[j]) == k
  }

  ghost predicate Books(s: State) {
    && s.minted.Keys == s.chainOf.Keys
    && s.accepted.Keys <= s.stored <= s.minted.Keys
    && (forall j :: j in s.chainOf ==> s.chainOf[j] < s.logins)
    && (forall c :: c in s.broken ==> c < s.logins)
  }

  /** Redis holds exactly the keys of the open tokens. */
  ghost predicate Vault(s: State) {
    && s.stored <= s.minted.Keys
    && (forall j :: j in s.minted ==> TokenOk(s, j))
    && (forall k :: k in s.store ==> exists j :: KeyOf(s, k, j))
  }

  ghost predicate Crew(s: State) {
    && s.minted.Keys == s.chainOf.Keys
    && (forall h :: h in s.handlers ==> HandlerOk(s, s.handlers[h]))
    && (forall h, g :: (h in s.handlers && g in s.handlers && s.handlers[h].Signed? && s.handlers[g].Signed?
                        && s.handlers[h].token.jti == s.handlers[g].token.jti) ==> h == g)
  }

  ghost predicate Inv(s: State) {
    Books(s) && Vault(s) && Crew(s)
  }

  /** Different token ids have different keys. */
  lemma OneKeyEach(s: State, a: Jti, b: Jti)
    requires Vault(s) && a in s.minted && b in s.minted && TokenKey(s.minted[a]) == TokenKey(s.minted[b])
    ensures a == b
  {
    assert TokenOk(s, a) && TokenOk(s, b);
    RefreshKeyInjective(s.minted[a].user, s.minted[a].jti, s.minted[b].user, s.minted[b].jti);
  }

  lemma NewKey(s: State, t: Token)
    requires Vault(s) && t.jti !in s.minted
    ensures TokenKey(t) !in s.store
  {
    if TokenKey(t) in s.store {
      var j :| KeyOf(s, TokenKey(t), j);
      assert TokenOk(s, j);
      RefreshKeyInjective(s.minted[j].user, s.minted[j].jti, t.user, t.jti);
    }
  }

  /** The open token with a key is the one the key was made from. */
  lemma KeyFinds(s: State, t: Token)
    requires Vault(s) && t.jti in s.minted && s.minted[t.jti] == t
    ensures TokenKey(t) in s.store <==> Open(s, t.jti)
    ensures forall j :: j in s.minted && TokenKey(s.minted[j]) == TokenKey(t) ==> j == t.jti
  {
    assert TokenOk(s, t.jti);
    forall j | j in s.minted && TokenKey(s.minted[j]) == TokenKey(t) ensures j == t.jti { OneKeyEach(s, j, t.jti); }
  }

  lemma VaultDelete(s: State, h: Handler)
    requires Inv(s) && Enabled(s, DeleteKey(h))
    ensures Vault(Next(s, DeleteKey(h)))
  {
    assert HandlerOk(s, s.handlers[h]);
    VaultCut(s, Next(s, DeleteKey(h)), s.handlers[h].token);
  }

  lemma VaultCut(s: State, s': State, t: Token)
    requires Vault(s) && t.jti in s.minted && s.minted[t.jti] == t
    requires s'.minted == s.minted && s'.stored == s.stored && s'.store == s.store - {TokenKey(t)}
    requires s'.accepted == Bump(s.accepted, t.jti)
    ensures Vault(s')
  {
    KeyFinds(s, t);
    assert s'.accepted.Keys == s.accepted.Keys + {t.jti};
    hide TokenKey, Bump;
    forall j | j in s'.minted ensures TokenOk(s', j) { assert TokenOk(s, j); }
    forall k | k in s'.store ensures exists j :: KeyOf(s', k, j) {
      var j :| KeyOf(s, k, j);
      assert KeyOf(s', k, j);
    }
  }

  lemma VaultSign(s: State, h: Handler, jti: Jti)
    requires Inv(s) && Enabled(s, Sign(h, jti))
    ensures Vault(Next(s, Sign(h, jti)))
  {
    var s' := Next(s, Sign(h, jti));
    assert s'.minted[jti].jti == jti;
    NewKey(s, s'.minted[jti]);
    hide TokenKey, Crew, HandlerOk;
    forall j | j in s'.minted ensures TokenOk(s', j) {
      if j != jti { assert TokenOk(s, j); }
    }
    forall k | k in s'.store ensures exists j :: KeyOf(s', k, j) {
      var j :| KeyOf(s, k, j);
      assert KeyOf(s', k, j);
    }
  }

  lemma VaultStore(s: State, h: Handler)
    requires Inv(s) && Enabled(s, StoreKey(h))
    ensures Vault(Next(s, StoreKey(h)))
  {
    assert HandlerOk(s, s.handlers[h]);
    VaultPut(s, Next(s, StoreKey(h)), s.handlers[h].token);
  }

  lemma VaultPut(s: State, s': State, t: Token)
    requires Vault(s) && t.jti in s.minted && s.minted[t.jti] == t && t.jti !in s.stored && t.jti !in s.accepted
    requires 1000 * t.exp <= s.now + 1000 * REFRESH_TTL_SECONDS
    requires s'.minted == s.minted && s'.accepted == s.accepted && s'.stored == s.stored + {t.jti}
    requires s'.store == Put(s.store, s.now, TokenKey(t), "1", REFRESH_TTL_SECONDS)
    ensures Vault(s')
  {
    KeyFinds(s, t);
    assert TokenOk(s, t.jti);
    hide TokenKey;
    forall j | j in s'.minted ensures TokenOk(s', j) {
      assert TokenOk(s, j);
      assert j != t.jti ==> TokenKey(s.minted[j]) != TokenKey(t);
    }
    forall k | k in s'.store ensures exists j :: KeyOf(s', k, j) {
      if k == TokenKey(t) {
        assert KeyOf(s', k, t.jti);
      } else {
        var j :| KeyOf(s, k, j);
        assert KeyOf(s', k, j);
      }
    }
  }

  lemma VaultStep(s: State, l: Label)
    requires Inv(s) && Enabled(s, l)
    ensures Vault(Next(s, l))
  {
    if l.DeleteKey? {
      VaultDelete(s, l.h);
    } else if l.Sign? {
      VaultSign(s, l.h, l.jti);
    } else if l.StoreKey? {
      VaultStore(s, l.h);
    } else {
      TokensSame(s, l);
      VaultSame(s, Next(s, l));
    }
  }

  ghost predicate SameTokens(s: State, s': State) {
    s'.store == s.store && s'.minted == s.minted && s'.stored == s.stored && s'.accepted == s.accepted
  }

  lemma TokensSame(s: State, l: Label)
    requires Enabled(s, l) && !l.DeleteKey? && !l.Sign? && !l.StoreKey?
    ensures SameTokens(s, Next(s, l))
  {
  }

  lemma VaultSame(s: State, s': State)
    requires Vault(s) && SameTokens(s, s')
    ensures Vault(s')
  {
    hide TokenKey;
    forall j | j in s'.minted ensures TokenOk(s', j) { assert TokenOk(s, j); }
    forall k | k in s'.store ensures exists j :: KeyOf(s', k, j) {
      var j :| KeyOf(s, k, j);
      assert KeyOf(s', k, j);
    }
  }

  /** What a handler's position rests on only grows. */
  ghost predicate Grows(s: State, s': State) {
    && (forall j :: j in s.minted ==> j in s'.minted && s'.minted[j] == s.minted[j])
    && (forall j :: j in s.chainOf ==> j in s'.chainOf && s'.chainOf[j] == s.chainOf[j])
    && s.stored <= s'.stored && s.now <= s'.now && s.logins <= s'.logins
  }

  lemma StepGrows(s: State, l: Label)
    requires Books(s) && Enabled(s, l)
    ensures Grows(s, Next(s, l))
    ensures forall j :: j in Next(s, l).stored ==> j in s.stored || (l.StoreKey? && j == s.handlers[l.h].token.jti)
  {
    hide TokenKey, Live, Put;
  }

  lemma BooksStep(s: State, l: Label)
    requires Inv(s) && Enabled(s, l)
    ensures Books(Next(s, l))
  {
    hide Vault, TokenKey, Live, Put, Minted, Fresh;
    if !l.Wait? && l.h in s.handlers { assert HandlerOk(s, s.handlers[l.h]); }
    hide Crew;
  }

  lemma CheckedIsStored(s: State, h: Handler)
    requires Inv(s) && Enabled(s, CheckKey(h)) && TokenKey(s.handlers[h].token) in s.store
    ensures Open(s, s.handlers[h].token.jti)
  {
    assert HandlerOk(s, s.handlers[h]);
    KeyFinds(s, s.handlers[h].token);
  }

  lemma OthersKept(s: State, l: Label, g: Handler)
    requires Inv(s) && Enabled(s, l) && g in s.handlers && (l.Wait? || g != l.h)
    ensures g in Next(s, l).handlers && Next(s, l).handlers[g] == s.handlers[g]
    ensures HandlerOk(Next(s, l), s.handlers[g])
  {
    assert HandlerOk(s, s.handlers[g]);
    StepGrows(s, l);
    HandlersElsewhere(s, l, g);
    assert l.StoreKey? ==> s.handlers[l.h].Signed? && l.h in s.handlers;
    hide Vault, Next, Enabled;
  }

  lemma HandlersElsewhere(s: State, l: Label, g: Handler)
    requires Enabled(s, l) && g in s.handlers && (l.Wait? || g != l.h)
    ensures g in Next(s, l).handlers && Next(s, l).handlers[g] == s.handlers[g]
  {
    hide TokenKey, Live, Put;
  }

  lemma OwnKept(s: State, l: Label)
    requires Inv(s) && Enabled(s, l) && !l.Wait? && l.h in Next(s, l).handlers
    ensures HandlerOk(Next(s, l), Next(s, l).handlers[l.h])
  {
    if l.Present? {
      OwnPresented(s, l);
    } else if l.CheckKey? {
      OwnChecked(s, l.h);
    } else if l.DeleteKey? {
      OwnDeleted(s, l.h);
    } else if l.Sign? {
      OwnSigned(s, l);
    } else {
      hide Vault, Crew, TokenKey, Live, Put, Minted, Fresh;
    }
  }

  lemma OwnPresented(s: State, l: Label)
    requires Inv(s) && Enabled(s, l) && l.Present? && l.h in Next(s, l).handlers
    ensures HandlerOk(Next(s, l), Next(s, l).handlers[l.h])
  {
    assert TokenOk(s, l.jti);
    hide Crew, TokenKey, Live;
  }

  lemma OwnDeleted(s: State, h: Handler)
    requires Inv(s) && Enabled(s, DeleteKey(h))
    ensures HandlerOk(Next(s, DeleteKey(h)), Next(s, DeleteKey(h)).handlers[h])
  {
    hide Vault, Crew, TokenKey;
  }

  lemma OwnSigned(s: State, l: Label)
    requires Inv(s) && Enabled(s, l) && l.Sign?
    ensures HandlerOk(Next(s, l), Next(s, l).handlers[l.h])
  {
    assert HandlerOk(s, s.handlers[l.h]);
    hide Vault, Crew, TokenKey, Live;
  }

  lemma OwnChecked(s: State, h: Handler)
    requires Inv(s) && Enabled(s, CheckKey(h)) && h in Next(s, CheckKey(h)).handlers
    ensures HandlerOk(Next(s, CheckKey(h)), Next(s, CheckKey(h)).handlers[h])
  {
    assert HandlerOk(s, s.handlers[h]);
    CheckedIsStored(s, h);
  }

  lemma CrewStep(s: State, l: Label)
    requires Inv(s) && Enabled(s, l)
    ensures Crew(Next(s, l))
  {
    var s' := Next(s, l);
    EachHandlerOk(s, l);
    NewlySigned(s, l);
    hide HandlerOk, Vault, Books, Next, Enabled;
  }

  lemma EachHandlerOk(s: State, l: Label)
    requires Inv(s) && Enabled(s, l)
    ensures forall g :: g in Next(s, l).handlers ==> HandlerOk(Next(s, l), Next(s, l).handlers[g])
  {
    hide HandlerOk, Inv, TokenKey, Live, Put, Minted, Fresh;
    forall g | g in Next(s, l).handlers ensures HandlerOk(Next(s, l), Next(s, l).handlers[g]) {
      if l.Wait? || g != l.h {
        assert g in s.handlers;
        OthersKept(s, l, g);
      } else {
        OwnKept(s, l);
      }
    }
  }

  /** Only a sign makes a handler signed, and with an id nobody has. */
  lemma NewlySigned(s: State, l: Label)
    requires Crew(s) && Enabled(s, l)
    ensures var s' := Next(s, l);
      && s'.minted.Keys == s'.chainOf.Keys
      && (forall g :: g in s'.handlers && s'.handlers[g].Signed? ==>
           (g in s.handlers && s'.handlers[g] == s.handlers[g])
           || (l.Sign? && g == l.h && s'.handlers[g].token.jti == l.jti))
      && (l.Sign? ==> forall g :: g in s.handlers && s.handlers[g].Signed? ==> s.handlers[g].token.jti != l.jti)
  {
    hide TokenKey, Live, Put;
    if l.Sign? {
      forall g | g in s.handlers && s.handlers[g].Signed? ensures s.handlers[g].token.jti != l.jti {
        assert HandlerOk(s, s.handlers[g]);
      }
    }
  }

  lemma InvStep(s: State, l: Label)
    requires Inv(s) && Enabled(s, l)
    ensures Inv(Next(s, l))
  {
    BooksStep(s, l);
    VaultStep(s, l);
    CrewStep(s, l);
  }

  lemma InvRun(ls: seq<Label>)
    requires Valid(System(), Init, ls)
    ensures Inv(Exec(System(), Init, ls))
  {
    assert Inv(Init);
    forall s, l | Inv(s) && Enabled(s, l) ensures Inv(Next(s, l)) { InvStep(s, l); }
    Invariant(System(), s => Inv(s), _ => true, Init, ls);
  }

  // ---- Acceptance ----------------------------------------------------------------

  /** Presented now, the token passes both checks of `refreshToken`. */
  ghost predicate Usable(s: State, jti: Jti) {
    jti in s.minted && Fresh(s.minted[jti], s.now) && Live(s.store, s.now, TokenKey(s.minted[jti]))
  }

  /** Whatever the interleaving, a token handed out is usable exactly while it
      has not been traded in and its JWT has not expired: the Redis entry never
      runs out first. */
  lemma UsableUntilJwtExpiry(ls: seq<Label>, jti: Jti)
    requires Valid(System(), Init, ls) && jti in Exec(System(), Init, ls).stored
    ensures var s := Exec(System(), Init, ls);
      jti in s.minted && (Usable(s, jti) <==> jti !in s.accepted && s.now < 1000 * s.minted[jti].exp)
  {
    InvRun(ls);
    var s := Exec(System(), Init, ls);
    assert TokenOk(s, jti);
  }

  // ---- One consumer: every login has one turn --------------------------------------

  /** What carries a login's turn: an open token or the handler minting it. */
  datatype Carrier = InRedis(jti: Jti) | InHandler(h: Handler)

  ghost function OpenTokens(s: State, c: Chain): set<Carrier> {
    set j | j in s.stored && j !in s.accepted && j in s.chainOf && s.chainOf[j] == c :: InRedis(j)
  }

  ghost function Holders(s: State, c: Chain): set<Carrier> {
    set h | h in s.handlers && HoldsTurn(s.handlers[h]) && s.handlers[h].chain == c :: InHandler(h)
  }

  ghost function Carriers(s: State, c: Chain): set<Carrier> {
    OpenTokens(s, c) + Holders(s, c)
  }

  /** With one consumer handling one request at a time, a token that was found
      in Redis is still there when it is deleted. */
  ghost predicate Serial(s: State) {
    && s.handlers.Keys <= {0}
    && (0 in s.handlers && s.handlers[0].Allowed? ==> Open(s, s.handlers[0].token.jti))
    && (forall j :: j in s.accepted ==> s.accepted[j] == 1)
  }

  ghost predicate OneTurnEach(s: State) {
    forall c: nat :: c < s.logins ==> |Carriers(s, c)| == (if c in s.broken then 0 else 1)
  }

  ghost predicate OneConsumer(l: Label) {
    (l.Login? || l.Present?) ==> l.h == 0
  }

  lemma SerialStep(s: State, l: Label)
    requires Inv(s) && Serial(s) && Enabled(s, l) && OneConsumer(l)
    ensures Serial(Next(s, l))
  {
    if l.CheckKey? && TokenKey(s.handlers[0].token) in s.store {
      CheckedIsStored(s, 0);
    }
  }

  /** Which carriers a step takes from login `c` and which it gives it. */
  ghost function Taken(s: State, l: Label, c: Chain): set<Carrier>
    requires Enabled(s, l)
  {
    match l
    case DeleteKey(h) => if s.chainOf[s.handlers[h].token.jti] == c then {InRedis(s.handlers[h].token.jti)} else {}
    case StoreKey(h) => if s.handlers[h].chain == c then {InHandler(h)} else {}
    case Die(h) => if HoldsTurn(s.handlers[h]) && s.handlers[h].chain == c then {InHandler(h)} else {}
    case _ => {}
  }

  ghost function Given(s: State, l: Label, c: Chain): set<Carrier>
    requires Enabled(s, l)
  {
    match l
    case Login(h, _) => if s.logins == c then {InHandler(h)} else {}
    case DeleteKey(h) => if s.chainOf[s.handlers[h].token.jti] == c then {InHandler(h)} else {}
    case StoreKey(h) => if s.handlers[h].chain == c then {InRedis(s.handlers[h].token.jti)} else {}
    case _ => {}
  }

  lemma CarriersStep(s: State, l: Label, c: Chain)
    requires Inv(s) && Serial(s) && Enabled(s, l) && OneConsumer(l)
    ensures Taken(s, l, c) <= Carriers(s, c) && Given(s, l, c) !! Carriers(s, c)
    ensures Carriers(Next(s, l), c) == Carriers(s, c) - Taken(s, l, c) + Given(s, l, c)
  {
    HoldersStep(s, l, c);
    OpenTokensStep(s, l, c);
    Kinds(s, c);
    Kinds(Next(s, l), c);
    hide Enabled, Next, Inv, Serial, OpenTokens, Holders, Taken, Given;
    forall x: Carrier
      ensures x in Carriers(Next(s, l), c) <==> (x in Carriers(s, c) && x !in Taken(s, l, c)) || x in Given(s, l, c)
      ensures x in Taken(s, l, c) ==> x in Carriers(s, c)
      ensures x in Given(s, l, c) ==> x !in Carriers(s, c)
    {
      if x.InRedis? { assert x == InRedis(x.jti); } else { assert x == InHandler(x.h); }
    }
  }

  lemma Kinds(s: State, c: Chain)
    ensures forall h :: InHandler(h) !in OpenTokens(s, c)
    ensures forall j :: InRedis(j) !in Holders(s, c)
  {
  }

  lemma HoldersStep(s: State, l: Label, c: Chain)
    requires Enabled(s, l)
    ensures var was, now := Holders(s, c), Holders(Next(s, l), c);
      forall h :: && (InHandler(h) in now <==> (InHandler(h) in was && InHandler(h) !in Taken(s, l, c)) || InHandler(h) in Given(s, l, c))
                  && (InHandler(h) in Taken(s, l, c) ==> InHandler(h) in was)
                  && (InHandler(h) in Given(s, l, c) ==> InHandler(h) !in was)
  {
    hide Live, TokenKey, Put, Minted, Fresh;
  }

  lemma OpenTokensStep(s: State, l: Label, c: Chain)
    requires Inv(s) && Serial(s) && Enabled(s, l)
    ensures var was, now := OpenTokens(s, c), OpenTokens(Next(s, l), c);
      forall j :: && (InRedis(j) in now <==> (InRedis(j) in was && InRedis(j) !in Taken(s, l, c)) || InRedis(j) in Given(s, l, c))
                  && (InRedis(j) in Taken(s, l, c) ==> InRedis(j) in was)
                  && (InRedis(j) in Given(s, l, c) ==> InRedis(j) !in was)
  {
    hide Vault, Live, TokenKey, Put;
    if !l.Wait? && l.h in s.handlers { assert HandlerOk(s, s.handlers[l.h]); }
  }

  lemma EmptyBeforeLogin(s: State)
    requires Inv(s)
    ensures Carriers(s, s.logins) == {}
  {
    forall h | h in s.handlers ensures HoldsTurn(s.handlers[h]) ==> s.handlers[h].chain < s.logins {
      assert HandlerOk(s, s.handlers[h]);
    }
  }

  lemma OneTurnStep(s: State, l: Label)
    requires Inv(s) && Serial(s) && OneTurnEach(s) && Enabled(s, l) && OneConsumer(l)
    ensures OneTurnEach(Next(s, l))
  {
    hide Next, Carriers, Inv, Serial;
    var s' := Next(s, l);
    forall c: nat | c < s'.logins ensures |Carriers(s', c)| == (if c in s'.broken then 0 else 1) {
      CarriersStep(s, l, c);
      if c < s.logins { TurnMoves(s, l, c); } else { FirstTurn(s, l, c); }
    }
  }

  /** A new login starts with its handler's turn. */
  lemma FirstTurn(s: State, l: Label, c: Chain)
    requires Inv(s) && Enabled(s, l) && s.logins <= c < Next(s, l).logins
    requires Carriers(Next(s, l), c) == Carriers(s, c) - Taken(s, l, c) + Given(s, l, c)
    ensures |Carriers(Next(s, l), c)| == 1 && c !in Next(s, l).broken
  {
    EmptyBeforeLogin(s);
    hide Carriers;
    assert l.Login? && c == s.logins;
    assert Carriers(Next(s, l), c) == {InHandler(l.h)};
  }

  /** A turn is handed on, unless the handler that holds it dies. */
  lemma TurnMoves(s: State, l: Label, c: Chain)
    requires Inv(s) && Enabled(s, l) && c < s.logins
    requires Taken(s, l, c) <= Carriers(s, c) && Given(s, l, c) !! Carriers(s, c)
    requires Carriers(Next(s, l), c) == Carriers(s, c) - Taken(s, l, c) + Given(s, l, c)
    requires |Carriers(s, c)| == (if c in s.broken then 0 else 1)
    ensures |Carriers(Next(s, l), c)| == (if c in Next(s, l).broken then 0 else 1)
  {
    hide Carriers, Inv;
    assert c in Next(s, l).broken <==> c in s.broken || (l.Die? && Taken(s, l, c) != {});
    assert l.Die? ==> Given(s, l, c) == {};
    assert !l.Die? ==> |Given(s, l, c)| == |Taken(s, l, c)|;
    hide Taken, Given, Next, Enabled;
  }

  /** With one consumer, at any moment each login has exactly one turn: one
      token in Redis or one handler about to mint it, and none once a handler
      died holding it. So rotation conserves tokens, a login never has two open
      tokens, and no token id is ever accepted twice. */
  lemma RotationConserves(ls: seq<Label>)
    requires Valid(System(), Init, ls) && Only(ls, (l: Label) => OneConsumer(l))
    ensures var s := Exec(System(), Init, ls);
      && (forall c: nat :: c < s.logins ==> |Carriers(s, c)| == (if c in s.broken then 0 else 1))
      && (forall i, j :: (Open(s, i) && Open(s, j) && i in s.chainOf && j in s.chainOf && s.chainOf[i] == s.chainOf[j]) ==> i == j)
      && (forall j :: j in s.accepted ==> s.accepted[j] == 1)
  {
    var inv := (s: State) => Inv(s) && Serial(s) && OneTurnEach(s);
    assert inv(Init);
    forall s: State, l: Label | inv(s) && OneConsumer(l) && Enabled(s, l) ensures inv(Next(s, l)) {
      InvStep(s, l);
      SerialStep(s, l);
      OneTurnStep(s, l);
    }
    Invariant(System(), inv, (l: Label) => OneConsumer(l), Init, ls);
    var s := Exec(System(), Init, ls);
    forall i, j | Open(s, i) && Open(s, j) && i in s.chainOf && j in s.chainOf && s.chainOf[i] == s.chainOf[j] ensures i == j {
      var c := s.chainOf[i];
      assert InRedis(i) in Carriers(s, c) && InRedis(j) in Carriers(s, c);
      OneOrEqual(Carriers(s, c), InRedis(i), InRedis(j));
    }
  }

  lemma OneOrEqual<T>(q: set<T>, x: T, y: T)
    requires |q| <= 1 && x in q && y in q
    ensures x == y
  {
    if x != y { assert |q| >= |{x, y}| by { SubsetSize({x, y}, q); } }
  }

  lemma SubsetSize<T>(a: set<T>, b: set<T>)
    requires a <= b
    ensures |a| <= |b|
  {
    assert b == a + (b - a);
  }
}
