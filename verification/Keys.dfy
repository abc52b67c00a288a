/** The strings under which services keep their state in the shared Redis, and
    why no two of them ever collide. */
module Keys {
  import opened Prelude

  function DigitChar(d: nat): char
    requires d < 10
  {
    ['0', '1', '2', '3', '4', '5', '6', '7', '8', '9'][d]
  }

  function DigitValue(c: char): nat {
    if '0' <= c <= '9' then (c - '0') as nat else 0
  }

  /** A number as a template literal prints it. */
  function Digits(n: nat): (s: string)
    ensures s != [] && forall i :: 0 <= i < |s| ==> '0' <= s[i] <= '9'
  {
    if n < 10 then [DigitChar(n)] else Digits(n / 10) + [DigitChar(n % 10)]
  }

  function Decimal(n: int): string {
    if n < 0 then "-" + Digits(-n) else Digits(n)
  }

  function Value(s: string): nat {
    if s == [] then 0 else Value(s[..|s| - 1]) * 10 + DigitValue(s[|s| - 1])
  }

  lemma DigitRoundTrip(d: nat)
    requires d < 10
    ensures DigitValue(DigitChar(d)) == d
  {
  }

  lemma ValueAppend(s: string, c: char)
    ensures Value(s + [c]) == Value(s) * 10 + DigitValue(c)
  {
    assert (s + [c])[..|s|] == s;
  }

  lemma {:induction false} ValueOfDigits(n: nat)
    ensures Value(Digits(n)) == n
  {
    if n < 10 {
      DigitRoundTrip(n);
      hide DigitChar, DigitValue;
      assert [DigitChar(n)][..0] == [];
    } else {
      ValueOfDigits(n / 10);
      DigitRoundTrip(n % 10);
      ValueAppend(Digits(n / 10), DigitChar(n % 10));
      hide DigitChar, DigitValue, Value;
    }
  }

  function Magnitude(n: int): nat {
    if n < 0 then -n else n
  }

  /** The sign and the magnitude can be read back. */
  lemma DecimalRead(n: int)
    ensures Decimal(n) != [] && (Decimal(n)[0] == '-' <==> n < 0)
    ensures Value(if n < 0 then Decimal(n)[1..] else Decimal(n)) == Magnitude(n)
  {
    hide Digits, Value;
    ValueOfDigits(Magnitude(n));
    var d := Digits(Magnitude(n));
    assert '0' <= d[0] <= '9';
    assert n < 0 ==> Decimal(n) == "-" + d && Decimal(n)[1..] == d;
  }

  lemma DecimalInjective(m: int, n: int)
    requires Decimal(m) == Decimal(n)
    ensures m == n
  {
    DecimalRead(m);
    DecimalRead(n);
    hide Decimal, Value;
  }

  predicate NoColon(s: string) {
    forall i :: 0 <= i < |s| ==> s[i] != ':'
  }

  lemma DecimalHasNoColon(n: int)
    ensures NoColon(Decimal(n)) && Decimal(n) != []
  {
  }

  /** A part without a colon can be told from what follows it. */
  lemma SplitAtColon(a: string, b: string, a': string, b': string)
    requires NoColon(a) && NoColon(a') && a + ":" + b == a' + ":" + b'
    ensures a == a' && b == b'
  {
    var s := a + ":" + b;
    assert s[|a|] == ':' && s[|a'|] == ':';
    assert forall i :: 0 <= i < |a| ==> s[i] == a[i];
    assert forall i :: 0 <= i < |a'| ==> s[i] == a'[i];
    assert |a| == |a'|;
    assert a == s[..|a|] && a' == s[..|a|];
    assert b == s[|a| + 1..] && b' == s[|a| + 1..];
  }

  lemma DropPrefix(p: string, a: string, b: string)
    requires p + a == p + b
    ensures a == b
  {
    assert a == (p + a)[|p|..] && b == (p + b)[|p|..];
  }

  // ---- The keys --------------------------------------------------------------

  const ADMIN_REPORT_KEY := "report:admin"

  function FarmerReportKey(farmer: int): string {
    "report:farmer:" + Decimal(farmer)
  }

  function RefreshKey(user: int, jti: string): string {
    "refresh:" + (Decimal(user) + ":" + jti)
  }

  /** An absent entity id prints as `undefined`. */
  function EntityPart(id: Option<int>): string {
    match id case Some(n) => Decimal(n) case None => "undefined"
  }

  function IdemKey(eventType: string, id: Option<int>): string {
    "idem:tracing:" + (eventType + ":" + EntityPart(id))
  }

  datatype Slot =
    | AdminReport
    | FarmerReport(farmer: int)
    | Refresh(user: int, jti: string)
    | Idempotency(eventType: string, entity: Option<int>)

  function KeyString(slot: Slot): string {
    match slot
    case AdminReport => ADMIN_REPORT_KEY
    case FarmerReport(farmer) => FarmerReportKey(farmer)
    case Refresh(user, jti) => RefreshKey(user, jti)
    case Idempotency(eventType, entity) => IdemKey(eventType, entity)
  }

  lemma RefreshKeyInjective(u: int, j: string, v: int, k: string)
    requires RefreshKey(u, j) == RefreshKey(v, k)
    ensures u == v && j == k
  {
    DropPrefix("refresh:", Decimal(u) + ":" + j, Decimal(v) + ":" + k);
    DecimalHasNoColon(u);
    DecimalHasNoColon(v);
    SplitAtColon(Decimal(u), j, Decimal(v), k);
    DecimalInjective(u, v);
  }

  lemma NotUndefined(a: Option<int>)
    ensures EntityPart(a) == "undefined" <==> a == None
  {
    if a.Some? {
      assert Decimal(a.value)[0] == '-' || '0' <= Decimal(a.value)[0] <= '9';
    }
  }

  lemma IdemKeyInjective(t: string, a: Option<int>, t': string, b: Option<int>)
    requires NoColon(t) && NoColon(t') && IdemKey(t, a) == IdemKey(t', b)
    ensures t == t' && a == b
  {
    DropPrefix("idem:tracing:", t + ":" + EntityPart(a), t' + ":" + EntityPart(b));
    SplitAtColon(t, EntityPart(a), t', EntityPart(b));
    if a.Some? && b.Some? {
      DecimalInjective(a.value, b.value);
    } else {
      NotUndefined(a);
      NotUndefined(b);
    }
  }

  /** The third and eighth characters tell the families of keys apart. */
  lemma Families(a: Slot)
    ensures |KeyString(a)| > 7
    ensures var s := KeyString(a);
      && (a.AdminReport? ==> s[2] == 'p' && s[7] == 'a')
      && (a.FarmerReport? ==> s[2] == 'p' && s[7] == 'f')
      && (a.Refresh? ==> s[2] == 'f')
      && (a.Idempotency? ==> s[2] == 'e')
  {
    hide Decimal, EntityPart;
  }

  /** Two slots share a key only if they are the same slot: a report scope is
      never another's, and neither a token nor an idempotency claim. */
  lemma NoTwoSlotsShareAKey(a: Slot, b: Slot)
    requires a.Idempotency? ==> NoColon(a.eventType)
    requires b.Idempotency? ==> NoColon(b.eventType)
    ensures KeyString(a) == KeyString(b) <==> a == b
  {
    Families(a);
    Families(b);
    hide Decimal, EntityPart;
    if KeyString(a) == KeyString(b) {
      if a.FarmerReport? && b.FarmerReport? {
        DropPrefix("report:farmer:", Decimal(a.farmer), Decimal(b.farmer));
        DecimalInjective(a.farmer, b.farmer);
      } else if a.Refresh? && b.Refresh? {
        RefreshKeyInjective(a.user, a.jti, b.user, b.jti);
      } else if a.Idempotency? && b.Idempotency? {
        IdemKeyInjective(a.eventType, a.entity, b.eventType, b.entity);
      }
    }
  }
}
