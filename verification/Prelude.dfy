/** Stock vocabulary shared by the other modules: results, counters kept in
    maps, and sequences that lose one element. */
module Prelude {

  datatype Option<+T> = None | Some(value: T)

  datatype Result<+T, +E> = Ok(value: T) | Err(error: E)

  /** A counter that is absent counts zero. */
  function Count<K(==)>(m: map<K, nat>, k: K): nat {
    if k in m then m[k] else 0
  }

  function Bump<K>(m: map<K, nat>, k: K): map<K, nat> {
    m[k := Count(m, k) + 1]
  }

  function RemoveAt<T>(s: seq<T>, i: nat): seq<T>
    requires i < |s|
  {
    s[..i] + s[i + 1..]
  }

  /** Membership in a sequence without its i-th element. */
  lemma RemoveAtElements<T>(s: seq<T>, i: nat)
    requires i < |s|
    ensures forall x :: x in RemoveAt(s, i) ==> x in s
    ensures forall x :: x in s ==> x == s[i] || x in RemoveAt(s, i)
  {
    assert s == s[..i] + [s[i]] + s[i + 1..];
  }

  lemma SomeElement<T>(s: set<T>) returns (x: T)
    requires s != {}
    ensures x in s
  {
    x :| x in s;
  }

  lemma Missing<T>(a: set<T>, b: set<T>) returns (x: T)
    requires !(a <= b)
    ensures x in a && x !in b
  {
    x :| x in a && x !in b;
  }

  method PickElement<T(==)>(s: set<T>) returns (x: T)
    requires s != {}
    ensures x in s
  {
    x :| x in s;
  }

  function Min(a: int, b: int): int {
    if a <= b then a else b
  }

  /** The sum of `f` over a sequence. */
  function Sum<T>(f: T -> nat, q: seq<T>): nat {
    if q == [] then 0 else f(q[0]) + Sum(f, q[1..])
  }

  lemma {:induction false} SumConcat<T>(f: T -> nat, a: seq<T>, b: seq<T>)
    ensures Sum(f, a + b) == Sum(f, a) + Sum(f, b)
  {
    if a == [] {
      assert a + b == b;
    } else {
      assert (a + b)[1..] == a[1..] + b;
      SumConcat(f, a[1..], b);
    }
  }

  lemma SumOne<T>(f: T -> nat, x: T)
    ensures Sum(f, [x]) == f(x)
  {
    assert [x][1..] == [];
  }

  /** The last element apart. */
  lemma SumLast<T>(f: T -> nat, q: seq<T>)
    requires q != []
    ensures Sum(f, q) == Sum(f, q[..|q| - 1]) + f(q[|q| - 1])
  {
    assert q == q[..|q| - 1] + [q[|q| - 1]];
    SumConcat(f, q[..|q| - 1], [q[|q| - 1]]);
    SumOne(f, q[|q| - 1]);
  }

  lemma SumRemoveAt<T>(f: T -> nat, q: seq<T>, i: nat)
    requires i < |q|
    ensures Sum(f, q) == f(q[i]) + Sum(f, RemoveAt(q, i))
  {
    hide Sum;
    assert q == q[..i] + ([q[i]] + q[i + 1..]);
    SumConcat(f, q[..i], [q[i]] + q[i + 1..]);
    SumConcat(f, [q[i]], q[i + 1..]);
    SumOne(f, q[i]);
    SumConcat(f, q[..i], q[i + 1..]);
  }

  lemma SumUpdate<T>(f: T -> nat, q: seq<T>, i: nat, x: T)
    requires i < |q|
    ensures Sum(f, q[i := x]) + f(q[i]) == Sum(f, q) + f(x)
  {
    hide Sum;
    SumRemoveAt(f, q, i);
    SumRemoveAt(f, q[i := x], i);
    assert RemoveAt(q[i := x], i) == RemoveAt(q, i);
  }
}
