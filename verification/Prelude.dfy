/** Shared vocabulary: optional values, results, clock time and sums over tables. */
module Prelude {

  datatype Option<+T> = None | Some(value: T)

  datatype Result<+T, +E> = Ok(value: T) | Error(error: E) {
    predicate IsFailure() { Error? }

    function PropagateFailure<U>(): (r: Result<U, E>)
      requires Error?
    {
      Error(error)
    }

    function Extract(): T
      requires Ok?
    {
      value
    }
  }

  /** Exchange-local time in microseconds; a trade date is a whole number of days. */
  type Time = int

  function Seconds(n: int): Time { n * 1_000_000 }
  function WholeSeconds(t: Time): int { t / 1_000_000 }
  function DateOf(t: Time): int { t / 86_400_000_000 }
  function StartOfDate(d: int): Time { d * 86_400_000_000 }

  lemma {:induction false} DateOfIsMonotone(a: Time, b: Time)
    requires a <= b
    ensures DateOf(a) <= DateOf(b)
  {
  }

  /** Symbols and assets: numbers standing for strings, in string order. */
  type Symbol = nat
  type Asset = nat
  const CNY: Asset := 0

  function MaxReal(a: real, b: real): (m: real)
    ensures m == a || m == b
    ensures a <= m && b <= m
  {
    if a >= b then a else b
  }

  function MaxInt(a: int, b: int): (m: int)
    ensures m == a || m == b
    ensures a <= m && b <= m
  {
    if a >= b then a else b
  }

  function MinReal(a: real, b: real): (m: real)
    ensures m == a || m == b
    ensures m <= a && m <= b
  {
    if a <= b then a else b
  }

  /** Multiplying by a positive number keeps order and distinctness. */
  lemma {:induction false} ScalingKeepsOrder(a: real, b: real, scale: real)
    requires scale > 0.0
    ensures a < b <==> a * scale < b * scale
    ensures a == b <==> a * scale == b * scale
  {
    assert a < b ==> (b - a) * scale > 0.0;
    assert b < a ==> (a - b) * scale > 0.0;
  }

  /** The last n elements, or all if there are fewer. */
  function LastOf<T>(s: seq<T>, n: nat): seq<T> { if |s| <= n then s else s[|s| - n..] }

  lemma {:induction false} WindowSlides<T>(s: seq<T>, x: T, n: nat)
    requires n > 0
    ensures LastOf(LastOf(s, n) + [x], n) == LastOf(s + [x], n)
  {
  }

  // ---------------------------------------------------------------- key sets

  lemma {:induction false} LeastExists(keys: set<nat>)
    requires keys != {}
    ensures exists k :: k in keys && forall j :: j in keys ==> k <= j
    decreases keys
  {
    var x :| x in keys;
    if keys - {x} == {} {
      assert keys == {x};
    } else {
      LeastExists(keys - {x});
      var k :| k in keys - {x} && forall j :: j in keys - {x} ==> k <= j;
      var least := if k <= x then k else x;
      assert forall j :: j in keys ==> j == x || j in keys - {x};
      assert least in keys && forall j :: j in keys ==> least <= j;
    }
  }

  /** The least key of a nonempty key set. */
  function Least(keys: set<nat>): (k: nat)
    requires keys != {}
    ensures k in keys && forall j :: j in keys ==> k <= j
  {
    LeastExists(keys);
    var k :| k in keys && forall j :: j in keys ==> k <= j;
    k
  }

  /** The keys in increasing order, as a sorted iteration visits them. */
  function SortedKeys(keys: set<nat>): (s: seq<nat>)
    ensures forall k :: k in s <==> k in keys
    ensures forall i, j :: 0 <= i < j < |s| ==> s[i] < s[j]
    decreases keys
  {
    if keys == {} then []
    else
      var k := Least(keys);
      [k] + SortedKeys(keys - {k})
  }

  // ------------------------------------------------------- sums over a table

  /** The sum of f over the rows of a keyed table. */
  ghost function SumMap<V>(m: map<nat, V>, f: V -> real): real
    decreases m.Keys
  {
    if m.Keys == {} then 0.0
    else
      var k := Least(m.Keys);
      f(m[k]) + SumMap(m - {k}, f)
  }

  lemma {:induction false} SumMapTakesAnyRow<V>(m: map<nat, V>, f: V -> real, k: nat)
    requires k in m
    ensures SumMap(m, f) == f(m[k]) + SumMap(m - {k}, f)
    decreases m.Keys
  {
    var l := Least(m.Keys);
    if k != l {
      SumMapTakesAnyRow(m - {l}, f, k);
      assert (m - {k}).Keys == m.Keys - {k} && l in m.Keys - {k};
      var l' := Least((m - {k}).Keys);
      assert l' in m.Keys && l <= l' && l' <= l;
      assert m - {l} - {k} == m - {k} - {l};
    }
  }

  /** Writing one row changes the sum by the difference of the two row values. */
  lemma {:induction false} SumMapAfterWrite<V>(m: map<nat, V>, f: V -> real, k: nat, v: V)
    ensures SumMap(m[k := v], f) == SumMap(m, f) + f(v) - (if k in m then f(m[k]) else 0.0)
  {
    SumMapTakesAnyRow(m[k := v], f, k);
    assert m[k := v] - {k} == m - {k};
    if k in m {
      SumMapTakesAnyRow(m, f, k);
    } else {
      assert m - {k} == m;
    }
  }
}
