/** Vocabulary shared by every part of the model: optional values, results, and sums over tables. */
module Common {

  datatype Option<+T> = None | Some(value: T)

  datatype Result<+T, +E> = Ok(value: T) | Err(error: E)

  /** The first row that satisfies `p` (`findFirst`), or the number of rows if none does. */
  function FirstIndex<T>(rows: seq<T>, p: T -> bool): (r: nat)
    ensures r <= |rows|
    ensures r < |rows| ==> p(rows[r])
    ensures forall i :: 0 <= i < r ==> !p(rows[i])
  {
    if rows == [] || p(rows[0]) then 0 else 1 + FirstIndex(rows[1..], p)
  }

  /** The same search with an explicit absence. */
  function FindFirst<T>(rows: seq<T>, p: T -> bool): (r: Option<nat>)
    ensures r.Some? ==> r.value < |rows| && p(rows[r.value]) && forall i :: 0 <= i < r.value ==> !p(rows[i])
    ensures r.None? ==> forall i :: 0 <= i < |rows| ==> !p(rows[i])
  {
    var i := FirstIndex(rows, p);
    if i < |rows| then Some(i) else None
  }

  /** The total of `f` over the rows of a table (SQL `SUM`, or the accumulator of a `for` loop). */
  function Sum<T>(rows: seq<T>, f: T -> int): int {
    if rows == [] then 0 else Sum(rows[..|rows| - 1], f) + f(rows[|rows| - 1])
  }

  lemma {:induction false} SumAppend<T>(a: seq<T>, b: seq<T>, f: T -> int)
    ensures Sum(a + b, f) == Sum(a, f) + Sum(b, f)
  {
    if b == [] {
      assert a + b == a;
    } else {
      assert (a + b)[..|a + b| - 1] == a + b[..|b| - 1];
      SumAppend(a, b[..|b| - 1], f);
    }
  }

  lemma SumSnoc<T>(a: seq<T>, x: T, f: T -> int)
    ensures Sum(a + [x], f) == Sum(a, f) + f(x)
  {
    assert (a + [x])[..|a|] == a;
  }

  /** Changing one row changes the total by the difference in that row. */
  lemma {:induction false} SumUpdate<T>(rows: seq<T>, i: nat, x: T, f: T -> int)
    requires i < |rows|
    ensures Sum(rows[i := x], f) == Sum(rows, f) - f(rows[i]) + f(x)
  {
    var last := |rows| - 1;
    if i == last {
      assert rows[i := x][..last] == rows[..last];
    } else {
      assert rows[i := x][..last] == rows[..last][i := x];
      SumUpdate(rows[..last], i, x, f);
    }
  }

  /** Two tables whose rows weigh the same, position by position, have the same total. */
  lemma {:induction false} SumAlike<S, T>(a: seq<S>, f: S -> int, b: seq<T>, g: T -> int)
    requires |a| == |b|
    requires forall i :: 0 <= i < |a| ==> f(a[i]) == g(b[i])
    ensures Sum(a, f) == Sum(b, g)
  {
    if a != [] {
      SumAlike(a[..|a| - 1], f, b[..|b| - 1], g);
    }
  }

  lemma {:induction false} SumNonNegative<T>(rows: seq<T>, f: T -> int)
    requires forall i :: 0 <= i < |rows| ==> 0 <= f(rows[i])
    ensures 0 <= Sum(rows, f)
    ensures forall i :: 0 <= i < |rows| ==> f(rows[i]) <= Sum(rows, f)
  {
    if rows != [] {
      SumNonNegative(rows[..|rows| - 1], f);
      assert forall i :: 0 <= i < |rows| - 1 ==> rows[i] == rows[..|rows| - 1][i];
    }
  }

  lemma {:induction false} SumZero<T>(rows: seq<T>, f: T -> int)
    requires forall i :: 0 <= i < |rows| ==> f(rows[i]) == 0
    ensures Sum(rows, f) == 0
  {
    if rows != [] {
      SumZero(rows[..|rows| - 1], f);
    }
  }

  /** Of two orders of the same rows, the one holds the other's first row somewhere, with the same rows around it. */
  lemma PermutationSplit<T>(a: seq<T>, b: seq<T>) returns (k: nat)
    requires multiset(a) == multiset(b) && b != []
    ensures k < |a| && a == a[..k] + [b[0]] + a[k + 1..]
    ensures multiset(a[..k] + a[k + 1..]) == multiset(b[1..])
  {
    assert b == [b[0]] + b[1..];
    assert b[0] in multiset(a);
    k :| 0 <= k < |a| && a[k] == b[0];
    assert a == a[..k] + [b[0]] + a[k + 1..];
    assert multiset(a) == multiset(a[..k] + a[k + 1..]) + multiset{b[0]};
    assert multiset(b[1..]) == multiset(b) - multiset{b[0]};
  }

  /** A total does not depend on the order of the rows. */
  lemma {:induction false} SumPermutation<T>(a: seq<T>, b: seq<T>, f: T -> int)
    requires multiset(a) == multiset(b)
    ensures Sum(a, f) == Sum(b, f)
    decreases |b|
  {
    if b == [] {
      assert |multiset(a)| == 0;
    } else {
      var k := PermutationSplit(a, b);
      SumPermutation(a[..k] + a[k + 1..], b[1..], f);
      SumAppend(a[..k], a[k + 1..], f);
      SumAppend(a[..k] + [b[0]], a[k + 1..], f);
      SumSnoc(a[..k], b[0], f);
      assert b == [b[0]] + b[1..] && [] + [b[0]] == [b[0]];
      SumSnoc([], b[0], f);
      SumAppend([b[0]], b[1..], f);
    }
  }
}
