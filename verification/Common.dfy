/** Shared vocabulary: optional columns, the millisecond clock and a little counting. */
module Common {

  /** A nullable column or an optional argument. */
  datatype Option<+T> = None | Some(value: T)

  /** Milliseconds since the epoch, as JavaScript's Date counts them. */
  type Time = int

  const SECOND_MS: int := 1000
  const MINUTE_MS: int := 60 * SECOND_MS
  const HOUR_MS: int := 60 * MINUTE_MS

  /** SQL's `column <= moment`: a null column satisfies no comparison. */
  predicate AtOrBefore(column: Option<Time>, moment: Time) {
    column.Some? && column.value <= moment
  }

  lemma {:induction false} SubsetSize<T>(small: set<T>, large: set<T>)
    requires small <= large
    ensures |small| <= |large|
    decreases small
  {
    if small == {} {
    } else {
      var x :| x in small;
      SubsetSize(small - {x}, large - {x});
    }
  }

  lemma Member<T>(s: set<T>) returns (x: T)
    requires s != {}
    ensures x in s
  {
    x :| x in s;
  }

  /** An id above every id in use. */
  lemma {:induction false} FreshId(used: set<int>) returns (id: int)
    ensures forall k :: k in used ==> k < id
    decreases used
  {
    if used == {} {
      id := 0;
    } else {
      var k := Member(used);
      var rest := FreshId(used - {k});
      id := if rest > k then rest else k + 1;
      forall m | m in used
        ensures m < id
      {
        assert m == k || m in used - {k};
      }
    }
  }

  /** 2 to the power `exponent`. */
  function Pow2(exponent: nat): (p: nat)
    ensures p >= 1
  {
    if exponent == 0 then 1 else 2 * Pow2(exponent - 1)
  }

  /** The capped exponential backoff of upload cleanup and of push delivery, by attempts made. */
  function BackoffMs(attempt: int): int {
    var raw := 30 * SECOND_MS * Pow2(if attempt <= 1 then 0 else attempt - 1);
    if raw < HOUR_MS then raw else HOUR_MS
  }

  lemma {:induction false} Pow2Monotone(a: nat, b: nat)
    requires a <= b
    ensures Pow2(a) <= Pow2(b)
    decreases b
  {
    if a < b {
      Pow2Monotone(a, b - 1);
    }
  }

  /** The delay never shrinks and stays between thirty seconds and an hour. */
  lemma BackoffBounds(a: int, b: int)
    requires a <= b
    ensures 30 * SECOND_MS <= BackoffMs(a) <= BackoffMs(b) <= HOUR_MS
  {
    Pow2Monotone(if a <= 1 then 0 else a - 1, if b <= 1 then 0 else b - 1);
  }

  /** It doubles with every attempt until it reaches the hour, at the eighth attempt. */
  lemma BackoffDoubles(a: int)
    requires a >= 1
    ensures BackoffMs(a + 1) == if 2 * BackoffMs(a) < HOUR_MS then 2 * BackoffMs(a) else HOUR_MS
    ensures a >= 8 ==> BackoffMs(a) == HOUR_MS
  {
    if a >= 8 {
      assert Pow2(7) == 128;
      Pow2Monotone(7, a - 1);
    }
  }

  /** The total weight of a set of ids. */
  ghost function Sum<T>(ids: set<T>, weight: T -> int): int
    decreases ids
  {
    if ids == {} then 0
    else
      var id :| id in ids;
      weight(id) + Sum(ids - {id}, weight)
  }

  lemma {:induction false} SumSplit<T>(ids: set<T>, weight: T -> int, id: T)
    requires id in ids
    ensures Sum(ids, weight) == weight(id) + Sum(ids - {id}, weight)
    decreases ids
  {
    var first :| first in ids && Sum(ids, weight) == weight(first) + Sum(ids - {first}, weight);
    if first != id {
      SumSplit(ids - {first}, weight, id);
      SumSplit(ids - {id}, weight, first);
      assert ids - {first} - {id} == ids - {id} - {first};
    }
  }

  lemma {:induction false} SumAgrees<T>(ids: set<T>, f: T -> int, g: T -> int)
    requires forall id :: id in ids ==> f(id) == g(id)
    ensures Sum(ids, f) == Sum(ids, g)
    decreases ids
  {
    if ids != {} {
      var id := Member(ids);
      SumSplit(ids, f, id);
      SumSplit(ids, g, id);
      SumAgrees(ids - {id}, f, g);
    }
  }

  /** Changing the weight of one id, old or new, changes the sum by the difference. */
  lemma SumChanges<T>(before: set<T>, f: T -> int, after: set<T>, g: T -> int, id: T)
    requires after == before + {id}
    requires forall other :: other in before && other != id ==> f(other) == g(other)
    ensures Sum(after, g) == Sum(before, f) + g(id) - if id in before then f(id) else 0
  {
    SumSplit(after, g, id);
    assert after - {id} == before - {id};
    SumAgrees(before - {id}, f, g);
    if id in before {
      SumSplit(before, f, id);
    } else {
      assert before - {id} == before;
    }
  }
}
