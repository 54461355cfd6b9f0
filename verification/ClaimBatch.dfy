/** ORDER BY ... LIMIT: the batches that the maintenance workers claim. */
module ClaimBatch {

  /** `before` orders the rows of `due` strictly and totally. */
  ghost predicate OrdersStrictly<T(!new)>(due: set<T>, before: (T, T) -> bool) {
    && (forall a, b :: a in due && b in due && a != b ==> before(a, b) || before(b, a))
    && (forall a, b, c :: a in due && b in due && c in due && before(a, b) && before(b, c) ==> before(a, c))
  }

  /** The first `limit` due rows, or all of them when there are no more than that. */
  ghost predicate IsFirstOf<T(!new)>(selected: set<T>, due: set<T>, before: (T, T) -> bool, limit: nat) {
    && selected <= due
    && |selected| <= limit
    && (|selected| < limit ==> selected == due)
    && (forall a, b :: a in selected && b in due - selected ==> before(a, b))
  }

  lemma {:induction false} LeastExists<T(!new)>(due: set<T>, before: (T, T) -> bool) returns (least: T)
    requires due != {} && OrdersStrictly(due, before)
    ensures least in due
    ensures forall b :: b in due && b != least ==> before(least, b)
    decreases due
  {
    least :| least in due;
    if due != {least} {
      var other := LeastExists(due - {least}, before);
      if !before(least, other) {
        least := other;
      }
    }
  }

  method SelectFirst<T(==,!new)>(due: set<T>, before: (T, T) -> bool, limit: nat) returns (selected: set<T>)
    requires OrdersStrictly(due, before)
    ensures IsFirstOf(selected, due, before, limit)
  {
    selected := {};
    var rest := due;
    while |selected| < limit && rest != {}
      invariant selected + rest == due && selected !! rest
      invariant |selected| <= limit
      invariant forall a, b :: a in selected && b in rest ==> before(a, b)
      decreases rest
    {
      ghost var least := LeastExists(rest, before);
      var next :| next in rest && forall b :: b in rest && b != next ==> before(next, b);
      selected, rest := selected + {next}, rest - {next};
    }
    assert due - selected == rest;
  }
}
