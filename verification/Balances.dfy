/** The consumable balances that billing credits and matching spends. */
module Balances {
  import opened Common

  type UserId = int

  datatype Units = Units(superLikes: int, boosts: int)

  const NO_UNITS := Units(0, 0)

  type Table = map<UserId, Units>

  function Plus(a: Units, b: Units): Units { Units(a.superLikes + b.superLikes, a.boosts + b.boosts) }

  function Negated(a: Units): Units { Units(-a.superLikes, -a.boosts) }

  lemma PlusLaws(a: Units, b: Units, c: Units)
    ensures Plus(a, NO_UNITS) == a
    ensures Plus(a, b) == Plus(b, a)
    ensures Plus(Plus(a, b), c) == Plus(a, Plus(b, c))
    ensures Plus(a, c) == Plus(b, c) ==> a == b
  {
    assert a == Units(a.superLikes, a.boosts) && b == Units(b.superLikes, b.boosts);
  }

  /** Paying out a change of worth keeps the balance equal to what is granted. */
  lemma PaidChange(balance: Units, granted: Units, granted': Units, worth: Units, worth': Units, delta: Units)
    requires Plus(granted', worth) == Plus(granted, worth') && worth' == Plus(worth, delta)
    ensures Plus(Plus(balance, delta), granted) == Plus(balance, granted')
  {}

  /** A user without a row has no credits. */
  function BalanceOf(t: Table, user: UserId): Units { if user in t then t[user] else NO_UNITS }

  /** Insert the delta as a new row, or add it to the row that is there. */
  function Credited(t: Table, user: UserId, delta: Units): Table { t[user := Plus(BalanceOf(t, user), delta)] }

  lemma RefundRestoresPayer(balances: Table, payer: UserId)
    ensures BalanceOf(Credited(Credited(balances, payer, Units(-1, 0)), payer, Units(1, 0)), payer)
         == BalanceOf(balances, payer)
  {}

  lemma CreditSparesOthers(t: Table, payee: UserId, delta: Units, user: UserId)
    requires user != payee
    ensures BalanceOf(Credited(t, payee, delta), user) == BalanceOf(t, user)
  {}

  lemma CreditReaches(t: Table, payee: UserId, delta: Units)
    ensures BalanceOf(Credited(t, payee, delta), payee) == Plus(BalanceOf(t, payee), delta)
  {}

  /** A balance that changes as the grant changes still covers the same spending. */
  lemma CoversTheSame(balance: Units, balance': Units, granted: Units, granted': Units, superLikes: int, boosts: int)
    requires balance.superLikes + superLikes == granted.superLikes && balance.boosts + boosts == granted.boosts
    requires Plus(balance', granted) == Plus(balance, granted')
    ensures balance'.superLikes + superLikes == granted'.superLikes && balance'.boosts + boosts == granted'.boosts
  {}

  class BalanceTable {
    var rows: Table

    constructor ()
      ensures rows == map[]
    {
      rows := map[];
    }

    method Credit(user: UserId, delta: Units)
      modifies this
      ensures rows == Credited(old(rows), user, delta)
    {
      if user in rows {
        rows := rows[user := Plus(rows[user], delta)];
      } else {
        rows := rows[user := delta];
      }
    }
  }
}
