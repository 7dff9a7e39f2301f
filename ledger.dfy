/**
 * The order ledger: the append-only list of placed orders, and the
 * per-identity view of it that the order history route shows.
 */
module Ledger {
  import opened Wrappers

  /** One placed order; names are copied from the catalog, `user` is the session identity. */
  datatype Order = Order(restaurant: string, item: string, user: Option<string>)

  /** `sub` is `s` with some elements left out and the rest kept in order. */
  ghost predicate IsSubsequence<T>(sub: seq<T>, s: seq<T>)
    decreases |s|
  {
    if |sub| == 0 then true
    else if |s| == 0 then false
    else if sub[0] == s[0] then IsSubsequence(sub[1..], s[1..])
    else IsSubsequence(sub, s[1..])
  }

  /**
   * The ledger entries whose `user` equals `user`, in ledger order: a
   * subsequence of the ledger that keeps every matching entry as often as
   * it occurs and no other entry.
   */
  function OrdersFor(ledger: seq<Order>, user: Option<string>): (r: seq<Order>)
    ensures forall k :: 0 <= k < |r| ==> r[k].user == user
    ensures forall o :: multiset(r)[o] == if o.user == user then multiset(ledger)[o] else 0
    ensures IsSubsequence(r, ledger)
  {
    if |ledger| == 0 then []
    else
      var rest := OrdersFor(ledger[1..], user);
      assert ledger == [ledger[0]] + ledger[1..];
      if ledger[0].user == user then [ledger[0]] + rest else rest
  }

  /** The view of a ledger that grew by appending is the old view followed by the new entries' view. */
  lemma {:induction false} OrdersForAppend(a: seq<Order>, b: seq<Order>, user: Option<string>)
    ensures OrdersFor(a + b, user) == OrdersFor(a, user) + OrdersFor(b, user)
  {
    if |a| == 0 {
      assert a + b == b;
    } else {
      assert (a + b)[1..] == a[1..] + b;
      OrdersForAppend(a[1..], b, user);
    }
  }

  /** Filtering a ledger by an identity none of whose entries carry gives the empty view. */
  lemma {:induction false} OrdersForNone(ledger: seq<Order>, user: Option<string>)
    requires forall k :: 0 <= k < |ledger| ==> ledger[k].user != user
    ensures OrdersFor(ledger, user) == []
  {
    if |ledger| > 0 {
      OrdersForNone(ledger[1..], user);
    }
  }
}
