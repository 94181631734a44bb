/** Orders newest first: `response.data.sort((a, b) => new Date(b.orderDate)
    - new Date(a.orderDate))`, shared by the admin orders page and the
    user's order history. The library sort is specified by a functional
    insertion sort proved to be ordered and a permutation of its input. */
module OrderList {
  import opened Entities

  /** Every order is at least as recent as the ones after it. */
  predicate NewestFirst(s: seq<Order>)
  {
    forall i, j :: 0 <= i < j < |s| ==> s[i].orderDate >= s[j].orderDate
  }

  /** Place `o` before the first order that is not newer than it. */
  function Insert(o: Order, s: seq<Order>): (r: seq<Order>)
    ensures multiset(r) == multiset(s) + multiset{o}
    ensures |r| == |s| + 1
  {
    if s == [] then [o]
    else if s[0].orderDate <= o.orderDate then [o] + s
    else
      assert s == [s[0]] + s[1..];
      [s[0]] + Insert(o, s[1..])
  }

  lemma {:induction false} InsertKeepsOrder(o: Order, s: seq<Order>)
    requires NewestFirst(s)
    ensures NewestFirst(Insert(o, s))
  {
    if s != [] && s[0].orderDate > o.orderDate {
      InsertKeepsOrder(o, s[1..]);
      var r := Insert(o, s[1..]);
      forall x | x in r ensures x.orderDate <= s[0].orderDate {
        assert x in multiset(r);
        assert x in multiset(s[1..]) || x == o;
        if x != o {
          var k :| 0 <= k < |s[1..]| && s[1..][k] == x;
        }
      }
    }
  }

  /** The orders sorted newest first. */
  function SortNewestFirst(s: seq<Order>): (r: seq<Order>)
    ensures multiset(r) == multiset(s)
    ensures |r| == |s|
  {
    if s == [] then []
    else
      assert s == [s[0]] + s[1..];
      Insert(s[0], SortNewestFirst(s[1..]))
  }

  /** The sorted list is ordered newest first and is a permutation of the response. */
  lemma {:induction false} SortNewestFirstCorrect(s: seq<Order>)
    ensures NewestFirst(SortNewestFirst(s))
    ensures multiset(SortNewestFirst(s)) == multiset(s)
  {
    if s != [] {
      SortNewestFirstCorrect(s[1..]);
      InsertKeepsOrder(s[0], SortNewestFirst(s[1..]));
    }
  }
}
