/**
  A listing's displayed book and the differences a commit publishes
  (bunting-application's `diff_levels` and `diff_orders`).

  A client's view of a listing, by price level or order by order, is one map
  from keys to cells. The published differences are absolute: applying them to
  any view sets exactly the changed keys to their new cells and touches nothing
  else. That is the only fact the feed claims need of them.
 */
module Book {
  import opened Words
  import opened Market

  /** Visible quantity by price, per side; a level that shows nothing is absent. */
  datatype Depth = Depth(bids: map<int, nat>, asks: map<int, nat>)

  const EMPTY_DEPTH := Depth(map[], map[])

  function Levels(d: Depth, side: Side): map<int, nat> {
    if side.Buy? then d.bids else d.asks
  }

  function At(levels: map<int, nat>, price: int): nat {
    if price in levels then levels[price] else 0
  }

  function Visible(d: Depth, side: Side, price: int): nat {
    At(Levels(d, side), price)
  }

  ghost predicate ValidDepth(d: Depth) {
    forall side, price | price in Levels(d, side) :: Levels(d, side)[price] > 0
  }

  // ----- Best levels -------------------------------------------------------

  lemma Inhabited(s: set<int>)
    ensures s == {} || exists x :: x in s
  {
    if forall x :: x !in s {
      assert s == {};
    }
  }

  lemma {:induction false} HasLeast(s: set<int>)
    requires s != {}
    ensures exists m :: m in s && forall x :: x in s ==> m <= x
    decreases s
  {
    Inhabited(s);
    var x :| x in s;
    if s != {x} {
      assert s - {x} != {};
      HasLeast(s - {x});
      var m :| m in s - {x} && forall y :: y in s - {x} ==> m <= y;
      var least := if x < m then x else m;
      assert forall y :: y in s ==> y == x || y in s - {x};
      assert least in s && forall y :: y in s ==> least <= y;
    } else {
      assert forall y :: y in s ==> x <= y;
    }
  }

  lemma HasGreatest(s: set<int>)
    requires s != {}
    ensures exists m :: m in s && forall x :: x in s ==> x <= m
  {
    Inhabited(s);
    var x :| x in s;
    var negated := set y | y in s :: -y;
    assert -x in negated;
    HasLeast(negated);
    var m :| m in negated && forall y :: y in negated ==> m <= y;
    forall y | y in s ensures y <= -m {
      assert -y in negated;
    }
    assert -m in s;
  }

  function Least(s: set<int>): (m: int)
    requires s != {}
    ensures m in s && forall x :: x in s ==> m <= x
  {
    HasLeast(s);
    var m :| m in s && forall x :: x in s ==> m <= x;
    m
  }

  function Greatest(s: set<int>): (m: int)
    requires s != {}
    ensures m in s && forall x :: x in s ==> x <= m
  {
    HasGreatest(s);
    var m :| m in s && forall x :: x in s ==> x <= m;
    m
  }

  /** The first bid: the highest price. */
  function BestBid(d: Depth): Option<Level> {
    if d.bids == map[] then None else var p := Greatest(d.bids.Keys); Some(Level(p, d.bids[p]))
  }

  /** The first ask: the lowest price. */
  function BestAsk(d: Depth): Option<Level> {
    if d.asks == map[] then None else var p := Least(d.asks.Keys); Some(Level(p, d.asks[p]))
  }

  /** `a` is at least as good a price as `b`. */
  predicate AtLeast(side: Side, a: int, b: int) {
    if side.Buy? then b <= a else a <= b
  }

  /** The best displayed level of a side: none exactly when nothing shows, else one no visible price beats. */
  ghost predicate Tops(d: Depth, side: Side, level: Option<Level>) {
    && (level.None? <==> forall price :: Visible(d, side, price) == 0)
    && (level.Some? ==>
          && level.value.quantity == Visible(d, side, level.value.price) > 0
          && forall price | Visible(d, side, price) > 0 :: AtLeast(side, level.value.price, price))
  }

  /** Quotes that are a book's best bid and best offer. */
  ghost predicate QuotesTop(q: Quotes, d: Depth) {
    Tops(d, Buy, q.bid) && Tops(d, Sell, q.ask)
  }

  lemma BestBidTops(d: Depth)
    requires ValidDepth(d)
    ensures Tops(d, Buy, BestBid(d))
  {
    if d.bids != map[] {
      var p := Greatest(d.bids.Keys);
      assert p in Levels(d, Buy) && Visible(d, Buy, p) > 0;
      forall price | Visible(d, Buy, price) > 0 ensures AtLeast(Buy, p, price) {
        assert price in d.bids.Keys;
      }
    }
  }

  lemma BestAskTops(d: Depth)
    requires ValidDepth(d)
    ensures Tops(d, Sell, BestAsk(d))
  {
    if d.asks != map[] {
      var p := Least(d.asks.Keys);
      assert p in Levels(d, Sell) && Visible(d, Sell, p) > 0;
      forall price | Visible(d, Sell, price) > 0 ensures AtLeast(Sell, p, price) {
        assert price in d.asks.Keys;
      }
    }
  }

  lemma TopIsUnique(d: Depth, side: Side, a: Option<Level>, b: Option<Level>)
    requires Tops(d, side, a) && Tops(d, side, b)
    ensures a == b
  {
    if a.Some? {
      assert Visible(d, side, a.value.price) > 0;
      assert b.Some? && AtLeast(side, a.value.price, b.value.price) && AtLeast(side, b.value.price, a.value.price);
    }
  }

  /** A book has one best bid and offer. */
  lemma QuotesTopIsUnique(d: Depth, a: Quotes, b: Quotes)
    requires QuotesTop(a, d) && QuotesTop(b, d)
    ensures a == b
  {
    TopIsUnique(d, Buy, a.bid, b.bid);
    TopIsUnique(d, Sell, a.ask, b.ask);
  }

  function Ascending(s: set<int>): (r: seq<int>)
    ensures forall x :: x in r <==> x in s
    ensures forall i, j | 0 <= i < j < |r| :: r[i] < r[j]
    decreases s
  {
    if s == {} then [] else var m := Least(s); [m] + Ascending(s - {m})
  }

  // ----- Level differences -------------------------------------------------

  function DiffSide(side: Side, before: map<int, nat>, after: map<int, nat>, prices: seq<int>): seq<LevelChange> {
    if prices == [] then []
    else
      var p := prices[0];
      (if At(before, p) != At(after, p) then [LevelChange(side, p, At(before, p), At(after, p))] else [])
      + DiffSide(side, before, after, prices[1..])
  }

  function DiffLevels(before: Depth, after: Depth): seq<LevelChange> {
    DiffSide(Buy, before.bids, after.bids, Ascending(before.bids.Keys + after.bids.Keys))
    + DiffSide(Sell, before.asks, after.asks, Ascending(before.asks.Keys + after.asks.Keys))
  }

  lemma {:induction false} DiffSideIsExact(side: Side, before: map<int, nat>, after: map<int, nat>, prices: seq<int>)
    requires forall i, j | 0 <= i < j < |prices| :: prices[i] < prices[j]
    ensures var cs := DiffSide(side, before, after, prices);
      && (forall c :: c in cs <==>
            && c.side == side && c.price in prices
            && c.previous == At(before, c.price) && c.quantity == At(after, c.price) && c.previous != c.quantity)
      && (forall i, j | 0 <= i < j < |cs| :: cs[i].price < cs[j].price)
  {
    if prices != [] {
      DiffSideIsExact(side, before, after, prices[1..]);
      assert prices == [prices[0]] + prices[1..];
      var rest := DiffSide(side, before, after, prices[1..]);
      forall i | 0 <= i < |rest| ensures prices[0] < rest[i].price {
        assert rest[i] in rest;
      }
    }
  }

  /** The published levels: each changed price once, with its true old and new quantity. */
  ghost predicate IsLevelDiff(cs: seq<LevelChange>, before: Depth, after: Depth) {
    && (forall i, j | 0 <= i < j < |cs| :: cs[i].side != cs[j].side || cs[i].price != cs[j].price)
    && (forall c :: c in cs <==>
          && c.previous == Visible(before, c.side, c.price)
          && c.quantity == Visible(after, c.side, c.price)
          && c.previous != c.quantity)
  }

  lemma DiffLevelsIsExact(before: Depth, after: Depth)
    ensures IsLevelDiff(DiffLevels(before, after), before, after)
  {
    var bids := Ascending(before.bids.Keys + after.bids.Keys);
    var asks := Ascending(before.asks.Keys + after.asks.Keys);
    DiffSideIsExact(Buy, before.bids, after.bids, bids);
    DiffSideIsExact(Sell, before.asks, after.asks, asks);
    var cs := DiffLevels(before, after);
    forall c
      ensures c in cs <==>
        && c.previous == Visible(before, c.side, c.price)
        && c.quantity == Visible(after, c.side, c.price) && c.previous != c.quantity
    {
      if c.previous == Visible(before, c.side, c.price) && c.quantity == Visible(after, c.side, c.price)
        && c.previous != c.quantity {
        assert c.side.Buy? ==> c.price in bids;
        assert c.side.Sell? ==> c.price in asks;
      }
    }
    SidesDiffer(before, after);
  }

  /** No price of a side is named twice. */
  lemma SidesDiffer(before: Depth, after: Depth)
    ensures var cs := DiffLevels(before, after);
      forall i, j | 0 <= i < j < |cs| :: cs[i].side != cs[j].side || cs[i].price != cs[j].price
  {
    var bids := Ascending(before.bids.Keys + after.bids.Keys);
    var asks := Ascending(before.asks.Keys + after.asks.Keys);
    DiffSideIsExact(Buy, before.bids, after.bids, bids);
    DiffSideIsExact(Sell, before.asks, after.asks, asks);
    var cs := DiffLevels(before, after);
    var cut := |DiffSide(Buy, before.bids, after.bids, bids)|;
    forall i, j | 0 <= i < j < |cs| ensures cs[i].side != cs[j].side || cs[i].price != cs[j].price {
      if i < cut <= j {
        assert cs[i] in DiffSide(Buy, before.bids, after.bids, bids);
        assert cs[j] in DiffSide(Sell, before.asks, after.asks, asks);
      }
    }
  }

  /** Bids before asks, each side in price order. */
  ghost predicate LevelsInOrder(cs: seq<LevelChange>) {
    forall i, j | 0 <= i < j < |cs| ::
      (cs[i].side.Buy? && cs[j].side.Sell?) || (cs[i].side == cs[j].side && cs[i].price < cs[j].price)
  }

  ghost predicate Rises(cs: seq<LevelChange>, side: Side) {
    && (forall i | 0 <= i < |cs| :: cs[i].side == side)
    && (forall i, j | 0 <= i < j < |cs| :: cs[i].price < cs[j].price)
  }

  lemma SideRises(side: Side, before: map<int, nat>, after: map<int, nat>, prices: seq<int>)
    requires forall i, j | 0 <= i < j < |prices| :: prices[i] < prices[j]
    ensures Rises(DiffSide(side, before, after, prices), side)
  {
    DiffSideIsExact(side, before, after, prices);
    var cs := DiffSide(side, before, after, prices);
    assert forall i | 0 <= i < |cs| :: cs[i] in cs;
  }

  lemma SidesInOrder(bids: seq<LevelChange>, asks: seq<LevelChange>)
    requires Rises(bids, Buy) && Rises(asks, Sell)
    ensures LevelsInOrder(bids + asks)
  {
  }

  lemma DiffLevelsInOrder(before: Depth, after: Depth)
    ensures LevelsInOrder(DiffLevels(before, after))
  {
    var bids := Ascending(before.bids.Keys + after.bids.Keys);
    var asks := Ascending(before.asks.Keys + after.asks.Keys);
    SideRises(Buy, before.bids, after.bids, bids);
    SideRises(Sell, before.asks, after.asks, asks);
    SidesInOrder(DiffSide(Buy, before.bids, after.bids, bids), DiffSide(Sell, before.asks, after.asks, asks));
  }

  // ----- Order differences -------------------------------------------------

  predicate HasReference(orders: seq<DisplayedOrder>, reference: nat) {
    exists i | 0 <= i < |orders| :: orders[i].reference == reference
  }

  function Find(orders: seq<DisplayedOrder>, reference: nat): Option<DisplayedOrder> {
    if orders == [] then None
    else if orders[0].reference == reference then Some(orders[0])
    else Find(orders[1..], reference)
  }

  ghost predicate Distinct(orders: seq<DisplayedOrder>) {
    forall i, j | 0 <= i < j < |orders| :: orders[i].reference != orders[j].reference
  }

  function Change(action: OrderAction, o: DisplayedOrder, quantity: nat): OrderChange {
    OrderChange(action, o.side, o.reference, o.price, quantity, o.broker)
  }

  function Deletions(before: seq<DisplayedOrder>, after: seq<DisplayedOrder>): seq<OrderChange> {
    if before == [] then []
    else
      (if Find(after, before[0].reference).None? then [Change(Deleted, before[0], 0)] else [])
      + Deletions(before[1..], after)
  }

  function Changes(before: seq<DisplayedOrder>, after: seq<DisplayedOrder>): seq<OrderChange> {
    if after == [] then []
    else
      var o := Find(before, after[0].reference);
      (if o.Some? && o.value.quantity != after[0].quantity then [Change(Changed, after[0], after[0].quantity)] else [])
      + Changes(before, after[1..])
  }

  function Additions(before: seq<DisplayedOrder>, after: seq<DisplayedOrder>): seq<OrderChange> {
    if after == [] then []
    else
      (if Find(before, after[0].reference).None? then [Change(Added, after[0], after[0].quantity)] else [])
      + Additions(before, after[1..])
  }

  /** Deletions, then changes, then additions in priority order. */
  function DiffOrders(before: seq<DisplayedOrder>, after: seq<DisplayedOrder>): seq<OrderChange> {
    Deletions(before, after) + Changes(before, after) + Additions(before, after)
  }

  /** Where a reference stands in a view, or its length. */
  function Place(orders: seq<DisplayedOrder>, reference: nat): nat {
    if orders == [] || orders[0].reference == reference then 0 else 1 + Place(orders[1..], reference)
  }

  /** The changes name orders of the view, in the view's order. */
  ghost predicate FollowsView(cs: seq<OrderChange>, orders: seq<DisplayedOrder>) {
    && (forall i | 0 <= i < |cs| :: Place(orders, cs[i].reference) < |orders|)
    && (forall i, j | 0 <= i < j < |cs| :: Place(orders, cs[i].reference) < Place(orders, cs[j].reference))
  }

  lemma {:induction false} PlaceIsThere(orders: seq<DisplayedOrder>, reference: nat)
    ensures Place(orders, reference) <= |orders|
    ensures Place(orders, reference) < |orders| ==> orders[Place(orders, reference)].reference == reference
  {
    if orders != [] {
      PlaceIsThere(orders[1..], reference);
    }
  }

  /** One more order in front of the view, changed or not. */
  lemma FollowsNext(cs: seq<OrderChange>, c: OrderChange, orders: seq<DisplayedOrder>, changed: bool)
    requires orders != [] && Distinct(orders) && FollowsView(cs, orders[1..]) && c.reference == orders[0].reference
    ensures FollowsView((if changed then [c] else []) + cs, orders)
  {
    var rest, all := orders[1..], (if changed then [c] else []) + cs;
    forall i | 0 <= i < |cs| ensures Place(orders, cs[i].reference) == 1 + Place(rest, cs[i].reference) {
      PlaceIsThere(rest, cs[i].reference);
      assert rest[Place(rest, cs[i].reference)] == orders[1 + Place(rest, cs[i].reference)];
    }
    if !changed {
      assert all == cs;
    }
  }

  lemma {:induction false} DeletionsFollow(before: seq<DisplayedOrder>, after: seq<DisplayedOrder>)
    requires Distinct(before)
    ensures FollowsView(Deletions(before, after), before)
  {
    if before != [] {
      DeletionsFollow(before[1..], after);
      var o := before[0];
      FollowsNext(Deletions(before[1..], after), Change(Deleted, o, 0), before, Find(after, o.reference).None?);
    }
  }

  lemma {:induction false} ChangesFollow(before: seq<DisplayedOrder>, after: seq<DisplayedOrder>)
    requires Distinct(after)
    ensures FollowsView(Changes(before, after), after) && FollowsView(Additions(before, after), after)
  {
    if after != [] {
      ChangesFollow(before, after[1..]);
      var o, was := after[0], Find(before, after[0].reference);
      FollowsNext(Changes(before, after[1..]), Change(Changed, o, o.quantity), after,
        was.Some? && was.value.quantity != o.quantity);
      FollowsNext(Additions(before, after[1..]), Change(Added, o, o.quantity), after, was.None?);
    }
  }

  lemma {:induction false} ActionsOf(before: seq<DisplayedOrder>, after: seq<DisplayedOrder>)
    ensures forall i | 0 <= i < |Changes(before, after)| :: Changes(before, after)[i].action.Changed?
    ensures forall i | 0 <= i < |Additions(before, after)| :: Additions(before, after)[i].action.Added?
  {
    if after != [] {
      ActionsOf(before, after[1..]);
    }
  }

  lemma {:induction false} DeletionsDelete(before: seq<DisplayedOrder>, after: seq<DisplayedOrder>)
    ensures forall i | 0 <= i < |Deletions(before, after)| :: Deletions(before, after)[i].action.Deleted?
  {
    if before != [] {
      DeletionsDelete(before[1..], after);
    }
  }

  /** Deletions as the old view lists them, then changes, then additions as the new one does. */
  ghost predicate OrdersInOrder(
      cs: seq<OrderChange>, before: seq<DisplayedOrder>, after: seq<DisplayedOrder>, d: nat, c: nat)
  {
    && d <= c <= |cs|
    && (forall i | 0 <= i < |cs| ::
          cs[i].action == if i < d then Deleted else if i < c then Changed else Added)
    && FollowsView(cs[..d], before) && FollowsView(cs[d..c], after) && FollowsView(cs[c..], after)
  }

  /** Deletions first, then changes, then additions in priority order. */
  lemma DiffOrdersInOrder(before: seq<DisplayedOrder>, after: seq<DisplayedOrder>) returns (d: nat, c: nat)
    requires Distinct(before) && Distinct(after)
    ensures OrdersInOrder(DiffOrders(before, after), before, after, d, c)
  {
    var gone, changed, added := Deletions(before, after), Changes(before, after), Additions(before, after);
    var cs := DiffOrders(before, after);
    d, c := |gone|, |gone| + |changed|;
    DeletionsDelete(before, after);
    ActionsOf(before, after);
    DeletionsFollow(before, after);
    ChangesFollow(before, after);
    assert cs[..d] == gone && cs[d..c] == changed && cs[c..] == added;
  }

  /** The change, if any, between an order's old and new displayed form. */
  function ChangeOf(before: Option<DisplayedOrder>, after: Option<DisplayedOrder>): Option<OrderChange> {
    match (before, after)
    case (Some(o), None) => Some(Change(Deleted, o, 0))
    case (None, Some(o)) => Some(Change(Added, o, o.quantity))
    case (Some(o), Some(n)) => if o.quantity != n.quantity then Some(Change(Changed, n, n.quantity)) else None
    case (None, None) => None
  }

  /** The published order changes: each reference at most once, with its true change. */
  ghost predicate IsOrderDiff(cs: seq<OrderChange>, before: seq<DisplayedOrder>, after: seq<DisplayedOrder>) {
    && (forall i, j | 0 <= i < j < |cs| :: cs[i].reference != cs[j].reference)
    && (forall c :: c in cs <==> ChangeOf(Find(before, c.reference), Find(after, c.reference)) == Some(c))
  }

  ghost predicate DistinctChanges(cs: seq<OrderChange>) {
    forall i, j | 0 <= i < j < |cs| :: cs[i].reference != cs[j].reference
  }

  lemma {:induction false} FindInRest(orders: seq<DisplayedOrder>, reference: nat)
    ensures Find(orders, reference).Some? <==> HasReference(orders, reference)
    ensures Find(orders, reference).Some? ==> Find(orders, reference).value.reference == reference
  {
    if orders != [] {
      FindInRest(orders[1..], reference);
      if HasReference(orders, reference) && orders[0].reference != reference {
        var i :| 0 <= i < |orders| && orders[i].reference == reference;
        assert orders[1..][i - 1].reference == reference;
      }
    }
  }

  lemma FirstIsUnique(orders: seq<DisplayedOrder>)
    requires orders != [] && Distinct(orders)
    ensures Find(orders[1..], orders[0].reference).None?
  {
    assert forall i | 0 <= i < |orders[1..]| :: orders[1..][i] == orders[i + 1];
    FindInRest(orders[1..], orders[0].reference);
  }

  lemma {:induction false} DeletionsExact(before: seq<DisplayedOrder>, after: seq<DisplayedOrder>)
    requires Distinct(before)
    ensures DistinctChanges(Deletions(before, after))
    ensures forall c :: c in Deletions(before, after) <==>
      var o := Find(before, c.reference); o.Some? && Find(after, c.reference).None? && c == Change(Deleted, o.value, 0)
  {
    if before != [] {
      var first, rest := before[0], before[1..];
      DeletionsExact(rest, after);
      FirstIsUnique(before);
      forall i | 0 <= i < |Deletions(rest, after)| ensures Deletions(rest, after)[i].reference != first.reference {
        assert Deletions(rest, after)[i] in Deletions(rest, after);
      }
    }
  }

  lemma {:induction false} ChangesExact(before: seq<DisplayedOrder>, after: seq<DisplayedOrder>)
    requires Distinct(after)
    ensures DistinctChanges(Changes(before, after))
    ensures forall c :: c in Changes(before, after) <==>
      var o, n := Find(before, c.reference), Find(after, c.reference);
      o.Some? && n.Some? && o.value.quantity != n.value.quantity && c == Change(Changed, n.value, n.value.quantity)
  {
    if after != [] {
      var first, rest := after[0], after[1..];
      ChangesExact(before, rest);
      FirstIsUnique(after);
      forall i | 0 <= i < |Changes(before, rest)| ensures Changes(before, rest)[i].reference != first.reference {
        assert Changes(before, rest)[i] in Changes(before, rest);
      }
    }
  }

  lemma {:induction false} AdditionsExact(before: seq<DisplayedOrder>, after: seq<DisplayedOrder>)
    requires Distinct(after)
    ensures DistinctChanges(Additions(before, after))
    ensures forall c :: c in Additions(before, after) <==>
      var n := Find(after, c.reference);
      n.Some? && Find(before, c.reference).None? && c == Change(Added, n.value, n.value.quantity)
  {
    if after != [] {
      var first, rest := after[0], after[1..];
      AdditionsExact(before, rest);
      FirstIsUnique(after);
      forall i | 0 <= i < |Additions(before, rest)| ensures Additions(before, rest)[i].reference != first.reference {
        assert Additions(before, rest)[i] in Additions(before, rest);
      }
    }
  }

  lemma DiffOrdersIsExact(before: seq<DisplayedOrder>, after: seq<DisplayedOrder>)
    requires Distinct(before) && Distinct(after)
    ensures IsOrderDiff(DiffOrders(before, after), before, after)
  {
    DeletionsExact(before, after);
    ChangesExact(before, after);
    AdditionsExact(before, after);
    var ds, cs, adds := Deletions(before, after), Changes(before, after), Additions(before, after);
    var all := DiffOrders(before, after);
    forall i, j | 0 <= i < j < |all| ensures all[i].reference != all[j].reference {
      assert i < |ds| ==> all[i] in ds;
      assert |ds| <= i < |ds| + |cs| ==> all[i] in cs;
      assert |ds| <= j < |ds| + |cs| ==> all[j] in cs;
      assert |ds| + |cs| <= j ==> all[j] in adds;
    }
    forall c ensures c in all <==> ChangeOf(Find(before, c.reference), Find(after, c.reference)) == Some(c) {
      assert c in all <==> c in ds || c in cs || c in adds;
      FindInRest(before, c.reference);
      FindInRest(after, c.reference);
    }
  }
}
