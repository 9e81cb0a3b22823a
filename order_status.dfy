/**
 * The order board of `src/pages/OrderStatus.tsx`: one column per status,
 * each showing the orders of that status that match the search, and drag
 * and drop of a card onto another column.
 */
module OrderStatusPage {
  import opened Wrappers
  import opened Strings
  import Lists
  import opened OrdersPage

  /** The board's search: customer or id contain the query, ignoring case (the city is not searched). */
  predicate CardMatches(o: Order, query: string)
  {
    IncludesIgnoringCase(o.customer, query) || IncludesIgnoringCase(o.id, query)
  }

  predicate InColumn(o: Order, query: string, status: Status)
  {
    o.status == status && CardMatches(o, query)
  }

  /** `getOrdersByStatus(status)`: exactly the column's orders, in their original order. */
  function OrdersByStatus(orders: seq<Order>, query: string, status: Status): (r: seq<Order>)
    ensures |r| == Lists.Count(orders, (o: Order) => InColumn(o, query, status))
    ensures forall i :: 0 <= i < |r| ==> r[i].status == status && CardMatches(r[i], query)
    ensures forall i :: 0 <= i < |orders| && InColumn(orders[i], query, status) ==> orders[i] in r
    ensures Lists.Subsequence(r, orders)
  {
    Lists.Filter(orders, o => InColumn(o, query, status))
  }

  /** The orders the search lets onto the board, whatever their column. */
  function SearchMatches(orders: seq<Order>, query: string): seq<Order>
  {
    Lists.Filter(orders, o => CardMatches(o, query))
  }

  /** The count badge on a column's header. */
  function Badge(orders: seq<Order>, query: string, status: Status): nat
  {
    |OrdersByStatus(orders, query, status)|
  }

  /** All five columns together, as a multiset of cards. */
  function AllColumns(orders: seq<Order>, query: string): multiset<Order>
  {
    multiset(OrdersByStatus(orders, query, Pending)) + multiset(OrdersByStatus(orders, query, Confirmed))
    + multiset(OrdersByStatus(orders, query, Packed)) + multiset(OrdersByStatus(orders, query, Dispatched))
    + multiset(OrdersByStatus(orders, query, Delivered))
  }

  /** One column, one order further into the list. */
  lemma ColumnStep(orders: seq<Order>, query: string, status: Status)
    requires orders != []
    ensures multiset(OrdersByStatus(orders, query, status))
            == (if InColumn(orders[0], query, status) then multiset{orders[0]} else multiset{})
               + multiset(OrdersByStatus(orders[1..], query, status))
  {
  }

  /** Adding `m` to exactly one of five multisets adds it to their sum. */
  lemma AddToOneOfFive<T>(m: multiset<T>, a: multiset<T>, b: multiset<T>, c: multiset<T>, d: multiset<T>, e: multiset<T>,
                          fa: bool, fb: bool, fc: bool, fd: bool, fe: bool)
    requires (if fa then 1 else 0) + (if fb then 1 else 0) + (if fc then 1 else 0)
             + (if fd then 1 else 0) + (if fe then 1 else 0) == 1
    ensures ((if fa then m else multiset{}) + a) + ((if fb then m else multiset{}) + b)
            + ((if fc then m else multiset{}) + c) + ((if fd then m else multiset{}) + d)
            + ((if fe then m else multiset{}) + e)
            == m + (a + b + c + d + e)
  {
  }

  /** The first order lands in its own status's column, if it matches, and in no other. */
  lemma ColumnsStep(orders: seq<Order>, query: string)
    requires orders != []
    ensures AllColumns(orders, query)
            == (if CardMatches(orders[0], query) then multiset{orders[0]} else multiset{})
               + AllColumns(orders[1..], query)
  {
    var o, rest := orders[0], orders[1..];
    var m: multiset<Order> := if CardMatches(o, query) then multiset{o} else multiset{};
    ColumnStep(orders, query, Pending);
    ColumnStep(orders, query, Confirmed);
    ColumnStep(orders, query, Packed);
    ColumnStep(orders, query, Dispatched);
    ColumnStep(orders, query, Delivered);
    AddToOneOfFive(m,
      multiset(OrdersByStatus(rest, query, Pending)), multiset(OrdersByStatus(rest, query, Confirmed)),
      multiset(OrdersByStatus(rest, query, Packed)), multiset(OrdersByStatus(rest, query, Dispatched)),
      multiset(OrdersByStatus(rest, query, Delivered)),
      o.status == Pending, o.status == Confirmed, o.status == Packed, o.status == Dispatched, o.status == Delivered);
  }

  /**
   * The five columns partition the orders that match the search: every
   * such order is on the board exactly once.
   */
  lemma {:induction false} ColumnsPartition(orders: seq<Order>, query: string)
    ensures AllColumns(orders, query) == multiset(SearchMatches(orders, query))
  {
    if orders != [] {
      ColumnsPartition(orders[1..], query);
      ColumnsStep(orders, query);
    }
  }

  /** The badges add up to the number of orders that match the search. */
  lemma BadgesAddUp(orders: seq<Order>, query: string)
    ensures Badge(orders, query, Pending) + Badge(orders, query, Confirmed) + Badge(orders, query, Packed)
            + Badge(orders, query, Dispatched) + Badge(orders, query, Delivered)
            == |SearchMatches(orders, query)|
  {
    ColumnsPartition(orders, query);
    var p, c, k, d, v :=
      OrdersByStatus(orders, query, Pending), OrdersByStatus(orders, query, Confirmed),
      OrdersByStatus(orders, query, Packed), OrdersByStatus(orders, query, Dispatched),
      OrdersByStatus(orders, query, Delivered);
    calc {
      |SearchMatches(orders, query)|;
      |multiset(SearchMatches(orders, query))|;
      |multiset(p) + multiset(c) + multiset(k) + multiset(d) + multiset(v)|;
      |multiset(p)| + |multiset(c)| + |multiset(k)| + |multiset(d)| + |multiset(v)|;
      |p| + |c| + |k| + |d| + |v|;
    }
  }

  /** `orders.map(...)`: every order with that id gets the new status. */
  function Moved(orders: seq<Order>, id: string, status: Status): (r: seq<Order>)
    ensures |r| == |orders|
    ensures forall i :: 0 <= i < |r| ==>
              r[i] == if orders[i].id == id then orders[i].(status := status) else orders[i]
  {
    seq(|orders|, i requires 0 <= i < |orders| =>
      if orders[i].id == id then orders[i].(status := status) else orders[i])
  }

  /** The search does not look at the status, so a drop keeps the number of matching orders. */
  lemma {:induction false} MoveKeepsMatchCount(orders: seq<Order>, id: string, status: Status, query: string)
    ensures |SearchMatches(Moved(orders, id, status), query)| == |SearchMatches(orders, query)|
  {
    if orders != [] {
      var moved := Moved(orders, id, status);
      MoveKeepsMatchCount(orders[1..], id, status, query);
      assert moved[1..] == Moved(orders[1..], id, status);
      assert CardMatches(moved[0], query) == CardMatches(orders[0], query);
    }
  }

  /**
   * A drop moves cards between columns but never on or off the board:
   * the matching orders are the same in number, and every moved card that
   * matches the search shows in the target column and in no other.
   */
  lemma MovePreservesBoard(orders: seq<Order>, id: string, status: Status, query: string)
    ensures |SearchMatches(Moved(orders, id, status), query)| == |SearchMatches(orders, query)|
    ensures forall o :: o in Moved(orders, id, status) && o.id == id && CardMatches(o, query) ==>
              o in OrdersByStatus(Moved(orders, id, status), query, status)
              && forall s :: s != status ==> o !in OrdersByStatus(Moved(orders, id, status), query, s)
  {
    MoveKeepsMatchCount(orders, id, status, query);
    var moved := Moved(orders, id, status);
    forall o | o in moved && o.id == id && CardMatches(o, query)
      ensures o in OrdersByStatus(moved, query, status)
      ensures forall s :: s != status ==> o !in OrdersByStatus(moved, query, s)
    {
      var i :| 0 <= i < |moved| && moved[i] == o;
      assert o.status == status;
      assert InColumn(moved[i], query, status);
    }
  }

  class OrderBoard {
    var orders: seq<Order>
    var searchQuery: string
    var draggedOrder: Option<Order>

    constructor (orders: seq<Order>)
      ensures this.orders == orders && searchQuery == "" && draggedOrder == None
    {
      this.orders := orders;
      searchQuery := "";
      draggedOrder := None;
    }

    /** `handleDragStart`: remembers the card being dragged. */
    method HandleDragStart(order: Order)
      modifies this`draggedOrder
      ensures draggedOrder == Some(order)
    {
      draggedOrder := Some(order);
    }

    /**
     * `handleDrop(status)`: without a dragged card nothing changes; with one,
     * every order sharing its id takes the column's status and the drag ends.
     */
    method HandleDrop(status: Status)
      modifies this`orders, this`draggedOrder
      ensures old(draggedOrder) == None ==> orders == old(orders) && draggedOrder == None
      ensures old(draggedOrder) != None ==>
                orders == Moved(old(orders), old(draggedOrder).value.id, status) && draggedOrder == None
    {
      if draggedOrder.Some? {
        orders := Moved(orders, draggedOrder.value.id, status);
        draggedOrder := None;
      }
    }
  }
}
