/**
 * The orders list of `src/pages/Orders.tsx`: the `Order` record, the
 * search filter, the table body and the product summary shown per order.
 */
module OrdersPage {
  import opened Wrappers
  import opened Strings
  import opened Decimal
  import Lists

  datatype Status = Pending | Confirmed | Packed | Dispatched | Delivered

  /** An order; the total is display text such as "₹12,450". */
  datatype Order = Order(
    id: string, customer: string, products: seq<string>, total: string,
    status: Status, date: string, city: string, marketingPerson: string)

  /** The search box: customer, id or city contain the query, ignoring case. */
  predicate OrderMatches(o: Order, query: string)
  {
    IncludesIgnoringCase(o.customer, query) || IncludesIgnoringCase(o.id, query)
    || IncludesIgnoringCase(o.city, query)
  }

  /** `filteredOrders`: exactly the matching orders, in their original order. */
  function FilteredOrders(orders: seq<Order>, query: string): (r: seq<Order>)
    ensures |r| <= |orders| && |r| == Lists.Count(orders, (o: Order) => OrderMatches(o, query))
    ensures forall i :: 0 <= i < |r| ==> OrderMatches(r[i], query)
    ensures forall i :: 0 <= i < |orders| && OrderMatches(orders[i], query) ==> orders[i] in r
    ensures Lists.Subsequence(r, orders)
  {
    Lists.Filter(orders, o => OrderMatches(o, query))
  }

  /** An empty search shows every order. */
  lemma EmptySearchKeepsAll(orders: seq<Order>)
    ensures FilteredOrders(orders, "") == orders
  {
    forall i | 0 <= i < |orders|
      ensures OrderMatches(orders[i], "")
    {
      EmptyQueryMatches(orders[i].customer);
    }
  }

  /** The table body: the single "No results found." row, or one row per order. */
  datatype TableBody = NoResults | Rows(orders: seq<Order>)

  function Body(filtered: seq<Order>): (b: TableBody)
    ensures b == NoResults <==> filtered == []
    ensures b.Rows? ==> b.orders == filtered
  {
    if |filtered| == 0 then NoResults else Rows(filtered)
  }

  /**
   * The product line under the customer: the first two names joined by
   * ", ", then " +N more" when N further names are hidden.
   */
  function ProductSummary(products: seq<string>): string
  {
    var shown := if |products| <= 2 then products else products[..2];
    Join(shown, ", ") + (if |products| > 2 then " +" + NatString(|products| - 2) + " more" else "")
  }

  /**
   * With at most two products every name is shown and nothing follows;
   * with more, the summary is the first two names, " +", a decimal number
   * that reads back as the count of hidden names, and " more".
   */
  lemma ProductSummaryParts(products: seq<string>)
    ensures |products| <= 2 ==> ProductSummary(products) == Join(products, ", ")
    ensures |products| > 2 ==>
              var r := ProductSummary(products);
              var head := products[0] + ", " + products[1];
              |r| > |head| + 7
              && r[..|head|] == head && r[|head|..|head| + 2] == " +" && r[|r| - 5..] == " more"
              && r[|head| + 2..|r| - 5] == NatString(|products| - 2)
              && ParseNat(r[|head| + 2..|r| - 5]) == Some(|products| - 2)
  {
    if |products| <= 2 {
      assert ProductSummary(products) == Join(products, ", ") + "";
    } else {
      var r := ProductSummary(products);
      var head := products[0] + ", " + products[1];
      var count := NatString(|products| - 2);
      assert Join(products[..2], ", ") == head;
      assert r == head + " +" + count + " more";
      assert r[|head| + 2..|r| - 5] == count;
      ParseNatString(|products| - 2);
    }
  }
}
