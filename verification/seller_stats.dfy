/** The specification of `getSellerStats` (OrderService.java): what its
    loops over orders, wish lists and carts accumulate, and the rankings
    drawn from the accumulated counts. Each fold is defined by peeling off
    the last element, the way the loops visit them. */
module SellerStatistics {
  import opened Wrappers
  import opened Text
  import opened Seqs
  import opened Store
  import opened Ranking
  import Books

  /** `sellerId.equals(item.getSellerId())`. */
  predicate Sells(item: OrderItem, sellerId: string) {
    item.sellerId == Some(sellerId)
  }

  function SellerItems(items: seq<OrderItem>, sellerId: string): seq<OrderItem> {
    Filter(items, (it: OrderItem) => Sells(it, sellerId))
  }

  predicate HasSellerItem(items: seq<OrderItem>, sellerId: string) {
    exists i :: 0 <= i < |items| && Sells(items[i], sellerId)
  }

  lemma HasSellerItemIffSome(items: seq<OrderItem>, sellerId: string)
    ensures HasSellerItem(items, sellerId) <==> |SellerItems(items, sellerId)| > 0
  {
    var r := SellerItems(items, sellerId);
    if |r| > 0 {
      assert r[0] in items;
      var i :| 0 <= i < |items| && items[i] == r[0];
      assert Sells(items[i], sellerId);
    }
  }

  function Quantity(it: OrderItem): int { it.quantity }

  function LineRevenue(it: OrderItem): int { it.quantity * it.price }

  /** A hash-map counter read with 0 for an absent key. */
  function Count(m: map<string, int>, k: string): int {
    if k in m then m[k] else 0
  }

  /** `merge(k, amount, Integer::sum)`. */
  function Merge(m: map<string, int>, k: string, amount: int): (r: map<string, int>)
    ensures r.Keys == m.Keys + {k}
    ensures Count(r, k) == Count(m, k) + amount
    ensures forall j :: j != k ==> Count(r, j) == Count(m, j)
  {
    m[k := Count(m, k) + amount]
  }

  /** `new FulfillmentEntry(order.getId(), 4.0f)`: every order of the
      seller gets the same fixed delay. */
  datatype FulfillmentEntry = FulfillmentEntry(orderId: string, delayInHours: real)

  const FulfillmentDelay := 4.0

  /** What the order loop accumulates. */
  datatype Tally = Tally(buyers: set<string>, totalPurchases: int, totalRevenue: int,
                         purchasedBooks: seq<Book>, bookSales: map<string, int>,
                         userPurchases: map<string, int>, fulfilled: seq<FulfillmentEntry>)

  const NoTally := Tally({}, 0, 0, [], map[], map[], [])

  /** The inner loop's body for one item of order `o`. */
  function TallyItem(t: Tally, o: Order, item: OrderItem, sellerId: string, books: map<string, Book>): Tally {
    if !Sells(item, sellerId) then t
    else
      var t1 := t.(totalPurchases := t.totalPurchases + item.quantity,
                   totalRevenue := t.totalRevenue + LineRevenue(item),
                   userPurchases := Merge(t.userPurchases, o.userId, 1));
      if item.itemId in books then
        var b := books[item.itemId];
        t1.(purchasedBooks := t1.purchasedBooks + [b], bookSales := Merge(t1.bookSales, b.id, item.quantity))
      else t1
  }

  function TallyItems(t: Tally, o: Order, items: seq<OrderItem>, sellerId: string, books: map<string, Book>): Tally {
    if items == [] then t
    else TallyItem(TallyItems(t, o, items[..|items| - 1], sellerId, books), o, items[|items| - 1], sellerId, books)
  }

  /** One pass of the outer loop: the order's items, then the buyer and
      the fulfilment entry when the seller had an item in it. */
  function TallyOrder(t: Tally, o: Order, sellerId: string, books: map<string, Book>): Tally {
    var t1 := TallyItems(t, o, o.items, sellerId, books);
    if HasSellerItem(o.items, sellerId) then t1.(buyers := t1.buyers + {o.userId}, fulfilled := t1.fulfilled + [FulfillmentEntry(o.id, FulfillmentDelay)])
    else t1
  }

  function TallyOrders(orders: seq<Order>, sellerId: string, books: map<string, Book>): Tally {
    if orders == [] then NoTally
    else TallyOrder(TallyOrders(orders[..|orders| - 1], sellerId, books), orders[|orders| - 1], sellerId, books)
  }

  /** The outer loop's last pass changes the books only through the inner
      loop. */
  lemma TallyOrdersLastBooks(orders: seq<Order>, sellerId: string, books: map<string, Book>)
    requires orders != []
    ensures var last := orders[|orders| - 1];
            var t := TallyItems(TallyOrders(orders[..|orders| - 1], sellerId, books), last, last.items, sellerId, books);
            && TallyOrders(orders, sellerId, books).purchasedBooks == t.purchasedBooks
            && TallyOrders(orders, sellerId, books).bookSales == t.bookSales
  {
  }

  /** The quantity of the seller's items in an order. */
  function PurchasesIn(sellerId: string): Order -> int {
    (o: Order) => Sum(SellerItems(o.items, sellerId), Quantity)
  }

  function RevenueIn(sellerId: string): Order -> int {
    (o: Order) => Sum(SellerItems(o.items, sellerId), LineRevenue)
  }

  /** How many of the seller's items user `u` bought in an order. */
  function ItemsBoughtBy(u: string, sellerId: string): Order -> int {
    (o: Order) => if o.userId == u then |SellerItems(o.items, sellerId)| else 0
  }

  predicate BoughtFromSeller(orders: seq<Order>, u: string, sellerId: string) {
    exists i :: 0 <= i < |orders| && orders[i].userId == u && HasSellerItem(orders[i].items, sellerId)
  }

  lemma SellerItemsLast(items: seq<OrderItem>, sellerId: string)
    requires items != []
    ensures SellerItems(items, sellerId) ==
            SellerItems(items[..|items| - 1], sellerId) + (if Sells(items[|items| - 1], sellerId) then [items[|items| - 1]] else [])
  {
  }

  lemma {:induction false} TallyItemsPurchases(t: Tally, o: Order, items: seq<OrderItem>, sellerId: string, books: map<string, Book>)
    ensures TallyItems(t, o, items, sellerId, books).totalPurchases == t.totalPurchases + Sum(SellerItems(items, sellerId), Quantity)
  {
    if items != [] {
      var init, last := items[..|items| - 1], items[|items| - 1];
      TallyItemsPurchases(t, o, init, sellerId, books);
      var prev := TallyItems(t, o, init, sellerId, books);
      assert TallyItems(t, o, items, sellerId, books) == TallyItem(prev, o, last, sellerId, books);
      var part := if Sells(last, sellerId) then [last] else [];
      SellerItemsLast(items, sellerId);
      SumAppend(SellerItems(init, sellerId), part, Quantity);
      if Sells(last, sellerId) {
        assert part[..0] == [];
        assert Sum(part, Quantity) == last.quantity;
        assert TallyItem(prev, o, last, sellerId, books).totalPurchases == prev.totalPurchases + last.quantity;
      } else {
        assert TallyItem(prev, o, last, sellerId, books) == prev;
      }
    }
  }

  lemma {:induction false} TallyItemsRevenue(t: Tally, o: Order, items: seq<OrderItem>, sellerId: string, books: map<string, Book>)
    ensures TallyItems(t, o, items, sellerId, books).totalRevenue == t.totalRevenue + Sum(SellerItems(items, sellerId), LineRevenue)
  {
    if items != [] {
      var init, last := items[..|items| - 1], items[|items| - 1];
      TallyItemsRevenue(t, o, init, sellerId, books);
      var prev := TallyItems(t, o, init, sellerId, books);
      assert TallyItems(t, o, items, sellerId, books) == TallyItem(prev, o, last, sellerId, books);
      var part := if Sells(last, sellerId) then [last] else [];
      SellerItemsLast(items, sellerId);
      SumAppend(SellerItems(init, sellerId), part, LineRevenue);
      if Sells(last, sellerId) {
        assert part[..0] == [];
        assert Sum(part, LineRevenue) == LineRevenue(last);
        assert TallyItem(prev, o, last, sellerId, books).totalRevenue == prev.totalRevenue + LineRevenue(last);
      } else {
        assert TallyItem(prev, o, last, sellerId, books) == prev;
      }
    }
  }

  lemma TallyItemsTotals(t: Tally, o: Order, items: seq<OrderItem>, sellerId: string, books: map<string, Book>)
    ensures TallyItems(t, o, items, sellerId, books).totalPurchases == t.totalPurchases + Sum(SellerItems(items, sellerId), Quantity)
    ensures TallyItems(t, o, items, sellerId, books).totalRevenue == t.totalRevenue + Sum(SellerItems(items, sellerId), LineRevenue)
  {
    TallyItemsPurchases(t, o, items, sellerId, books);
    TallyItemsRevenue(t, o, items, sellerId, books);
  }

  lemma {:induction false} TallyItemsKeep(t: Tally, o: Order, items: seq<OrderItem>, sellerId: string, books: map<string, Book>)
    ensures TallyItems(t, o, items, sellerId, books).buyers == t.buyers
    ensures TallyItems(t, o, items, sellerId, books).fulfilled == t.fulfilled
  {
    if items != [] {
      TallyItemsKeep(t, o, items[..|items| - 1], sellerId, books);
    }
  }

  lemma {:induction false} TallyItemsUsers(t: Tally, o: Order, items: seq<OrderItem>, sellerId: string, books: map<string, Book>)
    ensures var m := TallyItems(t, o, items, sellerId, books).userPurchases;
            && m.Keys == t.userPurchases.Keys + (if |SellerItems(items, sellerId)| > 0 then {o.userId} else {})
            && Count(m, o.userId) == Count(t.userPurchases, o.userId) + |SellerItems(items, sellerId)|
            && (forall u :: u != o.userId ==> Count(m, u) == Count(t.userPurchases, u))
  {
    if items != [] {
      TallyItemsUsers(t, o, items[..|items| - 1], sellerId, books);
      SellerItemsLast(items, sellerId);
    }
  }

  /** `totalPurchases` and `totalRevenue` add up quantity and quantity
      times price over the seller's items of every order. */
  lemma {:induction false} TallyTotals(orders: seq<Order>, sellerId: string, books: map<string, Book>)
    ensures TallyOrders(orders, sellerId, books).totalPurchases == Sum(orders, PurchasesIn(sellerId))
    ensures TallyOrders(orders, sellerId, books).totalRevenue == Sum(orders, RevenueIn(sellerId))
  {
    if orders != [] {
      var init, last := orders[..|orders| - 1], orders[|orders| - 1];
      TallyTotals(init, sellerId, books);
      TallyItemsTotals(TallyOrders(init, sellerId, books), last, last.items, sellerId, books);
    }
  }

  /** A user's purchase count rises by one per item of the seller, not per
      order. */
  lemma {:induction false} TallyUserCounts(orders: seq<Order>, sellerId: string, books: map<string, Book>)
    ensures forall u :: Count(TallyOrders(orders, sellerId, books).userPurchases, u) == Sum(orders, ItemsBoughtBy(u, sellerId))
  {
    if orders != [] {
      var init, last := orders[..|orders| - 1], orders[|orders| - 1];
      TallyUserCounts(init, sellerId, books);
      TallyItemsUsers(TallyOrders(init, sellerId, books), last, last.items, sellerId, books);
    }
  }

  /** The buyers are exactly the users with an order holding an item of the
      seller. */
  lemma {:induction false} TallyBuyerSet(orders: seq<Order>, sellerId: string, books: map<string, Book>)
    ensures forall u :: u in TallyOrders(orders, sellerId, books).buyers <==> BoughtFromSeller(orders, u, sellerId)
  {
    if orders != [] {
      var init, last := orders[..|orders| - 1], orders[|orders| - 1];
      TallyBuyerSet(init, sellerId, books);
      TallyItemsKeep(TallyOrders(init, sellerId, books), last, last.items, sellerId, books);
      forall u
        ensures u in TallyOrders(orders, sellerId, books).buyers <==> BoughtFromSeller(orders, u, sellerId)
      {
        if BoughtFromSeller(orders, u, sellerId) {
          var i :| 0 <= i < |orders| && orders[i].userId == u && HasSellerItem(orders[i].items, sellerId);
          if i < |init| {
            assert init[i] == orders[i];
          }
        }
        if BoughtFromSeller(init, u, sellerId) {
          var i :| 0 <= i < |init| && init[i].userId == u && HasSellerItem(init[i].items, sellerId);
          assert orders[i] == init[i];
        }
        if u == last.userId && HasSellerItem(last.items, sellerId) {
          assert orders[|orders| - 1] == last;
        }
      }
    }
  }

  /** The users with a purchase count are the buyers. */
  lemma {:induction false} TallyUserKeys(orders: seq<Order>, sellerId: string, books: map<string, Book>)
    ensures TallyOrders(orders, sellerId, books).userPurchases.Keys == TallyOrders(orders, sellerId, books).buyers
  {
    if orders != [] {
      var init, last := orders[..|orders| - 1], orders[|orders| - 1];
      TallyUserKeys(init, sellerId, books);
      var t := TallyOrders(init, sellerId, books);
      TallyItemsUsers(t, last, last.items, sellerId, books);
      TallyItemsKeep(t, last, last.items, sellerId, books);
      HasSellerItemIffSome(last.items, sellerId);
    }
  }

  /** The three facts about buyers together. */
  lemma TallyBuyers(orders: seq<Order>, sellerId: string, books: map<string, Book>)
    ensures forall u :: Count(TallyOrders(orders, sellerId, books).userPurchases, u) == Sum(orders, ItemsBoughtBy(u, sellerId))
    ensures forall u :: u in TallyOrders(orders, sellerId, books).buyers <==> BoughtFromSeller(orders, u, sellerId)
    ensures TallyOrders(orders, sellerId, books).userPurchases.Keys == TallyOrders(orders, sellerId, books).buyers
  {
    TallyUserCounts(orders, sellerId, books);
    TallyBuyerSet(orders, sellerId, books);
    TallyUserKeys(orders, sellerId, books);
  }

  predicate InvolvesSeller(o: Order, sellerId: string) {
    HasSellerItem(o.items, sellerId)
  }

  function Involving(sellerId: string): Order -> bool {
    (o: Order) => InvolvesSeller(o, sellerId)
  }

  /** The entry each listed order gets. */
  function FulfillmentEntries(os: seq<Order>): (r: seq<FulfillmentEntry>)
    ensures |r| == |os|
    ensures forall i :: 0 <= i < |os| ==> r[i] == FulfillmentEntry(os[i].id, FulfillmentDelay)
  {
    seq(|os|, i requires 0 <= i < |os| => FulfillmentEntry(os[i].id, FulfillmentDelay))
  }

  /** The fulfilment list holds, in order, one entry with the fixed delay
      for each order that holds an item of the seller, and for no other. */
  lemma {:induction false} TallyFulfilled(orders: seq<Order>, sellerId: string, books: map<string, Book>)
    ensures TallyOrders(orders, sellerId, books).fulfilled == FulfillmentEntries(Filter(orders, Involving(sellerId)))
  {
    if orders != [] {
      var init, last := orders[..|orders| - 1], orders[|orders| - 1];
      TallyFulfilled(init, sellerId, books);
      TallyItemsKeep(TallyOrders(init, sellerId, books), last, last.items, sellerId, books);
      var part := if InvolvesSeller(last, sellerId) then [last] else [];
      assert Filter(orders, Involving(sellerId)) == Filter(init, Involving(sellerId)) + part;
      assert FulfillmentEntries(Filter(init, Involving(sellerId)) + part)
          == FulfillmentEntries(Filter(init, Involving(sellerId))) + FulfillmentEntries(part);
    }
  }

  // ---- purchased books and book sales ----

  /** The seller's lines of every order, order after order. */
  function SellerLines(orders: seq<Order>, sellerId: string): seq<OrderItem> {
    if orders == [] then []
    else SellerLines(orders[..|orders| - 1], sellerId) + SellerItems(orders[|orders| - 1].items, sellerId)
  }

  /** `findById(item.getItemId()).ifPresent(...)` over lines: the stored
      book of each line, in order, the lines without one dropped. */
  function StoredBooks(lines: seq<OrderItem>, books: map<string, Book>): (r: seq<Book>)
    ensures |r| <= |lines|
  {
    if lines == [] then []
    else
      var last := lines[|lines| - 1];
      StoredBooks(lines[..|lines| - 1], books) + (if last.itemId in books then [books[last.itemId]] else [])
  }

  lemma {:induction false} StoredBooksAppend(a: seq<OrderItem>, b: seq<OrderItem>, books: map<string, Book>)
    ensures StoredBooks(a + b, books) == StoredBooks(a, books) + StoredBooks(b, books)
    decreases |b|
  {
    if b == [] {
      assert a + b == a;
    } else {
      assert (a + b)[..|a + b| - 1] == a + b[..|b| - 1];
      assert (a + b)[|a + b| - 1] == b[|b| - 1];
      StoredBooksAppend(a, b[..|b| - 1], books);
    }
  }

  /** What the last item adds to the stored books of the seller's items. */
  lemma StoredSellerBooksLast(items: seq<OrderItem>, sellerId: string, books: map<string, Book>)
    requires items != []
    ensures var last := items[|items| - 1];
            StoredBooks(SellerItems(items, sellerId), books)
            == StoredBooks(SellerItems(items[..|items| - 1], sellerId), books)
               + (if Sells(last, sellerId) && last.itemId in books then [books[last.itemId]] else [])
  {
    var init, last := items[..|items| - 1], items[|items| - 1];
    var part := if Sells(last, sellerId) then [last] else [];
    SellerItemsLast(items, sellerId);
    StoredBooksAppend(SellerItems(init, sellerId), part, books);
    if Sells(last, sellerId) {
      assert part[..0] == [];
    }
  }

  /** One pass of the inner loop, as far as the books are concerned. */
  lemma TallyItemBooks(prev: Tally, o: Order, last: OrderItem, sellerId: string, books: map<string, Book>)
    ensures var t := TallyItem(prev, o, last, sellerId, books);
            var hit := Sells(last, sellerId) && last.itemId in books;
            && t.purchasedBooks == prev.purchasedBooks + (if hit then [books[last.itemId]] else [])
            && t.bookSales == if hit then Merge(prev.bookSales, books[last.itemId].id, last.quantity) else prev.bookSales
  {
  }

  /** The inner loop's additions to the purchased books. */
  lemma {:induction false} TallyItemsBooks(t: Tally, o: Order, items: seq<OrderItem>, sellerId: string, books: map<string, Book>)
    ensures TallyItems(t, o, items, sellerId, books).purchasedBooks
            == t.purchasedBooks + StoredBooks(SellerItems(items, sellerId), books)
  {
    if items != [] {
      var init, last := items[..|items| - 1], items[|items| - 1];
      var prev := TallyItems(t, o, init, sellerId, books);
      var extra := if Sells(last, sellerId) && last.itemId in books then [books[last.itemId]] else [];
      TallyItemBooks(prev, o, last, sellerId, books);
      assert TallyItems(t, o, items, sellerId, books).purchasedBooks == prev.purchasedBooks + extra;
      TallyItemsBooks(t, o, init, sellerId, books);
      StoredSellerBooksLast(items, sellerId, books);
      assert prev.purchasedBooks + extra == t.purchasedBooks + (StoredBooks(SellerItems(init, sellerId), books) + extra);
    }
  }

  /** A line that `findById` resolves to the stored book with id `k`. */
  function SoldAs(k: string, books: map<string, Book>): OrderItem -> bool {
    (it: OrderItem) => it.itemId in books && books[it.itemId].id == k
  }

  /** The quantity the lines among `lines` that resolve to book `k` add up
      to. */
  function SoldQuantity(lines: seq<OrderItem>, k: string, books: map<string, Book>): int {
    Sum(Filter(lines, SoldAs(k, books)), Quantity)
  }

  lemma SoldQuantityAppend(a: seq<OrderItem>, b: seq<OrderItem>, k: string, books: map<string, Book>)
    ensures SoldQuantity(a + b, k, books) == SoldQuantity(a, k, books) + SoldQuantity(b, k, books)
    ensures |Filter(a + b, SoldAs(k, books))| == |Filter(a, SoldAs(k, books))| + |Filter(b, SoldAs(k, books))|
  {
    FilterAppend(a, b, SoldAs(k, books));
    SumAppend(Filter(a, SoldAs(k, books)), Filter(b, SoldAs(k, books)), Quantity);
  }

  /** A single line counts towards book `k` exactly when it resolves to
      it. */
  lemma SoldQuantityOneLine(line: OrderItem, k: string, books: map<string, Book>)
    ensures var hit := SoldAs(k, books)(line);
            && SoldQuantity([line], k, books) == (if hit then line.quantity else 0)
            && |Filter([line], SoldAs(k, books))| == (if hit then 1 else 0)
  {
    var hits := Filter([line], SoldAs(k, books));
    assert [line][..0] == [];
    if SoldAs(k, books)(line) {
      assert hits == [line];
      assert hits[..0] == [];
      assert Sum(hits, Quantity) == Sum(hits[..0], Quantity) + Quantity(line);
    } else {
      assert hits == [];
    }
  }

  /** What the last item adds to book `k`'s quantity over the seller's
      items. */
  lemma SoldQuantityLast(items: seq<OrderItem>, sellerId: string, k: string, books: map<string, Book>)
    requires items != []
    ensures var last := items[|items| - 1];
            var hit := Sells(last, sellerId) && SoldAs(k, books)(last);
            && SoldQuantity(SellerItems(items, sellerId), k, books)
               == SoldQuantity(SellerItems(items[..|items| - 1], sellerId), k, books) + (if hit then last.quantity else 0)
            && |Filter(SellerItems(items, sellerId), SoldAs(k, books))|
               == |Filter(SellerItems(items[..|items| - 1], sellerId), SoldAs(k, books))| + (if hit then 1 else 0)
  {
    var init, last := items[..|items| - 1], items[|items| - 1];
    var before, after := SellerItems(init, sellerId), SellerItems(items, sellerId);
    SellerItemsLast(items, sellerId);
    if Sells(last, sellerId) {
      assert after == before + [last];
      SoldQuantityAppend(before, [last], k, books);
      SoldQuantityOneLine(last, k, books);
    } else {
      assert after == before;
    }
  }

  /** The inner loop's additions to book `k`'s sales count. */
  lemma {:induction false} TallyItemsSalesAt(t: Tally, o: Order, items: seq<OrderItem>, sellerId: string, books: map<string, Book>, k: string)
    ensures Count(TallyItems(t, o, items, sellerId, books).bookSales, k)
            == Count(t.bookSales, k) + SoldQuantity(SellerItems(items, sellerId), k, books)
    ensures k in TallyItems(t, o, items, sellerId, books).bookSales
            <==> k in t.bookSales || |Filter(SellerItems(items, sellerId), SoldAs(k, books))| > 0
  {
    if items != [] {
      var init, last := items[..|items| - 1], items[|items| - 1];
      TallyItemsSalesAt(t, o, init, sellerId, books, k);
      var prev := TallyItems(t, o, init, sellerId, books);
      assert TallyItems(t, o, items, sellerId, books) == TallyItem(prev, o, last, sellerId, books);
      TallyItemBooks(prev, o, last, sellerId, books);
      SoldQuantityLast(items, sellerId, k, books);
    }
  }

  /** `purchasedBooks` holds the stored book of each of the seller's lines,
      in the order the loops visit them; lines whose id no stored book has
      add nothing. */
  lemma {:induction false} PurchasedBooksExact(orders: seq<Order>, sellerId: string, books: map<string, Book>)
    ensures TallyOrders(orders, sellerId, books).purchasedBooks == StoredBooks(SellerLines(orders, sellerId), books)
  {
    if orders != [] {
      var init, last := orders[..|orders| - 1], orders[|orders| - 1];
      PurchasedBooksExact(init, sellerId, books);
      TallyItemsBooks(TallyOrders(init, sellerId, books), last, last.items, sellerId, books);
      TallyOrdersLastBooks(orders, sellerId, books);
      StoredBooksAppend(SellerLines(init, sellerId), SellerItems(last.items, sellerId), books);
    }
  }

  /** Book `k`'s count in `sales` is the total quantity over the lines
      among `lines` that resolve to it, and `k` is counted iff there is
      such a line. */
  ghost predicate CountsSales(sales: map<string, int>, lines: seq<OrderItem>, k: string, books: map<string, Book>) {
    && Count(sales, k) == SoldQuantity(lines, k, books)
    && (k in sales <==> |Filter(lines, SoldAs(k, books))| > 0)
  }

  /** `sales` counts, for each book, the total quantity over the seller's
      lines that resolve to it, and holds exactly the books with such a
      line. */
  ghost predicate IsSalesCounter(sales: map<string, int>, orders: seq<Order>, sellerId: string, books: map<string, Book>) {
    forall k :: CountsSales(sales, SellerLines(orders, sellerId), k, books)
  }

  /** Book `k`'s sales count is the total quantity over the seller's lines
      that resolve to it, and it is counted iff there is such a line. */
  lemma {:induction false} BookSalesAt(orders: seq<Order>, sellerId: string, books: map<string, Book>, k: string)
    ensures Count(TallyOrders(orders, sellerId, books).bookSales, k) == SoldQuantity(SellerLines(orders, sellerId), k, books)
    ensures k in TallyOrders(orders, sellerId, books).bookSales <==> |Filter(SellerLines(orders, sellerId), SoldAs(k, books))| > 0
  {
    if orders != [] {
      var init, last := orders[..|orders| - 1], orders[|orders| - 1];
      BookSalesAt(init, sellerId, books, k);
      TallyItemsSalesAt(TallyOrders(init, sellerId, books), last, last.items, sellerId, books, k);
      TallyOrdersLastBooks(orders, sellerId, books);
      SoldQuantityAppend(SellerLines(init, sellerId), SellerItems(last.items, sellerId), k, books);
    }
  }

  /** Every book's sales count is the total quantity over the seller's lines
      that resolve to it, and the counted books are exactly those with such
      a line. */
  lemma BookSalesExact(orders: seq<Order>, sellerId: string, books: map<string, Book>)
    ensures IsSalesCounter(TallyOrders(orders, sellerId, books).bookSales, orders, sellerId, books)
  {
    forall k {
      BookSalesAt(orders, sellerId, books, k);
    }
  }

  /** The book sales counters are keyed by ids of stored books. */
  lemma {:induction false} BookSalesAreBooks(orders: seq<Order>, sellerId: string, books: map<string, Book>)
    requires IdsMatch(books, BookId)
    ensures TallyOrders(orders, sellerId, books).bookSales.Keys <= books.Keys
  {
    if orders != [] {
      var init, last := orders[..|orders| - 1], orders[|orders| - 1];
      BookSalesAreBooks(init, sellerId, books);
      ItemsBookSalesAreBooks(TallyOrders(init, sellerId, books), last, last.items, sellerId, books);
    }
  }

  lemma {:induction false} ItemsBookSalesAreBooks(t: Tally, o: Order, items: seq<OrderItem>, sellerId: string, books: map<string, Book>)
    requires IdsMatch(books, BookId) && t.bookSales.Keys <= books.Keys
    ensures TallyItems(t, o, items, sellerId, books).bookSales.Keys <= books.Keys
  {
    if items != [] {
      ItemsBookSalesAreBooks(t, o, items[..|items| - 1], sellerId, books);
    }
  }

  // ---- wish lists ----

  /** The wish-list entry names a stored book of the seller. */
  predicate WishesSellerBook(w: WishlistItem, sellerId: string, books: map<string, Book>) {
    EqualsIgnoreCase(w.itemType, "book") && w.itemId in books && books[w.itemId].sellerId == sellerId
  }

  function WishlistStep(m: map<string, int>, w: WishlistItem, sellerId: string, books: map<string, Book>): map<string, int> {
    if WishesSellerBook(w, sellerId, books) then Merge(m, books[w.itemId].id, 1) else m
  }

  function WishlistCounts(ws: seq<WishlistItem>, sellerId: string, books: map<string, Book>): map<string, int> {
    if ws == [] then map[] else WishlistStep(WishlistCounts(ws[..|ws| - 1], sellerId, books), ws[|ws| - 1], sellerId, books)
  }

  function WishesFor(k: string, sellerId: string, books: map<string, Book>): WishlistItem -> bool {
    (w: WishlistItem) => WishesSellerBook(w, sellerId, books) && w.itemId == k
  }

  /** A book's wish-list count is the number of wish-list entries naming it,
      and only the seller's books are counted. */
  lemma {:induction false} WishlistCountsExact(ws: seq<WishlistItem>, sellerId: string, books: map<string, Book>)
    requires IdsMatch(books, BookId)
    ensures forall k :: Count(WishlistCounts(ws, sellerId, books), k) == |Filter(ws, WishesFor(k, sellerId, books))|
    ensures forall k :: k in WishlistCounts(ws, sellerId, books) ==> k in books && books[k].sellerId == sellerId
  {
    if ws != [] {
      WishlistCountsExact(ws[..|ws| - 1], sellerId, books);
    }
  }

  // ---- average ratings ----

  /** The mean rating of each of the seller's books that has reviews. */
  function AverageRatings(books: map<string, Book>, sellerId: string): map<string, real> {
    map k | k in books && books[k].sellerId == sellerId && ReviewsOf(books[k]) != [] :: Books.MeanRating(ReviewsOf(books[k]))
  }

  /** With ratings on a 0..5 scale every average is on that scale too. */
  lemma AverageRatingsOnScale(books: map<string, Book>, sellerId: string, lo: real, hi: real)
    requires forall k, i :: k in books && 0 <= i < |ReviewsOf(books[k])| ==> lo <= ReviewsOf(books[k])[i].rating <= hi
    ensures forall k :: k in AverageRatings(books, sellerId) ==> lo <= AverageRatings(books, sellerId)[k] <= hi
  {
    forall k | k in AverageRatings(books, sellerId)
      ensures lo <= AverageRatings(books, sellerId)[k] <= hi
    {
      Books.MeanRatingBounds(ReviewsOf(books[k]), lo, hi);
    }
  }

  // ---- cart abandonment ----

  function CartsWithItems(carts: seq<Cart>, sellerId: string): seq<Cart> {
    Filter(carts, (c: Cart) => HasSellerItem(c.items, sellerId))
  }

  function CartsThatOrdered(carts: seq<Cart>, sellerId: string, buyers: set<string>): seq<Cart> {
    Filter(carts, (c: Cart) => HasSellerItem(c.items, sellerId) && c.userId in buyers)
  }

  /** Carts whose owner ordered never outnumber carts holding the seller's
      item. */
  lemma OrderedWithinHolding(carts: seq<Cart>, sellerId: string, buyers: set<string>)
    ensures |CartsThatOrdered(carts, sellerId, buyers)| <= |CartsWithItems(carts, sellerId)|
    ensures IsSubsequence(CartsThatOrdered(carts, sellerId, buyers), CartsWithItems(carts, sellerId))
  {
    var p := (c: Cart) => HasSellerItem(c.items, sellerId);
    var q := (c: Cart) => c.userId in buyers;
    FilterTwice(carts, p, q, (c: Cart) => HasSellerItem(c.items, sellerId) && c.userId in buyers);
    FilterIsSubsequence(CartsWithItems(carts, sellerId), q);
  }

  /** `(1 - ordered / withItems) * 100`, or 0 when no cart holds the
      seller's item. */
  function AbandonmentRate(withItems: nat, ordered: nat): real {
    if withItems == 0 then 0.0 else (1.0 - (ordered as real) / (withItems as real)) * 100.0
  }

  lemma AbandonmentRateBounds(withItems: nat, ordered: nat)
    requires ordered <= withItems
    ensures 0.0 <= AbandonmentRate(withItems, ordered) <= 100.0
    ensures withItems == 0 || ordered == withItems ==> AbandonmentRate(withItems, ordered) == 0.0
    ensures 0 < withItems && ordered == 0 ==> AbandonmentRate(withItems, ordered) == 100.0
  {
    if withItems > 0 {
      var w := withItems as real;
      assert 0.0 <= (ordered as real) / w <= 1.0 by {
        assert (ordered as real) <= w;
      }
    }
  }

  // ---- rankings ----

  /** `r` lists the counters of `m` once each, highest first. */
  predicate IsRankingOf(r: seq<Entry>, m: map<string, int>) {
    && SortedDesc(r) && DistinctKeys(r) && |r| == |m|
    && (forall i :: 0 <= i < |r| ==> r[i].key in m && r[i].score == m[r[i].key] as real)
  }

  /** `map(id -> findById(id).orElse(null)).filter(nonNull)`. */
  function Lookups(keys: seq<string>, books: map<string, Book>): (r: seq<Book>)
    ensures |r| <= |keys|
    ensures (forall i :: 0 <= i < |keys| ==> keys[i] in books) ==> |r| == |keys|
  {
    if keys == [] then []
    else
      var k := keys[|keys| - 1];
      Lookups(keys[..|keys| - 1], books) + (if k in books then [books[k]] else [])
  }

  /** `top` and `least` are the books of the first and the last three
      counters of some ranking, highest first, of the seller's book sales. */
  ghost predicate RanksBookSales(top: seq<Book>, least: seq<Book>, orders: seq<Order>, sellerId: string, books: map<string, Book>) {
    exists sales, r ::
      && IsSalesCounter(sales, orders, sellerId, books)
      && IsRankingOf(r, sales)
      && top == Lookups(Keys(Take(r, 3)), books)
      && least == Lookups(Keys(TakeLast(r, 3)), books)
  }

  /** `active` holds the keys of the first five counters of some ranking,
      highest first, of `purchases`. */
  ghost predicate RanksBuyers(active: seq<string>, purchases: map<string, int>) {
    exists r :: IsRankingOf(r, purchases) && active == Keys(Take(r, 5))
  }

  /** Each top-selling book sold at least as much as every book outside the
      top three. */
  lemma TopSellersOutsell(r: seq<Entry>, m: map<string, int>)
    requires IsRankingOf(r, m)
    ensures forall i, j :: 0 <= i < |Take(r, 3)| <= j < |r| ==> m[Take(r, 3)[i].key] >= m[r[j].key]
  {
    TakeDominates(r, 3);
  }

  /** The top and least selling lists hold at most three books each, and
      when fewer than six books sold they share a book. */
  lemma TopAndLeastSelling(r: seq<Entry>, m: map<string, int>, books: map<string, Book>)
    requires IsRankingOf(r, m) && m.Keys <= books.Keys
    ensures |Lookups(Keys(Take(r, 3)), books)| <= 3 && |Lookups(Keys(TakeLast(r, 3)), books)| <= 3
    ensures 0 < |m| < 6 ==> exists i, j :: 0 <= i < |Take(r, 3)| && 0 <= j < |TakeLast(r, 3)| && Take(r, 3)[i] == TakeLast(r, 3)[j]
  {
    if 0 < |m| < 6 {
      TopAndBottomOverlap(r);
    }
  }

  datatype SellerStats = SellerStats(
    totalBuyers: nat, totalPurchases: int, totalRevenue: int, purchasedBooks: seq<Book>,
    topSellingBooks: seq<Book>, leastSellingBooks: seq<Book>,
    wishlistFrequency: map<string, int>, averageRatings: map<string, real>,
    mostActiveBuyers: seq<string>, userPurchaseFrequency: map<string, int>,
    cartAbandonmentRate: real, totalOrders: nat, fulfilledOrders: seq<FulfillmentEntry>)
}
