/** OrderService.java: creating an order from checked-out items, listing a
    seller's sold items, and the seller statistics. The repositories are a
    map of books, a map of home items, and the lists of orders, carts and
    wish-list entries. */
module Orders {
  import opened Wrappers
  import opened Text
  import opened Seqs
  import opened Store
  import opened Ranking
  import opened SellerStatistics
  import Books

  const CreatedMessage := "Order created successfully"
  const FailurePrefix := "Failed to create order: "

  datatype OrderResponse = OrderResponse(success: bool, message: string, order: Option<Order>)

  /** Where an exception interrupts `createOrder`, with its message: before
      the order is saved (a lookup or the save itself), or after it (the
      cart service). */
  datatype Fault = NoFault | BeforeSave(cause: string) | AfterSave(cause: string)

  predicate IsBookItem(item: OrderItem) {
    EqualsIgnoreCase("book", item.itemType)
  }

  predicate IsHomeItem(item: OrderItem) {
    !IsBookItem(item) && EqualsIgnoreCase("home", item.itemType)
  }

  /** `createOrder` keeps a book or home item only when the matching
      catalogue has its id, and any other item unconditionally. */
  predicate Kept(item: OrderItem, books: map<string, Book>, homes: map<string, HomeItem>) {
    if IsBookItem(item) then item.itemId in books
    else if IsHomeItem(item) then item.itemId in homes
    else true
  }

  /** A kept item with its catalogue entry's seller. */
  function Stamped(item: OrderItem, books: map<string, Book>, homes: map<string, HomeItem>): OrderItem {
    if IsBookItem(item) && item.itemId in books then item.(sellerId := Some(books[item.itemId].sellerId))
    else if IsHomeItem(item) && item.itemId in homes then item.(sellerId := Some(homes[item.itemId].sellerId))
    else item
  }

  /** The item loop of `createOrder`. */
  function ProcessItems(items: seq<OrderItem>, books: map<string, Book>, homes: map<string, HomeItem>): seq<OrderItem> {
    if items == [] then []
    else
      var last := items[|items| - 1];
      ProcessItems(items[..|items| - 1], books, homes) + (if Kept(last, books, homes) then [Stamped(last, books, homes)] else [])
  }

  function StampAll(items: seq<OrderItem>, books: map<string, Book>, homes: map<string, HomeItem>): (r: seq<OrderItem>)
    ensures |r| == |items|
    ensures forall i :: 0 <= i < |items| ==> r[i] == Stamped(items[i], books, homes)
  {
    if items == [] then [] else StampAll(items[..|items| - 1], books, homes) + [Stamped(items[|items| - 1], books, homes)]
  }

  /** The processed items are the kept items, in input order, each stamped
      with its seller. */
  lemma {:induction false} ProcessItemsIsStampedFilter(items: seq<OrderItem>, books: map<string, Book>, homes: map<string, HomeItem>)
    ensures ProcessItems(items, books, homes) == StampAll(Filter(items, (it: OrderItem) => Kept(it, books, homes)), books, homes)
  {
    if items != [] {
      var init, last := items[..|items| - 1], items[|items| - 1];
      ProcessItemsIsStampedFilter(init, books, homes);
      var f := Filter(init, (it: OrderItem) => Kept(it, books, homes));
      if Kept(last, books, homes) {
        assert StampAll(f + [last], books, homes) == StampAll(f, books, homes) + [Stamped(last, books, homes)];
      } else {
        assert f + [] == f;
      }
    }
  }

  /** What each processed item carries: a book or home item its
      catalogue's seller, any other item its own fields. Nothing else
      changes. */
  lemma StampedProperties(item: OrderItem, books: map<string, Book>, homes: map<string, HomeItem>)
    requires Kept(item, books, homes)
    ensures IsBookItem(item) ==> Stamped(item, books, homes).sellerId == Some(books[item.itemId].sellerId)
    ensures IsHomeItem(item) ==> Stamped(item, books, homes).sellerId == Some(homes[item.itemId].sellerId)
    ensures !IsBookItem(item) && !IsHomeItem(item) ==> Stamped(item, books, homes) == item
    ensures Stamped(item, books, homes).(sellerId := item.sellerId) == item
  {
  }

  /** Items of types other than book and home are never dropped, and when
      every item is catalogued none is. */
  lemma {:induction false} ProcessItemsKeepsAll(items: seq<OrderItem>, books: map<string, Book>, homes: map<string, HomeItem>)
    requires forall i :: 0 <= i < |items| ==> Kept(items[i], books, homes)
    ensures ProcessItems(items, books, homes) == StampAll(items, books, homes)
  {
    ProcessItemsIsStampedFilter(items, books, homes);
    FilterAll(items, (it: OrderItem) => Kept(it, books, homes));
  }

  /** The order `createOrder` builds: the given fields unchanged (the total
      is not recomputed), the processed items, a fresh id and the time. */
  function NewOrder(id: string, userId: string, items: seq<OrderItem>, totalPrice: int, billing: Address,
                    shipping: Address, payment: Payment, now: int): (o: Order)
    ensures o.userId == userId && o.totalPrice == totalPrice && o.billing == billing
    ensures o.shipping == shipping && o.payment == payment && o.items == items
  {
    Order(id, userId, items, totalPrice, billing, shipping, payment, now)
  }

  /** A line of a seller's sold items: the order item and its order's
      creation time. */
  datatype SoldItem = SoldItem(itemId: string, itemType: string, name: string, quantity: int, price: int,
                               imageUrl: string, sellerId: Option<string>, createdAt: int)

  function AsSold(item: OrderItem, createdAt: int): SoldItem {
    SoldItem(item.itemId, item.itemType, item.name, item.quantity, item.price, item.imageUrl, item.sellerId, createdAt)
  }

  function SoldFrom(items: seq<OrderItem>, sellerId: string, createdAt: int): seq<SoldItem> {
    if items == [] then []
    else
      var last := items[|items| - 1];
      SoldFrom(items[..|items| - 1], sellerId, createdAt) + (if Sells(last, sellerId) then [AsSold(last, createdAt)] else [])
  }

  /** `getSoldItemsBySellerId`, order by order. */
  function SoldItems(orders: seq<Order>, sellerId: string): seq<SoldItem> {
    if orders == [] then []
    else
      var last := orders[|orders| - 1];
      SoldItems(orders[..|orders| - 1], sellerId) + SoldFrom(last.items, sellerId, last.createdAt)
  }

  /** `o` holds `item`, a line of the seller. */
  predicate SoldIn(s: SoldItem, orders: seq<Order>, sellerId: string) {
    exists i, j :: 0 <= i < |orders| && 0 <= j < |orders[i].items| && Sells(orders[i].items[j], sellerId)
                   && s == AsSold(orders[i].items[j], orders[i].createdAt)
  }

  /** `s` is a line of the seller among `items`. */
  predicate FromLine(s: SoldItem, items: seq<OrderItem>, sellerId: string, createdAt: int) {
    exists j :: 0 <= j < |items| && Sells(items[j], sellerId) && s == AsSold(items[j], createdAt)
  }

  /** Every listed item comes from a line of the seller. */
  lemma {:induction false} SoldFromSound(items: seq<OrderItem>, sellerId: string, createdAt: int)
    ensures forall k :: 0 <= k < |SoldFrom(items, sellerId, createdAt)| ==>
              FromLine(SoldFrom(items, sellerId, createdAt)[k], items, sellerId, createdAt)
  {
    if items != [] {
      var init := items[..|items| - 1];
      SoldFromSound(init, sellerId, createdAt);
      var a := SoldFrom(init, sellerId, createdAt);
      var r := SoldFrom(items, sellerId, createdAt);
      forall k | 0 <= k < |r|
        ensures FromLine(r[k], items, sellerId, createdAt)
      {
        if k < |a| {
          assert r[k] == a[k];
          assert FromLine(a[k], init, sellerId, createdAt);
          var j :| 0 <= j < |init| && Sells(init[j], sellerId) && a[k] == AsSold(init[j], createdAt);
          assert items[j] == init[j];
        } else {
          var j := |items| - 1;
          assert Sells(items[j], sellerId) && r[k] == AsSold(items[j], createdAt);
        }
      }
    }
  }

  /** Every line of the seller is listed. */
  lemma {:induction false} SoldFromComplete(items: seq<OrderItem>, sellerId: string, createdAt: int)
    ensures forall j :: 0 <= j < |items| && Sells(items[j], sellerId) ==> AsSold(items[j], createdAt) in SoldFrom(items, sellerId, createdAt)
  {
    if items != [] {
      var init := items[..|items| - 1];
      SoldFromComplete(init, sellerId, createdAt);
      var r := SoldFrom(items, sellerId, createdAt);
      assert r == SoldFrom(init, sellerId, createdAt) + (if Sells(items[|items| - 1], sellerId) then [AsSold(items[|items| - 1], createdAt)] else []);
      forall j | 0 <= j < |items| && Sells(items[j], sellerId)
        ensures AsSold(items[j], createdAt) in r
      {
        if j < |init| {
          assert items[j] == init[j];
          assert AsSold(init[j], createdAt) in SoldFrom(init, sellerId, createdAt);
        }
      }
    }
  }

  lemma {:induction false} SoldFromLength(items: seq<OrderItem>, sellerId: string, createdAt: int)
    ensures |SoldFrom(items, sellerId, createdAt)| == |SellerItems(items, sellerId)|
  {
    if items != [] {
      SoldFromLength(items[..|items| - 1], sellerId, createdAt);
      SellerItemsLast(items, sellerId);
    }
  }

  lemma SoldFromExact(items: seq<OrderItem>, sellerId: string, createdAt: int)
    ensures forall k :: 0 <= k < |SoldFrom(items, sellerId, createdAt)| ==>
              FromLine(SoldFrom(items, sellerId, createdAt)[k], items, sellerId, createdAt)
    ensures forall j :: 0 <= j < |items| && Sells(items[j], sellerId) ==> AsSold(items[j], createdAt) in SoldFrom(items, sellerId, createdAt)
    ensures |SoldFrom(items, sellerId, createdAt)| == |SellerItems(items, sellerId)|
  {
    SoldFromSound(items, sellerId, createdAt);
    SoldFromComplete(items, sellerId, createdAt);
    SoldFromLength(items, sellerId, createdAt);
  }

  /** Every sold item is a line of the seller in some order, stamped with
      that order's time, and every such line is listed. */
  lemma {:induction false} SoldItemsExact(orders: seq<Order>, sellerId: string)
    ensures forall k :: 0 <= k < |SoldItems(orders, sellerId)| ==>
              SoldItems(orders, sellerId)[k].sellerId == Some(sellerId) && SoldIn(SoldItems(orders, sellerId)[k], orders, sellerId)
    ensures forall i, j :: 0 <= i < |orders| && 0 <= j < |orders[i].items| && Sells(orders[i].items[j], sellerId) ==>
              AsSold(orders[i].items[j], orders[i].createdAt) in SoldItems(orders, sellerId)
  {
    if orders != [] {
      var init, last := orders[..|orders| - 1], orders[|orders| - 1];
      SoldItemsExact(init, sellerId);
      SoldFromExact(last.items, sellerId, last.createdAt);
      var r := SoldItems(orders, sellerId);
      var a := SoldItems(init, sellerId);
      forall k | 0 <= k < |r|
        ensures r[k].sellerId == Some(sellerId) && SoldIn(r[k], orders, sellerId)
      {
        if k < |a| {
          var i, j :| 0 <= i < |init| && 0 <= j < |init[i].items| && Sells(init[i].items[j], sellerId)
                      && a[k] == AsSold(init[i].items[j], init[i].createdAt);
          assert orders[i] == init[i];
        } else {
          var b := SoldFrom(last.items, sellerId, last.createdAt);
          assert r[k] == b[k - |a|];
          assert FromLine(b[k - |a|], last.items, sellerId, last.createdAt);
          var j :| 0 <= j < |last.items| && Sells(last.items[j], sellerId) && b[k - |a|] == AsSold(last.items[j], last.createdAt);
          assert orders[|orders| - 1] == last;
        }
      }
      forall i, j | 0 <= i < |orders| && 0 <= j < |orders[i].items| && Sells(orders[i].items[j], sellerId)
        ensures AsSold(orders[i].items[j], orders[i].createdAt) in r
      {
        if i < |init| {
          assert orders[i] == init[i];
        }
      }
    }
  }

  /** Listing orders in two batches lists the first batch's items first. */
  lemma {:induction false} SoldItemsAppend(a: seq<Order>, b: seq<Order>, sellerId: string)
    ensures SoldItems(a + b, sellerId) == SoldItems(a, sellerId) + SoldItems(b, sellerId)
    decreases |b|
  {
    if b == [] {
      assert a + b == a;
    } else {
      var init, last := b[..|b| - 1], b[|b| - 1];
      assert (a + b)[..|a + b| - 1] == a + init;
      assert (a + b)[|a + b| - 1] == last;
      SoldItemsAppend(a, init, sellerId);
      var tail := SoldFrom(last.items, sellerId, last.createdAt);
      calc {
        SoldItems(a + b, sellerId);
        SoldItems(a + init, sellerId) + tail;
        (SoldItems(a, sellerId) + SoldItems(init, sellerId)) + tail;
        SoldItems(a, sellerId) + (SoldItems(init, sellerId) + tail);
      }
    }
  }

  class OrderService {
    var books: map<string, Book>
    var homeItems: map<string, HomeItem>
    var orders: seq<Order>
    var carts: seq<Cart>
    var wishlistItems: seq<WishlistItem>
    /** The users whose cart the cart service was asked to empty. */
    var clearedCarts: seq<string>

    ghost predicate Valid()
      reads this
    {
      IdsMatch(books, BookId)
    }

    constructor (bs: map<string, Book>, hs: map<string, HomeItem>, os: seq<Order>, cs: seq<Cart>, ws: seq<WishlistItem>)
      requires IdsMatch(bs, BookId)
      ensures Valid()
      ensures books == bs && homeItems == hs && orders == os && carts == cs && wishlistItems == ws && clearedCarts == []
    {
      books, homeItems, orders, carts, wishlistItems := bs, hs, os, cs, ws;
      clearedCarts := [];
    }

    /** `createOrder`. `orderId` and `now` stand for the random id and the
        clock; `fault` says whether and where an exception interrupts it.
        Without one, exactly one order is saved, the user's cart is cleared
        and success is reported. An exception before the save changes
        nothing; one from the cart service comes after the order was saved.
        Either way the response is a failure carrying the cause. */
    method CreateOrder(userId: string, items: seq<OrderItem>, totalPrice: int, billing: Address, shipping: Address,
                       payment: Payment, orderId: string, now: int, fault: Fault) returns (response: OrderResponse)
      modifies this`orders, this`clearedCarts
      ensures var o := NewOrder(orderId, userId, ProcessItems(items, books, homeItems), totalPrice, billing, shipping, payment, now);
              && (fault == NoFault ==>
                    response == OrderResponse(true, CreatedMessage, Some(o))
                    && orders == old(orders) + [o] && clearedCarts == old(clearedCarts) + [userId])
              && (fault.BeforeSave? ==>
                    response == OrderResponse(false, FailurePrefix + fault.cause, None)
                    && orders == old(orders) && clearedCarts == old(clearedCarts))
              && (fault.AfterSave? ==>
                    response == OrderResponse(false, FailurePrefix + fault.cause, None)
                    && orders == old(orders) + [o] && clearedCarts == old(clearedCarts))
    {
      var processed := [];
      var i := 0;
      while i < |items|
        invariant 0 <= i <= |items|
        invariant processed == ProcessItems(items[..i], books, homeItems)
      {
        var item := items[i];
        if EqualsIgnoreCase("book", item.itemType) {
          if item.itemId in books {
            processed := processed + [item.(sellerId := Some(books[item.itemId].sellerId))];
          }
        } else if EqualsIgnoreCase("home", item.itemType) {
          if item.itemId in homeItems {
            processed := processed + [item.(sellerId := Some(homeItems[item.itemId].sellerId))];
          }
        } else {
          processed := processed + [item];
        }
        assert items[..i + 1][..i] == items[..i];
        i := i + 1;
      }
      assert items[..|items|] == items;
      if fault.BeforeSave? {
        return OrderResponse(false, FailurePrefix + fault.cause, None);
      }
      var order := NewOrder(orderId, userId, processed, totalPrice, billing, shipping, payment, now);
      orders := orders + [order];
      if fault.AfterSave? {
        return OrderResponse(false, FailurePrefix + fault.cause, None);
      }
      clearedCarts := clearedCarts + [userId];
      response := OrderResponse(true, CreatedMessage, Some(order));
    }

    /** `getSoldItemsBySellerId`. */
    method GetSoldItemsBySellerId(sellerId: string) returns (sold: seq<SoldItem>)
      ensures sold == SoldItems(orders, sellerId)
    {
      sold := [];
      var i := 0;
      while i < |orders|
        invariant 0 <= i <= |orders|
        invariant sold == SoldItems(orders[..i], sellerId)
      {
        var order := orders[i];
        var j := 0;
        ghost var before := sold;
        while j < |order.items|
          invariant 0 <= j <= |order.items|
          invariant sold == before + SoldFrom(order.items[..j], sellerId, order.createdAt)
        {
          var item := order.items[j];
          if item.sellerId == Some(sellerId) {
            sold := sold + [AsSold(item, order.createdAt)];
          }
          assert order.items[..j + 1][..j] == order.items[..j];
          j := j + 1;
        }
        assert order.items[..|order.items|] == order.items;
        assert orders[..i + 1][..i] == orders[..i];
        i := i + 1;
      }
      assert orders[..|orders|] == orders;
    }

    /** The order loop of `getSellerStats`. Its totals are sums over the
        seller's lines, its purchased books the stored books of those lines
        in order, and its fulfilment entries one per order of the seller. */
    method TallyAll(sellerId: string) returns (t: Tally)
      ensures t == TallyOrders(orders, sellerId, books)
      ensures t.totalPurchases == Sum(orders, PurchasesIn(sellerId)) && t.totalRevenue == Sum(orders, RevenueIn(sellerId))
      ensures t.purchasedBooks == StoredBooks(SellerLines(orders, sellerId), books)
      ensures t.fulfilled == FulfillmentEntries(Filter(orders, Involving(sellerId)))
    {
      t := NoTally;
      var i := 0;
      while i < |orders|
        invariant 0 <= i <= |orders|
        invariant t == TallyOrders(orders[..i], sellerId, books)
      {
        var order := orders[i];
        var sellerInOrder;
        t, sellerInOrder := TallyLines(t, order, sellerId);
        if sellerInOrder {
          t := t.(buyers := t.buyers + {order.userId}, fulfilled := t.fulfilled + [FulfillmentEntry(order.id, 4.0)]);
        }
        assert orders[..i + 1][..i] == orders[..i];
        i := i + 1;
      }
      assert orders[..|orders|] == orders;
      TallyTotals(orders, sellerId, books);
      PurchasedBooksExact(orders, sellerId, books);
      TallyFulfilled(orders, sellerId, books);
    }

    /** The item loop inside the order loop of `getSellerStats`: it also
        notes whether the seller had an item in the order. */
    method TallyLines(t0: Tally, order: Order, sellerId: string) returns (t: Tally, sellerInOrder: bool)
      ensures t == TallyItems(t0, order, order.items, sellerId, books)
      ensures sellerInOrder == HasSellerItem(order.items, sellerId)
    {
      t, sellerInOrder := t0, false;
      var j := 0;
      while j < |order.items|
        invariant 0 <= j <= |order.items|
        invariant t == TallyItems(t0, order, order.items[..j], sellerId, books)
        invariant sellerInOrder == HasSellerItem(order.items[..j], sellerId)
      {
        var item := order.items[j];
        if item.sellerId == Some(sellerId) {
          t := t.(totalPurchases := t.totalPurchases + item.quantity,
                  totalRevenue := t.totalRevenue + item.quantity * item.price);
          sellerInOrder := true;
          if item.itemId in books {
            var book := books[item.itemId];
            t := t.(purchasedBooks := t.purchasedBooks + [book], bookSales := Merge(t.bookSales, book.id, item.quantity));
          }
          t := t.(userPurchases := Merge(t.userPurchases, order.userId, 1));
        }
        assert order.items[..j + 1][..j] == order.items[..j];
        assert sellerInOrder == HasSellerItem(order.items[..j + 1], sellerId) by {
          if Sells(item, sellerId) {
            assert order.items[..j + 1][j] == item;
          }
        }
        j := j + 1;
      }
      assert order.items[..|order.items|] == order.items;
    }

    /** The wish-list loop of `getSellerStats`. */
    method CountWishlist(sellerId: string) returns (counts: map<string, int>)
      ensures counts == WishlistCounts(wishlistItems, sellerId, books)
    {
      counts := map[];
      var i := 0;
      while i < |wishlistItems|
        invariant 0 <= i <= |wishlistItems|
        invariant counts == WishlistCounts(wishlistItems[..i], sellerId, books)
      {
        var item := wishlistItems[i];
        if EqualsIgnoreCase(item.itemType, "book") && item.itemId in books {
          var book := books[item.itemId];
          if book.sellerId == sellerId {
            counts := Merge(counts, book.id, 1);
          }
        }
        assert wishlistItems[..i + 1][..i] == wishlistItems[..i];
        i := i + 1;
      }
      assert wishlistItems[..|wishlistItems|] == wishlistItems;
    }

    /** The cart loop of `getSellerStats`. */
    method CountCarts(sellerId: string, buyers: set<string>) returns (withItems: nat, ordered: nat)
      ensures withItems == |CartsWithItems(carts, sellerId)|
      ensures ordered == |CartsThatOrdered(carts, sellerId, buyers)|
      ensures ordered <= withItems
    {
      withItems, ordered := 0, 0;
      var i := 0;
      while i < |carts|
        invariant 0 <= i <= |carts|
        invariant withItems == |CartsWithItems(carts[..i], sellerId)|
        invariant ordered == |CartsThatOrdered(carts[..i], sellerId, buyers)|
      {
        var cart := carts[i];
        var has := HasSellerItem(cart.items, sellerId);
        if has {
          withItems := withItems + 1;
          if cart.userId in buyers {
            ordered := ordered + 1;
          }
        }
        assert carts[..i + 1][..i] == carts[..i];
        i := i + 1;
      }
      assert carts[..|carts|] == carts;
      OrderedWithinHolding(carts, sellerId, buyers);
    }

    /** The top and least selling books of `getSellerStats`: the first
        and the last three of the books ranked by sales. */
    method SalesRankings(sellerId: string, bookSales: map<string, int>) returns (top: seq<Book>, least: seq<Book>)
      requires bookSales == TallyOrders(orders, sellerId, books).bookSales
      ensures exists r :: IsRankingOf(r, bookSales) && top == Lookups(Keys(Take(r, 3)), books)
                                                     && least == Lookups(Keys(TakeLast(r, 3)), books)
      ensures RanksBookSales(top, least, orders, sellerId, books)
      ensures |top| <= 3 && |least| <= 3
    {
      BookSalesExact(orders, sellerId, books);
      var sales := Rank(bookSales);
      top := Lookups(Keys(Take(sales, 3)), books);
      least := Lookups(Keys(TakeLast(sales, 3)), books);
      assert IsSalesCounter(bookSales, orders, sellerId, books) && IsRankingOf(sales, bookSales);
    }

    /** `getSellerStats`. The hash-map iteration order behind the rankings
        is not specified, so the rankings are stated for some ordering of
        the counters, highest first. */
    method GetSellerStats(sellerId: string) returns (stats: SellerStats)
      ensures var t := TallyOrders(orders, sellerId, books);
              && stats.totalBuyers == |t.buyers|
              && stats.userPurchaseFrequency == t.userPurchases
              && RanksBuyers(stats.mostActiveBuyers, t.userPurchases)
              && stats.cartAbandonmentRate ==
                   AbandonmentRate(|CartsWithItems(carts, sellerId)|, |CartsThatOrdered(carts, sellerId, t.userPurchases.Keys)|)
      ensures stats.totalPurchases == Sum(orders, PurchasesIn(sellerId)) && stats.totalRevenue == Sum(orders, RevenueIn(sellerId))
      ensures stats.purchasedBooks == StoredBooks(SellerLines(orders, sellerId), books)
      ensures stats.fulfilledOrders == FulfillmentEntries(Filter(orders, Involving(sellerId)))
      ensures RanksBookSales(stats.topSellingBooks, stats.leastSellingBooks, orders, sellerId, books)
      ensures stats.wishlistFrequency == WishlistCounts(wishlistItems, sellerId, books)
      ensures stats.averageRatings == AverageRatings(books, sellerId)
      ensures stats.totalOrders == |orders|
      ensures |stats.topSellingBooks| <= 3 && |stats.leastSellingBooks| <= 3 && |stats.mostActiveBuyers| <= 5
      ensures 0.0 <= stats.cartAbandonmentRate <= 100.0
    {
      var t := TallyAll(sellerId);
      var top, least := SalesRankings(sellerId, t.bookSales);
      var wishes := CountWishlist(sellerId);
      var active := MostActiveBuyers(t.userPurchases);
      var withItems, ordered := CountCarts(sellerId, t.userPurchases.Keys);
      AbandonmentRateBounds(withItems, ordered);
      stats := SellerStats(|t.buyers|, t.totalPurchases, t.totalRevenue, t.purchasedBooks, top, least,
                           wishes, AverageRatings(books, sellerId), active, t.userPurchases,
                           AbandonmentRate(withItems, ordered), |orders|, t.fulfilled);
    }
  }

  /** The most active buyers of `getSellerStats`: the first five buyers
      ranked by purchase count. */
  method MostActiveBuyers(purchases: map<string, int>) returns (active: seq<string>)
    ensures RanksBuyers(active, purchases)
    ensures |active| <= 5
  {
    var r := Rank(purchases);
    active := Keys(Take(r, 5));
    assert IsRankingOf(r, purchases);
  }

  /** The entries of a counter map in unspecified order, sorted highest
      first. */
  method Rank(m: map<string, int>) returns (r: seq<Entry>)
    ensures IsRankingOf(r, m)
  {
    var scores := map k | k in m :: m[k] as real;
    assert scores.Keys == m.Keys;
    r := RankScores(scores);
  }
}
