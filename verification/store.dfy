/** The server's persisted records. Money is held in integer cents and
    ratings as reals; a timestamp is an integer. A list that may be null in
    the database is an `Option` of a sequence. */
module Store {
  import opened Wrappers

  /** A review; its `userId` may be absent. */
  datatype Review = Review(reviewer: string, comment: string, rating: real, userId: Option<string>)

  datatype Book = Book(id: string, title: string, author: string, totalQuantity: int, price: int,
                       imageUrl: string, description: string, sellerId: string,
                       reviews: Option<seq<Review>>, ratings: real)

  datatype HomeItem = HomeItem(id: string, title: string, itemType: string, description: string,
                               totalQuantity: int, price: int, imageUrl: string,
                               manufacturer: string, sellerId: string,
                               reviews: Option<seq<Review>>)

  /** A line of a cart or of an order; `sellerId` may be absent. */
  datatype OrderItem = OrderItem(itemId: string, itemType: string, name: string, quantity: int,
                                 price: int, imageUrl: string, sellerId: Option<string>)

  datatype Address = Address(street: string, city: string, state: string, zip: string, country: string)

  datatype Payment = Payment(cardNumber: string, expiry: string, cvv: string)

  datatype Order = Order(id: string, userId: string, items: seq<OrderItem>, totalPrice: int,
                         billing: Address, shipping: Address, payment: Payment, createdAt: int)

  datatype Cart = Cart(userId: string, items: seq<OrderItem>)

  datatype WishlistItem = WishlistItem(itemId: string, itemType: string)

  /** The review list of a book, a null list read as empty. */
  function ReviewsOf(b: Book): (r: seq<Review>)
    ensures b.reviews.Some? ==> r == b.reviews.value
    ensures b.reviews.None? ==> r == []
  {
    b.reviews.GetOr([])
  }

  /** The fields through which the book and home-item repositories are
      queried. */
  function BookId(b: Book): string { b.id }
  function BookTitle(b: Book): string { b.title }
  function BookSeller(b: Book): string { b.sellerId }
  function HomeItemId(h: HomeItem): string { h.id }
  function HomeItemTitle(h: HomeItem): string { h.title }
  function HomeItemSeller(h: HomeItem): string { h.sellerId }

  /** Every record of a repository is stored under its own id. */
  predicate IdsMatch<T>(records: map<string, T>, idOf: T -> string) {
    forall k :: k in records ==> idOf(records[k]) == k
  }

  /** The keys of the stored records a `findByTitleAndSellerId` query
      matches: exactly that title and that seller. */
  function TitleMatches<T>(records: map<string, T>, titleOf: T -> string, sellerOf: T -> string,
                           title: string, sellerId: string): set<string>
  {
    set k | k in records && titleOf(records[k]) == title && sellerOf(records[k]) == sellerId
  }

  /** No two stored records share both title and seller. */
  ghost predicate UniqueTitleSeller<T>(records: map<string, T>, titleOf: T -> string, sellerOf: T -> string) {
    forall k1, k2 :: k1 in records && k2 in records && k1 != k2 ==>
      !(titleOf(records[k1]) == titleOf(records[k2]) && sellerOf(records[k1]) == sellerOf(records[k2]))
  }

  /** Storing a new record whose title and seller no stored record has,
      which is what an upload does once its lookup found nothing, keeps the
      pair unique. */
  lemma UploadKeepsUnique<T>(records: map<string, T>, titleOf: T -> string, sellerOf: T -> string,
                             newId: string, x: T)
    requires UniqueTitleSeller(records, titleOf, sellerOf) && newId !in records
    requires TitleMatches(records, titleOf, sellerOf, titleOf(x), sellerOf(x)) == {}
    ensures UniqueTitleSeller(records[newId := x], titleOf, sellerOf)
  {
    forall k | k in records
      ensures !(titleOf(records[k]) == titleOf(x) && sellerOf(records[k]) == sellerOf(x))
    {
      assert k !in TitleMatches(records, titleOf, sellerOf, titleOf(x), sellerOf(x));
    }
  }
}
