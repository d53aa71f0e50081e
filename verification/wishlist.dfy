// The wish-list screen: the signed-in user's saved items, each with an
// "Add to Cart" and a "Remove" button, and the two status messages.

module WishlistView {
  import opened Wrappers
  import opened Text

  const ApiBaseUrl := "http://localhost:8080"

  const LoginPrompt := "Please log in to add items to the cart."
  const AddFailed := "Failed to add item to cart."
  const RemoveFailed := "Failed to remove item from wishlist."

  /** A wish-list entry as the screen receives it. */
  datatype WishlistEntry = WishlistEntry(id: string, userId: string, itemId: string, itemType: string,
                                         name: string, imageUrl: string)

  /** The variables of an add-to-cart request. */
  datatype CartRequest = CartRequest(userId: string, itemId: string, itemType: string)

  /** How a mutation ends: the server's answer message, or a failure. */
  datatype Outcome = Completed(message: string) | Failed

  /** The address the screen loads an item's picture from: an absolute
      address as it is, anything else as a path on the API server. */
  function ImageSrc(url: string): (r: string)
    ensures StartsWith(url, "http") ==> r == url
    ensures !StartsWith(url, "http") ==> StartsWith(r, ApiBaseUrl + "/") && EndsWith(r, url)
    ensures !StartsWith(url, "http") && StartsWith(url, "/") ==> r == ApiBaseUrl + url
    ensures !StartsWith(url, "http") && !StartsWith(url, "/") ==> r == ApiBaseUrl + "/" + url
    ensures StartsWith(r, "http") && EndsWith(r, url)
  {
    if StartsWith(url, "http") then url
    else ApiBaseUrl + (if StartsWith(url, "/") then "" else "/") + url
  }

  /** Resolving an already resolved address changes nothing. */
  lemma ImageSrcIdempotent(url: string)
    ensures ImageSrc(ImageSrc(url)) == ImageSrc(url)
  {
  }

  /** The state of the wish-list screen. `pendingRemovals` counts the remove
      requests still in flight: the Remove button is never disabled. */
  class WishlistScreen {
    const userId: Option<string>
    var items: seq<WishlistEntry>
    var cartMessage: string
    var removeMessage: string
    var cartLoading: bool
    var pendingRemovals: nat
    var refetches: nat

    /** Only a signed-in user can have an add-to-cart request in flight. */
    predicate Valid()
      reads this
    {
      cartLoading ==> userId.Some?
    }

    constructor (user: Option<string>)
      ensures Valid()
      ensures userId == user && items == [] && cartMessage == "" && removeMessage == ""
      ensures !cartLoading && pendingRemovals == 0 && refetches == 0
    {
      userId := user;
      items := [];
      cartMessage := "";
      removeMessage := "";
      cartLoading := false;
      pendingRemovals := 0;
      refetches := 0;
    }

    /** A new answer of the wish-list query replaces the items shown. */
    method Receive(answer: Option<seq<WishlistEntry>>)
      modifies this`items
      ensures items == (if answer.Some? then answer.value else old(items))
    {
      if answer.Some? {
        items := answer.value;
      }
    }

    /** "Remove": a remove request for the entry id. */
    method Remove(id: string) returns (request: string)
      modifies this`pendingRemovals
      ensures request == id
      ensures pendingRemovals == old(pendingRemovals) + 1
    {
      request := id;
      pendingRemovals := pendingRemovals + 1;
    }

    /** A remove request ends: its message is shown and the list is fetched
        again on success; a failure shows the failure text and refetches
        nothing. */
    method RemoveSettled(outcome: Outcome)
      requires pendingRemovals > 0
      modifies this`pendingRemovals, this`removeMessage, this`refetches
      ensures pendingRemovals == old(pendingRemovals) - 1
      ensures outcome.Completed? ==> removeMessage == outcome.message && refetches == old(refetches) + 1
      ensures outcome.Failed? ==> removeMessage == RemoveFailed && refetches == old(refetches)
    {
      pendingRemovals := pendingRemovals - 1;
      match outcome
      case Completed(message) =>
        removeMessage := message;
        refetches := refetches + 1;
      case Failed =>
        removeMessage := RemoveFailed;
    }

    /** "Add to Cart", which is disabled while a request is in flight. A
        guest gets the log-in prompt and no request; a signed-in user's
        request names them, the item and its type. */
    method AddToCart(item: WishlistEntry) returns (request: Option<CartRequest>)
      requires Valid() && !cartLoading
      modifies this`cartMessage, this`cartLoading
      ensures Valid()
      ensures userId.None? ==> request.None? && cartMessage == LoginPrompt && !cartLoading
      ensures userId.Some? ==> request == Some(CartRequest(userId.value, item.itemId, item.itemType))
                               && cartLoading && cartMessage == old(cartMessage)
    {
      if userId.None? {
        cartMessage := LoginPrompt;
        request := None;
      } else {
        cartLoading := true;
        request := Some(CartRequest(userId.value, item.itemId, item.itemType));
      }
    }

    /** The add-to-cart request ends: the server's message, or the failure
        text, and the button is enabled again. */
    method AddSettled(outcome: Outcome)
      requires Valid() && cartLoading
      modifies this`cartMessage, this`cartLoading
      ensures Valid() && !cartLoading
      ensures cartMessage == (if outcome.Completed? then outcome.message else AddFailed)
    {
      cartLoading := false;
      cartMessage := if outcome.Completed? then outcome.message else AddFailed;
    }
  }

  /** A guest pressing "Add to Cart" sends nothing, whatever happened before,
      and a later press still finds the button enabled. */
  method GuestNeverRequests(screen: WishlistScreen, a: WishlistEntry, b: WishlistEntry)
    requires screen.Valid() && screen.userId.None?
    modifies screen
    ensures screen.cartMessage == LoginPrompt && !screen.cartLoading
  {
    var first := screen.AddToCart(a);
    var second := screen.AddToCart(b);
    assert first.None? && second.None?;
  }
}
