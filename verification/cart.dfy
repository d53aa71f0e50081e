/** The cart screen's mutation coordinator (CartScreen.jsx): the +/- buttons
    issue add/remove mutations one at a time behind the `isProcessing`
    flag, every settled mutation writes a per-item message, and each
    completed mutation schedules the deletion of that item's message 3000 ms
    later and re-fetches the cart. Timers are explicit: a list of pending
    (deadline, itemId) deletions and a clock that only the environment
    advances. */
module Cart {
  import opened Wrappers
  import opened Text
  import opened Seqs

  /** One cart line as the cart query returns it; prices are in cents. */
  datatype CartItem = CartItem(itemId: string, itemType: string, name: string,
                               quantity: int, price: int, imageUrl: string)

  /** What the cart screen hands to checkout. */
  datatype Handoff = Handoff(cartItems: seq<CartItem>, totalPrice: int)

  datatype Mutation = AddOne | RemoveOne

  /** How a mutation settles: the server answered (its `success` flag is not
      read by the screen), or the call threw (network or GraphQL error, or a
      response without the expected field). */
  datatype MutationOutcome = Responded(success: bool, message: Option<string>) | Threw(error: string)

  /** A pending `setTimeout` that deletes `itemId`'s message at `deadline`. */
  datatype Timer = Timer(deadline: int, itemId: string)

  /** Some pending timer deletes `itemId`'s message. */
  predicate Scheduled(timers: seq<Timer>, itemId: string) {
    exists i :: 0 <= i < |timers| && timers[i].itemId == itemId
  }

  lemma ScheduledAppend(timers: seq<Timer>, t: Timer, itemId: string)
    ensures Scheduled(timers + [t], itemId) <==> Scheduled(timers, itemId) || t.itemId == itemId
  {
    if Scheduled(timers, itemId) {
      var i :| 0 <= i < |timers| && timers[i].itemId == itemId;
      assert (timers + [t])[i] == timers[i];
    }
    if t.itemId == itemId {
      assert (timers + [t])[|timers|] == t;
    }
  }

  /** Firing the first timer leaves every other item's timers pending. */
  lemma ScheduledAfterFirst(timers: seq<Timer>, itemId: string)
    requires timers != [] && Scheduled(timers, itemId) && timers[0].itemId != itemId
    ensures Scheduled(timers[1..], itemId)
  {
    var i :| 0 <= i < |timers| && timers[i].itemId == itemId;
    assert timers[1..][i - 1] == timers[i];
  }

  /** The deadlines never decrease along the queue, starting at or after
      `floor`, and none lies after `ceiling`. */
  predicate Queued(timers: seq<Timer>, floor: int, ceiling: int)
    decreases |timers|
  {
    timers == [] || (floor <= timers[0].deadline <= ceiling && Queued(timers[1..], timers[0].deadline, ceiling))
  }

  /** The deadlines never decrease along the queue, and every pending
      deletion fires within the next 3000 ms after `clock`. */
  predicate TimersPending(timers: seq<Timer>, clock: int) {
    Queued(timers, clock, clock + MessageLifetime)
  }

  /** A queue stays ordered under a lower floor and a higher ceiling. */
  lemma {:induction false} QueuedWiden(timers: seq<Timer>, floor: int, ceiling: int, floor': int, ceiling': int)
    requires Queued(timers, floor, ceiling) && floor' <= floor && ceiling <= ceiling'
    ensures Queued(timers, floor', ceiling')
    decreases |timers|
  {
    if timers != [] {
      QueuedWiden(timers[1..], timers[0].deadline, ceiling, timers[0].deadline, ceiling');
    }
  }

  /** A deadline at the ceiling may join the end of the queue. */
  lemma {:induction false} QueuedAppend(timers: seq<Timer>, floor: int, ceiling: int, t: Timer)
    requires Queued(timers, floor, ceiling) && floor <= t.deadline == ceiling
    ensures Queued(timers + [t], floor, ceiling)
    decreases |timers|
  {
    if timers == [] {
      assert [t][1..] == [];
    } else {
      assert (timers + [t])[1..] == timers[1..] + [t];
      QueuedAppend(timers[1..], timers[0].deadline, ceiling, t);
    }
  }

  /** Every deadline of an ordered queue lies between its floor and its
      ceiling, and none is earlier than the first. */
  lemma {:induction false} QueuedBounds(timers: seq<Timer>, floor: int, ceiling: int, i: nat)
    requires Queued(timers, floor, ceiling) && i < |timers|
    ensures floor <= timers[0].deadline <= timers[i].deadline <= ceiling
    decreases i
  {
    if i > 0 {
      QueuedBounds(timers[1..], timers[0].deadline, ceiling, i - 1);
    }
  }

  /** A deletion scheduled now, 3000 ms ahead, joins the queue at its
      end. */
  lemma TimersPendingAppend(timers: seq<Timer>, clock: int, itemId: string)
    requires TimersPending(timers, clock)
    ensures TimersPending(timers + [Timer(clock + MessageLifetime, itemId)], clock)
  {
    QueuedAppend(timers, clock, clock + MessageLifetime, Timer(clock + MessageLifetime, itemId));
  }

  /** Firing the first deletion moves the clock to its deadline; the rest
      of the queue still fires in order within the next 3000 ms. */
  lemma TimersPendingAfterFire(timers: seq<Timer>, clock: int)
    requires timers != [] && TimersPending(timers, clock)
    ensures TimersPending(timers[1..], timers[0].deadline)
  {
    QueuedWiden(timers[1..], timers[0].deadline, clock + MessageLifetime, timers[0].deadline, timers[0].deadline + MessageLifetime);
  }

  /** Time passing up to the first deadline keeps every deletion within
      the next 3000 ms. */
  lemma TimersPendingLater(timers: seq<Timer>, clock: int, now: int)
    requires TimersPending(timers, clock) && clock <= now && (timers == [] || now <= timers[0].deadline)
    ensures TimersPending(timers, now)
  {
    if timers != [] {
      QueuedWiden(timers[1..], timers[0].deadline, clock + MessageLifetime, timers[0].deadline, now + MessageLifetime);
    }
  }

  /** Every message a completed mutation wrote still has a pending
      deletion. */
  predicate DeletionsPending(messages: map<string, string>, fromCompletion: set<string>, timers: seq<Timer>) {
    forall k :: k in messages && k in fromCompletion ==> Scheduled(timers, k)
  }

  /** A completion writes its item's message and schedules its deletion. */
  lemma DeletionsAfterCompletion(messages: map<string, string>, fromCompletion: set<string>, timers: seq<Timer>,
                                 itemId: string, text: string, deadline: int)
    requires DeletionsPending(messages, fromCompletion, timers)
    ensures DeletionsPending(messages[itemId := text], fromCompletion + {itemId}, timers + [Timer(deadline, itemId)])
  {
    forall k | k in messages[itemId := text] && k in fromCompletion + {itemId}
      ensures Scheduled(timers + [Timer(deadline, itemId)], k)
    {
      ScheduledAppend(timers, Timer(deadline, itemId), k);
    }
  }

  /** The first deletion fires: its item's message goes, and every other
      completed message keeps a later deletion. */
  lemma DeletionsAfterFire(messages: map<string, string>, fromCompletion: set<string>, timers: seq<Timer>)
    requires timers != [] && DeletionsPending(messages, fromCompletion, timers)
    ensures DeletionsPending(messages - {timers[0].itemId}, fromCompletion, timers[1..])
  {
    forall k | k in messages - {timers[0].itemId} && k in fromCompletion
      ensures Scheduled(timers[1..], k)
    {
      ScheduledAfterFirst(timers, k);
    }
  }

  const MessageLifetime := 3000
  const AddedMessage := "Item added to cart!"
  const RemovedMessage := "Item removed from cart!"
  const AddFailedMessage := "Failed to add item."
  const RemoveFailedMessage := "Failed to remove item."

  function LineTotal(item: CartItem): int {
    item.price * item.quantity
  }

  /** `cartItems.reduce((total, item) => total + item.price * item.quantity, 0)`. */
  function TotalPrice(items: seq<CartItem>): int {
    Sum(items, LineTotal)
  }

  /** The total of a cart made of two parts is the sum of their totals, and
      a cart of non-negative prices and quantities has a non-negative total. */
  lemma TotalPriceProperties(a: seq<CartItem>, b: seq<CartItem>)
    ensures TotalPrice(a + b) == TotalPrice(a) + TotalPrice(b)
    ensures (forall i :: 0 <= i < |a| ==> a[i].price >= 0 && a[i].quantity >= 0) ==> TotalPrice(a) >= 0
  {
    SumAppend(a, b, LineTotal);
    if forall i :: 0 <= i < |a| ==> a[i].price >= 0 && a[i].quantity >= 0 {
      SumNonNegative(a, LineTotal);
    }
  }

  /** The message stored when a mutation completes: the server's text, or a
      default when it sent none or an empty one. */
  function CompletedMessage(kind: Mutation, message: Option<string>): (text: string)
    ensures text != ""
    ensures message.Some? && message.value != "" ==> text == message.value
  {
    if message.Some? && message.value != "" then message.value
    else if kind == AddOne then AddedMessage else RemovedMessage
  }

  /** The fixed text stored when a mutation throws. */
  function FailedMessage(kind: Mutation): string {
    if kind == AddOne then AddFailedMessage else RemoveFailedMessage
  }

  /** A message is styled as an error iff its text contains "Failed". */
  predicate IsErrorMessage(text: string) {
    Contains(text, "Failed")
  }

  /** Both failure texts are styled as errors. */
  lemma FailureTextsAreErrors()
    ensures IsErrorMessage(AddFailedMessage) && IsErrorMessage(RemoveFailedMessage)
  {
    assert AddFailedMessage[..6] == "Failed";
    assert RemoveFailedMessage[..6] == "Failed";
  }

  /** Both default completion texts are styled as successes. */
  lemma DefaultTextsAreNotErrors()
    ensures !IsErrorMessage(AddedMessage) && !IsErrorMessage(RemovedMessage)
  {
    assert 'F' !in AddedMessage && 'F' !in RemovedMessage;
    NotContainsWithoutFirstChar(AddedMessage, "Failed");
    NotContainsWithoutFirstChar(RemovedMessage, "Failed");
  }

  class CartCoordinator {
    /** The cart as last fetched. */
    var items: seq<CartItem>
    /** `cartMessages`: itemId to message text. */
    var messages: map<string, string>
    var isProcessing: bool
    /** Pending message deletions, in scheduling order. */
    var timers: seq<Timer>
    /** The current time in milliseconds. */
    var clock: int
    /** How many cart re-fetches the screen has requested. */
    var refetches: nat
    /** A requested re-fetch has not landed yet: the screen shows only its
        loading text (`networkStatus === 4`). */
    var refetchPending: bool
    /** The mutation awaiting its outcome, if any. */
    var inFlight: Option<(Mutation, string)>
    /** Items whose current message was written by a completed mutation. */
    ghost var fromCompletion: set<string>

    ghost predicate Valid()
      reads this
    {
      && (isProcessing <==> inFlight.Some?)
      && (isProcessing ==> !refetchPending)
      && TimersPending(timers, clock)
      && DeletionsPending(messages, fromCompletion, timers)
    }

    /** The +, - and Proceed to Checkout buttons are on screen and
        enabled: the cart is not loading, not empty, and no mutation is in
        flight. */
    predicate ControlsEnabled()
      reads this
    {
      !isProcessing && !refetchPending && items != []
    }

    /** The item has a row, and so a + and a - button. */
    predicate Listed(itemId: string)
      reads this
    {
      exists i :: 0 <= i < |items| && items[i].itemId == itemId
    }

    /** The screen once the first fetch has landed. */
    constructor (now: int, fetched: seq<CartItem>)
      ensures Valid()
      ensures items == fetched && messages == map[] && !isProcessing && !refetchPending
      ensures timers == [] && clock == now && refetches == 0
    {
      items := fetched;
      messages := map[];
      isProcessing := false;
      timers := [];
      clock := now;
      refetches := 0;
      refetchPending := false;
      inFlight := None;
      fromCompletion := {};
    }

    /** A click on + or - of a listed item: the handler sets
        `isProcessing` and issues the mutation. The buttons are disabled
        while a mutation is in flight and absent while the cart loads. */
    method Start(kind: Mutation, itemId: string)
      requires Valid() && ControlsEnabled() && Listed(itemId)
      modifies this
      ensures Valid()
      ensures isProcessing && inFlight == Some((kind, itemId))
      ensures items == old(items) && messages == old(messages) && timers == old(timers)
      ensures clock == old(clock) && refetches == old(refetches) && !refetchPending
    {
      isProcessing := true;
      inFlight := Some((kind, itemId));
    }

    /** The in-flight mutation settles. A response (whatever its `success`
        flag) stores the server message or the default under that item
        only, schedules its deletion 3000 ms later and re-fetches; a throw
        stores the fixed failure text, schedules nothing and does not
        re-fetch. Either way `isProcessing` is reset. */
    method Settle(outcome: MutationOutcome)
      requires Valid() && inFlight.Some?
      modifies this
      ensures Valid()
      ensures !isProcessing && inFlight == None
      ensures var (kind, itemId) := old(inFlight.value);
        match outcome
        case Responded(_, message) =>
          && messages == old(messages)[itemId := CompletedMessage(kind, message)]
          && timers == old(timers) + [Timer(old(clock) + MessageLifetime, itemId)]
          && refetches == old(refetches) + 1 && refetchPending
        case Threw(_) =>
          && messages == old(messages)[itemId := FailedMessage(kind)]
          && timers == old(timers)
          && refetches == old(refetches) && !refetchPending
      ensures items == old(items) && clock == old(clock)
    {
      var (kind, itemId) := inFlight.value;
      match outcome {
        case Responded(_, message) =>
          Completed(kind, itemId, message);
        case Threw(_) =>
          Failed(kind, itemId);
      }
    }

    /** The awaited mutation returned: the rest of the `try` block of
        either handler, then its `finally`. */
    method Completed(kind: Mutation, itemId: string, message: Option<string>)
      requires Valid() && inFlight == Some((kind, itemId))
      modifies this
      ensures Valid() && !isProcessing && inFlight == None
      ensures messages == old(messages)[itemId := CompletedMessage(kind, message)]
      ensures timers == old(timers) + [Timer(old(clock) + MessageLifetime, itemId)]
      ensures refetches == old(refetches) + 1 && refetchPending
      ensures items == old(items) && clock == old(clock)
    {
      var text := CompletedMessage(kind, message);
      TimersPendingAppend(timers, clock, itemId);
      DeletionsAfterCompletion(messages, fromCompletion, timers, itemId, text, clock + MessageLifetime);
      messages := messages[itemId := text];
      timers := timers + [Timer(clock + MessageLifetime, itemId)];
      refetches := refetches + 1;
      refetchPending := true;
      fromCompletion := fromCompletion + {itemId};
      isProcessing := false;
      inFlight := None;
    }

    /** The awaited mutation threw: the `catch` block of either handler,
        then its `finally`. */
    method Failed(kind: Mutation, itemId: string)
      requires Valid() && inFlight == Some((kind, itemId))
      modifies this
      ensures Valid() && !isProcessing && inFlight == None
      ensures messages == old(messages)[itemId := FailedMessage(kind)]
      ensures timers == old(timers) && refetches == old(refetches) && !refetchPending
      ensures items == old(items) && clock == old(clock)
    {
      messages := messages[itemId := FailedMessage(kind)];
      fromCompletion := fromCompletion - {itemId};
      isProcessing := false;
      inFlight := None;
    }

    /** Time passes, up to (not beyond) the earliest pending deadline. */
    method Tick(now: int)
      requires Valid() && now >= clock
      requires timers == [] || now <= timers[0].deadline
      modifies this`clock
      ensures Valid() && clock == now
    {
      TimersPendingLater(timers, clock, now);
      clock := now;
    }

    /** The earliest pending timer fires: the clock reaches its deadline and
        the item's entry is deleted unconditionally, even when a newer
        message has replaced the one that scheduled it. Deleting an absent
        key changes nothing; other keys are never touched. */
    method Fire()
      requires Valid() && timers != []
      modifies this
      ensures Valid()
      ensures clock == old(timers[0].deadline)
      ensures messages == old(messages) - {old(timers[0].itemId)}
      ensures timers == old(timers[1..])
      ensures items == old(items) && isProcessing == old(isProcessing) && inFlight == old(inFlight)
      ensures refetches == old(refetches) && refetchPending == old(refetchPending)
    {
      var t := timers[0];
      TimersPendingAfterFire(timers, clock);
      DeletionsAfterFire(messages, fromCompletion, timers);
      clock := t.deadline;
      messages := messages - {t.itemId};
      timers := timers[1..];
    }

    /** A re-fetch delivers the authoritative cart and the screen leaves
        its loading state; messages and timers survive it. */
    method Fetched(fetched: seq<CartItem>)
      requires Valid()
      modifies this`items, this`refetchPending
      ensures Valid() && items == fetched && !refetchPending
    {
      items := fetched;
      refetchPending := false;
    }

    /** Proceed to Checkout, shown only beside a non-empty, loaded cart,
        hands over the fetched items and their total. */
    method ProceedToCheckout() returns (h: Handoff)
      requires Valid() && ControlsEnabled()
      ensures h.cartItems == items
      ensures h.totalPrice == TotalPrice(items)
    {
      h := Handoff(items, TotalPrice(items));
    }
  }

  /** Two completed adds of one item, 2000 ms apart: the first add's timer
      erases the second add's message after only 1000 ms, because deletion
      is by key and superseded timers are not cancelled. */
  method StaleTimerErasesNewerMessage() returns (setAt: int, erasedAt: int, shownBefore: bool, shownAfter: bool)
    ensures shownBefore && !shownAfter
    ensures erasedAt - setAt == 1000 < MessageLifetime
  {
    var c := new CartCoordinator(0, [CartItem("b1", "book", "B", 2, 1000, "")]);
    assert c.items[0].itemId == "b1";
    c.Start(AddOne, "b1");
    c.Settle(Responded(true, Some("Item added to cart!")));
    c.Fetched([CartItem("b1", "book", "B", 3, 1000, "")]);
    c.Tick(2000);
    assert c.items[0].itemId == "b1";
    c.Start(AddOne, "b1");
    c.Settle(Responded(true, Some("Added again")));
    c.Fetched([CartItem("b1", "book", "B", 4, 1000, "")]);
    setAt := c.clock;
    shownBefore := "b1" in c.messages && c.messages["b1"] == "Added again";
    c.Fire();
    erasedAt := c.clock;
    shownAfter := "b1" in c.messages;
  }

  /** A failure message written after a completed mutation of the same item
      is erased by the completed mutation's timer, while a failure with no
      earlier timer pending stays until it is overwritten. */
  method FailureMessageLifetime() returns (erasedByOldTimer: bool, pendingAfterSecondFailure: nat, failureShown: bool)
    ensures erasedByOldTimer && pendingAfterSecondFailure == 0 && failureShown
  {
    var c := new CartCoordinator(0, [CartItem("h1", "home", "Lamp", 3, 2500, "")]);
    assert c.items[0].itemId == "h1";
    c.Start(RemoveOne, "h1");
    c.Settle(Responded(true, None));
    c.Fetched([CartItem("h1", "home", "Lamp", 2, 2500, "")]);
    c.Tick(1000);
    assert c.items[0].itemId == "h1";
    c.Start(RemoveOne, "h1");
    c.Settle(Threw("network"));
    c.Fire();
    erasedByOldTimer := "h1" !in c.messages;
    assert c.items[0].itemId == "h1";
    c.Start(AddOne, "h1");
    c.Settle(Threw("network"));
    pendingAfterSecondFailure := |c.timers|;
    failureShown := "h1" in c.messages && c.messages["h1"] == AddFailedMessage;
  }
}
