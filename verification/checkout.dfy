/** The checkout wizard (CheckoutScreen.jsx): step 0 Shipping, step 1
    Payment, step 2 Confirmation. Every UI event is a method of
    `CheckoutSession`; an event whose control is not rendered or is disabled
    cannot happen, which the methods state as preconditions. The
    create-order call is split into the click that sends the request and
    the settlement that delivers its outcome. */
module Checkout {
  import opened Wrappers
  import opened Text
  import opened CardInput
  import opened Cart

  /** An address as the user profile holds it; `typename` is the
      `__typename` marker the GraphQL client adds to fetched objects. */
  datatype Address = Address(kind: string, street: string, city: string, state: string,
                             zip: string, country: string, typename: Option<string>)

  /** The five fields the shipping form edits. */
  datatype AddressField = Street | City | State | Zip | Country

  /** The three payment fields; the same shape holds their error texts. */
  datatype CardFields = CardFields(cardNumber: string, expiry: string, cvv: string)

  datatype Payment = Payment(cardNumber: string, expiry: string, cvv: string)

  /** The variables of the create-order mutation. */
  datatype OrderRequest = OrderRequest(userId: string, items: seq<CartItem>, totalPrice: int,
                                       billing: Address, shipping: Address, payment: Payment)

  /** The order the server returns. */
  datatype PlacedOrder = PlacedOrder(id: string, totalPrice: int, createdAt: int, items: seq<CartItem>)

  /** How the create-order call settles: a response, or a throw (transport
      error, or a response missing the expected fields). */
  datatype OrderOutcome =
    | Responded(success: bool, message: string, order: Option<PlacedOrder>)
    | Threw(error: string)

  const NoAddress := Address("", "", "", "", "", "", None)
  const EmptyCard := CardFields("", "", "")
  const PlaceOrderErrorMessage := "Error placing order"

  /** `!!addr[k]` for each of street, city, state, zip and country. */
  predicate AddressComplete(a: Address) {
    a.street != "" && a.city != "" && a.state != "" && a.zip != "" && a.country != ""
  }

  function SetField(a: Address, f: AddressField, value: string): Address {
    match f
    case Street => a.(street := value)
    case City => a.(city := value)
    case State => a.(state := value)
    case Zip => a.(zip := value)
    case Country => a.(country := value)
  }

  /** The address copy sent in a request: `__typename` removed. */
  function Outbound(a: Address): (r: Address)
    ensures r.typename == None
    ensures r == a.(typename := None)
  {
    a.(typename := None)
  }

  /** `user.billing?.[0] || {}`. */
  function FirstOr(list: seq<Address>): Address {
    if |list| > 0 then list[0] else NoAddress
  }

  /** The card fields as an edit leaves them: a normalised card number whose
      error agrees with it; before the first edit both are empty. Likewise
      for the CVV. The expiry is normalised, and its error is the one computed
      at the time of its last edit. */
  ghost predicate CardNumberConsistent(card: CardFields, errors: CardFields) {
    && card.cardNumber == NormalizeCard(card.cardNumber)
    && (errors.cardNumber == CardNumberError(card.cardNumber) || (card.cardNumber == "" && errors.cardNumber == ""))
  }

  ghost predicate CvvConsistent(card: CardFields, errors: CardFields) {
    && card.cvv == NormalizeCvv(card.cvv)
    && (errors.cvv == CvvError(card.cvv) || (card.cvv == "" && errors.cvv == ""))
  }

  /** Fields that pass `isPaymentValid` and are consistent with their
      errors send a card number of 16 digits and a CVV of 3 or 4 digits. */
  lemma PlacedPayment(card: CardFields, errors: CardFields)
    requires CardNumberConsistent(card, errors) && CvvConsistent(card, errors)
    requires card.cardNumber != "" && card.cvv != "" && errors.cardNumber == "" && errors.cvv == ""
    ensures AllDigits(StripSpaces(card.cardNumber)) && |StripSpaces(card.cardNumber)| == 16
    ensures 3 <= |card.cvv| <= 4 && AllDigits(card.cvv)
  {
    CardNumberErrorCases(card.cardNumber);
    StripFormattedCard(CardDigits(card.cardNumber));
  }

  class CheckoutSession {
    const userId: string
    const cartItems: seq<CartItem>
    const totalPrice: int
    /** The user's saved shipping addresses, offered by the select. */
    const savedShipping: seq<Address>
    /** The billing address: the user's first, never edited. */
    const billing: Address

    var step: nat
    var shipping: Address
    var useSameAddress: bool
    var creditCard: CardFields
    var errors: CardFields
    var isPlacing: bool
    var order: Option<PlacedOrder>

    /** The request awaiting its outcome, if any. */
    ghost var pending: Option<OrderRequest>
    /** Every create-order request sent, in order. */
    ghost var sent: seq<OrderRequest>
    /** The request whose success response moved the wizard to step 2. */
    ghost var confirmed: Option<OrderRequest>
    /** The current (year mod 100, month) at the last expiry edit. */
    ghost var expiryCheckedAt: (int, int)

    ghost predicate Valid()
      reads this
    {
      && step <= 2
      && (isPlacing <==> pending.Some?)
      && (pending.Some? ==> pending.value in sent && step < 2)
      && (step == 2 <==> confirmed.Some?)
      && (confirmed.Some? ==> confirmed.value in sent)
      && (order.Some? ==> step == 2)
      && CardNumberConsistent(creditCard, errors)
      && CvvConsistent(creditCard, errors)
      && creditCard.expiry == NormalizeExpiry(creditCard.expiry)
      && (errors.expiry == ExpiryMessage(creditCard.expiry, expiryCheckedAt.0, expiryCheckedAt.1)
          || (creditCard.expiry == "" && errors.expiry == ""))
    }

    /** `isShippingValid`: the address that will be used is complete. */
    predicate ShippingValid()
      reads this
    {
      AddressComplete(if useSameAddress then billing else shipping)
    }

    /** `isPaymentValid`: three non-empty fields and three empty errors. */
    predicate PaymentValid()
      reads this
    {
      && creditCard.cardNumber != "" && creditCard.expiry != "" && creditCard.cvv != ""
      && errors.cardNumber == "" && errors.expiry == "" && errors.cvv == ""
    }

    /** The Next / Place Order button is rendered and enabled. */
    predicate NextEnabled()
      reads this
    {
      step < 2 && !isPlacing && (if step == 0 then ShippingValid() else PaymentValid())
    }

    /** The Back button is rendered (it is never disabled). */
    predicate BackOffered()
      reads this
    {
      0 < step < 2
    }

    /** The request the Place Order click sends, built from the current
        fields. */
    function CurrentRequest(): (r: OrderRequest)
      reads this
    {
      var billingCopy := Outbound(billing);
      OrderRequest(userId, cartItems, totalPrice, billingCopy,
                   if useSameAddress then billingCopy else Outbound(shipping),
                   Payment(StripSpaces(creditCard.cardNumber), creditCard.expiry, creditCard.cvv))
    }

    /** Checkout begins at Shipping with the user's first billing and first
        shipping address, "use billing address" checked, empty payment
        fields and errors. A missing hand-off gives an empty cart. */
    constructor (user: string, billingList: seq<Address>, shippingList: seq<Address>, handoff: Option<Handoff>)
      ensures Valid()
      ensures userId == user && savedShipping == shippingList
      ensures billing == FirstOr(billingList) && shipping == FirstOr(shippingList)
      ensures cartItems == (if handoff.Some? then handoff.value.cartItems else [])
      ensures totalPrice == (if handoff.Some? then handoff.value.totalPrice else 0)
      ensures step == 0 && useSameAddress && !isPlacing && order == None
      ensures creditCard == EmptyCard && errors == EmptyCard
    {
      userId := user;
      savedShipping := shippingList;
      billing := FirstOr(billingList);
      cartItems := if handoff.Some? then handoff.value.cartItems else [];
      totalPrice := if handoff.Some? then handoff.value.totalPrice else 0;
      step := 0;
      shipping := FirstOr(shippingList);
      useSameAddress := true;
      creditCard := EmptyCard;
      errors := EmptyCard;
      isPlacing := false;
      order := None;
      pending := None;
      sent := [];
      confirmed := None;
      expiryCheckedAt := (0, 1);
    }

    /** Picking a listed address makes it the shipping address and unchecks
        "use billing address". */
    method SelectAddress(i: nat)
      requires Valid() && step == 0 && i < |savedShipping|
      modifies this
      ensures Valid()
      ensures shipping == savedShipping[i] && !useSameAddress
      ensures step == old(step) && creditCard == old(creditCard) && errors == old(errors)
      ensures isPlacing == old(isPlacing) && order == old(order)
    {
      shipping := savedShipping[i];
      useSameAddress := false;
    }

    method ToggleSameAddress(checked: bool)
      requires Valid() && step == 0
      modifies this
      ensures Valid()
      ensures useSameAddress == checked
      ensures shipping == old(shipping) && step == old(step) && creditCard == old(creditCard)
      ensures errors == old(errors) && isPlacing == old(isPlacing) && order == old(order)
    {
      useSameAddress := checked;
    }

    /** The shipping fields are rendered only while "use billing address"
        is unchecked. */
    method EditShippingField(f: AddressField, value: string)
      requires Valid() && step == 0 && !useSameAddress
      modifies this
      ensures Valid()
      ensures shipping == SetField(old(shipping), f, value)
      ensures useSameAddress == old(useSameAddress) && step == old(step)
      ensures creditCard == old(creditCard) && errors == old(errors)
      ensures isPlacing == old(isPlacing) && order == old(order)
    {
      shipping := SetField(shipping, f, value);
    }

    method EditCardNumber(raw: string)
      requires Valid() && step == 1
      modifies this
      ensures Valid()
      ensures creditCard == old(creditCard).(cardNumber := NormalizeCard(raw))
      ensures errors == old(errors).(cardNumber := CardNumberError(raw))
      ensures step == old(step) && shipping == old(shipping) && useSameAddress == old(useSameAddress)
      ensures isPlacing == old(isPlacing) && order == old(order)
    {
      NormalizeCardIdempotent(raw);
      creditCard := creditCard.(cardNumber := NormalizeCard(raw));
      errors := errors.(cardNumber := CardNumberError(raw));
    }

    /** `fullYear` and `month` (1..12) are the current date at the edit. */
    method EditExpiry(raw: string, fullYear: nat, month: int)
      requires Valid() && step == 1
      modifies this
      ensures Valid()
      ensures creditCard == old(creditCard).(expiry := NormalizeExpiry(raw))
      ensures errors == old(errors).(expiry := ExpiryError(raw, fullYear, month))
      ensures step == old(step) && shipping == old(shipping) && useSameAddress == old(useSameAddress)
      ensures isPlacing == old(isPlacing) && order == old(order)
    {
      NormalizeExpiryIdempotent(raw);
      creditCard := creditCard.(expiry := NormalizeExpiry(raw));
      errors := errors.(expiry := ExpiryError(raw, fullYear, month));
      expiryCheckedAt := (fullYear % 100, month);
    }

    method EditCvv(raw: string)
      requires Valid() && step == 1
      modifies this
      ensures Valid()
      ensures creditCard == old(creditCard).(cvv := NormalizeCvv(raw))
      ensures errors == old(errors).(cvv := CvvError(raw))
      ensures step == old(step) && shipping == old(shipping) && useSameAddress == old(useSameAddress)
      ensures isPlacing == old(isPlacing) && order == old(order)
    {
      CvvProperties(raw);
      creditCard := creditCard.(cvv := NormalizeCvv(raw));
      errors := errors.(cvv := CvvError(raw));
    }

    /** Back decrements the step and changes nothing else; it stays
        available while an order is being placed. */
    method Back()
      requires Valid() && BackOffered()
      modifies this
      ensures Valid()
      ensures step == old(step) - 1
      ensures shipping == old(shipping) && useSameAddress == old(useSameAddress)
      ensures creditCard == old(creditCard) && errors == old(errors)
      ensures isPlacing == old(isPlacing) && order == old(order)
    {
      step := step - 1;
    }

    /** Next at Shipping moves to Payment and sends nothing. Place Order at
        Payment sets `isPlacing` and sends exactly one request, built from
        the fields at the click: the card number without its spaces (16
        digits), billing without `__typename`, and shipping equal to that
        billing copy when "use billing address" is checked. */
    method Next() returns (request: Option<OrderRequest>)
      requires Valid() && NextEnabled()
      modifies this
      ensures Valid()
      ensures old(step) == 0 ==> step == 1 && request == None && !isPlacing && sent == old(sent)
      ensures old(step) == 1 ==> step == 1 && isPlacing && request == Some(old(CurrentRequest()))
                                 && sent == old(sent) + [request.value]
      ensures request.Some? ==>
                && AllDigits(request.value.payment.cardNumber)
                && |request.value.payment.cardNumber| == 16
                && 3 <= |request.value.payment.cvv| <= 4 && AllDigits(request.value.payment.cvv)
                && request.value.billing.typename == None && request.value.shipping.typename == None
      ensures shipping == old(shipping) && useSameAddress == old(useSameAddress)
      ensures creditCard == old(creditCard) && errors == old(errors) && order == old(order)
    {
      if step == 0 {
        step := 1;
        request := None;
      } else {
        var r := CurrentRequest();
        PlacedPayment(creditCard, errors);
        isPlacing := true;
        pending := Some(r);
        sent := sent + [r];
        request := Some(r);
      }
    }

    /** The create-order call settles. Only a response reporting success
        moves to Confirmation and stores its order; a reported failure or a
        throw leaves the step, the order and the payment fields untouched.
        `isPlacing` is false after every outcome. The returned text is what
        the screen alerts. */
    method Settle(outcome: OrderOutcome) returns (alert: Option<string>)
      requires Valid() && isPlacing
      modifies this
      ensures Valid() && !isPlacing
      ensures outcome.Responded? && outcome.success ==>
                step == 2 && order == outcome.order && confirmed == old(pending) && alert == None
      ensures !(outcome.Responded? && outcome.success) ==> step == old(step) && order == old(order)
      ensures outcome.Responded? && !outcome.success ==> alert == Some(outcome.message)
      ensures outcome.Threw? ==> alert == Some(PlaceOrderErrorMessage)
      ensures shipping == old(shipping) && useSameAddress == old(useSameAddress)
      ensures creditCard == old(creditCard) && errors == old(errors) && sent == old(sent)
    {
      match outcome {
        case Responded(success, message, placed) =>
          if success {
            order := placed;
            step := 2;
            confirmed := pending;
            alert := None;
          } else {
            alert := Some(message);
          }
        case Threw(_) =>
          alert := Some(PlaceOrderErrorMessage);
      }
      isPlacing := false;
      pending := None;
    }
  }

  /** Confirmation is terminal: no control is offered there and no request
      is in flight, so no event can leave step 2. */
  lemma ConfirmationIsTerminal(s: CheckoutSession)
    requires s.Valid() && s.step == 2
    ensures !s.NextEnabled() && !s.BackOffered() && !s.isPlacing
    ensures s.confirmed.Some? && s.confirmed.value in s.sent
  {
  }

  /** Payment is valid only when the card number has 16 digits, the CVV 3
      or 4, and the expiry had a month in 1..12 and was not expired at the
      time of its last edit (it is not re-checked at the click). */
  lemma PaymentValidMeans(s: CheckoutSession)
    requires s.Valid() && s.PaymentValid()
    ensures |CardDigits(s.creditCard.cardNumber)| == 16
    ensures 3 <= |s.creditCard.cvv| <= 4
    ensures ExpiryMessage(s.creditCard.expiry, s.expiryCheckedAt.0, s.expiryCheckedAt.1) == ""
  {
  }
}
