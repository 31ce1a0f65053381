/**
  components/checkout-modal.tsx: the order summary, the three payment-field
  formatters (card number in groups of four, `MM/YY` expiry, digits-only CVV)
  and the four-stage checkout whose timers are modelled as explicit pending
  events fired one at a time.
 */
module Checkout {
  import opened Seqs
  import opened Text
  import opened CartLedger
  import opened CartSidebar
  import opened Agent

  // ---------------------------------------------------------------- totals

  /** The modal's own copy of the four amounts, expression by expression. */
  function OrderSummary(cart: seq<CartLine>): Totals
  {
    var subtotal := Subtotal(cart);
    var tax := subtotal as real * 0.08;
    var shipping := if subtotal > 100 then 0 else 10;
    Totals(subtotal, tax, shipping, subtotal as real + tax + shipping as real)
  }

  /** The checkout and the sidebar show the same amounts for the same cart, and "Place Order" charges that total. */
  lemma SummaryAgreesWithSidebar(cart: seq<CartLine>)
    ensures OrderSummary(cart) == SidebarTotals(cart)
    ensures OrderSummary(cart).total == Total(Subtotal(cart))
  {
  }

  // ---------------------------------------------------------------- card number

  /**
    `value.match(/.{1,4}/g)` on a non-empty value without whitespace: runs of
    four characters and a shorter last run. (`.` skips only line terminators,
    all of which are whitespace and already removed.)
   */
  function Chunks4(value: string): seq<string>
    requires value != []
    decreases |value|
  {
    if |value| <= 4 then [value] else [value[..4]] + Chunks4(value[4..])
  }

  /** `parts.join(" ")`. */
  function JoinSpaces(parts: seq<string>): string
  {
    if parts == [] then ""
    else if |parts| == 1 then parts[0]
    else parts[0] + " " + JoinSpaces(parts[1..])
  }

  /** `parts.join("")`. */
  function Concat(parts: seq<string>): string
  {
    if parts == [] then "" else parts[0] + Concat(parts[1..])
  }

  /** The card-number `onChange`: drop whitespace, then regroup in fours; an empty value stays empty. */
  function FormatCardNumber(input: string): string
  {
    var value := StripWhitespace(input);
    if value == [] then value else JoinSpaces(Chunks4(value))
  }

  /** Chunk `i` is `value[4i .. 4i+4]`, clipped at the end of the value. */
  lemma {:induction false} ChunkAt(value: string)
    requires value != []
    ensures var c := Chunks4(value);
      && |c| == (|value| + 3) / 4
      && (forall i :: 0 <= i < |c| ==> c[i] == value[4 * i .. Min(4 * i + 4, |value|)])
    decreases |value|
  {
    if |value| > 4 {
      var c, rest := Chunks4(value), value[4..];
      ChunkAt(rest);
      var d := Chunks4(rest);
      assert c == [value[..4]] + d;
      forall i | 0 < i < |c| ensures c[i] == value[4 * i .. Min(4 * i + 4, |value|)] {
        assert c[i] == d[i - 1];
        assert d[i - 1] == rest[4 * (i - 1) .. Min(4 * (i - 1) + 4, |rest|)];
      }
    }
  }

  /** The chunks spell the value again. */
  lemma {:induction false} ChunksConcat(value: string)
    requires value != []
    ensures Concat(Chunks4(value)) == value
    decreases |value|
  {
    if |value| > 4 {
      ChunksConcat(value[4..]);
      assert Concat(Chunks4(value)) == value[..4] + Concat(Chunks4(value[4..]));
      assert value == value[..4] + value[4..];
    } else {
      assert Concat(Chunks4(value)) == value + Concat([]);
    }
  }

  /**
    Every chunk but the last has four characters, the last has one to four,
    and together they spell the value.
   */
  lemma ChunksShape(value: string)
    requires value != []
    ensures var c := Chunks4(value);
      && |c| > 0
      && (forall i :: 0 <= i < |c| - 1 ==> |c[i]| == 4)
      && 1 <= |c[|c| - 1]| <= 4
      && Concat(c) == value
  {
    ChunkAt(value);
    ChunksConcat(value);
  }

  predicate NoWhitespace(s: string)
  {
    forall i :: 0 <= i < |s| ==> NotWhitespace(s[i])
  }

  /** Stripping a whitespace-free part, a space and a rest keeps the part and strips the rest. */
  lemma StripStep(part: string, rest: string)
    requires NoWhitespace(part)
    ensures StripWhitespace(part + " " + rest) == part + StripWhitespace(rest)
  {
    FilterKeepsAll(part, NotWhitespace);
    FilterConcat(part + " ", rest, NotWhitespace);
    FilterConcat(part, " ", NotWhitespace);
    assert Filter(" ", NotWhitespace) == [];
  }

  /** Removing the separators of a join of whitespace-free parts gives their concatenation. */
  lemma {:induction false} StripJoin(parts: seq<string>)
    requires forall i :: 0 <= i < |parts| ==> NoWhitespace(parts[i])
    ensures StripWhitespace(JoinSpaces(parts)) == Concat(parts)
  {
    if parts == [] {
    } else if |parts| == 1 {
      FilterKeepsAll(parts[0], NotWhitespace);
      assert Concat(parts) == parts[0] + Concat([]);
    } else {
      StripJoin(parts[1..]);
      StripStep(parts[0], JoinSpaces(parts[1..]));
    }
  }

  /** Removing the spaces from the formatted number gives back the input without its whitespace. */
  lemma CardRoundTrip(input: string)
    ensures StripWhitespace(FormatCardNumber(input)) == StripWhitespace(input)
  {
    var value := StripWhitespace(input);
    if value != [] {
      FilterAllKept(input, NotWhitespace);
      ChunkAt(value);
      ChunksConcat(value);
      var c := Chunks4(value);
      forall i | 0 <= i < |c| ensures NoWhitespace(c[i]) {
        assert c[i] == value[4 * i .. Min(4 * i + 4, |value|)];
      }
      StripJoin(c);
    }
  }

  /** Formatting an already formatted number leaves it unchanged; the empty input formats to "". */
  lemma CardIdempotent(input: string)
    ensures FormatCardNumber(FormatCardNumber(input)) == FormatCardNumber(input)
    ensures FormatCardNumber("") == ""
  {
    CardRoundTrip(input);
  }

  /** The join of the chunks of a value adds one separator per four characters after the first. */
  lemma {:induction false} GroupedLength(value: string)
    requires value != []
    ensures |JoinSpaces(Chunks4(value))| == |value| + (|value| - 1) / 4
    decreases |value|
  {
    if |value| > 4 {
      GroupedLength(value[4..]);
      assert |Chunks4(value[4..])| >= 1;
    }
  }

  /** A formatted number has its characters plus one space per full group; sixteen digits fill the 19-character field. */
  lemma CardLength(input: string)
    ensures var n := |StripWhitespace(input)|;
      n > 0 ==> |FormatCardNumber(input)| == n + (n - 1) / 4
    ensures |StripWhitespace(input)| == 16 ==> |FormatCardNumber(input)| == 19
  {
    if StripWhitespace(input) != [] {
      GroupedLength(StripWhitespace(input));
    }
  }

  // ---------------------------------------------------------------- expiry

  /** The expiry `onChange`: keep the digits; from two digits on, `MM/` followed by at most two more. */
  function FormatExpiry(input: string): string
  {
    var value := Digits(input);
    if |value| >= 2 then value[..2] + "/" + value[2..Min(4, |value|)] else value
  }

  /** With fewer than two digits the output is just those digits. */
  lemma ExpiryShort(input: string)
    requires |Digits(input)| < 2
    ensures FormatExpiry(input) == Digits(input) && AllDigits(FormatExpiry(input))
  {
    DigitsAreDigits(input);
  }

  /**
    The output holds only digits and a slash; the slash appears once, at index
    2, exactly when there were two or more digits; the output is at most five
    characters long.
   */
  lemma ExpiryCharset(input: string)
    ensures var r := FormatExpiry(input);
      && |r| <= 5
      && (forall i :: 0 <= i < |r| ==> IsDigit(r[i]) || r[i] == '/')
      && (forall i :: 0 <= i < |r| ==> (r[i] == '/' <==> i == 2 && |Digits(input)| >= 2))
  {
    DigitsAreDigits(input);
  }

  /** The digits of the output are the first four digits of the input (or all of them, if fewer). */
  lemma ExpiryDigits(input: string)
    ensures var d := Digits(input);
      Digits(FormatExpiry(input)) == d[..Min(4, |d|)]
  {
    var d := Digits(input);
    DigitsAreDigits(input);
    if |d| >= 2 {
      var m := Min(4, |d|);
      FilterConcat(d[..2] + "/", d[2..m], IsDigit);
      FilterConcat(d[..2], "/", IsDigit);
      DigitsOfDigits(d[..2]);
      DigitsOfDigits(d[2..m]);
      assert Filter("/", IsDigit) == [];
      assert d[..m] == d[..2] + d[2..m];
    } else {
      DigitsOfDigits(d);
    }
  }

  /** Formatting a formatted expiry leaves it unchanged. */
  lemma ExpiryIdempotent(input: string)
    ensures FormatExpiry(FormatExpiry(input)) == FormatExpiry(input)
  {
    ExpiryDigits(input);
    var d := Digits(input);
    var m := Min(4, |d|);
    var e := d[..m];
    if |d| >= 2 {
      assert e[..2] == d[..2] && e[2..Min(4, |e|)] == d[2..m];
    }
  }

  // ---------------------------------------------------------------- CVV

  /** The CVV `onChange`: `value.replace(/\D/g, "")`. */
  function FormatCvv(input: string): string
  {
    Digits(input)
  }

  /** The CVV keeps exactly the digits of the input, each as often as it occurs, in order; nothing else survives. */
  lemma CvvSpec(input: string, c: char)
    ensures AllDigits(FormatCvv(input))
    ensures IsSubsequence(FormatCvv(input), input)
    ensures multiset(FormatCvv(input))[c] == if IsDigit(c) then multiset(input)[c] else 0
    ensures FormatCvv(FormatCvv(input)) == FormatCvv(input)
  {
    DigitsAreDigits(input);
    FilterIsSubsequence(input, IsDigit);
    FilterMultiset(input, IsDigit, c);
    FilterIdempotent(input, IsDigit);
  }

  // ---------------------------------------------------------------- stage machine

  datatype Stage = ShippingStage | PaymentStage | ProcessingStage | SuccessStage

  datatype ShippingInfo = ShippingInfo(
    firstName: string, lastName: string, email: string,
    address: string, city: string, state: string, zip: string)

  const EmptyShipping := ShippingInfo("", "", "", "", "", "", "")

  datatype ShippingField = FirstName | LastName | Email | Address | City | State | Zip

  function ShippingValue(info: ShippingInfo, field: ShippingField): string
  {
    match field
    case FirstName => info.firstName
    case LastName => info.lastName
    case Email => info.email
    case Address => info.address
    case City => info.city
    case State => info.state
    case Zip => info.zip
  }

  /** `{ ...shippingInfo, [field]: value }`. */
  function WithShippingValue(info: ShippingInfo, field: ShippingField, value: string): ShippingInfo
  {
    match field
    case FirstName => info.(firstName := value)
    case LastName => info.(lastName := value)
    case Email => info.(email := value)
    case Address => info.(address := value)
    case City => info.(city := value)
    case State => info.(state := value)
    case Zip => info.(zip := value)
  }

  /** Editing one shipping input sets that field and leaves the other six as they were. */
  lemma ShippingEditSpec(info: ShippingInfo, field: ShippingField, value: string, other: ShippingField)
    ensures ShippingValue(WithShippingValue(info, field, value), other)
      == if other == field then value else ShippingValue(info, other)
  {
  }

  datatype PaymentInfo = PaymentInfo(cardNumber: string, expiry: string, cvv: string, nameOnCard: string)

  const EmptyPayment := PaymentInfo("", "", "", "")

  /**
    The timer waiting to fire: the 2000 ms processing delay, the 3000 ms delay
    before completing, and the 300 ms delay before the reset.
   */
  datatype Pending = NoTimer | ProcessingTimer | SuccessTimer | ResetTimer

  class CheckoutModal {
    var step: Stage
    var shippingInfo: ShippingInfo
    var paymentInfo: PaymentInfo
    var pending: Pending
    /** The component that passes `onComplete` and `onClose`. */
    const agent: FashionAgent
    /** How often `onComplete` and `onClose` have run. */
    ghost var completions: nat
    ghost var closes: nat

    /** Processing always has its timer pending; success has the completion or the reset pending; the other stages none. */
    ghost predicate Valid()
      reads this
    {
      && (step == ShippingStage || step == PaymentStage ==> pending == NoTimer)
      && (step == ProcessingStage ==> pending == ProcessingTimer)
      && (step == SuccessStage ==> pending == SuccessTimer || pending == ResetTimer)
    }

    constructor (agent: FashionAgent)
      ensures Valid()
      ensures this.agent == agent
      ensures step == ShippingStage && shippingInfo == EmptyShipping && paymentInfo == EmptyPayment
      ensures pending == NoTimer && completions == 0 && closes == 0
    {
      this.agent := agent;
      step := ShippingStage;
      shippingInfo := EmptyShipping;
      paymentInfo := EmptyPayment;
      pending := NoTimer;
      completions := 0;
      closes := 0;
    }

    /** The dialog title. */
    function Title(): string
      reads this
    {
      if step == SuccessStage then "Order Confirmed!" else "Secure Checkout"
    }

    /** Typing into one of the seven shipping inputs. */
    method EditShipping(field: ShippingField, value: string)
      modifies this`shippingInfo
      ensures shippingInfo == WithShippingValue(old(shippingInfo), field, value)
    {
      shippingInfo := WithShippingValue(shippingInfo, field, value);
    }

    method EditNameOnCard(value: string)
      modifies this`paymentInfo
      ensures paymentInfo == old(paymentInfo).(nameOnCard := value)
    {
      paymentInfo := paymentInfo.(nameOnCard := value);
    }

    method EditCardNumber(value: string)
      modifies this`paymentInfo
      ensures paymentInfo == old(paymentInfo).(cardNumber := FormatCardNumber(value))
    {
      paymentInfo := paymentInfo.(cardNumber := FormatCardNumber(value));
    }

    method EditExpiry(value: string)
      modifies this`paymentInfo
      ensures paymentInfo == old(paymentInfo).(expiry := FormatExpiry(value))
    {
      paymentInfo := paymentInfo.(expiry := FormatExpiry(value));
    }

    method EditCvv(value: string)
      modifies this`paymentInfo
      ensures paymentInfo == old(paymentInfo).(cvv := FormatCvv(value))
    {
      paymentInfo := paymentInfo.(cvv := FormatCvv(value));
    }

    /** `handleShippingSubmit`: the shipping form moves on to payment. */
    method HandleShippingSubmit()
      requires Valid() && step == ShippingStage
      modifies this`step
      ensures Valid() && step == PaymentStage
    {
      step := PaymentStage;
    }

    /** The "Back" button of the payment form. */
    method Back()
      requires Valid() && step == PaymentStage
      modifies this`step
      ensures Valid() && step == ShippingStage
    {
      step := ShippingStage;
    }

    /** `handlePaymentSubmit`: show the processing stage and start its timer. */
    method HandlePaymentSubmit()
      requires Valid() && step == PaymentStage
      modifies this`step, this`pending
      ensures Valid() && step == ProcessingStage && pending == ProcessingTimer
    {
      step := ProcessingStage;
      pending := ProcessingTimer;
    }

    /**
      The pending timer fires: processing turns into success; the success delay
      runs `onComplete` then `onClose` once each; the reset returns to the
      shipping stage with both forms empty.
     */
    method TimerFires()
      requires Valid() && pending != NoTimer && agent.Valid()
      modifies this`step, this`shippingInfo, this`paymentInfo, this`pending, this`completions, this`closes
      modifies agent`cart, agent`isCheckoutOpen
      ensures Valid() && agent.Valid()
      ensures old(pending) == ProcessingTimer ==>
        step == SuccessStage && pending == SuccessTimer
        && agent.cart == old(agent.cart) && agent.isCheckoutOpen == old(agent.isCheckoutOpen)
        && completions == old(completions) && closes == old(closes)
      ensures old(pending) == SuccessTimer ==>
        step == SuccessStage && pending == ResetTimer
        && agent.cart == [] && !agent.isCheckoutOpen
        && completions == old(completions) + 1 && closes == old(closes) + 1
      ensures old(pending) == ResetTimer ==>
        step == ShippingStage && pending == NoTimer
        && shippingInfo == EmptyShipping && paymentInfo == EmptyPayment
        && agent.cart == old(agent.cart) && agent.isCheckoutOpen == old(agent.isCheckoutOpen)
        && completions == old(completions) && closes == old(closes)
      ensures old(pending) != ResetTimer ==> shippingInfo == old(shippingInfo) && paymentInfo == old(paymentInfo)
    {
      match pending
      case ProcessingTimer =>
        step := SuccessStage;
        pending := SuccessTimer;
      case SuccessTimer =>
        agent.HandleCheckoutComplete();
        completions := completions + 1;
        agent.CloseCheckout();
        closes := closes + 1;
        pending := ResetTimer;
      case ResetTimer =>
        step := ShippingStage;
        shippingInfo := EmptyShipping;
        paymentInfo := EmptyPayment;
        pending := NoTimer;
    }

    /**
      Submitting the payment form and letting the three timers run: the order
      completes and the checkout closes exactly once, the cart is emptied, and
      the modal is back at an empty shipping form.
     */
    method PlaceOrder()
      requires Valid() && step == PaymentStage && agent.Valid()
      modifies this`step, this`shippingInfo, this`paymentInfo, this`pending, this`completions, this`closes
      modifies agent`cart, agent`isCheckoutOpen
      ensures Valid() && agent.Valid()
      ensures step == ShippingStage && pending == NoTimer
      ensures shippingInfo == EmptyShipping && paymentInfo == EmptyPayment
      ensures completions == old(completions) + 1 && closes == old(closes) + 1
      ensures agent.cart == [] && !agent.isCheckoutOpen
    {
      HandlePaymentSubmit();
      TimerFires();
      TimerFires();
      TimerFires();
    }
  }
}
