/**
  The state of the `FashionAgent` component of components/fashion-agent.tsx
  and the handlers that update it. Each React state variable is a field; each
  handler is a method whose postcondition gives the new state as a function of
  the old one. A turn awaits six times: four delays inside the reveal loop,
  which is the loop of `ShowThinking` and returns the thinking-step lists the
  user sees as a ghost trace, then a settle delay folded into marking every
  step complete and a last delay folded into `FinishTurn`.
 */
module Agent {
  import opened Wrappers
  import opened Text
  import opened AgentTypes
  import opened FilterPipeline
  import opened TurnEngine
  import opened CartLedger

  const Greeting := "Hi! I'm your personal fashion stylist. Tell me about your style, occasion, or what you're looking for, and I'll curate the perfect pieces for you."

  /** A `Partial<Filters>`: `None` for a key the caller left out. */
  datatype FilterChange = FilterChange(
    priceRange: Option<(int, int)>,
    colors: Option<seq<string>>,
    sizes: Option<seq<string>>,
    categories: Option<seq<string>>,
    brands: Option<seq<string>>)

  const NoChange := FilterChange(None, None, None, None, None)

  function Pick<T>(given: Option<T>, previous: T): T
  {
    if given.Some? then given.value else previous
  }

  /** `{ ...prev, ...partialFilters }`. */
  function MergeFilters(prev: Filters, change: FilterChange): Filters
  {
    Filters(
      Pick(change.priceRange, prev.priceRange),
      Pick(change.colors, prev.colors),
      Pick(change.sizes, prev.sizes),
      Pick(change.categories, prev.categories),
      Pick(change.brands, prev.brands))
  }

  /**
    Every dimension named by the change takes the given value, every other one
    keeps its previous value; so the empty change is the identity and a change
    applied twice is the same as applied once.
   */
  lemma MergeSpec(prev: Filters, change: FilterChange)
    ensures var r := MergeFilters(prev, change);
      && (change.priceRange.Some? ==> r.priceRange == change.priceRange.value)
      && (change.priceRange.None? ==> r.priceRange == prev.priceRange)
      && (change.colors.Some? ==> r.colors == change.colors.value)
      && (change.colors.None? ==> r.colors == prev.colors)
      && (change.sizes.Some? ==> r.sizes == change.sizes.value)
      && (change.sizes.None? ==> r.sizes == prev.sizes)
      && (change.categories.Some? ==> r.categories == change.categories.value)
      && (change.categories.None? ==> r.categories == prev.categories)
      && (change.brands.Some? ==> r.brands == change.brands.value)
      && (change.brands.None? ==> r.brands == prev.brands)
    ensures MergeFilters(prev, NoChange) == prev
    ensures MergeFilters(MergeFilters(prev, change), change) == MergeFilters(prev, change)
  {
  }

  /** The first prompt attached to a turn's answer: `[allFilterPrompts[0]]`, or none for an empty list. */
  function FirstPrompt(prompts: seq<FilterPrompt>): Option<seq<FilterPrompt>>
  {
    if |prompts| > 0 then Some([prompts[0]]) else None
  }

  /** The assistant message that closes a turn on `content`. */
  function Answer(content: string): Message
  {
    Message(Assistant, GenerateResponse(content), FirstPrompt(GenerateFilterPrompts(content)))
  }

  /** Every turn's answer is the assistant's and carries the price prompt alone. */
  lemma AnswerCarriesPricePrompt(content: string)
    ensures Answer(content).role == Assistant
    ensures Answer(content).filterPrompts == Some([PricePrompt])
    ensures Answer(content).content == ReplyFor(Classify(content))
  {
    GeneratorsAgree(Catalog([], [], []), content);
  }

  class FashionAgent {
    var messages: seq<Message>
    var isLoading: bool
    var thinkingSteps: seq<ThinkingStep>
    var filters: Filters
    var allProducts: seq<Product>
    /** `currentFilterStep`: the index of the prompt on show. */
    var cursor: nat
    var filterResponses: seq<string>
    var cart: seq<CartLine>
    var isCartOpen: bool
    var isCheckoutOpen: bool
    /** The product buckets that `generateProducts` chooses from. */
    const catalog: Catalog

    /** The conversation is never empty, the cursor names one of the three prompts, and the cart keeps the ledger invariant. */
    ghost predicate Valid()
      reads this
    {
      |messages| > 0 && cursor < 3 && ValidCart(cart)
    }

    /** `filteredProducts`, as the effect on `[filters, allProducts]` leaves it. */
    function FilteredProducts(): seq<Product>
      reads this
    {
      ApplyFilters(allProducts, filters)
    }

    /** The initial state: the greeting alone, no products, default filters, an empty cart. */
    constructor (catalog: Catalog)
      ensures Valid()
      ensures this.catalog == catalog
      ensures messages == [Message(Assistant, Greeting, None)]
      ensures !isLoading && thinkingSteps == [] && filters == DefaultFilters
      ensures allProducts == [] && cursor == 0 && filterResponses == []
      ensures cart == [] && !isCartOpen && !isCheckoutOpen
      ensures FilteredProducts() == []
    {
      this.catalog := catalog;
      messages := [Message(Assistant, Greeting, None)];
      isLoading := false;
      thinkingSteps := [];
      filters := DefaultFilters;
      allProducts := [];
      cursor := 0;
      filterResponses := [];
      cart := [];
      isCartOpen := false;
      isCheckoutOpen := false;
    }

    /**
      The whole state after a completed turn on `content`, against the state
      before it: the user's message and the answer are appended, the topic's
      products and the default filters are installed, loading, captions,
      cursor and confirmations are cleared, and the bag and both panel flags
      are as they were.
     */
    twostate predicate TurnSent(content: string)
      reads this
    {
      && messages == old(messages) + [Message(User, content, None), Answer(content)]
      && allProducts == GenerateProducts(catalog, content)
      && filters == DefaultFilters
      && !isLoading && thinkingSteps == [] && cursor == 0 && filterResponses == []
      && cart == old(cart) && isCartOpen == old(isCartOpen) && isCheckoutOpen == old(isCheckoutOpen)
    }

    /**
      `handleSendMessage`: append the user's message and start loading; reveal
      the four captions one by one (`shown[i]` is the list on show after the
      `i`-th reveal); mark them all complete (`settled`); then append the answer,
      load the topic's products, reset the filters and clear the captions.
     */
    method HandleSendMessage(content: string) returns (ghost shown: seq<seq<ThinkingStep>>, ghost settled: seq<ThinkingStep>)
      requires Valid()
      modifies this
      ensures Valid()
      ensures TurnSent(content)
      ensures FilteredProducts() == ApplyFilters(GenerateProducts(catalog, content), DefaultFilters)
      ensures var steps := GenerateThinkingSteps(content);
        && |shown| == |steps|
        && (forall i :: 0 <= i < |steps| ==> shown[i] == Revealed(steps, i + 1))
        && settled == MarkAllComplete(Revealed(steps, |steps|))
    {
      StartTurn(content);
      var steps := GenerateThinkingSteps(content);
      shown := ShowThinking(steps);
      thinkingSteps := MarkAllComplete(thinkingSteps);
      settled := thinkingSteps;
      FinishTurn(content);
    }

    /** The opening of a turn: the user's message goes up, loading starts, and the guided-filter state is cleared. */
    method StartTurn(content: string)
      modifies this`messages, this`isLoading, this`thinkingSteps, this`cursor, this`filterResponses
      ensures messages == old(messages) + [Message(User, content, None)]
      ensures isLoading && thinkingSteps == [] && cursor == 0 && filterResponses == []
    {
      messages := messages + [Message(User, content, None)];
      isLoading := true;
      thinkingSteps := [];
      cursor := 0;
      filterResponses := [];
    }

    /**
      The close of a turn: the answer with the first filter prompt goes up, the
      topic's products and the default filters are installed, loading stops and
      the captions are cleared.
     */
    method FinishTurn(content: string)
      modifies this`messages, this`allProducts, this`filters, this`isLoading, this`thinkingSteps
      ensures messages == old(messages) + [Answer(content)]
      ensures allProducts == GenerateProducts(catalog, content) && filters == DefaultFilters
      ensures !isLoading && thinkingSteps == []
    {
      var allFilterPrompts := GenerateFilterPrompts(content);
      var answer := Message(Assistant, GenerateResponse(content), FirstPrompt(allFilterPrompts));
      messages := messages + [answer];
      allProducts := GenerateProducts(catalog, content);
      filters := DefaultFilters;
      isLoading := false;
      thinkingSteps := [];
    }

    /**
      The reveal loop of a turn: starting from no captions, each round marks the
      steps on show complete and appends the next caption as thinking.
     */
    method ShowThinking(steps: seq<string>) returns (ghost shown: seq<seq<ThinkingStep>>)
      requires thinkingSteps == []
      modifies this`thinkingSteps
      ensures thinkingSteps == Revealed(steps, |steps|)
      ensures |shown| == |steps|
      ensures forall i :: 0 <= i < |steps| ==> shown[i] == Revealed(steps, i + 1)
    {
      shown := [];
      var i := 0;
      while i < |steps|
        invariant 0 <= i <= |steps|
        invariant thinkingSteps == Revealed(steps, i)
        invariant |shown| == i
        invariant forall j :: 0 <= j < i ==> shown[j] == Revealed(steps, j + 1)
      {
        RevealNext(steps, i);
        thinkingSteps := MarkAllComplete(thinkingSteps) + [ThinkingStep(i, steps[i], Thinking)];
        shown := shown + [thinkingSteps];
        i := i + 1;
      }
    }

    /** The effect on `initialQuery`: a query that is not blank is sent as given, untrimmed. */
    method ReceiveInitialQuery(initialQuery: Option<string>)
      requires Valid()
      modifies this
      ensures Valid()
      ensures initialQuery.None? || Trim(initialQuery.value) == [] ==> unchanged(this)
      ensures initialQuery.Some? && Trim(initialQuery.value) != [] ==> TurnSent(initialQuery.value)
    {
      if initialQuery.Some? && Trim(initialQuery.value) != [] {
        var _, _ := HandleSendMessage(initialQuery.value);
      }
    }

    /** `handleFilterChange`: merge the given dimensions over the current filters. */
    method HandleFilterChange(change: FilterChange)
      modifies this`filters
      ensures filters == MergeFilters(old(filters), change)
    {
      filters := MergeFilters(filters, change);
    }

    /** `handleResetFilters`. */
    method HandleResetFilters()
      modifies this`filters
      ensures filters == DefaultFilters
      ensures FilteredProducts() == ApplyFilters(allProducts, DefaultFilters)
    {
      filters := DefaultFilters;
    }

    /** `setFilterResponses(prev => [...prev, response])`. */
    method AddFilterResponse(response: string)
      modifies this`filterResponses
      ensures filterResponses == old(filterResponses) + [response]
    {
      filterResponses := filterResponses + [response];
    }

    /** `setFilterResponses([])`. */
    method ClearFilterResponses()
      modifies this`filterResponses
      ensures filterResponses == []
    {
      filterResponses := [];
    }

    /**
      `handleNextFilter`: overwrite the last message's prompt with the next of
      the three, or clear it past the last; a no-op unless the assistant spoke last.
     */
    method HandleNextFilter()
      requires Valid()
      modifies this`messages, this`cursor
      ensures Valid()
      ensures (messages, cursor) == NextFilter(old(messages), old(cursor))
    {
      var lastMessage := messages[|messages| - 1];
      if lastMessage.role != Assistant {
        return;
      }
      var allFilterPrompts := GenerateFilterPrompts("");
      var nextStep := cursor + 1;
      if nextStep < |allFilterPrompts| {
        cursor := nextStep;
        messages := messages[|messages| - 1 := lastMessage.(filterPrompts := Some([allFilterPrompts[nextStep]]))];
      } else {
        messages := messages[|messages| - 1 := lastMessage.(filterPrompts := None)];
      }
      assert messages == old(messages)[..|messages| - 1] + [messages[|messages| - 1]];
    }

    /** `addToCart`: add or increment the line, then open the cart. */
    method AddToCart(product: Product, size: Option<string>, color: Option<string>)
      requires Valid()
      modifies this`cart, this`isCartOpen
      ensures Valid()
      ensures cart == CartLedger.AddToCart(old(cart), product, size, color)
      ensures isCartOpen
    {
      AddPreservesValid(cart, product, size, color);
      cart := CartLedger.AddToCart(cart, product, size, color);
      isCartOpen := true;
    }

    /** `removeFromCart`. */
    method RemoveFromCart(productId: string, size: Option<string>, color: Option<string>)
      requires Valid()
      modifies this`cart
      ensures Valid()
      ensures cart == CartLedger.RemoveFromCart(old(cart), LineKey(productId, size, color))
    {
      RemovePreservesValid(cart, LineKey(productId, size, color));
      cart := CartLedger.RemoveFromCart(cart, LineKey(productId, size, color));
    }

    /** `updateCartQuantity`: a quantity of 0 or less delegates to removal and returns early. */
    method UpdateCartQuantity(productId: string, quantity: int, size: Option<string>, color: Option<string>)
      requires Valid()
      modifies this`cart
      ensures Valid()
      ensures cart == CartLedger.UpdateCartQuantity(old(cart), LineKey(productId, size, color), quantity)
    {
      if quantity <= 0 {
        RemoveFromCart(productId, size, color);
        return;
      }
      UpdatePreservesValid(cart, LineKey(productId, size, color), quantity);
      cart := CartLedger.UpdateCartQuantity(cart, LineKey(productId, size, color), quantity);
    }

    /** The header's bag button. */
    method OpenCart()
      modifies this`isCartOpen
      ensures isCartOpen
    {
      isCartOpen := true;
    }

    /** The sidebar's `onClose`. */
    method CloseCart()
      modifies this`isCartOpen
      ensures !isCartOpen
    {
      isCartOpen := false;
    }

    /** `handleCheckout`: the sidebar closes and the checkout opens. */
    method HandleCheckout()
      modifies this`isCartOpen, this`isCheckoutOpen
      ensures !isCartOpen && isCheckoutOpen
    {
      isCartOpen := false;
      isCheckoutOpen := true;
    }

    /** `handleCheckoutComplete`: the cart is emptied and the checkout closes. */
    method HandleCheckoutComplete()
      requires Valid()
      modifies this`cart, this`isCheckoutOpen
      ensures Valid()
      ensures cart == [] && !isCheckoutOpen
    {
      cart := [];
      isCheckoutOpen := false;
    }

    /** The checkout modal's `onClose`. */
    method CloseCheckout()
      modifies this`isCheckoutOpen
      ensures !isCheckoutOpen
    {
      isCheckoutOpen := false;
    }
  }
}
