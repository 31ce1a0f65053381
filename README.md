# Fashion stylist agent — a Dafny model

This project models the client-side core of the fashion-ai web app. The app
is a chat-driven stylist. Its pieces are modelled as follows:

- **Agent state.** `components/fashion-agent.tsx` holds the whole page state:
  the conversation, the revealed "thinking" steps, the filter set, the
  generated product list, the guided-filter cursor, the filter confirmations,
  the shopping bag and the cart/checkout flags. It is modelled as the class
  `Agent.FashionAgent`. Each handler is a method whose postcondition gives the
  new state as a function of the old one.
- **Turn engine.** The keyword-driven generators are modelled in `TurnEngine`:
  thinking steps, reply text, product buckets and filter prompts. So are the
  step-reveal sequence and the prompt cursor.
- **Filtering.** The product filter and the brand/category lists are modelled
  in `FilterPipeline`.
- **Bag ledger.** The bag is a list of lines keyed by (product id, size,
  colour). Adding merges into an existing line; removing and re-quantifying
  are modelled in `CartLedger`.
- **Bag totals.** `components/cart-sidebar.tsx` computes subtotal, 8 % tax,
  shipping that is free only above 100, the total and the free-shipping hint.
  These are modelled in `CartSidebar`, with exact rational arithmetic.
- **Checkout.** `components/checkout-modal.tsx` is modelled in `Checkout`. It
  has the shipping → payment → processing → success stage machine, with its
  timers as explicit steps. It also has the card-number, expiry and CVV input
  formatters and the order summary.
- **Chat panel.** `components/chat-panel.tsx` is modelled in `Chat`. It covers
  submit with trimming and the loading guard, and the suggestion buttons. It
  also covers the price, colour and size choices, each with its confirmation
  text and its scheduled advance of the guided-filter cursor.
- **Products panel.** `components/products-panel.tsx` is modelled in
  `Products`. It covers the twelve-per-page paging, the out-of-range page
  reset, the previous/next controls and "Add to Bag".

Shared helpers are in `Seqs` (order-preserving filter, subsequences) and
`Text`:

- the JavaScript `\s` whitespace set;
- digit stripping for `\D`;
- ASCII lower-casing;
- `String.prototype.trim`;
- substring search;
- decimal rendering of integers, as used by template literals.

Timers are modelled as explicit events. The checkout's pending timer is the
`pending` field. The chat panel's scheduled `onNextFilter` calls are counted
in `pendingAdvances`. A conversational turn awaits six times. Four delays
sit inside the reveal loop (components/fashion-agent.tsx:182), which is the
loop of `Agent.FashionAgent.ShowThinking`; its intermediate thinking-step
lists are returned as a ghost trace. The 500 ms settle delay (:190) is folded
into marking every step complete, and the 300 ms delay (:194) into
`Agent.FashionAgent.FinishTurn`.

A colour or size toggle schedules `onNextFilter` every time, whether it turns
the value on or off (components/chat-panel.tsx:89 and :99). Only the
confirmation text depends on the direction. `Chat.ChatPanel.ToggleColor` and
`Chat.ChatPanel.ToggleSize` model exactly that.

## Model

| member | source | states |
|---|---|---|
| FilterPipeline.FilteredIsSubsequence | components/fashion-agent.tsx:125-162 | The filtered list is a subsequence of the generated list, so order is kept and nothing is invented. An empty product list gives an empty result. |
| FilterPipeline.KeptIff | components/fashion-agent.tsx:131-160 | A product is kept iff it is in the list, its price lies in the inclusive range, and each dimension passes. Category and brand must be an unset filter or a member. Colours and sizes must be an unset filter or share a value with the product. |
| FilterPipeline.DefaultKeepsInRange | components/fashion-agent.tsx:70-76 | With the default filters, every product priced 0 to 1000 is kept, in order. |
| FilterPipeline.DefaultDropsOnlyByPrice | components/fashion-agent.tsx:133-135 | With the default filters, a product is dropped only when its price lies outside 0 to 1000. |
| FilterPipeline.NarrowerPasses | components/fashion-agent.tsx:131-160 | A product that passes a narrower filter set also passes the wider one. |
| FilterPipeline.NarrowingNeverAdds | components/fashion-agent.tsx:131-160 | Narrowing the filters yields a subsequence of the wider filters' result. |
| FilterPipeline.DistinctSpec | components/fashion-agent.tsx:1185 | Deduplication keeps exactly the same set of values, without duplicates. |
| FilterPipeline.UniqueBrandsSpec | components/fashion-agent.tsx:1184-1186 | The brand list holds each brand of the products exactly once, and nothing else. |
| FilterPipeline.UniqueCategoriesSpec | components/fashion-agent.tsx:1188-1190 | The category list holds each category of the products exactly once, and nothing else. |
| TurnEngine.GeneratorsAgree | components/fashion-agent.tsx:406-479 | The thinking steps, the reply and the product bucket are all chosen by the same keyword topic of the utterance. |
| TurnEngine.FourSteps | components/fashion-agent.tsx:406-442 | Every utterance yields exactly four thinking steps. |
| TurnEngine.ClassifyIgnoresCase | components/fashion-agent.tsx:407 | The topic depends only on the lower-cased utterance. |
| TurnEngine.GeneralBucket | components/fashion-agent.tsx:478 | An utterance with no keyword gets at most 50 products, a prefix of the dress, casual and work lists joined in that order. When those lists hold 50 or fewer products, it gets all of them. |
| TurnEngine.FormalScenario | components/fashion-agent.tsx:406-479 | A wedding request is classified as formal. It gets the dress bucket, the formal thinking steps and a reply about elegant dresses. |
| TurnEngine.RevealNext | components/fashion-agent.tsx:181-187 | One reveal marks the earlier steps complete and appends the next caption as thinking, moving from n to n+1 revealed steps. |
| TurnEngine.RevealedShape | components/fashion-agent.tsx:181-187 | After n reveals, the list holds n steps with captions 0 to n-1 in order. Only the newest is still thinking; the earlier ones are complete. |
| TurnEngine.NextFilterKeepsHistory | components/fashion-agent.tsx:234-261 | Advancing the guided filter never changes earlier messages or the last message's role and text. |
| TurnEngine.NextFilterCases | components/fashion-agent.tsx:234-261 | Advancing is one of three things. If the last message is not the assistant's, nothing changes. Otherwise the next prompt replaces the attached one and the cursor moves on. Past the last prompt, the prompts are cleared and the cursor stays. |
| TurnEngine.PromptSequence | components/fashion-agent.tsx:234-261 | After an answer, successive advances show the colour prompt, then the size prompt, then none, and none stays. |
| CartLedger.AddExisting | components/fashion-agent.tsx:263-273 | Adding a product with a (id, size, colour) key already in the bag increments exactly that line's quantity. Every other line is untouched and the length is the same. |
| CartLedger.AddNew | components/fashion-agent.tsx:263-276 | Adding a new key appends one line with quantity 1. |
| CartLedger.AddPreservesValid | components/fashion-agent.tsx:263-276 | Adding keeps the keys unique and the quantities positive. |
| CartLedger.AddTwiceMerges | components/fashion-agent.tsx:263-276 | Adding the same key twice leaves one line with quantity 2. |
| CartLedger.RemoveSpec | components/fashion-agent.tsx:280-286 | Removal drops exactly the lines with the key and keeps the others in order. |
| CartLedger.RemovePreservesValid | components/fashion-agent.tsx:280-286 | Removal keeps the bag well-formed. |
| CartLedger.UpdatePositive | components/fashion-agent.tsx:293-299 | A positive quantity is written to the keyed line only. |
| CartLedger.UpdatePreservesValid | components/fashion-agent.tsx:288-300 | Updating a quantity keeps the bag well-formed. A quantity of 0 or less leaves no line with the key. |
| CartLedger.RemovalScenario | components/fashion-agent.tsx:288-291 | Setting a line's quantity to 0 empties a one-line bag. |
| CartSidebar.SubtotalConcat | components/cart-sidebar.tsx:32 | The subtotal of two joined bags is the sum of their subtotals. |
| CartSidebar.SubtotalFromFront | components/cart-sidebar.tsx:32 | The reduce from the left equals the sum taken from the front. |
| CartSidebar.SubtotalNonNegative | components/cart-sidebar.tsx:32 | A well-formed bag of non-negative prices has a non-negative subtotal. |
| CartSidebar.SubtotalPointUpdate | components/cart-sidebar.tsx:32 | Replacing one line changes the subtotal by exactly the difference in that line's amount. |
| CartSidebar.SubtotalAfterAdd | components/cart-sidebar.tsx:32 | Adding a product to the bag raises the subtotal by exactly its price, provided the bag holds that product id at that same price. |
| CartSidebar.TotalsLaw | components/cart-sidebar.tsx:32-35 | Tax is 8 % of the subtotal and shipping is 0 exactly when the subtotal exceeds 100, else 10. The total is their sum, and is never below a non-negative subtotal. |
| CartSidebar.HintLaw | components/cart-sidebar.tsx:145-174 | The free-shipping hint sits in the totals footer, which is drawn only for a non-empty bag. It shows exactly when the bag is non-empty and the subtotal is below 100, and names the amount 100 minus the subtotal. An empty bag shows no hint. At exactly 100 there is no hint, yet shipping is still 10. |
| CartSidebar.HintedAmountStillPaysShipping | components/cart-sidebar.tsx:34 | A hint is shown only for a non-empty bag. Adding exactly the hinted amount reaches a subtotal of 100, which still pays shipping. |
| CartSidebar.MinusOnSingleRemoves | components/cart-sidebar.tsx:105-128 | The minus button on a line of quantity 1 removes exactly that line's key. The plus button on it asks for quantity 2. |
| Agent.MergeSpec | components/fashion-agent.tsx:220-222 | A partial filter change overrides exactly the fields it gives and keeps the rest. An empty change is the identity, and applying a change twice equals applying it once. |
| Agent.AnswerCarriesPricePrompt | components/fashion-agent.tsx:194-201 | A turn's answer is from the assistant, carries the topic's reply, and offers only the price prompt. |
| Agent.FashionAgent.constructor | components/fashion-agent.tsx:54-88 | The page starts with the greeting as the only message, default filters, no products, cursor 0, an empty bag and both panels closed. |
| Agent.FashionAgent.HandleSendMessage | components/fashion-agent.tsx:165-218 | Gives the whole new state. The user message and the answer are appended. The topic's products and the default filters are installed. Loading, steps, cursor and confirmations are cleared. The bag and both panel flags are unchanged. The trace shows the four reveals and the completed list. |
| Agent.FashionAgent.StartTurn | components/fashion-agent.tsx:172-176 | A turn opens by appending the user's message, starting to load and clearing the captions, the cursor and the confirmations. |
| Agent.FashionAgent.ShowThinking | components/fashion-agent.tsx:180-187 | The reveal loop ends with all captions revealed. The i-th list on show is the first i+1 captions, with only the newest thinking. |
| Agent.FashionAgent.FinishTurn | components/fashion-agent.tsx:193-217 | A turn closes by appending the answer and installing the topic's products and the default filters. Loading stops and the captions are cleared. |
| Agent.FashionAgent.ReceiveInitialQuery | components/fashion-agent.tsx:119-123 | A non-blank initial query from the home screen is sent as a turn, with the same whole new state as a sent message. Otherwise no field changes. |
| Agent.FashionAgent.HandleFilterChange | components/fashion-agent.tsx:220-222 | The filters become the merge of the old filters with the change. |
| Agent.FashionAgent.HandleResetFilters | components/fashion-agent.tsx:224-232 | The filters return to the defaults, so the shown list is the generated list under the defaults. |
| Agent.FashionAgent.AddFilterResponse | components/chat-panel.tsx:69-71 | The confirmation is appended to the list. |
| Agent.FashionAgent.ClearFilterResponses | components/chat-panel.tsx:58 | The confirmations are cleared. |
| Agent.FashionAgent.HandleNextFilter | components/fashion-agent.tsx:234-261 | Messages and cursor become the guided-filter advance of their old values; the cursor stays below 3. |
| Agent.FashionAgent.AddToCart | components/fashion-agent.tsx:263-278 | The bag becomes the ledger's add, and the bag opens. |
| Agent.FashionAgent.RemoveFromCart | components/fashion-agent.tsx:280-286 | The bag becomes the ledger's removal of the key. |
| Agent.FashionAgent.UpdateCartQuantity | components/fashion-agent.tsx:288-300 | The bag becomes the ledger's update; a non-positive quantity removes the line. |
| Agent.FashionAgent.OpenCart | components/fashion-agent.tsx:376 | The bag button opens the bag. |
| Agent.FashionAgent.CloseCart | components/fashion-agent.tsx:386 | Closing the bag sets the flag false. |
| Agent.FashionAgent.HandleCheckout | components/fashion-agent.tsx:302-305 | Proceeding to checkout closes the bag and opens the checkout. |
| Agent.FashionAgent.HandleCheckoutComplete | components/fashion-agent.tsx:307-310 | Completing an order empties the bag and closes the checkout. |
| Agent.FashionAgent.CloseCheckout | components/fashion-agent.tsx:397 | Closing the checkout sets the flag false. |
| Checkout.SummaryAgreesWithSidebar | components/checkout-modal.tsx:46-49 | The order summary's subtotal, tax, shipping and total equal the bag sidebar's. |
| Checkout.ChunkAt | components/checkout-modal.tsx:220 | Grouping by four gives ceil(n/4) chunks. Chunk i holds characters 4i up to 4i+4, clipped to the length. |
| Checkout.ChunksConcat | components/checkout-modal.tsx:220 | The chunks joined without separators give back the stripped value. |
| Checkout.ChunksShape | components/checkout-modal.tsx:219-221 | Every chunk is non-empty and at most four long; every chunk but the last is exactly four long. |
| Checkout.StripJoin | components/checkout-modal.tsx:219-221 | Stripping whitespace from whitespace-free parts joined with spaces gives their concatenation. |
| Checkout.CardRoundTrip | components/checkout-modal.tsx:219-222 | Stripping whitespace from the formatted card number gives the stripped input back. |
| Checkout.CardIdempotent | components/checkout-modal.tsx:219-222 | Reformatting a formatted card number changes nothing, and empty input stays empty. |
| Checkout.GroupedLength | components/checkout-modal.tsx:220 | n characters grouped by four with single spaces take n + (n-1)/4 characters. |
| Checkout.CardLength | components/checkout-modal.tsx:216-221 | The formatted length follows the grouping rule, so sixteen card digits render as nineteen characters. |
| Checkout.ExpiryShort | components/checkout-modal.tsx:236-241 | Fewer than two digits are kept as they are, digits only. |
| Checkout.ExpiryCharset | components/checkout-modal.tsx:236-241 | The expiry text is at most five characters of digits and slashes. A slash appears exactly at index 2, and only when the input has at least two digits. |
| Checkout.ExpiryDigits | components/checkout-modal.tsx:236-241 | The digits of the expiry text are the input's first four digits, or all of them if fewer. |
| Checkout.ExpiryIdempotent | components/checkout-modal.tsx:236-241 | Reformatting an expiry changes nothing. |
| Checkout.CvvSpec | components/checkout-modal.tsx:254 | The CVV keeps exactly the input's digits, in order and with their counts, and is idempotent. |
| Checkout.ShippingEditSpec | components/checkout-modal.tsx:105-171 | Editing one shipping field sets that field and leaves the other six unchanged. |
| Checkout.CheckoutModal.constructor | components/checkout-modal.tsx:29-44 | The modal starts at the shipping stage with empty forms and no timer. |
| Checkout.CheckoutModal.EditShipping | components/checkout-modal.tsx:105-171 | A shipping input writes its field only. |
| Checkout.CheckoutModal.EditNameOnCard | components/checkout-modal.tsx:207 | The name on card is stored as typed. |
| Checkout.CheckoutModal.EditCardNumber | components/checkout-modal.tsx:219-222 | The card number is stored formatted. |
| Checkout.CheckoutModal.EditExpiry | components/checkout-modal.tsx:236-241 | The expiry is stored formatted. |
| Checkout.CheckoutModal.EditCvv | components/checkout-modal.tsx:254 | The CVV is stored as digits only. |
| Checkout.CheckoutModal.HandleShippingSubmit | components/checkout-modal.tsx:51-54 | Submitting shipping moves to the payment stage. |
| Checkout.CheckoutModal.Back | components/checkout-modal.tsx:260 | Back returns from payment to shipping. |
| Checkout.CheckoutModal.HandlePaymentSubmit | components/checkout-modal.tsx:56-59 | Submitting payment moves to processing and arms the processing timer. |
| Checkout.CheckoutModal.TimerFires | components/checkout-modal.tsx:60-72 | The processing timer moves to success. The success timer completes the order, empties the bag, closes the modal and arms the reset. The reset returns to shipping with empty forms. |
| Checkout.CheckoutModal.PlaceOrder | components/checkout-modal.tsx:56-73 | A payment submit followed by its three timers ends at the shipping stage with empty forms and an empty, closed checkout. The completion and close callbacks each run once. |
| Chat.PriceQuoted | components/chat-panel.tsx:243-245 | A mid-range reply quotes the range as `$lo-$hi`. |
| Chat.PriceResponseCases | components/chat-panel.tsx:238-246 | An upper bound of at most 100 gets the budget line. Otherwise a lower bound of at least 300 gets the premium line. Anything else gets the quoted range. |
| Chat.PriceQuoteInjective | components/chat-panel.tsx:244 | Two mid-range replies are equal only for the same range. |
| Chat.ColorResponseCases | components/chat-panel.tsx:248-261 | Each of the nine known colours gets its own line. Any other colour gets a line that names it. No reply is empty. |
| Chat.SizeResponseNames | components/chat-panel.tsx:263-265 | The size reply names the size, and different sizes get different replies. |
| Chat.ToggleSpec | components/chat-panel.tsx:81-83 | Toggling appends an absent value and removes a present one. Other values keep their membership. |
| Chat.ToggleTwiceRestores | components/chat-panel.tsx:81-83 | Toggling an absent value twice restores the list. |
| Chat.ChatPanel.constructor | components/chat-panel.tsx:41 | The input starts empty with nothing scheduled. |
| Chat.ChatPanel.SetInput | components/chat-panel.tsx:223 | Typing replaces the input. |
| Chat.ChatPanel.HandleSubmit | components/chat-panel.tsx:53-60 | While not loading, a non-blank input is sent trimmed, with the whole post-turn state of a sent message, and the input is cleared. Otherwise neither the input nor any field of the page state changes. |
| Chat.ChatPanel.PickSuggestion | components/chat-panel.tsx:196-205 | A suggestion, offered only under the lone greeting, is sent verbatim as a turn, with the whole post-turn state of a sent message. |
| Chat.ChatPanel.HandlePriceSelect | components/chat-panel.tsx:73-78 | Sets the price range, appends the price confirmation and schedules one advance. |
| Chat.ChatPanel.ToggleColor | components/chat-panel.tsx:80-90 | Toggles the colour. A confirmation is appended exactly when the colour was off. One advance is scheduled either way. |
| Chat.ChatPanel.ToggleSize | components/chat-panel.tsx:92-100 | Toggles the size. A confirmation is appended exactly when the size was off. One advance is scheduled either way. |
| Chat.ChatPanel.AdvanceFires | components/chat-panel.tsx:77 | A scheduled advance runs the guided-filter advance. |
| Chat.ChatPanel.ChoosePriceThenColor | components/chat-panel.tsx:73-90 | Choosing a price, then a colour, each with its advance run, leaves the size prompt active at cursor 2, with the chosen range and colour applied. |
| Products.TotalPagesIsCeiling | components/products-panel.tsx:32 | The page count is the ceiling of the product count over 12, and is 0 only for no products. |
| Products.PageSliceSpec | components/products-panel.tsx:34-36 | A page holds at most twelve products, those from index (page-1)*12 on, in order. Pages 1 to the page count are non-empty; later pages are empty. |
| Products.PagesUpToPrefix | components/products-panel.tsx:34-36 | Pages 1 to k, read in order, are the first 12k products. |
| Products.PagesCoverProducts | components/products-panel.tsx:32-36 | Pages 1 to the page count, read in order, give back exactly the product list. |
| Products.PanelViewSpec | components/products-panel.tsx:42-118 | The empty state shows exactly for no products. Paging controls show exactly for more than twelve products. A grid page shows at most twelve items. |
| Products.GridAddKey | components/products-panel.tsx:154 | After "Add to Bag" the bag holds a line keyed by the product with neither size nor colour. |
| Products.ProductsPanel.constructor | components/products-panel.tsx:30 | The panel starts on page 1. |
| Products.ProductsPanel.Render | components/products-panel.tsx:30-44 | Draws the current page's view. A page past the last one, with products present, is reset to 1; otherwise the page stays. |
| Products.ProductsPanel.Prev | components/products-panel.tsx:99 | Goes back one page, never below 1. |
| Products.ProductsPanel.Next | components/products-panel.tsx:111 | Goes forward one page, never past the last. |
| Products.ProductsPanel.AddToBag | components/products-panel.tsx:154 | Adds the product to the bag without size or colour, and opens the bag. |
| Text.TrimBlank | components/chat-panel.tsx:55 | A text trims to empty exactly when it is all whitespace. |
| Text.DecimalTextInjective | components/chat-panel.tsx:244 | Two integers with the same decimal rendering are equal. |
| Text.DecimalTextRoundTrip | components/chat-panel.tsx:244 | The decimal rendering of a non-negative integer is all digits and reads back as the same integer. |

## Left out

- Timing:
  - The delays (600, 500, 300, 800, 2000, 3000 and 300 ms) are not modelled.
  - Each `setTimeout` and each await of the reveal loop is an explicit step,
    in the order the code schedules them. The two awaits after the loop are
    folded into the steps that follow them.
  - Interleavings of user events with pending timers are not modelled.
- Stale closures are not modelled:
  - `handleNextFilter` reads `messages` and `currentFilterStep` from the
    render that scheduled it.
  - The model reads the current state.
- `Agent.FashionAgent.HandleSendMessage` runs a whole turn in one call, so
  `isLoading` is never true between events. The loading guards of
  `Chat.ChatPanel.HandleSubmit` and `Chat.ChatPanel.PickSuggestion` are
  therefore stated but never block.
- `Date.now()` message ids, the step ids (`step-i`, modelled as i) and the
  `Math.random()` order number on the success screen are left out. They are
  clocks and randomness.
- The product catalogs are a parameter (`Catalog`) rather than the literal
  product tables; only their order and the 50-item cap matter to the core.
- The source compares `ecommerceMode` only with `"full"`
  (components/fashion-agent.tsx:373, :383, :394; components/products-panel.tsx:74,
  :153), so it has two behaviours. The model takes "full", where the bag and
  checkout are shown. The other behaviour, with no bag and no checkout, is
  left out.
- Prices and price-range bounds are whole numbers (`int`) rather than
  JavaScript numbers. Every catalog price and every price-button and slider
  value in the source is whole, so the core loses nothing.
- The following UI concerns are not modelled:
  - scrolling, the chat-width resize drag and the chat open/close flag;
  - the bag item-count badge;
  - the product-detail modal;
  - the home screen and `app/page.tsx`, apart from the initial query they
    pass;
  - the HTML `required` and `maxLength` attributes.
- `toFixed(2)` rendering is not modelled. Tax, total and the hint amount are
  exact rationals.
- Some string semantics are simplified:
  - Strings are sequences of Unicode scalars rather than UTF-16 units.
  - Lower-casing is ASCII-only.
  - JavaScript prototype keys (such as `constructor`) looked up in the colour
    table are treated as unknown colours.
- `Agent.MergeSpec`: explicit `undefined` values inside a partial filter
  object are not distinguished from absent fields.
