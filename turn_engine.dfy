/**
  The conversational turn of components/fashion-agent.tsx as pure functions:
  the three keyword-driven generators (thinking-step captions, reply text,
  product bucket), the fixed filter-prompt sequence, the shape of the step list
  while captions are revealed, and the prompt-cursor advance of
  `handleNextFilter`.
 */
module TurnEngine {
  import opened Wrappers
  import opened Seqs
  import opened Text
  import opened AgentTypes

  /** The three product buckets of the catalog. */
  datatype Catalog = Catalog(dress: seq<Product>, casual: seq<Product>, work: seq<Product>)

  /** The outcome of the keyword tests, one per branch of the generators. */
  datatype Topic = Formal | Casual | Work | General

  /**
    The keyword tests in their fixed priority: formal words first, then casual,
    then work, otherwise the general bucket. Matching is on the lower-cased text.
   */
  function Classify(userMessage: string): (t: Topic)
  {
    var lower := ToLower(userMessage);
    if Contains(lower, "dress") || Contains(lower, "evening") || Contains(lower, "formal") then Formal
    else if Contains(lower, "casual") || Contains(lower, "everyday") || Contains(lower, "comfortable") then Casual
    else if Contains(lower, "work") || Contains(lower, "office") || Contains(lower, "professional") then Work
    else General
  }

  const FormalSteps: seq<string> := [
    "Analyzing your occasion and style preferences...",
    "Searching our formal wear collection...",
    "Evaluating silhouettes and fabrics for elegance...",
    "Curating the perfect pieces for you..."]

  const CasualSteps: seq<string> := [
    "Understanding your comfort priorities...",
    "Exploring casual essentials and versatile pieces...",
    "Considering color palettes and fabric textures...",
    "Selecting items that match your lifestyle..."]

  const WorkSteps: seq<string> := [
    "Assessing professional style requirements...",
    "Browsing contemporary workwear collections...",
    "Balancing sophistication with comfort...",
    "Building your ideal work wardrobe..."]

  const GeneralSteps: seq<string> := [
    "Processing your style preferences...",
    "Analyzing current trends and timeless pieces...",
    "Matching items to your aesthetic...",
    "Finalizing your personalized selection..."]

  const FormalReply := "I've curated a selection of " + "elegant dresses" + " perfect for formal occasions. These pieces combine timeless sophistication with modern cuts. Would you like to see more casual options or accessories to complete the look?"
  const CasualReply := "Here are some effortlessly chic casual pieces that prioritize comfort without sacrificing style. These versatile items can be mixed and matched for endless outfit possibilities. What's your preferred color palette?"
  const WorkReply := "I've selected polished pieces perfect for the modern workplace. These items strike the perfect balance between professional and stylish. Would you like to explore statement accessories?"
  const GeneralReply := "Based on your preferences, I've curated a collection that matches your style. Each piece has been selected for quality, fit, and versatility. Let me know if you'd like to refine the selection or explore different categories!"

  /** `generateThinkingSteps`: its own chain of keyword tests. */
  function GenerateThinkingSteps(userMessage: string): seq<string>
  {
    var lower := ToLower(userMessage);
    if Contains(lower, "dress") || Contains(lower, "evening") || Contains(lower, "formal") then FormalSteps
    else if Contains(lower, "casual") || Contains(lower, "everyday") || Contains(lower, "comfortable") then CasualSteps
    else if Contains(lower, "work") || Contains(lower, "office") || Contains(lower, "professional") then WorkSteps
    else GeneralSteps
  }

  /** `generateResponse`: its own chain of keyword tests. */
  function GenerateResponse(userMessage: string): string
  {
    var lower := ToLower(userMessage);
    if Contains(lower, "dress") || Contains(lower, "evening") || Contains(lower, "formal") then FormalReply
    else if Contains(lower, "casual") || Contains(lower, "everyday") || Contains(lower, "comfortable") then CasualReply
    else if Contains(lower, "work") || Contains(lower, "office") || Contains(lower, "professional") then WorkReply
    else GeneralReply
  }

  /** `generateProducts`: its own chain of keyword tests; the general bucket is the first 50 of all three. */
  function GenerateProducts(catalog: Catalog, userMessage: string): seq<Product>
  {
    var lower := ToLower(userMessage);
    if Contains(lower, "dress") || Contains(lower, "evening") || Contains(lower, "formal") then catalog.dress
    else if Contains(lower, "casual") || Contains(lower, "everyday") || Contains(lower, "comfortable") then catalog.casual
    else if Contains(lower, "work") || Contains(lower, "office") || Contains(lower, "professional") then catalog.work
    else Slice(catalog.dress + catalog.casual + catalog.work, 0, 50)
  }

  /** The reference tables, keyed by one classification. */
  function StepsFor(t: Topic): seq<string>
  {
    match t
    case Formal => FormalSteps
    case Casual => CasualSteps
    case Work => WorkSteps
    case General => GeneralSteps
  }

  function ReplyFor(t: Topic): string
  {
    match t
    case Formal => FormalReply
    case Casual => CasualReply
    case Work => WorkReply
    case General => GeneralReply
  }

  function BucketFor(catalog: Catalog, t: Topic): seq<Product>
  {
    match t
    case Formal => catalog.dress
    case Casual => catalog.casual
    case Work => catalog.work
    case General => Slice(catalog.dress + catalog.casual + catalog.work, 0, 50)
  }

  /** The three independent if-chains always take the same branch: each is its table at `Classify`. */
  lemma GeneratorsAgree(catalog: Catalog, userMessage: string)
    ensures GenerateThinkingSteps(userMessage) == StepsFor(Classify(userMessage))
    ensures GenerateResponse(userMessage) == ReplyFor(Classify(userMessage))
    ensures GenerateProducts(catalog, userMessage) == BucketFor(catalog, Classify(userMessage))
  {
  }

  /** Every branch reveals exactly four steps. */
  lemma FourSteps(userMessage: string)
    ensures |GenerateThinkingSteps(userMessage)| == 4
  {
  }

  /** Classification ignores letter case: an utterance and its lower-cased form fall in the same bucket. */
  lemma ClassifyIgnoresCase(userMessage: string)
    ensures Classify(ToLower(userMessage)) == Classify(userMessage)
  {
    ToLowerIdempotent(userMessage);
  }

  /** The general bucket is the concatenated catalog cut to 50; a catalog of at most 50 is kept whole. */
  lemma GeneralBucket(catalog: Catalog)
    ensures |BucketFor(catalog, General)| <= 50
    ensures BucketFor(catalog, General) <= catalog.dress + catalog.casual + catalog.work
    ensures |catalog.dress| + |catalog.casual| + |catalog.work| <= 50 ==>
      BucketFor(catalog, General) == catalog.dress + catalog.casual + catalog.work
  {
  }

  const WeddingRequest := "Show me elegant dresses for a wedding"

  /** The formal scenario: dress bucket, formal captions, a reply about elegant dresses. */
  lemma FormalScenario(catalog: Catalog)
    ensures Classify(WeddingRequest) == Formal
    ensures GenerateProducts(catalog, WeddingRequest) == catalog.dress
    ensures GenerateThinkingSteps(WeddingRequest) == FormalSteps
    ensures Contains(GenerateResponse(WeddingRequest), "elegant dresses")
  {
    var lower := ToLower(WeddingRequest);
    assert WeddingRequest[16..21] == "dress";
    assert lower[16..21] == WeddingRequest[16..21];
    assert OccursAt(lower, "dress", 16);
    ContainsAt(lower, "dress", 16);
    ContainsInfix("I've curated a selection of ", "elegant dresses",
      " perfect for formal occasions. These pieces combine timeless sophistication with modern cuts. Would you like to see more casual options or accessories to complete the look?");
  }

  const PricePrompt := FilterPrompt(PriceKind, "What's your budget?", None)
  const ColorPrompt := FilterPrompt(ColorKind, "Preferred colors?",
    Some(["Black", "White", "Navy", "Beige", "Gray", "Blue", "Red", "Pink", "Green"]))
  const SizePrompt := FilterPrompt(SizeKind, "Your size?", Some(["XS", "S", "M", "L", "XL", "XXL"]))

  /** `generateFilterPrompts`: the same three prompts whatever the utterance. */
  function GenerateFilterPrompts(userMessage: string): (r: seq<FilterPrompt>)
  {
    [PricePrompt, ColorPrompt, SizePrompt]
  }

  /** The step list after `n` reveals: captions `0..n-1` in order, only the newest one still thinking. */
  function Revealed(captions: seq<string>, n: nat): (r: seq<ThinkingStep>)
    requires n <= |captions|
  {
    seq(n, k requires 0 <= k < n => ThinkingStep(k, captions[k], if k == n - 1 then Thinking else Complete))
  }

  /** `prev.map(s => ({ ...s, status: "complete" }))`. */
  function MarkAllComplete(steps: seq<ThinkingStep>): (r: seq<ThinkingStep>)
  {
    seq(|steps|, k requires 0 <= k < |steps| => steps[k].(status := Complete))
  }

  /** One reveal (completing the earlier steps and appending a thinking one) moves from `n` to `n + 1` revealed. */
  lemma RevealNext(captions: seq<string>, n: nat)
    requires n < |captions|
    ensures MarkAllComplete(Revealed(captions, n)) + [ThinkingStep(n, captions[n], Thinking)]
      == Revealed(captions, n + 1)
  {
    var lhs := MarkAllComplete(Revealed(captions, n)) + [ThinkingStep(n, captions[n], Thinking)];
    forall k | 0 <= k < n + 1 ensures lhs[k] == Revealed(captions, n + 1)[k] {
    }
  }

  /** After reveal `n` (counting from 1) the list has `n` entries, the first `n-1` complete and the last thinking. */
  lemma RevealedShape(captions: seq<string>, n: nat)
    requires 0 < n <= |captions|
    ensures |Revealed(captions, n)| == n
    ensures forall k :: 0 <= k < n - 1 ==> Revealed(captions, n)[k].status == Complete
    ensures Revealed(captions, n)[n - 1].status == Thinking
    ensures forall k :: 0 <= k < n ==> Revealed(captions, n)[k].step == captions[k]
  {
  }

  /**
    `handleNextFilter`: nothing happens unless the last message is the
    assistant's; otherwise the cursor moves to the next of the three prompts and
    that prompt replaces the last message's `filterPrompts`, or, past the last
    prompt, the field is cleared and the cursor stays.
   */
  function NextFilter(messages: seq<Message>, cursor: nat): (seq<Message>, nat)
    requires |messages| > 0
  {
    var last := messages[|messages| - 1];
    if last.role != Assistant then (messages, cursor)
    else
      var prompts := GenerateFilterPrompts("");
      var next := cursor + 1;
      if next < |prompts| then
        (messages[..|messages| - 1] + [last.(filterPrompts := Some([prompts[next]]))], next)
      else
        (messages[..|messages| - 1] + [last.(filterPrompts := None)], cursor)
  }

  /** The prompt attached to the last message, if any. */
  function ActivePrompt(messages: seq<Message>): Option<seq<FilterPrompt>>
    requires |messages| > 0
  {
    messages[|messages| - 1].filterPrompts
  }

  /** Advancing never touches earlier messages, nor the last message's role and text. */
  lemma NextFilterKeepsHistory(messages: seq<Message>, cursor: nat)
    requires |messages| > 0
    ensures var (ms, _) := NextFilter(messages, cursor);
      && |ms| == |messages|
      && ms[..|ms| - 1] == messages[..|messages| - 1]
      && ms[|ms| - 1].role == messages[|messages| - 1].role
      && ms[|ms| - 1].content == messages[|messages| - 1].content
  {
  }

  /** The cases of the advance: no-op, step to the next prompt, or clear at the end. */
  lemma NextFilterCases(messages: seq<Message>, cursor: nat)
    requires |messages| > 0
    ensures var (ms, c) := NextFilter(messages, cursor);
      && (messages[|messages| - 1].role != Assistant ==> ms == messages && c == cursor)
      && (messages[|messages| - 1].role == Assistant && cursor + 1 < 3 ==>
            c == cursor + 1 && ActivePrompt(ms) == Some([GenerateFilterPrompts("")[cursor + 1]]))
      && (messages[|messages| - 1].role == Assistant && cursor + 1 >= 3 ==>
            c == cursor && ActivePrompt(ms) == None)
  {
  }

  /**
    Starting from a turn's answer (last message from the assistant, cursor 0),
    successive advances present the colour prompt, then the size prompt, then
    none, and none stays, whatever the turn was about.
   */
  lemma {:induction false} PromptSequence(messages: seq<Message>)
    requires |messages| > 0 && messages[|messages| - 1].role == Assistant
    ensures var (m1, c1) := NextFilter(messages, 0);
      && c1 == 1 && ActivePrompt(m1) == Some([ColorPrompt])
      && var (m2, c2) := NextFilter(m1, c1);
      && c2 == 2 && ActivePrompt(m2) == Some([SizePrompt])
      && var (m3, c3) := NextFilter(m2, c2);
      && c3 == 2 && ActivePrompt(m3) == None
      && NextFilter(m3, c3).1 == 2 && ActivePrompt(NextFilter(m3, c3).0) == None
  {
    var (m1, c1) := NextFilter(messages, 0);
    NextFilterKeepsHistory(messages, 0);
    var (m2, c2) := NextFilter(m1, c1);
    NextFilterKeepsHistory(m1, c1);
    var (m3, c3) := NextFilter(m2, c2);
    NextFilterKeepsHistory(m2, c2);
  }
}
