/**
  The records exported by components/fashion-agent.tsx: messages, filter
  prompts, thinking steps, products and the five-dimensional filter state.
  Display-only fields (image paths, descriptions, retailer links) and the
  clock-derived message ids are not part of the model.
 */
module AgentTypes {
  import opened Wrappers

  datatype Role = User | Assistant

  datatype PromptKind = PriceKind | ColorKind | SizeKind | CategoryKind | BrandKind

  /** One pending question (`label` in the source); `options` lists the choices of a colour or size prompt. */
  datatype FilterPrompt = FilterPrompt(kind: PromptKind, question: string, options: Option<seq<string>>)

  /** A chat message; `filterPrompts` is `None` when the field is `undefined`. */
  datatype Message = Message(role: Role, content: string, filterPrompts: Option<seq<FilterPrompt>>)

  datatype StepStatus = Thinking | Complete

  /** A transient caption shown while a turn is in progress; `id` is the `i` of `step-${i}`. */
  datatype ThinkingStep = ThinkingStep(id: nat, step: string, status: StepStatus)

  /** A catalog record; prices are whole currency units, as every record in the catalog has. */
  datatype Product = Product(
    id: string,
    name: string,
    price: int,
    category: string,
    brand: string,
    colors: seq<string>,
    sizes: seq<string>)

  /** The filter state; an empty list in a dimension means "no constraint". */
  datatype Filters = Filters(
    priceRange: (int, int),
    colors: seq<string>,
    sizes: seq<string>,
    categories: seq<string>,
    brands: seq<string>)

  /** The state set initially, at every new turn and by the reset handler. */
  const DefaultFilters := Filters((0, 1000), [], [], [], [])
}
