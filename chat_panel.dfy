/**
  components/chat-panel.tsx: the canned confirmations for price, colour and
  size choices, the add-or-remove toggle of a colour or size, and the panel's
  handlers. The 800 ms `setTimeout(onNextFilter)` scheduled by every choice is
  a counter of pending advances, fired one at a time.
 */
module Chat {
  import opened Wrappers
  import opened Seqs
  import opened Text
  import opened AgentTypes
  import opened TurnEngine
  import opened Agent

  const BudgetLine := "Perfect! I'm focusing on budget-friendly pieces under $100. These options offer great value without compromising on style."
  const PremiumLine := "Excellent choice! I'm curating premium pieces in your price range. These items feature exceptional quality and craftsmanship."

  const PriceLead := "Great! I've adjusted the selection to show pieces between "
  const PriceTail := ". This range offers a perfect balance of quality and value."

  /** The quoted range of the middle band, `$lo-$hi`. */
  function PriceQuote(lo: int, hi: int): string
  {
    "$" + DecimalText(lo) + "-$" + DecimalText(hi)
  }

  /** `generatePriceResponse`: budget up to 100, premium from 300, otherwise the chosen bounds spelled out. */
  function PriceResponse(lo: int, hi: int): string
  {
    if hi <= 100 then BudgetLine
    else if lo >= 300 then PremiumLine
    else PriceLead + PriceQuote(lo, hi) + PriceTail
  }

  /** Past the lead and its dollar sign, a middle-band reply reads lower bound, `-$`, upper bound, tail. */
  lemma AfterLead(p: string, a: string, x: string, t: string)
    ensures (p + ("$" + a + "-$" + x) + t)[|p| + 1..] == a + ("-$" + (x + t))
  {
    assert p + ("$" + a + "-$" + x) + t == (p + "$") + (a + ("-$" + (x + t)));
  }

  /** Any range in the middle band is quoted back as `$lo-$hi`. */
  lemma PriceQuoted(lo: int, hi: int)
    requires hi > 100 && lo < 300
    ensures Contains(PriceResponse(lo, hi), "$" + DecimalText(lo) + "-$" + DecimalText(hi))
  {
    ContainsInfix(PriceLead, PriceQuote(lo, hi), PriceTail);
  }

  /**
    The budget line wins whenever the upper bound is at most 100 (even for a
    lower bound of 300 or more); the premium line needs an upper bound above
    100; every other range is quoted back as `$lo-$hi`.
   */
  lemma PriceResponseCases(lo: int, hi: int)
    ensures hi <= 100 ==> PriceResponse(lo, hi) == BudgetLine
    ensures hi > 100 && lo >= 300 ==> PriceResponse(lo, hi) == PremiumLine
    ensures hi > 100 && lo < 300 ==>
      Contains(PriceResponse(lo, hi), "$" + DecimalText(lo) + "-$" + DecimalText(hi))
  {
    if hi > 100 && lo < 300 {
      PriceQuoted(lo, hi);
    }
  }

  /** Two different ranges in the middle band are quoted differently. */
  lemma PriceQuoteInjective(lo: int, hi: int, lo': int, hi': int)
    requires hi > 100 && lo < 300 && hi' > 100 && lo' < 300
    requires PriceResponse(lo, hi) == PriceResponse(lo', hi')
    ensures lo == lo' && hi == hi'
  {
    var a, b := DecimalText(lo), DecimalText(lo');
    var x, y := DecimalText(hi), DecimalText(hi');
    var u, v := x + PriceTail, y + PriceTail;
    AfterLead(PriceLead, a, x, PriceTail);
    AfterLead(PriceLead, b, y, PriceTail);
    DecimalTextTail(lo);
    DecimalTextTail(lo');
    QuoteSplit(a, b, u, v);
    assert x == u[..|u| - |PriceTail|];
    assert y == v[..|v| - |PriceTail|];
    DecimalTextInjective(lo, lo');
    DecimalTextInjective(hi, hi');
  }

  /** `a + "-$" + u == b + "-$" + v`, where `a` and `b` hold no '-' after their first character, splits at the same place. */
  lemma QuoteSplit(a: string, b: string, u: string, v: string)
    requires a != [] && b != []
    requires forall i :: 0 < i < |a| ==> IsDigit(a[i])
    requires forall i :: 0 < i < |b| ==> IsDigit(b[i])
    requires a + ("-$" + u) == b + ("-$" + v)
    ensures a == b && u == v
  {
    var s := a + ("-$" + u);
    if |a| < |b| {
      JoinAt(a, "-$" + u, |a|);
      assert false;
    } else if |b| < |a| {
      JoinAt(b, "-$" + v, |b|);
      assert false;
    }
    assert a == s[..|a|];
    assert u == s[|a| + 2..];
  }

  lemma JoinAt(x: string, w: string, k: nat)
    requires k < |x| + |w|
    ensures (x + w)[k] == if k < |x| then x[k] else w[k - |x|]
  {
  }

  /** The nine colours with a dedicated line, and that line. */
  const ColorLines: map<string, string> := map[
    "Black" := "Classic choice! Black is timeless, versatile, and effortlessly sophisticated.",
    "Navy" := "Navy is elegant and professional - a wardrobe essential that pairs beautifully with everything.",
    "White" := "White pieces add freshness and elegance. Perfect for creating crisp, polished looks.",
    "Beige" := "Beige tones are wonderfully neutral and create soft, sophisticated outfits.",
    "Gray" := "Gray is understated yet refined - ideal for building a versatile wardrobe.",
    "Red" := "Bold and confident! Red makes a powerful statement and adds energy to any look.",
    "Pink" := "Pink brings a feminine, romantic touch. It's both playful and elegant.",
    "Blue" := "Blue is calming and universally flattering. A great choice for any occasion.",
    "Green" := "Green adds a fresh, natural element. It's unique yet surprisingly versatile."
  ]

  /** `generateColorResponse`: the colour's own line, or a generic line naming the colour. */
  function ColorResponse(color: string): string
  {
    if color in ColorLines then ColorLines[color]
    else "I love " + color + "! I'm filtering to show pieces in this beautiful color."
  }

  /** A listed colour gets its line; any other colour is named in the generic line. */
  lemma ColorResponseCases(color: string)
    ensures color in ColorLines ==> ColorResponse(color) == ColorLines[color]
    ensures color !in ColorLines ==> Contains(ColorResponse(color), color)
    ensures ColorResponse(color) != []
  {
    if color !in ColorLines {
      ContainsInfix("I love ", color, "! I'm filtering to show pieces in this beautiful color.");
    }
  }

  /** `generateSizeResponse`. */
  function SizeResponse(size: string): string
  {
    "Filtering for size " + size + ". All pieces shown will be available in your selected size for a perfect fit."
  }

  /** The size line names the size, and different sizes get different lines. */
  lemma SizeResponseNames(size: string, other: string)
    ensures Contains(SizeResponse(size), size)
    ensures SizeResponse(size) == SizeResponse(other) ==> size == other
  {
    var pre := "Filtering for size ";
    var post := ". All pieces shown will be available in your selected size for a perfect fit.";
    ContainsInfix(pre, size, post);
    if SizeResponse(size) == SizeResponse(other) {
      var s, t := SizeResponse(size), SizeResponse(other);
      assert |size| == |other|;
      assert size == s[|pre|..|pre| + |size|];
      assert other == t[|pre|..|pre| + |other|];
    }
  }

  /** The toggle of `toggleColor` and `toggleSize`: remove every copy if present, else append. */
  function Toggled(list: seq<string>, value: string): seq<string>
  {
    if value in list then Filter(list, (x: string) => x != value) else list + [value]
  }

  /**
    Toggling a value on appends it at the end; toggling it off removes every
    copy and keeps the rest in order. Either way, membership flips for that
    value and no other.
   */
  lemma ToggleSpec(list: seq<string>, value: string, other: string)
    ensures value !in list ==> Toggled(list, value) == list + [value]
    ensures value in list ==> value !in Toggled(list, value) && IsSubsequence(Toggled(list, value), list)
    ensures (value in Toggled(list, value)) <==> value !in list
    ensures other != value ==> (other in Toggled(list, value) <==> other in list)
  {
    var keep := (x: string) => x != value;
    if value in list {
      FilterMembership(list, keep, value);
      FilterMembership(list, keep, other);
      FilterIsSubsequence(list, keep);
    }
  }

  /** Toggling a value that was off, twice, restores the list exactly. */
  lemma ToggleTwiceRestores(list: seq<string>, value: string)
    requires value !in list
    ensures Toggled(Toggled(list, value), value) == list
  {
    var keep := (x: string) => x != value;
    assert value in list + [value];
    FilterConcat(list, [value], keep);
    FilterKeepsAll(list, keep);
    assert Filter([value], keep) == [];
  }

  /** The four suggestions offered under the greeting. */
  const Suggestions: seq<string> := [
    "Show me elegant dresses for a wedding",
    "I need comfortable everyday outfits",
    "Help me build a work wardrobe",
    "Find me statement accessories"
  ]

  class ChatPanel {
    var input: string
    /** Advances scheduled by choices and not yet run. */
    var pendingAdvances: nat
    const agent: FashionAgent

    constructor (agent: FashionAgent)
      ensures this.agent == agent && input == [] && pendingAdvances == 0
    {
      this.agent := agent;
      input := [];
      pendingAdvances := 0;
    }

    /** The textarea's `onChange`. */
    method SetInput(text: string)
      modifies this`input
      ensures input == text
    {
      input := text;
    }

    /**
      `handleSubmit`: a non-blank input is sent trimmed while no turn is
      loading, then the input and the confirmations are cleared; otherwise
      nothing happens.
     */
    method HandleSubmit()
      requires agent.Valid()
      modifies this`input, agent
      ensures agent.Valid()
      ensures Trim(old(input)) != [] && !old(agent.isLoading) ==> agent.TurnSent(Trim(old(input))) && input == []
      ensures !(Trim(old(input)) != [] && !old(agent.isLoading)) ==> unchanged(agent) && input == old(input)
    {
      if Trim(input) != [] && !agent.isLoading {
        var _, _ := agent.HandleSendMessage(Trim(input));
        input := [];
        agent.ClearFilterResponses();
      }
    }

    /**
      A suggestion button: sends its text as it is. The buttons are drawn only
      while the greeting is the sole message, and are disabled while loading.
     */
    method PickSuggestion(suggestion: string)
      requires agent.Valid() && !agent.isLoading
      requires |agent.messages| == 1 && suggestion in Suggestions
      modifies agent
      ensures agent.Valid()
      ensures agent.TurnSent(suggestion)
    {
      var _, _ := agent.HandleSendMessage(suggestion);
    }

    /** `handlePriceSelect`: set the price range, confirm it, and schedule an advance. */
    method HandlePriceSelect(lo: int, hi: int)
      modifies agent`filters, agent`filterResponses, this`pendingAdvances
      ensures agent.filters == old(agent.filters).(priceRange := (lo, hi))
      ensures agent.filterResponses == old(agent.filterResponses) + [PriceResponse(lo, hi)]
      ensures pendingAdvances == old(pendingAdvances) + 1
    {
      agent.HandleFilterChange(FilterChange(Some((lo, hi)), None, None, None, None));
      agent.AddFilterResponse(PriceResponse(lo, hi));
      pendingAdvances := pendingAdvances + 1;
    }

    /**
      `toggleColor`: flip the colour in the filter; confirm only when it was
      off; schedule an advance either way.
     */
    method ToggleColor(color: string)
      modifies agent`filters, agent`filterResponses, this`pendingAdvances
      ensures agent.filters == old(agent.filters).(colors := Toggled(old(agent.filters.colors), color))
      ensures agent.filterResponses == old(agent.filterResponses)
        + (if color in old(agent.filters.colors) then [] else [ColorResponse(color)])
      ensures pendingAdvances == old(pendingAdvances) + 1
    {
      var wasOn := color in agent.filters.colors;
      var newColors := Toggled(agent.filters.colors, color);
      agent.HandleFilterChange(FilterChange(None, Some(newColors), None, None, None));
      if !wasOn {
        agent.AddFilterResponse(ColorResponse(color));
      }
      pendingAdvances := pendingAdvances + 1;
    }

    /** `toggleSize`: as `toggleColor`, on the size dimension. */
    method ToggleSize(size: string)
      modifies agent`filters, agent`filterResponses, this`pendingAdvances
      ensures agent.filters == old(agent.filters).(sizes := Toggled(old(agent.filters.sizes), size))
      ensures agent.filterResponses == old(agent.filterResponses)
        + (if size in old(agent.filters.sizes) then [] else [SizeResponse(size)])
      ensures pendingAdvances == old(pendingAdvances) + 1
    {
      var wasOn := size in agent.filters.sizes;
      var newSizes := Toggled(agent.filters.sizes, size);
      agent.HandleFilterChange(FilterChange(None, None, Some(newSizes), None, None));
      if !wasOn {
        agent.AddFilterResponse(SizeResponse(size));
      }
      pendingAdvances := pendingAdvances + 1;
    }

    /** One scheduled advance runs `onNextFilter`. */
    method AdvanceFires()
      requires agent.Valid() && pendingAdvances > 0
      modifies agent`messages, agent`cursor, this`pendingAdvances
      ensures agent.Valid()
      ensures (agent.messages, agent.cursor) == NextFilter(old(agent.messages), old(agent.cursor))
      ensures pendingAdvances == old(pendingAdvances) - 1
    {
      agent.HandleNextFilter();
      pendingAdvances := pendingAdvances - 1;
    }

    /**
      The flow right after a turn: choosing a price and letting its advance run
      shows the colour prompt; choosing a colour and letting its advance run
      shows the size prompt.
     */
    method ChoosePriceThenColor(lo: int, hi: int, color: string)
      requires agent.Valid() && pendingAdvances == 0 && agent.cursor == 0
      requires agent.messages[|agent.messages| - 1].role == Assistant
      modifies agent`filters, agent`filterResponses, agent`messages, agent`cursor, this`pendingAdvances
      ensures agent.Valid() && pendingAdvances == 0 && agent.cursor == 2
      ensures ActivePrompt(agent.messages) == Some([SizePrompt])
      ensures agent.filters.priceRange == (lo, hi)
      ensures agent.filters.colors == Toggled(old(agent.filters.colors), color)
      ensures |agent.filterResponses| > |old(agent.filterResponses)|
    {
      HandlePriceSelect(lo, hi);
      AdvanceFires();
      NextFilterKeepsHistory(old(agent.messages), 0);
      ToggleColor(color);
      AdvanceFires();
    }
  }
}
