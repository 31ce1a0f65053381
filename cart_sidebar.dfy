/**
  The derived amounts of components/cart-sidebar.tsx (subtotal, 8% tax,
  flat shipping under the free-shipping threshold, total), the
  free-shipping hint, and the quantity requests of the minus and plus buttons.
  Amounts are exact: whole-unit prices, and `real` for tax and total.
 */
module CartSidebar {
  import opened Wrappers
  import opened AgentTypes
  import opened CartLedger

  function LineAmount(line: CartLine): int
  {
    line.product.price * line.quantity
  }

  /** `cart.reduce((sum, item) => sum + item.product.price * item.quantity, 0)`, folded from the left. */
  function Subtotal(lines: seq<CartLine>): int
  {
    if lines == [] then 0 else Subtotal(lines[..|lines| - 1]) + LineAmount(lines[|lines| - 1])
  }

  function Tax(subtotal: int): real
  {
    subtotal as real * 0.08
  }

  function Shipping(subtotal: int): int
  {
    if subtotal > 100 then 0 else 10
  }

  function Total(subtotal: int): real
  {
    subtotal as real + Tax(subtotal) + Shipping(subtotal) as real
  }

  datatype Totals = Totals(subtotal: int, tax: real, shipping: int, total: real)

  /** The four amounts the sidebar shows for a cart. */
  function SidebarTotals(lines: seq<CartLine>): Totals
  {
    var subtotal := Subtotal(lines);
    Totals(subtotal, Tax(subtotal), Shipping(subtotal), Total(subtotal))
  }

  /**
    The amount named by "Add $X more for free shipping". The hint sits in the
    totals footer, which is drawn only for a non-empty cart, and shows only
    under 100.
   */
  function FreeShippingHint(lines: seq<CartLine>): Option<int>
  {
    if lines != [] && Subtotal(lines) < 100 then Some(100 - Subtotal(lines)) else None
  }

  /** The arguments the minus and plus buttons pass to `onUpdateQuantity`. */
  datatype QuantityRequest = QuantityRequest(key: LineKey, quantity: int)

  function MinusRequest(line: CartLine): QuantityRequest
  {
    QuantityRequest(KeyOf(line), line.quantity - 1)
  }

  function PlusRequest(line: CartLine): QuantityRequest
  {
    QuantityRequest(KeyOf(line), line.quantity + 1)
  }

  /** The subtotal of a concatenation is the sum of the subtotals; the empty cart's is 0. */
  lemma {:induction false} SubtotalConcat(a: seq<CartLine>, b: seq<CartLine>)
    ensures Subtotal(a + b) == Subtotal(a) + Subtotal(b)
    ensures Subtotal([]) == 0
    decreases |b|
  {
    if b != [] {
      var ab := a + b;
      assert ab[..|ab| - 1] == a + b[..|b| - 1];
      SubtotalConcat(a, b[..|b| - 1]);
    } else {
      assert a + b == a;
    }
  }

  /** The subtotal is the sum of price times quantity, line by line from the front. */
  lemma SubtotalFromFront(lines: seq<CartLine>)
    requires lines != []
    ensures Subtotal(lines) == LineAmount(lines[0]) + Subtotal(lines[1..])
  {
    SubtotalConcat([lines[0]], lines[1..]);
    assert [lines[0]] + lines[1..] == lines;
    assert [lines[0]][..0] == [];
  }

  /** With non-negative prices and the ledger invariant, the subtotal is never negative. */
  lemma {:induction false} SubtotalNonNegative(lines: seq<CartLine>)
    requires ValidCart(lines)
    requires forall i :: 0 <= i < |lines| ==> lines[i].product.price >= 0
    ensures Subtotal(lines) >= 0
  {
    if lines != [] {
      var init := lines[..|lines| - 1];
      assert ValidCart(init) by {
        assert forall i :: 0 <= i < |init| ==> init[i] == lines[i];
      }
      SubtotalNonNegative(init);
    }
  }

  /** Replacing one line changes the subtotal by the difference of the two line amounts. */
  lemma SubtotalPointUpdate(lines: seq<CartLine>, i: nat, line: CartLine)
    requires i < |lines|
    ensures Subtotal(lines[i := line]) == Subtotal(lines) - LineAmount(lines[i]) + LineAmount(line)
  {
    var pre, post := lines[..i], lines[i + 1..];
    assert lines == pre + [lines[i]] + post;
    assert lines[i := line] == pre + [line] + post;
    SubtotalConcat(pre + [lines[i]], post);
    SubtotalConcat(pre + [line], post);
    SubtotalConcat(pre, [lines[i]]);
    SubtotalConcat(pre, [line]);
    assert [lines[i]][..0] == [] && [line][..0] == [];
  }

  lemma AddExistingIsPointUpdate(lines: seq<CartLine>, product: Product, size: Option<string>, color: Option<string>, i: nat)
    requires ValidCart(lines)
    requires i < |lines| && KeyOf(lines[i]) == LineKey(product.id, size, color)
    ensures AddToCart(lines, product, size, color) == lines[i := lines[i].(quantity := lines[i].quantity + 1)]
  {
    AddExisting(lines, product, size, color, i);
  }

  lemma BumpAmount(line: CartLine)
    ensures LineAmount(line.(quantity := line.quantity + 1)) == LineAmount(line) + line.product.price
  {
    calc {
      LineAmount(line.(quantity := line.quantity + 1));
      line.product.price * (line.quantity + 1);
      line.product.price * line.quantity + line.product.price;
    }
  }

  /** Incrementing the line at `i` raises the subtotal by that line's unit price. */
  lemma SubtotalAfterBump(lines: seq<CartLine>, i: nat)
    requires i < |lines|
    ensures Subtotal(lines[i := lines[i].(quantity := lines[i].quantity + 1)]) == Subtotal(lines) + lines[i].product.price
  {
    SubtotalPointUpdate(lines, i, lines[i].(quantity := lines[i].quantity + 1));
    BumpAmount(lines[i]);
  }

  /**
    Adding a product raises the subtotal by its price, whether it opens a new
    line or increments an existing one (whose snapshot has the same price).
   */
  lemma SubtotalAfterAdd(lines: seq<CartLine>, product: Product, size: Option<string>, color: Option<string>)
    requires ValidCart(lines)
    requires forall i :: 0 <= i < |lines| && lines[i].product.id == product.id ==> lines[i].product.price == product.price
    ensures Subtotal(AddToCart(lines, product, size, color)) == Subtotal(lines) + product.price
  {
    var k := LineKey(product.id, size, color);
    if HasKey(lines, k) {
      var i :| 0 <= i < |lines| && KeyOf(lines[i]) == k;
      AddExistingIsPointUpdate(lines, product, size, color, i);
      SubtotalAfterBump(lines, i);
    } else {
      SubtotalConcat(lines, [CartLine(product, 1, size, color)]);
      assert [CartLine(product, 1, size, color)][..0] == [];
    }
  }

  /** The totals law: tax is 8% of the subtotal, shipping is 0 above 100 and 10 otherwise, and they add up. */
  lemma TotalsLaw(lines: seq<CartLine>)
    ensures var t := SidebarTotals(lines);
      && t.subtotal == Subtotal(lines)
      && t.tax == t.subtotal as real * 8.0 / 100.0
      && (t.shipping == 0 <==> t.subtotal > 100)
      && (t.shipping != 0 ==> t.shipping == 10)
      && t.total == t.subtotal as real + t.tax + t.shipping as real
      && (t.subtotal >= 0 ==> t.total >= t.subtotal as real)
  {
  }

  /**
    The hint shows exactly for a non-empty cart under 100 and names the
    distance to 100; an empty cart shows none; at exactly 100 shipping is
    charged with no hint.
   */
  lemma HintLaw(lines: seq<CartLine>)
    ensures FreeShippingHint(lines).Some? <==> lines != [] && Subtotal(lines) < 100
    ensures FreeShippingHint(lines).Some? ==> FreeShippingHint(lines).value == 100 - Subtotal(lines)
    ensures FreeShippingHint([]) == None
    ensures Subtotal(lines) == 100 ==> Shipping(Subtotal(lines)) == 10 && FreeShippingHint(lines) == None
  {
  }

  /** Adding exactly the hinted amount reaches 100, where shipping is still charged (the threshold is strict). */
  lemma HintedAmountStillPaysShipping(lines: seq<CartLine>)
    requires FreeShippingHint(lines).Some?
    ensures lines != []
    ensures Subtotal(lines) + FreeShippingHint(lines).value == 100
    ensures Shipping(Subtotal(lines) + FreeShippingHint(lines).value) == 10
  {
  }

  /** Minus on a line of quantity 1 removes that line; plus asks for one more of the same key. */
  lemma MinusOnSingleRemoves(lines: seq<CartLine>, i: nat)
    requires ValidCart(lines) && i < |lines| && lines[i].quantity == 1
    ensures var req := MinusRequest(lines[i]);
      && req.key == KeyOf(lines[i])
      && UpdateCartQuantity(lines, req.key, req.quantity) == RemoveFromCart(lines, KeyOf(lines[i]))
      && lines[i] !in UpdateCartQuantity(lines, req.key, req.quantity)
    ensures PlusRequest(lines[i]) == QuantityRequest(KeyOf(lines[i]), 2)
  {
    RemoveSpec(lines, KeyOf(lines[i]));
  }
}
