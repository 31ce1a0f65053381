/**
  The cart of components/fashion-agent.tsx: lines keyed by product id,
  selected size and selected colour, and the four updates applied to the line
  list (add-or-increment, set quantity, remove, clear).
 */
module CartLedger {
  import opened Wrappers
  import opened Seqs
  import opened AgentTypes

  /** A cart line; size and colour are `None` when the add left them `undefined`. */
  datatype CartLine = CartLine(
    product: Product,
    quantity: int,
    selectedSize: Option<string>,
    selectedColor: Option<string>)

  /** The composite identity compared with `===` field by field. */
  datatype LineKey = LineKey(productId: string, size: Option<string>, color: Option<string>)

  function KeyOf(line: CartLine): LineKey
  {
    LineKey(line.product.id, line.selectedSize, line.selectedColor)
  }

  predicate HasKey(lines: seq<CartLine>, k: LineKey)
  {
    exists i :: 0 <= i < |lines| && KeyOf(lines[i]) == k
  }

  /** The ledger invariant: no two lines share a key and every quantity is positive. */
  predicate ValidCart(lines: seq<CartLine>)
  {
    && (forall i, j :: 0 <= i < j < |lines| ==> KeyOf(lines[i]) != KeyOf(lines[j]))
    && (forall i :: 0 <= i < |lines| ==> lines[i].quantity > 0)
  }

  /** `addToCart`: increment every line with the key if one exists, else append a line of quantity 1. */
  function AddToCart(lines: seq<CartLine>, product: Product, size: Option<string>, color: Option<string>): seq<CartLine>
  {
    var k := LineKey(product.id, size, color);
    if HasKey(lines, k) then
      seq(|lines|, i requires 0 <= i < |lines| =>
        if KeyOf(lines[i]) == k then lines[i].(quantity := lines[i].quantity + 1) else lines[i])
    else
      lines + [CartLine(product, 1, size, color)]
  }

  /** `removeFromCart`: keep the lines whose key differs. */
  function RemoveFromCart(lines: seq<CartLine>, k: LineKey): seq<CartLine>
  {
    Filter(lines, (line: CartLine) => KeyOf(line) != k)
  }

  /** `updateCartQuantity`: a quantity of 0 or less removes; otherwise matching lines take the new quantity. */
  function UpdateCartQuantity(lines: seq<CartLine>, k: LineKey, quantity: int): seq<CartLine>
  {
    if quantity <= 0 then RemoveFromCart(lines, k)
    else
      seq(|lines|, i requires 0 <= i < |lines| =>
        if KeyOf(lines[i]) == k then lines[i].(quantity := quantity) else lines[i])
  }

  /** An existing key: same length, that line's quantity up by one, every other line unchanged. */
  lemma AddExisting(lines: seq<CartLine>, product: Product, size: Option<string>, color: Option<string>, i: nat)
    requires ValidCart(lines)
    requires i < |lines| && KeyOf(lines[i]) == LineKey(product.id, size, color)
    ensures var r := AddToCart(lines, product, size, color);
      && |r| == |lines|
      && r[i] == lines[i].(quantity := lines[i].quantity + 1)
      && forall j :: 0 <= j < |lines| && j != i ==> r[j] == lines[j]
  {
  }

  /** A new key: exactly one line of quantity 1 appended at the end. */
  lemma AddNew(lines: seq<CartLine>, product: Product, size: Option<string>, color: Option<string>)
    requires !HasKey(lines, LineKey(product.id, size, color))
    ensures AddToCart(lines, product, size, color) == lines + [CartLine(product, 1, size, color)]
  {
  }

  lemma AddPreservesValid(lines: seq<CartLine>, product: Product, size: Option<string>, color: Option<string>)
    requires ValidCart(lines)
    ensures ValidCart(AddToCart(lines, product, size, color))
  {
    var k := LineKey(product.id, size, color);
    if !HasKey(lines, k) {
      var r := AddToCart(lines, product, size, color);
      forall i, j | 0 <= i < j < |r| ensures KeyOf(r[i]) != KeyOf(r[j]) {
        if j == |lines| {
          assert KeyOf(r[j]) == k;
        }
      }
    }
  }

  /** Adding the same product, size and colour twice to a cart without that key gives one line of quantity 2. */
  lemma AddTwiceMerges(lines: seq<CartLine>, product: Product, size: Option<string>, color: Option<string>)
    requires ValidCart(lines)
    requires !HasKey(lines, LineKey(product.id, size, color))
    ensures AddToCart(AddToCart(lines, product, size, color), product, size, color)
      == lines + [CartLine(product, 2, size, color)]
  {
    var once := AddToCart(lines, product, size, color);
    assert once == lines + [CartLine(product, 1, size, color)];
    AddPreservesValid(lines, product, size, color);
    assert KeyOf(once[|lines|]) == LineKey(product.id, size, color);
    AddExisting(once, product, size, color, |lines|);
    var twice := AddToCart(once, product, size, color);
    assert twice == lines + [CartLine(product, 2, size, color)] by {
      forall j | 0 <= j < |lines| ensures twice[j] == lines[j] {
        assert once[j] == lines[j];
      }
    }
  }

  /** Removal drops exactly the lines with the key and keeps the others in order. */
  lemma RemoveSpec(lines: seq<CartLine>, k: LineKey)
    ensures var r := RemoveFromCart(lines, k);
      && IsSubsequence(r, lines)
      && (forall line :: line in r <==> line in lines && KeyOf(line) != k)
      && (!HasKey(lines, k) ==> r == lines)
  {
    var keep := (line: CartLine) => KeyOf(line) != k;
    FilterIsSubsequence(lines, keep);
    forall line ensures line in RemoveFromCart(lines, k) <==> line in lines && KeyOf(line) != k {
      FilterMembership(lines, keep, line);
    }
    if !HasKey(lines, k) {
      FilterKeepsAll(lines, keep);
    }
  }

  lemma {:induction false} RemovePreservesValid(lines: seq<CartLine>, k: LineKey)
    requires ValidCart(lines)
    ensures ValidCart(RemoveFromCart(lines, k))
  {
    if lines != [] {
      var keep := (line: CartLine) => KeyOf(line) != k;
      var tail := lines[1..];
      assert ValidCart(tail) by {
        forall i | 0 <= i < |tail| ensures tail[i].quantity > 0 { assert tail[i] == lines[i + 1]; }
      }
      RemovePreservesValid(tail, k);
      var rest := RemoveFromCart(tail, k);
      if keep(lines[0]) {
        var r := [lines[0]] + rest;
        assert RemoveFromCart(lines, k) == r;
        forall i, j | 0 <= i < j < |r| ensures KeyOf(r[i]) != KeyOf(r[j]) {
          if i == 0 {
            FilterMembership(tail, keep, r[j]);
            assert r[j] in tail;
          }
        }
        forall i | 0 <= i < |r| ensures r[i].quantity > 0 {
          if i > 0 { FilterMembership(tail, keep, r[i]); }
        }
      } else {
        assert RemoveFromCart(lines, k) == rest;
      }
    }
  }

  /** A positive update changes only the quantity of the matching line: length, order and other lines stay. */
  lemma UpdatePositive(lines: seq<CartLine>, k: LineKey, quantity: int)
    requires quantity > 0
    ensures var r := UpdateCartQuantity(lines, k, quantity);
      && |r| == |lines|
      && (forall i :: 0 <= i < |lines| && KeyOf(lines[i]) == k ==> r[i] == lines[i].(quantity := quantity))
      && (forall i :: 0 <= i < |lines| && KeyOf(lines[i]) != k ==> r[i] == lines[i])
      && (!HasKey(lines, k) ==> r == lines)
  {
  }

  /** Any update keeps the cart well-formed; a quantity of 0 or less leaves no line with the key. */
  lemma UpdatePreservesValid(lines: seq<CartLine>, k: LineKey, quantity: int)
    requires ValidCart(lines)
    ensures ValidCart(UpdateCartQuantity(lines, k, quantity))
    ensures quantity <= 0 ==> !HasKey(UpdateCartQuantity(lines, k, quantity), k)
  {
    if quantity <= 0 {
      RemovePreservesValid(lines, k);
      RemoveSpec(lines, k);
    } else {
      var r := UpdateCartQuantity(lines, k, quantity);
      assert forall i :: 0 <= i < |r| ==> KeyOf(r[i]) == KeyOf(lines[i]);
    }
  }

  const ScenarioDress := Product("d1", "Silk Midi Dress", 395, "Dresses", "MAISON", ["Navy", "Black"], ["XS", "S", "M", "L"])

  /** Setting the only line's quantity to 0 empties the cart. */
  lemma RemovalScenario()
    ensures UpdateCartQuantity([CartLine(ScenarioDress, 1, Some("M"), Some("Black"))],
      LineKey("d1", Some("M"), Some("Black")), 0) == []
  {
    var line := CartLine(ScenarioDress, 1, Some("M"), Some("Black"));
    assert KeyOf(line) == LineKey("d1", Some("M"), Some("Black"));
    assert [line][1..] == [];
  }
}
