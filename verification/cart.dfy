/**
 * The in-memory shopping cart: an ordered list of line items, at most one per
 * product, each a copy of the catalog entry taken when the product was first added
 * (app.js:163-251).
 */
module CartStore {
  import opened Results
  import opened Seqs
  import opened Catalog

  /** One product-and-quantity entry; name, price and category are copied at add time. */
  datatype LineItem = LineItem(
    productId: string,
    name: string,
    price: int,
    quantity: int,
    category: string)

  type Cart = seq<LineItem>

  /** Why a cart operation refused; each refusal leaves the cart as it was. */
  datatype CartError =
    | ProductNotFound                    // app.js:166-169
    | QuantityBelowOne                   // app.js:174-177
    | StockInsufficient(available: int)  // app.js:179-182, the requested quantity alone
    | MergedExceedsStock(available: int) // app.js:188-191, existing plus requested
    | AdjustExceedsStock(available: int) // app.js:222-225

  /** `cart.find(item => item.productId === id)`: the position of the first line for `id`. */
  function FindLine(cart: Cart, id: string): (r: Option<nat>)
    ensures r.Some? ==>
              && r.value < |cart|
              && cart[r.value].productId == id
              && forall j :: 0 <= j < r.value ==> cart[j].productId != id
    ensures r.None? <==> forall j :: 0 <= j < |cart| ==> cart[j].productId != id
    decreases |cart|
  {
    if cart == [] then None
    else if cart[0].productId == id then Some(0)
    else match FindLine(cart[1..], id)
      case None => None
      case Some(k) => Some(k + 1)
  }

  /** The quantity the cart shows for a product: that of its first line, or 0 without one. */
  function QuantityOf(cart: Cart, id: string): int
  {
    match FindLine(cart, id)
    case None => 0
    case Some(i) => cart[i].quantity
  }

  /** The line `addToCart` appends for a product not yet in the cart (app.js:194-200). */
  function NewLine(p: Product, quantity: int): LineItem
  {
    LineItem(p.id, p.name, p.price, quantity, p.category)
  }

  /**
   * `addToCart(productId)` after its quantity field has been read: `quantity` is the value
   * `QuantityOrOne` produces at app.js:172, so it is never 0. The checks run
   * in the source's order: unknown product, quantity below one, quantity above stock,
   * merged quantity above stock. A product already in the cart has its first line
   * increased; otherwise one line is appended at the end.
   */
  function AddToCart(catalog: seq<Product>, cart: Cart, id: string, quantity: int): (r: Result<Cart, CartError>)
    ensures FindProduct(catalog, id).None? ==> r == Err(ProductNotFound)
    ensures FindProduct(catalog, id).Some? ==>
              var p := FindProduct(catalog, id).value;
              && (quantity < 1 ==> r == Err(QuantityBelowOne))
              && (1 <= quantity && quantity > p.stock ==> r == Err(StockInsufficient(p.stock)))
              && (r.Ok? <==>
                    && 1 <= quantity <= p.stock
                    && (FindLine(cart, id).Some? ==> QuantityOf(cart, id) + quantity <= p.stock))
              && (r.Err? && 1 <= quantity <= p.stock ==> r == Err(MergedExceedsStock(p.stock)))
              && (r.Ok? && FindLine(cart, id).None? ==> r.value == cart + [NewLine(p, quantity)])
    ensures r.Ok? && FindLine(cart, id).Some? ==>
              var i := FindLine(cart, id).value;
              && |r.value| == |cart|
              && r.value[i] == cart[i].(quantity := cart[i].quantity + quantity)
              && forall j :: 0 <= j < |cart| && j != i ==> r.value[j] == cart[j]
  {
    match FindProduct(catalog, id)
    case None => Err(ProductNotFound)
    case Some(p) =>
      if quantity < 1 then Err(QuantityBelowOne)
      else if quantity > p.stock then Err(StockInsufficient(p.stock))
      else match FindLine(cart, id)
        case Some(i) =>
          var merged := cart[i].quantity + quantity;
          if merged > p.stock then Err(MergedExceedsStock(p.stock))
          else Ok(cart[i := cart[i].(quantity := merged)])
        case None => Ok(cart + [NewLine(p, quantity)])
  }

  /**
   * `addToCart(productId)` from the raw quantity field: an empty, unparsable or zero
   * field adds one unit, and only a negative number is refused as below one.
   */
  function AddToCartFromField(catalog: seq<Product>, cart: Cart, id: string, entered: Option<int>): (r: Result<Cart, CartError>)
    ensures FindProduct(catalog, id).None? ==> r == Err(ProductNotFound)
    ensures r == Err(QuantityBelowOne) ==> entered.Some? && entered.value < 0
    ensures entered.None? || entered == Some(0) ==> r == AddToCart(catalog, cart, id, 1)
    ensures entered.Some? && entered.value != 0 ==> r == AddToCart(catalog, cart, id, entered.value)
  {
    AddToCart(catalog, cart, id, QuantityOrOne(entered))
  }

  /** How many lines of the cart belong to `id`. */
  function CountLines(cart: Cart, id: string): nat
    decreases |cart|
  {
    if cart == [] then 0
    else (if cart[0].productId == id then 1 else 0) + CountLines(cart[1..], id)
  }

  /**
   * `removeFromCart`: `cart.filter(item => item.productId !== productId)`. Every line for
   * `id` goes, every other line stays, in the same relative order.
   */
  function RemoveFromCart(cart: Cart, id: string): (r: Cart)
    ensures SubsequenceOf(r, cart)
    ensures forall l :: l in r <==> l in cart && l.productId != id
    ensures |r| + CountLines(cart, id) == |cart|
    decreases |cart|
  {
    if cart == [] then []
    else if cart[0].productId == id then RemoveFromCart(cart[1..], id)
    else [cart[0]] + RemoveFromCart(cart[1..], id)
  }

  /**
   * `updateCartQuantity(productId, change)`: a product without a line is ignored; a
   * quantity that would drop below one removes the product; a product still in the
   * catalog may not go above its stock; a product gone from the catalog is not checked.
   */
  function UpdateCartQuantity(catalog: seq<Product>, cart: Cart, id: string, change: int): (r: Result<Cart, CartError>)
    ensures FindLine(cart, id).None? ==> r == Ok(cart)
    ensures FindLine(cart, id).Some? ==>
              var i := FindLine(cart, id).value;
              var updated := cart[i].quantity + change;
              && (updated < 1 ==> r == Ok(RemoveFromCart(cart, id)))
              && (updated >= 1 && FindProduct(catalog, id).Some? && updated > FindProduct(catalog, id).value.stock ==>
                    r == Err(AdjustExceedsStock(FindProduct(catalog, id).value.stock)))
              && (r.Err? <==>
                    && updated >= 1
                    && FindProduct(catalog, id).Some?
                    && updated > FindProduct(catalog, id).value.stock)
              && (updated >= 1 && r.Ok? ==>
                    && |r.value| == |cart|
                    && r.value[i] == cart[i].(quantity := updated)
                    && forall j :: 0 <= j < |cart| && j != i ==> r.value[j] == cart[j])
  {
    match FindLine(cart, id)
    case None => Ok(cart)
    case Some(i) =>
      var updated := cart[i].quantity + change;
      if updated < 1 then Ok(RemoveFromCart(cart, id))
      else match FindProduct(catalog, id)
        case Some(p) =>
          if updated > p.stock then Err(AdjustExceedsStock(p.stock))
          else Ok(cart[i := cart[i].(quantity := updated)])
        case None => Ok(cart[i := cart[i].(quantity := updated)])
  }

  function LineTotal(l: LineItem): int
  {
    l.price * l.quantity
  }

  /** The cart total: the sum of price times quantity over the lines. */
  function Total(cart: Cart): int
    decreases |cart|
  {
    if cart == [] then 0 else LineTotal(cart[0]) + Total(cart[1..])
  }

  lemma {:induction false} TotalAppend(a: Cart, b: Cart)
    ensures Total(a + b) == Total(a) + Total(b)
    decreases |a|
  {
    if a == [] {
      assert a + b == b;
    } else {
      assert (a + b)[0] == a[0];
      assert (a + b)[1..] == a[1..] + b;
      TotalAppend(a[1..], b);
    }
  }

  /**
   * The running sum of `updateCartDisplay` (app.js:248-251) and of the `reduce` in
   * `processCheckout` (app.js:337): a left-to-right accumulation starting from 0.
   */
  method CartTotal(cart: Cart) returns (total: int)
    ensures total == Total(cart)
  {
    total := 0;
    var i := 0;
    while i < |cart|
      invariant 0 <= i <= |cart|
      invariant total == Total(cart[..i])
    {
      assert cart[..i + 1] == cart[..i] + [cart[i]];
      TotalAppend(cart[..i], [cart[i]]);
      total := total + cart[i].price * cart[i].quantity;
      i := i + 1;
    }
    assert cart[..i] == cart;
  }

  /** At most one line per product. */
  predicate UniqueIds(cart: Cart)
  {
    forall i, j :: 0 <= i < j < |cart| ==> cart[i].productId != cart[j].productId
  }

  /** A line holds at least one unit and, while its product is in the catalog, no more than the stock. */
  predicate LineWithinStock(catalog: seq<Product>, l: LineItem)
  {
    && 1 <= l.quantity
    && match FindProduct(catalog, l.productId)
       case None => true
       case Some(p) => l.quantity <= p.stock
  }

  /** The cart invariant the three cart operations keep with respect to a fixed catalog. */
  predicate Valid(catalog: seq<Product>, cart: Cart)
  {
    && UniqueIds(cart)
    && forall l :: l in cart ==> LineWithinStock(catalog, l)
  }

  /** The empty cart a session starts with, and checkout leaves behind, is valid. */
  lemma EmptyCartValid(catalog: seq<Product>)
    ensures Valid(catalog, []) && Total([]) == 0
  {
  }

  /** Adding keeps one line per product and every quantity between one and the stock. */
  lemma AddToCartPreservesValid(catalog: seq<Product>, cart: Cart, id: string, quantity: int)
    requires Valid(catalog, cart)
    ensures AddToCart(catalog, cart, id, quantity).Ok? ==> Valid(catalog, AddToCart(catalog, cart, id, quantity).value)
  {
    var r := AddToCart(catalog, cart, id, quantity);
    if r.Ok? {
      var c := r.value;
      var p := FindProduct(catalog, id).value;
      match FindLine(cart, id)
      case Some(i) =>
        assert cart[i] in cart;
        forall l | l in c
          ensures LineWithinStock(catalog, l)
        {
          var k :| 0 <= k < |c| && c[k] == l;
          if k != i {
            assert l == cart[k];
          } else {
            assert l.productId == id;
          }
        }
      case None =>
        forall l | l in c
          ensures LineWithinStock(catalog, l)
        {
          if l !in cart {
            assert l == NewLine(p, quantity);
          }
        }
    }
  }

  /** The accepted quantity is added to the product's quantity; other products keep theirs. */
  lemma AddToCartQuantities(catalog: seq<Product>, cart: Cart, id: string, quantity: int, other: string)
    requires AddToCart(catalog, cart, id, quantity).Ok?
    ensures QuantityOf(AddToCart(catalog, cart, id, quantity).value, id) == QuantityOf(cart, id) + quantity
    ensures other != id ==> QuantityOf(AddToCart(catalog, cart, id, quantity).value, other) == QuantityOf(cart, other)
  {
    var c := AddToCart(catalog, cart, id, quantity).value;
    match FindLine(cart, id)
    case Some(i) =>
      assert FindLine(c, id) == Some(i);
      if other != id {
        SameIdsSameLines(cart, c, other);
      }
    case None =>
      var line := NewLine(FindProduct(catalog, id).value, quantity);
      FindLineAppend(cart, line, id);
      FindLineAppend(cart, line, other);
  }

  /** Appending a line does not move the first line of a product already present. */
  lemma {:induction false} FindLineAppend(cart: Cart, l: LineItem, id: string)
    ensures FindLine(cart + [l], id) ==
              if FindLine(cart, id).Some? then FindLine(cart, id)
              else if l.productId == id then Some(|cart|)
              else None
    decreases |cart|
  {
    if cart == [] {
      assert cart + [l] == [l];
      assert [l][1..] == [];
    } else {
      assert (cart + [l])[0] == cart[0];
      assert (cart + [l])[1..] == cart[1..] + [l];
      FindLineAppend(cart[1..], l, id);
    }
  }

  /** Lines are located by product id alone, so changing a quantity moves no line. */
  lemma {:induction false} SameIdsSameLines(a: Cart, b: Cart, id: string)
    requires |a| == |b|
    requires forall j :: 0 <= j < |a| ==> a[j].productId == b[j].productId
    ensures FindLine(a, id) == FindLine(b, id)
    decreases |a|
  {
    if a != [] {
      assert forall j :: 0 <= j < |a[1..]| ==> a[1..][j] == a[j + 1] && b[1..][j] == b[j + 1];
      SameIdsSameLines(a[1..], b[1..], id);
    }
  }

  /** The total grows by exactly the price of the line times the accepted quantity. */
  lemma AddToCartTotal(catalog: seq<Product>, cart: Cart, id: string, quantity: int)
    requires AddToCart(catalog, cart, id, quantity).Ok?
    ensures var c := AddToCart(catalog, cart, id, quantity).value;
            match FindLine(cart, id)
            case Some(i) => Total(c) == Total(cart) + cart[i].price * quantity
            case None => Total(c) == Total(cart) + FindProduct(catalog, id).value.price * quantity
  {
    var c := AddToCart(catalog, cart, id, quantity).value;
    match FindLine(cart, id)
    case Some(i) =>
      var merged := cart[i].(quantity := cart[i].quantity + quantity);
      assert c == cart[i := merged];
      ReplaceLineTotal(cart, i, merged);
      MoreUnitsTotal(cart[i], quantity);
    case None =>
      var line := NewLine(FindProduct(catalog, id).value, quantity);
      assert c == cart + [line];
      TotalAppend(cart, [line]);
      assert Total([line]) == LineTotal(line) by {
        assert [line][1..] == [];
      }
  }

  /** Adding units to a line adds their price to its line total. */
  lemma MoreUnitsTotal(l: LineItem, extra: int)
    ensures LineTotal(l.(quantity := l.quantity + extra)) == LineTotal(l) + l.price * extra
  {
    assert l.price * (l.quantity + extra) == l.price * l.quantity + l.price * extra;
  }

  /** Replacing one line changes the total by the difference of the two line totals. */
  lemma ReplaceLineTotal(cart: Cart, i: nat, l: LineItem)
    requires i < |cart|
    ensures Total(cart[i := l]) == Total(cart) - LineTotal(cart[i]) + LineTotal(l)
  {
    var c := cart[i := l];
    assert cart == cart[..i] + [cart[i]] + cart[i + 1..];
    assert c == cart[..i] + [l] + cart[i + 1..];
    TotalAppend(cart[..i] + [cart[i]], cart[i + 1..]);
    TotalAppend(cart[..i], [cart[i]]);
    TotalAppend(cart[..i] + [l], cart[i + 1..]);
    TotalAppend(cart[..i], [l]);
  }

  lemma {:induction false} RemoveFromCartAppend(a: Cart, b: Cart, id: string)
    ensures RemoveFromCart(a + b, id) == RemoveFromCart(a, id) + RemoveFromCart(b, id)
    decreases |a|
  {
    if a == [] {
      assert a + b == b;
    } else {
      assert (a + b)[0] == a[0];
      assert (a + b)[1..] == a[1..] + b;
      RemoveFromCartAppend(a[1..], b, id);
    }
  }

  /** A product id that no line of the cart carries. */
  predicate Absent(cart: Cart, id: string)
  {
    forall l :: l in cart ==> l.productId != id
  }

  /** Having no line for `id` and `find` coming back empty are the same thing. */
  lemma AbsentIffNoLine(cart: Cart, id: string)
    ensures Absent(cart, id) <==> FindLine(cart, id).None?
  {
    if FindLine(cart, id).None? {
      forall l | l in cart
        ensures l.productId != id
      {
        var k :| 0 <= k < |cart| && cart[k] == l;
      }
    } else {
      assert cart[FindLine(cart, id).value] in cart;
    }
  }

  /** A cart without a line for `id` is left exactly as it was. */
  lemma {:induction false} RemoveFromCartAbsent(cart: Cart, id: string)
    requires Absent(cart, id)
    ensures RemoveFromCart(cart, id) == cart
    decreases |cart|
  {
    if cart != [] {
      assert cart[0] in cart;
      assert Absent(cart[1..], id) by {
        forall l | l in cart[1..]
          ensures l.productId != id
        {
          assert l in cart;
        }
      }
      RemoveFromCartAbsent(cart[1..], id);
    }
  }

  /** Removing twice is removing once. */
  lemma RemoveFromCartIdempotent(cart: Cart, id: string)
    ensures RemoveFromCart(RemoveFromCart(cart, id), id) == RemoveFromCart(cart, id)
  {
    RemoveFromCartAbsent(RemoveFromCart(cart, id), id);
  }

  /** Removing the one line of a product from between lines of other products. */
  lemma RemoveBetween(before: Cart, x: LineItem, after: Cart, id: string)
    requires Absent(before, id) && Absent(after, id) && x.productId == id
    ensures RemoveFromCart(before + ([x] + after), id) == before + after
  {
    RemoveFromCartAppend(before, [x] + after, id);
    RemoveFromCartAppend([x], after, id);
    RemoveFromCartAbsent(before, id);
    RemoveFromCartAbsent(after, id);
    assert RemoveFromCart([x], id) == [] by {
      assert [x][1..] == [];
    }
  }

  /** A line between two others contributes its own line total to the cart total. */
  lemma TotalBetween(before: Cart, x: LineItem, after: Cart)
    ensures Total(before + ([x] + after)) == Total(before + after) + LineTotal(x)
  {
    TotalAppend(before, [x] + after);
    TotalAppend([x], after);
    TotalAppend(before, after);
    assert Total([x]) == LineTotal(x) by {
      assert [x][1..] == [];
    }
  }

  /** In a cart with one line per product, removing a product cuts out exactly its line. */
  lemma RemoveUniqueLine(cart: Cart, id: string)
    requires UniqueIds(cart) && FindLine(cart, id).Some?
    ensures var i := FindLine(cart, id).value;
            RemoveFromCart(cart, id) == cart[..i] + cart[i + 1..]
  {
    NoLineBefore(cart, id);
    NoLineAfter(cart, id);
    RemoveLineAt(cart, FindLine(cart, id).value, id);
  }

  /** Removing a product whose only line sits at position `i`. */
  lemma RemoveLineAt(cart: Cart, i: nat, id: string)
    requires i < |cart| && cart[i].productId == id
    requires Absent(cart[..i], id) && Absent(cart[i + 1..], id)
    ensures RemoveFromCart(cart, id) == cart[..i] + cart[i + 1..]
  {
    assert cart == cart[..i] + ([cart[i]] + cart[i + 1..]);
    RemoveBetween(cart[..i], cart[i], cart[i + 1..], id);
  }

  lemma NoLineBefore(cart: Cart, id: string)
    requires FindLine(cart, id).Some?
    ensures Absent(cart[..FindLine(cart, id).value], id)
  {
    var i := FindLine(cart, id).value;
    forall l | l in cart[..i]
      ensures l.productId != id
    {
      var k :| 0 <= k < i && cart[..i][k] == l;
      assert l == cart[k];
    }
  }

  lemma NoLineAfter(cart: Cart, id: string)
    requires UniqueIds(cart) && FindLine(cart, id).Some?
    ensures Absent(cart[FindLine(cart, id).value + 1..], id)
  {
    var i := FindLine(cart, id).value;
    forall l | l in cart[i + 1..]
      ensures l.productId != id
    {
      var k :| 0 <= k < |cart[i + 1..]| && cart[i + 1..][k] == l;
      assert l == cart[i + 1 + k];
    }
  }

  /** Removing a product lowers the total by exactly that product's line total. */
  lemma RemoveFromCartTotal(cart: Cart, id: string)
    requires UniqueIds(cart) && FindLine(cart, id).Some?
    ensures Total(RemoveFromCart(cart, id)) == Total(cart) - LineTotal(cart[FindLine(cart, id).value])
  {
    RemoveUniqueLine(cart, id);
    TotalWithout(cart, FindLine(cart, id).value);
  }

  /** Cutting out the line at position `i` lowers the total by that line's total. */
  lemma TotalWithout(cart: Cart, i: nat)
    requires i < |cart|
    ensures Total(cart[..i] + cart[i + 1..]) == Total(cart) - LineTotal(cart[i])
  {
    assert cart == cart[..i] + ([cart[i]] + cart[i + 1..]);
    TotalBetween(cart[..i], cart[i], cart[i + 1..]);
  }

  /** Adding a product that was not in the cart and then removing it restores the cart and its total. */
  lemma AddThenRemove(catalog: seq<Product>, cart: Cart, id: string, quantity: int)
    requires FindLine(cart, id).None?
    requires AddToCart(catalog, cart, id, quantity).Ok?
    ensures RemoveFromCart(AddToCart(catalog, cart, id, quantity).value, id) == cart
    ensures Total(RemoveFromCart(AddToCart(catalog, cart, id, quantity).value, id)) == Total(cart)
  {
    var line := NewLine(FindProduct(catalog, id).value, quantity);
    RemoveFromCartAppend(cart, [line], id);
    AbsentIffNoLine(cart, id);
    RemoveFromCartAbsent(cart, id);
    assert RemoveFromCart([line], id) == [] by {
      assert [line][1..] == [];
    }
  }

  /** Dropping lines cannot create a second line for a product. */
  lemma {:induction false} RemoveFromCartKeepsUniqueIds(cart: Cart, id: string)
    requires UniqueIds(cart)
    ensures UniqueIds(RemoveFromCart(cart, id))
    decreases |cart|
  {
    if cart != [] {
      var tail := cart[1..];
      assert UniqueIds(tail) by {
        forall i, j | 0 <= i < j < |tail|
          ensures tail[i].productId != tail[j].productId
        {
          assert tail[i] == cart[i + 1] && tail[j] == cart[j + 1];
        }
      }
      RemoveFromCartKeepsUniqueIds(tail, id);
      var rest := RemoveFromCart(tail, id);
      if cart[0].productId != id {
        assert Absent(rest, cart[0].productId) by {
          forall l | l in rest
            ensures l.productId != cart[0].productId
          {
            var k :| 0 <= k < |tail| && tail[k] == l;
            assert l == cart[k + 1];
          }
        }
        var r := [cart[0]] + rest;
        forall i, j | 0 <= i < j < |r|
          ensures r[i].productId != r[j].productId
        {
          assert r[j] == rest[j - 1];
          if i > 0 {
            assert r[i] == rest[i - 1];
          }
        }
      }
    }
  }

  /** Removing keeps the cart invariant and leaves no line for the product. */
  lemma RemoveFromCartPreservesValid(catalog: seq<Product>, cart: Cart, id: string)
    requires Valid(catalog, cart)
    ensures Valid(catalog, RemoveFromCart(cart, id))
    ensures FindLine(RemoveFromCart(cart, id), id).None?
  {
    RemoveFromCartKeepsUniqueIds(cart, id);
    AbsentIffNoLine(RemoveFromCart(cart, id), id);
  }

  /** Adjusting a quantity keeps one line per product and every quantity between one and the stock. */
  lemma UpdateCartQuantityPreservesValid(catalog: seq<Product>, cart: Cart, id: string, change: int)
    requires Valid(catalog, cart)
    ensures UpdateCartQuantity(catalog, cart, id, change).Ok? ==>
              Valid(catalog, UpdateCartQuantity(catalog, cart, id, change).value)
  {
    var r := UpdateCartQuantity(catalog, cart, id, change);
    match FindLine(cart, id)
    case None =>
    case Some(i) =>
      var updated := cart[i].quantity + change;
      if updated < 1 {
        RemoveFromCartPreservesValid(catalog, cart, id);
      } else if r.Ok? {
        var c := r.value;
        forall l | l in c
          ensures LineWithinStock(catalog, l)
        {
          var k :| 0 <= k < |c| && c[k] == l;
          if k != i {
            assert l == cart[k];
          }
        }
      }
  }

  /** Taking away a line's whole quantity is the same as removing the product. */
  lemma UpdateToZeroIsRemove(catalog: seq<Product>, cart: Cart, id: string)
    requires FindLine(cart, id).Some?
    ensures var q := cart[FindLine(cart, id).value].quantity;
            UpdateCartQuantity(catalog, cart, id, -q) == Ok(RemoveFromCart(cart, id))
    ensures FindLine(RemoveFromCart(cart, id), id).None?
  {
    var i := FindLine(cart, id).value;
    assert cart[i].quantity + -cart[i].quantity < 1;
    AbsentIffNoLine(RemoveFromCart(cart, id), id);
  }

  /** The quantity field's clamped value is accepted by `addToCart` for a product not yet in the cart. */
  lemma ValidatedQuantityAccepted(catalog: seq<Product>, cart: Cart, id: string, entered: Option<int>)
    requires FindProduct(catalog, id).Some? && FindProduct(catalog, id).value.stock >= 1
    requires FindLine(cart, id).None?
    ensures ValidateQuantity(catalog, id, entered).Some?
    ensures AddToCart(catalog, cart, id, ValidateQuantity(catalog, id, entered).value).Ok?
  {
  }

  /**
   * Two additions of three units against a stock of five: the first is taken, the
   * second is refused and the cart still holds three.
   */
  lemma DoubleAddScenario()
    ensures var catalog := [Product("p1", "Sword", "Weapon", 100, 5, "")];
            var once := AddToCart(catalog, [], "p1", 3);
            && once.Ok?
            && QuantityOf(once.value, "p1") == 3
            && AddToCart(catalog, once.value, "p1", 3) == Err(MergedExceedsStock(5))
  {
    var catalog := [Product("p1", "Sword", "Weapon", 100, 5, "")];
    assert FindProduct(catalog, "p1") == Some(catalog[0]);
    var once := AddToCart(catalog, [], "p1", 3);
    assert once.value == [LineItem("p1", "Sword", 100, 3, "Weapon")];
    assert FindLine(once.value, "p1") == Some(0);
  }
}
