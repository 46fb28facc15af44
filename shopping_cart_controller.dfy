/**
 * ShoppingCartController: the cart page, the cart summary, and adding and
 * removing a product, which move one unit between the product's stock and the
 * visitor's cart.
 */
module ShoppingCartController {
  import opened Entities
  import opened CartLines
  import opened Database
  import opened ShoppingCarts

  /** What `Index` shows: the cart's rows and its total. */
  datatype CartPage = CartPage(cartItems: seq<CartLine>, cartTotal: Money)

  /** `Index`: the rows of the cart and its total, which is the total of those rows. */
  method Index(cart: ShoppingCart) returns (page: CartPage)
    ensures page.cartItems == CartItems(cart.db.carts, cart.shoppingCartId)
    ensures page.cartTotal == Total(cart.db.carts, cart.db.products, cart.shoppingCartId)
    ensures Total(page.cartItems, cart.db.products, cart.shoppingCartId) == page.cartTotal
    ensures forall l :: l in page.cartItems <==> l in cart.db.carts && l.cartId == cart.shoppingCartId
  {
    page := CartPage(CartItems(cart.db.carts, cart.shoppingCartId),
                     Total(cart.db.carts, cart.db.products, cart.shoppingCartId));
    CartItemsTotal(cart.db.carts, cart.db.products, cart.shoppingCartId);
    CartItemsRows(cart.db.carts, cart.shoppingCartId);
  }

  /** `CartSummary`: the number of units in the cart, never negative. */
  method CartSummary(cart: ShoppingCart) returns (cartCount: int)
    requires cart.db.Valid()
    ensures cartCount == Count(cart.db.carts, cart.shoppingCartId)
    ensures cartCount >= 0
  {
    cartCount := Count(cart.db.carts, cart.shoppingCartId);
  }

  const OutOfStockMessage: string := "Product out of stock — cannot be added to basket"

  datatype AddOutcome =
    | RedirectToIndex
    | OutOfStock(errorMessage: string)   // the Error view
    | AddCrash                           // an exception escapes the action

  /**
   * `AddToCart`: when the product is in stock, one unit moves from its stock to
   * the cart; when it is not, the Error view and nothing changes. The lookup
   * (`Single`) throws for an unknown product, and the cart's own lookup throws
   * when its key is held twice; then too nothing changes.
   */
  method AddToCart(db: Store, cart: ShoppingCart, id: int, now: Time) returns (outcome: AddOutcome)
    requires db.Valid() && cart.db == db
    modifies db`carts, db`products
    ensures db.Valid()
    ensures outcome.AddCrash? <==>
              id !in old(db.products)
              || (old(db.products[id].quantity) > 0 && Rows(old(db.carts), cart.shoppingCartId, id) >= 2)
    ensures outcome.OutOfStock? <==> id in old(db.products) && old(db.products[id].quantity) <= 0
    ensures outcome.OutOfStock? ==> outcome.errorMessage == OutOfStockMessage
    ensures !outcome.RedirectToIndex? ==> db.carts == old(db.carts) && db.products == old(db.products)
    ensures outcome.RedirectToIndex? ==>
              var was := old(db.products[id]);
              && db.products == old(db.products)[id := was.(quantity := was.quantity - 1)]
              && db.carts == AddLine(old(db.carts), cart.shoppingCartId, id, now).value
              && db.products[id].quantity >= 0
              && db.products[id].quantity + Units(db.carts, cart.shoppingCartId, id)
                 == was.quantity + Units(old(db.carts), cart.shoppingCartId, id)
              && (forall c, p :: c != cart.shoppingCartId || p != id ==> Units(db.carts, c, p) == Units(old(db.carts), c, p))
  {
    if id !in db.products {
      return AddCrash;
    }
    var addedProduct := db.products[id];
    if addedProduct.quantity <= 0 {
      return OutOfStock(OutOfStockMessage);
    }
    ghost var carts0 := db.carts;
    var ok := cart.AddToCart(id, now);
    if !ok {
      return AddCrash;
    }
    SetQuantity(db, id, addedProduct.quantity - 1);
    MovedToCart(carts0, db.carts, cart.shoppingCartId, id, now);
    outcome := RedirectToIndex;
  }

  /** The rows `AddLine` leaves hold one more unit of the key and the same of every other. */
  lemma MovedToCart(before: seq<CartLine>, after: seq<CartLine>, c: string, id: int, now: Time)
    requires AddLine(before, c, id, now) == Some(after)
    ensures Units(after, c, id) == Units(before, c, id) + 1
    ensures forall c', p :: c' != c || p != id ==> Units(after, c', p) == Units(before, c', p)
  {
    OneMoreUnits(before, after, c, id);
  }

  /** `ProductQuantity` of a stored product set to `quantity`, saved. */
  method SetQuantity(db: Store, id: int, quantity: int)
    requires db.Valid() && id in db.products
    modifies db`products
    ensures db.Valid()
    ensures db.products == old(db.products)[id := old(db.products[id]).(quantity := quantity)]
  {
    var p := db.products[id];
    db.products := db.products[id := p.(quantity := quantity)];
  }

  /** The JSON record `RemoveFromCart` answers with. */
  datatype RemoveResult = RemoveResult(message: string, cartTotal: Money, cartCount: int, itemCount: int, deleteId: int)

  /** The JSON record, and the notification the action adds. */
  datatype RemoveOutcome = Removed(result: RemoveResult, notification: string) | RemoveCrash

  /**
   * `RemoveFromCart`: one unit moves from the cart back to the product's stock.
   * The product's name is looked up with `Single` over the rows of EVERY cart,
   * so the action throws, changing nothing, unless exactly one row in the whole
   * table holds the product, that row's product exists, and that row is this
   * cart's.
   */
  method RemoveFromCart(db: Store, cart: ShoppingCart, id: int) returns (outcome: RemoveOutcome)
    requires db.Valid() && cart.db == db
    modifies db`carts, db`products
    ensures db.Valid()
    ensures outcome.Removed? <==>
              && Holders(old(db.carts), id) == 1
              && id in old(db.products)
              && Rows(old(db.carts), cart.shoppingCartId, id) == 1
    ensures outcome.RemoveCrash? ==> db.carts == old(db.carts) && db.products == old(db.products)
    ensures outcome.Removed? ==>
              var was := old(db.products[id]);
              var removal := RemoveLine(old(db.carts), cart.shoppingCartId, id).value;
              var c := cart.shoppingCartId;
              && db.products == old(db.products)[id := was.(quantity := was.quantity + 1)]
              && db.carts == removal.lines
              && db.products[id].quantity + Units(db.carts, c, id) == was.quantity + Units(old(db.carts), c, id)
              && outcome.result == RemoveResult(
                   HtmlEncode(was.name) + " has been removed from your shopping cart.",
                   Total(db.carts, db.products, c), Count(db.carts, c), removal.itemCount, id)
              && outcome.notification == "Product " + was.name + " has been successfully removed from cart"
              && outcome.result.cartCount == Count(old(db.carts), c) - 1
              && outcome.result.itemCount == Units(db.carts, c, id)
  {
    if Holders(db.carts, id) != 1 || id !in db.products {
      return RemoveCrash;
    }
    var productName := db.products[id].name;
    ghost var before := db.carts;
    var itemCount := cart.RemoveFromCart(id);
    if itemCount.None? {
      return RemoveCrash;
    }
    OneMoreCounts(db.carts, before, cart.shoppingCartId, id);
    var product := db.products[id];
    SetQuantity(db, id, product.quantity + 1);
    var results := RemoveResult(
      HtmlEncode(productName) + " has been removed from your shopping cart.",
      Total(db.carts, db.products, cart.shoppingCartId),
      Count(db.carts, cart.shoppingCartId),
      itemCount.value,
      id);
    return Removed(results, "Product " + product.name + " has been successfully removed from cart");
  }

  /** `Server.HtmlEncode` of one character. */
  function HtmlEncodeChar(ch: char): string
  {
    if ch == '<' then "&lt;"
    else if ch == '>' then "&gt;"
    else if ch == '"' then "&quot;"
    else if ch == '&' then "&amp;"
    else if ch == '\'' then "&#39;"
    else if '\U{A0}' <= ch <= '\U{FF}' then "&#" + IntToString(ch as int) + ";"
    else [ch]
  }

  /** One character's encoding holds neither a markup nor a Latin-1 character. */
  lemma EncodedChar(ch: char)
    ensures forall i :: 0 <= i < |HtmlEncodeChar(ch)| ==>
              var e := HtmlEncodeChar(ch)[i];
              e != '<' && e != '>' && e != '"' && e != '\'' && !('\U{A0}' <= e <= '\U{FF}')
  {
    if '\U{A0}' <= ch <= '\U{FF}' && !(ch == '<' || ch == '>' || ch == '"' || ch == '&' || ch == '\'') {
      var digits := IntToString(ch as int);
      assert HtmlEncodeChar(ch) == "&#" + digits + ";";
    }
  }

  /** Characters that `HtmlEncode` rewrites. */
  predicate Special(ch: char)
  {
    ch == '<' || ch == '>' || ch == '"' || ch == '&' || ch == '\'' || '\U{A0}' <= ch <= '\U{FF}'
  }

  /**
   * `Server.HtmlEncode`: markup characters and the Latin-1 range become entities.
   * The result holds no markup character and no Latin-1 character, and text
   * without special characters is left as it is.
   */
  function HtmlEncode(s: string): (r: string)
    ensures forall i :: 0 <= i < |r| ==> r[i] != '<' && r[i] != '>' && r[i] != '"' && r[i] != '\''
    ensures forall i :: 0 <= i < |r| ==> !('\U{A0}' <= r[i] <= '\U{FF}')
    ensures (forall i :: 0 <= i < |s| ==> !Special(s[i])) ==> r == s
  {
    if s == [] then []
    else
      var head := HtmlEncodeChar(s[0]);
      EncodedChar(s[0]);
      head + HtmlEncode(s[1..])
  }

  /** A three-digit numeric entity `&#NNN;`, as `HtmlEncode` writes for the Latin-1 range. */
  predicate NumericEntity(s: string)
  {
    && |s| >= 6 && s[0] == '&' && s[1] == '#' && IsDigits(s[2..5]) && s[5] == ';'
    && DigitsValue(s[2..5]) < 0xD800
  }

  /**
   * Reading encoded text back: each entity `HtmlEncode` writes becomes its
   * character again, and every other character stands for itself.
   */
  function HtmlDecode(s: string): (r: string)
    decreases |s|
  {
    if s == [] then []
    else if StartsWith(s, "&lt;") then "<" + HtmlDecode(s[4..])
    else if StartsWith(s, "&gt;") then ">" + HtmlDecode(s[4..])
    else if StartsWith(s, "&quot;") then "\"" + HtmlDecode(s[6..])
    else if StartsWith(s, "&amp;") then "&" + HtmlDecode(s[5..])
    else if StartsWith(s, "&#39;") then "'" + HtmlDecode(s[5..])
    else if NumericEntity(s) then [DigitsValue(s[2..5]) as char] + HtmlDecode(s[6..])
    else [s[0]] + HtmlDecode(s[1..])
  }

  /** Decoding reads one encoded character back and goes on with the rest. */
  lemma DecodeChar(ch: char, rest: string)
    ensures HtmlDecode(HtmlEncodeChar(ch) + rest) == [ch] + HtmlDecode(rest)
  {
    if ch == '<' || ch == '>' || ch == '"' || ch == '&' || ch == '\'' {
      DecodeNamed(ch, rest);
    } else if '\U{A0}' <= ch <= '\U{FF}' {
      DecodeNumeric(ch, rest);
    } else {
      var s := HtmlEncodeChar(ch) + rest;
      assert s[0] == ch && s[1..] == rest;
    }
  }

  lemma DecodeNamed(ch: char, rest: string)
    requires ch == '<' || ch == '>' || ch == '"' || ch == '&' || ch == '\''
    ensures HtmlDecode(HtmlEncodeChar(ch) + rest) == [ch] + HtmlDecode(rest)
  {
    var s := HtmlEncodeChar(ch) + rest;
    if ch == '<' {
      assert StartsWith(s, "&lt;") && s[4..] == rest;
    } else if ch == '>' {
      assert s[1] == 'g' && StartsWith(s, "&gt;") && s[4..] == rest;
    } else if ch == '"' {
      assert s[1] == 'q' && StartsWith(s, "&quot;") && s[6..] == rest;
    } else if ch == '&' {
      assert s[1] == 'a' && StartsWith(s, "&amp;") && s[5..] == rest;
    } else {
      assert s[1] == '#' && s[4] == ';' && StartsWith(s, "&#39;") && s[5..] == rest;
    }
  }

  lemma DecodeNumeric(ch: char, rest: string)
    requires '\U{A0}' <= ch <= '\U{FF}'
    ensures HtmlDecode(HtmlEncodeChar(ch) + rest) == [ch] + HtmlDecode(rest)
  {
    var e := HtmlEncodeChar(ch);
    NumericEncoding(ch);
    var s := e + rest;
    assert s[2..5] == e[2..5] && s[6..] == rest;
    DecodeEntity(s);
  }

  /** A Latin-1 character is encoded as `&#` and its three decimal digits and `;`. */
  lemma NumericEncoding(ch: char)
    requires '\U{A0}' <= ch <= '\U{FF}'
    ensures var e := HtmlEncodeChar(ch);
      && |e| == 6 && e[0] == '&' && e[1] == '#' && e[5] == ';'
      && IsDigits(e[2..5]) && DigitsValue(e[2..5]) == ch as int
  {
    var digits := IntToString(ch as int);
    ThreeDigits(ch as int);
    IntToStringValue(ch as int);
    var e := HtmlEncodeChar(ch);
    assert e == "&#" + digits + ";";
    assert e[2..5] == digits;
  }

  /** Text opening with a numeric entity decodes it and goes on after its `;`. */
  lemma DecodeEntity(s: string)
    requires |s| >= 6 && s[0] == '&' && s[1] == '#' && s[5] == ';'
    requires IsDigits(s[2..5]) && DigitsValue(s[2..5]) < 0xD800
    ensures HtmlDecode(s) == [DigitsValue(s[2..5]) as char] + HtmlDecode(s[6..])
  {
    assert s[4] == s[2..5][2];
    assert !StartsWith(s, "&lt;") && !StartsWith(s, "&gt;") && !StartsWith(s, "&quot;");
    assert !StartsWith(s, "&amp;") && !StartsWith(s, "&#39;");
  }

  /** Decoding undoes `HtmlEncode`: the encoded name still says exactly the name. */
  lemma {:induction false} HtmlRoundTrip(s: string)
    ensures HtmlDecode(HtmlEncode(s)) == s
  {
    if s != [] {
      DecodeChar(s[0], HtmlEncode(s[1..]));
      HtmlRoundTrip(s[1..]);
      assert [s[0]] + s[1..] == s;
    }
  }
}
