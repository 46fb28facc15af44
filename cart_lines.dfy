/**
 * The Carts table as a sequence of rows, and the queries and row updates that
 * ShoppingCart runs on it. Nothing in the table makes (cartId, productId) a key:
 * AddToCart keeps at most one row per key itself, and the lookups it and
 * RemoveFromCart make (`SingleOrDefault`, `Single`) fail when a key is held by
 * several rows.
 */
module CartLines {
  import opened Entities

  predicate IsLine(l: CartLine, c: string, p: int)
  {
    l.cartId == c && l.productId == p
  }

  /** What a sum over cart rows adds up. */
  datatype Measure =
    | UnitsOf(cart: string, product: int)   // units of one product in one cart
    | CountOf(cart: string)                 // units of every product in one cart
    | RowsOf(cart: string, product: int)    // rows that hold the key (cart, product)

  function Weight(m: Measure, l: CartLine): int
  {
    match m
    case UnitsOf(c, p) => if IsLine(l, c, p) then l.count else 0
    case CountOf(c) => if l.cartId == c then l.count else 0
    case RowsOf(c, p) => if IsLine(l, c, p) then 1 else 0
  }

  predicate AllPositive(lines: seq<CartLine>)
  {
    forall i :: 0 <= i < |lines| ==> lines[i].count >= 1
  }

  function Sum(lines: seq<CartLine>, m: Measure): (r: int)
    ensures m.RowsOf? ==> r >= 0
    ensures AllPositive(lines) ==> r >= 0
  {
    if lines == [] then 0
    else Sum(lines[..|lines| - 1], m) + Weight(m, lines[|lines| - 1])
  }

  function Units(lines: seq<CartLine>, c: string, p: int): int
  {
    Sum(lines, UnitsOf(c, p))
  }

  function Rows(lines: seq<CartLine>, c: string, p: int): nat
  {
    Sum(lines, RowsOf(c, p))
  }

  /** `GetCount`: the units in cart `c`, 0 when it has no rows. */
  function Count(lines: seq<CartLine>, c: string): int
  {
    Sum(lines, CountOf(c))
  }

  function Price(products: map<int, Product>, p: int): Money
  {
    if p in products then products[p].price else 0.0
  }

  function LineTotal(l: CartLine, products: map<int, Product>, c: string): Money
  {
    if l.cartId == c then l.count as real * Price(products, l.productId) else 0.0
  }

  /**
   * `GetTotal`: the sum of count times current price over the rows of cart `c`,
   * 0 when it has none. The sum joins each row to its product, so a row whose
   * product is gone adds nothing.
   */
  function Total(lines: seq<CartLine>, products: map<int, Product>, c: string): Money
  {
    if lines == [] then 0.0
    else Total(lines[..|lines| - 1], products, c) + LineTotal(lines[|lines| - 1], products, c)
  }

  // ---------------------------------------------------------------------------
  // Sums over concatenations and updated rows

  lemma {:induction false} SumConcat(a: seq<CartLine>, b: seq<CartLine>, m: Measure)
    ensures Sum(a + b, m) == Sum(a, m) + Sum(b, m)
    decreases |b|
  {
    if b == [] {
      assert a + b == a;
    } else {
      assert (a + b)[..|a + b| - 1] == a + b[..|b| - 1];
      SumConcat(a, b[..|b| - 1], m);
    }
  }

  lemma {:induction false} TotalConcat(a: seq<CartLine>, b: seq<CartLine>, products: map<int, Product>, c: string)
    ensures Total(a + b, products, c) == Total(a, products, c) + Total(b, products, c)
    decreases |b|
  {
    if b == [] {
      assert a + b == a;
    } else {
      assert (a + b)[..|a + b| - 1] == a + b[..|b| - 1];
      TotalConcat(a, b[..|b| - 1], products, c);
    }
  }

  lemma SplitAt(s: seq<CartLine>, i: nat)
    requires i < |s|
    ensures s == s[..i] + [s[i]] + s[i + 1..]
  {
  }

  /** Replacing row `i` changes every sum by the difference of the two rows. */
  lemma SumUpdate(s: seq<CartLine>, i: nat, x: CartLine)
    requires i < |s|
    ensures forall m :: Sum(s[i := x], m) == Sum(s, m) - Weight(m, s[i]) + Weight(m, x)
    ensures forall products, c ::
              Total(s[i := x], products, c)
              == Total(s, products, c) - LineTotal(s[i], products, c) + LineTotal(x, products, c)
  {
    SplitAt(s, i);
    assert s[i := x] == s[..i] + [x] + s[i + 1..];
    forall m ensures Sum(s[i := x], m) == Sum(s, m) - Weight(m, s[i]) + Weight(m, x) {
      SumConcat(s[..i] + [x], s[i + 1..], m);
      SumConcat(s[..i], [x], m);
      SumConcat(s[..i] + [s[i]], s[i + 1..], m);
      SumConcat(s[..i], [s[i]], m);
      assert [x][..0] == [] && [s[i]][..0] == [];
    }
    forall products, c ensures Total(s[i := x], products, c)
      == Total(s, products, c) - LineTotal(s[i], products, c) + LineTotal(x, products, c)
    {
      TotalConcat(s[..i] + [x], s[i + 1..], products, c);
      TotalConcat(s[..i], [x], products, c);
      TotalConcat(s[..i] + [s[i]], s[i + 1..], products, c);
      TotalConcat(s[..i], [s[i]], products, c);
      assert [x][..0] == [] && [s[i]][..0] == [];
    }
  }

  /** Deleting row `i` takes that row's part out of every sum. */
  lemma SumDelete(s: seq<CartLine>, i: nat)
    requires i < |s|
    ensures forall m :: Sum(s[..i] + s[i + 1..], m) == Sum(s, m) - Weight(m, s[i])
    ensures forall products, c ::
              Total(s[..i] + s[i + 1..], products, c) == Total(s, products, c) - LineTotal(s[i], products, c)
  {
    SplitAt(s, i);
    forall m ensures Sum(s[..i] + s[i + 1..], m) == Sum(s, m) - Weight(m, s[i]) {
      SumConcat(s[..i], s[i + 1..], m);
      SumConcat(s[..i] + [s[i]], s[i + 1..], m);
      SumConcat(s[..i], [s[i]], m);
      assert [s[i]][..0] == [];
    }
    forall products, c ensures Total(s[..i] + s[i + 1..], products, c)
      == Total(s, products, c) - LineTotal(s[i], products, c)
    {
      TotalConcat(s[..i], s[i + 1..], products, c);
      TotalConcat(s[..i] + [s[i]], s[i + 1..], products, c);
      TotalConcat(s[..i], [s[i]], products, c);
      assert [s[i]][..0] == [];
    }
  }

  /** Appending a row adds that row's part to every sum. */
  lemma SumAppend(s: seq<CartLine>, x: CartLine)
    ensures forall m :: Sum(s + [x], m) == Sum(s, m) + Weight(m, x)
    ensures forall products, c :: Total(s + [x], products, c) == Total(s, products, c) + LineTotal(x, products, c)
  {
    assert (s + [x])[..|s|] == s;
  }

  /** A key held by no row contributes nothing. */
  lemma {:induction false} NoRows(s: seq<CartLine>, c: string, p: int)
    requires Rows(s, c, p) == 0
    ensures forall j :: 0 <= j < |s| ==> !IsLine(s[j], c, p)
    ensures Units(s, c, p) == 0
  {
    if s != [] {
      var init := s[..|s| - 1];
      assert Sum(init, RowsOf(c, p)) >= 0;
      NoRows(init, c, p);
      assert forall j :: 0 <= j < |init| ==> s[j] == init[j];
    }
  }

  // ---------------------------------------------------------------------------
  // Looking up a key

  /** The position of a row holding key (c, p); the last such row. */
  function MatchIndex(lines: seq<CartLine>, c: string, p: int): (i: nat)
    requires Rows(lines, c, p) >= 1
    ensures i < |lines| && IsLine(lines[i], c, p)
  {
    if IsLine(lines[|lines| - 1], c, p) then |lines| - 1
    else MatchIndex(lines[..|lines| - 1], c, p)
  }

  /** When exactly one row holds a key, that row carries all the key's units. */
  lemma SingleMatch(lines: seq<CartLine>, c: string, p: int)
    requires Rows(lines, c, p) == 1
    ensures var i := MatchIndex(lines, c, p);
      && (forall j :: 0 <= j < |lines| && j != i ==> !IsLine(lines[j], c, p))
      && Units(lines, c, p) == lines[i].count
  {
    var i := MatchIndex(lines, c, p);
    var rest := lines[..i] + lines[i + 1..];
    SumDelete(lines, i);
    NoRows(rest, c, p);
    forall j | 0 <= j < |lines| && j != i ensures !IsLine(lines[j], c, p) {
      if j < i { assert lines[j] == rest[j]; } else { assert lines[j] == rest[j - 1]; }
    }
  }

  /** How many rows of any cart hold product `p`. */
  function Holders(lines: seq<CartLine>, p: int): nat
  {
    if lines == [] then 0
    else Holders(lines[..|lines| - 1], p) + (if lines[|lines| - 1].productId == p then 1 else 0)
  }

  /** The rows of one cart that hold `p` are among all the rows that hold it. */
  lemma {:induction false} RowsWithinHolders(lines: seq<CartLine>, c: string, p: int)
    ensures Rows(lines, c, p) <= Holders(lines, p)
  {
    if lines != [] {
      RowsWithinHolders(lines[..|lines| - 1], c, p);
    }
  }

  // ---------------------------------------------------------------------------
  // The row updates of ShoppingCart

  /**
   * `after` holds one unit more of key (c, p) than `before` and is otherwise the
   * same in every sum: the count of cart `c` is one higher, its total one price
   * of `p` higher, and every other key holds the units it held.
   */
  ghost predicate OneMore(before: seq<CartLine>, after: seq<CartLine>, c: string, p: int)
  {
    && Units(after, c, p) == Units(before, c, p) + 1
    && (forall c', p' :: c' != c || p' != p ==> Units(after, c', p') == Units(before, c', p'))
    && (forall c' :: Count(after, c') == Count(before, c') + (if c' == c then 1 else 0))
    && (forall products :: Total(after, products, c) == Total(before, products, c) + Price(products, p))
  }

  /** The units that `OneMore` promises: one more on the key, the same on every other. */
  lemma OneMoreUnits(before: seq<CartLine>, after: seq<CartLine>, c: string, p: int)
    requires OneMore(before, after, c, p)
    ensures Units(after, c, p) == Units(before, c, p) + 1
    ensures forall c', p' :: c' != c || p' != p ==> Units(after, c', p') == Units(before, c', p')
  {
  }

  /** The unit and row counts that `OneMore` promises for the key and its cart. */
  lemma OneMoreCounts(before: seq<CartLine>, after: seq<CartLine>, c: string, p: int)
    requires OneMore(before, after, c, p)
    ensures Units(after, c, p) == Units(before, c, p) + 1
    ensures Count(after, c) == Count(before, c) + 1
  {
  }

  lemma AppendOneMore(lines: seq<CartLine>, c: string, p: int, now: Time)
    requires Rows(lines, c, p) == 0
    ensures var r := lines + [CartLine(c, p, 1, now)];
            OneMore(lines, r, c, p) && Rows(r, c, p) == 1 && (AllPositive(lines) ==> AllPositive(r))
  {
    SumAppend(lines, CartLine(c, p, 1, now));
    NoRows(lines, c, p);
  }

  /** Row `i` with `d` more units: every sum over that row's key moves by `d` units, and no other. */
  lemma ShiftLine(lines: seq<CartLine>, i: nat, d: int)
    requires i < |lines|
    ensures var x := lines[i].(count := lines[i].count + d);
            var r := lines[i := x];
            var c := lines[i].cartId;
            var p := lines[i].productId;
            && Units(r, c, p) == Units(lines, c, p) + d
            && Rows(r, c, p) == Rows(lines, c, p)
            && (forall c', p' :: c' != c || p' != p ==> Units(r, c', p') == Units(lines, c', p'))
            && (forall c' :: Count(r, c') == Count(lines, c') + (if c' == c then d else 0))
            && (forall products :: Total(r, products, c) ==
                                   Total(lines, products, c) + (LineTotal(x, products, c) - LineTotal(lines[i], products, c)))
  {
    var x := lines[i].(count := lines[i].count + d);
    var r := lines[i := x];
    var c := lines[i].cartId;
    var p := lines[i].productId;
    SumUpdate(lines, i, x);
    assert Units(r, c, p) == Units(lines, c, p) - Weight(UnitsOf(c, p), lines[i]) + Weight(UnitsOf(c, p), x);
    assert Rows(r, c, p) == Rows(lines, c, p) - Weight(RowsOf(c, p), lines[i]) + Weight(RowsOf(c, p), x);
    forall c', p' | c' != c || p' != p ensures Units(r, c', p') == Units(lines, c', p') {
      assert Units(r, c', p') == Units(lines, c', p') - Weight(UnitsOf(c', p'), lines[i]) + Weight(UnitsOf(c', p'), x);
    }
    forall c' ensures Count(r, c') == Count(lines, c') + (if c' == c then d else 0) {
      assert Count(r, c') == Count(lines, c') - Weight(CountOf(c'), lines[i]) + Weight(CountOf(c'), x);
    }
    forall products ensures Total(r, products, c) ==
                              Total(lines, products, c) + (LineTotal(x, products, c) - LineTotal(lines[i], products, c)) {
      assert Total(r, products, c) == Total(lines, products, c) - LineTotal(lines[i], products, c) + LineTotal(x, products, c);
    }
  }

  /** `d` more units on a row add `d` times its product's price to its cart's total. */
  lemma LineShift(l: CartLine, d: int, products: map<int, Product>)
    ensures LineTotal(l.(count := l.count + d), products, l.cartId)
            == LineTotal(l, products, l.cartId) + d as real * Price(products, l.productId)
  {
    var q := Price(products, l.productId);
    assert (l.count + d) as real == l.count as real + d as real;
    assert (l.count as real + d as real) * q == l.count as real * q + d as real * q;
  }

  lemma IncrementOneMore(lines: seq<CartLine>, c: string, p: int)
    requires Rows(lines, c, p) == 1
    ensures var i := MatchIndex(lines, c, p);
            var r := lines[i := lines[i].(count := lines[i].count + 1)];
            OneMore(lines, r, c, p) && Rows(r, c, p) == 1 && (AllPositive(lines) ==> AllPositive(r))
  {
    var i := MatchIndex(lines, c, p);
    ShiftLine(lines, i, 1);
    forall products ensures LineTotal(lines[i].(count := lines[i].count + 1), products, c)
                            == LineTotal(lines[i], products, c) + Price(products, p) {
      LineShift(lines[i], 1, products);
    }
  }

  lemma DecrementOneMore(lines: seq<CartLine>, c: string, p: int)
    requires Rows(lines, c, p) == 1
    requires lines[MatchIndex(lines, c, p)].count > 1
    ensures var i := MatchIndex(lines, c, p);
            var r := lines[i := lines[i].(count := lines[i].count - 1)];
            && OneMore(r, lines, c, p) && Rows(r, c, p) == 1
            && Units(r, c, p) == lines[i].count - 1
            && (AllPositive(lines) ==> AllPositive(r))
  {
    var i := MatchIndex(lines, c, p);
    ShiftLine(lines, i, -1);
    forall products ensures LineTotal(lines[i].(count := lines[i].count - 1), products, c)
                            == LineTotal(lines[i], products, c) - Price(products, p) {
      LineShift(lines[i], -1, products);
    }
    SingleMatch(lines, c, p);
  }

  lemma DeleteOneMore(lines: seq<CartLine>, c: string, p: int)
    requires Rows(lines, c, p) == 1
    ensures var i := MatchIndex(lines, c, p);
            var r := lines[..i] + lines[i + 1..];
            && Units(r, c, p) == 0
            && (forall c', p' :: c' != c || p' != p ==> Units(r, c', p') == Units(lines, c', p'))
            && (lines[i].count == 1 ==> OneMore(r, lines, c, p))
            && (AllPositive(lines) ==> AllPositive(r))
  {
    var i := MatchIndex(lines, c, p);
    var r := lines[..i] + lines[i + 1..];
    SumDelete(lines, i);
    NoRows(r, c, p);
    if AllPositive(lines) {
      forall j | 0 <= j < |r| ensures r[j].count >= 1 {
        if j < i { assert r[j] == lines[j]; } else { assert r[j] == lines[j + 1]; }
      }
    }
    if lines[i].count == 1 {
      forall products ensures LineTotal(lines[i], products, c) == Price(products, p) {
      }
    }
  }

  /**
   * AddToCart: a new row with count 1 when cart `c` has no row for product `p`,
   * otherwise one more unit on its row; `None` when several rows hold the key
   * (`SingleOrDefault` throws). Either way the key ends on a single row holding
   * one unit more, and nothing else changes.
   */
  function AddLine(lines: seq<CartLine>, c: string, p: int, now: Time): (r: Option<seq<CartLine>>)
    ensures r.None? <==> Rows(lines, c, p) >= 2
    ensures Rows(lines, c, p) == 0 ==> r == Some(lines + [CartLine(c, p, 1, now)])
    ensures Rows(lines, c, p) == 1 ==>
              var i := MatchIndex(lines, c, p);
              r == Some(lines[i := lines[i].(count := lines[i].count + 1)])
    ensures r.Some? ==> Rows(r.value, c, p) == 1 && OneMore(lines, r.value, c, p)
    ensures r.Some? && AllPositive(lines) ==> AllPositive(r.value)
  {
    var n := Rows(lines, c, p);
    if n == 0 then
      AppendOneMore(lines, c, p, now);
      Some(lines + [CartLine(c, p, 1, now)])
    else if n == 1 then
      var i := MatchIndex(lines, c, p);
      IncrementOneMore(lines, c, p);
      Some(lines[i := lines[i].(count := lines[i].count + 1)])
    else
      None
  }

  /** The outcome of removing one unit: the new rows and the units left on the key. */
  datatype Removal = Removal(lines: seq<CartLine>, itemCount: int)

  /**
   * RemoveFromCart: one unit fewer on the row of cart `c` for product `p`, the row
   * deleted when it held a single unit; `None` unless exactly one row holds the
   * key (`Single` throws). On rows that all hold a unit or more, removing is
   * the inverse of adding: the old rows hold one unit more than the new.
   */
  function RemoveLine(lines: seq<CartLine>, c: string, p: int): (r: Option<Removal>)
    ensures r.Some? <==> Rows(lines, c, p) == 1
    ensures r.Some? ==> r.value.itemCount == Units(r.value.lines, c, p)
    ensures r.Some? ==> var old_count := lines[MatchIndex(lines, c, p)].count;
      r.value.itemCount == if old_count > 1 then old_count - 1 else 0
    ensures r.Some? && AllPositive(lines) ==> AllPositive(r.value.lines) && OneMore(r.value.lines, lines, c, p)
    ensures r.Some? ==> forall c', p' :: c' != c || p' != p ==> Units(r.value.lines, c', p') == Units(lines, c', p')
  {
    if Rows(lines, c, p) != 1 then None
    else
      var i := MatchIndex(lines, c, p);
      if lines[i].count > 1 then
        DecrementOneMore(lines, c, p);
        var x := lines[i].(count := lines[i].count - 1);
        Some(Removal(lines[i := x], x.count))
      else
        DeleteOneMore(lines, c, p);
        assert AllPositive(lines) ==> lines[i].count == 1;
        Some(Removal(lines[..i] + lines[i + 1..], 0))
  }

  /** `GetCartItems`: the rows of cart `c`, in table order. */
  function CartItems(lines: seq<CartLine>, c: string): seq<CartLine>
  {
    if lines == [] then []
    else
      var last := lines[|lines| - 1];
      CartItems(lines[..|lines| - 1], c) + (if last.cartId == c then [last] else [])
  }

  /** The rows `GetCartItems` returns are exactly the rows of cart `c`. */
  lemma {:induction false} CartItemsRows(lines: seq<CartLine>, c: string)
    ensures forall l :: l in CartItems(lines, c) <==> l in lines && l.cartId == c
    ensures forall i :: 0 <= i < |CartItems(lines, c)| ==> CartItems(lines, c)[i].cartId == c
  {
    if lines != [] {
      var init := lines[..|lines| - 1];
      assert lines == init + [lines[|lines| - 1]];
      CartItemsRows(init, c);
      var items := CartItems(lines, c);
      forall i | 0 <= i < |items| ensures items[i].cartId == c {
        assert items[i] in items;
      }
    }
  }

  /** The rows of cart `c` carry every sum over cart `c`. */
  lemma {:induction false} CartItemsSum(lines: seq<CartLine>, c: string, m: Measure)
    requires m.cart == c
    ensures Sum(CartItems(lines, c), m) == Sum(lines, m)
  {
    if lines != [] {
      var last := lines[|lines| - 1];
      var init := lines[..|lines| - 1];
      CartItemsSum(init, c, m);
      if last.cartId == c {
        assert CartItems(lines, c) == CartItems(init, c) + [last];
        SumAppend(CartItems(init, c), last);
      } else {
        assert CartItems(lines, c) == CartItems(init, c);
      }
    }
  }

  /** The rows of cart `c` carry its whole total. */
  lemma {:induction false} CartItemsTotal(lines: seq<CartLine>, products: map<int, Product>, c: string)
    ensures Total(CartItems(lines, c), products, c) == Total(lines, products, c)
  {
    if lines != [] {
      var last := lines[|lines| - 1];
      var init := lines[..|lines| - 1];
      CartItemsTotal(init, products, c);
      if last.cartId == c {
        assert CartItems(lines, c) == CartItems(init, c) + [last];
        SumAppend(CartItems(init, c), last);
      } else {
        assert CartItems(lines, c) == CartItems(init, c);
      }
    }
  }

  /** What `EmptyCart` leaves: the rows of every other cart, in table order. */
  function OtherCarts(lines: seq<CartLine>, c: string): seq<CartLine>
  {
    if lines == [] then []
    else
      var last := lines[|lines| - 1];
      OtherCarts(lines[..|lines| - 1], c) + (if last.cartId != c then [last] else [])
  }

  /** `EmptyCart` keeps exactly the rows of the other carts, and keeps counts positive. */
  lemma {:induction false} OtherCartsRows(lines: seq<CartLine>, c: string)
    ensures forall l :: l in OtherCarts(lines, c) <==> l in lines && l.cartId != c
    ensures AllPositive(lines) ==> AllPositive(OtherCarts(lines, c))
  {
    if lines != [] {
      var init := lines[..|lines| - 1];
      assert lines == init + [lines[|lines| - 1]];
      OtherCartsRows(init, c);
      var rest := OtherCarts(init, c);
      assert forall j :: 0 <= j < |rest| ==> rest[j] in rest;
    }
  }

  /** After `EmptyCart`, every sum over cart `c` is 0 and every other cart's sums are as they were. */
  lemma {:induction false} OtherCartsSum(lines: seq<CartLine>, c: string, m: Measure)
    ensures Sum(OtherCarts(lines, c), m) == if m.cart == c then 0 else Sum(lines, m)
  {
    if lines != [] {
      var last := lines[|lines| - 1];
      var init := lines[..|lines| - 1];
      OtherCartsSum(init, c, m);
      if last.cartId != c {
        assert OtherCarts(lines, c) == OtherCarts(init, c) + [last];
        SumAppend(OtherCarts(init, c), last);
      } else {
        assert OtherCarts(lines, c) == OtherCarts(init, c);
      }
    }
  }

  /** After `EmptyCart`, cart `c`'s total is 0. */
  lemma {:induction false} OtherCartsTotal(lines: seq<CartLine>, products: map<int, Product>, c: string)
    ensures Total(OtherCarts(lines, c), products, c) == 0.0
  {
    if lines != [] {
      var last := lines[|lines| - 1];
      var init := lines[..|lines| - 1];
      OtherCartsTotal(init, products, c);
      if last.cartId != c {
        assert OtherCarts(lines, c) == OtherCarts(init, c) + [last];
        SumAppend(OtherCarts(init, c), last);
      } else {
        assert OtherCarts(lines, c) == OtherCarts(init, c);
      }
    }
  }

  function Rename(l: CartLine, from: string, to: string): CartLine
  {
    if l.cartId == from then l.(cartId := to) else l
  }

  /**
   * `MigrateCart`: every row of cart `from` moved to cart `to`, with its product
   * and count kept; rows of other carts as they were.
   */
  function Migrated(lines: seq<CartLine>, from: string, to: string): (r: seq<CartLine>)
    ensures |r| == |lines|
    ensures forall i :: 0 <= i < |lines| ==>
              && r[i].productId == lines[i].productId
              && r[i].count == lines[i].count
              && r[i].created == lines[i].created
              && (lines[i].cartId == from ==> r[i].cartId == to)
              && (lines[i].cartId != from ==> r[i] == lines[i])
    ensures AllPositive(lines) ==> AllPositive(r)
  {
    if lines == [] then []
    else
      Migrated(lines[..|lines| - 1], from, to) + [Rename(lines[|lines| - 1], from, to)]
  }

  /**
   * After `MigrateCart`, cart `to` holds its own units and those of cart `from`,
   * cart `from` holds none, and every other cart is as it was.
   */
  lemma {:induction false} MigratedSums(lines: seq<CartLine>, from: string, to: string)
    requires from != to
    ensures Count(Migrated(lines, from, to), from) == 0
    ensures Count(Migrated(lines, from, to), to) == Count(lines, to) + Count(lines, from)
    ensures forall c :: c != from && c != to ==> Count(Migrated(lines, from, to), c) == Count(lines, c)
    ensures forall p :: Units(Migrated(lines, from, to), to, p) == Units(lines, to, p) + Units(lines, from, p)
    ensures forall p :: Rows(Migrated(lines, from, to), to, p) == Rows(lines, to, p) + Rows(lines, from, p)
  {
    if lines != [] {
      var last := lines[|lines| - 1];
      var init := lines[..|lines| - 1];
      var moved := Migrated(init, from, to);
      var x := Rename(last, from, to);
      MigratedSums(init, from, to);
      assert Migrated(lines, from, to) == moved + [x];
      SumAppend(moved, x);
      forall c | c != from && c != to ensures Count(Migrated(lines, from, to), c) == Count(lines, c) {
        assert Count(lines, c) == Count(init, c) + Weight(CountOf(c), last);
      }
      forall p ensures Units(Migrated(lines, from, to), to, p) == Units(lines, to, p) + Units(lines, from, p) {
        assert Units(lines, to, p) == Units(init, to, p) + Weight(UnitsOf(to, p), last);
        assert Units(lines, from, p) == Units(init, from, p) + Weight(UnitsOf(from, p), last);
      }
      forall p ensures Rows(Migrated(lines, from, to), to, p) == Rows(lines, to, p) + Rows(lines, from, p) {
        assert Rows(lines, to, p) == Rows(init, to, p) + Weight(RowsOf(to, p), last);
        assert Rows(lines, from, p) == Rows(init, from, p) + Weight(RowsOf(from, p), last);
      }
    }
  }

  /**
   * Once carts `from` and `to` both hold product `p`, the migrated table holds
   * the key (to, p) twice, and neither AddToCart nor RemoveFromCart can touch it.
   */
  lemma MigrateMayDuplicateKey(lines: seq<CartLine>, from: string, to: string, p: int, now: Time)
    requires from != to && Rows(lines, from, p) >= 1 && Rows(lines, to, p) >= 1
    ensures Rows(Migrated(lines, from, to), to, p) >= 2
    ensures AddLine(Migrated(lines, from, to), to, p, now).None?
    ensures RemoveLine(Migrated(lines, from, to), to, p).None?
  {
    MigratedSums(lines, from, to);
  }
}
