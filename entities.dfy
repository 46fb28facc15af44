/**
 * The records of the ValueFurniture store: products, categories, cart lines,
 * orders and order lines, with the few string predicates the controllers use.
 */
module Entities {

  datatype Option<T> = None | Some(value: T)

  /** C#'s `decimal` is exact, so money is a real number of pounds. */
  type Money = real

  /** A `DateTime`, as a count of 100-nanosecond ticks. */
  type Time = int

  const TicksPerDay: int := 864_000_000_000

  datatype Product = Product(
    id: int,
    name: string,
    price: Money,
    details: string,
    pictureUrl: string,
    quantity: int,        // units in stock
    categoryId: int)

  datatype Category = Category(id: int, name: string)

  /** One row of the Carts table: `count` units of a product in cart `cartId`. */
  datatype CartLine = CartLine(cartId: string, productId: int, count: int, created: Time)

  /** An order header; every string column may be null. */
  datatype Order = Order(
    id: int,
    firstName: Option<string>,
    lastName: Option<string>,
    line1: Option<string>,
    line2: Option<string>,
    city: Option<string>,
    postalCode: Option<string>,
    country: Option<string>,
    phone: Option<string>,
    email: Option<string>,
    orderDate: Time,
    orderTotal: Money,
    customerId: Option<string>,
    transactionId: Option<string>)

  /** One row of the OrderDetails table, keyed by (productId, orderId). */
  datatype OrderDetail = OrderDetail(
    productId: int,
    orderId: int,
    productName: string,  // snapshot of the product's name
    quantity: int,
    cost: Money,          // snapshot of the product's unit price
    customerId: Option<string>)

  /** `char.IsWhiteSpace`: the Unicode separators and the control characters 9-13 and 133. */
  predicate IsWhiteSpace(c: char)
  {
    || ('\t' <= c <= '\r')
    || c == ' ' || c == '\U{85}' || c == '\U{A0}' || c == '\U{1680}'
    || ('\U{2000}' <= c <= '\U{200A}')
    || c == '\U{2028}' || c == '\U{2029}' || c == '\U{202F}' || c == '\U{205F}' || c == '\U{3000}'
  }

  /** `string.IsNullOrWhiteSpace`. */
  predicate IsNullOrWhiteSpace(s: Option<string>)
  {
    s.None? || forall i :: 0 <= i < |s.value| ==> IsWhiteSpace(s.value[i])
  }

  /** `s.StartsWith(prefix)`, compared ordinally. */
  predicate StartsWith(s: string, prefix: string)
  {
    prefix <= s
  }

  /** `s.Contains(sub)`, compared ordinally: `sub` occurs at some position of `s`. */
  predicate Contains(s: string, sub: string)
    decreases |s|
  {
    StartsWith(s, sub) || (s != [] && Contains(s[1..], sub))
  }

  /** A nullable column compared with StartsWith in a query: a null column matches nothing. */
  predicate ColumnStartsWith(column: Option<string>, prefix: string)
  {
    column.Some? && StartsWith(column.value, prefix)
  }

  /** Decimal digits of `n`, as `int.ToString()` writes them. */
  function IntToString(n: int): (s: string)
    ensures |s| >= 1
    ensures n >= 0 ==> forall i :: 0 <= i < |s| ==> '0' <= s[i] <= '9'
    ensures n < 0 ==> s[0] == '-'
    decreases if n < 0 then 1 - n else n
  {
    if n < 0 then "-" + IntToString(-n)
    else if n < 10 then [Digit(n)]
    else IntToString(n / 10) + [Digit(n % 10)]
  }

  function Digit(d: int): (c: char)
    requires 0 <= d < 10
    ensures '0' <= c <= '9'
  {
    ['0', '1', '2', '3', '4', '5', '6', '7', '8', '9'][d]
  }

  predicate IsDigits(s: string)
  {
    forall i :: 0 <= i < |s| ==> '0' <= s[i] <= '9'
  }

  /** The number a string of decimal digits denotes, read most significant digit first. */
  function DigitsValue(s: string): (v: nat)
    requires IsDigits(s)
  {
    if s == [] then 0
    else DigitsValue(s[..|s| - 1]) * 10 + (s[|s| - 1] as int - '0' as int)
  }

  lemma DigitValue(d: int)
    requires 0 <= d < 10
    ensures Digit(d) as int - '0' as int == d
  {
    var ds := ['0', '1', '2', '3', '4', '5', '6', '7', '8', '9'];
    assert ds[0] == '0' && ds[1] == '1' && ds[2] == '2' && ds[3] == '3' && ds[4] == '4';
    assert ds[5] == '5' && ds[6] == '6' && ds[7] == '7' && ds[8] == '8' && ds[9] == '9';
  }

  /** The digits `IntToString` writes for a non-negative number denote that number. */
  lemma {:induction false} DigitsOf(n: nat)
    ensures DigitsValue(IntToString(n)) == n
  {
    if n < 10 {
      DigitValue(n);
      var s := IntToString(n);
      assert s == [Digit(n)] && s[..0] == [];
    } else {
      DigitsOf(n / 10);
      DigitValue(n % 10);
      var s, init := IntToString(n), IntToString(n / 10);
      assert s == init + [Digit(n % 10)];
      assert s[..|s| - 1] == init;
      assert DigitsValue(s) == DigitsValue(init) * 10 + (Digit(n % 10) as int - '0' as int);
      assert n == n / 10 * 10 + n % 10;
    }
  }

  /**
   * `IntToString` writes the number itself: the digits of a non-negative number
   * denote it, and a negative number is a minus sign before the digits of its
   * magnitude.
   */
  lemma IntToStringValue(n: int)
    ensures n >= 0 ==> DigitsValue(IntToString(n)) == n
    ensures n < 0 ==> IntToString(n) == "-" + IntToString(-n) && DigitsValue(IntToString(n)[1..]) == -n
  {
    if n < 0 {
      DigitsOf(-n);
      assert IntToString(n)[1..] == IntToString(-n);
    } else {
      DigitsOf(n);
    }
  }

  /** Different numbers are written differently. */
  lemma IntToStringInjective(a: int, b: int)
    requires IntToString(a) == IntToString(b)
    ensures a == b
  {
    IntToStringValue(a);
    IntToStringValue(b);
  }

  /** A three-digit number is written with three digits. */
  lemma ThreeDigits(n: int)
    requires 100 <= n < 1000
    ensures |IntToString(n)| == 3
  {
    assert IntToString(n / 100) == [Digit(n / 100)];
    assert IntToString(n / 10) == IntToString(n / 10 / 10) + [Digit(n / 10 % 10)];
  }

  /**
   * `string.Length`: the number of UTF-16 code units, two for a character outside
   * the Basic Multilingual Plane.
   */
  function Utf16Length(s: string): (n: nat)
    ensures |s| <= n <= 2 * |s|
    ensures (forall i :: 0 <= i < |s| ==> s[i] as int <= 0xFFFF) ==> n == |s|
  {
    if s == [] then 0
    else Utf16Length(s[..|s| - 1]) + (if s[|s| - 1] as int > 0xFFFF then 2 else 1)
  }

  /** A string made only of characters outside the Basic Multilingual Plane is twice its length in code units. */
  lemma {:induction false} AstralLength(s: string)
    requires forall i :: 0 <= i < |s| ==> s[i] as int > 0xFFFF
    ensures Utf16Length(s) == 2 * |s|
  {
    if s != [] {
      AstralLength(s[..|s| - 1]);
    }
  }

  /** `sub` is the slice of `s` that starts at position `k`. */
  predicate OccursAt(s: string, sub: string, k: int)
  {
    0 <= k <= |s| - |sub| && s[k..k + |sub|] == sub
  }

  /** `Contains` holds exactly when `sub` occurs at some position of `s`. */
  lemma {:induction false} ContainsAt(s: string, sub: string)
    ensures Contains(s, sub) <==> exists k :: OccursAt(s, sub, k)
    decreases |s|
  {
    if StartsWith(s, sub) {
      assert OccursAt(s, sub, 0);
    } else if s == [] {
    } else {
      ContainsAt(s[1..], sub);
      if Contains(s[1..], sub) {
        var k :| OccursAt(s[1..], sub, k);
        assert OccursAt(s, sub, k + 1);
      }
      if exists k :: OccursAt(s, sub, k) {
        var k :| OccursAt(s, sub, k);
        if k == 0 {
          assert false;
        } else {
          assert OccursAt(s[1..], sub, k - 1);
        }
      }
    }
  }
}
