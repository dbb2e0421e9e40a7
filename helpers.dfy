/** Cart aggregation, PayPal order bodies, order documents and the two
    cookie helpers (src/utils/helpers.ts). */
module Helpers {
  import opened Wrappers
  import opened Text
  import opened Tokens
  import opened UserModel
  import opened Documents
  import opened Http
  import Config

  // ---------------------------------------------------------------------------
  // Cart aggregation

  /** One cart line: a product and how many times the cart holds it. */
  datatype CartItem = CartItem(id: string, name: string, price: int, quantity: nat)

  /** A JavaScript object keyed by product id: its own keys in insertion
      order and the entry under each key. */
  datatype CartObject = CartObject(keys: seq<string>, entries: map<string, CartItem>) {
    predicate WellFormed() {
      && NoDuplicates(keys)
      && entries.Keys == set k | k in keys
      && forall k | k in entries :: entries[k].id == k
    }

    /** `Object.values(cartObject)` */
    function Values(): (v: seq<CartItem>)
      requires WellFormed()
      ensures |v| == |keys|
      ensures forall i :: 0 <= i < |keys| ==> v[i] == entries[keys[i]]
    {
      seq(|keys|, i requires 0 <= i < |keys| => entries[keys[i]])
    }
  }

  predicate NoDuplicates(s: seq<string>) {
    forall i, j :: 0 <= i < j < |s| ==> s[i] != s[j]
  }

  function Ids(ps: seq<Product>): (r: seq<string>)
    ensures |r| == |ps|
    ensures forall i :: 0 <= i < |ps| ==> r[i] == ps[i].id
  {
    seq(|ps|, i requires 0 <= i < |ps| => ps[i].id)
  }

  /** The distinct elements of `s` in order of first occurrence. */
  function Distinct(s: seq<string>): (d: seq<string>)
    ensures forall x :: x in d <==> x in s
    ensures NoDuplicates(d)
  {
    if s == [] then []
    else
      var d := Distinct(s[..|s| - 1]);
      if s[|s| - 1] in d then d else d + [s[|s| - 1]]
  }

  /** How many times `x` occurs in `s`. */
  function Occurrences(s: seq<string>, x: string): nat {
    if s == [] then 0
    else Occurrences(s[..|s| - 1], x) + (if s[|s| - 1] == x then 1 else 0)
  }

  /** The index of the first occurrence of `x` in `s`. */
  function FirstIndex(s: seq<string>, x: string): (i: nat)
    requires x in s
    ensures i < |s| && s[i] == x && x !in s[..i]
  {
    if s[0] == x then 0 else 1 + FirstIndex(s[1..], x)
  }

  /** The first product in the list with id `id`. */
  function FirstWith(ps: seq<Product>, id: string): Product
    requires id in Ids(ps)
  {
    ps[FirstIndex(Ids(ps), id)]
  }

  /** What the cart object's values are for a list of products: one line per
      distinct id in order of first occurrence, named and priced after that
      first occurrence, counting every occurrence. */
  function CartValues(ps: seq<Product>): (cart: seq<CartItem>)
    ensures |cart| == |Distinct(Ids(ps))|
    ensures forall i :: 0 <= i < |cart| ==> cart[i].id == Distinct(Ids(ps))[i]
  {
    var keys := Distinct(Ids(ps));
    seq(|keys|, i requires 0 <= i < |keys| =>
      var p := FirstWith(ps, keys[i]);
      CartItem(keys[i], p.name, p.price, Occurrences(Ids(ps), keys[i])))
  }

  lemma IdsSnoc(ps: seq<Product>, p: Product)
    ensures Ids(ps + [p]) == Ids(ps) + [p.id]
  {
  }

  lemma {:induction false} FirstIndexSnoc(s: seq<string>, y: string, x: string)
    requires x in s
    ensures FirstIndex(s + [y], x) == FirstIndex(s, x)
  {
    if s[0] != x {
      assert (s + [y])[1..] == s[1..] + [y];
      FirstIndexSnoc(s[1..], y, x);
    }
  }

  /** Adding one product to the list either bumps the quantity of its
      existing line or appends a new line of quantity one. */
  lemma CartValuesSnoc(ps: seq<Product>, p: Product)
    ensures p.id in Ids(ps) ==>
      |CartValues(ps + [p])| == |CartValues(ps)| &&
      forall i :: 0 <= i < |CartValues(ps)| ==>
        CartValues(ps + [p])[i] ==
          if CartValues(ps)[i].id == p.id then CartValues(ps)[i].(quantity := CartValues(ps)[i].quantity + 1)
          else CartValues(ps)[i]
    ensures p.id !in Ids(ps) ==>
      CartValues(ps + [p]) == CartValues(ps) + [CartItem(p.id, p.name, p.price, 1)]
  {
    var s := Ids(ps);
    IdsSnoc(ps, p);
    DistinctSnoc(s, p.id);
    var d, d' := Distinct(s), Distinct(Ids(ps + [p]));
    var cv, cv' := CartValues(ps), CartValues(ps + [p]);
    forall i | 0 <= i < |cv|
      ensures cv'[i] == if cv[i].id == p.id then cv[i].(quantity := cv[i].quantity + 1) else cv[i]
    {
      var k := d[i];
      assert d'[i] == k;
      ExistingLineSnoc(ps, p, k);
      CartLine(ps, i);
      CartLine(ps + [p], i);
    }
    if p.id !in s {
      var n := |cv|;
      assert cv'[n] == CartItem(p.id, p.name, p.price, 1) by {
        assert d'[n] == p.id;
        CartLine(ps + [p], n);
        OccurrencesAbsent(s, p.id);
        OccurrencesSnoc(s, p.id, p.id);
        FirstIndexAppended(s, p.id);
      }
      assert cv' == cv + [cv'[n]];
    }
  }

  /** The line at position `i` of the cart of `ps`. */
  lemma CartLine(ps: seq<Product>, i: nat)
    requires i < |Distinct(Ids(ps))|
    ensures var k := Distinct(Ids(ps))[i];
      CartValues(ps)[i] == CartItem(k, FirstWith(ps, k).name, FirstWith(ps, k).price, Occurrences(Ids(ps), k))
  {
  }

  /** The line of an id already in the list keeps its first product and
      counts the new one when it has the same id. */
  lemma ExistingLineSnoc(ps: seq<Product>, p: Product, k: string)
    requires k in Ids(ps)
    ensures k in Ids(ps + [p]) && FirstWith(ps + [p], k) == FirstWith(ps, k)
    ensures Occurrences(Ids(ps + [p]), k) == Occurrences(Ids(ps), k) + (if k == p.id then 1 else 0)
  {
    var s := Ids(ps);
    IdsSnoc(ps, p);
    FirstIndexSnoc(s, p.id, k);
    OccurrencesSnoc(s, p.id, k);
  }

  lemma DistinctSnoc(s: seq<string>, x: string)
    ensures Distinct(s + [x]) == if x in s then Distinct(s) else Distinct(s) + [x]
  {
    assert (s + [x])[..|s|] == s;
  }

  lemma OccurrencesSnoc(s: seq<string>, y: string, x: string)
    ensures Occurrences(s + [y], x) == Occurrences(s, x) + (if y == x then 1 else 0)
  {
    assert (s + [y])[..|s|] == s;
  }

  lemma FirstIndexAppended(s: seq<string>, x: string)
    requires x !in s
    ensures FirstIndex(s + [x], x) == |s|
  {
  }

  lemma {:induction false} OccurrencesAbsent(s: seq<string>, x: string)
    requires x !in s
    ensures Occurrences(s, x) == 0
  {
    if s != [] {
      OccurrencesAbsent(s[..|s| - 1], x);
    }
  }

  /** An object whose values are the cart of `ps` is keyed by the distinct
      ids of `ps`, in order. */
  lemma KeysOfCart(o: CartObject, ps: seq<Product>)
    requires o.WellFormed() && o.Values() == CartValues(ps)
    ensures o.keys == Distinct(Ids(ps))
  {
    var d := Distinct(Ids(ps));
    assert |o.keys| == |d|;
    forall i | 0 <= i < |d|
      ensures o.keys[i] == d[i]
    {
      assert o.Values()[i] == o.entries[o.keys[i]] == CartValues(ps)[i];
      assert CartValues(ps)[i].id == d[i];
      assert o.entries[o.keys[i]].id == o.keys[i];
    }
  }

  /** The object with the quantity under key `x` raised by one. */
  function Bumped(o: CartObject, x: string): (o': CartObject)
    requires x in o.entries
    ensures o'.keys == o.keys && o'.entries.Keys == o.entries.Keys
  {
    CartObject(o.keys, o.entries[x := o.entries[x].(quantity := o.entries[x].quantity + 1)])
  }

  /** One iteration of the loop below, for a product whose id is already a
      key: its entry's quantity goes up by one. */
  lemma BumpStep(o: CartObject, ps: seq<Product>, p: Product)
    requires o.WellFormed() && o.Values() == CartValues(ps)
    requires p.id in o.entries
    ensures Bumped(o, p.id).WellFormed() && Bumped(o, p.id).Values() == CartValues(ps + [p])
  {
    var cv, cv' := CartValues(ps), CartValues(ps + [p]);
    assert p.id in Ids(ps) by {
      KeysOfCart(o, ps);
    }
    assert |cv'| == |cv| && forall i :: 0 <= i < |cv| ==>
      cv'[i] == if cv[i].id == p.id then cv[i].(quantity := cv[i].quantity + 1) else cv[i]
    by {
      CartValuesSnoc(ps, p);
    }
    BumpValues(o, cv, cv', p.id);
  }

  /** Raising the quantity of the entry under key `x` raises it in the one
      value with that id and leaves the others. */
  lemma BumpValues(o: CartObject, cv: seq<CartItem>, cv': seq<CartItem>, x: string)
    requires o.WellFormed() && o.Values() == cv && x in o.entries
    requires |cv'| == |cv|
    requires forall i :: 0 <= i < |cv| ==>
      cv'[i] == if cv[i].id == x then cv[i].(quantity := cv[i].quantity + 1) else cv[i]
    ensures Bumped(o, x).WellFormed() && Bumped(o, x).Values() == cv'
  {
    var o' := Bumped(o, x);
    assert o'.WellFormed();
    forall i | 0 <= i < |cv'|
      ensures o'.Values()[i] == cv'[i]
    {
      var k := o.keys[i];
      assert cv[i] == o.entries[k] && cv[i].id == k;
    }
  }

  /** The object with a new key `item.id` holding `item` at the end. */
  function Appended(o: CartObject, item: CartItem): (o': CartObject)
    ensures o'.keys == o.keys + [item.id] && o'.entries.Keys == o.entries.Keys + {item.id}
  {
    CartObject(o.keys + [item.id], o.entries[item.id := item])
  }

  /** One iteration of the loop below, for a product whose id is not yet a
      key: a new key with quantity one goes at the end. */
  lemma AppendStep(o: CartObject, ps: seq<Product>, p: Product)
    requires o.WellFormed() && o.Values() == CartValues(ps)
    requires p.id !in o.entries
    ensures Appended(o, CartItem(p.id, p.name, p.price, 1)).WellFormed()
    ensures Appended(o, CartItem(p.id, p.name, p.price, 1)).Values() == CartValues(ps + [p])
  {
    var item := CartItem(p.id, p.name, p.price, 1);
    assert CartValues(ps + [p]) == CartValues(ps) + [item] by {
      assert p.id !in Ids(ps) by {
        KeysOfCart(o, ps);
      }
      CartValuesSnoc(ps, p);
    }
    AppendValues(o, CartValues(ps), item);
  }

  /** Appending a new key with its entry appends the entry to the values. */
  lemma AppendValues(o: CartObject, cv: seq<CartItem>, item: CartItem)
    requires o.WellFormed() && o.Values() == cv && item.id !in o.entries
    ensures Appended(o, item).WellFormed() && Appended(o, item).Values() == cv + [item]
  {
    var o' := Appended(o, item);
    assert item.id !in o.keys;
    assert o'.WellFormed();
    forall i | 0 <= i < |o'.keys|
      ensures o'.Values()[i] == (cv + [item])[i]
    {
      if i < |cv| {
        assert o'.keys[i] == o.keys[i] != item.id;
        assert o.Values()[i] == o.entries[o.keys[i]];
      }
    }
  }

  /** `mapProductsToCartObject`: fills the object entry by entry. */
  method MapProductsToCartObject(products: seq<Product>) returns (cart: CartObject)
    ensures cart.WellFormed()
    ensures cart.Values() == CartValues(products)
  {
    var keys: seq<string> := [];
    var entries: map<string, CartItem> := map[];
    for i := 0 to |products|
      invariant CartObject(keys, entries).WellFormed()
      invariant CartObject(keys, entries).Values() == CartValues(products[..i])
    {
      var p := products[i];
      assert products[..i + 1] == products[..i] + [p];
      if p.id in entries {
        BumpStep(CartObject(keys, entries), products[..i], p);
        entries := entries[p.id := entries[p.id].(quantity := entries[p.id].quantity + 1)];
      } else {
        AppendStep(CartObject(keys, entries), products[..i], p);
        entries := entries[p.id := CartItem(p.id, p.name, p.price, 1)];
        keys := keys + [p.id];
      }
    }
    cart := CartObject(keys, entries);
    assert products[..|products|] == products;
  }

  // ---------------------------------------------------------------------------
  // Totals

  function QuantitySum(cart: seq<CartItem>): int {
    if cart == [] then 0 else QuantitySum(cart[..|cart| - 1]) + cart[|cart| - 1].quantity
  }

  /** Σ quantity × price, in cents. */
  function LineSum(cart: seq<CartItem>): int {
    if cart == [] then 0
    else LineSum(cart[..|cart| - 1]) + cart[|cart| - 1].quantity * cart[|cart| - 1].price
  }

  function PriceSum(ps: seq<Product>): int {
    if ps == [] then 0 else PriceSum(ps[..|ps| - 1]) + ps[|ps| - 1].price
  }

  /** Raising the quantity of the one line with id `x` by one. */
  lemma {:induction false} SumsAfterBump(cart: seq<CartItem>, cart': seq<CartItem>, x: string, j: nat)
    requires |cart'| == |cart| && j < |cart| && cart[j].id == x
    requires forall i :: 0 <= i < |cart| && i != j ==> cart[i].id != x
    requires forall i :: 0 <= i < |cart| ==>
      cart'[i] == if cart[i].id == x then cart[i].(quantity := cart[i].quantity + 1) else cart[i]
    ensures QuantitySum(cart') == QuantitySum(cart) + 1
    ensures LineSum(cart') == LineSum(cart) + cart[j].price
  {
    var n := |cart|;
    if j == n - 1 {
      assert cart'[..n - 1] == cart[..n - 1];
    } else {
      SumsAfterBump(cart[..n - 1], cart'[..n - 1], x, j);
    }
  }

  /** Whenever two list entries share an id they are the same product, as
      the entries of a populated cart are. */
  predicate SameIdSameProduct(ps: seq<Product>) {
    forall i, j :: 0 <= i < |ps| && 0 <= j < |ps| && ps[i].id == ps[j].id ==> ps[i] == ps[j]
  }

  /** Grouping loses nothing: the quantities add up to the number of
      products, and (when equal ids mean equal products) the cart's value
      is the sum of the products' prices. */
  lemma {:induction false} CartTotals(ps: seq<Product>)
    ensures QuantitySum(CartValues(ps)) == |ps|
    ensures SameIdSameProduct(ps) ==> LineSum(CartValues(ps)) == PriceSum(ps)
  {
    if ps != [] {
      var n := |ps|;
      var init, p := ps[..n - 1], ps[n - 1];
      assert ps == init + [p];
      CartTotals(init);
      if p.id in Ids(init) {
        BumpTotals(init, p);
        if SameIdSameProduct(ps) {
          var k := FirstIndex(Ids(init), p.id);
          assert ps[k] == init[k] == FirstWith(init, p.id);
          assert ps[k] == p;
          assert SameIdSameProduct(init);
        }
      } else {
        AppendTotals(init, p);
        if SameIdSameProduct(ps) {
          assert SameIdSameProduct(init);
        }
      }
    }
  }

  /** Adding a product whose id is already in the cart adds one to the
      quantities and the first such product's price to the value. */
  lemma BumpTotals(ps: seq<Product>, p: Product)
    requires p.id in Ids(ps)
    ensures QuantitySum(CartValues(ps + [p])) == QuantitySum(CartValues(ps)) + 1
    ensures LineSum(CartValues(ps + [p])) == LineSum(CartValues(ps)) + FirstWith(ps, p.id).price
  {
    CartValuesSnoc(ps, p);
    var cv, d := CartValues(ps), Distinct(Ids(ps));
    var j := FirstIndex(d, p.id);
    assert cv[j].price == FirstWith(ps, p.id).price;
    SumsAfterBump(cv, CartValues(ps + [p]), p.id, j);
  }

  /** Adding a product with a new id adds one to the quantities and its
      price to the value. */
  lemma AppendTotals(ps: seq<Product>, p: Product)
    requires p.id !in Ids(ps)
    ensures QuantitySum(CartValues(ps + [p])) == QuantitySum(CartValues(ps)) + 1
    ensures LineSum(CartValues(ps + [p])) == LineSum(CartValues(ps)) + p.price
  {
    CartValuesSnoc(ps, p);
    SumsSnoc(CartValues(ps), CartItem(p.id, p.name, p.price, 1));
  }

  lemma SumsSnoc(cart: seq<CartItem>, item: CartItem)
    ensures QuantitySum(cart + [item]) == QuantitySum(cart) + item.quantity
    ensures LineSum(cart + [item]) == LineSum(cart) + item.quantity * item.price
  {
    assert (cart + [item])[..|cart|] == cart;
  }

  /** parseInt of the total formatted with two decimals: the total cut to
      whole units toward zero. */
  function TruncToUnits(cents: int): int {
    if cents >= 0 then cents / 100 else -((-cents) / 100)
  }

  /** The cut drops less than one unit, toward zero. */
  lemma TruncToUnitsBounds(cents: int)
    ensures cents >= 0 ==> 0 <= TruncToUnits(cents) * 100 <= cents < TruncToUnits(cents) * 100 + 100
    ensures cents < 0 ==> TruncToUnits(cents) * 100 - 100 < cents <= TruncToUnits(cents) * 100 <= 0
  {
  }

  /** The item total PayPal is sent, in whole currency units. */
  function ItemTotal(cart: seq<CartItem>): int {
    TruncToUnits(LineSum(cart))
  }

  /** `calculateItemTotal` */
  method CalculateItemTotal(products: seq<CartItem>) returns (itemTotal: int)
    ensures itemTotal == ItemTotal(products)
    ensures LineSum(products) >= 0 ==> itemTotal * 100 <= LineSum(products) < itemTotal * 100 + 100
  {
    itemTotal := 0;
    for i := 0 to |products|
      invariant itemTotal == LineSum(products[..i])
    {
      assert products[..i + 1][..i] == products[..i];
      itemTotal := itemTotal + products[i].quantity * products[i].price;
    }
    assert products[..|products|] == products;
    itemTotal := TruncToUnits(itemTotal);
    TruncToUnitsBounds(LineSum(products));
  }

  // ---------------------------------------------------------------------------
  // PayPal order request

  datatype Amount = Amount(currencyCode: string, value: string)

  datatype PayPalItem = PayPalItem(
    name: string,
    description: string,
    sku: string,
    unitAmount: Amount,
    quantity: string,
    category: string)

  function ToPayPalItem(c: CartItem): PayPalItem {
    PayPalItem(c.name, c.name, c.id, Amount("USD", MoneyToString(c.price)), NatToString(c.quantity), "PHYSICAL_GOODS")
  }

  /** `mapCartToOrderItems` */
  function MapCartToOrderItems(cart: seq<CartItem>): (items: seq<PayPalItem>)
    ensures |items| == |cart|
    ensures forall i :: 0 <= i < |cart| ==> items[i] == ToPayPalItem(cart[i])
  {
    if cart == [] then [] else [ToPayPalItem(cart[0])] + MapCartToOrderItems(cart[1..])
  }

  /** PayPal reads each line back exactly: its sku is the product id, its
      unit amount the price and its quantity the count. */
  lemma OrderItemsReadBack(cart: seq<CartItem>, i: nat)
    requires i < |cart|
    ensures MapCartToOrderItems(cart)[i].sku == cart[i].id
    ensures MapCartToOrderItems(cart)[i].category == "PHYSICAL_GOODS"
    ensures MapCartToOrderItems(cart)[i].name == cart[i].name
    ensures ParseMoney(MapCartToOrderItems(cart)[i].unitAmount.value) == Some(cart[i].price)
    ensures ParseNat(MapCartToOrderItems(cart)[i].quantity) == Some(cart[i].quantity as nat)
  {
    MoneyRoundTrip(cart[i].price);
    NatToStringRoundTrip(cart[i].quantity);
  }

  datatype ApplicationContext = ApplicationContext(
    brandName: string, locale: string, landingPage: string, shippingPreference: string, userAction: string)

  datatype Breakdown = Breakdown(itemTotal: Amount, shipping: Amount)

  datatype PurchaseAmount = PurchaseAmount(currencyCode: string, value: string, breakdown: Breakdown)

  datatype PurchaseUnitRequest = PurchaseUnitRequest(
    referenceId: string,
    description: string,
    customId: string,
    invoiceId: string,
    amount: PurchaseAmount,
    items: seq<PayPalItem>,
    shippingMethod: string,
    shippingType: string)

  datatype OrderRequestBody = OrderRequestBody(
    applicationContext: ApplicationContext,
    intent: string,
    purchaseUnits: seq<PurchaseUnitRequest>)

  /** A USD amount as PayPal receives it: the number's text. */
  function UsdAmount(cents: int): (a: Amount)
    ensures a.currencyCode == "USD"
    ensures ParseMoney(a.value) == Some(cents)
  {
    MoneyRoundTrip(cents);
    Amount("USD", MoneyToString(cents))
  }

  /** The amount of the purchase unit for an item total of `itemTotal` whole
      units and a shipping fee of `shippingFee` cents: the amount PayPal is
      asked for is exactly the two parts of its breakdown. */
  function PurchaseAmountFor(itemTotal: int, shippingFee: int): (a: PurchaseAmount)
    ensures a.currencyCode == "USD"
    ensures a.breakdown.itemTotal.currencyCode == "USD" && a.breakdown.shipping.currencyCode == "USD"
    ensures ParseMoney(a.breakdown.itemTotal.value) == Some(itemTotal * 100)
    ensures ParseMoney(a.breakdown.shipping.value) == Some(shippingFee)
    ensures ParseMoney(a.value) == Some(itemTotal * 100 + shippingFee)
  {
    var cents := itemTotal * 100;
    PurchaseAmount("USD", UsdAmount(cents + shippingFee).value, Breakdown(UsdAmount(cents), UsdAmount(shippingFee)))
  }

  /** `generateOrderRequestBody`; `orderId` is the freshly generated ObjectId
      and `shippingFee` is in cents. */
  function GenerateOrderRequestBody(products: seq<Product>, shippingFee: int, orderId: string): (b: OrderRequestBody)
    ensures b.intent == "CAPTURE" && |b.purchaseUnits| == 1
    ensures b.purchaseUnits[0].referenceId == orderId
    ensures b.purchaseUnits[0].customId == orderId && b.purchaseUnits[0].invoiceId == orderId
    ensures b.purchaseUnits[0].items == MapCartToOrderItems(CartValues(products))
    ensures b.purchaseUnits[0].amount == PurchaseAmountFor(ItemTotal(CartValues(products)), shippingFee)
  {
    var cart := CartValues(products);
    OrderRequestBody(
      ApplicationContext("Stcker.com", "en-US", "BILLING", "GET_FROM_FILE", "PAY_NOW"),
      "CAPTURE",
      [PurchaseUnitRequest(
        orderId,
        "Stickers",
        orderId,
        orderId,
        PurchaseAmountFor(ItemTotal(cart), shippingFee),
        MapCartToOrderItems(cart),
        "Austrialian Postal Service",
        "SHIPPING")])
  }

  /** Every line of the cart reaches PayPal, and the item total it is sent
      is the cart's value cut to whole units. */
  lemma {:induction false} OrderRequestCoversCart(products: seq<Product>, shippingFee: int, orderId: string)
    requires SameIdSameProduct(products)
    ensures var u := GenerateOrderRequestBody(products, shippingFee, orderId).purchaseUnits[0];
      && |u.items| == |Distinct(Ids(products))|
      && (forall x :: x in Ids(products) <==> exists i :: 0 <= i < |u.items| && u.items[i].sku == x)
      && ParseMoney(u.amount.breakdown.itemTotal.value) == Some(TruncToUnits(PriceSum(products)) * 100)
  {
    OrderRequestLines(products, shippingFee, orderId);
    var u := GenerateOrderRequestBody(products, shippingFee, orderId).purchaseUnits[0];
    assert ParseMoney(u.amount.breakdown.itemTotal.value) == Some(TruncToUnits(PriceSum(products)) * 100) by {
      CartTotals(products);
    }
  }

  /** One PayPal item per distinct product id, each id present. */
  lemma OrderRequestLines(products: seq<Product>, shippingFee: int, orderId: string)
    ensures var u := GenerateOrderRequestBody(products, shippingFee, orderId).purchaseUnits[0];
      && |u.items| == |Distinct(Ids(products))|
      && (forall x :: x in Ids(products) <==> exists i :: 0 <= i < |u.items| && u.items[i].sku == x)
  {
    var u := GenerateOrderRequestBody(products, shippingFee, orderId).purchaseUnits[0];
    forall x | x in Ids(products)
      ensures exists i :: 0 <= i < |u.items| && u.items[i].sku == x
    {
      var i := FirstIndex(Distinct(Ids(products)), x);
      assert u.items[i].sku == x;
    }
  }

  // ---------------------------------------------------------------------------
  // Order document from a PayPal capture

  datatype Address = Address(
    line1: string,
    line2: Option<string>,
    adminArea1: Option<string>,
    adminArea2: string,
    postalCode: string,
    countryCode: string)

  datatype ShippingInfo = ShippingInfo(fullName: string, address: Address)

  datatype Capture = Capture(id: string, grossAmount: string, paypalFee: string)

  datatype CapturedUnit = CapturedUnit(shipping: ShippingInfo, captures: seq<Capture>)

  /** `response.result` of a PayPal capture. */
  datatype CaptureResult = CaptureResult(id: string, status: string, purchaseUnits: seq<CapturedUnit>, payerEmail: string)

  /** JavaScript truthiness of an optional string. */
  predicate Truthy(s: Option<string>) { s.Some? && s.value != "" }

  /** Reading a property of `undefined` throws. */
  const TYPE_ERROR := "TypeError: Cannot read properties of undefined"

  function ToOrderItem(c: CartItem): OrderItem { OrderItem(c.id, c.quantity, c.name, c.price) }

  /** `generateOrderDocumentFields` */
  function GenerateOrderDocumentFields(products: seq<Product>, response: CaptureResult, user: User): (r: Result<Order, Failure>)
    ensures r.Ok? <==> |response.purchaseUnits| > 0 && |response.purchaseUnits[0].captures| > 0
    ensures r.Err? ==> r.error == Fail(TYPE_ERROR)
    ensures r.Ok? ==> (r.value.orderStatus == "PLACED" <==> response.status == "COMPLETED")
    ensures r.Ok? ==> (r.value.orderStatus == "PENDING" <==> response.status != "COMPLETED")
    ensures r.Ok? ==> r.value.paymentStatus == response.status && r.value.orderId == response.id
    ensures r.Ok? ==> r.value.user == user.id && r.value.captureId == response.purchaseUnits[0].captures[0].id
    ensures r.Ok? ==> (var a := response.purchaseUnits[0].shipping.address; var d := r.value.shippingDetails;
      d.fullname == response.purchaseUnits[0].shipping.fullName && d.address == a.line1 && d.city == a.adminArea2 &&
      d.postalCode == a.postalCode && d.country == a.countryCode && d.email == response.payerEmail)
    ensures r.Ok? ==> (r.value.shippingDetails.state ==
      var a := response.purchaseUnits[0].shipping.address; if Truthy(a.adminArea1) then a.adminArea1 else a.line2)
    ensures r.Ok? ==> r.value.payPalFee == Some(response.purchaseUnits[0].captures[0].paypalFee)
    ensures r.Ok? ==> r.value.shippingDetails.phoneNumber.None?
    ensures r.Ok? ==> |r.value.items| == |CartValues(products)|
    ensures r.Ok? ==> forall i :: 0 <= i < |r.value.items| ==> r.value.items[i] == ToOrderItem(CartValues(products)[i])
  {
    if |response.purchaseUnits| == 0 || |response.purchaseUnits[0].captures| == 0 then Err(Fail(TYPE_ERROR))
    else
      var cart := CartValues(products);
      var items := seq(|cart|, i requires 0 <= i < |cart| => ToOrderItem(cart[i]));
      var unit := response.purchaseUnits[0];
      var a := unit.shipping.address;
      var capture := unit.captures[0];
      Ok(Order(
        items,
        capture.id,
        response.id,
        user.id,
        response.status,
        if response.status == "COMPLETED" then "PLACED" else "PENDING",
        ShippingDetails(unit.shipping.fullName, a.line1, a.adminArea2,
          if Truthy(a.adminArea1) then a.adminArea1 else a.line2,
          a.postalCode, a.countryCode, response.payerEmail, None),
        capture.grossAmount,
        Some(capture.paypalFee)))
  }

  function ItemQuantities(items: seq<OrderItem>): int {
    if items == [] then 0 else ItemQuantities(items[..|items| - 1]) + items[|items| - 1].quantity
  }

  /** The stored order holds every product of the cart: its item quantities
      add up to the number of products captured. */
  lemma OrderDocumentCountsEveryProduct(products: seq<Product>, response: CaptureResult, user: User)
    requires GenerateOrderDocumentFields(products, response, user).Ok?
    ensures ItemQuantities(GenerateOrderDocumentFields(products, response, user).value.items) == |products|
  {
    var items := GenerateOrderDocumentFields(products, response, user).value.items;
    var cart := CartValues(products);
    SameQuantities(items, cart);
    CartTotals(products);
  }

  lemma {:induction false} SameQuantities(items: seq<OrderItem>, cart: seq<CartItem>)
    requires |items| == |cart|
    requires forall i :: 0 <= i < |items| ==> items[i] == ToOrderItem(cart[i])
    ensures ItemQuantities(items) == QuantitySum(cart)
  {
    if items != [] {
      SameQuantities(items[..|items| - 1], cart[..|cart| - 1]);
    }
  }

  // ---------------------------------------------------------------------------
  // Cookie helpers

  /** The two cookie operations of `clearCookiesResponse`. */
  function ClearCookiesOps(env: Config.Env): (ops: seq<CookieOp>)
    ensures |ops| == 2
    ensures ops[0] == Erase(Config.ACCESS_TOKEN_COOKIE_NAME, Config.AccessCookieOptions(env).(maxAge := Some(-1)))
    ensures ops[1] == Erase(Config.REFRESH_TOKEN_COOKIE_NAME, Config.RefreshCookieOptions(env).(maxAge := Some(-1)))
  {
    [Erase(Config.ACCESS_TOKEN_COOKIE_NAME, Config.AccessCookieOptions(env).(maxAge := Some(-1))),
     Erase(Config.REFRESH_TOKEN_COOKIE_NAME, Config.RefreshCookieOptions(env).(maxAge := Some(-1)))]
  }

  /** The two cookie operations of `cookieResponse`. */
  function CookieResponseOps(u: User, env: Config.Env, now: int): (ops: seq<CookieOp>)
    ensures |ops| == 2
    ensures ops[0] == Write(Config.ACCESS_TOKEN_COOKIE_NAME, GenerateAccessToken(u, env, now), Config.AccessCookieOptions(env))
    ensures ops[1] == Write(Config.REFRESH_TOKEN_COOKIE_NAME, GenerateRefreshToken(u, env, now), Config.RefreshCookieOptions(env))
  {
    [Write(Config.ACCESS_TOKEN_COOKIE_NAME, GenerateAccessToken(u, env, now), Config.AccessCookieOptions(env)),
     Write(Config.REFRESH_TOKEN_COOKIE_NAME, GenerateRefreshToken(u, env, now), Config.RefreshCookieOptions(env))]
  }

  /** After a clearing response the browser holds neither token cookie, and
      every other cookie is untouched. */
  lemma ClearingRemovesBothTokens(jar: map<string, TokenText>, env: Config.Env)
    ensures Config.ACCESS_TOKEN_COOKIE_NAME !in ApplyCookies(jar, ClearCookiesOps(env))
    ensures Config.REFRESH_TOKEN_COOKIE_NAME !in ApplyCookies(jar, ClearCookiesOps(env))
    ensures ApplyCookies(jar, ClearCookiesOps(env)) == jar - {Config.ACCESS_TOKEN_COOKIE_NAME, Config.REFRESH_TOKEN_COOKIE_NAME}
  {
    var ops := ClearCookiesOps(env);
    var a, r := Config.ACCESS_TOKEN_COOKIE_NAME, Config.REFRESH_TOKEN_COOKIE_NAME;
    assert ops[1..][1..] == [];
    calc {
      ApplyCookies(jar, ops);
      ApplyCookies(jar - {a}, ops[1..]);
      ApplyCookies(jar - {a} - {r}, ops[1..][1..]);
      jar - {a} - {r};
    }
  }

  /** After a login response the browser holds a fresh access token and a
      fresh refresh token, both for this user. */
  lemma CookieResponseStoresBothTokens(jar: map<string, TokenText>, u: User, env: Config.Env, now: int)
    ensures ApplyCookies(jar, CookieResponseOps(u, env, now)) ==
      jar[Config.ACCESS_TOKEN_COOKIE_NAME := GenerateAccessToken(u, env, now)]
         [Config.REFRESH_TOKEN_COOKIE_NAME := GenerateRefreshToken(u, env, now)]
  {
    var ops := CookieResponseOps(u, env, now);
    var a, r := Config.ACCESS_TOKEN_COOKIE_NAME, Config.REFRESH_TOKEN_COOKIE_NAME;
    var at, rt := GenerateAccessToken(u, env, now), GenerateRefreshToken(u, env, now);
    assert ops[1..][1..] == [];
    calc {
      ApplyCookies(jar, ops);
      ApplyCookies(jar[a := at], ops[1..]);
      ApplyCookies(jar[a := at][r := rt], ops[1..][1..]);
    }
  }

  /** `clearCookiesResponse(res)` */
  method ClearCookiesResponse(res: Exchange, env: Config.Env)
    modifies res
    ensures res.written == old(res.written) + ClearCookiesOps(env)
    ensures res.user == old(res.user) && res.nextCalls == old(res.nextCalls)
  {
    res.ClearCookie(Config.ACCESS_TOKEN_COOKIE_NAME, Config.AccessCookieOptions(env).(maxAge := Some(-1)));
    res.ClearCookie(Config.REFRESH_TOKEN_COOKIE_NAME, Config.RefreshCookieOptions(env).(maxAge := Some(-1)));
  }

  /** `cookieResponse({res, user})` */
  method CookieResponse(res: Exchange, user: User, env: Config.Env, now: int)
    modifies res
    ensures res.written == old(res.written) + CookieResponseOps(user, env, now)
    ensures res.user == old(res.user) && res.nextCalls == old(res.nextCalls)
  {
    var accessToken := GenerateAccessToken(user, env, now);
    var refreshToken := GenerateRefreshToken(user, env, now);
    res.Cookie(Config.ACCESS_TOKEN_COOKIE_NAME, accessToken, Config.AccessCookieOptions(env));
    res.Cookie(Config.REFRESH_TOKEN_COOKIE_NAME, refreshToken, Config.RefreshCookieOptions(env));
  }
}
