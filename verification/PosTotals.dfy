/**
  The till's own arithmetic, which spreads the bill discount over the lines before taxing them,
  against the server's, which taxes first and discounts the sum.
*/
module PosTotals {
  import opened Wrappers
  import opened Sums
  import opened Refunds
  import opened Pricing

  datatype CartItem = CartItem(id: nat, quantity: real, unitPrice: real, discount: real, taxRate: real)

  function LineSubtotal(c: CartItem): real { AtLeastZero(c.unitPrice * c.quantity - c.discount) }

  function SubtotalOf(): CartItem -> real { (c: CartItem) => LineSubtotal(c) }

  function Subtotal(cart: seq<CartItem>): real { Sum(cart, SubtotalOf()) }

  /** A line's share of the bill discount. */
  function Share(sub: real, discount: real): CartItem -> real {
    (c: CartItem) => if sub > 0.0 then LineSubtotal(c) / sub * discount else 0.0
  }

  function TaxAfterShare(sub: real, discount: real): CartItem -> real {
    (c: CartItem) => PercentOf(AtLeastZero(LineSubtotal(c) - Share(sub, discount)(c)), c.taxRate)
  }

  function Tax(cart: seq<CartItem>, discount: real, removeTax: bool): real {
    if removeTax then 0.0 else Sum(cart, TaxAfterShare(Subtotal(cart), discount))
  }

  function PosRaw(cart: seq<CartItem>, discount: real, removeTax: bool, charges: real, points: real): real {
    AtLeastZero(Subtotal(cart) - discount) + Tax(cart, discount, removeTax) + charges - points
  }

  function PosRoundOff(raw: real, rounding: bool): real { if rounding then MathRound(raw) as real - raw else 0.0 }

  function PosTotal(raw: real, rounding: bool): real { if rounding then MathRound(raw) as real else AtLeastZero(raw) }

  // ----- The cart -----

  predicate Distinct(cart: seq<CartItem>) { forall j, k :: 0 <= j < k < |cart| ==> cart[j].id != cart[k].id }

  predicate Has(cart: seq<CartItem>, id: nat) { exists k :: 0 <= k < |cart| && cart[k].id == id }

  function Rewritten(cart: seq<CartItem>, id: nat, f: CartItem -> CartItem): seq<CartItem> {
    seq(|cart|, k requires 0 <= k < |cart| => if cart[k].id == id then f(cart[k]) else cart[k])
  }

  function Dropped(cart: seq<CartItem>, id: nat): seq<CartItem> {
    if |cart| == 0 then []
    else
      var n := |cart| - 1;
      if cart[n].id == id then Dropped(cart[..n], id) else Dropped(cart[..n], id) + [cart[n]]
  }

  /** Dropping an item leaves the other lines, and only those. */
  lemma {:induction false} DroppedKeeps(cart: seq<CartItem>, id: nat)
    ensures forall k :: 0 <= k < |Dropped(cart, id)| ==> Dropped(cart, id)[k] in cart && Dropped(cart, id)[k].id != id
    ensures forall c :: c in cart && c.id != id ==> c in Dropped(cart, id)
    ensures Distinct(cart) ==> Distinct(Dropped(cart, id))
  {
    if |cart| > 0 {
      var n := |cart| - 1;
      assert cart == cart[..n] + [cart[n]];
      DroppedKeeps(cart[..n], id);
    }
  }

  function MoreOf(quantity: real): CartItem -> CartItem { (c: CartItem) => c.(quantity := c.quantity + quantity) }

  function WithQuantity(quantity: real): CartItem -> CartItem { (c: CartItem) => c.(quantity := quantity) }

  function WithPrice(price: real): CartItem -> CartItem { (c: CartItem) => c.(unitPrice := price) }

  function WithDiscount(discount: real): CartItem -> CartItem { (c: CartItem) => c.(discount := discount) }

  /** How much of an item is in the cart. */
  function QuantityOf(id: nat): CartItem -> real { (c: CartItem) => if c.id == id then c.quantity else 0.0 }

  function InCart(cart: seq<CartItem>, id: nat): real { Sum(cart, QuantityOf(id)) }

  /** Everything the till keeps; `counted` is the subtotal the stored discount was worked out on. */
  datatype Till = Till(cart: seq<CartItem>, discountAmount: real, discountPercent: real, secondary: real,
                       removeTax: bool, rounding: bool, charges: real, points: real, counted: real)

  datatype Action =
    | Add(id: nat, unitPrice: real, taxRate: real, quantity: real)
    | SetQuantity(id: nat, quantity: real)
    | SetPrice(id: nat, price: real)
    | SetLineDiscount(id: nat, discount: real)
    | Remove(id: nat)
    | SetPercent(percent: real)
    | SetSecondary(amount: real)
    | SetRemoveTax(remove: bool)
    | SetRounding(round: bool)
    | SetCharges(amount: real)
    | SetPoints(amount: real)
    | Load(items: seq<CartItem>, discount: real)
    | Clear

  function CartAfter(cart: seq<CartItem>, a: Action): seq<CartItem> {
    match a
    case Add(id, unitPrice, taxRate, quantity) =>
      if Has(cart, id) then Rewritten(cart, id, MoreOf(quantity))
      else cart + [CartItem(id, quantity, unitPrice, 0.0, taxRate)]
    case SetQuantity(id, quantity) => if quantity <= 0.0 then Dropped(cart, id)
                                      else Rewritten(cart, id, WithQuantity(quantity))
    case SetPrice(id, price) => Rewritten(cart, id, WithPrice(price))
    case SetLineDiscount(id, discount) => Rewritten(cart, id, WithDiscount(discount))
    case Remove(id) => Dropped(cart, id)
    case Load(items, discount) => items
    case Clear => []
    case _ => cart
  }

  /** A percentage or a discount in money has the stored discount worked out again. */
  function Recounted(t: Till, percent: real, second: real): Till {
    t.(discountPercent := percent, secondary := second, counted := Subtotal(t.cart),
       discountAmount := PercentOf(Subtotal(t.cart), percent) + second)
  }

  const EMPTY := Till([], 0.0, 0.0, 0.0, false, true, 0.0, 0.0, 0.0)

  function Act(t: Till, a: Action): Till {
    match a
    case SetPercent(percent) => Recounted(t, percent, t.secondary)
    case SetSecondary(amount) => Recounted(t, t.discountPercent, amount)
    case SetRemoveTax(remove) => t.(removeTax := remove)
    case SetRounding(round) => t.(rounding := round)
    case SetCharges(amount) => t.(charges := amount)
    case SetPoints(amount) => t.(points := amount)
    case Load(items, discount) =>
      EMPTY.(cart := items, discountAmount := discount, secondary := discount, counted := Subtotal(items))
    case Clear => EMPTY
    case _ => t.(cart := CartAfter(t.cart, a))
  }

  /** The stored discount is the one the percentage gives for the subtotal it was worked out on. */
  predicate Kept(t: Till) { t.discountAmount == PercentOf(t.counted, t.discountPercent) + t.secondary }

  lemma EmptyIsKept()
    ensures Kept(EMPTY)
  {
    hide PercentOf;
    PercentOfZero(0.0);
  }

  lemma EmptyCart()
    ensures Subtotal([]) == 0.0 && Distinct([])
  {
  }

  // ----- What an action does to the cart -----

  lemma RewrittenIsUpdate(cart: seq<CartItem>, id: nat, f: CartItem -> CartItem, k: nat)
    requires Distinct(cart) && k < |cart| && cart[k].id == id
    ensures Rewritten(cart, id, f) == cart[k := f(cart[k])]
  {
  }

  lemma {:induction false} DroppedLooksAt(cart: seq<CartItem>, changed: seq<CartItem>, id: nat)
    requires |cart| == |changed|
    requires forall k :: 0 <= k < |cart| ==> cart[k].id == changed[k].id && (cart[k].id != id ==> cart[k] == changed[k])
    ensures Dropped(cart, id) == Dropped(changed, id)
  {
    if |cart| > 0 { DroppedLooksAt(cart[..|cart| - 1], changed[..|cart| - 1], id); }
  }

  lemma {:induction false} NoneInCart(cart: seq<CartItem>, id: nat)
    ensures !Has(cart, id) ==> InCart(cart, id) == 0.0 && Dropped(cart, id) == cart
    ensures InCart(Dropped(cart, id), id) == 0.0 && !Has(Dropped(cart, id), id)
    ensures Dropped(Dropped(cart, id), id) == Dropped(cart, id)
  {
    DroppedKeeps(cart, id);
    SumZero(Dropped(cart, id), QuantityOf(id));
    DropNone(Dropped(cart, id), id);
    if !Has(cart, id) { DropNone(cart, id); }
  }

  lemma {:induction false} DropNone(cart: seq<CartItem>, id: nat)
    requires forall k :: 0 <= k < |cart| ==> cart[k].id != id
    ensures Dropped(cart, id) == cart
  {
    if |cart| > 0 {
      var n := |cart| - 1;
      DropNone(cart[..n], id);
      assert cart == cart[..n] + [cart[n]];
    }
  }

  /** Adding an item adds to how much of it is in the cart, and to nothing else. */
  lemma AddAdds(cart: seq<CartItem>, id: nat, unitPrice: real, taxRate: real, quantity: real)
    requires Distinct(cart)
    ensures var after := CartAfter(cart, Add(id, unitPrice, taxRate, quantity));
            && Distinct(after) && InCart(after, id) == InCart(cart, id) + quantity
               && Dropped(after, id) == Dropped(cart, id)
  {
    var after := CartAfter(cart, Add(id, unitPrice, taxRate, quantity));
    if k :| 0 <= k < |cart| && cart[k].id == id {
      RewrittenIsUpdate(cart, id, MoreOf(quantity), k);
      SumUpdate(cart, k, MoreOf(quantity)(cart[k]), QuantityOf(id));
      DroppedLooksAt(cart, after, id);
    } else {
      var c := CartItem(id, quantity, unitPrice, 0.0, taxRate);
      SumAppend(cart, c, QuantityOf(id));
      assert (cart + [c])[..|cart|] == cart;
    }
  }

  /** Setting a quantity sets how much of the item is in the cart, if it is there at all; setting it to
      nothing takes the item out. */
  lemma SetQuantitySets(cart: seq<CartItem>, id: nat, quantity: real)
    requires Distinct(cart)
    ensures var after := CartAfter(cart, SetQuantity(id, quantity));
            && Distinct(after) && Dropped(after, id) == Dropped(cart, id)
            && InCart(after, id) == (if quantity > 0.0 && Has(cart, id) then quantity else 0.0)
  {
    hide Dropped, InCart;
    NoneInCart(cart, id);
    DroppedKeeps(cart, id);
    if quantity > 0.0 {
      if k :| 0 <= k < |cart| && cart[k].id == id {
        SetSets(cart, id, quantity, k);
      } else {
        assert Rewritten(cart, id, WithQuantity(quantity)) == cart;
      }
    }
  }

  lemma SetSets(cart: seq<CartItem>, id: nat, quantity: real, k: nat)
    requires Distinct(cart) && k < |cart| && cart[k].id == id
    ensures var after := Rewritten(cart, id, WithQuantity(quantity));
            Distinct(after) && InCart(after, id) == quantity && Dropped(after, id) == Dropped(cart, id)
  {
    hide Dropped, Sum;
    var after := Rewritten(cart, id, WithQuantity(quantity));
    OneLine(cart, id, k);
    RewrittenIsUpdate(cart, id, WithQuantity(quantity), k);
    SumUpdate(cart, k, WithQuantity(quantity)(cart[k]), QuantityOf(id));
    DroppedLooksAt(cart, after, id);
  }

  lemma {:induction false} OneLine(cart: seq<CartItem>, id: nat, k: nat)
    requires Distinct(cart) && k < |cart| && cart[k].id == id
    ensures InCart(cart, id) == cart[k].quantity
  {
    var n := |cart| - 1;
    if k == n {
      SumZero(cart[..n], QuantityOf(id));
    } else {
      OneLine(cart[..n], id, k);
    }
  }

  class PosStore {
    var cart: seq<CartItem>
    var discountAmount: real
    var discountPercent: real
    var secondary: real
    var removeTax: bool
    var rounding: bool
    var charges: real
    var points: real
    ghost var counted: real

    ghost function Now(): Till
      reads this
    {
      Till(cart, discountAmount, discountPercent, secondary, removeTax, rounding, charges, points, counted)
    }

    /** Each item is on one line, and the stored discount is the percentage of the subtotal it was worked out on. */
    ghost predicate Valid()
      reads this
    {
      Distinct(cart) && Kept(Now())
    }

    /** The stored discount is the one the percentage gives for the cart as it is now. */
    ghost predicate Fresh()
      reads this
    {
      discountAmount == PercentOf(Subtotal(cart), discountPercent) + secondary
    }

    function GetRaw(): real
      reads this
    {
      PosRaw(cart, discountAmount, removeTax, charges, points)
    }

    function GetTotal(): real
      reads this
    {
      PosTotal(GetRaw(), rounding)
    }

    function GetRoundOffAmount(): real
      reads this
    {
      PosRoundOff(GetRaw(), rounding)
    }

    constructor ()
      ensures Valid() && Fresh() && Now() == EMPTY
    {
      hide PercentOf, Subtotal;
      EmptyIsKept();
      EmptyCart();
      PercentOfZero(0.0);
      cart := [];
      discountAmount, discountPercent, secondary := 0.0, 0.0, 0.0;
      removeTax, rounding, charges, points := false, true, 0.0, 0.0;
      counted := 0.0;
    }

    /** There is that much more of the item, on one line, and the same of everything else.  The stored
        discount is not touched: it stays fresh exactly when the percentage of the subtotal did. */
    method AddItem(id: nat, unitPrice: real, taxRate: real, quantity: real)
      requires Valid()
      modifies this`cart
      ensures Valid() && Now() == Act(old(Now()), Add(id, unitPrice, taxRate, quantity))
      ensures InCart(cart, id) == InCart(old(cart), id) + quantity && Dropped(cart, id) == Dropped(old(cart), id)
      ensures old(Fresh()) ==>
                (Fresh() <==> PercentOf(Subtotal(cart), discountPercent)
                              == PercentOf(Subtotal(old(cart)), discountPercent))
    {
      AddAdds(cart, id, unitPrice, taxRate, quantity);
      if Has(cart, id) {
        cart := Rewritten(cart, id, MoreOf(quantity));
      } else {
        cart := cart + [CartItem(id, quantity, unitPrice, 0.0, taxRate)];
      }
    }

    method RemoveItem(id: nat)
      requires Valid()
      modifies this`cart
      ensures Valid() && Now() == Act(old(Now()), Remove(id)) && !Has(cart, id)
    {
      DroppedKeeps(cart, id);
      cart := Dropped(cart, id);
    }

    /** An item in the cart is there in that quantity, or no longer if it is not positive; everything else
        is as it was, and the stored discount stays fresh exactly when the percentage of the subtotal did. */
    method UpdateQuantity(id: nat, quantity: real)
      requires Valid()
      modifies this`cart
      ensures Valid() && Now() == Act(old(Now()), SetQuantity(id, quantity))
      ensures InCart(cart, id) == (if quantity > 0.0 && Has(old(cart), id) then quantity else 0.0)
      ensures Dropped(cart, id) == Dropped(old(cart), id)
      ensures old(Fresh()) ==>
                (Fresh() <==> PercentOf(Subtotal(cart), discountPercent)
                              == PercentOf(Subtotal(old(cart)), discountPercent))
    {
      SetQuantitySets(cart, id, quantity);
      if quantity <= 0.0 {
        RemoveItem(id);
        return;
      }
      cart := Rewritten(cart, id, WithQuantity(quantity));
    }

    method UpdatePrice(id: nat, price: real)
      requires Valid()
      modifies this`cart
      ensures Valid() && Now() == Act(old(Now()), SetPrice(id, price))
    {
      cart := Rewritten(cart, id, WithPrice(price));
    }

    method UpdateLineDiscount(id: nat, discount: real)
      requires Valid()
      modifies this`cart
      ensures Valid() && Now() == Act(old(Now()), SetLineDiscount(id, discount))
    {
      cart := Rewritten(cart, id, WithDiscount(discount));
    }

    /** After this, and until the cart changes, the stored discount is the right one. */
    method SetDiscountPercent(percent: real)
      requires Valid()
      modifies this`discountPercent, this`discountAmount, this`counted
      ensures Valid() && Fresh() && Now() == Act(old(Now()), SetPercent(percent))
    {
      discountPercent := percent;
      RecalculateDiscount(percent, secondary);
    }

    method SetSecondaryDiscount(amount: real)
      requires Valid()
      modifies this`secondary, this`discountAmount, this`counted
      ensures Valid() && Fresh() && Now() == Act(old(Now()), SetSecondary(amount))
    {
      secondary := amount;
      RecalculateDiscount(discountPercent, amount);
    }

    /** A held bill is loaded with its discount in money and everything else as on an empty till. */
    method LoadFromHeld(items: seq<CartItem>, discount: real)
      requires Distinct(items)
      modifies this
      ensures Valid() && Now() == Act(old(Now()), Load(items, discount))
    {
      hide Subtotal, PercentOf;
      PercentOfZero(Subtotal(items));
      ClearCart();
      cart, discountAmount, secondary, counted := items, discount, discount, Subtotal(items);
    }

    method ClearCart()
      modifies this
      ensures Valid() && Fresh() && Now() == Act(old(Now()), Clear)
    {
      hide Subtotal, PercentOf, CartAfter, Recounted, Kept, Distinct;
      EmptyIsKept();
      EmptyCart();
      PercentOfZero(0.0);
      cart := [];
      discountAmount, discountPercent, secondary := 0.0, 0.0, 0.0;
      removeTax, rounding, charges, points := false, true, 0.0, 0.0;
      counted := 0.0;
    }

    /** Each action of the till does what `Act` says of it. */
    method Do(a: Action)
      requires Valid() && (a.Load? ==> Distinct(a.items))
      modifies this
      ensures Valid() && Now() == Act(old(Now()), a)
    {
      hide Subtotal, PercentOf, CartAfter, Rewritten, Dropped, InCart;
      match a
      case Add(id, unitPrice, taxRate, quantity) => AddItem(id, unitPrice, taxRate, quantity);
      case SetQuantity(id, quantity) => UpdateQuantity(id, quantity);
      case SetPrice(id, price) => UpdatePrice(id, price);
      case SetLineDiscount(id, discount) => UpdateLineDiscount(id, discount);
      case Remove(id) => RemoveItem(id);
      case SetPercent(percent) => SetDiscountPercent(percent);
      case SetSecondary(amount) => SetSecondaryDiscount(amount);
      case SetRemoveTax(remove) => removeTax := remove;
      case SetRounding(round) => rounding := round;
      case SetCharges(amount) => charges := amount;
      case SetPoints(amount) => points := amount;
      case Load(items, discount) => LoadFromHeld(items, discount);
      case Clear => ClearCart();
    }

    method RecalculateDiscount(percent: real, second: real)
      modifies this`discountAmount, this`counted
      ensures discountAmount == PercentOf(Subtotal(cart), percent) + second && counted == Subtotal(cart)
    {
      discountAmount := PercentOf(Subtotal(cart), percent) + second;
      counted := Subtotal(cart);
    }
  }

  // ----- What the till sends -----

  function Sent(c: CartItem, removeTax: bool): LineIn {
    LineIn(Some(c.id), "", c.quantity, Some(c.unitPrice), None, Some(c.discount),
           Some(if removeTax then 0.0 else c.taxRate), Some("PCS"))
  }

  function Payload(cart: seq<CartItem>, removeTax: bool): seq<LineIn> {
    seq(|cart|, k requires 0 <= k < |cart| => Sent(cart[k], removeTax))
  }

  /** The till always sends its percentage, so the server never looks at the discount in money. */
  function ServerTotals(gross: real, percent: real, second: real, charges: real, rounding: bool): Totals {
    ComputeTotals(gross, Some(percent), Some(second), if charges > 0.0 then charges else 0.0, rounding)
  }

  function ServerRaw(gross: real, percent: real, second: real, charges: real): real {
    Raw(gross, Some(percent), Some(second), if charges > 0.0 then charges else 0.0)
  }

  predicate LineSane(c: CartItem) { c.discount <= c.unitPrice * c.quantity && c.taxRate >= 0.0 }

  predicate Sane(cart: seq<CartItem>) { forall k :: 0 <= k < |cart| ==> LineSane(cart[k]) }

  // ----- Comparing the two -----

  function FullTax(removeTax: bool): CartItem -> real {
    (c: CartItem) => if removeTax then 0.0 else PercentOf(LineSubtotal(c), c.taxRate)
  }

  lemma {:induction false} SumScaled<T>(xs: seq<T>, f: T -> real, g: T -> real, k: real)
    requires forall j :: 0 <= j < |xs| ==> f(xs[j]) == g(xs[j]) * k
    ensures Sum(xs, f) == Sum(xs, g) * k
  {
    if |xs| > 0 {
      var n := |xs| - 1;
      SumScaled(xs[..n], f, g, k);
      assert Sum(xs, g) * k == Sum(xs[..n], g) * k + g(xs[n]) * k;
    }
  }

  /** The shares of the bill discount add up to it. */
  lemma SharesAddUp(cart: seq<CartItem>, discount: real)
    requires Subtotal(cart) > 0.0
    ensures Sum(cart, Share(Subtotal(cart), discount)) == discount
  {
    var sub := Subtotal(cart);
    forall k | 0 <= k < |cart| ensures Share(sub, discount)(cart[k]) == SubtotalOf()(cart[k]) * (discount / sub) {
      Scaled(LineSubtotal(cart[k]), sub, discount);
    }
    SumScaled(cart, Share(sub, discount), SubtotalOf(), discount / sub);
  }

  /** The part of a subtotal that a discount leaves. */
  function Left(sub: real, discount: real): real
    requires sub > 0.0
  {
    AtLeastZero(1.0 - discount / sub)
  }

  lemma LineTaxScales(c: CartItem, sub: real, discount: real)
    requires sub > 0.0
    ensures TaxAfterShare(sub, discount)(c) == FullTax(false)(c) * Left(sub, discount)
  {
    var line, y := LineSubtotal(c), 1.0 - discount / sub;
    Scaled(line, sub, discount);
    assert line - Share(sub, discount)(c) == line * y;
    assert y > 0.0 ==> line * y >= 0.0;
    assert y <= 0.0 ==> line * y <= 0.0;
    assert AtLeastZero(line * y) == line * AtLeastZero(y);
    assert line * AtLeastZero(y) * c.taxRate == line * c.taxRate * AtLeastZero(y);
  }

  lemma TaxScales(cart: seq<CartItem>, discount: real, removeTax: bool)
    requires Subtotal(cart) > 0.0
    ensures Tax(cart, discount, removeTax) == Sum(cart, FullTax(removeTax)) * Left(Subtotal(cart), discount)
  {
    var sub := Subtotal(cart);
    if removeTax {
      SumZero(cart, FullTax(true));
    } else {
      forall k | 0 <= k < |cart|
        ensures TaxAfterShare(sub, discount)(cart[k]) == FullTax(false)(cart[k]) * Left(sub, discount)
      {
        LineTaxScales(cart[k], sub, discount);
      }
      SumScaled(cart, TaxAfterShare(sub, discount), FullTax(false), Left(sub, discount));
    }
  }

  /** The server's gross is the cart's subtotal and full tax. */
  lemma ServerGross(goods: seq<Good>, cart: seq<CartItem>, removeTax: bool, p: Priced)
    requires Sane(cart) && PricedFrom(goods, Payload(cart, removeTax), true, p)
    ensures p.subtotal == Subtotal(cart) && p.taxTotal == Sum(cart, FullTax(removeTax))
  {
    var lines := Payload(cart, removeTax);
    forall k | 0 <= k < |cart|
      ensures TaxableOf()(p.built[k]) == SubtotalOf()(cart[k]) && TaxOf()(p.built[k]) == FullTax(removeTax)(cart[k])
    {
      assert LineSane(cart[k]) && BuiltFrom(goods, lines[k], true, p.built[k]);
      PercentOfZero(LineSubtotal(cart[k]));
    }
    SumPointwise(p.built, cart, TaxableOf(), SubtotalOf());
    SumPointwise(p.built, cart, TaxOf(), FullTax(removeTax));
  }

  lemma PercentOfZero(x: real)
    ensures PercentOf(x, 0.0) == 0.0 && PercentOf(0.0, x) == 0.0
  {
  }

  lemma PercentBounds(amount: real, percent: real)
    requires amount >= 0.0 && 0.0 <= percent <= 100.0
    ensures 0.0 <= PercentOf(amount, percent) <= amount
    ensures amount > 0.0 && percent < 100.0 ==> PercentOf(amount, percent) < amount
  {
    var rest := 100.0 - percent;
    assert amount * rest == amount * 100.0 - amount * percent;
    ProductSign(amount, rest);
    ProductSign(amount, percent);
  }

  lemma ProductSign(a: real, b: real)
    requires a >= 0.0 && b >= 0.0
    ensures a * b >= 0.0
    ensures a > 0.0 && b > 0.0 ==> a * b > 0.0
  {
  }

  lemma NotNegativeTotals(cart: seq<CartItem>, removeTax: bool)
    requires Sane(cart)
    ensures Subtotal(cart) >= 0.0 && Sum(cart, FullTax(removeTax)) >= 0.0
    ensures Subtotal(cart) == 0.0 ==> Sum(cart, FullTax(removeTax)) == 0.0
  {
    forall k | 0 <= k < |cart| ensures SubtotalOf()(cart[k]) >= 0.0 && FullTax(removeTax)(cart[k]) >= 0.0 {
      assert LineSane(cart[k]);
      assert LineSubtotal(cart[k]) * cart[k].taxRate >= 0.0;
    }
    SumPrefix(cart, |cart|, SubtotalOf());
    SumPrefix(cart, |cart|, FullTax(removeTax));
    if Subtotal(cart) == 0.0 {
      forall k | 0 <= k < |cart| ensures FullTax(removeTax)(cart[k]) == 0.0 { SumAtLeast(cart, k, SubtotalOf()); }
      SumZero(cart, FullTax(removeTax));
    }
  }

  /** Till and server arrive at the same amount before rounding exactly when what the stored discount
      leaves of the subtotal is what the percentage leaves of it. */
  lemma RawsAgreeExactlyWhen(goods: seq<Good>, cart: seq<CartItem>, p: Priced, discount: real, percent: real,
                             second: real, removeTax: bool, charges: real)
    requires Sane(cart) && PricedFrom(goods, Payload(cart, removeTax), true, p) && charges >= 0.0
    ensures PosRaw(cart, discount, removeTax, charges, 0.0)
            == ServerRaw(p.subtotal + p.taxTotal, percent, second, charges)
            <==> AtLeastZero(Subtotal(cart) - discount) == Subtotal(cart) - PercentOf(Subtotal(cart), percent)
  {
    var sub, tax := Subtotal(cart), Sum(cart, FullTax(removeTax));
    ServerGross(goods, cart, removeTax, p);
    NotNegativeTotals(cart, removeTax);
    if sub > 0.0 {
      var left := Left(sub, discount);
      TaxScales(cart, discount, removeTax);
      LeftOf(sub, discount);
      SameFactor(sub, tax, left, percent);
    } else {
      forall k | 0 <= k < |cart| ensures TaxAfterShare(sub, discount)(cart[k]) == 0.0 {
        SumAtLeast(cart, k, SubtotalOf());
        assert AtLeastZero(LineSubtotal(cart[k]) - Share(sub, discount)(cart[k])) == 0.0;
        PercentOfZero(cart[k].taxRate);
      }
      SumZero(cart, TaxAfterShare(sub, discount));
    }
  }

  lemma LeftOf(sub: real, discount: real)
    requires sub > 0.0
    ensures AtLeastZero(sub - discount) == sub * Left(sub, discount)
  {
    assert sub * (1.0 - discount / sub) == sub - discount;
  }

  lemma SameFactor(sub: real, tax: real, left: real, percent: real)
    requires sub > 0.0 && tax >= 0.0
    ensures sub * left + tax * left == sub + tax - PercentOf(sub + tax, percent)
            <==> sub * left == sub - PercentOf(sub, percent)
  {
    var keep := 1.0 - percent / 100.0;
    assert sub + tax - PercentOf(sub + tax, percent) == (sub + tax) * keep;
    assert sub - PercentOf(sub, percent) == sub * keep;
    assert sub * left + tax * left == (sub + tax) * left;
    assert (sub + tax) * left == (sub + tax) * keep ==> left == keep;
    assert sub * left == sub * keep ==> left == keep;
  }

  /** With a fresh percentage of 0 to 100 and no discount in money, till and server agree on the
      total and on its rounding. */
  lemma FreshTotalsAgree(goods: seq<Good>, cart: seq<CartItem>, p: Priced, percent: real, removeTax: bool,
                         charges: real, rounding: bool)
    requires Sane(cart) && PricedFrom(goods, Payload(cart, removeTax), true, p) && charges >= 0.0
             && 0.0 <= percent <= 100.0
    ensures var raw := PosRaw(cart, PercentOf(Subtotal(cart), percent), removeTax, charges, 0.0);
            var t := ServerTotals(p.subtotal + p.taxTotal, percent, 0.0, charges, rounding);
            && raw >= 0.0
            && PosTotal(raw, rounding) == t.total
            && PosRoundOff(raw, rounding) == t.roundOff
            && (rounding ==> t.total.Floor as real == t.total && -0.5 <= t.roundOff <= 0.5)
  {
    var sub := Subtotal(cart);
    var discount := PercentOf(sub, percent);
    NotNegativeTotals(cart, removeTax);
    PercentBounds(sub, percent);
    RawsAgreeExactlyWhen(goods, cart, p, discount, percent, 0.0, removeTax, charges);
    var raw := PosRaw(cart, discount, removeTax, charges, 0.0);
    TaxNotNegative(cart, discount, removeTax);
    RoundsAgree(raw);
  }

  /** So the amount on the screen, which the till sends as the payment, is the amount billed. */
  lemma ScreenMatchesBill(store: PosStore, goods: seq<Good>, p: Priced)
    requires store.Fresh() && store.secondary == 0.0 && store.points == 0.0 && store.charges >= 0.0
             && 0.0 <= store.discountPercent <= 100.0
    requires Sane(store.cart) && PricedFrom(goods, Payload(store.cart, store.removeTax), true, p)
    ensures var t := ServerTotals(p.subtotal + p.taxTotal, store.discountPercent, store.secondary, store.charges,
                                  store.rounding);
            store.GetTotal() == t.total && store.GetRoundOffAmount() == t.roundOff
  {
    FreshTotalsAgree(goods, store.cart, p, store.discountPercent, store.removeTax, store.charges, store.rounding);
  }

  lemma TaxNotNegative(cart: seq<CartItem>, discount: real, removeTax: bool)
    requires Sane(cart)
    ensures Tax(cart, discount, removeTax) >= 0.0
  {
    var f := TaxAfterShare(Subtotal(cart), discount);
    forall k | 0 <= k < |cart| ensures f(cart[k]) >= 0.0 {
      assert LineSane(cart[k]);
      var taxable := AtLeastZero(LineSubtotal(cart[k]) - Share(Subtotal(cart), discount)(cart[k]));
      assert taxable * cart[k].taxRate >= 0.0;
    }
    SumPrefix(cart, |cart|, f);
  }

  // ----- How far apart they are -----

  /** What the till's amount before rounding is above the server's: the difference in discount, scaled
      from the subtotal to the subtotal with its tax. */
  function Gap(sub: real, tax: real, discount: real, percent: real): real
    requires sub > 0.0
  {
    (AtLeastZero(sub - discount) - (sub - PercentOf(sub, percent))) * ((sub + tax) / sub)
  }

  lemma GapFactor(sub: real, tax: real, left: real, percent: real)
    requires sub > 0.0 && tax >= 0.0
    ensures sub * left + tax * left
            == sub + tax - PercentOf(sub + tax, percent)
               + (sub * left - (sub - PercentOf(sub, percent))) * ((sub + tax) / sub)
  {
    var keep, factor := 1.0 - percent / 100.0, (sub + tax) / sub;
    assert sub + tax - PercentOf(sub + tax, percent) == (sub + tax) * keep;
    assert sub - PercentOf(sub, percent) == sub * keep;
    assert sub * left + tax * left == (sub + tax) * left;
    assert sub * factor == sub + tax;
    assert (sub * left - sub * keep) * factor == sub * factor * (left - keep);
  }

  lemma GapBetween(goods: seq<Good>, cart: seq<CartItem>, p: Priced, discount: real, percent: real, second: real,
                   removeTax: bool, charges: real)
    requires Sane(cart) && PricedFrom(goods, Payload(cart, removeTax), true, p) && charges >= 0.0
    requires Subtotal(cart) > 0.0
    ensures PosRaw(cart, discount, removeTax, charges, 0.0)
            == ServerRaw(p.subtotal + p.taxTotal, percent, second, charges)
               + Gap(Subtotal(cart), Sum(cart, FullTax(removeTax)), discount, percent)
  {
    var sub, tax := Subtotal(cart), Sum(cart, FullTax(removeTax));
    ServerGross(goods, cart, removeTax, p);
    NotNegativeTotals(cart, removeTax);
    TaxScales(cart, discount, removeTax);
    LeftOf(sub, discount);
    GapFactor(sub, tax, Left(sub, discount), percent);
  }

  /** Factors that are positive decide nothing about being zero. */
  lemma ScaledIsZero(x: real, factor: real)
    requires factor > 0.0
    ensures x * factor == 0.0 <==> x == 0.0
  {
  }

  lemma FactorPositive(sub: real, tax: real)
    requires sub > 0.0 && tax >= 0.0
    ensures (sub + tax) / sub > 0.0
  {
  }

  /** Amounts a whole unit apart never round alike. */
  lemma RoundedApart(x: real, gap: real)
    ensures gap >= 1.0 || gap <= -1.0 ==> MathRound(x + gap) != MathRound(x)
  {
    var a, b := MathRound(x + gap), MathRound(x);
    assert a as real <= x + gap + 0.5 < a as real + 1.0;
    assert b as real <= x + 0.5 < b as real + 1.0;
  }

  lemma ServerRawNotNegative(gross: real, percent: real, second: real, charges: real)
    requires gross >= 0.0 && 0.0 <= percent <= 100.0 && charges >= 0.0
    ensures ServerRaw(gross, percent, second, charges) >= 0.0
  {
    PercentBounds(gross, percent);
  }

  /** What the till shows and what the server bills, given the two amounts before rounding. */
  lemma RoundedTotals(raw: real, gross: real, percent: real, second: real, charges: real, rounding: bool)
    requires raw >= 0.0 && ServerRaw(gross, percent, second, charges) >= 0.0
    ensures PosTotal(raw, rounding) == ServerTotals(gross, percent, second, charges, rounding).total
            <==> if rounding then MathRound(raw) == MathRound(ServerRaw(gross, percent, second, charges))
                 else raw == ServerRaw(gross, percent, second, charges)
  {
    RoundsAgree(ServerRaw(gross, percent, second, charges));
  }

  /**
    The amount on the screen is the amount billed exactly when there is no gap, or, if the till rounds, when
    both sides of the gap round alike; a gap of one or more always shows.
  */
  lemma TotalsAgreeExactlyWhen(goods: seq<Good>, cart: seq<CartItem>, p: Priced, discount: real, percent: real,
                               second: real, removeTax: bool, charges: real, rounding: bool)
    requires Sane(cart) && PricedFrom(goods, Payload(cart, removeTax), true, p) && charges >= 0.0
    requires 0.0 <= percent <= 100.0 && Subtotal(cart) > 0.0
    ensures var screen := PosTotal(PosRaw(cart, discount, removeTax, charges, 0.0), rounding);
            var billed := ServerTotals(p.subtotal + p.taxTotal, percent, second, charges, rounding).total;
            var raw := ServerRaw(p.subtotal + p.taxTotal, percent, second, charges);
            var gap := Gap(Subtotal(cart), Sum(cart, FullTax(removeTax)), discount, percent);
            && (screen == billed <==> if rounding then MathRound(raw + gap) == MathRound(raw) else gap == 0.0)
            && (gap >= 1.0 || gap <= -1.0 ==> screen != billed)
  {
    var gross := p.subtotal + p.taxTotal;
    var raw := ServerRaw(gross, percent, second, charges);
    GapBetween(goods, cart, p, discount, percent, second, removeTax, charges);
    ServerGross(goods, cart, removeTax, p);
    NotNegativeTotals(cart, removeTax);
    TaxNotNegative(cart, discount, removeTax);
    ServerRawNotNegative(gross, percent, second, charges);
    var gap := Gap(Subtotal(cart), Sum(cart, FullTax(removeTax)), discount, percent);
    assert PosRaw(cart, discount, removeTax, charges, 0.0) >= 0.0;
    hide PosRaw, ServerRaw, ServerTotals, PosTotal, Gap, PricedFrom, Sane, MathRound, Subtotal;
    RoundedTotals(PosRaw(cart, discount, removeTax, charges, 0.0), gross, percent, second, charges, rounding);
    RoundedApart(raw, gap);
  }

  lemma PercentOfDifference(a: real, b: real, percent: real)
    ensures PercentOf(a, percent) - PercentOf(b, percent) == PercentOf(a - b, percent)
    ensures percent > 0.0 ==> (PercentOf(a, percent) == PercentOf(b, percent) <==> a == b)
  {
    if a < b && percent > 0.0 { assert a * percent < b * percent; }
    if a > b && percent > 0.0 { assert a * percent > b * percent; }
  }

  /** A percentage worked out on one subtotal is right for another: it is nothing, they are the same, or it
      takes everything off both. */
  predicate NoMatter(sub: real, before: real, percent: real) {
    percent == 0.0 || before == sub || (percent == 100.0 && before >= sub)
  }

  /** The gap of a percentage worked out on another subtotal. */
  lemma StaleGap(sub: real, tax: real, before: real, percent: real)
    requires sub > 0.0 && tax >= 0.0 && 0.0 <= percent <= 100.0
    ensures var gap := Gap(sub, tax, PercentOf(before, percent), percent);
            && (gap == 0.0 <==> NoMatter(sub, before, percent))
            && (PercentOf(before, percent) <= sub ==> gap == PercentOf(sub - before, percent) * ((sub + tax) / sub))
  {
    var discount := PercentOf(before, percent);
    PercentBounds(sub, percent);
    PercentOfDifference(sub, before, percent);
    FactorPositive(sub, tax);
    ScaledIsZero(AtLeastZero(sub - discount) - (sub - PercentOf(sub, percent)), (sub + tax) / sub);
  }

  /** A discount worked out on another subtotal shows exactly if the till does not round or the gap it makes
      does not round away. */
  lemma StaleDiscountDiffers(goods: seq<Good>, cart: seq<CartItem>, p: Priced, before: real, percent: real,
                             second: real, removeTax: bool, charges: real, rounding: bool)
    requires Sane(cart) && PricedFrom(goods, Payload(cart, removeTax), true, p) && charges >= 0.0
    requires 0.0 <= percent <= 100.0 && Subtotal(cart) > 0.0
    ensures var sub, tax := Subtotal(cart), Sum(cart, FullTax(removeTax));
            var screen := PosTotal(PosRaw(cart, PercentOf(before, percent), removeTax, charges, 0.0), rounding);
            var billed := ServerTotals(p.subtotal + p.taxTotal, percent, second, charges, rounding).total;
            var raw := ServerRaw(p.subtotal + p.taxTotal, percent, second, charges);
            var gap := Gap(sub, tax, PercentOf(before, percent), percent);
            && (screen == billed <==> if rounding then MathRound(raw + gap) == MathRound(raw)
                                      else NoMatter(sub, before, percent))
            && (gap >= 1.0 || gap <= -1.0 ==> screen != billed)
            && (gap == 0.0 <==> NoMatter(sub, before, percent))
            && (PercentOf(before, percent) <= sub ==> gap == PercentOf(sub - before, percent) * ((sub + tax) / sub))
  {
    hide PosRaw, ServerRaw, ServerTotals, PosTotal, Gap, PricedFrom, MathRound, PercentOf;
    NotNegativeTotals(cart, removeTax);
    TotalsAgreeExactlyWhen(goods, cart, p, PercentOf(before, percent), percent, second, removeTax, charges, rounding);
    StaleGap(Subtotal(cart), Sum(cart, FullTax(removeTax)), before, percent);
  }

  /** A discount in money takes nothing more off: it is nothing, or the percentage took everything. */
  predicate NothingMore(percent: real, second: real) { second == 0.0 || (percent == 100.0 && second >= 0.0) }

  /** The gap a discount in money makes. */
  lemma MoneyGap(sub: real, tax: real, percent: real, second: real)
    requires sub > 0.0 && tax >= 0.0 && 0.0 <= percent <= 100.0
    ensures var gap := Gap(sub, tax, PercentOf(sub, percent) + second, percent);
            && (gap == 0.0 <==> NothingMore(percent, second))
            && (PercentOf(sub, percent) + second <= sub ==> gap == -second * ((sub + tax) / sub))
  {
    PercentBounds(sub, percent);
    FactorPositive(sub, tax);
    ScaledIsZero(AtLeastZero(sub - (PercentOf(sub, percent) + second)) - (sub - PercentOf(sub, percent)),
                 (sub + tax) / sub);
  }

  /** A discount in money is shown by the till and ignored by the server: the totals differ unless it takes
      nothing more off, or the till rounds and it rounds away. */
  lemma MoneyDiscountIgnored(goods: seq<Good>, cart: seq<CartItem>, p: Priced, percent: real, second: real,
                             removeTax: bool, charges: real, rounding: bool)
    requires Sane(cart) && PricedFrom(goods, Payload(cart, removeTax), true, p) && charges >= 0.0
    requires 0.0 <= percent <= 100.0 && Subtotal(cart) > 0.0
    ensures var sub, tax := Subtotal(cart), Sum(cart, FullTax(removeTax));
            var discount := PercentOf(sub, percent) + second;
            var screen := PosTotal(PosRaw(cart, discount, removeTax, charges, 0.0), rounding);
            var billed := ServerTotals(p.subtotal + p.taxTotal, percent, second, charges, rounding).total;
            var raw := ServerRaw(p.subtotal + p.taxTotal, percent, second, charges);
            var gap := Gap(sub, tax, discount, percent);
            && (screen == billed <==> if rounding then MathRound(raw + gap) == MathRound(raw)
                                      else NothingMore(percent, second))
            && (gap >= 1.0 || gap <= -1.0 ==> screen != billed)
            && (gap == 0.0 <==> NothingMore(percent, second))
            && (discount <= sub ==> gap == -second * ((sub + tax) / sub))
  {
    hide PosRaw, ServerRaw, ServerTotals, PosTotal, Gap, PricedFrom, MathRound, PercentOf;
    NotNegativeTotals(cart, removeTax);
    TotalsAgreeExactlyWhen(goods, cart, p, PercentOf(Subtotal(cart), percent) + second, percent, second, removeTax,
                           charges, rounding);
    MoneyGap(Subtotal(cart), Sum(cart, FullTax(removeTax)), percent, second);
  }

  /** Ten percent of 100 kept for a subtotal of 101, untaxed: a tenth too little off, and 91 either way once
      rounded. */
  lemma RoundingCanHideIt()
    ensures Gap(101.0, 0.0, PercentOf(100.0, 10.0), 10.0) == 0.1
    ensures MathRound(90.9 + 0.1) == MathRound(90.9)
  {
    assert PercentOf(100.0, 10.0) == 10.0 && PercentOf(101.0, 10.0) == 10.1;
  }

  // ----- Any sequence of actions -----

  function Play(actions: seq<Action>): Till {
    if |actions| == 0 then EMPTY else Act(Play(actions[..|actions| - 1]), actions[|actions| - 1])
  }

  lemma {:induction false} PlayKeeps(actions: seq<Action>)
    ensures Kept(Play(actions))
  {
    if |actions| > 0 {
      PlayKeeps(actions[..|actions| - 1]);
    } else {
      PercentOfZero(0.0);
    }
    if |actions| > 0 && (actions[|actions| - 1].Clear? || actions[|actions| - 1].Load?) {
      PercentOfZero(Play(actions).counted);
    }
  }

  /** The actions after which the stored discount is worked out on the cart as it then is. */
  predicate Recounts(a: Action) { a.SetPercent? || a.SetSecondary? || a.Load? || a.Clear? }

  lemma OthersDoNotCount(t: Till, a: Action)
    ensures !Recounts(a) ==> Act(t, a).counted == t.counted
    ensures Recounts(a) ==> Act(t, a).counted == Subtotal(Act(t, a).cart)
  {
    hide Subtotal, PercentOf, CartAfter;
    EmptyCart();
  }

  /** What the stored discount was worked out on is the subtotal at the last such action. */
  lemma {:induction false} CountedAtLast(actions: seq<Action>, n: nat)
    requires n < |actions| && Recounts(actions[n]) && forall k :: n < k < |actions| ==> !Recounts(actions[k])
    ensures Play(actions).counted == Subtotal(Play(actions[..n + 1]).cart)
    decreases |actions|
  {
    hide Subtotal, PercentOf, Act, Recounts;
    var last := |actions| - 1;
    if n < last {
      var init := actions[..last];
      assert init[..n + 1] == actions[..n + 1];
      CountedAtLast(init, n);
      OthersDoNotCount(Play(init), actions[last]);
    } else {
      assert actions[..n + 1] == actions;
      OthersDoNotCount(Play(actions[..last]), actions[last]);
    }
  }

  /**
    After any sequence of actions, with a percentage from 0 to 100 and no discount in money or points, the
    amount on the screen is the amount billed exactly when the percentage comes to the same for the subtotal
    as for the one at the last time the discount was worked out, at action n; or, if the till rounds, when
    what the change of the subtotal makes of the percentage rounds away.
  */
  lemma ScreenAgreesExactlyWhen(actions: seq<Action>, n: nat, goods: seq<Good>, p: Priced)
    requires n < |actions| && Recounts(actions[n]) && forall k :: n < k < |actions| ==> !Recounts(actions[k])
    requires var t := Play(actions);
             && Sane(t.cart) && PricedFrom(goods, Payload(t.cart, t.removeTax), true, p)
             && t.charges >= 0.0 && t.points == 0.0 && t.secondary == 0.0
             && 0.0 <= t.discountPercent <= 100.0 && Subtotal(t.cart) > 0.0
    ensures var t, before := Play(actions), Subtotal(Play(actions[..n + 1]).cart);
            var sub, tax := Subtotal(t.cart), Sum(t.cart, FullTax(t.removeTax));
            var gap := Gap(sub, tax, PercentOf(before, t.discountPercent), t.discountPercent);
            var gross := p.subtotal + p.taxTotal;
            var raw := ServerRaw(gross, t.discountPercent, t.secondary, t.charges);
            var screen := PosTotal(PosRaw(t.cart, t.discountAmount, t.removeTax, t.charges, t.points), t.rounding);
            var billed := ServerTotals(gross, t.discountPercent, t.secondary, t.charges, t.rounding).total;
            && (screen == billed <==> if t.rounding then MathRound(raw + gap) == MathRound(raw)
                                      else NoMatter(sub, before, t.discountPercent))
            && (gap == 0.0 <==> NoMatter(sub, before, t.discountPercent))
            && (gap >= 1.0 || gap <= -1.0 ==> screen != billed)
  {
    hide Act, CartAfter, Play, PosRaw, ServerRaw, ServerTotals, PosTotal, Gap, Sane, PricedFrom, Subtotal, PercentOf;
    hide Recounts, MathRound, FullTax;
    var t := Play(actions);
    PlayKeeps(actions);
    CountedAtLast(actions, n);
    assert t.discountAmount == PercentOf(t.counted, t.discountPercent);
    StaleDiscountDiffers(goods, t.cart, p, t.counted, t.discountPercent, t.secondary, t.removeTax, t.charges,
                         t.rounding);
  }
}
