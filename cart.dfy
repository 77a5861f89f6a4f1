/** The cart page: a client-held list of lines, each a product snapshot and
    a quantity, restored from local storage on load. Every action replaces
    the list with a new one computed from the old; checkout turns the list
    into the order text for the chat hand-off. */
module CartPage {
  import opened Seqs
  import opened Text
  import opened PetsApi

  /** `CartItem extends Pet { quantity }` */
  datatype CartItem = CartItem(product: Product, quantity: int)

  function Min(a: int, b: int): int
  {
    if a <= b then a else b
  }

  /** The loaded cart: the stored list, or the empty cart when nothing is
      stored or what is stored does not parse (None). */
  function LoadCart(saved: Option<seq<CartItem>>): (cart: seq<CartItem>)
    ensures saved.None? ==> cart == []
    ensures saved.Some? ==> cart == saved.value
  {
    if saved.Some? then saved.value else []
  }

  /** A line is looked up and removed by its product's id. */
  function LineId(item: CartItem): int
  {
    item.product.id
  }

  /** The `map` branch of `updateQuantity`: each line with the id gets
      `min(newQuantity, stock)`. */
  function ClampQuantity(cart: seq<CartItem>, id: int, newQuantity: int): (r: seq<CartItem>)
    ensures |r| == |cart|
    ensures forall i :: 0 <= i < |cart| ==> r[i].product == cart[i].product
    ensures forall i :: 0 <= i < |cart| && cart[i].product.id != id ==> r[i] == cart[i]
    ensures forall i :: 0 <= i < |cart| && cart[i].product.id == id ==>
              r[i].quantity <= cart[i].product.stock &&
              (r[i].quantity == newQuantity || r[i].quantity == cart[i].product.stock) &&
              (newQuantity <= cart[i].product.stock ==> r[i].quantity == newQuantity)
  {
    seq(|cart|, i requires 0 <= i < |cart| =>
      if cart[i].product.id == id
      then cart[i].(quantity := Min(newQuantity, cart[i].product.stock))
      else cart[i])
  }

  /** Clamping twice to the same quantity is clamping once. */
  lemma ClampQuantityIdempotent(cart: seq<CartItem>, id: int, newQuantity: int)
    ensures ClampQuantity(ClampQuantity(cart, id, newQuantity), id, newQuantity) == ClampQuantity(cart, id, newQuantity)
  {
  }

  /** `updateQuantity`: a non-positive quantity removes the line, any other
      quantity is clamped to the line's stock. */
  function WithQuantity(cart: seq<CartItem>, id: int, newQuantity: int): (r: seq<CartItem>)
    ensures newQuantity <= 0 ==>
              (forall i :: 0 <= i < |r| ==> r[i].product.id != id) &&
              (forall i :: 0 <= i < |cart| && cart[i].product.id != id ==> cart[i] in r)
    ensures newQuantity > 0 ==>
              |r| == |cart| &&
              (forall i :: 0 <= i < |cart| && cart[i].product.id != id ==> r[i] == cart[i]) &&
              (forall i :: 0 <= i < |cart| && cart[i].product.id == id ==>
                 r[i].product == cart[i].product && r[i].quantity == Min(newQuantity, cart[i].product.stock))
  {
    if newQuantity <= 0 then Without(cart, LineId, id) else ClampQuantity(cart, id, newQuantity)
  }

  /** A quantity of 0 or less does exactly what `removeFromCart` does. */
  lemma NonPositiveQuantityRemoves(cart: seq<CartItem>, id: int, newQuantity: int)
    requires newQuantity <= 0
    ensures WithQuantity(cart, id, newQuantity) == Without(cart, LineId, id)
  {
  }

  /** Changing the quantity of an id that is not in the cart changes nothing. */
  lemma UpdateQuantityAbsentId(cart: seq<CartItem>, id: int, newQuantity: int)
    requires forall i :: 0 <= i < |cart| ==> cart[i].product.id != id
    ensures WithQuantity(cart, id, newQuantity) == cart
  {
    FilterKeepsAll(cart, IdIsNot(LineId, id));
  }

  /** Removing twice is removing once. */
  lemma RemoveFromCartIdempotent(cart: seq<CartItem>, id: int)
    ensures Without(Without(cart, LineId, id), LineId, id) == Without(cart, LineId, id)
  {
    FilterIdempotent(cart, IdIsNot(LineId, id));
  }

  /** `getTotalItems`: the sum of the line quantities. */
  function TotalItems(cart: seq<CartItem>): (total: int)
    ensures (forall i :: 0 <= i < |cart| ==> cart[i].quantity >= 1) ==> total >= |cart|
    decreases |cart|
  {
    if |cart| == 0 then 0 else cart[0].quantity + TotalItems(cart[1..])
  }

  lemma {:induction false} TotalItemsAppend(a: seq<CartItem>, b: seq<CartItem>)
    ensures TotalItems(a + b) == TotalItems(a) + TotalItems(b)
    decreases |a|
  {
    if |a| == 0 {
      assert a + b == b;
    } else {
      assert (a + b)[1..] == a[1..] + b;
      TotalItemsAppend(a[1..], b);
    }
  }

  /** Removing an id lowers the total by exactly the quantities of the lines
      that carried it. */
  lemma {:induction false} TotalAfterRemove(cart: seq<CartItem>, id: int)
    ensures TotalItems(Without(cart, LineId, id)) == TotalItems(cart) - TotalItems(Filter(cart, IdIs(LineId, id)))
    decreases |cart|
  {
    if |cart| > 0 {
      TotalAfterRemove(cart[1..], id);
      var keep := if IdIsNot(LineId, id)(cart[0]) then [cart[0]] else [];
      var drop := if IdIs(LineId, id)(cart[0]) then [cart[0]] else [];
      TotalItemsAppend(keep, Filter(cart[1..], IdIsNot(LineId, id)));
      TotalItemsAppend(drop, Filter(cart[1..], IdIs(LineId, id)));
    }
  }

  /** With one line for the id, removing it lowers the total by that line's
      quantity. */
  lemma {:induction false} TotalAfterRemoveSingle(cart: seq<CartItem>, k: int)
    requires 0 <= k < |cart|
    requires forall i :: 0 <= i < |cart| && i != k ==> cart[i].product.id != cart[k].product.id
    ensures TotalItems(Without(cart, LineId, cart[k].product.id)) == TotalItems(cart) - cart[k].quantity
    decreases |cart|
  {
    var id := cart[k].product.id;
    if k == 0 {
      FilterKeepsAll(cart[1..], IdIsNot(LineId, id));
      assert Without(cart, LineId, id) == cart[1..];
    } else {
      assert cart[1..][k - 1] == cart[k];
      TotalAfterRemoveSingle(cart[1..], k - 1);
      var r := Without(cart[1..], LineId, id);
      assert Without(cart, LineId, id) == [cart[0]] + r;
      assert ([cart[0]] + r)[1..] == r;
    }
  }

  /** With one line for the id, setting a positive quantity changes the
      total by the difference between the clamped quantity and the old one:
      the +/- buttons move the total by exactly what they change. */
  lemma {:induction false} TotalAfterClampSingle(cart: seq<CartItem>, k: int, newQuantity: int)
    requires 0 <= k < |cart| && newQuantity > 0
    requires forall i :: 0 <= i < |cart| && i != k ==> cart[i].product.id != cart[k].product.id
    ensures TotalItems(WithQuantity(cart, cart[k].product.id, newQuantity))
              == TotalItems(cart) - cart[k].quantity + Min(newQuantity, cart[k].product.stock)
    decreases |cart|
  {
    var id := cart[k].product.id;
    var r := ClampQuantity(cart, id, newQuantity);
    assert r[1..] == ClampQuantity(cart[1..], id, newQuantity);
    if k == 0 {
      assert ClampQuantity(cart[1..], id, newQuantity) == cart[1..];
    } else {
      assert cart[1..][k - 1] == cart[k];
      TotalAfterClampSingle(cart[1..], k - 1, newQuantity);
    }
  }

  /** The payment methods the page offers, as (value, label). */
  function PaymentMethods(): seq<(string, string)>
  {
    [
      ("dana", "\U{1F4B3} Dana"),
      ("gopay", "\U{1F7E2} Gopay"),
      ("shopeepay", "\U{1F9E1} Shopee Pay"),
      ("seabank", "\U{1F535} Seabank"),
      ("qris", "\U{1F4F1} QRIS")
    ]
  }

  /** `PAYMENT_METHODS.find((m) => m.value === value)?.label`, rendered by the
      template: the label, or "undefined" when no method has that value. */
  function PaymentLabel(value: string): (shown: string)
    ensures (exists i :: 0 <= i < |PaymentMethods()| && PaymentMethods()[i].0 == value) ==>
              exists i :: 0 <= i < |PaymentMethods()| && PaymentMethods()[i].0 == value && PaymentMethods()[i].1 == shown
    ensures (forall i :: 0 <= i < |PaymentMethods()| ==> PaymentMethods()[i].0 != value) ==> shown == "undefined"
  {
    var i := FindIndex(PaymentMethods(), (m: (string, string)) => m.0 == value);
    if i == -1 then "undefined" else PaymentMethods()[i].1
  }

  /** Every label the template can show, "undefined" included, is a single
      line, so the order text read line by line has the label on its own
      line. */
  lemma PaymentLabelNoNewline(value: string)
    ensures NoNewline(PaymentLabel(value))
  {
  }

  /** One bullet of the order: `• name - price (Qty: n)`. */
  function OrderLine(item: CartItem): string
  {
    "\U{2022} " + item.product.name + " - " + item.product.price + " (Qty: " + IntToString(item.quantity) + ")"
  }

  lemma OrderLineNoNewline(item: CartItem)
    requires NoNewline(item.product.name) && NoNewline(item.product.price)
    ensures NoNewline(OrderLine(item))
  {
    var q := IntToString(item.quantity);
    NoNewlineConcat("\U{2022} ", item.product.name);
    NoNewlineConcat("\U{2022} " + item.product.name, " - ");
    NoNewlineConcat("\U{2022} " + item.product.name + " - ", item.product.price);
    NoNewlineConcat("\U{2022} " + item.product.name + " - " + item.product.price, " (Qty: ");
    NoNewlineConcat("\U{2022} " + item.product.name + " - " + item.product.price + " (Qty: ", q);
    NoNewlineConcat("\U{2022} " + item.product.name + " - " + item.product.price + " (Qty: " + q, ")");
  }

  /** `cartItems.map(...)`: one bullet per line, in cart order. */
  function OrderLines(cart: seq<CartItem>): seq<string>
  {
    seq(|cart|, i requires 0 <= i < |cart| => OrderLine(cart[i]))
  }

  const Greeting := "Halo! Saya ingin memesan:"
  /** "Mohon konfirmasi ketersediaan stok dan total harga. Terima kasih!",
      written in pieces the verifier can read character by character. */
  const Closing := "Mohon konfirmasi ketersediaan" + " stok dan total harga." + " Terima kasih!"

  lemma FixedTextHasNoNewline()
    ensures NoNewline(Greeting) && NoNewline(Closing)
  {
    NoNewlineConcat("Mohon konfirmasi ketersediaan", " stok dan total harga.");
    NoNewlineConcat("Mohon konfirmasi ketersediaan" + " stok dan total harga.", " Terima kasih!");
  }

  /** The lines after the bullets: a blank line, the total, the payment
      label, a blank line and the closing sentence. */
  function Footer(cart: seq<CartItem>, payment: string): seq<string>
  {
    ["", "Total Item: " + IntToString(TotalItems(cart)) + " pcs", "Metode Pembayaran: " + payment, "", Closing]
  }

  /** The text handed to the chat link at checkout: the template literal,
      one element per template line, with the joined bullets
      (`orderDetails`) on the third. */
  function OrderMessage(cart: seq<CartItem>, payment: string): string
  {
    Join([Greeting, ""] + [Join(OrderLines(cart))] + Footer(cart, payment))
  }

  lemma FooterNoNewline(cart: seq<CartItem>, payment: string)
    requires NoNewline(payment)
    ensures AllNoNewline(Footer(cart, payment))
  {
    FixedTextHasNoNewline();
    NoNewlineConcat("Total Item: ", IntToString(TotalItems(cart)));
    NoNewlineConcat("Total Item: " + IntToString(TotalItems(cart)), " pcs");
    NoNewlineConcat("Metode Pembayaran: ", payment);
  }

  lemma OrderLinesNoNewline(cart: seq<CartItem>)
    requires forall i :: 0 <= i < |cart| ==> NoNewline(cart[i].product.name) && NoNewline(cart[i].product.price)
    ensures AllNoNewline(OrderLines(cart))
  {
    forall i | 0 <= i < |cart|
      ensures NoNewline(OrderLines(cart)[i])
    {
      OrderLineNoNewline(cart[i]);
    }
  }

  /** Read line by line, the message is the greeting, a blank line, one
      bullet per cart line in cart order, then the footer. */
  lemma OrderMessageLines(cart: seq<CartItem>, payment: string)
    requires |cart| > 0
    requires forall i :: 0 <= i < |cart| ==> NoNewline(cart[i].product.name) && NoNewline(cart[i].product.price)
    requires NoNewline(payment)
    ensures SplitLines(OrderMessage(cart, payment)) == [Greeting, ""] + OrderLines(cart) + Footer(cart, payment)
  {
    FixedTextHasNoNewline();
    assert AllNoNewline([Greeting, ""]);
    OrderLinesNoNewline(cart);
    FooterNoNewline(cart, payment);
    TemplateLines([Greeting, ""], OrderLines(cart), Footer(cart, payment));
  }

  class Cart {
    var cartItems: seq<CartItem>
    var paymentMethod: string

    /** Mount: restore the stored cart, no payment method chosen. */
    constructor (saved: Option<seq<CartItem>>)
      ensures cartItems == LoadCart(saved) && paymentMethod == ""
    {
      cartItems := LoadCart(saved);
      paymentMethod := "";
    }

    method UpdateQuantity(id: int, newQuantity: int)
      modifies this`cartItems
      ensures cartItems == WithQuantity(old(cartItems), id, newQuantity)
    {
      if newQuantity <= 0 {
        RemoveFromCart(id);
        return;
      }
      cartItems := ClampQuantity(cartItems, id, newQuantity);
    }

    method RemoveFromCart(id: int)
      modifies this`cartItems
      ensures cartItems == Without(old(cartItems), LineId, id)
    {
      cartItems := Without(cartItems, LineId, id);
    }

    method ClearCart()
      modifies this`cartItems
      ensures cartItems == [] && TotalItems(cartItems) == 0
    {
      cartItems := [];
    }

    method SelectPayment(value: string)
      modifies this`paymentMethod
      ensures paymentMethod == value
    {
      paymentMethod := value;
    }

    /** The checkout button is disabled on an empty cart or with no payment
        method chosen. */
    predicate CheckoutDisabled()
      reads this
    {
      |cartItems| == 0 || paymentMethod == ""
    }

    /** `handleCheckout`: nothing on an empty cart or without a payment
        method, otherwise the order text. */
    method HandleCheckout() returns (message: Option<string>)
      ensures message.None? <==> CheckoutDisabled()
      ensures message.Some? ==> message.value == OrderMessage(cartItems, PaymentLabel(paymentMethod))
    {
      if |cartItems| == 0 {
        return None;
      }
      if paymentMethod == "" {
        return None;
      }
      message := Some(OrderMessage(cartItems, PaymentLabel(paymentMethod)));
    }
  }
}
