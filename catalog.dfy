/** The storefront page: the catalog fetched from the product store, shown
    in three category sections, and a simple cart that holds product
    snapshots without quantities. Adding appends (no merging, no cap at
    stock); checkout turns the cart into the order text for the chat
    hand-off. */
module CatalogPage {
  import opened Seqs
  import opened Text
  import opened PetsApi

  /** `addToCart` accepts a product only when it is in stock and ready. */
  predicate CanAdd(p: Product)
  {
    p.stock > 0 && p.status == "ready"
  }

  /** The cart after `addToCart(p)`: `[...cart, p]` when accepted, otherwise
      the same cart. */
  function Added(cart: seq<Product>, p: Product): (r: seq<Product>)
    ensures CanAdd(p) <==> |r| == |cart| + 1
    ensures !CanAdd(p) ==> r == cart
    ensures |r| >= |cart| && r[..|cart|] == cart
    ensures CanAdd(p) ==> r[|cart|] == p
  {
    if CanAdd(p) then cart + [p] else cart
  }

  /** Adding an accepted product twice gives two entries: nothing merges. */
  lemma AddTwiceGivesTwoEntries(cart: seq<Product>, p: Product)
    requires CanAdd(p)
    ensures Added(Added(cart, p), p) == cart + [p, p]
  {
    assert cart + [p] + [p] == cart + [p, p];
  }

  /** An add button is disabled when the product's stock is 0 or it is
      sold. */
  predicate AddDisabled(p: Product)
  {
    p.stock == 0 || p.status == "sold"
  }

  /** For a non-negative stock and one of the two statuses the page knows,
      the button is disabled exactly when adding would change nothing. */
  lemma AddButtonMatchesAdd(cart: seq<Product>, p: Product)
    requires p.stock >= 0 && (p.status == "ready" || p.status == "sold")
    ensures AddDisabled(p) <==> Added(cart, p) == cart
  {
  }

  /** Outside that domain the two tests part: the button is enabled yet the
      add is refused exactly for a negative stock that is not sold, or a
      non-zero stock with a status other than "ready" and "sold". A disabled
      button never hides an add that would be accepted. */
  lemma AddButtonMismatch(p: Product)
    ensures !AddDisabled(p) && !CanAdd(p) <==>
              (p.stock < 0 && p.status != "sold") ||
              (p.stock != 0 && p.status != "ready" && p.status != "sold")
    ensures AddDisabled(p) ==> !CanAdd(p)
  {
  }

  function InCategory(category: string): Product -> bool
  {
    (p: Product) => p.category == category
  }

  function PetItems(pets: seq<Product>): seq<Product>
  {
    Filter(pets, InCategory("pet"))
  }

  function PackageItems(pets: seq<Product>): seq<Product>
  {
    Filter(pets, InCategory("package"))
  }

  function EquipmentItems(pets: seq<Product>): seq<Product>
  {
    Filter(pets, InCategory("equipment"))
  }

  /** When every product has one of the three categories, the three
      sections split the catalog: each product is shown in exactly one
      section, and nothing is lost or duplicated. */
  lemma SectionsPartitionCatalog(pets: seq<Product>)
    requires forall i :: 0 <= i < |pets| ==>
               pets[i].category == "pet" || pets[i].category == "package" || pets[i].category == "equipment"
    ensures multiset(PetItems(pets)) + multiset(PackageItems(pets)) + multiset(EquipmentItems(pets)) == multiset(pets)
    ensures forall i :: 0 <= i < |pets| ==>
              ExactlyOne(pets[i] in PetItems(pets), pets[i] in PackageItems(pets), pets[i] in EquipmentItems(pets))
  {
    FilterPartition3(pets, InCategory("pet"), InCategory("package"), InCategory("equipment"));
    forall i | 0 <= i < |pets|
      ensures pets[i] in PetItems(pets) <==> pets[i].category == "pet"
      ensures pets[i] in PackageItems(pets) <==> pets[i].category == "package"
      ensures pets[i] in EquipmentItems(pets) <==> pets[i].category == "equipment"
    {
      SectionMembership(pets, pets[i], "pet");
      SectionMembership(pets, pets[i], "package");
      SectionMembership(pets, pets[i], "equipment");
    }
  }

  lemma SectionMembership(pets: seq<Product>, p: Product, category: string)
    requires p in pets
    ensures p in Filter(pets, InCategory(category)) <==> p.category == category
  {
    var r := Filter(pets, InCategory(category));
    if p in r {
      var k :| 0 <= k < |r| && r[k] == p;
      assert InCategory(category)(r[k]);
    }
  }

  /** A section of a concatenated catalog is the concatenation of the
      sections: each section lists products in catalog order. */
  lemma SectionKeepsOrder(a: seq<Product>, b: seq<Product>, category: string)
    ensures Filter(a + b, InCategory(category)) == Filter(a, InCategory(category)) + Filter(b, InCategory(category))
  {
    FilterAppend(a, b, InCategory(category));
  }

  /** One bullet of the order: `• name - price`. */
  function OrderLine(p: Product): string
  {
    "\U{2022} " + p.name + " - " + p.price
  }

  /** `cart.map(...)`: one bullet per entry, in cart order. */
  function OrderLines(cart: seq<Product>): seq<string>
  {
    seq(|cart|, i requires 0 <= i < |cart| => OrderLine(cart[i]))
  }

  const Greeting := "Halo! Saya ingin memesan:"
  /** "Mohon konfirmasi ketersediaan stok. Terima kasih!", written in pieces
      the verifier can read character by character. */
  const Closing := "Mohon konfirmasi ketersediaan" + " stok. Terima kasih!"

  /** The text handed to the chat link at checkout: the greeting, a blank
      line, the joined bullets, a blank line and the closing sentence. */
  function CheckoutMessage(cart: seq<Product>): string
  {
    Join([Greeting, "", Join(OrderLines(cart)), "", Closing])
  }

  lemma OrderLineNoNewline(p: Product)
    requires NoNewline(p.name) && NoNewline(p.price)
    ensures NoNewline(OrderLine(p))
  {
    NoNewlineConcat("\U{2022} ", p.name);
    NoNewlineConcat("\U{2022} " + p.name, " - ");
    NoNewlineConcat("\U{2022} " + p.name + " - ", p.price);
  }

  /** Read line by line, the message is the greeting, a blank line, one
      bullet per cart entry in cart order, a blank line and the closing. */
  lemma CheckoutMessageLines(cart: seq<Product>)
    requires |cart| > 0
    requires forall i :: 0 <= i < |cart| ==> NoNewline(cart[i].name) && NoNewline(cart[i].price)
    ensures SplitLines(CheckoutMessage(cart)) == [Greeting, ""] + OrderLines(cart) + ["", Closing]
  {
    var head, body, foot := [Greeting, ""], OrderLines(cart), ["", Closing];
    assert [Greeting, "", Join(body), "", Closing] == head + [Join(body)] + foot;
    NoNewlineConcat("Mohon konfirmasi ketersediaan", " stok. Terima kasih!");
    assert AllNoNewline(head) && AllNoNewline(foot);
    forall i | 0 <= i < |cart|
      ensures NoNewline(body[i])
    {
      OrderLineNoNewline(cart[i]);
    }
    TemplateLines(head, body, foot);
  }

  class Storefront {
    var pets: seq<Product>
    var cart: seq<Product>

    constructor ()
      ensures pets == [] && cart == []
    {
      pets := [];
      cart := [];
    }

    /** `fetchPets`: the fetched list replaces the catalog; a failed fetch
        (None) leaves it as it was. */
    method FetchPets(response: Option<seq<Product>>)
      modifies this`pets
      ensures pets == if response.Some? then response.value else old(pets)
    {
      if response.Some? {
        pets := response.value;
      }
    }

    method AddToCart(p: Product)
      modifies this`cart
      ensures cart == Added(old(cart), p)
    {
      if CanAdd(p) {
        cart := cart + [p];
      }
    }

    /** `removeFromCart`: every entry with the id goes, the rest keep their
        order (the same filter as the product store's delete). */
    method RemoveFromCart(id: int)
      modifies this`cart
      ensures cart == Without(old(cart), ProductId, id)
    {
      cart := Without(cart, ProductId, id);
    }

    /** The header button shows `Cart (n)` with n the number of entries, and
        is disabled when the cart is empty. */
    predicate CheckoutDisabled()
      reads this
    {
      |cart| == 0
    }

    /** `handleCheckout`: nothing on an empty cart, otherwise the order
        text. */
    method HandleCheckout() returns (message: Option<string>)
      ensures message.None? <==> CheckoutDisabled()
      ensures message.Some? ==> message.value == CheckoutMessage(cart)
    {
      if |cart| == 0 {
        return None;
      }
      message := Some(CheckoutMessage(cart));
    }
  }
}
