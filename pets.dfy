/** The product store behind `/api/pets`: a process-wide list of catalog
    records that GET lists, POST appends to, PUT overwrites by id and DELETE
    filters. Each handler is one atomic step on the store. */
module PetsApi {
  import opened Seqs
  import opened Api

  /** A catalog record. `price` is display text; `status` and `category` are
      stored as given, since the handlers never check them. */
  datatype Product = Product(
    id: int,
    name: string,
    price: string,
    description: string,
    stock: int,
    status: string,
    category: string)

  /** The decoded JSON body of a POST or PUT. A missing text field is ""
      (falsy, like `undefined`); `stock` is what `Number.parseInt` makes of
      the body's stock, None for NaN. */
  datatype ProductBody = ProductBody(
    id: Option<int>,
    name: string,
    price: string,
    description: string,
    stock: Option<int>,
    status: string,
    category: string)

  /** The id of a record, the key every lookup and delete goes by. */
  function ProductId(p: Product): int
  {
    p.id
  }

  /** `Number.parseInt(stock) || 0`: NaN (and 0) become 0. */
  function CoerceStock(parsed: Option<int>): int
  {
    if parsed.Some? then parsed.value else 0
  }

  /** POST rejects a body whose name, price or category is falsy. */
  predicate MissingRequired(body: ProductBody)
  {
    body.name == "" || body.price == "" || body.category == ""
  }

  /** The record POST stores: the body, with the given id in place of any id
      it carried, stock coerced and status defaulting to "ready". */
  function NewProduct(body: ProductBody, id: int): Product
  {
    Product(id, body.name, body.price, body.description, CoerceStock(body.stock),
            if body.status == "" then "ready" else body.status, body.category)
  }

  /** The record PUT stores: the body as sent, stock coerced, status not
      defaulted. */
  function Replacement(body: ProductBody): Product
    requires body.id.Some?
  {
    Product(body.id.value, body.name, body.price, body.description, CoerceStock(body.stock),
            body.status, body.category)
  }

  /** The records the module starts with (ids 1 to 23). */
  function Seed(): seq<Product>
  {
    [ Product(1, "TITAN TRICERATOPS", "Under Rp 100.000", "Pet legendary langka", 2, "ready", "pet"),
      Product(2, "T-REX", "Rp 45.000", "Murah aja", 5, "ready", "pet"),
      Product(3, "MIMIC", "Rp 45.000", "Gemuk", 3, "ready", "pet"),
      Product(4, "DRAGONFLY", "Rp 40.000-55.000", "Mutasi windy", 4, "ready", "pet"),
      Product(5, "QUEEN BEE", "Rp 35.000", "Gemuk + mutasi windy", 2, "ready", "pet"),
      Product(6, "DILOPHOSAURUS", "Rp 15.000-17.000", "Koleksi dinosaurus", 3, "ready", "pet"),
      Product(7, "RED FOX", "Rp 8.000-10.000", "Gemuk", 4, "ready", "pet"),
      Product(8, "MOON CAT", "Rp 6.000-8.000", "Gemuk", 5, "ready", "pet"),
      Product(9, "OWL BIASA", "Rp 5.000", "Pet standar", 6, "ready", "pet"),
      Product(10, "COOKED OWL", "Rp 5.000", "Varian spesial", 3, "ready", "pet"),
      Product(11, "OSTRIC", "Rp 5.000", "Pet burung", 4, "ready", "pet"),
      Product(12, "MANTIS", "Rp 5.000-7.000", "Gemuk", 3, "ready", "pet"),
      Product(13, "PETAL BEE", "Rp 7.000", "Lebah cantik", 2, "ready", "pet"),
      Product(14, "ALL MACAW", "Rp 6.000", "Gemuk", 4, "ready", "pet"),
      Product(15, "CAPYBARA", "Rp 6.000", "Gemuk", 3, "ready", "pet"),
      Product(16, "SEAL", "Rp 5.000", "Pet air", 5, "ready", "pet"),
      Product(17, "PEACOCK", "Rp 5.000", "Gemuk", 2, "ready", "pet"),
      Product(18, "BLOOD KIWI", "Rp 6.000", "Gemuk", 3, "ready", "pet"),
      Product(19, "Paket 30+", "Rp 3.000", "Paket tumbal 30+", 10, "ready", "package"),
      Product(20, "Paket 45+", "Rp 10.000", "Paket tumbal 45+", 8, "ready", "package"),
      Product(21, "Paket 60+", "Rp 17.000", "Paket tumbal 60+", 6, "ready", "package"),
      Product(22, "Paket 75+", "Rp 23.000", "Paket tumbal 75+", 4, "ready", "package"),
      Product(23, "SPRINKLE 1 SET", "Rp 15.000", "Perlengkapan lengkap", 5, "ready", "equipment") ]
  }

  /** The seed ids are 1, 2, ..., 23 in order, hence distinct. */
  lemma SeedIdsDistinct()
    ensures |Seed()| == 23
    ensures forall i :: 0 <= i < |Seed()| ==> Seed()[i].id == i + 1
    ensures Distinct(Ids(Seed(), ProductId))
  {
  }

  class PetStore {
    var products: seq<Product>

    /** Ids stay distinct: the seed's are, POST picks a fresh one, PUT keeps
        the id it overwrites and DELETE only removes records. */
    ghost predicate Valid()
      reads this
    {
      Distinct(Ids(products, ProductId))
    }

    constructor ()
      ensures Valid() && products == Seed()
    {
      products := Seed();
      SeedIdsDistinct();
    }

    /** GET: the whole store, in insertion order. */
    method List() returns (r: seq<Product>)
      ensures r == products
    {
      r := products;
    }

    /** POST: validate, assign `max(ids) + 1` (1 on an empty store), coerce
        stock, default status, append. */
    method Create(body: ProductBody) returns (r: Reply<Product>)
      requires Valid()
      modifies this
      ensures Valid()
      ensures MissingRequired(body) ==> r == BadRequest && products == old(products)
      ensures !MissingRequired(body) ==> r.Ok? && products == old(products) + [r.value]
      ensures r.Ok? ==> r.value == NewProduct(body, NextId(Ids(old(products), ProductId)))
      ensures r.Ok? ==> forall p :: p in old(products) ==> p.id < r.value.id
      ensures r.Ok? && old(products) == [] ==> r.value.id == 1
      ensures r.Ok? ==> r.value.stock == (if body.stock.Some? then body.stock.value else 0)
      ensures r.Ok? ==> r.value.status == (if body.status == "" then "ready" else body.status)
    {
      if MissingRequired(body) {
        return BadRequest;
      }
      var maxId := if |products| > 0 then MaxId(Ids(products, ProductId)) else 0;
      var created := NewProduct(body, maxId + 1);
      products := products + [created];
      r := Ok(created);
      assert Ids(products, ProductId) == Ids(old(products), ProductId) + [created.id];
    }

    /** PUT: 400 without an id, 404 for an unknown id, otherwise the record
        at the first position holding that id is overwritten by the body
        (with stock coerced). */
    method Update(body: ProductBody) returns (r: Reply<Product>)
      requires Valid()
      modifies this
      ensures Valid()
      ensures MissingId(body.id) ==> r == BadRequest && products == old(products)
      ensures !MissingId(body.id) && body.id.value !in Ids(old(products), ProductId) ==>
                r == NotFound && products == old(products)
      ensures !MissingId(body.id) && body.id.value in Ids(old(products), ProductId) ==>
                var i := FindIndex(old(products), IdIs(ProductId, body.id.value));
                0 <= i < |old(products)| && old(products)[i].id == body.id.value &&
                r == Ok(Replacement(body)) && products == old(products)[i := Replacement(body)]
      ensures r.Ok? ==> r.value.stock == (if body.stock.Some? then body.stock.value else 0)
    {
      if MissingId(body.id) {
        return BadRequest;
      }
      var index := FindIndex(products, IdIs(ProductId, body.id.value));
      if index == -1 {
        assert forall j :: 0 <= j < |products| ==> Ids(products, ProductId)[j] != body.id.value;
        return NotFound;
      }
      var updated := Replacement(body);
      products := products[index := updated];
      r := Ok(updated);
      assert Ids(products, ProductId) == Ids(old(products), ProductId)[index := updated.id];
    }

    /** DELETE: 400 without an id; otherwise filter the id out and answer 404
        when the length did not change. */
    method Delete(id: Option<int>) returns (r: Reply<()>)
      requires Valid()
      modifies this
      ensures Valid()
      ensures MissingId(id) ==> r == BadRequest && products == old(products)
      ensures !MissingId(id) && id.value !in Ids(old(products), ProductId) ==>
                r == NotFound && products == old(products)
      ensures !MissingId(id) && id.value in Ids(old(products), ProductId) ==>
                r == Ok(()) && products == Without(old(products), ProductId, id.value) &&
                |products| == |old(products)| - 1
    {
      if MissingId(id) {
        return BadRequest;
      }
      var initialLength := |products|;
      WithoutShrinksIffPresent(products, ProductId, id.value);
      WithoutKeepsDistinct(products, ProductId, id.value);
      if id.value in Ids(products, ProductId) {
        WithoutDistinctRemovesOne(products, ProductId, id.value);
      }
      products := Without(products, ProductId, id.value);
      if |products| == initialLength {
        return NotFound;
      }
      r := Ok(());
    }
  }
}
