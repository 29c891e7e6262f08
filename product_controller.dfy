/**
 * The product catalogue handlers: listing with the `featured`/`bestseller` query flags,
 * lookup, create/update/delete, the featured toggle, duplication and stock adjustment.
 * A path id that is not a number (`None`) makes the database call throw, which each
 * handler answers with its own 500 message.
 */
module ProductController {
  import opened Common
  import opened Db

  const NotFound := "Product not found"

  /** The query `getProducts` sends: a featured-only filter and one of two orders. */
  datatype ProductQuery = ProductQuery(featuredOnly: bool, byTotalSoldDesc: bool)

  /** Only the exact string "true" turns either flag on. */
  function QueryOf(featured: Option<string>, bestseller: Option<string>): (q: ProductQuery)
    ensures q.featuredOnly <==> featured == Some("true")
    ensures q.byTotalSoldDesc <==> bestseller == Some("true")
  {
    ProductQuery(featured == Some("true"), bestseller == Some("true"))
  }

  predicate Selected(products: map<int, Product>, q: ProductQuery, id: int) {
    id in products && (!q.featuredOnly || products[id].isFeatured)
  }

  /**
   * `reply` is a listing `findMany` may return for `q`: every selected product exactly once,
   * nothing else, ordered by totalSold descending or by id ascending.
   */
  ghost predicate IsProductsReply(products: map<int, Product>, q: ProductQuery, reply: seq<int>) {
    && (forall id :: id in reply <==> Selected(products, q, id))
    && (forall i :: 0 <= i < |reply| ==> reply[i] in products)
    && (forall i, j :: 0 <= i < j < |reply| ==> reply[i] != reply[j])
    && (q.byTotalSoldDesc ==>
          forall i, j :: 0 <= i < j < |reply| ==> products[reply[i]].totalSold >= products[reply[j]].totalSold)
    && (!q.byTotalSoldDesc ==> forall i, j :: 0 <= i < j < |reply| ==> reply[i] < reply[j])
  }

  /** The selected ids in [from, bound), ascending: the listing ordered by id. */
  function IdListing(products: map<int, Product>, q: ProductQuery, from: int, bound: int): (r: seq<int>)
    ensures forall i, j :: 0 <= i < j < |r| ==> r[i] < r[j]
    ensures forall id :: id in r <==> from <= id < bound && Selected(products, q, id)
    decreases bound - from
  {
    if from >= bound then []
    else
      var rest := IdListing(products, q, from + 1, bound);
      assert forall k :: 0 <= k < |rest| ==> rest[k] in rest && rest[k] > from;
      (if Selected(products, q, from) then [from] else []) + rest
  }

  /** Listing every selected id below the next id in ascending order answers a query not ordered by sales. */
  lemma IdListingAnswersQuery(db: Database, q: ProductQuery)
    requires db.Valid() && !q.byTotalSoldDesc
    ensures IsProductsReply(db.products, q, IdListing(db.products, q, 1, db.nextProductId))
  {
    var r := IdListing(db.products, q, 1, db.nextProductId);
    assert forall i, j :: 0 <= i < j < |r| ==> r[i] != r[j];
    assert forall i :: 0 <= i < |r| ==> r[i] in r;
  }

  /** With `featured=true` every listed product is featured, and every featured product is listed. */
  lemma FeaturedListingIsExactlyFeatured(products: map<int, Product>, bestseller: Option<string>, reply: seq<int>)
    requires IsProductsReply(products, QueryOf(Some("true"), bestseller), reply)
    ensures forall id :: id in reply <==> id in products && products[id].isFeatured
  {
  }

  /** In a best-seller listing no product sold more than the first one listed. */
  lemma BestsellerListingStartsWithTopSeller(products: map<int, Product>, q: ProductQuery, reply: seq<int>, id: int)
    requires q.byTotalSoldDesc && IsProductsReply(products, q, reply) && reply != []
    requires Selected(products, q, id)
    ensures products[reply[0]].totalSold >= products[id].totalSold
  {
    assert id in reply;
    var k :| 0 <= k < |reply| && reply[k] == id;
    if k > 0 {
      assert products[reply[0]].totalSold >= products[reply[k]].totalSold;
    }
  }

  /** `getProductById`. */
  function GetProductById(products: map<int, Product>, id: Option<int>): (r: Reply<Product>)
    ensures id.None? ==> r == Err(500, "Failed to fetch product")
    ensures id.Some? && id.value !in products ==> r == Err(404, NotFound)
    ensures r.Ok? <==> id.Some? && id.value in products
    ensures r.Ok? ==> r == Ok(200, products[id.value])
  {
    if id.None? then Err(500, "Failed to fetch product")
    else if id.value !in products then Err(404, NotFound)
    else Ok(200, products[id.value])
  }

  /** The body of a create or update request; absent optional fields are `None`. */
  datatype ProductInput = ProductInput(
    name: Option<string>,
    description: Option<string>,
    price: int,
    stock: int,
    imageUrl: Option<string>,
    isFeatured: Option<bool>)

  /** The row `createProduct` stores: isFeatured is false unless sent as true, and nothing has been sold yet. */
  function NewProduct(name: string, description: string, price: int, stock: int, imageUrl: string,
                      isFeatured: Option<bool>): (p: Product)
    ensures p.isFeatured <==> isFeatured == Some(true)
    ensures p.totalSold == 0
    ensures p == Product(name, description, price, stock, 0, imageUrl, p.isFeatured)
  {
    Product(name, description, price, stock, 0, imageUrl, isFeatured == Some(true))
  }

  /** `createProduct`: a new row under the next id. */
  method CreateProduct(db: Database, name: string, description: string, price: int, stock: int, imageUrl: string,
                       isFeatured: Option<bool>) returns (r: Reply<(int, Product)>)
    requires db.Valid()
    modifies db`products, db`nextProductId
    ensures db.Valid()
    ensures r == Ok(201, (old(db.nextProductId), NewProduct(name, description, price, stock, imageUrl, isFeatured)))
    ensures db.products == old(db.products)[old(db.nextProductId) := r.body.1]
    ensures db.nextProductId == old(db.nextProductId) + 1
  {
    var id := db.nextProductId;
    var p := NewProduct(name, description, price, stock, imageUrl, isFeatured);
    db.products := db.products[id := p];
    db.nextProductId := id + 1;
    r := Ok(201, (id, p));
  }

  /** The row after `updateProduct`: the fields sent replace the stored ones, absent ones are kept. */
  function Updated(p: Product, input: ProductInput): (u: Product)
    ensures u.totalSold == p.totalSold
    ensures u.price == input.price && u.stock == input.stock
    ensures input.name.Some? ==> u.name == input.name.value
    ensures input.name.None? ==> u.name == p.name
    ensures input.description.Some? ==> u.description == input.description.value
    ensures input.description.None? ==> u.description == p.description
    ensures input.imageUrl.Some? ==> u.imageUrl == input.imageUrl.value
    ensures input.imageUrl.None? ==> u.imageUrl == p.imageUrl
    ensures input.isFeatured.Some? ==> u.isFeatured == input.isFeatured.value
    ensures input.isFeatured.None? ==> u.isFeatured == p.isFeatured
  {
    p.(name := input.name.GetOr(p.name),
       description := input.description.GetOr(p.description),
       price := input.price,
       stock := input.stock,
       imageUrl := input.imageUrl.GetOr(p.imageUrl),
       isFeatured := input.isFeatured.GetOr(p.isFeatured))
  }

  /** Sending back every field of a row leaves it as it was. */
  lemma UpdateWithOwnFieldsIsIdentity(p: Product)
    ensures Updated(p, ProductInput(Some(p.name), Some(p.description), p.price, p.stock, Some(p.imageUrl), Some(p.isFeatured))) == p
  {
  }

  /** Sending the same update twice leaves the row as one update did. */
  lemma UpdateTwiceIsUpdateOnce(p: Product, input: ProductInput)
    ensures Updated(Updated(p, input), input) == Updated(p, input)
  {
  }

  /** `updateProduct`: a missing row makes the update throw, answered with 500. */
  method UpdateProduct(db: Database, id: Option<int>, input: ProductInput) returns (r: Reply<Product>)
    requires db.Valid()
    modifies db`products
    ensures db.Valid()
    ensures id.None? || id.value !in old(db.products) ==> r == Err(500, "Failed to update product") && unchanged(db)
    ensures id.Some? && id.value in old(db.products) ==>
              && r == Ok(200, Updated(old(db.products)[id.value], input))
              && db.products == old(db.products)[id.value := r.body]
  {
    if id.None? || id.value !in db.products {
      return Err(500, "Failed to update product");
    }
    var u := Updated(db.products[id.value], input);
    db.products := db.products[id.value := u];
    r := Ok(200, u);
  }

  /** `deleteProduct`: 204 with the row gone, or 500 when there is no such row. */
  method DeleteProduct(db: Database, id: Option<int>) returns (r: Reply<()>)
    requires db.Valid()
    modifies db`products
    ensures db.Valid()
    ensures id.None? || id.value !in old(db.products) ==> r == Err(500, "Failed to delete product") && unchanged(db)
    ensures id.Some? && id.value in old(db.products) ==> r == Ok(204, ()) && db.products == old(db.products) - {id.value}
  {
    if id.None? || id.value !in db.products {
      return Err(500, "Failed to delete product");
    }
    db.products := db.products - {id.value};
    r := Ok(204, ());
  }

  /** The row with its featured flag flipped. */
  function Toggled(p: Product): (t: Product)
    ensures t.isFeatured == !p.isFeatured
    ensures t.(isFeatured := p.isFeatured) == p
  {
    p.(isFeatured := !p.isFeatured)
  }

  lemma ToggleTwiceRestores(p: Product)
    ensures Toggled(Toggled(p)) == p
  {
  }

  /** `featureProduct`: flips only the featured flag of an existing product. */
  method FeatureProduct(db: Database, id: Option<int>) returns (r: Reply<Product>)
    requires db.Valid()
    modifies db`products
    ensures db.Valid()
    ensures id.None? ==> r == Err(500, "Failed to toggle feature status") && unchanged(db)
    ensures id.Some? && id.value !in old(db.products) ==> r == Err(404, NotFound) && unchanged(db)
    ensures id.Some? && id.value in old(db.products) ==>
              && r == Ok(200, Toggled(old(db.products)[id.value]))
              && db.products == old(db.products)[id.value := r.body]
  {
    if id.None? {
      return Err(500, "Failed to toggle feature status");
    }
    if id.value !in db.products {
      return Err(404, NotFound);
    }
    var t := Toggled(db.products[id.value]);
    db.products := db.products[id.value := t];
    r := Ok(200, t);
  }

  /** The copy `duplicateProduct` stores: every field kept but the name, which gains " (Copy)". */
  function Copy(p: Product): (c: Product)
    ensures c.name == p.name + " (Copy)"
    ensures c.(name := p.name) == p
  {
    p.(name := p.name + " (Copy)")
  }

  /** `duplicateProduct`: a copy of an existing product under the next id. */
  method DuplicateProduct(db: Database, id: Option<int>) returns (r: Reply<(int, Product)>)
    requires db.Valid()
    modifies db`products, db`nextProductId
    ensures db.Valid()
    ensures id.None? ==> r == Err(500, "Failed to duplicate product") && unchanged(db)
    ensures id.Some? && id.value !in old(db.products) ==> r == Err(404, NotFound) && unchanged(db)
    ensures id.Some? && id.value in old(db.products) ==>
              && r == Ok(201, (old(db.nextProductId), Copy(old(db.products)[id.value])))
              && db.products == old(db.products)[old(db.nextProductId) := r.body.1]
              && db.nextProductId == old(db.nextProductId) + 1
  {
    if id.None? {
      return Err(500, "Failed to duplicate product");
    }
    if id.value !in db.products {
      return Err(404, NotFound);
    }
    var c := Copy(db.products[id.value]);
    var newId := db.nextProductId;
    db.products := db.products[newId := c];
    db.nextProductId := newId + 1;
    r := Ok(201, (newId, c));
  }

  /** A duplicated product keeps the original: the copy is a new row and the source row is untouched. */
  lemma DuplicateKeepsOriginal(db: Database, id: int)
    requires db.Valid() && id in db.products
    ensures db.nextProductId != id
    ensures var m := db.products[db.nextProductId := Copy(db.products[id])]; id in m && m[id] == db.products[id]
  {
  }

  datatype StockOp = Increment | Decrement

  /** The two operations `updateStock` accepts, by their exact names. */
  function ParseStockOp(operation: Option<string>): (r: Option<StockOp>)
    ensures r == Some(Increment) <==> operation == Some("increment")
    ensures r == Some(Decrement) <==> operation == Some("decrement")
  {
    if operation == Some("increment") then Some(Increment)
    else if operation == Some("decrement") then Some(Decrement)
    else None
  }

  /** The stock after the operation: decrement clamps at zero. */
  function NewStock(stock: int, op: StockOp, amount: int): (s: int)
    ensures op == Decrement ==> s >= 0 && s >= stock - amount && (s == 0 || s == stock - amount)
    ensures op == Increment ==> s - stock == amount
  {
    match op
    case Increment => stock + amount
    case Decrement => if stock - amount > 0 then stock - amount else 0
  }

  /** Decrementing by at most the stock on hand and then incrementing by the same amount restores it. */
  lemma DecrementThenIncrementRestores(stock: int, amount: int)
    requires 0 <= amount <= stock
    ensures NewStock(NewStock(stock, Decrement, amount), Increment, amount) == stock
  {
  }

  /** Decrementing by more than the stock on hand leaves zero, not a negative stock. */
  lemma OverDecrementEmpties(stock: int, amount: int)
    requires amount >= stock
    ensures NewStock(stock, Decrement, amount) == 0
  {
  }

  /**
   * `updateStock`: the operation is checked before the product is looked up; `amount`
   * defaults to 1 when absent.
   */
  method UpdateStock(db: Database, id: Option<int>, operation: Option<string>, amount: Option<int>) returns (r: Reply<Product>)
    requires db.Valid()
    modifies db`products
    ensures db.Valid()
    ensures ParseStockOp(operation).None? ==> r == Err(400, "Invalid operation") && unchanged(db)
    ensures ParseStockOp(operation).Some? && id.None? ==> r == Err(500, "Failed to update stock") && unchanged(db)
    ensures ParseStockOp(operation).Some? && id.Some? && id.value !in old(db.products) ==>
              r == Err(404, NotFound) && unchanged(db)
    ensures r.Ok? ==>
              && ParseStockOp(operation).Some? && id.Some? && id.value in old(db.products)
              && var p := old(db.products)[id.value];
                 r == Ok(200, p.(stock := NewStock(p.stock, ParseStockOp(operation).value, amount.GetOr(1))))
                 && db.products == old(db.products)[id.value := r.body]
  {
    var op := ParseStockOp(operation);
    if op.None? {
      return Err(400, "Invalid operation");
    }
    if id.None? {
      return Err(500, "Failed to update stock");
    }
    if id.value !in db.products {
      return Err(404, NotFound);
    }
    var p := db.products[id.value];
    var u := p.(stock := NewStock(p.stock, op.value, amount.GetOr(1)));
    db.products := db.products[id.value := u];
    r := Ok(200, u);
  }
}
