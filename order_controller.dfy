/**
 * Order placement and order reads: `createOrder` checks every submitted line against
 * stock, deducts stock and credits `totalSold`, and inserts a PENDING order, all as one
 * transaction; `getOrders` and `getOrderById` decide what an actor may see;
 * `updateOrderStatus` overwrites an order's status fields.
 */
module OrderController {
  import opened Common
  import opened Db
  import AuthMiddleware

  /** A submitted line as `createOrder` reads it: `item.id`, `item.quantity`, `item.price`, `item.name`. */
  datatype OrderLine = OrderLine(id: int, quantity: int, price: int, name: string)

  /** The request body of `POST /api/orders`. */
  datatype OrderRequest = OrderRequest(
    items: seq<OrderLine>,
    total: int,
    paymentMethod: string,
    userId: Option<int>,
    shippingAddress: Option<string>,
    contactNumber: Option<string>,
    paymentProof: Option<string>,
    deliveryTime: Option<string>)

  const InsufficientStock := "Insufficient stock for product: "

  /** The stock check of one line, against the stock as it stands before any deduction. */
  predicate LinePasses(products: map<int, Product>, l: OrderLine) {
    l.id in products && products[l.id].stock >= l.quantity
  }

  /** The index of the first line, at or after `from`, that fails the stock check. */
  function ShortfallIndex(products: map<int, Product>, lines: seq<OrderLine>, from: nat): (r: Option<nat>)
    requires from <= |lines|
    ensures r.Some? ==> from <= r.value < |lines| && !LinePasses(products, lines[r.value])
    ensures r.Some? ==> forall j :: from <= j < r.value ==> LinePasses(products, lines[j])
    ensures r.None? <==> forall j :: from <= j < |lines| ==> LinePasses(products, lines[j])
    decreases |lines| - from
  {
    if from == |lines| then None
    else if !LinePasses(products, lines[from]) then Some(from)
    else ShortfallIndex(products, lines, from + 1)
  }

  /** The effect of one line on the product table: stock down and totalSold up by its quantity. */
  function DeductLine(products: map<int, Product>, l: OrderLine): map<int, Product> {
    if l.id in products then
      products[l.id := products[l.id].(stock := products[l.id].stock - l.quantity,
                                       totalSold := products[l.id].totalSold + l.quantity)]
    else products
  }

  /** The product table after the deduction loop has run over `lines` in order. */
  function Deduct(products: map<int, Product>, lines: seq<OrderLine>): (r: map<int, Product>)
    ensures r.Keys == products.Keys
  {
    if lines == [] then products
    else DeductLine(Deduct(products, lines[..|lines| - 1]), lines[|lines| - 1])
  }

  /** Total quantity that `lines` request of product `pid`. */
  function QtyFor(lines: seq<OrderLine>, pid: int): int {
    if lines == [] then 0
    else QtyFor(lines[..|lines| - 1], pid) + (if lines[|lines| - 1].id == pid then lines[|lines| - 1].quantity else 0)
  }

  /** `userId || null`: a missing or zero user id makes a guest order. */
  function OrderOwner(userId: Option<int>): (r: Option<int>)
    ensures r.None? <==> !TruthyId(userId)
    ensures r.Some? ==> r == userId
  {
    if TruthyId(userId) then userId else None
  }

  function OrderItems(lines: seq<OrderLine>): (r: seq<OrderItem>)
    ensures |r| == |lines|
    ensures forall i :: 0 <= i < |lines| ==> r[i].productId == lines[i].id && r[i].quantity == lines[i].quantity
    ensures forall i :: 0 <= i < |lines| ==> r[i].price == lines[i].price
  {
    seq(|lines|, i requires 0 <= i < |lines| => OrderItem(lines[i].id, lines[i].quantity, lines[i].price))
  }

  /** The order row `createOrder` inserts. */
  function NewOrder(req: OrderRequest, now: int): Order {
    Order(OrderOwner(req.userId), PENDING, req.total, req.paymentMethod, req.shippingAddress,
          req.contactNumber, req.paymentProof, req.deliveryTime, None, now, OrderItems(req.items))
  }

  /**
   * `createOrder`: the first line that is missing or short of stock aborts the whole
   * transaction with a 400 naming that line and nothing changes; otherwise the stock of
   * every line's product is deducted in order and one PENDING order is inserted.
   */
  method CreateOrder(db: Database, req: OrderRequest, now: int) returns (r: Reply<(int, Order)>)
    requires db.Valid()
    modifies db`products, db`orders, db`nextOrderId
    ensures db.Valid()
    ensures var k := ShortfallIndex(old(db.products), req.items, 0);
      k.Some? ==>
        && r == Err(400, InsufficientStock + req.items[k.value].name)
        && db.products == old(db.products) && db.orders == old(db.orders)
        && db.nextOrderId == old(db.nextOrderId)
    ensures ShortfallIndex(old(db.products), req.items, 0).None? ==>
        && r == Ok(201, (old(db.nextOrderId), NewOrder(req, now)))
        && db.products == Deduct(old(db.products), req.items)
        && db.orders == old(db.orders)[old(db.nextOrderId) := NewOrder(req, now)]
        && db.nextOrderId == old(db.nextOrderId) + 1
  {
    // 1. Check stock for all items
    var k := CheckStock(db.products, req.items);
    if k.Some? {
      return Err(400, InsufficientStock + req.items[k.value].name);
    }
    r := PlaceOrder(db, req, now);
  }

  /** The transaction once the stock check has passed: deduct every line, then insert the order. */
  method PlaceOrder(db: Database, req: OrderRequest, now: int) returns (r: Reply<(int, Order)>)
    requires db.Valid()
    modifies db`products, db`orders, db`nextOrderId
    ensures db.Valid()
    ensures r == Ok(201, (old(db.nextOrderId), NewOrder(req, now)))
    ensures db.products == Deduct(old(db.products), req.items)
    ensures db.orders == old(db.orders)[old(db.nextOrderId) := NewOrder(req, now)]
    ensures db.nextOrderId == old(db.nextOrderId) + 1
  {
    // 2. Deduct stock and increment sold
    DeductStock(db, req.items);
    // 3. Create the order header with its items
    var order := NewOrder(req, now);
    var id := db.nextOrderId;
    db.orders := db.orders[id := order];
    db.nextOrderId := id + 1;
    r := Ok(201, (id, order));
  }

  /** The checking loop: it stops at the first line whose product is missing or short of stock. */
  method CheckStock(products: map<int, Product>, items: seq<OrderLine>) returns (k: Option<nat>)
    ensures k == ShortfallIndex(products, items, 0)
  {
    var i := 0;
    while i < |items| && LinePasses(products, items[i])
      invariant 0 <= i <= |items|
      invariant forall j :: 0 <= j < i ==> LinePasses(products, items[j])
    {
      i := i + 1;
    }
    k := if i < |items| then Some(i) else None;
  }

  /** The deduction loop: each line in turn takes its quantity off stock and adds it to totalSold. */
  method DeductStock(db: Database, items: seq<OrderLine>)
    modifies db`products
    ensures db.products == Deduct(old(db.products), items)
  {
    var j := 0;
    while j < |items|
      invariant 0 <= j <= |items|
      invariant db.products == Deduct(old(db.products), items[..j])
    {
      var l := items[j];
      assert items[..j + 1][..j] == items[..j];
      if l.id in db.products {
        var p := db.products[l.id];
        db.products := db.products[l.id := p.(stock := p.stock - l.quantity, totalSold := p.totalSold + l.quantity)];
      }
      j := j + 1;
    }
    assert items[..|items|] == items;
  }

  /** Every product keeps its other fields; its stock falls and its totalSold rises by what the lines ask of it. */
  lemma {:induction false} DeductEffect(products: map<int, Product>, lines: seq<OrderLine>, pid: int)
    requires pid in products
    ensures Deduct(products, lines)[pid]
         == products[pid].(stock := products[pid].stock - QtyFor(lines, pid),
                           totalSold := products[pid].totalSold + QtyFor(lines, pid))
  {
    if lines != [] {
      DeductEffect(products, lines[..|lines| - 1], pid);
    }
  }

  lemma {:induction false} QtyForUnnamed(lines: seq<OrderLine>, pid: int)
    requires forall i :: 0 <= i < |lines| ==> lines[i].id != pid
    ensures QtyFor(lines, pid) == 0
  {
    if lines != [] {
      QtyForUnnamed(lines[..|lines| - 1], pid);
    }
  }

  lemma {:induction false} QtyForSingle(lines: seq<OrderLine>, k: nat)
    requires k < |lines|
    requires forall i :: 0 <= i < |lines| && i != k ==> lines[i].id != lines[k].id
    ensures QtyFor(lines, lines[k].id) == lines[k].quantity
  {
    var n := |lines| - 1;
    if k == n {
      QtyForUnnamed(lines[..n], lines[k].id);
    } else {
      QtyForSingle(lines[..n], k);
    }
  }

  /** A product that no line names is left exactly as it was. */
  lemma UnnamedProductUntouched(products: map<int, Product>, lines: seq<OrderLine>, pid: int)
    requires pid in products
    requires forall i :: 0 <= i < |lines| ==> lines[i].id != pid
    ensures Deduct(products, lines)[pid] == products[pid]
  {
    DeductEffect(products, lines, pid);
    QtyForUnnamed(lines, pid);
  }

  /** With one line per product, that line's product loses exactly its quantity of stock and gains it in totalSold. */
  lemma DistinctLineDeductsItsQuantity(products: map<int, Product>, lines: seq<OrderLine>, k: nat)
    requires k < |lines| && lines[k].id in products
    requires forall i :: 0 <= i < |lines| && i != k ==> lines[i].id != lines[k].id
    ensures Deduct(products, lines)[lines[k].id].stock == products[lines[k].id].stock - lines[k].quantity
    ensures Deduct(products, lines)[lines[k].id].totalSold == products[lines[k].id].totalSold + lines[k].quantity
  {
    DeductEffect(products, lines, lines[k].id);
    QtyForSingle(lines, k);
  }

  /** A line with a non-positive quantity always passes the check against non-negative stock. */
  lemma NonPositiveQuantityPasses(products: map<int, Product>, l: OrderLine)
    requires l.id in products && products[l.id].stock >= 0 && l.quantity <= 0
    ensures LinePasses(products, l)
  {
  }

  /** As written: two lines for one product each pass against the old stock of 1, and the order takes stock to -1. */
  lemma DuplicateLinesOversell()
    ensures var products := map[1 := Product("Mango Tango", "", 12000, 1, 0, "", false)];
            var lines := [OrderLine(1, 1, 12000, "Mango Tango"), OrderLine(1, 1, 12000, "Mango Tango")];
            ShortfallIndex(products, lines, 0).None? && Deduct(products, lines)[1].stock == -1
  {
    var products := map[1 := Product("Mango Tango", "", 12000, 1, 0, "", false)];
    var lines := [OrderLine(1, 1, 12000, "Mango Tango"), OrderLine(1, 1, 12000, "Mango Tango")];
    DeductEffect(products, lines, 1);
    assert lines[..1][..0] == [];
  }

  /** The check the transaction evidently intends: each product's stock covers everything the order asks of it. */
  predicate DemandCovered(products: map<int, Product>, lines: seq<OrderLine>) {
    forall i :: 0 <= i < |lines| ==>
      lines[i].id in products && products[lines[i].id].stock >= QtyFor(lines, lines[i].id)
  }

  /** With the aggregated check, no deduction can take a non-negative stock below zero. */
  lemma DemandCoveredPreventsOversell(products: map<int, Product>, lines: seq<OrderLine>)
    requires forall pid :: pid in products ==> products[pid].stock >= 0
    requires DemandCovered(products, lines)
    ensures forall pid :: pid in Deduct(products, lines) ==> Deduct(products, lines)[pid].stock >= 0
  {
    forall pid | pid in products
      ensures Deduct(products, lines)[pid].stock >= 0
    {
      DeductEffect(products, lines, pid);
      if forall i :: 0 <= i < |lines| ==> lines[i].id != pid {
        QtyForUnnamed(lines, pid);
      }
    }
  }

  /** The aggregated check rejects the duplicate-line order that the per-line check lets through. */
  lemma DemandCoveredRejectsDuplicates()
    ensures !DemandCovered(map[1 := Product("Mango Tango", "", 12000, 1, 0, "", false)],
                           [OrderLine(1, 1, 12000, "Mango Tango"), OrderLine(1, 1, 12000, "Mango Tango")])
  {
    var lines := [OrderLine(1, 1, 12000, "Mango Tango"), OrderLine(1, 1, 12000, "Mango Tango")];
    assert lines[..1][..0] == [];
    assert QtyFor(lines, 1) == 2;
  }

  /** The `where` clause `getOrders` builds. */
  datatype OrderScope = AllOrders | OwnedBy(userId: Option<int>)

  /** `?userId=` as `getOrders` reads it: absent or empty, an integer, or text that is not one. */
  datatype UserIdQuery = NoQuery | IntegerQuery(n: int) | NonIntegerQuery

  /**
   * `getOrders`: admins see everything, narrowed to `?userId=` when given; anyone else sees
   * their own. An admin's non-integer `?userId=` reaches the query as `NaN`, which the database
   * rejects, and the handler answers 500.
   */
  function OrdersScope(user: AuthMiddleware.Claims, query: UserIdQuery): (w: Reply<OrderScope>)
    ensures user.role != "admin" ==> w == Ok(200, OwnedBy(Some(user.id)))
    ensures user.role == "admin" && query.NoQuery? ==> w == Ok(200, AllOrders)
    ensures user.role == "admin" && query.IntegerQuery? ==> w == Ok(200, OwnedBy(Some(query.n)))
    ensures w.Err? <==> user.role == "admin" && query.NonIntegerQuery?
    ensures w.Err? ==> w == Err(500, "Failed to fetch orders")
  {
    var isAdmin := user.role == "admin";
    if !isAdmin then Ok(200, OwnedBy(Some(user.id)))
    else match query
      case NoQuery => Ok(200, AllOrders)
      case IntegerQuery(n) => Ok(200, OwnedBy(Some(n)))
      case NonIntegerQuery => Err(500, "Failed to fetch orders")
  }

  predicate InScope(w: OrderScope, o: Order) {
    match w
    case AllOrders => true
    case OwnedBy(uid) => o.userId == uid
  }

  /** A reply to `getOrders`: every order in scope exactly once, newest first. */
  ghost predicate IsOrdersReply(orders: map<int, Order>, w: OrderScope, reply: seq<int>) {
    && (forall i :: 0 <= i < |reply| ==> reply[i] in orders)
    && (forall i, j :: 0 <= i < j < |reply| ==> reply[i] != reply[j])
    && (forall id :: id in orders ==> (InScope(w, orders[id]) <==> id in reply))
    && (forall i, j :: 0 <= i < j < |reply| ==> orders[reply[i]].createdAt >= orders[reply[j]].createdAt)
  }

  /** A non-admin's order list holds only orders they own, whatever the query says. */
  lemma NonAdminSeesOnlyOwnOrders(orders: map<int, Order>, user: AuthMiddleware.Claims,
                                  q: UserIdQuery, reply: seq<int>, i: nat)
    requires user.role != "admin"
    requires IsOrdersReply(orders, OrdersScope(user, q).body, reply)
    requires i < |reply|
    ensures orders[reply[i]].userId == Some(user.id)
  {
    var id := reply[i];
    assert id in reply;
  }

  /** `getOrderById`: 400 for an unparsable id, 404 for a missing order, 403 for a non-admin non-owner. */
  function GetOrderById(orders: map<int, Order>, orderId: Option<int>, user: AuthMiddleware.Claims): (r: Reply<Order>)
    ensures orderId.None? ==> r == Err(400, "Invalid order ID")
    ensures orderId.Some? && orderId.value !in orders ==> r == Err(404, "Order not found")
    ensures r.Ok? <==> (orderId.Some? && orderId.value in orders
                        && (user.role == "admin" || orders[orderId.value].userId == Some(user.id)))
    ensures r.Ok? ==> r.status == 200 && r.body == orders[orderId.value]
    ensures r.Err? && r.status == 403 ==> user.role != "admin"
  {
    var isAdmin := user.role == "admin";
    if orderId.None? then Err(400, "Invalid order ID")
    else if orderId.value !in orders then Err(404, "Order not found")
    else if !isAdmin && orders[orderId.value].userId != Some(user.id) then
      Err(403, "Access denied: You can only view your own orders")
    else Ok(200, orders[orderId.value])
  }

  /** The body's `status` as the update sees it: absent, one of the enum's names, or anything else. */
  datatype StatusField = NoStatus | KnownStatus(s: OrderStatus) | UnknownStatus

  /**
   * `updateOrderStatus`: overwrites the status and decline reason with what the body carries
   * (a field that is absent stays as it was); no transition check and no restock. A missing
   * order, or a status the enum does not name, makes the update throw, which answers 500.
   */
  method UpdateOrderStatus(db: Database, orderId: Option<int>, status: StatusField,
                           declineReason: Option<Option<string>>) returns (r: Reply<Order>)
    requires db.Valid()
    modifies db`orders
    ensures db.Valid()
    ensures (orderId.None? || orderId.value !in old(db.orders) || status.UnknownStatus?) ==>
              r == Err(500, "Failed to update order") && db.orders == old(db.orders)
    ensures orderId.Some? && orderId.value in old(db.orders) && !status.UnknownStatus? ==>
              var o := old(db.orders)[orderId.value];
              var o' := o.(status := if status.KnownStatus? then status.s else o.status,
                           declineReason := declineReason.GetOr(o.declineReason));
              r == Ok(200, o') && db.orders == old(db.orders)[orderId.value := o']
  {
    if orderId.None? || orderId.value !in db.orders || status.UnknownStatus? {
      return Err(500, "Failed to update order");
    }
    var o := db.orders[orderId.value];
    var o' := o.(status := if status.KnownStatus? then status.s else o.status,
                 declineReason := declineReason.GetOr(o.declineReason));
    db.orders := db.orders[orderId.value := o'];
    r := Ok(200, o');
  }
}
