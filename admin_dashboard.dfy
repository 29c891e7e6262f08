/**
 * The admin dashboard's lists of orders and products and the handlers that update them
 * after a request: status changes, delete, duplicate, feature toggle (optimistic, reverted
 * on failure) and save. The order table offers actions by status. Server replies are
 * parameters: `None` or `false` stands for a request that failed.
 */
module AdminDashboard {
  import opened Common
  import opened Db

  /** The fields of a listed order the handlers touch. */
  datatype DashOrder = DashOrder(id: int, status: OrderStatus, declineReason: Option<string>, total: int)

  /** The fields of a listed product the handlers touch. */
  datatype DashProduct = DashProduct(id: int, name: string, price: int, stock: int, isFeatured: bool)

  /** `PUT /orders/<id>/status` with its body. */
  datatype StatusRequest = StatusRequest(orderId: int, status: OrderStatus, declineReason: Option<string>)

  /** The buttons of an order row. */
  function Actions(s: OrderStatus): seq<OrderStatus> {
    match s
    case PENDING => [APPROVED, CANCELLED]
    case APPROVED => [DELIVERED]
    case DELIVERED => []
    case CANCELLED => []
  }

  /**
   * The only transitions offered are PENDING→APPROVED, PENDING→CANCELLED and
   * APPROVED→DELIVERED; delivered and cancelled orders offer none, so any path of offered
   * steps ends within two steps and never returns to an earlier status.
   */
  lemma OfferedTransitions(s: OrderStatus, t: OrderStatus, u: OrderStatus)
    ensures t in Actions(s) <==> (s == PENDING && (t == APPROVED || t == CANCELLED)) || (s == APPROVED && t == DELIVERED)
    ensures s == DELIVERED || s == CANCELLED ==> Actions(s) == []
    ensures t in Actions(s) && u in Actions(t) ==> Actions(u) == [] && s !in Actions(u)
  {
  }

  /** `orders.map(o => o.id === id ? {...o, status, declineReason} : o)`. */
  function WithStatus(orders: seq<DashOrder>, id: int, status: OrderStatus, reason: Option<string>): seq<DashOrder> {
    seq(|orders|, i requires 0 <= i < |orders| =>
      if orders[i].id == id then orders[i].(status := status, declineReason := reason) else orders[i])
  }

  /** `products.map(p => p.id === id ? {...p, isFeatured: flag} : p)`. */
  function WithFeatured(products: seq<DashProduct>, id: int, flag: bool): seq<DashProduct> {
    seq(|products|, i requires 0 <= i < |products| =>
      if products[i].id == id then products[i].(isFeatured := flag) else products[i])
  }

  /** `products.map(p => p.id === id ? saved : p)`. */
  function Replace(products: seq<DashProduct>, id: int, saved: DashProduct): seq<DashProduct> {
    seq(|products|, i requires 0 <= i < |products| => if products[i].id == id then saved else products[i])
  }

  /** `products.filter(p => p.id !== id)`. */
  function WithoutProduct(products: seq<DashProduct>, id: int): seq<DashProduct> {
    Filter(products, (p: DashProduct) => p.id != id)
  }

  /** The dashboard's lists never hold two rows with the same id. */
  predicate UniqueProductIds(products: seq<DashProduct>) {
    DistinctBy(products, (p: DashProduct) => p.id)
  }

  /**
   * A status update changes only the orders with that id, and exactly their status and
   * reason; repeating it changes nothing more.
   */
  lemma StatusUpdateTouchesOnlyThatOrder(orders: seq<DashOrder>, id: int, status: OrderStatus, reason: Option<string>)
    ensures var r := WithStatus(orders, id, status, reason);
      && |r| == |orders|
      && (forall i :: 0 <= i < |r| && orders[i].id != id ==> r[i] == orders[i])
      && (forall i :: 0 <= i < |r| && orders[i].id == id ==>
            r[i].status == status && r[i].declineReason == reason && r[i].total == orders[i].total)
      && WithStatus(r, id, status, reason) == r
  {
  }

  /**
   * The toggle's revert restores the list when the flag it passes is the product's current
   * one; flipping and reverting therefore gives back the list the click started from.
   */
  lemma ToggleRevertRestores(products: seq<DashProduct>, id: int, current: bool)
    requires forall i :: 0 <= i < |products| && products[i].id == id ==> products[i].isFeatured == current
    ensures WithFeatured(products, id, current) == products
    ensures WithFeatured(WithFeatured(products, id, !current), id, current) == products
  {
  }

  /** Deleting removes exactly that id, keeps every other row and keeps ids unique. */
  lemma DeleteEffect(products: seq<DashProduct>, id: int)
    requires UniqueProductIds(products)
    ensures forall p :: p in WithoutProduct(products, id) <==> p in products && p.id != id
    ensures UniqueProductIds(WithoutProduct(products, id))
  {
    FilterKeepsDistinctBy(products, (p: DashProduct) => p.id != id, (p: DashProduct) => p.id);
  }

  /** Saving an edit in place (the server copy keeps its id) keeps ids unique and the row count. */
  lemma SaveEditKeepsIds(products: seq<DashProduct>, id: int, saved: DashProduct)
    requires UniqueProductIds(products) && saved.id == id
    ensures |Replace(products, id, saved)| == |products|
    ensures UniqueProductIds(Replace(products, id, saved))
    ensures forall i :: 0 <= i < |products| && products[i].id == id ==> Replace(products, id, saved)[i] == saved
  {
    var r := Replace(products, id, saved);
    forall i, j | 0 <= i < j < |r|
      ensures r[i].id != r[j].id
    {
      assert r[i].id == products[i].id && r[j].id == products[j].id;
    }
  }

  /** Appending a server copy with a fresh id keeps ids unique. */
  lemma AppendFreshKeepsIds(products: seq<DashProduct>, p: DashProduct)
    requires UniqueProductIds(products)
    requires forall i :: 0 <= i < |products| ==> products[i].id != p.id
    ensures UniqueProductIds(products + [p])
  {
    var r := products + [p];
    forall i, j | 0 <= i < j < |r|
      ensures r[i].id != r[j].id
    {
      if j == |products| {
        assert r[i] == products[i];
      } else {
        assert r[i] == products[i] && r[j] == products[j];
      }
    }
  }

  class Dashboard {
    var orders: seq<DashOrder>
    var products: seq<DashProduct>

    constructor()
      ensures orders == [] && products == []
    {
      orders := [];
      products := [];
    }

    /**
     * `handleStatusUpdate`, with `reason` for the prompt's answer. A cancellation without a
     * reason sends nothing; other statuses send a null reason. Only a successful request
     * updates the list.
     */
    method HandleStatusUpdate(id: int, status: OrderStatus, reason: Option<string>, ok: bool)
      returns (sent: Option<StatusRequest>)
      modifies this
      ensures products == old(products)
      ensures status == CANCELLED && !TruthyString(reason) ==> sent.None? && orders == old(orders)
      ensures status != CANCELLED ==> sent == Some(StatusRequest(id, status, None))
      ensures status == CANCELLED && TruthyString(reason) ==> sent == Some(StatusRequest(id, status, reason))
      ensures orders == (if sent.Some? && ok then WithStatus(old(orders), id, status, sent.value.declineReason) else old(orders))
    {
      var declineReason: Option<string> := None;
      if status == CANCELLED {
        declineReason := reason;
        if !TruthyString(declineReason) {
          return None;
        }
      }
      sent := Some(StatusRequest(id, status, declineReason));
      if ok {
        orders := WithStatus(orders, id, status, declineReason);
      }
    }

    /** `handleDeleteProduct`: only a confirmed and successful delete removes the row. */
    method HandleDeleteProduct(id: int, confirmed: bool, ok: bool) returns (sent: bool)
      modifies this
      ensures orders == old(orders)
      ensures sent == confirmed
      ensures products == (if confirmed && ok then WithoutProduct(old(products), id) else old(products))
    {
      if !confirmed {
        return false;
      }
      sent := true;
      if ok {
        products := WithoutProduct(products, id);
      }
    }

    /** `handleDuplicateProduct`: the server's copy is appended at the end. */
    method HandleDuplicateProduct(id: int, reply: Option<DashProduct>)
      modifies this
      ensures orders == old(orders)
      ensures products == (if reply.Some? then old(products) + [reply.value] else old(products))
    {
      if reply.Some? {
        products := products + [reply.value];
      }
    }

    /**
     * `handleToggleFeature`: the flag is flipped at once; if the request fails, the list
     * is rebuilt from the list the click started from, with the flag passed in.
     */
    method HandleToggleFeature(id: int, current: bool, ok: bool)
      modifies this
      ensures orders == old(orders)
      ensures ok ==> products == WithFeatured(old(products), id, !current)
      ensures !ok ==> products == WithFeatured(old(products), id, current)
    {
      var before := products;
      products := WithFeatured(before, id, !current);
      if !ok {
        products := WithFeatured(before, id, current);
      }
    }

    /**
     * `handleSaveProduct`, with `editing` for the id of the product being edited: the
     * server's copy replaces it, or is appended for a new product; a failure is rethrown
     * to the form and the list is left as it was.
     */
    method HandleSaveProduct(editing: Option<int>, reply: Option<DashProduct>) returns (ok: bool)
      modifies this
      ensures orders == old(orders)
      ensures ok <==> reply.Some?
      ensures reply.Some? && editing.Some? ==> products == Replace(old(products), editing.value, reply.value)
      ensures reply.Some? && editing.None? ==> products == old(products) + [reply.value]
      ensures reply.None? ==> products == old(products)
    {
      if reply.None? {
        return false;
      }
      if editing.Some? {
        products := Replace(products, editing.value, reply.value);
      } else {
        products := products + [reply.value];
      }
      ok := true;
    }
  }
}
