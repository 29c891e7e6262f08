/**
 * The browser's cart store: one list of lines. A guest's updates are list expressions over
 * it (append or bump on add, filter on remove, map on quantity change); a signed-in user's
 * updates are sent to the server and the list is then replaced by the server's lines.
 * Server replies are parameters: `None` stands for a request that failed.
 */
module CartStore {
  import opened Common

  /** A cart line as the store keeps it; `cartItemId` is the server line id, absent for a guest line. */
  datatype CartLine = CartLine(cartItemId: Option<int>, productId: int, name: string, price: int, quantity: int, imageUrl: string)

  /** What `addItem` is given: a line without `cartItemId`. */
  datatype NewLine = NewLine(productId: int, name: string, price: int, quantity: int, imageUrl: string)

  /** A line of `GET /cart` with its joined product. */
  datatype ServerProduct = ServerProduct(name: string, price: int, imageUrl: string, image: string)
  datatype ServerLine = ServerLine(id: int, productId: int, quantity: int, product: ServerProduct)

  /** The requests the store sends for a signed-in user. */
  datatype CartRequest =
    | PostItem(productId: int, quantity: int)
    | DeleteItem(itemId: int)
    | PutItem(itemId: int, quantity: int)

  /** One `{productId, quantity}` entry of the merge payload login posts. */
  datatype MergeLine = MergeLine(productId: int, quantity: int)

  function FromServer(l: ServerLine): CartLine {
    CartLine(Some(l.id), l.productId, l.product.name, l.product.price, l.quantity,
             if l.product.imageUrl != "" then l.product.imageUrl else l.product.image)
  }

  /**
   * `syncCart`'s mapping of the server lines: one line per server line, in order, carrying its
   * server id, product and quantity, and the product's image when its `imageUrl` is empty.
   */
  function Synced(ls: seq<ServerLine>): (r: seq<CartLine>)
    ensures |r| == |ls|
    ensures forall i :: 0 <= i < |r| ==>
              && r[i].cartItemId == Some(ls[i].id) && r[i].productId == ls[i].productId
              && r[i].quantity == ls[i].quantity && r[i].price == ls[i].product.price
              && r[i].name == ls[i].product.name
    ensures forall i :: 0 <= i < |r| ==>
              r[i].imageUrl == (if ls[i].product.imageUrl != "" then ls[i].product.imageUrl else ls[i].product.image)
    ensures forall i :: 0 <= i < |r| ==>
              (r[i].imageUrl == "" <==> ls[i].product.imageUrl == "" && ls[i].product.image == "")
  {
    seq(|ls|, i requires 0 <= i < |ls| => FromServer(ls[i]))
  }

  predicate HasLine(items: seq<CartLine>, pid: int) {
    exists i :: 0 <= i < |items| && items[i].productId == pid
  }

  /** The invariant the guest updates aim at: no two lines for the same product. */
  predicate OneLinePerProduct(items: seq<CartLine>) {
    forall i, j :: 0 <= i < j < |items| ==> items[i].productId != items[j].productId
  }

  /** Every line has a positive quantity. */
  predicate PositiveQuantities(items: seq<CartLine>) {
    forall i :: 0 <= i < |items| ==> items[i].quantity > 0
  }

  /** `items.find(i => i.productId === pid)`: the first line for the product. */
  function FirstIndex(items: seq<CartLine>, pid: int, from: nat): (r: Option<nat>)
    requires from <= |items|
    ensures r.Some? ==> from <= r.value < |items| && items[r.value].productId == pid
    ensures r.Some? ==> forall j :: from <= j < r.value ==> items[j].productId != pid
    ensures r.None? ==> forall j :: from <= j < |items| ==> items[j].productId != pid
    decreases |items| - from
  {
    if from == |items| then None
    else if items[from].productId == pid then Some(from)
    else FirstIndex(items, pid, from + 1)
  }

  /** `item?.cartItemId` when it is truthy: the server id a signed-in update can use. */
  function ServerIdOf(items: seq<CartLine>, pid: int): (r: Option<int>)
    ensures r.Some? <==> HasLine(items, pid) && TruthyId(items[FirstIndex(items, pid, 0).value].cartItemId)
    ensures r.Some? ==> r.value != 0
  {
    match FirstIndex(items, pid, 0)
    case None => None
    case Some(i) => if TruthyId(items[i].cartItemId) then items[i].cartItemId else None
  }

  /** Total quantity held for a product. */
  function QtyOf(items: seq<CartLine>, pid: int): int {
    if items == [] then 0
    else QtyOf(items[..|items| - 1], pid) + (if items[|items| - 1].productId == pid then items[|items| - 1].quantity else 0)
  }

  /** `total()`: Σ price × quantity, folded from the left; never negative for non-negative lines. */
  function LinesTotal(items: seq<CartLine>): (r: int)
    ensures (forall i :: 0 <= i < |items| ==> items[i].price >= 0 && items[i].quantity >= 0) ==> r >= 0
  {
    if items == [] then 0
    else LinesTotal(items[..|items| - 1]) + items[|items| - 1].price * items[|items| - 1].quantity
  }

  /** The guest map of `addItem`: add `q` to every line of the product. */
  function Bump(items: seq<CartLine>, pid: int, q: int): (r: seq<CartLine>)
    ensures |r| == |items|
    ensures forall i :: 0 <= i < |r| ==> r[i].productId == items[i].productId
    ensures forall i :: 0 <= i < |r| && items[i].productId != pid ==> r[i] == items[i]
    ensures forall i :: 0 <= i < |r| && items[i].productId == pid ==> r[i] == items[i].(quantity := items[i].quantity + q)
  {
    if items == [] then []
    else
      var x := items[|items| - 1];
      Bump(items[..|items| - 1], pid, q) + [if x.productId == pid then x.(quantity := x.quantity + q) else x]
  }

  /** The guest map of `updateQuantity`: set the quantity of every line of the product, whatever `q` is. */
  function SetQty(items: seq<CartLine>, pid: int, q: int): (r: seq<CartLine>)
    ensures |r| == |items|
    ensures forall i :: 0 <= i < |r| ==> r[i].productId == items[i].productId
    ensures forall i :: 0 <= i < |r| && items[i].productId != pid ==> r[i] == items[i]
    ensures forall i :: 0 <= i < |r| && items[i].productId == pid ==> r[i] == items[i].(quantity := q)
  {
    if items == [] then []
    else
      var x := items[|items| - 1];
      SetQty(items[..|items| - 1], pid, q) + [if x.productId == pid then x.(quantity := q) else x]
  }

  /**
   * Guest `addItem`: bump the existing line, or append the new one at the end. The product is
   * in the cart afterwards, at most one line is added, and other products' lines stay in place.
   */
  function GuestAdd(items: seq<CartLine>, n: NewLine): (r: seq<CartLine>)
    ensures HasLine(r, n.productId)
    ensures |items| <= |r| <= |items| + 1
    ensures forall i :: 0 <= i < |items| && items[i].productId != n.productId ==> r[i] == items[i]
  {
    if HasLine(items, n.productId) then
      var r := Bump(items, n.productId, n.quantity);
      assert r[FirstIndex(items, n.productId, 0).value].productId == n.productId;
      r
    else
      var r := items + [CartLine(None, n.productId, n.name, n.price, n.quantity, n.imageUrl)];
      assert r[|items|].productId == n.productId;
      r
  }

  /** Guest `removeItem`: drop every line of the product and keep every other line. */
  function GuestRemove(items: seq<CartLine>, pid: int): (r: seq<CartLine>)
    ensures !HasLine(r, pid)
    ensures forall x :: x in r <==> x in items && x.productId != pid
  {
    var r := Filter(items, (l: CartLine) => l.productId != pid);
    assert forall i :: 0 <= i < |r| ==> r[i] in r;
    r
  }

  /**
   * Guest `updateQuantity`, as written: the quantity is stored even when it is 0 or negative,
   * so no line is ever removed; other products' lines are untouched.
   */
  function GuestUpdate(items: seq<CartLine>, pid: int, q: int): (r: seq<CartLine>)
    ensures |r| == |items| && (HasLine(r, pid) <==> HasLine(items, pid))
    ensures forall i :: 0 <= i < |r| && items[i].productId == pid ==> r[i] == items[i].(quantity := q)
    ensures forall i :: 0 <= i < |r| && items[i].productId != pid ==> r[i] == items[i]
  {
    var r := SetQty(items, pid, q);
    assert HasLine(items, pid) ==> r[FirstIndex(items, pid, 0).value].productId == pid;
    assert HasLine(r, pid) ==> items[FirstIndex(r, pid, 0).value].productId == pid;
    r
  }

  /** Guest `updateQuantity` as the server's `updateCartItem` behaves: a quantity ≤ 0 removes the line. */
  function GuestUpdateDeleting(items: seq<CartLine>, pid: int, q: int): (r: seq<CartLine>)
    ensures q <= 0 ==> !HasLine(r, pid)
    ensures q > 0 ==> |r| == |items|
  {
    if q <= 0 then GuestRemove(items, pid) else SetQty(items, pid, q)
  }

  /** The merge payload: the `(productId, quantity)` of each local line, in order. */
  function MergePayload(items: seq<CartLine>): seq<MergeLine> {
    seq(|items|, i requires 0 <= i < |items| => MergeLine(items[i].productId, items[i].quantity))
  }

  // ---------------------------------------------------------------------------------------
  // Quantity bookkeeping of the guest updates

  lemma {:induction false} QtyOfAppend(items: seq<CartLine>, x: CartLine, pid: int)
    ensures QtyOf(items + [x], pid) == QtyOf(items, pid) + (if x.productId == pid then x.quantity else 0)
  {
    assert (items + [x])[..|items|] == items;
  }

  lemma {:induction false} QtyOfAbsent(items: seq<CartLine>, pid: int)
    requires !HasLine(items, pid)
    ensures QtyOf(items, pid) == 0
  {
    if items != [] {
      QtyOfAbsent(items[..|items| - 1], pid);
    }
  }

  /** How a cart splits into its front and its last line. */
  lemma LastLineSplit(items: seq<CartLine>, pid: int)
    requires items != []
    ensures var n := |items| - 1;
      && items == items[..n] + [items[n]]
      && (HasLine(items, pid) <==> HasLine(items[..n], pid) || items[n].productId == pid)
      && (OneLinePerProduct(items) ==> OneLinePerProduct(items[..n]))
      && (OneLinePerProduct(items) && items[n].productId == pid ==> !HasLine(items[..n], pid))
  {
    var n := |items| - 1;
    var pre := items[..n];
    if HasLine(items, pid) && items[n].productId != pid {
      var i :| 0 <= i < |items| && items[i].productId == pid;
      assert pre[i] == items[i];
    }
    if HasLine(pre, pid) {
      var i :| 0 <= i < |pre| && pre[i].productId == pid;
      assert items[i] == pre[i];
    }
  }

  /** Under one line per product, bumping adds `q` to that product and nothing to the others. */
  lemma {:induction false} QtyOfBump(items: seq<CartLine>, pid: int, q: int, p: int)
    requires OneLinePerProduct(items)
    ensures QtyOf(Bump(items, pid, q), p) == QtyOf(items, p) + (if p == pid && HasLine(items, pid) then q else 0)
  {
    if items != [] {
      var n := |items| - 1;
      var pre, x := items[..n], items[n];
      LastLineSplit(items, pid);
      var b := Bump(items, pid, q);
      assert b == Bump(pre, pid, q) + [b[n]];
      QtyOfBump(pre, pid, q, p);
      QtyOfAppend(Bump(pre, pid, q), b[n], p);
      QtyOfAppend(pre, x, p);
    }
  }

  /** Setting a quantity makes the product's total exactly that quantity and leaves the others. */
  lemma {:induction false} QtyOfSetQty(items: seq<CartLine>, pid: int, q: int, p: int)
    requires OneLinePerProduct(items)
    ensures QtyOf(SetQty(items, pid, q), p) == (if p == pid && HasLine(items, pid) then q else QtyOf(items, p))
  {
    if items != [] {
      var n := |items| - 1;
      var pre, x := items[..n], items[n];
      LastLineSplit(items, pid);
      var s := SetQty(items, pid, q);
      assert s == SetQty(pre, pid, q) + [s[n]];
      QtyOfSetQty(pre, pid, q, p);
      QtyOfAppend(SetQty(pre, pid, q), s[n], p);
      QtyOfAppend(pre, x, p);
      if x.productId == pid && p == pid {
        QtyOfAbsent(pre, pid);
      }
    }
  }

  /** Removing a product's lines leaves every other product's quantity as it was. */
  lemma {:induction false} QtyOfGuestRemove(items: seq<CartLine>, pid: int, p: int)
    ensures QtyOf(GuestRemove(items, pid), p) == (if p == pid then 0 else QtyOf(items, p))
  {
    if items != [] {
      var n := |items| - 1;
      var pre := items[..n];
      assert items == pre + [items[n]];
      var keep := (l: CartLine) => l.productId != pid;
      assert GuestRemove(items, pid) == Filter(pre, keep) + (if keep(items[n]) then [items[n]] else []);
      QtyOfGuestRemove(pre, pid, p);
      QtyOfAppend(pre, items[n], p);
      if keep(items[n]) {
        QtyOfAppend(Filter(pre, keep), items[n], p);
      } else {
        assert Filter(pre, keep) + [] == Filter(pre, keep);
      }
    }
  }

  // ---------------------------------------------------------------------------------------
  // The guest updates, as the store promises them

  /**
   * Guest `addItem`: an existing product's line grows by the added quantity and no line is
   * added; otherwise the item is appended at the end. Every other product is untouched, and
   * one line per product is kept.
   */
  lemma GuestAddEffect(items: seq<CartLine>, n: NewLine, p: int)
    requires OneLinePerProduct(items)
    ensures var r := GuestAdd(items, n);
      && OneLinePerProduct(r)
      && |r| == |items| + (if HasLine(items, n.productId) then 0 else 1)
      && (!HasLine(items, n.productId) ==> r == items + [CartLine(None, n.productId, n.name, n.price, n.quantity, n.imageUrl)])
      && (forall i :: 0 <= i < |items| && items[i].productId != n.productId ==> r[i] == items[i])
      && QtyOf(r, p) == QtyOf(items, p) + (if p == n.productId then n.quantity else 0)
  {
    var r := GuestAdd(items, n);
    if HasLine(items, n.productId) {
      QtyOfBump(items, n.productId, n.quantity, p);
    } else {
      var x := CartLine(None, n.productId, n.name, n.price, n.quantity, n.imageUrl);
      QtyOfAppend(items, x, p);
      if p == n.productId {
        QtyOfAbsent(items, p);
      }
      assert r[..|items|] == items;
      forall i, j | 0 <= i < j < |r|
        ensures r[i].productId != r[j].productId
      {
        if j == |items| {
          assert r[i] == items[i];
        }
      }
    }
  }

  /** Guest removal keeps the survivors in their order: it distributes over concatenation. */
  lemma GuestRemoveKeepsOrder(a: seq<CartLine>, b: seq<CartLine>, pid: int)
    ensures GuestRemove(a + b, pid) == GuestRemove(a, pid) + GuestRemove(b, pid)
  {
    FilterAppend(a, b, (l: CartLine) => l.productId != pid);
  }

  /**
   * Guest `removeItem`: no line of the product survives, every other line survives with its
   * product's quantity, one line per product is kept, and an absent product changes nothing.
   * The survivors' order is `GuestRemoveKeepsOrder`.
   */
  lemma GuestRemoveEffect(items: seq<CartLine>, pid: int, p: int)
    requires OneLinePerProduct(items)
    ensures var r := GuestRemove(items, pid);
      && !HasLine(r, pid)
      && (forall x :: x in items && x.productId != pid ==> x in r)
      && OneLinePerProduct(r)
      && QtyOf(r, p) == (if p == pid then 0 else QtyOf(items, p))
      && (!HasLine(items, pid) ==> r == items)
  {
    var keep := (l: CartLine) => l.productId != pid;
    var r := GuestRemove(items, pid);
    QtyOfGuestRemove(items, pid, p);
    forall i | 0 <= i < |r|
      ensures r[i].productId != pid
    {
      assert r[i] in r;
    }
    FilterKeepsDistinct(items, keep);
    if !HasLine(items, pid) {
      forall x | x in items
        ensures keep(x)
      {
        var i :| 0 <= i < |items| && items[i] == x;
      }
      FilterKeepsAll(items, keep);
    }
  }

  lemma FilterKeepsDistinct(items: seq<CartLine>, keep: CartLine -> bool)
    requires OneLinePerProduct(items)
    ensures OneLinePerProduct(Filter(items, keep))
  {
    var key := (l: CartLine) => l.productId;
    FilterKeepsDistinctBy(items, keep, key);
  }

  /**
   * Guest `updateQuantity`, as written: the product's lines take the new quantity and keep
   * their place, the others are untouched, and one line per product is kept.
   */
  lemma GuestUpdateEffect(items: seq<CartLine>, pid: int, q: int, p: int)
    requires OneLinePerProduct(items)
    ensures var r := GuestUpdate(items, pid, q);
      && |r| == |items| && OneLinePerProduct(r)
      && QtyOf(r, p) == (if p == pid && HasLine(items, pid) then q else QtyOf(items, p))
  {
    QtyOfSetQty(items, pid, q, p);
  }

  /** As written, updating a guest line to 0 keeps the line with quantity 0 (the server deletes it). */
  lemma GuestUpdateStoresZero(items: seq<CartLine>, pid: int)
    requires HasLine(items, pid)
    ensures HasLine(GuestUpdate(items, pid, 0), pid)
    ensures !PositiveQuantities(GuestUpdate(items, pid, 0))
  {
    var i :| 0 <= i < |items| && items[i].productId == pid;
    var r := GuestUpdate(items, pid, 0);
    assert r[i].productId == pid && r[i].quantity == 0;
  }

  /** The deleting update keeps every quantity positive, and one line per product. */
  lemma GuestUpdateDeletingKeepsPositive(items: seq<CartLine>, pid: int, q: int)
    requires OneLinePerProduct(items) && PositiveQuantities(items)
    ensures PositiveQuantities(GuestUpdateDeleting(items, pid, q))
    ensures OneLinePerProduct(GuestUpdateDeleting(items, pid, q))
    ensures q <= 0 ==> !HasLine(GuestUpdateDeleting(items, pid, q), pid)
  {
    var r := GuestUpdateDeleting(items, pid, q);
    if q <= 0 {
      GuestRemoveEffect(items, pid, pid);
      forall i | 0 <= i < |r|
        ensures r[i].quantity > 0
      {
        assert r[i] in r;
        var k :| 0 <= k < |items| && items[k] == r[i];
      }
    }
  }

  // ---------------------------------------------------------------------------------------
  // Totals

  lemma {:induction false} LinesTotalAppend(a: seq<CartLine>, b: seq<CartLine>)
    ensures LinesTotal(a + b) == LinesTotal(a) + LinesTotal(b)
  {
    if b == [] {
      assert a + b == a;
    } else {
      assert (a + b)[..|a + b| - 1] == a + b[..|b| - 1];
      LinesTotalAppend(a, b[..|b| - 1]);
    }
  }

  /** Adding a new product to a guest cart raises the total by that line's price × quantity. */
  lemma NewProductRaisesTotal(items: seq<CartLine>, n: NewLine)
    requires !HasLine(items, n.productId)
    ensures LinesTotal(GuestAdd(items, n)) == LinesTotal(items) + n.price * n.quantity
  {
    var x := CartLine(None, n.productId, n.name, n.price, n.quantity, n.imageUrl);
    assert (items + [x])[..|items|] == items;
  }

  // ---------------------------------------------------------------------------------------
  // The store

  class CartStore {
    var items: seq<CartLine>

    /** The store starts with an empty list (before any persisted list is restored). */
    constructor()
      ensures items == []
    {
      items := [];
    }

    /** `syncCart`: the list becomes the server's lines; a failed fetch leaves it as it was. */
    method SyncCart(fetched: Option<seq<ServerLine>>)
      modifies this
      ensures fetched.Some? ==> items == Synced(fetched.value)
      ensures fetched.None? ==> items == old(items)
    {
      if fetched.Some? {
        items := Synced(fetched.value);
      }
    }

    /**
     * `addItem`. A guest's item is added locally. A signed-in user's item is posted as
     * `{productId, quantity}`; only when the post succeeds is the list re-synced.
     */
    method AddItem(isAuthenticated: bool, n: NewLine, posted: bool, fetched: Option<seq<ServerLine>>)
      returns (sent: Option<CartRequest>)
      modifies this
      ensures !isAuthenticated ==> sent.None? && items == GuestAdd(old(items), n)
      ensures isAuthenticated ==> sent == Some(PostItem(n.productId, n.quantity))
      ensures isAuthenticated ==> items == (if posted && fetched.Some? then Synced(fetched.value) else old(items))
    {
      if isAuthenticated {
        sent := Some(PostItem(n.productId, n.quantity));
        if posted {
          SyncCart(fetched);
        }
      } else {
        sent := None;
        items := GuestAdd(items, n);
      }
    }

    /**
     * `removeItem`. A signed-in user's removal needs the first matching line to carry a
     * truthy server id: without one nothing is sent and nothing changes.
     */
    method RemoveItem(isAuthenticated: bool, pid: int, deleted: bool, fetched: Option<seq<ServerLine>>)
      returns (sent: Option<CartRequest>)
      modifies this
      ensures !isAuthenticated ==> sent.None? && items == GuestRemove(old(items), pid)
      ensures isAuthenticated && ServerIdOf(old(items), pid).None? ==> sent.None? && items == old(items)
      ensures isAuthenticated && ServerIdOf(old(items), pid).Some? ==>
                sent == Some(DeleteItem(ServerIdOf(old(items), pid).value))
                && items == (if deleted && fetched.Some? then Synced(fetched.value) else old(items))
    {
      var id := ServerIdOf(items, pid);
      if isAuthenticated {
        if id.None? {
          return None;
        }
        sent := Some(DeleteItem(id.value));
        if deleted {
          SyncCart(fetched);
        }
      } else {
        sent := None;
        items := GuestRemove(items, pid);
      }
    }

    /** `updateQuantity`: as `removeItem`, with a `PUT {quantity}` for a signed-in user. */
    method UpdateQuantity(isAuthenticated: bool, pid: int, q: int, updated: bool, fetched: Option<seq<ServerLine>>)
      returns (sent: Option<CartRequest>)
      modifies this
      ensures !isAuthenticated ==> sent.None? && items == GuestUpdate(old(items), pid, q)
      ensures isAuthenticated && ServerIdOf(old(items), pid).None? ==> sent.None? && items == old(items)
      ensures isAuthenticated && ServerIdOf(old(items), pid).Some? ==>
                sent == Some(PutItem(ServerIdOf(old(items), pid).value, q))
                && items == (if updated && fetched.Some? then Synced(fetched.value) else old(items))
    {
      var id := ServerIdOf(items, pid);
      if isAuthenticated {
        if id.None? {
          return None;
        }
        sent := Some(PutItem(id.value, q));
        if updated {
          SyncCart(fetched);
        }
      } else {
        sent := None;
        items := GuestUpdate(items, pid, q);
      }
    }

    /** `clearCart`. */
    method ClearCart()
      modifies this
      ensures items == []
    {
      items := [];
    }
  }

  /**
   * After a sync whose server ids are positive, a signed-in removal of any product in the
   * list is sent to the server with that product's first server line id.
   */
  lemma SyncedLinesCanBeRemoved(ls: seq<ServerLine>, pid: int)
    requires forall i :: 0 <= i < |ls| ==> ls[i].id > 0
    requires exists i :: 0 <= i < |ls| && ls[i].productId == pid
    ensures ServerIdOf(Synced(ls), pid).Some?
    ensures ServerIdOf(Synced(ls), pid).value == ls[FirstIndex(Synced(ls), pid, 0).value].id
  {
    var i :| 0 <= i < |ls| && ls[i].productId == pid;
    assert Synced(ls)[i].productId == pid;
  }
}
