/**
 * The server-side cart of a signed-in user: `getCart`, `addToCart`, `updateCartItem`,
 * `removeFromCart` and `mergeCart`. Every handler answers 401 when no user id is attached,
 * and a user's cart is created on first use.
 */
module CartController {
  import opened Common
  import opened Db

  const Unauthorized := "Unauthorized"
  const NotYourItem := "Unauthorized access to cart item"

  /** One entry of the guest cart sent to `mergeCart`. */
  datatype GuestItem = GuestItem(productId: int, quantity: int)

  /** Row `i` is a line of cart `cid` for product `pid`. */
  predicate IsLine(items: map<int, CartItem>, i: int, cid: int, pid: int) {
    i in items && items[i].cartId == cid && items[i].productId == pid
  }

  /** Every cart-item id lies in [1, next), and `next` is a valid id. */
  predicate KeysBelow(items: map<int, CartItem>, next: int) {
    1 <= next && forall i :: i in items ==> 1 <= i < next
  }

  /** No cart holds two lines for the same product. */
  predicate OneLinePerProduct(items: map<int, CartItem>) {
    forall i, j ::
      (i in items && j in items && items[i].cartId == items[j].cartId && items[i].productId == items[j].productId)
      ==> i == j
  }

  /** The rows of cart `cid`. */
  function LinesOf(items: map<int, CartItem>, cid: int): (r: map<int, CartItem>)
    ensures forall i :: i in r ==> i in items && r[i] == items[i] && r[i].cartId == cid
    ensures forall i :: i in items && items[i].cartId == cid ==> i in r
  {
    map i | i in items && items[i].cartId == cid :: items[i]
  }

  /**
   * The first row, scanning ids upward from `from` to `bound`, that is a line of cart `cid`
   * for product `pid`: the row `findFirst`/`find` returns (rows come back in id order).
   */
  function FirstLine(items: map<int, CartItem>, cid: int, pid: int, from: int, bound: int): (r: Option<int>)
    ensures r.Some? ==> from <= r.value < bound && IsLine(items, r.value, cid, pid)
    ensures r.Some? ==> forall i :: from <= i < r.value ==> !IsLine(items, i, cid, pid)
    ensures r.None? ==> forall i :: from <= i < bound ==> !IsLine(items, i, cid, pid)
    decreases bound - from
  {
    if from >= bound then None
    else if IsLine(items, from, cid, pid) then Some(from)
    else FirstLine(items, cid, pid, from + 1, bound)
  }

  /** The quantity cart `cid` holds of product `pid` on its first line (0 when there is none). */
  function QtyIn(items: map<int, CartItem>, next: int, cid: int, pid: int): int {
    match FirstLine(items, cid, pid, 1, next)
    case Some(i) => items[i].quantity
    case None => 0
  }

  /**
   * `addToCart` on the rows: the first existing line of the product gets `q` more,
   * otherwise a new line with id `next` is created.
   */
  function AddLine(items: map<int, CartItem>, next: int, cid: int, pid: int, q: int): (r: (map<int, CartItem>, int))
    ensures r.1 == next || r.1 == next + 1
  {
    match FirstLine(items, cid, pid, 1, next)
    case Some(i) => (items[i := items[i].(quantity := items[i].quantity + q)], next)
    case None => (items[next := CartItem(cid, pid, q)], next + 1)
  }

  /**
   * Adding to a cart keeps one line per product, leaves exactly one line for the product
   * holding `q` more than before, and leaves every other (cart, product) quantity alone.
   */
  lemma AddLineEffect(items: map<int, CartItem>, next: int, cid: int, pid: int, q: int)
    requires KeysBelow(items, next)
    requires OneLinePerProduct(items)
    ensures var (m, n) := AddLine(items, next, cid, pid, q);
      && KeysBelow(m, n)
      && OneLinePerProduct(m)
      && FirstLine(m, cid, pid, 1, n).Some?
      && QtyIn(m, n, cid, pid) == QtyIn(items, next, cid, pid) + q
      && (forall c, p :: (c, p) != (cid, pid) ==> QtyIn(m, n, c, p) == QtyIn(items, next, c, p))
  {
    var (m, n) := AddLine(items, next, cid, pid, q);
    match FirstLine(items, cid, pid, 1, next)
    case Some(i) =>
      assert forall k, c, p :: IsLine(m, k, c, p) <==> IsLine(items, k, c, p);
      forall c, p
        ensures FirstLine(m, c, p, 1, n) == FirstLine(items, c, p, 1, next)
      {
        FirstLineSameRows(items, m, c, p, 1, next);
      }
    case None =>
      assert forall j :: j in items ==> !IsLine(items, j, cid, pid);
      assert forall k :: 1 <= k < next ==> !IsLine(m, k, cid, pid);
      assert IsLine(m, next, cid, pid);
      assert FirstLine(m, cid, pid, 1, n) == Some(next);
      forall c, p | (c, p) != (cid, pid)
        ensures QtyIn(m, n, c, p) == QtyIn(items, next, c, p)
      {
        assert !IsLine(m, next, c, p);
        assert forall k :: k != next ==> (IsLine(m, k, c, p) <==> IsLine(items, k, c, p));
        match FirstLine(items, c, p, 1, next)
        case Some(j) =>
          assert FirstLine(m, c, p, 1, n) == Some(j);
        case None =>
          assert FirstLine(m, c, p, 1, n) == None;
      }
  }

  /** Two row sets with the same lines for (`cid`, `pid`) give the same first line. */
  lemma {:induction false} FirstLineSameRows(a: map<int, CartItem>, b: map<int, CartItem>, cid: int, pid: int, from: int, bound: int)
    requires forall k :: IsLine(a, k, cid, pid) <==> IsLine(b, k, cid, pid)
    ensures FirstLine(a, cid, pid, from, bound) == FirstLine(b, cid, pid, from, bound)
    decreases bound - from
  {
    if from < bound {
      FirstLineSameRows(a, b, cid, pid, from + 1, bound);
    }
  }

  /** Adding the quantities `qs` of one product one after another, as repeated `addToCart` calls do. */
  function AddAll(items: map<int, CartItem>, next: int, cid: int, pid: int, qs: seq<int>): (map<int, CartItem>, int) {
    if qs == [] then (items, next)
    else
      var (m, n) := AddAll(items, next, cid, pid, qs[..|qs| - 1]);
      AddLine(m, n, cid, pid, qs[|qs| - 1])
  }

  /** Repeated adds of a product leave one line per product whose quantity is the sum of the adds. */
  lemma {:induction false} RepeatedAddsAccumulate(items: map<int, CartItem>, next: int, cid: int, pid: int, qs: seq<int>)
    requires KeysBelow(items, next)
    requires OneLinePerProduct(items)
    ensures var (m, n) := AddAll(items, next, cid, pid, qs);
      KeysBelow(m, n) && OneLinePerProduct(m) && QtyIn(m, n, cid, pid) == QtyIn(items, next, cid, pid) + Sum(qs)
  {
    if qs != [] {
      var front := qs[..|qs| - 1];
      RepeatedAddsAccumulate(items, next, cid, pid, front);
      var (m, n) := AddAll(items, next, cid, pid, front);
      AddLineEffect(m, n, cid, pid, qs[|qs| - 1]);
    }
  }

  /** Find the user's cart, or create it (`findUnique` then `create`). */
  method GetOrCreateCart(db: Database, uid: int) returns (cid: int)
    requires db.Valid()
    modifies db`carts, db`nextCartId
    ensures db.Valid()
    ensures cid in db.carts && db.carts[cid] == uid
    ensures old(HasCart(db.carts, uid)) ==> db.carts == old(db.carts) && db.nextCartId == old(db.nextCartId)
    ensures !old(HasCart(db.carts, uid)) ==>
              cid == old(db.nextCartId) && db.carts == old(db.carts)[cid := uid] && db.nextCartId == cid + 1
              && LinesOf(db.cartItems, cid) == map[]
  {
    if c :| c in db.carts && db.carts[c] == uid {
      cid := c;
    } else {
      cid := db.nextCartId;
      db.carts := db.carts[cid := uid];
      db.nextCartId := cid + 1;
      assert forall i :: i in db.cartItems ==> db.cartItems[i].cartId != cid;
    }
  }

  /** `getCart`: the lines of the caller's cart, an empty new cart if they had none. */
  method GetCart(db: Database, userId: Option<int>) returns (r: Reply<map<int, CartItem>>)
    requires db.Valid()
    modifies db`carts, db`nextCartId
    ensures db.Valid()
    ensures !TruthyId(userId) ==> r == Err(401, Unauthorized) && unchanged(db)
    ensures TruthyId(userId) ==>
              && HasCart(db.carts, userId.value)
              && r == Ok(200, LinesOf(db.cartItems, CartOf(db.carts, userId.value)))
    ensures TruthyId(userId) && old(HasCart(db.carts, userId.value)) ==>
              db.carts == old(db.carts) && db.nextCartId == old(db.nextCartId)
    ensures TruthyId(userId) && !old(HasCart(db.carts, userId.value)) ==>
              && r.body == map[]
              && db.carts == old(db.carts)[old(db.nextCartId) := userId.value]
              && db.nextCartId == old(db.nextCartId) + 1
  {
    if !TruthyId(userId) {
      return Err(401, Unauthorized);
    }
    var cid := GetOrCreateCart(db, userId.value);
    assert CartOf(db.carts, userId.value) == cid;
    r := Ok(200, LinesOf(db.cartItems, cid));
  }

  /** `addToCart`: one more `quantity` of the product in the caller's cart. */
  method AddToCart(db: Database, userId: Option<int>, productId: int, quantity: int) returns (r: Reply<()>)
    requires db.Valid()
    modifies db`carts, db`nextCartId, db`cartItems, db`nextCartItemId
    ensures db.Valid()
    ensures !TruthyId(userId) ==> r == Err(401, Unauthorized) && unchanged(db)
    ensures TruthyId(userId) ==>
              && r == Ok(200, ())
              && HasCart(db.carts, userId.value)
              && (db.cartItems, db.nextCartItemId)
                 == AddLine(old(db.cartItems), old(db.nextCartItemId), CartOf(db.carts, userId.value), productId, quantity)
    ensures TruthyId(userId) && old(HasCart(db.carts, userId.value)) ==>
              db.carts == old(db.carts) && db.nextCartId == old(db.nextCartId)
    ensures TruthyId(userId) && !old(HasCart(db.carts, userId.value)) ==>
              db.carts == old(db.carts)[old(db.nextCartId) := userId.value] && db.nextCartId == old(db.nextCartId) + 1
    ensures OneLinePerProduct(old(db.cartItems)) ==> OneLinePerProduct(db.cartItems)
  {
    if !TruthyId(userId) {
      return Err(401, Unauthorized);
    }
    var cid := GetOrCreateCart(db, userId.value);
    assert CartOf(db.carts, userId.value) == cid;
    AddToCartOf(db, cid, productId, quantity);
    r := Ok(200, ());
  }

  /** The write of `addToCart` once the cart `cid` is known. */
  method AddToCartOf(db: Database, cid: int, productId: int, quantity: int)
    requires db.Valid() && cid in db.carts
    modifies db`cartItems, db`nextCartItemId
    ensures db.Valid()
    ensures (db.cartItems, db.nextCartItemId) == AddLine(old(db.cartItems), old(db.nextCartItemId), cid, productId, quantity)
    ensures OneLinePerProduct(old(db.cartItems)) ==> OneLinePerProduct(db.cartItems)
  {
    if OneLinePerProduct(db.cartItems) {
      AddLineEffect(db.cartItems, db.nextCartItemId, cid, productId, quantity);
    }
    var added := AddLine(db.cartItems, db.nextCartItemId, cid, productId, quantity);
    db.cartItems, db.nextCartItemId := added.0, added.1;
  }

  /** The row `id` exists and belongs to the cart of user `uid`. */
  predicate OwnsItem(carts: map<int, int>, items: map<int, CartItem>, uid: int, id: int) {
    id in items && items[id].cartId in carts && carts[items[id].cartId] == uid
  }

  /**
   * `updateCartItem`, with `itemId` the numeric path id (`None` when it is not a number, which
   * the database rejects). A quantity of zero or less deletes the line.
   */
  method UpdateCartItem(db: Database, userId: Option<int>, itemId: Option<int>, quantity: int) returns (r: Reply<()>)
    requires db.Valid()
    modifies db`cartItems
    ensures db.Valid()
    ensures !TruthyId(userId) ==> r == Err(401, Unauthorized)
    ensures TruthyId(userId) && itemId.None? ==> r == Err(500, "Failed to update item")
    ensures TruthyId(userId) && itemId.Some? && !OwnsItem(db.carts, old(db.cartItems), userId.value, itemId.value) ==>
              r == Err(403, NotYourItem)
    ensures r.Err? ==> db.cartItems == old(db.cartItems)
    ensures r.Ok? <==> TruthyId(userId) && itemId.Some? && OwnsItem(db.carts, old(db.cartItems), userId.value, itemId.value)
    ensures r.Ok? && quantity <= 0 ==> db.cartItems == old(db.cartItems) - {itemId.value}
    ensures r.Ok? && quantity > 0 ==>
              db.cartItems == old(db.cartItems)[itemId.value := old(db.cartItems)[itemId.value].(quantity := quantity)]
    ensures r == Ok(200, ()) || r.Err?
  {
    if !TruthyId(userId) {
      return Err(401, Unauthorized);
    }
    if itemId.None? {
      return Err(500, "Failed to update item");
    }
    var id := itemId.value;
    if !OwnsItem(db.carts, db.cartItems, userId.value, id) {
      return Err(403, NotYourItem);
    }
    if quantity <= 0 {
      db.cartItems := db.cartItems - {id};
    } else {
      db.cartItems := db.cartItems[id := db.cartItems[id].(quantity := quantity)];
    }
    r := Ok(200, ());
  }

  /** `removeFromCart`: deletes the caller's own line `itemId`. */
  method RemoveFromCart(db: Database, userId: Option<int>, itemId: Option<int>) returns (r: Reply<()>)
    requires db.Valid()
    modifies db`cartItems
    ensures db.Valid()
    ensures !TruthyId(userId) ==> r == Err(401, Unauthorized)
    ensures TruthyId(userId) && itemId.None? ==> r == Err(500, "Failed to remove item")
    ensures TruthyId(userId) && itemId.Some? && !OwnsItem(db.carts, old(db.cartItems), userId.value, itemId.value) ==>
              r == Err(403, NotYourItem)
    ensures r.Err? ==> db.cartItems == old(db.cartItems)
    ensures r.Ok? <==> TruthyId(userId) && itemId.Some? && OwnsItem(db.carts, old(db.cartItems), userId.value, itemId.value)
    ensures r.Ok? ==> r.status == 200 && db.cartItems == old(db.cartItems) - {itemId.value}
  {
    if !TruthyId(userId) {
      return Err(401, Unauthorized);
    }
    if itemId.None? {
      return Err(500, "Failed to remove item");
    }
    var id := itemId.value;
    if !OwnsItem(db.carts, db.cartItems, userId.value, id) {
      return Err(403, NotYourItem);
    }
    db.cartItems := db.cartItems - {id};
    r := Ok(200, ());
  }

  /**
   * Editing or removing a line on behalf of user `uid` leaves every line of every other
   * user's cart exactly as it was.
   */
  lemma OtherUsersLinesUntouched(carts: map<int, int>, items: map<int, CartItem>, uid: int, id: int, q: int, i: int)
    requires OwnsItem(carts, items, uid, id)
    requires i in items && items[i].cartId in carts && carts[items[i].cartId] != uid
    ensures i in items - {id} && (items - {id})[i] == items[i]
    ensures var u := items[id := items[id].(quantity := q)]; i in u && u[i] == items[i]
  {
  }

  /**
   * One step of `mergeCart` as written: the guest entry is matched against the snapshot of the
   * cart taken before the loop, so the update writes snapshot quantity plus guest quantity.
   */
  function MergeStep(st: (map<int, CartItem>, int), snap: map<int, CartItem>, bound: int, cid: int, g: GuestItem): (r: (map<int, CartItem>, int))
    ensures r.1 == st.1 || r.1 == st.1 + 1
  {
    match FirstLine(snap, cid, g.productId, 1, bound)
    case Some(i) => (st.0[i := snap[i].(quantity := snap[i].quantity + g.quantity)], st.1)
    case None => (st.0[st.1 := CartItem(cid, g.productId, g.quantity)], st.1 + 1)
  }

  /** The guest entries `gs` merged one after another against the same snapshot. */
  function MergeAll(items: map<int, CartItem>, next: int, snap: map<int, CartItem>, bound: int, cid: int, gs: seq<GuestItem>): (r: (map<int, CartItem>, int))
    ensures r.1 >= next
  {
    if gs == [] then (items, next)
    else MergeStep(MergeAll(items, next, snap, bound, cid, gs[..|gs| - 1]), snap, bound, cid, gs[|gs| - 1])
  }

  /** The body of `mergeCart`'s loop for one guest entry. */
  method MergeOne(db: Database, snap: map<int, CartItem>, bound: int, cid: int, g: GuestItem)
    requires db.Valid() && cid in db.carts && bound <= db.nextCartItemId
    modifies db`cartItems, db`nextCartItemId
    ensures db.Valid() && bound <= db.nextCartItemId
    ensures (db.cartItems, db.nextCartItemId) == MergeStep(old((db.cartItems, db.nextCartItemId)), snap, bound, cid, g)
  {
    match FirstLine(snap, cid, g.productId, 1, bound) {
      case Some(i) =>
        db.cartItems := db.cartItems[i := snap[i].(quantity := snap[i].quantity + g.quantity)];
      case None =>
        db.cartItems := db.cartItems[db.nextCartItemId := CartItem(cid, g.productId, g.quantity)];
        db.nextCartItemId := db.nextCartItemId + 1;
    }
  }

  /**
   * `mergeCart`: the guest cart, when it is an array (`guestCart` is `None` otherwise), merged
   * into the caller's cart against the snapshot of that cart read before the loop.
   */
  method MergeCart(db: Database, userId: Option<int>, guestCart: Option<seq<GuestItem>>) returns (r: Reply<()>)
    requires db.Valid()
    modifies db`carts, db`nextCartId, db`cartItems, db`nextCartItemId
    ensures db.Valid()
    ensures !TruthyId(userId) ==> r == Err(401, Unauthorized) && unchanged(db)
    ensures TruthyId(userId) ==>
              && r == Ok(200, ())
              && HasCart(db.carts, userId.value)
              && var cid := CartOf(db.carts, userId.value);
                 (db.cartItems, db.nextCartItemId)
                 == MergeAll(old(db.cartItems), old(db.nextCartItemId), LinesOf(old(db.cartItems), cid),
                             old(db.nextCartItemId), cid, guestCart.GetOr([]))
    ensures TruthyId(userId) && old(HasCart(db.carts, userId.value)) ==>
              db.carts == old(db.carts) && db.nextCartId == old(db.nextCartId)
    ensures TruthyId(userId) && !old(HasCart(db.carts, userId.value)) ==>
              db.carts == old(db.carts)[old(db.nextCartId) := userId.value] && db.nextCartId == old(db.nextCartId) + 1
  {
    if !TruthyId(userId) {
      return Err(401, Unauthorized);
    }
    var cid := GetOrCreateCart(db, userId.value);
    assert CartOf(db.carts, userId.value) == cid;
    MergeInto(db, cid, guestCart.GetOr([]));
    r := Ok(200, ());
  }

  /** The loop of `mergeCart` once the cart `cid` is known: every guest entry against one snapshot. */
  method MergeInto(db: Database, cid: int, gs: seq<GuestItem>)
    requires db.Valid() && cid in db.carts
    modifies db`cartItems, db`nextCartItemId
    ensures db.Valid()
    ensures (db.cartItems, db.nextCartItemId)
            == MergeAll(old(db.cartItems), old(db.nextCartItemId), LinesOf(old(db.cartItems), cid),
                        old(db.nextCartItemId), cid, gs)
  {
    var snap := LinesOf(db.cartItems, cid);
    var bound := db.nextCartItemId;
    ghost var items0 := db.cartItems;
    var k := 0;
    while k < |gs|
      invariant 0 <= k <= |gs|
      invariant db.Valid() && cid in db.carts
      invariant bound <= db.nextCartItemId
      invariant (db.cartItems, db.nextCartItemId) == MergeAll(items0, bound, snap, bound, cid, gs[..k])
    {
      assert gs[..k + 1][..k] == gs[..k];
      MergeOne(db, snap, bound, cid, gs[k]);
      k := k + 1;
    }
    assert gs[..|gs|] == gs;
  }

  /** A server cart {A: 2} merged with the guest cart {A: 3, B: 1} becomes {A: 5, B: 1}. */
  lemma MergeAddsToExistingAndCreatesNew()
    ensures var items := map[1 := CartItem(7, 100, 2)];
      MergeAll(items, 2, LinesOf(items, 7), 2, 7, [GuestItem(100, 3), GuestItem(200, 1)])
      == (map[1 := CartItem(7, 100, 5), 2 := CartItem(7, 200, 1)], 3)
  {
    var items := map[1 := CartItem(7, 100, 2)];
    var gs := [GuestItem(100, 3), GuestItem(200, 1)];
    assert LinesOf(items, 7) == items;
    assert FirstLine(items, 7, 100, 1, 2) == Some(1);
    assert FirstLine(items, 7, 200, 1, 2) == None by {
      assert FirstLine(items, 7, 200, 2, 2) == None;
    }
    assert gs[..|gs| - 1] == gs[..1] && gs[..1][..|gs[..1]| - 1] == [];
    assert gs[..1][|gs[..1]| - 1] == gs[0];
    var s1 := MergeAll(items, 2, items, 2, 7, gs[..1]);
    var g1 := [GuestItem(100, 3)];
    assert g1[..0] == [] && gs[..1] == g1;
    assert MergeAll(items, 2, items, 2, 7, g1[..0]) == (items, 2);
    assert s1 == MergeStep((items, 2), items, 2, 7, GuestItem(100, 3));
    assert items[1 := CartItem(7, 100, 5)] == map[1 := CartItem(7, 100, 5)];
    assert s1 == (items[1 := CartItem(7, 100, 5)], 2);
  }

  /** Two guest entries for a product the cart lacks become two lines for that product. */
  lemma StaleMergeDuplicatesLines()
    ensures var (m, n) := MergeAll(map[], 1, map[], 1, 7, [GuestItem(200, 1), GuestItem(200, 2)]);
      m == map[1 := CartItem(7, 200, 1), 2 := CartItem(7, 200, 2)] && !OneLinePerProduct(m)
  {
    var gs := [GuestItem(200, 1), GuestItem(200, 2)];
    assert FirstLine(map[], 7, 200, 1, 1) == None;
    assert gs[..|gs| - 1] == gs[..1] && gs[..1][..|gs[..1]| - 1] == [];
    assert gs[..1][|gs[..1]| - 1] == gs[0];
    var s1 := MergeAll(map[], 1, map[], 1, 7, gs[..1]);
    var g1 := [GuestItem(200, 1)];
    assert g1[..0] == [] && gs[..1] == g1;
    assert MergeAll(map[], 1, map[], 1, 7, g1[..0]) == (map[], 1);
    assert s1 == MergeStep((map[], 1), map[], 1, 7, GuestItem(200, 1));
    assert s1 == (map[1 := CartItem(7, 200, 1)], 2);
    var m := map[1 := CartItem(7, 200, 1), 2 := CartItem(7, 200, 2)];
    assert MergeAll(map[], 1, map[], 1, 7, gs) == (m, 3);
    assert m[1].productId == m[2].productId && m[1].cartId == m[2].cartId;
  }

  /** Two guest entries for a product the cart holds leave the snapshot quantity plus the last entry only. */
  lemma StaleMergeKeepsLastSum()
    ensures var items := map[1 := CartItem(7, 100, 2)];
      MergeAll(items, 2, items, 2, 7, [GuestItem(100, 3), GuestItem(100, 4)]).0 == map[1 := CartItem(7, 100, 6)]
  {
    var items := map[1 := CartItem(7, 100, 2)];
    var gs := [GuestItem(100, 3), GuestItem(100, 4)];
    assert FirstLine(items, 7, 100, 1, 2) == Some(1);
    assert gs[..|gs| - 1] == gs[..1] && gs[..1][..|gs[..1]| - 1] == [];
    assert gs[..1][|gs[..1]| - 1] == gs[0];
    var s1 := MergeAll(items, 2, items, 2, 7, gs[..1]);
    var g1 := [GuestItem(100, 3)];
    assert g1[..0] == [] && gs[..1] == g1;
    assert MergeAll(items, 2, items, 2, 7, g1[..0]) == (items, 2);
    assert s1 == MergeStep((items, 2), items, 2, 7, GuestItem(100, 3));
    assert items[1 := CartItem(7, 100, 5)] == map[1 := CartItem(7, 100, 5)];
    assert s1 == (items[1 := CartItem(7, 100, 5)], 2);
  }

  /**
   * In general, a line matched in the snapshot ends with its snapshot quantity plus the
   * quantity of the last guest entry matched to it; earlier entries for it are lost.
   */
  lemma {:induction false} StaleMergeLastEntryWins(items: map<int, CartItem>, next: int, snap: map<int, CartItem>, bound: int,
                                                   cid: int, gs: seq<GuestItem>, i: int, k: nat)
    requires bound <= next
    requires k < |gs| && FirstLine(snap, cid, gs[k].productId, 1, bound) == Some(i)
    requires forall j :: k < j < |gs| ==> FirstLine(snap, cid, gs[j].productId, 1, bound) != Some(i)
    ensures var m := MergeAll(items, next, snap, bound, cid, gs).0;
      i in m && m[i].quantity == snap[i].quantity + gs[k].quantity
  {
    var front := gs[..|gs| - 1];
    if k < |gs| - 1 {
      StaleMergeLastEntryWins(items, next, snap, bound, cid, front, i, k);
    }
  }

  /** Merging twice (with a fresh snapshot each time) adds the guest quantities twice. */
  lemma MergeTwiceAddsTwice()
    ensures var items := map[1 := CartItem(7, 100, 2)];
      var (m1, n1) := MergeAll(items, 2, LinesOf(items, 7), 2, 7, [GuestItem(100, 3)]);
      m1 == map[1 := CartItem(7, 100, 5)]
      && MergeAll(m1, n1, LinesOf(m1, 7), n1, 7, [GuestItem(100, 3)]).0 == map[1 := CartItem(7, 100, 8)]
  {
    var items := map[1 := CartItem(7, 100, 2)];
    assert LinesOf(items, 7) == items;
    assert FirstLine(items, 7, 100, 1, 2) == Some(1);
    var m1 := map[1 := CartItem(7, 100, 5)];
    assert LinesOf(m1, 7) == m1;
    assert FirstLine(m1, 7, 100, 1, 2) == Some(1);
  }

  /**
   * The merge that keeps one line per product: each guest entry goes through `AddLine`,
   * which looks at the cart as it is now rather than at a snapshot.
   */
  function FreshMerge(items: map<int, CartItem>, next: int, cid: int, gs: seq<GuestItem>): (map<int, CartItem>, int) {
    if gs == [] then (items, next)
    else
      var (m, n) := FreshMerge(items, next, cid, gs[..|gs| - 1]);
      AddLine(m, n, cid, gs[|gs| - 1].productId, gs[|gs| - 1].quantity)
  }

  /** The total quantity the guest entries `gs` carry for product `pid`. */
  function GuestQty(gs: seq<GuestItem>, pid: int): int {
    if gs == [] then 0
    else GuestQty(gs[..|gs| - 1], pid) + (if gs[|gs| - 1].productId == pid then gs[|gs| - 1].quantity else 0)
  }

  /**
   * The fresh merge keeps one line per product, and every product of cart `cid` ends with its
   * server quantity plus all its guest quantities; other carts are left alone.
   */
  lemma {:induction false} FreshMergeKeepsOneLinePerProduct(items: map<int, CartItem>, next: int, cid: int, gs: seq<GuestItem>)
    requires KeysBelow(items, next)
    requires OneLinePerProduct(items)
    ensures var (m, n) := FreshMerge(items, next, cid, gs);
      && KeysBelow(m, n) && OneLinePerProduct(m)
      && (forall p :: QtyIn(m, n, cid, p) == QtyIn(items, next, cid, p) + GuestQty(gs, p))
      && (forall c, p :: c != cid ==> QtyIn(m, n, c, p) == QtyIn(items, next, c, p))
  {
    if gs != [] {
      var front := gs[..|gs| - 1];
      FreshMergeKeepsOneLinePerProduct(items, next, cid, front);
      var (m, n) := FreshMerge(items, next, cid, front);
      AddLineEffect(m, n, cid, gs[|gs| - 1].productId, gs[|gs| - 1].quantity);
    }
  }

  /** Widening the scan past rows that are not lines of (`cid`, `pid`) finds the same first line. */
  lemma {:induction false} FirstLineBeyond(items: map<int, CartItem>, cid: int, pid: int, from: int, b1: int, b2: int)
    requires b1 <= b2
    requires forall k :: b1 <= k < b2 ==> !IsLine(items, k, cid, pid)
    ensures FirstLine(items, cid, pid, from, b1) == FirstLine(items, cid, pid, from, b2)
    decreases b1 - from
  {
    if from < b1 {
      FirstLineBeyond(items, cid, pid, from + 1, b1, b2);
    }
  }

  /** A fresh merge of guest entries that never name `p` leaves the lines of (`cid`, `p`) as they were. */
  lemma {:induction false} FreshMergeLeavesOtherProducts(items: map<int, CartItem>, next: int, cid: int, gs: seq<GuestItem>, p: int)
    requires KeysBelow(items, next)
    requires forall k :: 0 <= k < |gs| ==> gs[k].productId != p
    ensures var (m, n) := FreshMerge(items, next, cid, gs);
      && next <= n && KeysBelow(m, n)
      && (forall i :: IsLine(m, i, cid, p) <==> IsLine(items, i, cid, p))
      && (forall i :: IsLine(items, i, cid, p) ==> m[i] == items[i])
  {
    if gs != [] {
      var front, g := gs[..|gs| - 1], gs[|gs| - 1];
      FreshMergeLeavesOtherProducts(items, next, cid, front, p);
      var (m, n) := FreshMerge(items, next, cid, front);
      assert g.productId != p;
      match FirstLine(m, cid, g.productId, 1, n)
      case Some(i) =>
      case None =>
        assert n !in m;
    }
  }

  /**
   * When the guest cart names each product at most once, the merge against the snapshot is
   * the same as the fresh merge: no entry can see a line an earlier entry wrote.
   */
  lemma {:induction false} DistinctMergeIsFresh(items: map<int, CartItem>, next: int, cid: int, gs: seq<GuestItem>)
    requires KeysBelow(items, next)
    requires forall j, k :: 0 <= j < k < |gs| ==> gs[j].productId != gs[k].productId
    ensures MergeAll(items, next, LinesOf(items, cid), next, cid, gs) == FreshMerge(items, next, cid, gs)
  {
    if gs != [] {
      var snap := LinesOf(items, cid);
      var front, g := gs[..|gs| - 1], gs[|gs| - 1];
      DistinctMergeIsFresh(items, next, cid, front);
      FreshMergeLeavesOtherProducts(items, next, cid, front, g.productId);
      var (m, n) := FreshMerge(items, next, cid, front);
      FirstLineSameRows(snap, items, cid, g.productId, 1, next);
      FirstLineSameRows(m, items, cid, g.productId, 1, n);
      FirstLineBeyond(items, cid, g.productId, 1, next, n);
      match FirstLine(items, cid, g.productId, 1, next)
      case Some(i) =>
        assert snap[i] == items[i] == m[i];
      case None =>
    }
  }

  /**
   * For a guest cart that names each product at most once, the merge as written keeps one line
   * per product and leaves every product of the cart with its server quantity plus its guest
   * quantity; other carts are left alone.
   */
  lemma DistinctMergeAddsGuestQuantities(items: map<int, CartItem>, next: int, cid: int, gs: seq<GuestItem>)
    requires KeysBelow(items, next)
    requires OneLinePerProduct(items)
    requires forall j, k :: 0 <= j < k < |gs| ==> gs[j].productId != gs[k].productId
    ensures var (m, n) := MergeAll(items, next, LinesOf(items, cid), next, cid, gs);
      && KeysBelow(m, n) && OneLinePerProduct(m)
      && (forall p :: QtyIn(m, n, cid, p) == QtyIn(items, next, cid, p) + GuestQty(gs, p))
      && (forall c, p :: c != cid ==> QtyIn(m, n, c, p) == QtyIn(items, next, c, p))
  {
    DistinctMergeIsFresh(items, next, cid, gs);
    FreshMergeKeepsOneLinePerProduct(items, next, cid, gs);
  }
}
