/**
 * The browser's auth store: the signed-in user and two flags, and the reconciliation of the
 * guest cart at login (merge, then re-sync) and logout (clear). Server replies are
 * parameters: `None` stands for a request that failed.
 */
module AuthStore {
  import opened Common
  import opened CartStore

  /** The user as `/auth/login` and `/auth/me` return it. */
  datatype SessionUser = SessionUser(id: int, email: string, name: Option<string>, role: string)

  class AuthStore {
    var user: Option<SessionUser>
    var isAuthenticated: bool
    var isLoading: bool
    const cart: CartStore

    /** A user is held exactly when the store says it is authenticated. */
    predicate Consistent()
      reads this
    {
      isAuthenticated <==> user.Some?
    }

    /** The initial state: nobody signed in, and loading until the first `checkAuth`. */
    constructor(cart: CartStore)
      ensures user.None? && !isAuthenticated && isLoading
      ensures this.cart == cart
      ensures Consistent()
    {
      user := None;
      isAuthenticated := false;
      isLoading := true;
      this.cart := cart;
    }

    /**
     * `login`. A failed login call leaves every field and the cart as they were (the error
     * is rethrown: `ok` is false). On success the user is set and marked authenticated
     * first; then, only when the local cart has lines, their `(productId, quantity)` are
     * posted as the merge; the merge's own failure is swallowed, so nothing after it depends
     * on its outcome; finally the cart is re-synced from the server.
     */
    method Login(email: string, password: string, reply: Option<SessionUser>, fetched: Option<seq<ServerLine>>)
      returns (ok: bool, merge: Option<seq<MergeLine>>)
      modifies this, cart
      ensures ok <==> reply.Some?
      ensures reply.None? ==> merge.None? && unchanged(this) && unchanged(cart)
      ensures reply.Some? ==> user == reply && isAuthenticated && isLoading == old(isLoading)
      ensures reply.Some? ==> merge == (if |old(cart.items)| > 0 then Some(MergePayload(old(cart.items))) else None)
      ensures reply.Some? ==> cart.items == (if fetched.Some? then Synced(fetched.value) else old(cart.items))
      ensures old(Consistent()) ==> Consistent()
    {
      if reply.None? {
        return false, None;
      }
      user := reply;
      isAuthenticated := true;
      merge := None;
      if |cart.items| > 0 {
        merge := Some(MergePayload(cart.items));
      }
      cart.SyncCart(fetched);
      ok := true;
    }

    /** `register`: whatever the server answers, no field changes; the user must still log in. */
    method Register(email: string, password: string, name: string, reply: Option<SessionUser>) returns (ok: bool)
      ensures ok <==> reply.Some?
    {
      ok := reply.Some?;
    }

    /**
     * `logout`: the state is cleared before the server is told, so the outcome does not
     * depend on the server's reply: no user, not authenticated, not loading, empty cart.
     */
    method Logout()
      modifies this, cart
      ensures user.None? && !isAuthenticated && !isLoading
      ensures cart.items == []
      ensures Consistent()
    {
      user := None;
      isAuthenticated := false;
      isLoading := false;
      cart.ClearCart();
    }

    /**
     * `checkAuth`: a restored session sets the user, authenticated and not loading, and
     * re-syncs the cart (never merging it); a failed check sets signed-out and not loading
     * and leaves the cart alone.
     */
    method CheckAuth(reply: Option<SessionUser>, fetched: Option<seq<ServerLine>>)
      modifies this, cart
      ensures !isLoading && Consistent()
      ensures reply.Some? ==> user == reply && isAuthenticated
      ensures reply.Some? ==> cart.items == (if fetched.Some? then Synced(fetched.value) else old(cart.items))
      ensures reply.None? ==> user.None? && !isAuthenticated && cart.items == old(cart.items)
    {
      if reply.Some? {
        user := reply;
        isAuthenticated := true;
        isLoading := false;
        cart.SyncCart(fetched);
      } else {
        user := None;
        isAuthenticated := false;
        isLoading := false;
      }
    }
  }

  /** The merge payload has one entry per local line, carrying that line's product and quantity. */
  lemma MergePayloadMirrorsLines(items: seq<CartLine>, pid: int)
    ensures |MergePayload(items)| == |items|
    ensures (exists k :: 0 <= k < |MergePayload(items)| && MergePayload(items)[k].productId == pid) <==> HasLine(items, pid)
  {
    var m := MergePayload(items);
    if HasLine(items, pid) {
      var i :| 0 <= i < |items| && items[i].productId == pid;
      assert m[i].productId == pid;
    }
  }
}
