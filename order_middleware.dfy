/**
 * `ensureOrderOwnership`: the guard in front of `GET /api/orders/:id`, a cascade of
 * early returns over the attached user and one read of the order's owner.
 */
module OrderMiddleware {
  import opened Common
  import opened Db
  import opened AuthMiddleware
  import OrderController

  /** The attached user's id, if any (`req.user?.id`). */
  function UserIdOf(user: Option<Claims>): (r: Option<int>)
    ensures r.Some? <==> user.Some?
    ensures r.Some? ==> r.value == user.value.id
  {
    if user.Some? then Some(user.value.id) else None
  }

  predicate IsAdmin(user: Option<Claims>) {
    user.Some? && user.value.role == "admin"
  }

  /** `ensureOrderOwnership`, with `orderId` the parsed path id (`None` when it is not a number). */
  function EnsureOrderOwnership(user: Option<Claims>, orderId: Option<int>, orders: map<int, Order>): (r: Gate<()>)
    ensures !TruthyId(UserIdOf(user)) ==> r == Reject(401, "Unauthorized")
    ensures TruthyId(UserIdOf(user)) && orderId.None? ==> r == Reject(400, "Invalid order ID")
    ensures TruthyId(UserIdOf(user)) && orderId.Some? && orderId.value !in orders ==>
              r == Reject(404, "Order not found")
    ensures r.Reject? && r.status == 403 <==>
              TruthyId(UserIdOf(user)) && orderId.Some? && orderId.value in orders
              && !IsAdmin(user) && orders[orderId.value].userId != UserIdOf(user)
    ensures r.Next? <==>
              TruthyId(UserIdOf(user)) && orderId.Some? && orderId.value in orders
              && (IsAdmin(user) || orders[orderId.value].userId == UserIdOf(user))
  {
    var userId := UserIdOf(user);
    if !TruthyId(userId) then Reject(401, "Unauthorized")
    else if orderId.None? then Reject(400, "Invalid order ID")
    else if orderId.value !in orders then Reject(404, "Order not found")
    else if !IsAdmin(user) && orders[orderId.value].userId != userId then
      Reject(403, "Access denied: You can only view your own orders")
    else Next(())
  }

  /** A guest order (no owner) passes the guard only for an admin. */
  lemma GuestOrderOnlyForAdmins(user: Option<Claims>, id: int, orders: map<int, Order>)
    requires id in orders && orders[id].userId.None?
    ensures EnsureOrderOwnership(user, Some(id), orders).Next? <==> TruthyId(UserIdOf(user)) && IsAdmin(user)
  {
  }

  /** Whenever the guard lets a request through, `getOrderById` serves the order. */
  lemma GuardAgreesWithHandler(user: Claims, orderId: Option<int>, orders: map<int, Order>)
    requires EnsureOrderOwnership(Some(user), orderId, orders).Next?
    ensures OrderController.GetOrderById(orders, orderId, user).Ok?
  {
  }
}
