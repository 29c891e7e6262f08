/**
 * The path builders of the route table: the product page `/product/<id>` and the order
 * page `/orders/<id>`, which falls back to the order list when the id is falsy.
 */
module Routes {
  import opened Common
  import opened Text

  const Home := "/"
  const Login := "/login"
  const Orders := "/orders"
  const ProductPrefix := "/product/"
  const OrderPrefix := "/orders/"

  /** A route id: a number or a string, as the callers pass either. */
  datatype Id = Num(n: int) | Str(s: string)

  /** How a template literal renders the id (integers only). */
  function IdText(id: Id): string {
    match id
    case Num(n) => IntToString(n)
    case Str(s) => s
  }

  /** JavaScript truthiness of an id: not 0 and not "". */
  predicate TruthyRouteId(id: Option<Id>) {
    id.Some? && match id.value
      case Num(n) => n != 0
      case Str(s) => s != ""
  }

  /** `getProductPath`: the product prefix followed by the id's text. */
  function GetProductPath(id: Id): (r: string)
    ensures StartsWith(r, ProductPrefix) && r[|ProductPrefix|..] == IdText(id)
  {
    ProductPrefix + IdText(id)
  }

  /** `getOrderPath`: the order list exactly when the id is falsy, else the order's own page. */
  function GetOrderPath(id: Option<Id>): (r: string)
    ensures r == Orders <==> !TruthyRouteId(id)
    ensures TruthyRouteId(id) ==> StartsWith(r, OrderPrefix) && r[|OrderPrefix|..] == IdText(id.value)
  {
    if TruthyRouteId(id) then OrderPrefix + IdText(id.value) else Orders
  }

  /** Any stored order id (they start at 1) leads to its own page, never to the list. */
  lemma StoredOrderIdHasOwnPage(n: int)
    requires n >= 1
    ensures GetOrderPath(Some(Num(n))) != Orders
    ensures GetOrderPath(Some(Num(n)))[..|OrderPrefix|] == OrderPrefix
  {
    var p := GetOrderPath(Some(Num(n)));
    assert |p| > |Orders|;
  }

  /** The product path can be read back: it is the prefix followed by the id's text. */
  lemma ProductPathReadsBack(id: Id)
    ensures StartsWith(GetProductPath(id), ProductPrefix)
    ensures GetProductPath(id)[|ProductPrefix|..] == IdText(id)
    ensures forall other :: IdText(other) != IdText(id) ==> GetProductPath(other) != GetProductPath(id)
  {
    forall other | IdText(other) != IdText(id)
      ensures GetProductPath(other) != GetProductPath(id)
    {
      assert GetProductPath(other)[|ProductPrefix|..] == IdText(other);
    }
  }

  /** Order paths of distinct truthy ids differ: the id can be read back from the path. */
  lemma OrderPathInjective(a: Id, b: Id)
    requires TruthyRouteId(Some(a)) && TruthyRouteId(Some(b)) && IdText(a) != IdText(b)
    ensures GetOrderPath(Some(a)) != GetOrderPath(Some(b))
  {
    assert GetOrderPath(Some(a))[|OrderPrefix|..] == IdText(a);
    assert GetOrderPath(Some(b))[|OrderPrefix|..] == IdText(b);
  }

  /** The id 0 is falsy, so it leads to the order list rather than to `/orders/0`. */
  lemma ZeroIdGoesToList()
    ensures GetOrderPath(Some(Num(0))) == Orders
  {
  }
}
