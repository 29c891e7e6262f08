/**
 * The menu page's search: the products whose lower-cased name contains the lower-cased
 * search term, in their listed order.
 */
module MenuPage {
  import opened Common
  import opened Text

  datatype MenuProduct = MenuProduct(id: int, name: string, description: string, price: int, imageUrl: string, stock: int, isFeatured: bool)

  predicate Matches(p: MenuProduct, term: string) {
    Contains(ToLower(p.name), ToLower(term))
  }

  /** `filteredProducts`: the listed products whose name contains the term, ignoring ASCII case. */
  function Filtered(products: seq<MenuProduct>, term: string): (r: seq<MenuProduct>)
    ensures forall p :: p in r <==> p in products && Contains(ToLower(p.name), ToLower(term))
    ensures |r| <= |products|
  {
    Filter(products, (p: MenuProduct) => Matches(p, term))
  }

  /** A product is shown iff it is listed and its name contains the term, ignoring ASCII case. */
  lemma ShownIffNameContainsTerm(products: seq<MenuProduct>, term: string, p: MenuProduct)
    ensures p in Filtered(products, term) <==> p in products && Contains(ToLower(p.name), ToLower(term))
    ensures |Filtered(products, term)| <= |products|
  {
  }

  /** The result keeps the listed order: filtering splits over any split of the list. */
  lemma ShownInListedOrder(a: seq<MenuProduct>, b: seq<MenuProduct>, term: string)
    ensures Filtered(a + b, term) == Filtered(a, term) + Filtered(b, term)
  {
    FilterAppend(a, b, (p: MenuProduct) => Matches(p, term));
  }

  /** An empty search shows every product. */
  lemma EmptyTermShowsAll(products: seq<MenuProduct>)
    ensures Filtered(products, "") == products
  {
    forall p | p in products
      ensures Matches(p, "")
    {
      assert OccursAt(ToLower(p.name), ToLower(""), 0);
    }
    FilterKeepsAll(products, (p: MenuProduct) => Matches(p, ""));
  }

  /** Terms that differ only in ASCII case give the same result. */
  lemma CaseOfTermIrrelevant(products: seq<MenuProduct>, t1: string, t2: string)
    requires ToLower(t1) == ToLower(t2)
    ensures Filtered(products, t1) == Filtered(products, t2)
  {
    var k1 := (p: MenuProduct) => Matches(p, t1);
    var k2 := (p: MenuProduct) => Matches(p, t2);
    FilterSameTest(products, k1, k2);
  }

  lemma ContainsTransitive(s: string, t: string, u: string)
    requires Contains(s, t) && Contains(t, u)
    ensures Contains(s, u)
  {
    var k: nat :| k <= |s| && OccursAt(s, t, k);
    var j: nat :| j <= |t| && OccursAt(t, u, j);
    forall i | 0 <= i < |u|
      ensures s[k + j + i] == u[i]
    {
      assert s[k..k + |t|][j + i] == s[k + j + i];
      assert t[j..j + |u|][i] == t[j + i];
    }
    assert OccursAt(s, u, k + j);
  }

  /** Typing more of a term never brings back a product: a longer term shows a subset. */
  lemma RefiningTermNarrows(products: seq<MenuProduct>, term: string, longer: string)
    requires Contains(ToLower(longer), ToLower(term))
    ensures forall p :: p in Filtered(products, longer) ==> p in Filtered(products, term)
  {
    forall p | p in Filtered(products, longer)
      ensures p in Filtered(products, term)
    {
      ContainsTransitive(ToLower(p.name), ToLower(longer), ToLower(term));
    }
  }
}
