/**
 * The product catalog as the storefront holds it in memory: lookup by id, the
 * quantity clamp of the per-product quantity field, and the category/search filter.
 */
module Catalog {
  import opened Results
  import opened Seqs
  import opened Text

  /**
   * A catalog entry. Prices are integer cents; an absent description is the
   * empty string (both are falsy where the filter tests it).
   */
  datatype Product = Product(
    id: string,
    name: string,
    category: string,
    price: int,
    stock: int,
    description: string)

  /** The position of the first product with the id. */
  function FindIndex(catalog: seq<Product>, id: string): (r: Option<nat>)
    ensures r.Some? ==>
              && r.value < |catalog|
              && catalog[r.value].id == id
              && forall j :: 0 <= j < r.value ==> catalog[j].id != id
    ensures r.None? <==> forall j :: 0 <= j < |catalog| ==> catalog[j].id != id
    decreases |catalog|
  {
    if catalog == [] then None
    else if catalog[0].id == id then Some(0)
    else match FindIndex(catalog[1..], id)
      case None => None
      case Some(k) => Some(k + 1)
  }

  /** Position `k` holds the first product with the id. */
  predicate FirstWithId(catalog: seq<Product>, id: string, k: int)
  {
    && 0 <= k < |catalog|
    && catalog[k].id == id
    && forall j :: 0 <= j < k ==> catalog[j].id != id
  }

  /** `products.find(p => p._id === id)`: the first product with that id. */
  function FindProduct(catalog: seq<Product>, id: string): (r: Option<Product>)
    ensures r.Some? ==> r.value in catalog && r.value.id == id
    ensures r.Some? ==> exists k :: 0 <= k < |catalog| && catalog[k] == r.value && FirstWithId(catalog, id, k)
    ensures r.None? <==> forall j :: 0 <= j < |catalog| ==> catalog[j].id != id
  {
    match FindIndex(catalog, id)
    case None => None
    case Some(k) => Some(catalog[k])
  }

  /** `parseInt(field) || 1`: an unparsable field (NaN, here `None`) or a zero reads as 1. */
  function QuantityOrOne(entered: Option<int>): (q: int)
    ensures q != 0
    ensures entered.None? || entered.value == 0 ==> q == 1
    ensures entered.Some? && entered.value != 0 ==> q == entered.value
  {
    match entered
    case Some(v) => if v == 0 then 1 else v
    case None => 1
  }

  /**
   * `validateQuantity`: the value written back into a product's quantity field.
   * `None` stands for the TypeError the code raises when the id is not in the catalog.
   */
  function ValidateQuantity(catalog: seq<Product>, id: string, entered: Option<int>): (r: Option<int>)
    ensures r.None? <==> FindProduct(catalog, id).None?
    ensures r.Some? ==> var stock := FindProduct(catalog, id).value.stock;
      && (stock >= 1 ==> 1 <= r.value <= stock)
      && (stock < 1 ==> r.value == stock)
      && (entered.Some? && 1 <= entered.value <= stock ==> r.value == entered.value)
      && (entered.Some? && entered.value > stock ==> r.value == stock)
      && (stock >= 1 && (entered.None? || entered.value < 1) ==> r.value == 1)
  {
    match FindProduct(catalog, id)
    case None => None
    case Some(p) =>
      var q := QuantityOrOne(entered);
      var atLeastOne := if q < 1 then 1 else q;
      Some(if atLeastOne > p.stock then p.stock else atLeastOne)
  }

  /** The search predicate of `filterProducts`; `needle` is already lower-cased. */
  predicate MatchesSearch(p: Product, needle: string)
  {
    Includes(Lower(p.name), needle) || (p.description != "" && Includes(Lower(p.description), needle))
  }

  /** `filtered.filter(p => p.category === category)`. */
  function ByCategory(ps: seq<Product>, category: string): (r: seq<Product>)
    ensures SubsequenceOf(r, ps)
    ensures forall p :: p in r <==> p in ps && p.category == category
    ensures forall p :: multiset(r)[p] == if p.category == category then multiset(ps)[p] else 0
    decreases |ps|
  {
    if ps == [] then []
    else
    assert ps == [ps[0]] + ps[1..];
    if ps[0].category == category then [ps[0]] + ByCategory(ps[1..], category)
    else ByCategory(ps[1..], category)
  }

  /** `filtered.filter(p => p.name.toLowerCase().includes(search) || ...)`. */
  function BySearch(ps: seq<Product>, needle: string): (r: seq<Product>)
    ensures SubsequenceOf(r, ps)
    ensures forall p :: p in r <==> p in ps && MatchesSearch(p, needle)
    ensures forall p :: multiset(r)[p] == if MatchesSearch(p, needle) then multiset(ps)[p] else 0
    decreases |ps|
  {
    if ps == [] then []
    else
    assert ps == [ps[0]] + ps[1..];
    if MatchesSearch(ps[0], needle) then [ps[0]] + BySearch(ps[1..], needle)
    else BySearch(ps[1..], needle)
  }

  /**
   * `filterProducts`: an empty category selects every category, an empty search text
   * matches everything; otherwise both conditions must hold. The order of the catalog
   * is kept.
   */
  function FilterProducts(catalog: seq<Product>, category: string, search: string): (r: seq<Product>)
    ensures SubsequenceOf(r, catalog)
    ensures forall p :: p in r <==>
                          && p in catalog
                          && (category != "" ==> p.category == category)
                          && (search != "" ==> MatchesSearch(p, Lower(search)))
    ensures forall p :: multiset(r)[p] ==
                          if && (category != "" ==> p.category == category)
                             && (search != "" ==> MatchesSearch(p, Lower(search)))
                          then multiset(catalog)[p] else 0
    ensures category == "" && search == "" ==> r == catalog
  {
    var needle := Lower(search);
    var byCategory := if category != "" then ByCategory(catalog, category) else catalog;
    SubsequenceOfSelf(catalog);
    var r := if needle != "" then BySearch(byCategory, needle) else byCategory;
    SubsequenceOfSelf(byCategory);
    SubsequenceTransitive(r, byCategory, catalog);
    r
  }

  /** The search is case-insensitive: texts that lower-case alike select the same products. */
  lemma FilterIgnoresSearchCase(catalog: seq<Product>, category: string, s1: string, s2: string)
    requires Lower(s1) == Lower(s2)
    ensures FilterProducts(catalog, category, s1) == FilterProducts(catalog, category, s2)
  {
  }
}
