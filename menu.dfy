/**
 * The public menu: the case-insensitive name search over the catalogue
 * (shared with the sales and stock screens), the icon chosen from a product
 * name, and the stock badge.
 */
module Menu {
  import opened Base
  import opened Js
  import opened Types

  /** The search predicate: the lower-cased name includes the lower-cased term. */
  predicate NameMatches(p: Product, search: string)
  {
    Contains(Lower(p.nome), Lower(search))
  }

  /** `products.filter(p => p.nome.toLowerCase().includes(search.toLowerCase()))` */
  function FilteredProducts(products: seq<Product>, search: string): (r: seq<Product>)
    ensures forall i :: 0 <= i < |r| ==> r[i] in products && NameMatches(r[i], search)
    ensures forall i :: 0 <= i < |products| && NameMatches(products[i], search) ==> products[i] in r
    ensures forall p :: multiset(r)[p] == if NameMatches(p, search) then multiset(products)[p] else 0
  {
    FilterCounts(products, (p: Product) => NameMatches(p, search));
    Filter(products, (p: Product) => NameMatches(p, search))
  }

  /** The listed products keep the catalogue order. */
  lemma FilteredProductsOrder(products: seq<Product>, search: string)
    ensures IsSubsequence(FilteredProducts(products, search), products)
  {
    FilterIsSubsequence(products, (p: Product) => NameMatches(p, search));
  }

  /** An empty search lists the whole catalogue. */
  lemma EmptySearchListsAll(products: seq<Product>)
    ensures FilteredProducts(products, "") == products
  {
    forall i | 0 <= i < |products| ensures NameMatches(products[i], "") {
      ContainsEmpty(Lower(products[i].nome));
    }
    FilterKeepsAll(products, (p: Product) => NameMatches(p, ""));
  }

  datatype Icon = WineIcon | BeerIcon | EnergyIcon | GlassIcon

  /** `getCategoryIcon(name)`: the first keyword found in the lower-cased name decides. */
  function CategoryIcon(name: string): (icon: Icon)
    ensures var n := Lower(name);
      && (icon == WineIcon <==> Contains(n, "vinho"))
      && (icon == BeerIcon <==> !Contains(n, "vinho") && Contains(n, "cerveja"))
      && (icon == EnergyIcon <==>
            !Contains(n, "vinho") && !Contains(n, "cerveja") && (Contains(n, "energ\U{E9}tico") || Contains(n, "energetico")))
  {
    var n := Lower(name);
    if Contains(n, "vinho") then WineIcon
    else if Contains(n, "cerveja") then BeerIcon
    else if Contains(n, "energ\U{E9}tico") || Contains(n, "energetico") then EnergyIcon
    else GlassIcon
  }

  /** Every name has exactly one icon, and the default one only when no keyword occurs. */
  lemma CategoryIconDefault(name: string)
    ensures CategoryIcon(name) == GlassIcon <==>
      var n := Lower(name);
      !Contains(n, "vinho") && !Contains(n, "cerveja") && !Contains(n, "energ\U{E9}tico") && !Contains(n, "energetico")
  {
  }

  /** Lower-casing twice is lower-casing once. */
  lemma {:induction false} LowerIdempotent(s: string)
    ensures Lower(Lower(s)) == Lower(s)
  {
    var l := Lower(s);
    assert |Lower(l)| == |l|;
    forall i | 0 <= i < |l| ensures Lower(l)[i] == l[i] {
      var c := s[i];
      assert l[i] == LowerChar(c);
    }
  }

  /** The icon does not depend on the case of the name. */
  lemma CategoryIconIgnoresCase(name: string)
    ensures CategoryIcon(Lower(name)) == CategoryIcon(name)
  {
    LowerIdempotent(name);
  }

  /** The badge is "Em estoque" exactly when there is stock, "Esgotado" otherwise. */
  function StockBadge(p: Product): (badge: string)
    ensures badge == "Em estoque" <==> p.qtd > 0
    ensures badge == "Esgotado" <==> p.qtd <= 0
  {
    if p.qtd > 0 then "Em estoque" else "Esgotado"
  }
}
