/**
 * The shop list: the search and category filter over the products, the
 * number of items in the cart, and when the cart badge shows.
 */
module ShopScreen {
  import opened Text
  import opened Seqs
  import opened ShopStore

  const AllCategories: string := "all"

  /**
   * The query, lower-cased, occurs in the lower-cased name or description,
   * and the category is `"all"` or exactly the product's (case-sensitive).
   */
  predicate Matches(query: string, category: string, p: Product) {
    (Includes(ToLower(p.name), ToLower(query)) || Includes(ToLower(p.description), ToLower(query)))
    && (category == AllCategories || p.category == category)
  }

  function MatchesFilter(query: string, category: string): Product -> bool {
    p => Matches(query, category, p)
  }

  /** `filteredProducts`: exactly the matching products, in their original order. */
  function FilteredProducts(products: seq<Product>, query: string, category: string): (r: seq<Product>)
    ensures forall i :: 0 <= i < |r| ==> Matches(query, category, r[i]) && r[i] in products
    ensures forall i :: 0 <= i < |products| && Matches(query, category, products[i]) ==> products[i] in r
    ensures forall i :: 0 <= i < |products| ==>
      multiset(r)[products[i]] == if Matches(query, category, products[i]) then multiset(products)[products[i]] else 0
    ensures IsSubsequence(r, products)
  {
    Filter(products, MatchesFilter(query, category))
  }

  /** With no query and the "all" category nothing is filtered out. */
  lemma NoFilterKeepsAll(products: seq<Product>)
    ensures FilteredProducts(products, "", AllCategories) == products
  {
    forall i | 0 <= i < |products| ensures MatchesFilter("", AllCategories)(products[i]) {
      EmptyIncluded(ToLower(products[i].name));
    }
    FilterKeepsAll(products, MatchesFilter("", AllCategories));
  }

  /** A category other than "all" keeps only products of exactly that category. */
  lemma CategoryIsExact(products: seq<Product>, query: string, category: string)
    requires category != AllCategories
    ensures forall p :: p in FilteredProducts(products, query, category) ==> p.category == category
  {
  }

  /** The category tabs the screen offers besides "all". */
  const CategoryTabs: seq<string> := ["cups", "accessories", "apparel", "equipment"]

  /**
   * No tab other than "all" names a category the store's products carry
   * ("Putters", "Balls", "Accessories"), so every such tab lists nothing.
   */
  lemma CategoryTabsListNothing(query: string, k: nat)
    requires k < |CategoryTabs|
    ensures FilteredProducts(MockProducts, query, CategoryTabs[k]) == []
  {
    forall j | 0 <= j < |MockProducts| ensures MockProducts[j].category != CategoryTabs[k] {
      MockCategories(j);
    }
    UnusedCategoryListsNothing(MockProducts, query, CategoryTabs[k]);
  }

  /** A category no product carries lists nothing. */
  lemma UnusedCategoryListsNothing(products: seq<Product>, query: string, category: string)
    requires category != AllCategories
    requires forall j :: 0 <= j < |products| ==> products[j].category != category
    ensures FilteredProducts(products, query, category) == []
  {
  }

  lemma MockCategories(j: nat)
    requires j < |MockProducts|
    ensures MockProducts[j].category in ["Putters", "Balls", "Accessories"]
  {
  }

  /** The categories the products carry, each once, in order of first appearance. */
  function ProductCategoryTabs(products: seq<Product>): (tabs: seq<string>)
    ensures NoDup(tabs)
    ensures forall i :: 0 <= i < |products| ==> products[i].category in tabs
    ensures forall k :: 0 <= k < |tabs| ==> exists i :: 0 <= i < |products| && products[i].category == tabs[k]
  {
    var cats := seq(|products|, i requires 0 <= i < |products| => products[i].category);
    assert forall i :: 0 <= i < |products| ==> cats[i] == products[i].category;
    Dedup(cats)
  }

  /** With tabs taken from the products' own categories, every tab lists at least one product. */
  lemma ProductTabsListSomething(products: seq<Product>, k: nat)
    requires k < |ProductCategoryTabs(products)|
    ensures FilteredProducts(products, "", ProductCategoryTabs(products)[k]) != []
  {
    var t := ProductCategoryTabs(products)[k];
    var i :| 0 <= i < |products| && products[i].category == t;
    EmptyIncluded(ToLower(products[i].name));
    assert Matches("", t, products[i]);
  }

  /** `getCartItemCount`, written as a sum from the front (the store's count folds from the back). */
  function ItemCount(cart: seq<CartItem>): int {
    if cart == [] then 0 else cart[0].quantity + ItemCount(cart[1..])
  }

  /** `getCartItemCount`'s front-to-back sum agrees with the store's left fold. */
  lemma {:induction false} ItemCountIsCartCount(cart: seq<CartItem>)
    ensures ItemCount(cart) == CartCount(cart)
    decreases |cart|
  {
    if cart != [] {
      var n := |cart| - 1;
      ItemCountIsCartCount(cart[1..]);
      if n > 0 {
        assert cart[1..][..n - 1] == cart[..n][1..];
        ItemCountIsCartCount(cart[..n][1..]);
        ItemCountIsCartCount(cart[..n]);
        assert cart[1..][n - 1] == cart[n];
      } else {
        assert cart[..n] == [];
      }
    }
  }

  /** The badge is shown only when the cart holds items. */
  predicate ShowBadge(cart: seq<CartItem>) {
    ItemCount(cart) > 0
  }

  /** When every quantity is positive, the badge shows exactly for a non-empty cart. */
  lemma {:induction false} BadgeIffNonEmpty(cart: seq<CartItem>)
    requires forall i :: 0 <= i < |cart| ==> cart[i].quantity > 0
    ensures ShowBadge(cart) <==> cart != []
    ensures ItemCount(cart) >= |cart|
    decreases |cart|
  {
    if cart != [] {
      BadgeIffNonEmpty(cart[1..]);
    }
  }
}
