/** The search page, `frontend/src/pages/Search.js`: the category filter
    followed by the text filter, both on lower-cased product names. */
module Search {
  import opened Common
  import opened Text

  /** `p.name.toLowerCase().includes(needle.toLowerCase())`. */
  predicate NameMatches(p: ProductView, needle: string) {
    Includes(ToLower(p.name), ToLower(needle))
  }

  /** `products.filter(p => NameMatches(p, needle))`. */
  function ByName(products: seq<ProductView>, needle: string): seq<ProductView> {
    if products == [] then []
    else (if NameMatches(products[0], needle) then [products[0]] else []) + ByName(products[1..], needle)
  }

  /** The list the second effect stores: filter by category unless it is
      "All", then by the search text unless it is empty. */
  function Filtered(products: seq<ProductView>, category: string, search: string): seq<ProductView> {
    var byCategory := if category != "All" then ByName(products, category) else products;
    if search != "" then ByName(byCategory, search) else byCategory
  }

  /** The condition a product must meet to be shown. */
  predicate Shown(p: ProductView, category: string, search: string) {
    (category == "All" || NameMatches(p, category)) && (search == "" || NameMatches(p, search))
  }

  /** The name filter keeps every matching product as often as it occurs,
      drops every other, and keeps the original order. */
  lemma {:induction false} ByNameSpec(products: seq<ProductView>, needle: string)
    ensures forall p :: multiset(ByName(products, needle))[p] == if NameMatches(p, needle) then multiset(products)[p] else 0
    ensures forall p :: p in ByName(products, needle) <==> p in products && NameMatches(p, needle)
    ensures IsSubsequence(ByName(products, needle), products)
  {
    if products != [] {
      var rest := ByName(products[1..], needle);
      ByNameSpec(products[1..], needle);
      assert products == [products[0]] + products[1..];
      assert multiset(products) == multiset{products[0]} + multiset(products[1..]);
      if NameMatches(products[0], needle) {
        assert ByName(products, needle) == [products[0]] + rest;
        assert ByName(products, needle)[1..] == rest;
      } else {
        assert ByName(products, needle) == rest;
        if rest != [] {
          assert IsSubsequence(rest, products[1..]);
        }
      }
    }
  }

  /** A list whose every name already matches passes the filter unchanged. */
  lemma {:induction false} ByNameKeepsMatching(products: seq<ProductView>, needle: string)
    requires forall p :: p in products ==> NameMatches(p, needle)
    ensures ByName(products, needle) == products
  {
    if products != [] {
      ByNameKeepsMatching(products[1..], needle);
      assert [products[0]] + products[1..] == products;
    }
  }

  /** The page shows exactly the products meeting both conditions, each as
      often as in the fetched list, in the fetched order. */
  lemma FilteredSpec(products: seq<ProductView>, category: string, search: string)
    ensures forall p :: (multiset(Filtered(products, category, search))[p]
      == if Shown(p, category, search) then multiset(products)[p] else 0)
    ensures forall p :: p in Filtered(products, category, search) <==> p in products && Shown(p, category, search)
    ensures IsSubsequence(Filtered(products, category, search), products)
  {
    var byCategory := if category != "All" then ByName(products, category) else products;
    if category != "All" {
      ByNameSpec(products, category);
    } else {
      SubsequenceReflexive(products);
    }
    if search != "" {
      ByNameSpec(byCategory, search);
      SubsequenceTransitive(ByName(byCategory, search), byCategory, products);
    }
  }

  /** Filtering the shown list again with the same choices changes nothing. */
  lemma FilteredIdempotent(products: seq<ProductView>, category: string, search: string)
    ensures Filtered(Filtered(products, category, search), category, search) == Filtered(products, category, search)
  {
    var shown := Filtered(products, category, search);
    FilteredSpec(products, category, search);
    if category != "All" {
      ByNameKeepsMatching(shown, category);
    }
    if search != "" {
      ByNameKeepsMatching(shown, search);
    }
  }

  /** With "All" and no search text the whole fetched list is shown. */
  lemma NoChoicesShowEverything(products: seq<ProductView>)
    ensures Filtered(products, "All", "") == products
  {
  }
}
