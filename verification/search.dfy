/**
 * The text search page (components/SearchPage.tsx): a case-insensitive
 * substring match of the typed term against each product's name and brand,
 * and the three mutually exclusive things the page shows below the search
 * bar: the genre grid, the results, or the "no results" notice.
 */
module Search {
  import opened Types
  import opened Seqs
  import opened Ascii

  /** The product's name or its brand, lower-cased, contains the lower-cased term. */
  predicate Matches(p: Product, lowered: string) {
    Contains(ToLower(p.name), lowered) || Contains(ToLower(p.brand), lowered)
  }

  /**
   * `filteredProducts`: nothing while the term is blank, otherwise the products
   * whose name or brand contains the term, compared in lower case. The term
   * itself is not trimmed before matching.
   */
  function FilteredProducts(products: seq<Product>, term: string): (r: seq<Product>)
    ensures IsBlank(term) ==> r == []
    ensures !IsBlank(term) ==>
      forall p :: p in r <==> p in products && Matches(p, ToLower(term))
    ensures IsSubsequence(r, products)
  {
    if IsBlank(term) then []
    else
      var lowered := ToLower(term);
      Filter((p: Product) => Matches(p, lowered), products)
  }

  /** `hasResults`: a non-blank term found something. */
  predicate HasResults(products: seq<Product>, term: string) {
    Trim(term) != [] && |FilteredProducts(products, term)| > 0
  }

  /** `noResults`: a non-blank term found nothing. */
  predicate NoResults(products: seq<Product>, term: string) {
    Trim(term) != [] && |FilteredProducts(products, term)| == 0
  }

  /** The genre grid is rendered while the trimmed term is empty. */
  predicate GenreGridShown(term: string) {
    Trim(term) == []
  }

  /** Exactly one of the grid, the results and the notice is on screen. */
  lemma ExactlyOnePanel(products: seq<Product>, term: string)
    ensures GenreGridShown(term) <==> !HasResults(products, term) && !NoResults(products, term)
    ensures !(HasResults(products, term) && NoResults(products, term))
    ensures GenreGridShown(term) <==> IsBlank(term)
  {
    TrimEmptyIffBlank(term);
  }

  /** A non-blank term finds every product whose name it spells in any letter case. */
  lemma FindsByName(products: seq<Product>, p: Product, term: string, before: string, after: string)
    requires p in products && !IsBlank(term)
    requires ToLower(p.name) == before + ToLower(term) + after
    ensures p in FilteredProducts(products, term)
  {
    var needle := ToLower(term);
    var rest := needle + after;
    assert ToLower(p.name) == before + rest;
    ContainsPrefix(rest, needle, after);
    ContainsAfter(before, rest, needle);
  }

  /** If the tail of a string contains a needle, so does the whole string. */
  lemma {:induction false} ContainsAfter(before: string, rest: string, needle: string)
    requires Contains(rest, needle)
    ensures Contains(before + rest, needle)
    decreases |before|
  {
    if before != [] {
      ContainsAfter(before[1..], rest, needle);
      assert (before + rest)[1..] == before[1..] + rest;
    } else {
      assert before + rest == rest;
    }
  }

  /** The search ignores the letter case of the term. */
  lemma IgnoresCase(products: seq<Product>, term: string)
    ensures FilteredProducts(products, ToLower(term)) == FilteredProducts(products, term)
  {
    ToLowerIdempotent(term);
    ToLowerBlank(term);
  }

  /** Typing more characters after a non-blank term can only narrow the results. */
  lemma {:induction false} TypingNarrows(products: seq<Product>, term: string, more: string)
    requires !IsBlank(term)
    ensures forall p :: p in FilteredProducts(products, term + more) ==> p in FilteredProducts(products, term)
  {
    assert !IsBlank(term + more) by {
      var i :| 0 <= i < |term| && !IsSpace(term[i]);
      assert (term + more)[i] == term[i];
    }
    ToLowerAppend(term, more);
    forall p | p in FilteredProducts(products, term + more)
      ensures p in FilteredProducts(products, term)
    {
      if Contains(ToLower(p.name), ToLower(term) + ToLower(more)) {
        ContainsShorter(ToLower(p.name), ToLower(term), ToLower(more));
      } else {
        ContainsShorter(ToLower(p.brand), ToLower(term), ToLower(more));
      }
    }
  }
}
