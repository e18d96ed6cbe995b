/** Searching the product catalog: the case-insensitive search box filter and
    the exact SKU lookup used by the barcode field of the cashier. */
module Catalog {
  import opened Records
  import Text

  /** A product is shown for a search term when its lower-cased name includes
      the lower-cased term, or when it has a non-empty SKU whose lower-cased
      form includes it. */
  predicate Matches(p: Product, term: string) {
    Text.Contains(Text.Lower(p.name), Text.Lower(term))
    || (IsSet(p.sku) && Text.Contains(Text.Lower(p.sku.value), Text.Lower(term)))
  }

  /** The products shown for a search term, in catalog order. */
  function Filter(ps: seq<Product>, term: string): (r: seq<Product>)
    ensures |r| <= |ps|
    ensures forall p :: p in r <==> p in ps && Matches(p, term)
  {
    if ps == [] then []
    else (if Matches(ps[0], term) then [ps[0]] else []) + Filter(ps[1..], term)
  }

  /** `r` is `s` with some elements left out and the rest in their order. */
  ghost predicate IsSubsequence<T>(r: seq<T>, s: seq<T>)
    decreases |s|
  {
    r == [] || (s != [] && ((r[0] == s[0] && IsSubsequence(r[1..], s[1..])) || IsSubsequence(r, s[1..])))
  }

  lemma {:induction false} FilterIsSubsequence(ps: seq<Product>, term: string)
    ensures IsSubsequence(Filter(ps, term), ps)
  {
    if ps != [] {
      FilterIsSubsequence(ps[1..], term);
      var r := Filter(ps, term);
      if Matches(ps[0], term) {
        assert r[0] == ps[0] && r[1..] == Filter(ps[1..], term);
      } else {
        assert r == Filter(ps[1..], term);
      }
    }
  }

  /** An empty search shows the whole catalog. */
  lemma {:induction false} FilterEmptyTermKeepsAll(ps: seq<Product>)
    ensures Filter(ps, "") == ps
  {
    if ps != [] {
      Text.ContainsEmpty(Text.Lower(ps[0].name));
      FilterEmptyTermKeepsAll(ps[1..]);
    }
  }

  /** Filtering what is already filtered by the same term changes nothing. */
  lemma {:induction false} FilterIdempotent(ps: seq<Product>, term: string)
    ensures Filter(Filter(ps, term), term) == Filter(ps, term)
  {
    if ps != [] {
      FilterIdempotent(ps[1..], term);
      if Matches(ps[0], term) {
        var r := Filter(ps, term);
        assert r[0] == ps[0] && r[1..] == Filter(ps[1..], term);
        assert Filter(r, term) == [ps[0]] + Filter(r[1..], term);
      } else {
        assert Filter(ps, term) == Filter(ps[1..], term);
      }
    }
  }

  /** The barcode test: a non-empty SKU equal to the scanned text, ignoring
      the case of ASCII letters. */
  predicate SkuIs(p: Product, value: string) {
    IsSet(p.sku) && Text.Lower(p.sku.value) == Text.Lower(value)
  }

  /** The position of the first product whose SKU is the scanned text. */
  function FindBySku(ps: seq<Product>, value: string): (r: Option<nat>)
    ensures r.Some? ==> r.value < |ps| && SkuIs(ps[r.value], value)
    ensures r.Some? ==> forall j :: 0 <= j < r.value ==> !SkuIs(ps[j], value)
    ensures r.None? <==> forall j :: 0 <= j < |ps| ==> !SkuIs(ps[j], value)
  {
    if ps == [] then None
    else if SkuIs(ps[0], value) then Some(0)
    else match FindBySku(ps[1..], value)
      case None => None
      case Some(k) => Some(k + 1)
  }

  /** A product that matches the scanned SKU exactly is also shown by the
      search filter for that text. */
  lemma SkuMatchIsShown(p: Product, value: string)
    requires SkuIs(p, value)
    ensures Matches(p, value)
  {
    var t := Text.Lower(value);
    assert t <= Text.Lower(p.sku.value);
  }
}
