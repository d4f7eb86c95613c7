/** The storefront search box: a case-insensitive substring match on a
    product's name or description that keeps the catalogue's order. */
module Search {
  import opened CartItems

  /** Lower-casing of one character, on the ASCII letters. */
  function LowerChar(c: char): char {
    if 'A' <= c <= 'Z' then (c as int + 32) as char else c
  }

  function Lower(s: string): (r: string)
    ensures |r| == |s|
    ensures forall i :: 0 <= i < |s| ==> r[i] == LowerChar(s[i])
  {
    if s == [] then [] else [LowerChar(s[0])] + Lower(s[1..])
  }

  lemma LowerIdempotent(s: string)
    ensures Lower(Lower(s)) == Lower(s)
  {
  }

  /** `t` occurs in `s` starting at index `i`. */
  predicate OccursAt(s: string, t: string, i: int) {
    0 <= i && i + |t| <= |s| && s[i..i + |t|] == t
  }

  /** `s.includes(t)`. */
  function Includes(s: string, t: string): (r: bool)
    ensures r <==> exists i :: OccursAt(s, t, i)
  {
    if |t| > |s| then
      assert forall i :: !OccursAt(s, t, i);
      false
    else if s[..|t|] == t then
      assert OccursAt(s, t, 0);
      true
    else
      ShiftOccurrences(s, t);
      Includes(s[1..], t)
  }

  /** When `t` is not a prefix of `s`, the occurrences in `s` are exactly
      those in `s[1..]`, shifted by one. */
  lemma ShiftOccurrences(s: string, t: string)
    requires |t| <= |s| && s[..|t|] != t
    ensures (exists i :: OccursAt(s, t, i)) <==> (exists i :: OccursAt(s[1..], t, i))
  {
    if exists i :: OccursAt(s, t, i) {
      var i :| OccursAt(s, t, i);
      assert i != 0;
      assert s[1..][i - 1..i - 1 + |t|] == s[i..i + |t|];
      assert OccursAt(s[1..], t, i - 1);
    }
    if exists i :: OccursAt(s[1..], t, i) {
      var i :| OccursAt(s[1..], t, i);
      assert s[1..][i..i + |t|] == s[i + 1..i + 1 + |t|];
      assert OccursAt(s, t, i + 1);
    }
  }

  /** The filter's predicate: the lower-cased name or description contains the
      lower-cased search term. */
  predicate Matches(p: Product, term: string) {
    Includes(Lower(p.name), Lower(term)) || Includes(Lower(p.description), Lower(term))
  }

  /** The products to render for a search term. */
  function Filter(products: seq<Product>, term: string): (r: seq<Product>)
    ensures |r| <= |products|
    ensures forall p :: p in r <==> p in products && Matches(p, term)
  {
    if products == [] then []
    else (if Matches(products[0], term) then [products[0]] else []) + Filter(products[1..], term)
  }

  /** Filtering distributes over concatenation: the result keeps the
      catalogue's order. */
  lemma {:induction false} FilterAppend(a: seq<Product>, b: seq<Product>, term: string)
    ensures Filter(a + b, term) == Filter(a, term) + Filter(b, term)
  {
    if a == [] {
      assert a + b == b;
    } else {
      assert (a + b)[1..] == a[1..] + b;
      FilterAppend(a[1..], b, term);
    }
  }

  /** An empty search box shows the whole catalogue. */
  lemma {:induction false} EmptyTermKeepsAll(products: seq<Product>)
    ensures Filter(products, "") == products
  {
    if products != [] {
      assert OccursAt(Lower(products[0].name), Lower(""), 0);
      EmptyTermKeepsAll(products[1..]);
    }
  }

  /** The search ignores the case of the term. */
  lemma {:induction false} FilterIgnoresTermCase(products: seq<Product>, term: string)
    ensures Filter(products, Lower(term)) == Filter(products, term)
  {
    LowerIdempotent(term);
    if products != [] {
      FilterIgnoresTermCase(products[1..], term);
    }
  }
}
