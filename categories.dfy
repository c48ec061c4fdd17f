/**
 * The fixed list of expense categories the server accepts, and the
 * normalisation that maps any free-text label (typed after `c:`, or proposed
 * by the assistant) onto it.
 */
module Categories {
  import opened Text

  /** `EXPENSE_CATEGORIES` on the server, in its order. */
  const ServerCategories: seq<string> := ["materiales", "herramientas", "transporte", "mano de obra", "comida", "otros"]

  /** The fallback category. */
  const Other: string := "otros"

  /** A category and a lower-cased label overlap when either contains the other. */
  predicate Overlaps(category: string, text: string) {
    Contains(category, text) || Contains(text, category)
  }

  /** The index of the first category from `i` on that overlaps `text`, or the list's length. */
  function FirstOverlap(text: string, i: nat): (k: nat)
    requires i <= |ServerCategories|
    ensures i <= k <= |ServerCategories|
    ensures k < |ServerCategories| ==> Overlaps(ServerCategories[k], text)
    ensures forall j :: i <= j < k ==> !Overlaps(ServerCategories[j], text)
    decreases |ServerCategories| - i
  {
    if i == |ServerCategories| || Overlaps(ServerCategories[i], text) then i
    else FirstOverlap(text, i + 1)
  }

  /**
   * The text lower-cased, then the first category that contains it or is
   * contained in it, and `otros` when there is none.
   */
  function NormalizeCategory(text: string): (r: string)
    ensures r in ServerCategories
    ensures (forall c :: c in ServerCategories ==> !Overlaps(c, Lower(text))) ==> r == Other
    ensures r != Other ==> Overlaps(r, Lower(text))
  {
    var k := FirstOverlap(Lower(text), 0);
    if k < |ServerCategories| then ServerCategories[k] else Other
  }

  /** When some category overlaps the text, the result is the first one that does. */
  lemma NormalizeCategoryIsFirst(text: string, i: nat)
    requires i < |ServerCategories| && Overlaps(ServerCategories[i], Lower(text))
    requires forall j :: 0 <= j < i ==> !Overlaps(ServerCategories[j], Lower(text))
    ensures NormalizeCategory(text) == ServerCategories[i]
  {
    var k := FirstOverlap(Lower(text), 0);
    assert k == i;
  }

  /** An empty text is contained in every category, so it lands on the first one. */
  lemma EmptyLabelIsFirstCategory()
    ensures NormalizeCategory("") == "materiales"
  {
    ContainsEmpty(ServerCategories[0]);
    NormalizeCategoryIsFirst("", 0);
  }

  /** A category name never contains a name that comes before it in the list, nor is contained in one. */
  lemma CategoriesAreSeparate(i: nat, j: nat)
    requires j < i < |ServerCategories|
    ensures !Overlaps(ServerCategories[j], ServerCategories[i])
  {
    var a, b := ServerCategories[j], ServerCategories[i];
    NotContains(a, b);
    NotContains(b, a);
  }

  /** Two different names of the list: neither holds the other, as their letters show. */
  lemma NotContains(a: string, b: string)
    requires a in ServerCategories && b in ServerCategories && a != b
    ensures !Contains(a, b)
  {
    ContainsIff(a, b);
    forall i: int ensures !OccursAt(a, b, i) {
      if 0 <= i && i + |b| <= |a| {
        Mismatch(a, b, i);
        var s := a[i..i + |b|];
        assert s[0] == a[i] && s[1] == a[i + 1] && s[|b| - 1] == a[i + |b| - 1];
      }
    }
  }

  /** Wherever `b` could sit inside `a`, its first two characters or its last one disagree. */
  lemma Mismatch(a: string, b: string, i: nat)
    requires a in ServerCategories && b in ServerCategories && a != b
    requires i + |b| <= |a|
    ensures |b| >= 2
    ensures a[i] != b[0] || a[i + 1] != b[1] || a[i + |b| - 1] != b[|b| - 1]
  {
  }

  /** Every listed category is mapped to itself. */
  lemma NormalizeCategoryFixed(i: nat)
    requires i < |ServerCategories|
    ensures NormalizeCategory(ServerCategories[i]) == ServerCategories[i]
  {
    var c := ServerCategories[i];
    assert Lower(c) == c;
    assert StartsWith(c, c) by { assert c[..|c|] == c; }
    assert Overlaps(c, c);
    forall j | 0 <= j < i ensures !Overlaps(ServerCategories[j], Lower(c)) {
      CategoriesAreSeparate(i, j);
    }
    NormalizeCategoryIsFirst(c, i);
  }

  /** Normalising twice is normalising once. */
  lemma NormalizeCategoryIdempotent(text: string)
    ensures NormalizeCategory(NormalizeCategory(text)) == NormalizeCategory(text)
  {
    var r := NormalizeCategory(text);
    var i :| 0 <= i < |ServerCategories| && ServerCategories[i] == r;
    NormalizeCategoryFixed(i);
  }
}
