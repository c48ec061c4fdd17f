/**
 * The web app's table of expense categories (value, display name, colour) and
 * the lookups the pages use to show a category.
 */
module CategoryTable {
  import opened Wrappers
  import opened Text
  import Categories

  /** One row of `EXPENSE_CATEGORIES` in the web app; `name` is the row's display label. */
  datatype CategoryInfo = CategoryInfo(value: string, name: string, color: string)

  const Table: seq<CategoryInfo> := [
    CategoryInfo("materiales", "Materiales", "#3498DB"),
    CategoryInfo("herramientas", "Herramientas", "#E67E22"),
    CategoryInfo("transporte", "Transporte", "#F1C40F"),
    CategoryInfo("mano de obra", "Mano de obra", "#9B59B6"),
    CategoryInfo("comida", "Comida", "#27AE60"),
    CategoryInfo("otros", "Otros", "#95A5A6")
  ]

  /** The colour of a value the table does not know. */
  const DefaultColor: string := "#95A5A6"

  /** The inline style of a category badge. */
  datatype Styles = Styles(backgroundColor: string, color: string)

  /** `EXPENSE_CATEGORIES.find(c => c.value === value)`, searching from row `i`. */
  function FindFrom(value: string, i: nat): (r: Option<CategoryInfo>)
    requires i <= |Table|
    ensures r.Some? ==> exists k :: i <= k < |Table| && Table[k] == r.value && Table[k].value == value
    ensures r.Some? ==> forall k :: i <= k < |Table| && Table[k] == r.value ==> forall j :: i <= j < k ==> Table[j].value != value
    ensures r.None? <==> forall k :: i <= k < |Table| ==> Table[k].value != value
    decreases |Table| - i
  {
    if i == |Table| then None
    else if Table[i].value == value then Some(Table[i])
    else FindFrom(value, i + 1)
  }

  function Find(value: string): (r: Option<CategoryInfo>)
    ensures r.Some? ==> r.value in Table && r.value.value == value
    ensures r.None? <==> forall k :: 0 <= k < |Table| ==> Table[k].value != value
  {
    FindFrom(value, 0)
  }

  /** `getCategoryLabel`: the row's label, or the value with its first letter capitalised. */
  function CategoryLabel(value: string): (r: string)
    ensures forall k :: 0 <= k < |Table| && Table[k].value == value ==> r == Table[k].name
    ensures (forall k :: 0 <= k < |Table| ==> Table[k].value != value) ==> r == CapitalizeFirst(value)
  {
    match Find(value)
    case Some(c) => c.name
    case None => CapitalizeFirst(value)
  }

  /** `getCategoryColor`: the row's colour, or the grey of `otros`. */
  function CategoryColor(value: string): (r: string)
    ensures forall k :: 0 <= k < |Table| && Table[k].value == value ==> r == Table[k].color
    ensures (forall k :: 0 <= k < |Table| ==> Table[k].value != value) ==> r == DefaultColor
    ensures |r| == 7 && r[0] == '#'
  {
    match Find(value)
    case Some(c) => c.color
    case None => DefaultColor
  }

  /** `getCategoryStyles`: the colour, and the same colour at alpha `26` as the background. */
  function CategoryStyles(value: string): (r: Styles)
    ensures r.color == CategoryColor(value)
    ensures |r.backgroundColor| == 9 && r.backgroundColor[..7] == r.color && r.backgroundColor[7..] == "26"
  {
    var color := CategoryColor(value);
    Styles(color + "26", color)
  }

  /** The values of the table are pairwise distinct, so a lookup finds at most one row. */
  lemma ValuesDistinct(i: nat, j: nat)
    requires i < j < |Table|
    ensures Table[i].value != Table[j].value
  {
  }

  /** The web table lists the same categories as the server, in the same order. */
  lemma TableMatchesServer()
    ensures |Table| == |Categories.ServerCategories|
    ensures forall k :: 0 <= k < |Table| ==> Table[k].value == Categories.ServerCategories[k]
  {
  }

  /** Every row's label is its value capitalised, so the label of any value is its capitalised form. */
  lemma LabelIsCapitalized(value: string)
    ensures CategoryLabel(value) == CapitalizeFirst(value)
  {
    match Find(value)
    case Some(c) =>
      var k :| 0 <= k < |Table| && Table[k] == c;
      RowLabelIsCapitalized(k);
    case None =>
  }

  lemma RowLabelIsCapitalized(k: nat)
    requires k < |Table|
    ensures Table[k].name == CapitalizeFirst(Table[k].value)
  {
    if k < 3 { FirstRowsCapitalized(k); } else { LastRowsCapitalized(k); }
  }

  /** The first three rows, `materiales` to `transporte`. */
  lemma FirstRowsCapitalized(k: nat)
    requires k < 3
    ensures Table[k].name == CapitalizeFirst(Table[k].value)
  {
    var v := Table[k].value;
    assert CapitalizeFirst(v) == [ToUpperChar(v[0])] + v[1..];
    if k == 0 { assert v[1..] == "ateriales" && ToUpperChar(v[0]) == 'M'; }
    else if k == 1 { assert v[1..] == "erramientas" && ToUpperChar(v[0]) == 'H'; }
    else { assert v[1..] == "ransporte" && ToUpperChar(v[0]) == 'T'; }
  }

  /** The last three rows, `mano de obra` to `otros`. */
  lemma LastRowsCapitalized(k: nat)
    requires 3 <= k < |Table|
    ensures Table[k].name == CapitalizeFirst(Table[k].value)
  {
    var v := Table[k].value;
    assert CapitalizeFirst(v) == [ToUpperChar(v[0])] + v[1..];
    if k == 3 { assert v[1..] == "ano de obra" && ToUpperChar(v[0]) == 'M'; }
    else if k == 4 { assert v[1..] == "omida" && ToUpperChar(v[0]) == 'C'; }
    else { assert v[1..] == "tros" && ToUpperChar(v[0]) == 'O'; }
  }

  /** A value the table does not know is drawn in the colour of `otros`. */
  lemma UnknownColorIsOther(value: string)
    requires Find(value).None?
    ensures CategoryColor(value) == CategoryColor(Categories.Other)
  {
    assert Table[5].value == Categories.Other;
  }
}
