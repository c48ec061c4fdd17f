/**
 * The parser of a typed expense line such as
 * `$1.234,56 Clavos y tornillos #flores3b c:materiales d:para la losa`:
 * an amount in the local notation, a title, and optionally a project tag
 * (`#tag`), a category (`c:`) and a description (`d:`).
 *
 * Each regular expression of the parser is modelled by the positions its match
 * occupies: greedy runs end where the character class stops, a lazy `.+?`
 * ends at its first admissible position, and a search finds the leftmost
 * match.
 */
module ExpenseParser {
  import opened Wrappers
  import opened Text
  import opened LocalAmount

  /** What a parsed line yields; `projectTag` and `category` are `null` in the source when absent. */
  datatype ParsedExpense = ParsedExpense(
    amount: real,
    title: string,
    projectTag: Option<string>,
    category: Option<string>,
    description: string)

  /** The text a regular-expression `.` can run over in one go. */
  predicate NoLineTerminators(s: string) {
    forall k :: 0 <= k < |s| ==> !IsLineTerminator(s[k])
  }

  // ---------------------------------------------------------------------------
  // The amount line: /^\$?\s*([\d.,]+)\s+(.+)$/
  // ---------------------------------------------------------------------------

  /** The two groups of the amount pattern. */
  datatype AmountLine = AmountLine(amountText: string, rest: string)

  /**
   * A way for `/^\$?\s*([\d.,]+)\s+(.+)$/` to match `t`: the optional `$`
   * ends at `p0`, blanks run to `p1`, the amount group runs to `p2`, blanks
   * run to `p3`, and the last group, from `p3` to the end, holds no line
   * break. The match the regular expression reports is the greedy one, whose
   * last group does not start with a blank.
   */
  predicate AmountMatch(t: string, p0: int, p1: int, p2: int, p3: int) {
    && 0 <= p0 <= p1 < p2 < p3 < |t|
    && (p0 == 0 || (p0 == 1 && t[0] == '$'))
    && (forall k :: p0 <= k < p1 ==> IsSpace(t[k]))
    && (forall k :: p1 <= k < p2 ==> IsAmountChar(t[k]))
    && (forall k :: p2 <= k < p3 ==> IsSpace(t[k]))
    && NoLineTerminators(t[p3..])
  }

  predicate GreedyAmountMatch(t: string, p0: int, p1: int, p2: int, p3: int) {
    AmountMatch(t, p0, p1, p2, p3) && !IsSpace(t[p3])
  }

  /**
   * Matching the amount pattern against the trimmed message: no match exactly
   * when the pattern cannot match in any way, and otherwise the groups of the
   * greedy match.
   */
  function SplitAmountLine(t: string): (r: Option<AmountLine>)
    requires IsTrimmed(t)
    ensures r.None? <==> forall p0, p1, p2, p3 :: !AmountMatch(t, p0, p1, p2, p3)
    ensures forall p0, p1, p2, p3 :: GreedyAmountMatch(t, p0, p1, p2, p3) ==>
      r == Some(AmountLine(t[p1..p2], t[p3..]))
    ensures r.Some? ==> r.value.amountText != [] && AllAmountChars(r.value.amountText)
    ensures r.Some? ==> r.value.rest != [] && !IsSpace(r.value.rest[0]) && NoLineTerminators(r.value.rest)
    ensures r.Some? ==> IsTrimmed(r.value.rest)
    ensures r.Some? ==> |r.value.amountText| + |r.value.rest| < |t|
  {
    var p0 := if |t| > 0 && t[0] == '$' then 1 else 0;
    var p1 := SkipSpaces(t, p0);
    var p2 := AmountRun(t, p1);
    var p3 := SkipSpaces(t, p2);
    AmountMatchesAreGreedy(t);
    if p1 < p2 < p3 < |t| && NoLineTerminators(t[p3..]) then
      assert GreedyAmountMatch(t, p0, p1, p2, p3);
      Some(AmountLine(t[p1..p2], t[p3..]))
    else
      None
  }

  /**
   * Any match of the amount pattern has the positions the greedy scan finds,
   * except that its last group may start earlier, on blanks; the greedy scan
   * then matches too.
   */
  lemma AmountMatchPositions(t: string, p0: int, p1: int, p2: int, p3: int)
    requires IsTrimmed(t) && AmountMatch(t, p0, p1, p2, p3)
    ensures p0 == (if t[0] == '$' then 1 else 0)
    ensures p1 == SkipSpaces(t, p0) && p2 == AmountRun(t, p1)
    ensures p3 <= SkipSpaces(t, p2) < |t|
    ensures !IsSpace(t[p3]) ==> p3 == SkipSpaces(t, p2)
    ensures NoLineTerminators(t[SkipSpaces(t, p2)..])
  {
    if t[0] == '$' && p0 == 0 {
      assert false;
    }
    SkipSpacesOver(t, p0, p1);
    AmountRunOver(t, p1, p2);
    var e := SkipSpaces(t, p2);
    assert !IsSpace(t[|t| - 1]);
    if !IsSpace(t[p3]) {
      SkipSpacesOver(t, p2, p3);
    }
    assert t[e..] == t[p3..][e - p3..];
  }

  lemma AmountMatchesAreGreedy(t: string)
    requires IsTrimmed(t)
    ensures forall p0, p1, p2, p3 :: AmountMatch(t, p0, p1, p2, p3) ==>
      && p0 == (if t[0] == '$' then 1 else 0)
      && p1 == SkipSpaces(t, p0) && p2 == AmountRun(t, p1)
      && p3 <= SkipSpaces(t, p2) < |t|
      && (!IsSpace(t[p3]) ==> p3 == SkipSpaces(t, p2))
      && NoLineTerminators(t[SkipSpaces(t, p2)..])
  {
    forall p0, p1, p2, p3 | AmountMatch(t, p0, p1, p2, p3)
      ensures && p0 == (if t[0] == '$' then 1 else 0)
              && p1 == SkipSpaces(t, p0) && p2 == AmountRun(t, p1)
              && p3 <= SkipSpaces(t, p2) < |t|
              && (!IsSpace(t[p3]) ==> p3 == SkipSpaces(t, p2))
              && NoLineTerminators(t[SkipSpaces(t, p2)..])
    {
      AmountMatchPositions(t, p0, p1, p2, p3);
    }
  }

  // ---------------------------------------------------------------------------
  // The project tag: /#(\S+)/ and its removal
  // ---------------------------------------------------------------------------

  /** What one extraction step found, and the text left for the next step. */
  datatype Extracted = Extracted(found: Option<string>, rest: string)

  /** A `#` followed by a non-white-space character at `i`. */
  predicate TagAt(s: string, i: nat) {
    i + 1 < |s| && s[i] == '#' && !IsSpace(s[i + 1])
  }

  /** The leftmost match of `#\S+` from `from` on, or `|s|` when there is none. */
  function FindTag(s: string, from: nat): (i: nat)
    requires from <= |s|
    ensures from <= i <= |s|
    ensures i < |s| ==> TagAt(s, i)
    ensures forall j :: from <= j < i ==> !TagAt(s, j)
    decreases |s| - from
  {
    if from == |s| || TagAt(s, from) then from else FindTag(s, from + 1)
  }

  /**
   * The match of `#\S+` the regular expression reports: the leftmost `#`
   * that has a non-blank after it, at `i`, and the greedy run of non-blanks
   * after it, which ends at `e`.
   */
  predicate FirstTagMatch(s: string, i: int, e: int) {
    && 0 <= i && i + 1 < e <= |s| && s[i] == '#'
    && (forall k :: i + 1 <= k < e ==> !IsSpace(s[k]))
    && (e == |s| || IsSpace(s[e]))
    && (forall j :: 0 <= j < i ==> !TagAt(s, j))
  }

  /**
   * The tag is the lower-cased `\S+` after the first `#` that has one; the
   * matched `#tag` is cut out and the rest trimmed. Without a match the text
   * stays as it is.
   */
  function ExtractTag(s: string): (r: Extracted)
    ensures forall i, e :: FirstTagMatch(s, i, e) ==>
      r == Extracted(Some(Lower(s[i + 1..e])), Trim(s[..i] + s[e..]))
    ensures r.found.Some? ==> r.found.value != []
    ensures r.found.Some? ==> forall k :: 0 <= k < |r.found.value| ==> !IsSpace(r.found.value[k])
    ensures r.found.Some? ==> forall k :: 0 <= k < |r.found.value| ==> ToLowerChar(r.found.value[k]) == r.found.value[k]
    ensures r.found.None? <==> forall j :: 0 <= j < |s| ==> !TagAt(s, j)
    ensures r.found.None? ==> r.rest == s
    ensures NoLineTerminators(s) ==> NoLineTerminators(r.rest)
  {
    var i := FindTag(s, 0);
    TagMatchesAreFound(s);
    if i == |s| then Extracted(None, s)
    else
      var e := SkipNonSpaces(s, i + 1);
      LowerWord(s[i + 1..e]);
      assert NoLineTerminators(s) ==> NoLineTerminators(Trim(s[..i] + s[e..])) by {
        if NoLineTerminators(s) { CutOutKeepsLine(s, i, e); }
      }
      assert FirstTagMatch(s, i, e);
      Extracted(Some(Lower(s[i + 1..e])), Trim(s[..i] + s[e..]))
  }

  /** A match of `#\S+` is the one the scan finds. */
  lemma TagMatchIsFound(s: string, i: int, e: int)
    requires FirstTagMatch(s, i, e)
    ensures i == FindTag(s, 0) && e == SkipNonSpaces(s, i + 1)
  {
    assert TagAt(s, i);
  }

  lemma TagMatchesAreFound(s: string)
    ensures forall i, e :: FirstTagMatch(s, i, e) ==> i == FindTag(s, 0) && e == SkipNonSpaces(s, i + 1)
  {
    forall i, e | FirstTagMatch(s, i, e) ensures i == FindTag(s, 0) && e == SkipNonSpaces(s, i + 1) {
      TagMatchIsFound(s, i, e);
    }
  }

  /** Lower-casing a word keeps it a word and gives a text that lower-casing leaves alone. */
  lemma LowerWord(w: string)
    requires forall k :: 0 <= k < |w| ==> !IsSpace(w[k])
    ensures forall k :: 0 <= k < |w| ==> !IsSpace(Lower(w)[k])
    ensures forall k :: 0 <= k < |w| ==> ToLowerChar(Lower(w)[k]) == Lower(w)[k]
  {
    forall k | 0 <= k < |w|
      ensures !IsSpace(Lower(w)[k]) && ToLowerChar(Lower(w)[k]) == Lower(w)[k]
    {
      ToLowerIdempotent(w[k]);
      CaseMappingKeepsSpaces(w[k]);
    }
  }

  /** Lower-casing a trimmed text keeps it trimmed and gives a text that lower-casing leaves alone. */
  lemma LowerTrimmed(w: string)
    requires IsTrimmed(w)
    ensures IsTrimmed(Lower(w))
    ensures forall k :: 0 <= k < |w| ==> ToLowerChar(Lower(w)[k]) == Lower(w)[k]
  {
    forall k | 0 <= k < |w| ensures ToLowerChar(Lower(w)[k]) == Lower(w)[k] {
      ToLowerIdempotent(w[k]);
    }
    if w != [] {
      CaseMappingKeepsSpaces(w[0]);
      CaseMappingKeepsSpaces(w[|w| - 1]);
    }
  }

  // ---------------------------------------------------------------------------
  // Category and description: /c:(.+?)(?=d:|$)/i and /d:(.+?)$/i
  // ---------------------------------------------------------------------------

  /** `m:` at `i`, with `m` matched case-insensitively (`m` is `'c'` or `'d'`). */
  predicate MarkerAt(s: string, i: nat, m: char) {
    i + 2 <= |s| && (s[i] == m || s[i] == ToUpperChar(m)) && s[i + 1] == ':'
  }

  /** A marker whose lazy `.+?` has at least one character to take. */
  predicate CutAt(s: string, i: nat, m: char) {
    i + 3 <= |s| && MarkerAt(s, i, m)
  }

  /** No marker of kind `m` in `s` could start a match. */
  predicate NoCut(s: string, m: char) {
    forall j :: 0 <= j < |s| ==> !CutAt(s, j, m)
  }

  /** The leftmost match of `m:.+?` from `from` on, or `|s|` when there is none. */
  function FindCut(s: string, m: char, from: nat): (i: nat)
    requires from <= |s|
    ensures from <= i <= |s|
    ensures i < |s| ==> CutAt(s, i, m)
    ensures forall j :: from <= j < i ==> !CutAt(s, j, m)
    decreases |s| - from
  {
    if from == |s| || CutAt(s, from, m) then from else FindCut(s, m, from + 1)
  }

  /** Where the lazy `.+?` of the category pattern stops: the first end of text or `d:` from `k` on. */
  function LazyEnd(s: string, k: nat): (e: nat)
    requires k <= |s|
    ensures k <= e <= |s|
    ensures e == |s| || MarkerAt(s, e, 'd')
    ensures forall j :: k <= j < e ==> !MarkerAt(s, j, 'd')
    decreases |s| - k
  {
    if k == |s| || MarkerAt(s, k, 'd') then k else LazyEnd(s, k + 1)
  }

  /** The leftmost marker of kind `m` that has a character after it. */
  predicate FirstCut(s: string, i: int, m: char) {
    0 <= i && CutAt(s, i, m) && forall j :: 0 <= j < i ==> !CutAt(s, j, m)
  }

  /**
   * The match of `c:(.+?)(?=d:|$)`: the leftmost `c:` with a character
   * after it, at `i`, and the first `d:` or end of text at least one
   * character after the marker, at `k`.
   */
  predicate CategoryMatch(s: string, i: int, k: int) {
    && FirstCut(s, i, 'c') && i + 3 <= k <= |s|
    && (k == |s| || MarkerAt(s, k, 'd'))
    && forall j :: i + 3 <= j < k ==> !MarkerAt(s, j, 'd')
  }

  /** The leftmost marker is the one the scan finds. */
  lemma FirstCutsAreFound(s: string, m: char)
    ensures forall i :: FirstCut(s, i, m) ==> i == FindCut(s, m, 0)
  {
    forall i | FirstCut(s, i, m) ensures i == FindCut(s, m, 0) {
    }
  }

  /** A match of the category pattern is the one the scans find. */
  lemma CategoryMatchIsFound(s: string, i: int, k: int)
    requires CategoryMatch(s, i, k)
    ensures i == FindCut(s, 'c', 0) && k == LazyEnd(s, i + 3)
  {
    FirstCutsAreFound(s, 'c');
  }

  lemma CategoryMatchesAreFound(s: string)
    ensures forall i, k :: CategoryMatch(s, i, k) ==> i == FindCut(s, 'c', 0) && k == LazyEnd(s, i + 3)
  {
    forall i, k | CategoryMatch(s, i, k) ensures i == FindCut(s, 'c', 0) && k == LazyEnd(s, i + 3) {
      CategoryMatchIsFound(s, i, k);
    }
  }

  /**
   * The category runs from the first `c:` up to the next `d:` or the end; it
   * is trimmed and lower-cased, and the whole `c:…` is cut out. The text that
   * reaches this step never holds a line break (the amount pattern's `.+`
   * stops at one), so the lazy `.+?` always reaches its lookahead.
   */
  function ExtractCategory(s: string): (r: Extracted)
    requires NoLineTerminators(s)
    ensures forall i, k :: CategoryMatch(s, i, k) ==>
      r == Extracted(Some(Lower(Trim(s[i + 2..k]))), Trim(s[..i] + s[k..]))
    ensures r.found.Some? ==> forall k :: 0 <= k < |r.found.value| ==> ToLowerChar(r.found.value[k]) == r.found.value[k]
    ensures r.found.Some? ==> IsTrimmed(r.found.value)
    ensures r.found.None? <==> NoCut(s, 'c')
    ensures r.found.None? ==> r.rest == s
    ensures NoLineTerminators(r.rest)
  {
    var i := FindCut(s, 'c', 0);
    CategoryMatchesAreFound(s);
    if i == |s| then Extracted(None, s)
    else
      var k := LazyEnd(s, i + 3);
      LowerTrimmed(Trim(s[i + 2..k]));
      CutOutKeepsLine(s, i, k);
      assert CategoryMatch(s, i, k);
      Extracted(Some(Lower(Trim(s[i + 2..k]))), Trim(s[..i] + s[k..]))
  }

  /**
   * The description is everything after the first `d:` that has a character
   * after it, trimmed; the text before it is what is left.
   */
  function ExtractDescription(s: string): (r: Extracted)
    requires NoLineTerminators(s)
    ensures forall i :: FirstCut(s, i, 'd') ==> r == Extracted(Some(Trim(s[i + 2..])), Trim(s[..i]))
    ensures r.found.Some? ==> IsTrimmed(r.found.value)
    ensures r.found.Some? ==> |r.rest| < |s|
    ensures r.found.None? <==> NoCut(s, 'd')
    ensures r.found.None? ==> r.rest == s
    ensures NoCut(r.rest, 'd')
  {
    var i := FindCut(s, 'd', 0);
    FirstCutsAreFound(s, 'd');
    if i == |s| then Extracted(None, s)
    else
      DescriptionCutLeavesNoCut(s, i);
      Extracted(Some(Trim(s[i + 2..])), Trim(s[..i]))
  }

  /** The text before the first `d:` cut, trimmed, is shorter and holds no cut. */
  lemma DescriptionCutLeavesNoCut(s: string, i: nat)
    requires i < |s| && i == FindCut(s, 'd', 0)
    ensures |Trim(s[..i])| < |s| && NoCut(Trim(s[..i]), 'd')
  {
    PrefixBeforeFirstCut(s, 'd', i);
    NoCutSlice(s[..i], 'd', TrimStart(s[..i]), TrimEnd(s[..i]));
  }

  // ---------------------------------------------------------------------------
  // What the steps leave behind
  // ---------------------------------------------------------------------------

  lemma NoLineTerminatorsSlice(s: string, a: nat, b: nat)
    requires a <= b <= |s| && NoLineTerminators(s)
    ensures NoLineTerminators(s[a..b])
  {
    assert forall k :: 0 <= k < b - a ==> s[a..b][k] == s[a + k];
  }

  lemma NoLineTerminatorsJoin(x: string, y: string)
    requires NoLineTerminators(x) && NoLineTerminators(y)
    ensures NoLineTerminators(x + y)
  {
    assert forall k :: |x| <= k < |x| + |y| ==> (x + y)[k] == y[k - |x|];
  }

  /** Cutting a piece out of a line and trimming the rest keeps it a single line. */
  lemma CutOutKeepsLine(s: string, i: nat, e: nat)
    requires i <= e <= |s| && NoLineTerminators(s)
    ensures NoLineTerminators(Trim(s[..i] + s[e..]))
  {
    NoLineTerminatorsSlice(s, 0, i);
    NoLineTerminatorsSlice(s, e, |s|);
    assert s[e..] == s[e..|s|];
    var u := s[..i] + s[e..];
    NoLineTerminatorsJoin(s[..i], s[e..]);
    NoLineTerminatorsSlice(u, TrimStart(u), TrimEnd(u));
  }

  /** The tag step keeps the text a trimmed single line. */
  lemma ExtractTagRest(s: string)
    requires IsTrimmed(s) && NoLineTerminators(s)
    ensures IsTrimmed(ExtractTag(s).rest) && NoLineTerminators(ExtractTag(s).rest)
  {
    var i := FindTag(s, 0);
    if i < |s| {
      CutOutKeepsLine(s, i, SkipNonSpaces(s, i + 1));
    }
  }

  /** The category step keeps the text a trimmed single line. */
  lemma ExtractCategoryRest(s: string)
    requires IsTrimmed(s) && NoLineTerminators(s)
    ensures IsTrimmed(ExtractCategory(s).rest) && NoLineTerminators(ExtractCategory(s).rest)
  {
    var i := FindCut(s, 'c', 0);
    if i < |s| {
      CutOutKeepsLine(s, i, LazyEnd(s, i + 3));
    }
  }

  // ---------------------------------------------------------------------------
  // The parser
  // ---------------------------------------------------------------------------

  /** The amount group reads as a positive number. */
  predicate PositiveAmount(a: string)
    requires AllAmountChars(a)
  {
    ParseLocalAmount(a).Some? && ParseLocalAmount(a).value > 0.0
  }

  /**
   * `parseExpenseMessage`: `None` exactly when the line has no amount pattern,
   * when the amount is not a positive number, or when no title is left once
   * the tag, the category and the description have been cut out; otherwise
   * the amount is the amount group's value and the fields are those the
   * three steps find.
   */
  function ParseExpenseMessage(text: string): (r: Option<ParsedExpense>)
    ensures r.None? <==>
      || SplitAmountLine(Trim(text)).None?
      || !PositiveAmount(SplitAmountLine(Trim(text)).value.amountText)
      || ParseRest(ParseLocalAmount(SplitAmountLine(Trim(text)).value.amountText).value,
                   SplitAmountLine(Trim(text)).value.rest).None?
    ensures r.Some? ==>
      && r.value.amount == ParseLocalAmount(SplitAmountLine(Trim(text)).value.amountText).value
      && r == ParseRest(r.value.amount, SplitAmountLine(Trim(text)).value.rest)
    ensures r.Some? ==> r.value.amount > 0.0
    ensures r.Some? ==> r.value.title != [] && IsTrimmed(r.value.title)
    ensures r.Some? ==> ToUpperChar(r.value.title[0]) == r.value.title[0]
    ensures r.Some? ==> IsTrimmed(r.value.description)
  {
    var t := Trim(text);
    match SplitAmountLine(t)
    case None => None
    case Some(line) =>
      var amount := ParseLocalAmount(line.amountText);
      if amount.None? || amount.value <= 0.0 then None
      else ParseRest(amount.value, line.rest)
  }

  /**
   * The tag, category and description steps applied in turn to what follows
   * the amount; the title is what is left, trimmed and capitalised, and there
   * is no expense when nothing is left.
   */
  function ParseRest(amount: real, rest: string): (r: Option<ParsedExpense>)
    requires IsTrimmed(rest) && NoLineTerminators(rest)
    ensures var tagged := ExtractTag(rest);
      var categorised := ExtractCategory(tagged.rest);
      var described := ExtractDescription(categorised.rest);
      && (r.None? <==> Trim(described.rest) == [])
      && (r.Some? ==> r.value == ParsedExpense(amount, CapitalizeFirst(Trim(described.rest)),
                                               tagged.found, categorised.found, described.found.GetOr("")))
    ensures r.Some? ==> r.value.title != [] && IsTrimmed(r.value.title)
    ensures r.Some? ==> ToUpperChar(r.value.title[0]) == r.value.title[0]
    ensures r.Some? ==> IsTrimmed(r.value.description)
  {
    TrimOfTrimmed(rest);
    var tagged := ExtractTag(Trim(rest));
    var categorised := ExtractCategory(tagged.rest);
    var described := ExtractDescription(categorised.rest);
    var title := CapitalizeFirst(Trim(described.rest));
    CapitalizedTitle(Trim(described.rest));
    if title == [] then None
    else Some(ParsedExpense(amount, title, tagged.found, categorised.found, described.found.GetOr("")))
  }

  lemma CapitalizedTitle(s: string)
    requires IsTrimmed(s)
    ensures IsTrimmed(CapitalizeFirst(s))
    ensures s != [] ==> ToUpperChar(CapitalizeFirst(s)[0]) == CapitalizeFirst(s)[0]
  {
    if s != [] {
      CaseMappingKeepsSpaces(s[0]);
      ToUpperIdempotent(s[0]);
    }
  }

  // ---------------------------------------------------------------------------
  // Markers do not survive into the title
  // ---------------------------------------------------------------------------

  /** A cut inside a slice is a cut of the whole text. */
  lemma CutInSlice(s: string, a: nat, b: nat, j: nat, m: char)
    requires a <= b <= |s|
    requires CutAt(s[a..b], j, m)
    ensures CutAt(s, a + j, m)
  {
    assert s[a..b][j] == s[a + j] && s[a..b][j + 1] == s[a + j + 1];
  }

  /** A slice of text ending at `b` has no cut when the text has none that ends by `b`. */
  lemma NoCutSlice(s: string, m: char, a: nat, b: nat)
    requires a <= b <= |s|
    requires forall j :: 0 <= j && j + 3 <= b ==> !CutAt(s, j, m)
    ensures NoCut(s[a..b], m)
  {
    forall j | 0 <= j < b - a ensures !CutAt(s[a..b], j, m) {
      if j + 3 <= b - a {
        assert s[a..b][j] == s[a + j] && s[a..b][j + 1] == s[a + j + 1];
        assert !CutAt(s, a + j, m);
      }
    }
  }

  /** Before the first cut there is no cut of the same kind, not even one ending at it. */
  lemma PrefixBeforeFirstCut(s: string, m: char, i: nat)
    requires i <= |s|
    requires forall j :: 0 <= j < i ==> !CutAt(s, j, m)
    ensures NoCut(s[..i], m)
  {
    NoCutSlice(s, m, 0, i);
    assert s[0..i] == s[..i];
  }

  /** Capitalising the first character neither makes nor breaks a `c:` or `d:`. */
  lemma CapitalizeKeepsNoCut(s: string, m: char)
    requires m == 'c' || m == 'd'
    requires NoCut(s, m)
    ensures NoCut(CapitalizeFirst(s), m)
  {
    var u := CapitalizeFirst(s);
    forall j | 0 <= j < |u| ensures !CutAt(u, j, m) {
      assert !CutAt(s, j, m);
    }
  }

  lemma TrimKeepsNoCut(s: string, m: char)
    requires NoCut(s, m)
    ensures NoCut(Trim(s), m)
  {
    NoCutSlice(s, m, TrimStart(s), TrimEnd(s));
  }

  /** The description step only ever keeps a prefix, so it keeps the absence of cuts. */
  lemma DescriptionKeepsNoCut(s: string)
    requires NoLineTerminators(s)
    requires NoCut(s, 'c')
    ensures NoCut(ExtractDescription(s).rest, 'c')
  {
    var i := FindCut(s, 'd', 0);
    if i < |s| {
      NoCutSlice(s, 'c', 0, i);
      assert s[0..i] == s[..i];
      TrimKeepsNoCut(s[..i], 'c');
    }
  }

  /**
   * In the text with the category cut out, no `c:` cut starts in the part
   * before the category: that part holds none of its own, and the part after
   * starts with `d:` or is empty, so none straddles the seam.
   */
  lemma HeadHasNoCut(s: string, i: nat, k: nat)
    requires i < |s| && i == FindCut(s, 'c', 0)
    requires k == LazyEnd(s, i + 3)
    ensures forall j :: 0 <= j < i ==> !CutAt(s[..i] + s[k..], j, 'c')
  {
    var u := s[..i] + s[k..];
    forall j | 0 <= j < i ensures !CutAt(u, j, 'c') {
      if j + 2 <= i {
        assert u[j] == s[j] && u[j + 1] == s[j + 1];
        assert !CutAt(s, j, 'c');
      } else if k < |s| {
        assert u[j + 1] == s[k];
      }
    }
  }

  /** A `d:` cut followed by a non-space end survives trimming at the shifted position. */
  lemma CutSurvivesTrim(u: string, p: nat)
    requires CutAt(u, p, 'd') && !IsSpace(u[|u| - 1])
    ensures TrimStart(u) <= p && TrimEnd(u) == |u|
    ensures CutAt(Trim(u), p - TrimStart(u), 'd')
  {
    assert !IsSpace(u[p]);
    var a := TrimStart(u);
    var v := Trim(u);
    assert v == u[a..];
    assert v[p - a] == u[p] && v[p - a + 1] == u[p + 1];
  }

  /**
   * When the text has a `d:` cut at `p` and no `c:` cut before `p`, the
   * description step leaves no `c:` cut: it cuts at `p` or earlier.
   */
  lemma DescriptionCutsBefore(v: string, p: nat)
    requires NoLineTerminators(v)
    requires CutAt(v, p, 'd')
    requires forall j :: 0 <= j < p ==> !CutAt(v, j, 'c')
    ensures NoCut(ExtractDescription(v).rest, 'c')
  {
    var i2 := FindCut(v, 'd', 0);
    NoCutSlice(v, 'c', 0, i2);
    assert v[0..i2] == v[..i2];
    TrimKeepsNoCut(v[..i2], 'c');
  }

  /**
   * After the category is cut out no `c:` can start a match any more: the text
   * before the first `c:` holds none, and what follows the cut starts with
   * `d:`, where the description step cuts first.
   */
  lemma CategoryStepLeavesNoCut(s: string)
    requires NoLineTerminators(s) && IsTrimmed(s)
    ensures NoCut(ExtractDescription(ExtractCategory(s).rest).rest, 'c')
  {
    var r := ExtractCategory(s);
    var i := FindCut(s, 'c', 0);
    if i == |s| {
      DescriptionKeepsNoCut(r.rest);
    } else {
      var k := LazyEnd(s, i + 3);
      assert r.rest == Trim(s[..i] + s[k..]);
      if k + 3 > |s| {
        CategoryCutToEnd(s, i, k);
        DescriptionKeepsNoCut(r.rest);
      } else {
        CategoryCutBeforeDescription(s, i, k);
      }
    }
  }

  /** A category running to the end of the text leaves no `c:` behind. */
  lemma CategoryCutToEnd(s: string, i: nat, k: nat)
    requires i < |s| && i == FindCut(s, 'c', 0)
    requires k == LazyEnd(s, i + 3) && k + 3 > |s|
    ensures NoCut(Trim(s[..i] + s[k..]), 'c')
  {
    var u := s[..i] + s[k..];
    HeadHasNoCut(s, i, k);
    assert NoCut(u, 'c');
    TrimKeepsNoCut(u, 'c');
  }

  /** A category stopped by a `d:` leaves that `d:` first, and the description step cuts everything after it. */
  lemma CategoryCutBeforeDescription(s: string, i: nat, k: nat)
    requires NoLineTerminators(s) && IsTrimmed(s)
    requires i < |s| && i == FindCut(s, 'c', 0)
    requires k == LazyEnd(s, i + 3) && k + 3 <= |s|
    ensures NoLineTerminators(Trim(s[..i] + s[k..]))
    ensures NoCut(ExtractDescription(Trim(s[..i] + s[k..])).rest, 'c')
  {
    var u := s[..i] + s[k..];
    var rest := Trim(u);
    CutOutKeepsLine(s, i, k);
    HeadHasNoCut(s, i, k);
    assert u[i] == s[k] && u[i + 1] == s[k + 1] && u[|u| - 1] == s[|s| - 1];
    CutSurvivesTrim(u, i);
    var a := TrimStart(u);
    forall j | 0 <= j < i - a ensures !CutAt(rest, j, 'c') {
      if CutAt(rest, j, 'c') {
        CutInSlice(u, a, |u|, j, 'c');
      }
    }
    DescriptionCutsBefore(rest, i - a);
  }


  /**
   * No `c:` or `d:` that could start a match survives into the title: the
   * category and the description are cut out completely.
   */
  lemma TitleHasNoMarkers(amount: real, rest: string)
    requires IsTrimmed(rest) && NoLineTerminators(rest)
    requires ParseRest(amount, rest).Some?
    ensures NoCut(ParseRest(amount, rest).value.title, 'c')
    ensures NoCut(ParseRest(amount, rest).value.title, 'd')
  {
    var tagged := ExtractTag(rest);
    ExtractTagRest(rest);
    var categorised := ExtractCategory(tagged.rest);
    ExtractCategoryRest(tagged.rest);
    var left := ExtractDescription(categorised.rest).rest;
    CategoryStepLeavesNoCut(tagged.rest);
    TrimKeepsNoCut(left, 'c');
    TrimKeepsNoCut(left, 'd');
    CapitalizeKeepsNoCut(Trim(left), 'c');
    CapitalizeKeepsNoCut(Trim(left), 'd');
  }

  /** The same for a whole message. */
  lemma ParsedTitleHasNoMarkers(text: string)
    requires ParseExpenseMessage(text).Some?
    ensures NoCut(ParseExpenseMessage(text).value.title, 'c')
    ensures NoCut(ParseExpenseMessage(text).value.title, 'd')
  {
    var line := SplitAmountLine(Trim(text)).value;
    TitleHasNoMarkers(ParseLocalAmount(line.amountText).value, line.rest);
  }

  // ---------------------------------------------------------------------------
  // Composing a line and parsing it back
  // ---------------------------------------------------------------------------

  /** A title the parser gives back unchanged: trimmed, one line, already capitalised, no `#` and no `:`. */
  predicate PlainTitle(w: string) {
    PlainPhrase(w) && ToUpperChar(w[0]) == w[0]
  }

  /** A trimmed, non-empty line with no `#`: no tag can start in it. */
  predicate PlainText(u: string) {
    && u != [] && IsTrimmed(u) && NoLineTerminators(u)
    && forall k :: 0 <= k < |u| ==> u[k] != '#'
  }

  /** Plain text with no `:` either, so no marker can start in it. */
  predicate PlainPhrase(u: string) {
    PlainText(u) && forall k :: 0 <= k < |u| ==> u[k] != ':'
  }

  /** A category the parser gives back unchanged: a plain phrase already in lower case. */
  predicate PlainCategory(c: string) {
    PlainPhrase(c) && forall k :: 0 <= k < |c| ==> ToLowerChar(c[k]) == c[k]
  }

  /** A tag the parser gives back unchanged: a non-empty lower-case word. */
  predicate PlainTag(g: string) {
    && g != []
    && forall k :: 0 <= k < |g| ==> !IsSpace(g[k]) && ToLowerChar(g[k]) == g[k]
  }

  lemma {:induction false} FindTagIs(s: string, from: nat, i: nat)
    requires from <= i < |s| && TagAt(s, i)
    requires forall j :: from <= j < i ==> !TagAt(s, j)
    ensures FindTag(s, from) == i
    decreases i - from
  {
    if from < i {
      FindTagIs(s, from + 1, i);
    }
  }

  /** A phrase without `:` has no marker at all. */
  lemma PlainTitleHasNoCut(w: string, m: char)
    requires PlainPhrase(w)
    ensures NoCut(w, m)
  {
    forall j | 0 <= j < |w| ensures !CutAt(w, j, m) {
      if j + 1 < |w| {
        assert w[j + 1] != ':';
      }
    }
  }

  /** The amount pattern splits `$a w` (or `a w`) into `a` and `w`. */
  lemma SplitComposed(dollar: string, a: string, w: string)
    requires dollar == "" || dollar == "$"
    requires a != [] && AllAmountChars(a)
    requires w != [] && IsTrimmed(w) && NoLineTerminators(w)
    ensures IsTrimmed(dollar + a + " " + w)
    ensures SplitAmountLine(dollar + a + " " + w) == Some(AmountLine(a, w))
  {
    var t := dollar + a + " " + w;
    var p0 := |dollar|;
    var p2 := p0 + |a|;
    ComposedAmountMatch(dollar, a, w);
    assert t[p0..p2] == a;
    assert t[p2 + 1..] == w;
  }

  /** In `$a w` (or `a w`) the greedy amount match has no blank before `a`, and one after it. */
  lemma ComposedAmountMatch(dollar: string, a: string, w: string)
    requires dollar == "" || dollar == "$"
    requires a != [] && AllAmountChars(a)
    requires w != [] && IsTrimmed(w) && NoLineTerminators(w)
    ensures IsTrimmed(dollar + a + " " + w)
    ensures var p2 := |dollar| + |a|;
      GreedyAmountMatch(dollar + a + " " + w, |dollar|, |dollar|, p2, p2 + 1)
  {
    var t := dollar + a + " " + w;
    var p0 := |dollar|;
    var p2 := p0 + |a|;
    assert t[0] == if dollar == "$" then '$' else a[0];
    assert t[|t| - 1] == w[|w| - 1];
    assert forall k :: p0 <= k < p2 ==> t[k] == a[k - p0];
    assert t[p2] == ' ' && t[p2 + 1] == w[0];
    assert t[p2 + 1..] == w;
  }

  /** With no `#` before it, the first tag is the one at the end. */
  lemma TagOfComposed(w: string, g: string)
    requires PlainText(w) && PlainTag(g)
    ensures ExtractTag(w + " #" + g) == Extracted(Some(g), w)
  {
    var s := w + " #" + g;
    ComposedTagMatch(w, g);
    assert s[|w| + 2..|s|] == g;
    assert Lower(g) == g;
    assert s[..|w| + 1] + s[|s|..] == w + " ";
    SpacesBeforeOfTrailing(w);
  }

  /** In `w #g`, with no `#` in `w`, the tag match is `#g` at the end. */
  lemma ComposedTagMatch(w: string, g: string)
    requires PlainText(w) && PlainTag(g)
    ensures FirstTagMatch(w + " #" + g, |w| + 1, |w| + 2 + |g|)
  {
    var s := w + " #" + g;
    assert s[|w|] == ' ' && s[|w| + 1] == '#' && s[|w| + 2] == g[0];
    forall j | 0 <= j < |w| + 1 ensures !TagAt(s, j) {
      if j < |w| { assert s[j] == w[j]; }
    }
    assert forall k :: |w| + 2 <= k < |s| ==> s[k] == g[k - |w| - 2];
  }

  /** Trimming `w + " "` for a trimmed, non-empty `w` gives `w`. */
  lemma SpacesBeforeOfTrailing(w: string)
    requires w != [] && IsTrimmed(w)
    ensures Trim(w + " ") == w
  {
    var u := w + " ";
    assert u[0] == w[0] && u[|w| - 1] == w[|w| - 1];
    assert TrimStart(u) == 0;
    assert SpacesBefore(u, 0, |u|) == SpacesBefore(u, 0, |w|);
    assert TrimEnd(u) == |w|;
    assert u[..|w|] == w;
  }

  /** `w #g` is one trimmed line. */
  lemma ComposedRestShape(w: string, g: string)
    requires PlainText(w) && PlainTag(g)
    ensures NoLineTerminators(w + " #" + g) && IsTrimmed(w + " #" + g)
    ensures Trim(w + " #" + g) == w + " #" + g
  {
    var rest := w + " #" + g;
    forall k | 0 <= k < |rest| ensures !IsLineTerminator(rest[k]) {
      if k >= |w| + 2 { assert rest[k] == g[k - |w| - 2]; }
    }
    assert rest[0] == w[0] && rest[|rest| - 1] == g[|g| - 1];
    TrimOfTrimmed(rest);
  }

  /** A plain title has no category and no description, and is its own title. */
  lemma PlainTitleParts(w: string)
    requires PlainTitle(w)
    ensures ExtractCategory(w) == Extracted(None, w)
    ensures ExtractDescription(w) == Extracted(None, w)
    ensures CapitalizeFirst(Trim(w)) == w
  {
    PlainTitleHasNoCut(w, 'c');
    PlainTitleHasNoCut(w, 'd');
    TrimOfTrimmed(w);
    assert CapitalizeFirst(w) == w;
  }

  /** The part after the amount: `w #g` yields the title `w` and the tag `g`, and nothing else. */
  lemma ParseRestComposed(v: real, w: string, g: string)
    requires PlainTitle(w) && PlainTag(g)
    ensures NoLineTerminators(w + " #" + g)
    ensures ParseRest(v, w + " #" + g) == Some(ParsedExpense(v, w, Some(g), None, ""))
  {
    ComposedRestShape(w, g);
    TagOfComposed(w, g);
    PlainTitleParts(w);
  }

  /** The amount pattern splits `$a w #g` into `a` and `w #g`. */
  lemma SplitOfComposed(dollar: string, a: string, w: string, g: string)
    requires dollar == "" || dollar == "$"
    requires a != [] && AllAmountChars(a)
    requires PlainTitle(w) && PlainTag(g)
    ensures Trim(dollar + a + " " + w + " #" + g) == dollar + a + " " + w + " #" + g
    ensures IsTrimmed(dollar + a + " " + w + " #" + g)
    ensures SplitAmountLine(dollar + a + " " + w + " #" + g) == Some(AmountLine(a, w + " #" + g))
  {
    var rest := w + " #" + g;
    ComposedRestShape(w, g);
    assert dollar + a + " " + w + " #" + g == dollar + a + " " + rest;
    SplitComposed(dollar, a, rest);
    TrimOfTrimmed(dollar + a + " " + rest);
  }

  /**
   * Parsing back a composed line: `$a w #g` (with or without the `$`) gives the
   * amount `a` stands for, the title `w` and the tag `g`, with no category and
   * no description.
   */
  lemma ParseComposed(dollar: string, a: string, v: real, w: string, g: string)
    requires dollar == "" || dollar == "$"
    requires a != [] && AllAmountChars(a) && ParseLocalAmount(a) == Some(v) && v > 0.0
    requires PlainTitle(w) && PlainTag(g)
    ensures ParseExpenseMessage(dollar + a + " " + w + " #" + g) == Some(ParsedExpense(v, w, Some(g), None, ""))
  {
    SplitOfComposed(dollar, a, w, g);
    ParseRestComposed(v, w, g);
  }

  /** The worked example: `$1.234,56 Clavos y tornillos #flores3b`. */
  lemma ParseExample(text: string, a: string, w: string, g: string)
    requires a == "1.234,56" && w == "Clavos y tornillos" && g == "flores3b"
    requires text == "$" + a + " " + w + " #" + g
    ensures ParseExpenseMessage(text) == Some(ParsedExpense(1234.56, w, Some(g), None, ""))
  {
    ThousandsExample(a);
    ExampleTitle(w);
    ExampleTag(g);
    ParseComposed("$", a, 1234.56, w, g);
  }

  lemma ExampleTitle(w: string)
    requires w == "Clavos y tornillos"
    ensures PlainTitle(w)
  {
  }

  lemma ExampleTag(g: string)
    requires g == "flores3b"
    ensures PlainTag(g)
  {
  }

  /** `w d:d` splits into the description `d` and the text `w` before it. */
  lemma DescriptionOfComposed(w: string, d: string)
    requires PlainPhrase(w) && PlainPhrase(d)
    ensures NoLineTerminators(w + " d:" + d) && IsTrimmed(w + " d:" + d)
    ensures ExtractDescription(w + " d:" + d) == Extracted(Some(d), w)
  {
    var x := w + " d:" + d;
    var i := |w| + 1;
    assert x[|w|] == ' ' && x[i] == 'd' && x[i + 1] == ':';
    assert forall k :: i + 2 <= k < |x| ==> x[k] == d[k - i - 2];
    assert forall k :: 0 <= k < |w| ==> x[k] == w[k];
    forall k | 0 <= k < |x| ensures !IsLineTerminator(x[k]) {
      if i + 2 <= k { assert x[k] == d[k - i - 2]; }
    }
    assert x[0] == w[0] && x[|x| - 1] == d[|d| - 1];
    forall j | 0 <= j < i ensures !CutAt(x, j, 'd') {
      if j + 1 < |w| { assert x[j + 1] == w[j + 1]; }
    }
    assert FirstCut(x, i, 'd');
    assert x[i + 2..] == d;
    TrimOfTrimmed(d);
    assert x[..i] == w + " ";
    SpacesBeforeOfTrailing(w);
  }

  /** In `w c:c d:d` the category pattern matches from the `c:` after `w` to the `d:` after `c`. */
  lemma ComposedCategoryMatch(w: string, c: string, d: string)
    requires PlainPhrase(w) && PlainCategory(c) && PlainPhrase(d)
    ensures CategoryMatch(w + " c:" + c + " d:" + d, |w| + 1, |w| + 4 + |c|)
  {
    var u := w + " c:" + c + " d:" + d;
    var i := |w| + 1;
    var k := |w| + 4 + |c|;
    assert u[|w|] == ' ' && u[i] == 'c' && u[i + 1] == ':';
    assert u[k - 1] == ' ' && u[k] == 'd' && u[k + 1] == ':';
    forall j | 0 <= j < i ensures !CutAt(u, j, 'c') {
      if j + 1 < |w| { assert u[j + 1] == w[j + 1]; }
    }
    forall j | i + 3 <= j < k ensures !MarkerAt(u, j, 'd') {
      if j + 1 < k - 1 { assert u[j + 1] == c[j + 1 - i - 2]; }
    }
  }

  /** The pieces of `w c:c d:d` around that match. */
  lemma ComposedCategoryPieces(w: string, c: string, d: string)
    ensures var u := w + " c:" + c + " d:" + d;
      && u[|w| + 3..|w| + 4 + |c|] == c + " "
      && u[..|w| + 1] + u[|w| + 4 + |c|..] == w + " d:" + d
  {
  }

  /** `w c:c d:d` splits into the category `c` and the text `w d:d` around it. */
  lemma CategoryOfComposed(w: string, c: string, d: string)
    requires PlainPhrase(w) && PlainCategory(c) && PlainPhrase(d)
    ensures NoLineTerminators(w + " c:" + c + " d:" + d)
    ensures ExtractCategory(w + " c:" + c + " d:" + d) == Extracted(Some(c), w + " d:" + d)
  {
    MarkedTextShape(w, c, d);
    ComposedCategoryMatch(w, c, d);
    ComposedCategoryPieces(w, c, d);
    SpacesBeforeOfTrailing(c);
    assert Lower(c) == c;
    DescriptionOfComposed(w, d);
    TrimOfTrimmed(w + " d:" + d);
  }

  /** `w c:c d:d` is plain text: no `#` in it. */
  lemma MarkedTextShape(w: string, c: string, d: string)
    requires PlainPhrase(w) && PlainCategory(c) && PlainPhrase(d)
    ensures PlainText(w + " c:" + c + " d:" + d)
  {
    var u := w + " c:" + c + " d:" + d;
    var i := |w| + 1;
    var k := |w| + 4 + |c|;
    assert u[|w|] == ' ' && u[i] == 'c' && u[i + 1] == ':';
    assert u[k - 1] == ' ' && u[k] == 'd' && u[k + 1] == ':';
    forall t | 0 <= t < |u| ensures u[t] != '#' && !IsLineTerminator(u[t]) {
      if t < |w| { assert u[t] == w[t]; }
      else if i + 2 <= t < k - 1 { assert u[t] == c[t - i - 2]; }
      else if k + 2 <= t { assert u[t] == d[t - k - 2]; }
    }
    assert u[0] == w[0] && u[|u| - 1] == d[|d| - 1];
  }

  /**
   * The part after the amount with every field: `w c:c d:d #g` yields the
   * title `w`, the category `c`, the description `d` and the tag `g`.
   */
  lemma ParseRestMarked(v: real, w: string, c: string, d: string, g: string)
    requires PlainTitle(w) && PlainCategory(c) && PlainPhrase(d) && PlainTag(g)
    ensures IsTrimmed(w + " c:" + c + " d:" + d + " #" + g)
    ensures NoLineTerminators(w + " c:" + c + " d:" + d + " #" + g)
    ensures ParseRest(v, w + " c:" + c + " d:" + d + " #" + g) == Some(ParsedExpense(v, w, Some(g), Some(c), d))
  {
    var u := w + " c:" + c + " d:" + d;
    assert u + " #" + g == w + " c:" + c + " d:" + d + " #" + g;
    MarkedTextShape(w, c, d);
    ComposedRestShape(u, g);
    TagOfComposed(u, g);
    CategoryOfComposed(w, c, d);
    DescriptionOfComposed(w, d);
    TrimOfTrimmed(w);
    assert CapitalizeFirst(w) == w;
  }

  /**
   * Parsing back a line with every field: `$a w c:c d:d #g` gives the amount
   * `a` stands for, the title `w`, the category `c`, the description `d` and
   * the tag `g`.
   */
  lemma ParseMarked(dollar: string, a: string, v: real, w: string, c: string, d: string, g: string)
    requires dollar == "" || dollar == "$"
    requires a != [] && AllAmountChars(a) && ParseLocalAmount(a) == Some(v) && v > 0.0
    requires PlainTitle(w) && PlainCategory(c) && PlainPhrase(d) && PlainTag(g)
    ensures ParseExpenseMessage(dollar + a + " " + w + " c:" + c + " d:" + d + " #" + g)
         == Some(ParsedExpense(v, w, Some(g), Some(c), d))
  {
    var rest := w + " c:" + c + " d:" + d + " #" + g;
    ParseRestMarked(v, w, c, d, g);
    ParseAfterAmount(dollar, a, v, rest, ParsedExpense(v, w, Some(g), Some(c), d));
    MarkedLineAssoc(dollar + a + " ", w, c, d, g);
  }

  /** A line is the amount followed by the rest the parser reads. */
  lemma ParseAfterAmount(dollar: string, a: string, v: real, rest: string, e: ParsedExpense)
    requires dollar == "" || dollar == "$"
    requires a != [] && AllAmountChars(a) && ParseLocalAmount(a) == Some(v) && v > 0.0
    requires rest != [] && IsTrimmed(rest) && NoLineTerminators(rest)
    requires ParseRest(v, rest) == Some(e)
    ensures ParseExpenseMessage(dollar + a + " " + rest) == Some(e)
  {
    SplitComposed(dollar, a, rest);
    TrimOfTrimmed(dollar + a + " " + rest);
  }

  lemma MarkedLineAssoc(p: string, w: string, c: string, d: string, g: string)
    ensures p + w + " c:" + c + " d:" + d + " #" + g == p + (w + " c:" + c + " d:" + d + " #" + g)
  {
    AppendAssoc(p, w, " c:");
    AppendAssoc(p, w + " c:", c);
    AppendAssoc(p, w + " c:" + c, " d:");
    AppendAssoc(p, w + " c:" + c + " d:", d);
    AppendAssoc(p, w + " c:" + c + " d:" + d, " #");
    AppendAssoc(p, w + " c:" + c + " d:" + d + " #", g);
  }

  lemma AppendAssoc(p: string, x: string, y: string)
    ensures p + x + y == p + (x + y)
  {
  }

  /** The worked example: `$1.234,56 Clavos c:materiales d:Easy #flores3b`. */
  lemma ParseMarkedExample(text: string, a: string, w: string, c: string, d: string, g: string)
    requires a == "1.234,56" && w == "Clavos" && c == "materiales" && d == "Easy" && g == "flores3b"
    requires text == "$" + a + " " + w + " c:" + c + " d:" + d + " #" + g
    ensures ParseExpenseMessage(text) == Some(ParsedExpense(1234.56, "Clavos", Some("flores3b"), Some("materiales"), "Easy"))
  {
    ThousandsExample(a);
    assert PlainTitle(w) && PlainCategory(c) && PlainPhrase(d);
    ExampleTag(g);
    ParseMarked("$", a, 1234.56, w, c, d, g);
  }

  /** An amount that is not a number or not positive rejects the line, whatever follows it. */
  lemma NonPositiveRejected(dollar: string, a: string, w: string)
    requires dollar == "" || dollar == "$"
    requires a != [] && AllAmountChars(a)
    requires ParseLocalAmount(a).None? || ParseLocalAmount(a).value <= 0.0
    requires w != [] && IsTrimmed(w) && NoLineTerminators(w)
    ensures ParseExpenseMessage(dollar + a + " " + w).None?
  {
    SplitComposed(dollar, a, w);
    TrimOfTrimmed(dollar + a + " " + w);
  }

  /** A line that does not open with an amount (after an optional `$` and spaces) is not an expense. */
  lemma NoAmountRejected(text: string)
    requires Trim(text) != []
    requires var t := Trim(text); t[0] != '$' && !IsAmountChar(t[0])
    ensures ParseExpenseMessage(text).None?
  {
    var t := Trim(text);
    assert SplitAmountLine(t).None? by {
      SkipSpacesOver(t, 0, 0);
      AmountRunOver(t, 0, 0);
    }
  }

  /** A tag with nothing else after the amount leaves no title, so the line is rejected. */
  lemma TagOnlyRejected(a: string, g: string)
    requires a != [] && AllAmountChars(a) && PlainTag(g)
    ensures ParseExpenseMessage(a + " #" + g).None?
  {
    var rest := "#" + g;
    BareTag(g);
    TagOnlyLine(a, g);
    SplitComposed("", a, rest);
    TrimOfTrimmed("" + a + " " + rest);
    TrimOfTrimmed(rest);
  }

  lemma TagOnlyLine(a: string, g: string)
    ensures a + " #" + g == "" + a + " " + ("#" + g)
  {
  }

  /** `#g` on its own is all tag: nothing is left after it. */
  lemma BareTag(g: string)
    requires PlainTag(g)
    ensures IsTrimmed("#" + g) && NoLineTerminators("#" + g)
    ensures ExtractTag("#" + g) == Extracted(Some(g), "")
  {
    var s := "#" + g;
    assert s[|s| - 1] == g[|g| - 1];
    assert forall k :: 1 <= k < |s| ==> s[k] == g[k - 1];
    assert TagAt(s, 0);
    FindTagIs(s, 0, 0);
    SkipNonSpacesOver(s, 1, |s|);
    assert s[1..|s|] == g;
    assert Lower(g) == g;
    assert s[..0] + s[|s|..] == [];
  }
}
