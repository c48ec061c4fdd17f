/**
 * Projects as the intake code sees them, the lookups it makes over the
 * provider's project list, and the fuzzy resolution of a spoken project
 * reference.
 */
module Projects {
  import opened Wrappers
  import opened Text

  /** A project document; `clientPhone` is absent or empty when no client is registered. */
  datatype Project = Project(
    id: string,
    name: string,
    tag: string,
    status: string,
    providerId: string,
    clientPhone: Option<string>)

  const Active: string := "active"

  /** A project of `userId` that is active and carries `tag`. */
  predicate IsTagged(p: Project, userId: string, tag: string) {
    p.providerId == userId && p.tag == tag && p.status == Active
  }

  /**
   * `findProjectByTag`: the first active project of the user with the tag,
   * the list standing in for the store's query result order.
   */
  function FindProjectByTag(projects: seq<Project>, userId: string, tag: string): (r: Option<Project>)
    ensures r.Some? ==> r.value in projects && IsTagged(r.value, userId, tag)
    ensures r.None? <==> forall p :: p in projects ==> !IsTagged(p, userId, tag)
  {
    if projects == [] then None
    else if IsTagged(projects[0], userId, tag) then Some(projects[0])
    else FindProjectByTag(projects[1..], userId, tag)
  }

  /** `getActiveProjects`: the user's active projects, in list order. */
  function ActiveProjects(projects: seq<Project>, userId: string): (r: seq<Project>)
    ensures forall p :: p in r <==> p in projects && p.providerId == userId && p.status == Active
    ensures |r| <= |projects|
  {
    if projects == [] then []
    else
      var tail := ActiveProjects(projects[1..], userId);
      if projects[0].providerId == userId && projects[0].status == Active then [projects[0]] + tail else tail
  }

  // ---------------------------------------------------------------------------
  // matchProjectFromReference
  // ---------------------------------------------------------------------------

  /** `ref.split(/\s+/).filter(w => w.length > 2)`. */
  function LongWords(words: seq<string>): (r: seq<string>)
    ensures forall w :: w in r <==> w in words && |w| > 2
  {
    if words == [] then []
    else (if |words[0]| > 2 then [words[0]] else []) + LongWords(words[1..])
  }

  /** Two words overlap when either contains the other. */
  predicate WordsOverlap(a: string, b: string) {
    Contains(a, b) || Contains(b, a)
  }

  /** A reference word longer than two characters overlaps a word of the project's lower-cased name. */
  predicate SharesWord(p: Project, ref: string) {
    exists rw, nw :: rw in LongWords(SplitWs(ref)) && nw in SplitWs(Lower(p.name)) && WordsOverlap(nw, rw)
  }

  /**
   * The four tiers, tried in turn: the exact tag, a tag contained in the
   * reference, a name containing or contained in the reference, and a shared
   * word.
   */
  predicate InTier(t: nat, p: Project, ref: string) {
    if t == 1 then p.tag == ref
    else if t == 2 then Contains(ref, p.tag)
    else if t == 3 then Contains(ref, Lower(p.name)) || Contains(Lower(p.name), ref)
    else t == 4 && SharesWord(p, ref)
  }

  /** The index of the first project from `i` on that is in tier `t`, or the list's length. */
  function FirstInTier(projects: seq<Project>, ref: string, t: nat, i: nat): (k: nat)
    requires i <= |projects|
    ensures i <= k <= |projects|
    ensures k < |projects| ==> InTier(t, projects[k], ref)
    ensures forall j :: i <= j < k ==> !InTier(t, projects[j], ref)
    decreases |projects| - i
  {
    if i == |projects| || InTier(t, projects[i], ref) then i else FirstInTier(projects, ref, t, i + 1)
  }

  /** The first tier from `t` on that holds a project, and the first project in it. */
  function FirstTier(projects: seq<Project>, ref: string, t: nat): (r: (nat, nat))
    requires 1 <= t <= 5
    ensures t <= r.0 <= 5 && r.1 <= |projects|
    ensures r.0 < 5 <==> r.1 < |projects|
    ensures r.0 < 5 ==> InTier(r.0, projects[r.1], ref)
    ensures r.0 < 5 ==> forall j :: 0 <= j < r.1 ==> !InTier(r.0, projects[j], ref)
    ensures forall u, j :: t <= u < r.0 && 0 <= j < |projects| ==> !InTier(u, projects[j], ref)
    decreases 5 - t
  {
    if t == 5 then (5, |projects|)
    else
      var k := FirstInTier(projects, ref, t, 0);
      if k < |projects| then (t, k) else FirstTier(projects, ref, t + 1)
  }

  /**
   * `matchProjectFromReference`: nothing for a missing or empty reference;
   * otherwise the reference is lower-cased and trimmed and the first project
   * of the first tier that holds one is returned.
   */
  function MatchProjectFromReference(projects: seq<Project>, reference: Option<string>): (r: Option<Project>)
    ensures reference.None? || reference.value == "" ==> r.None?
    ensures r.Some? ==> r.value in projects
    ensures r.Some? ==> exists t :: 1 <= t <= 4 && InTier(t, r.value, Trim(Lower(reference.value)))
    ensures r.None? && reference.Some? && reference.value != "" ==>
      forall t, p :: 1 <= t <= 4 && p in projects ==> !InTier(t, p, Trim(Lower(reference.value)))
  {
    if reference.None? || reference.value == "" then None
    else
      var ref := Trim(Lower(reference.value));
      var found := FirstTier(projects, ref, 1);
      if found.0 < 5 then Some(projects[found.1]) else None
  }

  /**
   * The result is exactly the first project of the first tier that holds one:
   * no project of an earlier tier exists, and none comes before it in its tier.
   */
  lemma MatchIsFirstOfFirstTier(projects: seq<Project>, reference: string, t: nat, k: nat)
    requires reference != ""
    requires 1 <= t <= 4 && k < |projects|
    requires InTier(t, projects[k], Trim(Lower(reference)))
    requires forall u, j :: 1 <= u < t && 0 <= j < |projects| ==> !InTier(u, projects[j], Trim(Lower(reference)))
    requires forall j :: 0 <= j < k ==> !InTier(t, projects[j], Trim(Lower(reference)))
    ensures MatchProjectFromReference(projects, Some(reference)) == Some(projects[k])
  {
    var ref := Trim(Lower(reference));
    var found := FirstTier(projects, ref, 1);
    assert found.0 == t;
    assert found.1 == k;
  }

  /** A project whose tag is exactly the reference wins over every partial match. */
  lemma ExactTagWins(projects: seq<Project>, reference: string, k: nat)
    requires reference != "" && k < |projects|
    requires projects[k].tag == Trim(Lower(reference))
    ensures MatchProjectFromReference(projects, Some(reference)).Some?
    ensures MatchProjectFromReference(projects, Some(reference)).value.tag == Trim(Lower(reference))
  {
    var ref := Trim(Lower(reference));
    var found := FirstTier(projects, ref, 1);
    assert InTier(1, projects[k], ref);
    assert found.0 == 1;
  }

  /**
   * A reference of white space only trims to the empty text, which every
   * lower-cased name contains: the first project is returned, unless some tag
   * is empty and so matches exactly.
   */
  lemma BlankReferenceMatchesFirst(projects: seq<Project>, reference: string)
    requires reference != "" && forall k :: 0 <= k < |reference| ==> IsSpace(reference[k])
    requires |projects| > 0 && forall p :: p in projects ==> p.tag != ""
    ensures MatchProjectFromReference(projects, Some(reference)) == Some(projects[0])
  {
    var ref := Trim(Lower(reference));
    assert ref == "" by {
      var l := Lower(reference);
      forall k | 0 <= k < |l| ensures IsSpace(l[k]) {
        CaseMappingKeepsSpaces(reference[k]);
      }
      assert TrimStart(l) == |l| by {
        SkipSpacesOver(l, 0, |l|);
      }
    }
    forall u, j | 1 <= u < 3 && 0 <= j < |projects| ensures !InTier(u, projects[j], ref) {
      assert projects[j] in projects;
      if u == 2 {
        assert !StartsWith(ref, projects[j].tag);
      }
    }
    ContainsEmpty(Lower(projects[0].name));
    MatchIsFirstOfFirstTier(projects, reference, 3, 0);
  }
}
