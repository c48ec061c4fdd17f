/**
 * The project schema of the web app: the field table a project document is
 * validated against, and the preparation `createProject` applies to the
 * submitted data before handing it to the generic `create`.
 */
module ProjectSchema {
  import opened Wrappers
  import opened Text
  import opened Validation

  /** A text field with an optional upper length bound and default. */
  function TextField(required: bool, maxLength: Option<int>, defaultValue: Option<Value>): FieldDefinition {
    FieldDefinition(StringType, required, maxLength, None, None, None, None, defaultValue)
  }

  function DateField(): FieldDefinition {
    FieldDefinition(DateType, false, None, None, None, None, None, None)
  }

  /** The `schema` table of `ProjectSchema`, in declaration order. */
  const ProjectFields: Schema := [
    ("name", TextField(true, Some(100), None)),
    ("tag", TextField(true, Some(30), None)),
    ("description", TextField(false, Some(500), None)),
    ("address", TextField(false, Some(200), None)),
    ("clientName", TextField(false, Some(100), None)),
    ("clientPhone", TextField(false, Some(20), None)),
    ("providerId", TextField(true, None, None)),
    ("status", TextField(true, None, Some(Str("active")))),
    ("shareToken", TextField(true, None, None)),
    ("createdAt", DateField()),
    ("updatedAt", DateField())
  ]

  /** Indices of the table's entries, so that properties can name them. */
  const NameField: nat := 0
  const TagField: nat := 1
  const ProviderField: nat := 6
  const StatusField: nat := 7
  const TokenField: nat := 8

  /** The required fields and the length bounds of the two identifying texts. */
  lemma TableShape()
    ensures KeysDistinct(ProjectFields)
    ensures forall i :: 0 <= i < |ProjectFields| ==>
      (ProjectFields[i].1.required <==> i in {NameField, TagField, ProviderField, StatusField, TokenField})
    ensures ProjectFields[NameField].0 == "name" && ProjectFields[NameField].1.maxLength == Some(100)
    ensures ProjectFields[TagField].0 == "tag" && ProjectFields[TagField].1.maxLength == Some(30)
    ensures ProjectFields[ProviderField].0 == "providerId" && ProjectFields[StatusField].0 == "status"
    ensures ProjectFields[TokenField].0 == "shareToken"
  {
  }

  /** The characters a normalised tag keeps: `[a-z0-9]`. */
  predicate IsTagChar(c: char) {
    'a' <= c <= 'z' || '0' <= c <= '9'
  }

  /** `.replace(/[^a-z0-9]/g, '')`: the tag characters, in order. */
  function KeepTagChars(s: string): (r: string)
    ensures |r| <= |s|
    ensures forall i :: 0 <= i < |r| ==> IsTagChar(r[i])
    ensures forall c :: c in r ==> c in s
  {
    if s == [] then []
    else (if IsTagChar(s[0]) then [s[0]] else []) + KeepTagChars(s[1..])
  }

  /** A text made only of tag characters passes through the filter unchanged. */
  lemma {:induction false} KeepTagCharsFixed(s: string)
    requires forall i :: 0 <= i < |s| ==> IsTagChar(s[i])
    ensures KeepTagChars(s) == s
  {
    if s != [] {
      KeepTagCharsFixed(s[1..]);
    }
  }

  /** The tag normalisation of `createProject`: lower-cased, then only `[a-z0-9]` kept. */
  function NormalizeTag(t: string): (r: string)
    ensures |r| <= |t|
    ensures forall i :: 0 <= i < |r| ==> IsTagChar(r[i])
  {
    KeepTagChars(Lower(t))
  }

  /** Normalising a normalised tag changes nothing. */
  lemma NormalizeTagIdempotent(t: string)
    ensures NormalizeTag(NormalizeTag(t)) == NormalizeTag(t)
  {
    var n := NormalizeTag(t);
    assert Lower(n) == n;
    KeepTagCharsFixed(n);
  }

  /** JavaScript truthiness of a field value. */
  predicate Truthy(v: Value) {
    match v
    case Undefined => false
    case Null => false
    case Str(s) => s != ""
    case Num(x) => x != 0.0
    case NaN => false
    case Bool(b) => b
    case List(_) => true
    case Obj => true
    case Date => true
  }

  /** A truthy tag that is not text has no `toLowerCase`: the call throws. */
  predicate TagThrows(data: Document) {
    Truthy(Get(data, "tag")) && !Get(data, "tag").Str?
  }

  /**
   * The data `createProject` hands to `create`: the tag normalised when it is
   * a non-empty text, the provider set to the signed-in user (`null` when
   * there is none), the status defaulted to `active` when falsy, and the share
   * token set; every other field as submitted.
   */
  function Prepared(data: Document, userId: Option<string>, shareToken: string): (r: Document)
    requires !TagThrows(data)
    ensures Truthy(Get(data, "tag")) ==> Get(r, "tag") == Str(NormalizeTag(Get(data, "tag").s))
    ensures !Truthy(Get(data, "tag")) ==> Get(r, "tag") == Get(data, "tag")
    ensures Get(r, "tag").Str? && Truthy(Get(data, "tag")) ==> forall i :: 0 <= i < |Get(r, "tag").s| ==> IsTagChar(Get(r, "tag").s[i])
    ensures Get(r, "providerId") == (if userId.Some? then Str(userId.value) else Null)
    ensures Truthy(Get(data, "status")) ==> Get(r, "status") == Get(data, "status")
    ensures !Truthy(Get(data, "status")) ==> Get(r, "status") == Str("active")
    ensures Get(r, "shareToken") == Str(shareToken)
    ensures forall k :: k !in {"tag", "providerId", "status", "shareToken"} ==> Get(r, k) == Get(data, k)
  {
    var tagged := if Truthy(Get(data, "tag")) then data["tag" := Str(NormalizeTag(data["tag"].s))] else data;
    tagged["providerId" := if userId.Some? then Str(userId.value) else Null]
          ["status" := if Truthy(Get(data, "status")) then data["status"] else Str("active")]
          ["shareToken" := Str(shareToken)]
  }

  /** The submitted data of a project form, changed in place by `createProject`. */
  class ProjectForm {
    var fields: Document

    constructor(data: Document)
      ensures fields == data
    {
      fields := data;
    }

    /**
     * `createProject` up to the call of `create`: `ok` is false when the tag
     * normalisation throws, and the data is then untouched; otherwise the data
     * becomes `Prepared`. The user id and the fresh token are parameters.
     */
    method CreateProject(userId: Option<string>, shareToken: string) returns (ok: bool)
      modifies this
      ensures ok <==> !TagThrows(old(fields))
      ensures !ok ==> fields == old(fields)
      ensures ok ==> fields == Prepared(old(fields), userId, shareToken)
    {
      if Truthy(Get(fields, "tag")) {
        if !fields["tag"].Str? {
          return false;
        }
        fields := fields["tag" := Str(NormalizeTag(fields["tag"].s))];
      }
      fields := fields["providerId" := if userId.Some? then Str(userId.value) else Null];
      fields := fields["status" := if Truthy(Get(fields, "status")) then fields["status"] else Str("active")];
      fields := fields["shareToken" := Str(shareToken)];
      return true;
    }
  }

  /** What `create` answers. */
  datatype CreateResult =
    | NotSignedIn                          // `addSystemFields` throws and `create` catches it into a failure
    | Invalid(errors: seq<ValidationError>)
    | Accepted(doc: Document)              // the validated document, which `create` goes on to save

  /** `getCurrentUserId()` is truthy: a user is signed in with a non-empty id. */
  predicate SignedIn(userId: Option<string>) {
    userId.Some? && userId.value != ""
  }

  /**
   * `addSystemFields` on the project schema: both timestamps set to the
   * server's, whose sentinel the date check accepts. The user field it would
   * also set, `userId`, is not in the project schema.
   */
  function WithSystemFields(data: Document): (r: Document)
    ensures Get(r, "createdAt") == Date && Get(r, "updatedAt") == Date
    ensures forall k :: k != "createdAt" && k != "updatedAt" ==> Get(r, k) == Get(data, k)
  {
    data["createdAt" := Date]["updatedAt" := Date]
  }

  /**
   * `create` on the project schema, up to the save: without a signed-in user
   * it fails before validating; otherwise the data with its timestamps is
   * validated against the table, and is accepted exactly when no field has
   * an error.
   */
  function Create(data: Document, userId: Option<string>): (r: CreateResult)
    ensures r == NotSignedIn <==> !SignedIn(userId)
    ensures SignedIn(userId) ==>
      var errors := DocumentErrors(WithSystemFields(data), ProjectFields, |ProjectFields|);
      && (errors == [] ==> r == Accepted(WithSystemFields(data)))
      && (errors != [] ==> r == Invalid(errors))
    ensures r.Accepted? <==>
      && SignedIn(userId)
      && forall i :: 0 <= i < |ProjectFields| ==>
           FieldErrors(ProjectFields[i].0, Get(WithSystemFields(data), ProjectFields[i].0), ProjectFields[i].1) == []
  {
    if !SignedIn(userId) then NotSignedIn
    else
      var doc := WithSystemFields(data);
      var errors := DocumentErrors(doc, ProjectFields, |ProjectFields|);
      NoErrorsIffEveryFieldPasses(doc, ProjectFields, |ProjectFields|);
      if errors == [] then Accepted(doc) else Invalid(errors)
  }

  /** `createProject` once its data is prepared: `create` on that data. */
  function CreateProjectResult(data: Document, userId: Option<string>, shareToken: string): (r: CreateResult)
    requires !TagThrows(data)
    ensures !SignedIn(userId) ==> r == NotSignedIn
    ensures r.Accepted? ==> r.doc == WithSystemFields(Prepared(data, userId, shareToken))
  {
    Create(Prepared(data, userId, shareToken), userId)
  }

  /** The two timestamps `create` adds pass their date checks. */
  lemma TimestampsPass(data: Document)
    ensures FieldErrors("createdAt", Get(WithSystemFields(data), "createdAt"), ProjectFields[9].1) == []
    ensures FieldErrors("updatedAt", Get(WithSystemFields(data), "updatedAt"), ProjectFields[10].1) == []
    ensures ProjectFields[9].0 == "createdAt" && ProjectFields[10].0 == "updatedAt"
  {
  }

  /** The errors of a field of the table are among those of the signed-in `create`. */
  lemma FieldErrorsOfCreate(data: Document, user: string, i: nat)
    requires user != "" && i < |ProjectFields|
    ensures Create(data, Some(user)).Invalid? || Create(data, Some(user)).Accepted?
    ensures forall e :: e in FieldErrors(ProjectFields[i].0, Get(WithSystemFields(data), ProjectFields[i].0), ProjectFields[i].1) ==>
      Create(data, Some(user)).Invalid? && e in Create(data, Some(user)).errors
  {
    FieldErrorsInDocument(WithSystemFields(data), ProjectFields, |ProjectFields|, i);
  }

  /** A tag made only of symbols normalises to the empty text, which the required `tag` rejects. */
  lemma SymbolOnlyTagIsRejected(data: Document, user: string, shareToken: string)
    requires user != ""
    requires "tag" in data && data["tag"].Str? && data["tag"].s != ""
    requires NormalizeTag(data["tag"].s) == ""
    ensures var r := CreateProjectResult(data, Some(user), shareToken);
      r.Invalid? && ValidationError("tag", Required, Str("")) in r.errors
  {
    var doc := WithSystemFields(Prepared(data, Some(user), shareToken));
    assert Get(doc, "tag") == Str("");
    assert ValidationError("tag", Required, Str("")) in FieldErrors("tag", Str(""), ProjectFields[TagField].1);
    FieldErrorsOfCreate(Prepared(data, Some(user), shareToken), user, TagField);
  }

  /** A tag longer than 30 characters after normalisation is rejected as too long. */
  lemma LongTagRejected(data: Document, user: string, shareToken: string)
    requires user != ""
    requires "tag" in data && data["tag"].Str? && |NormalizeTag(data["tag"].s)| > 30
    ensures var r := CreateProjectResult(data, Some(user), shareToken);
      r.Invalid? && ValidationError("tag", TooLong(30), Str(NormalizeTag(data["tag"].s))) in r.errors
  {
    var doc := WithSystemFields(Prepared(data, Some(user), shareToken));
    var tag := NormalizeTag(data["tag"].s);
    assert Get(doc, "tag") == Str(tag);
    assert ValidationError("tag", TooLong(30), Str(tag)) in FieldErrors("tag", Str(tag), ProjectFields[TagField].1);
    FieldErrorsOfCreate(Prepared(data, Some(user), shareToken), user, TagField);
  }

  /**
   * With a signed-in user and a non-empty token, the three fields
   * `createProject` sets pass their checks, except a truthy status that is
   * not text.
   */
  lemma SetFieldsPass(data: Document, user: string, shareToken: string)
    requires !TagThrows(data) && user != "" && shareToken != ""
    ensures var r := Prepared(data, Some(user), shareToken);
      && FieldErrors("providerId", Get(r, "providerId"), ProjectFields[ProviderField].1) == []
      && FieldErrors("shareToken", Get(r, "shareToken"), ProjectFields[TokenField].1) == []
      && (FieldErrors("status", Get(r, "status"), ProjectFields[StatusField].1) == [] <==>
            !Truthy(Get(data, "status")) || Get(data, "status").Str?)
  {
  }

  /**
   * A form with only a name of at most 100 characters and a tag that
   * normalises to 1 to 30 characters is accepted for a signed-in user.
   */
  lemma NameAndTagAccepted(name: string, tag: string, user: string, shareToken: string)
    requires 0 < |name| <= 100 && 0 < |NormalizeTag(tag)| <= 30
    requires user != "" && shareToken != ""
    ensures var data := map["name" := Str(name), "tag" := Str(tag)];
      !TagThrows(data) && CreateProjectResult(data, Some(user), shareToken).Accepted?
  {
    var data := map["name" := Str(name), "tag" := Str(tag)];
    FormDocument(data, name, tag, user, shareToken);
    FilledFormPasses(WithSystemFields(Prepared(data, Some(user), shareToken)), Str(name), Str(NormalizeTag(tag)), user, shareToken);
  }

  /** The document `create` validates for a form with only a name and a tag. */
  lemma FormDocument(data: Document, name: string, tag: string, user: string, shareToken: string)
    requires data == map["name" := Str(name), "tag" := Str(tag)] && tag != ""
    ensures !TagThrows(data)
    ensures var doc := WithSystemFields(Prepared(data, Some(user), shareToken));
      && Get(doc, "name") == Str(name) && Get(doc, "tag") == Str(NormalizeTag(tag))
      && (forall k :: k in {"description", "address", "clientName", "clientPhone"} ==> Get(doc, k) == Undefined)
      && Get(doc, "providerId") == Str(user) && Get(doc, "status") == Str("active")
      && Get(doc, "shareToken") == Str(shareToken)
      && Get(doc, "createdAt") == Date && Get(doc, "updatedAt") == Date
  {
    assert Get(data, "tag") == Str(tag) && Truthy(Str(tag));
    assert Get(data, "status") == Undefined;
  }

  /**
   * A document with a name and tag within their bounds, no optional text,
   * the provider and token set, an `active` status and the timestamps passes
   * every check of the table.
   */
  lemma FilledFormPasses(doc: Document, name: Value, tag: Value, user: string, shareToken: string)
    requires name.Str? && 0 < |name.s| <= 100 && tag.Str? && 0 < |tag.s| <= 30
    requires user != "" && shareToken != ""
    requires Get(doc, "name") == name && Get(doc, "tag") == tag
    requires forall k :: k in {"description", "address", "clientName", "clientPhone"} ==> Get(doc, k) == Undefined
    requires Get(doc, "providerId") == Str(user) && Get(doc, "status") == Str("active")
    requires Get(doc, "shareToken") == Str(shareToken)
    requires Get(doc, "createdAt") == Date && Get(doc, "updatedAt") == Date
    ensures forall i :: 0 <= i < |ProjectFields| ==>
      FieldErrors(ProjectFields[i].0, Get(doc, ProjectFields[i].0), ProjectFields[i].1) == []
  {
    forall i | 0 <= i < |ProjectFields|
      ensures FieldErrors(ProjectFields[i].0, Get(doc, ProjectFields[i].0), ProjectFields[i].1) == []
    {
      if 2 <= i <= 5 {
        assert Get(doc, ProjectFields[i].0) == Undefined;
      }
    }
  }
}
