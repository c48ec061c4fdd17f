/**
 * The web app's document validator: per-field type and bound checks,
 * whole-document validation in schema order, and the filling of defaults.
 *
 * A schema is the sequence of its `(field name, definition)` entries in the
 * order `Object.entries` yields them; a document is a map from field names to
 * values, a missing key reading as `undefined`.
 */
module Validation {
  import opened Wrappers
  import opened Text

  /** The JavaScript values a field can hold, as far as the checks tell them apart. */
  datatype Value =
    | Undefined
    | Null
    | Str(s: string)
    | Num(x: real)
    | NaN
    | Bool(b: bool)
    | List(items: seq<Value>)
    | Obj
    | Date

  datatype FieldType = StringType | NumberType | BooleanType | ArrayType | ObjectType | DateType | ReferenceType

  /** A `FieldDefinition`; an absent bound or default is `None`. */
  datatype FieldDefinition = FieldDefinition(
    kind: FieldType,
    required: bool,
    maxLength: Option<int>,
    minLength: Option<int>,
    max: Option<real>,
    min: Option<real>,
    arrayOf: Option<FieldType>,
    defaultValue: Option<Value>)

  /** What an error message says. */
  datatype ErrorKind =
    | Required
    | NotText
    | TooLong(limit: int)
    | TooShort(limit: int)
    | NotNumber
    | AboveMax(bound: real)
    | BelowMin(bound: real)
    | NotBoolean
    | NotList
    | NotObject
    | NotDate
    | NotReference

  datatype ValidationError = ValidationError(field: string, kind: ErrorKind, value: Value)

  type Schema = seq<(string, FieldDefinition)>
  type Document = map<string, Value>

  /** `null`, `undefined` or `''`: the values a required field may not hold. */
  predicate IsBlank(v: Value) {
    v.Null? || v.Undefined? || (v.Str? && v.s == "")
  }

  /** The definition each element of an array is checked against. */
  function ItemDefinition(t: FieldType): FieldDefinition {
    FieldDefinition(t, true, None, None, None, None, None, None)
  }

  /** `${fieldName}[${index}]`. */
  function ItemName(name: string, i: nat): string {
    name + "[" + NatToDigits(i) + "]"
  }

  /** The length checks of a text; a bound of 0 is falsy and so not checked. */
  function LengthErrors(name: string, value: Value, def: FieldDefinition): (r: seq<ValidationError>)
    requires value.Str?
  {
    (if def.maxLength.Some? && def.maxLength.value != 0 && |value.s| > def.maxLength.value
     then [ValidationError(name, TooLong(def.maxLength.value), value)] else [])
    + (if def.minLength.Some? && def.minLength.value != 0 && |value.s| < def.minLength.value
       then [ValidationError(name, TooShort(def.minLength.value), value)] else [])
  }

  /** The bound checks of a number. */
  function BoundErrors(name: string, value: Value, def: FieldDefinition): (r: seq<ValidationError>)
    requires value.Num?
  {
    (if def.max.Some? && value.x > def.max.value then [ValidationError(name, AboveMax(def.max.value), value)] else [])
    + (if def.min.Some? && value.x < def.min.value then [ValidationError(name, BelowMin(def.min.value), value)] else [])
  }

  /** The errors `validateField` reports. */
  function FieldErrors(name: string, value: Value, def: FieldDefinition): (r: seq<ValidationError>)
    ensures IsBlank(value) && def.required ==> |r| == 1 && r[0].kind == Required && r[0].field == name
    ensures IsBlank(value) && !def.required ==> r == []
    ensures def.arrayOf.None? ==> forall e :: e in r ==> e.field == name
    ensures forall e :: e in r ==> e.field == name || (value.List? && exists i :: 0 <= i < |value.items| && e.field == ItemName(name, i))
    decreases value, 1
  {
    if IsBlank(value) then
      if def.required then [ValidationError(name, Required, value)] else []
    else
      match def.kind
      case StringType =>
        if !value.Str? then [ValidationError(name, NotText, value)] else LengthErrors(name, value, def)
      case NumberType =>
        if !value.Num? then [ValidationError(name, NotNumber, value)] else BoundErrors(name, value, def)
      case BooleanType =>
        if value.Bool? then [] else [ValidationError(name, NotBoolean, value)]
      case ArrayType =>
        if !value.List? then [ValidationError(name, NotList, value)]
        else if def.arrayOf.None? then []
        else ItemsErrors(name, value.items, def.arrayOf.value, |value.items|)
      case ObjectType =>
        if value.Obj? || value.Date? then [] else [ValidationError(name, NotObject, value)]
      case DateType =>
        if value.Date? then [] else [ValidationError(name, NotDate, value)]
      case ReferenceType =>
        if value.Str? && Trim(value.s) != "" then [] else [ValidationError(name, NotReference, value)]
  }

  /** The errors of the first `n` elements, each checked as a required value of type `t`. */
  function ItemsErrors(name: string, items: seq<Value>, t: FieldType, n: nat): (r: seq<ValidationError>)
    requires n <= |items|
    ensures forall e :: e in r ==> exists i :: 0 <= i < n && e.field == ItemName(name, i)
    decreases items, 0, n
  {
    if n == 0 then []
    else ItemsErrors(name, items, t, n - 1) + FieldErrors(ItemName(name, n - 1), items[n - 1], ItemDefinition(t))
  }

  /** A non-blank value of the type the field declares; a reference must hold more than white space. */
  predicate HasType(v: Value, t: FieldType) {
    match t
    case StringType => v.Str?
    case NumberType => v.Num?
    case BooleanType => v.Bool?
    case ArrayType => v.List?
    case ObjectType => v.Obj? || v.Date?
    case DateType => v.Date?
    case ReferenceType => v.Str? && Trim(v.s) != ""
  }

  /**
   * A text gets a too-long error exactly when a non-zero `maxLength` is
   * exceeded, and a too-short error exactly when it is below a non-zero
   * `minLength`; no other error.
   */
  lemma TextBounds(name: string, s: string, def: FieldDefinition)
    requires def.kind == StringType && s != ""
    ensures var r := FieldErrors(name, Str(s), def);
      && (ValidationError(name, TooLong(def.maxLength.GetOr(0)), Str(s)) in r <==>
            def.maxLength.Some? && def.maxLength.value != 0 && |s| > def.maxLength.value)
      && (ValidationError(name, TooShort(def.minLength.GetOr(0)), Str(s)) in r <==>
            def.minLength.Some? && def.minLength.value != 0 && |s| < def.minLength.value)
      && forall e :: e in r ==> e.kind.TooLong? || e.kind.TooShort?
  {
  }

  /**
   * A value that is not a number (NaN included) gets the one error saying so
   * and no bound check; a number gets an error for each bound it violates.
   */
  lemma NumberBounds(name: string, v: Value, def: FieldDefinition)
    requires def.kind == NumberType && !IsBlank(v)
    ensures !v.Num? ==> FieldErrors(name, v, def) == [ValidationError(name, NotNumber, v)]
    ensures v.Num? ==>
      var r := FieldErrors(name, v, def);
      && (ValidationError(name, AboveMax(def.max.GetOr(0.0)), v) in r <==> def.max.Some? && v.x > def.max.value)
      && (ValidationError(name, BelowMin(def.min.GetOr(0.0)), v) in r <==> def.min.Some? && v.x < def.min.value)
      && forall e :: e in r ==> e.kind.AboveMax? || e.kind.BelowMin?
  {
  }

  /** An array element, checked as a required value of the element type, gets at most one error, and none exactly when it has that type. */
  lemma ItemCheck(name: string, v: Value, t: FieldType)
    ensures |FieldErrors(name, v, ItemDefinition(t))| <= 1
    ensures FieldErrors(name, v, ItemDefinition(t)) == [] <==> !IsBlank(v) && HasType(v, t)
  {
  }

  /** An array gets at most one error per element, and none exactly when every element has the element type. */
  lemma {:induction false} ItemsCheck(name: string, items: seq<Value>, t: FieldType, n: nat)
    requires n <= |items|
    ensures |ItemsErrors(name, items, t, n)| <= n
    ensures ItemsErrors(name, items, t, n) == [] <==> forall i :: 0 <= i < n ==> !IsBlank(items[i]) && HasType(items[i], t)
  {
    if n > 0 {
      ItemsCheck(name, items, t, n - 1);
      ItemCheck(ItemName(name, n - 1), items[n - 1], t);
      var prev := ItemsErrors(name, items, t, n - 1);
      var last := FieldErrors(ItemName(name, n - 1), items[n - 1], ItemDefinition(t));
      assert ItemsErrors(name, items, t, n) == prev + last;
      assert |prev + last| == |prev| + |last|;
      assert prev + last == [] <==> prev == [] && last == [];
    }
  }

  /** `Validator.validateField`. */
  method ValidateField(name: string, value: Value, def: FieldDefinition) returns (errors: seq<ValidationError>)
    ensures errors == FieldErrors(name, value, def)
    decreases value, 1
  {
    errors := [];
    if def.required && IsBlank(value) {
      errors := errors + [ValidationError(name, Required, value)];
      return;
    }
    if !def.required && IsBlank(value) {
      return;
    }
    match def.kind {
      case StringType =>
        if !value.Str? {
          errors := errors + [ValidationError(name, NotText, value)];
          return;
        }
        if def.maxLength.Some? && def.maxLength.value != 0 && |value.s| > def.maxLength.value {
          errors := errors + [ValidationError(name, TooLong(def.maxLength.value), value)];
        }
        if def.minLength.Some? && def.minLength.value != 0 && |value.s| < def.minLength.value {
          errors := errors + [ValidationError(name, TooShort(def.minLength.value), value)];
        }
      case NumberType =>
        if !value.Num? {
          errors := errors + [ValidationError(name, NotNumber, value)];
          return;
        }
        if def.max.Some? && value.x > def.max.value {
          errors := errors + [ValidationError(name, AboveMax(def.max.value), value)];
        }
        if def.min.Some? && value.x < def.min.value {
          errors := errors + [ValidationError(name, BelowMin(def.min.value), value)];
        }
      case BooleanType =>
        if !value.Bool? {
          errors := errors + [ValidationError(name, NotBoolean, value)];
        }
      case ArrayType =>
        if !value.List? {
          errors := errors + [ValidationError(name, NotList, value)];
          return;
        }
        if def.arrayOf.Some? {
          var i := 0;
          while i < |value.items|
            invariant 0 <= i <= |value.items|
            invariant errors == ItemsErrors(name, value.items, def.arrayOf.value, i)
          {
            var itemErrors := ValidateField(ItemName(name, i), value.items[i], ItemDefinition(def.arrayOf.value));
            errors := errors + itemErrors;
            i := i + 1;
          }
        }
      case ObjectType =>
        if !(value.Obj? || value.Date?) {
          errors := errors + [ValidationError(name, NotObject, value)];
        }
      case DateType =>
        if !value.Date? {
          errors := errors + [ValidationError(name, NotDate, value)];
        }
      case ReferenceType =>
        if !value.Str? || Trim(value.s) == "" {
          errors := errors + [ValidationError(name, NotReference, value)];
        }
    }
  }

  /** `data[fieldName]`: a missing key reads as `undefined`. */
  function Get(data: Document, key: string): Value {
    if key in data then data[key] else Undefined
  }

  /** The errors of the first `n` schema entries, field after field. */
  function DocumentErrors(data: Document, schema: Schema, n: nat): (r: seq<ValidationError>)
    requires n <= |schema|
  {
    if n == 0 then []
    else DocumentErrors(data, schema, n - 1) + FieldErrors(schema[n - 1].0, Get(data, schema[n - 1].0), schema[n - 1].1)
  }

  /** `Validator.validateDocument`: every field's errors in schema order, and validity when there are none. */
  method ValidateDocument(data: Document, schema: Schema) returns (valid: bool, errors: seq<ValidationError>)
    ensures errors == DocumentErrors(data, schema, |schema|)
    ensures valid <==> forall i :: 0 <= i < |schema| ==> FieldErrors(schema[i].0, Get(data, schema[i].0), schema[i].1) == []
  {
    errors := [];
    for i := 0 to |schema|
      invariant errors == DocumentErrors(data, schema, i)
    {
      var fieldErrors := ValidateField(schema[i].0, Get(data, schema[i].0), schema[i].1);
      errors := errors + fieldErrors;
    }
    valid := |errors| == 0;
    NoErrorsIffEveryFieldPasses(data, schema, |schema|);
  }

  /** The document has no errors exactly when no field has any. */
  lemma {:induction false} NoErrorsIffEveryFieldPasses(data: Document, schema: Schema, n: nat)
    requires n <= |schema|
    ensures DocumentErrors(data, schema, n) == [] <==>
      forall i :: 0 <= i < n ==> FieldErrors(schema[i].0, Get(data, schema[i].0), schema[i].1) == []
  {
    if n > 0 {
      NoErrorsIffEveryFieldPasses(data, schema, n - 1);
    }
  }

  /** Every error of a field of the schema is among the document's errors. */
  lemma {:induction false} FieldErrorsInDocument(data: Document, schema: Schema, n: nat, i: nat)
    requires i < n <= |schema|
    ensures forall e :: e in FieldErrors(schema[i].0, Get(data, schema[i].0), schema[i].1) ==> e in DocumentErrors(data, schema, n)
  {
    if i < n - 1 {
      FieldErrorsInDocument(data, schema, n - 1, i);
    }
  }

  /** One step of `applyDefaults`: a defined data value is kept, else the default is taken when there is one. */
  function DefaultStep(result: Document, data: Document, key: string, def: FieldDefinition): Document {
    if Get(data, key) != Undefined then result[key := data[key]]
    else if def.defaultValue.Some? then result[key := def.defaultValue.value]
    else result
  }

  /** The result of `applyDefaults` over the first `n` schema entries. */
  function Defaults(data: Document, schema: Schema, n: nat): Document
    requires n <= |schema|
  {
    if n == 0 then map[] else DefaultStep(Defaults(data, schema, n - 1), data, schema[n - 1].0, schema[n - 1].1)
  }

  /** `Validator.applyDefaults`. */
  method ApplyDefaults(data: Document, schema: Schema) returns (result: Document)
    ensures result == Defaults(data, schema, |schema|)
  {
    result := map[];
    for i := 0 to |schema|
      invariant result == Defaults(data, schema, i)
    {
      var key := schema[i].0;
      if key in data && data[key] != Undefined {
        result := result[key := data[key]];
      } else if schema[i].1.defaultValue.Some? {
        result := result[key := schema[i].1.defaultValue.value];
      }
    }
  }

  /** The keys of a schema are pairwise distinct, as the keys of an object are. */
  predicate KeysDistinct(schema: Schema) {
    forall i, j :: 0 <= i < j < |schema| ==> schema[i].0 != schema[j].0
  }

  /**
   * What `applyDefaults` yields: only schema keys; a key whose data value is
   * defined keeps that value; a key whose data value is undefined takes the
   * default when there is one and is absent otherwise.
   */
  lemma {:induction false} DefaultsMeaning(data: Document, schema: Schema, n: nat)
    requires n <= |schema| && KeysDistinct(schema)
    ensures forall k :: k in Defaults(data, schema, n) ==> exists i :: 0 <= i < n && schema[i].0 == k
    ensures forall i :: 0 <= i < n && Get(data, schema[i].0) != Undefined ==>
      schema[i].0 in Defaults(data, schema, n) && Defaults(data, schema, n)[schema[i].0] == data[schema[i].0]
    ensures forall i :: 0 <= i < n && Get(data, schema[i].0) == Undefined ==>
      (schema[i].0 in Defaults(data, schema, n) <==> schema[i].1.defaultValue.Some?)
      && (schema[i].0 in Defaults(data, schema, n) ==> Defaults(data, schema, n)[schema[i].0] == schema[i].1.defaultValue.value)
  {
    if n > 0 {
      DefaultsMeaning(data, schema, n - 1);
    }
  }
}
