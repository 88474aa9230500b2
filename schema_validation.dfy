/**
 * How a pydantic model turns keyword arguments into an instance.
 *
 * A model declares its fields in order; each has a type, may accept None,
 * may have a default, and may carry a `mode="before"` validator. A supplied
 * value runs through that validator and is then checked against the type;
 * an absent field takes its default without running the validator. Problems
 * with individual fields are collected into one validation error, unknown
 * names are reported too when the model forbids extras and are dropped when
 * it ignores them, and an exception other than a validation error raised by a
 * validator escapes at once.
 */
module Validation {
  import opened Wrappers

  /** A Python value as it reaches a model. A float is kept as its IEEE-754 bit pattern and never computed with. */
  datatype Value =
    | NoneV
    | IntV(i: int)
    | BoolV(b: bool)
    | FloatV(bits: bv64)
    | StrV(s: string)
    | BytesV(bytes: seq<bv8>)
    | ListV(items: seq<Value>)
    | DictV(entries: seq<(string, Value)>)

  /** Python truthiness. */
  predicate Truthy(v: Value)
  {
    match v
    case NoneV => false
    case IntV(i) => i != 0
    case BoolV(b) => b
    case FloatV(bits) => bits & 0x7FFF_FFFF_FFFF_FFFF != 0
    case StrV(s) => s != []
    case BytesV(bs) => bs != []
    case ListV(xs) => xs != []
    case DictV(es) => es != []
  }

  /** `list(value)`: the elements an iterable yields, or None when Python raises TypeError. */
  function ListOf(v: Value): (r: Option<seq<Value>>)
    ensures r.None? <==> v.IntV? || v.BoolV? || v.FloatV? || v.NoneV?
    ensures v.StrV? ==> r.Some? && |r.value| == |v.s| && forall i :: 0 <= i < |v.s| ==> r.value[i] == StrV([v.s[i]])
    ensures v.DictV? ==> r.Some? && |r.value| == |v.entries| && forall i :: 0 <= i < |v.entries| ==> r.value[i] == StrV(v.entries[i].0)
    ensures v.BytesV? ==> r.Some? && |r.value| == |v.bytes| && forall i :: 0 <= i < |v.bytes| ==> r.value[i] == IntV(v.bytes[i] as int)
  {
    match v
    case ListV(xs) => Some(xs)
    case StrV(s) => Some(seq(|s|, i requires 0 <= i < |s| => StrV([s[i]])))
    case BytesV(bs) => Some(seq(|bs|, i requires 0 <= i < |bs| => IntV(bs[i] as int)))
    case DictV(es) => Some(seq(|es|, i requires 0 <= i < |es| => StrV(es[i].0)))
    case _ => None
  }

  /** The `ensure_list` validator: None becomes `[]`, anything else `list(value)`. */
  function EnsureList(v: Value): (r: Option<seq<Value>>)
    ensures v.NoneV? ==> r == Some([])
    ensures v.ListV? ==> r == Some(v.items)
    ensures v.StrV? ==> r.Some? && |r.value| == |v.s| && forall i :: 0 <= i < |v.s| ==> r.value[i] == StrV([v.s[i]])
    ensures v.DictV? ==> r.Some? && |r.value| == |v.entries| && forall i :: 0 <= i < |v.entries| ==> r.value[i] == StrV(v.entries[i].0)
    ensures v.BytesV? ==> r.Some? && |r.value| == |v.bytes| && forall i :: 0 <= i < |v.bytes| ==> r.value[i] == IntV(v.bytes[i] as int)
    ensures r.None? <==> v.IntV? || v.BoolV? || v.FloatV?
  {
    if v.NoneV? then Some([]) else ListOf(v)
  }

  /** `ensure_list` applied to its own result changes nothing. */
  lemma EnsureListIdempotent(v: Value)
    requires EnsureList(v).Some?
    ensures EnsureList(ListV(EnsureList(v).value)) == EnsureList(v)
  {
  }

  /** None, zero, False and every empty container are falsy; a list or a dict is truthy exactly when it is not empty. */
  lemma FalsyValues(v: Value)
    ensures v.NoneV? || v == IntV(0) || v == BoolV(false) || v == StrV([]) || v == BytesV([]) || v == ListV([]) || v == DictV([])
            ==> !Truthy(v)
    ensures v.ListV? ==> (Truthy(v) <==> |v.items| > 0)
    ensures v.DictV? ==> (Truthy(v) <==> |v.entries| > 0)
  {
  }

  /** The `ensure_dict` validator: `value or dict()`. */
  function EnsureDict(v: Value): (r: Value)
    ensures Truthy(v) ==> r == v
    ensures !Truthy(v) ==> r == DictV([])
    ensures v.NoneV? || v == DictV([]) ==> r == DictV([])
    ensures v.DictV? && v.entries != [] ==> r == v
    ensures r != NoneV && (r.DictV? || Truthy(r))
  {
    if Truthy(v) then v else DictV([])
  }

  lemma EnsureDictIdempotent(v: Value)
    ensures EnsureDict(EnsureDict(v)) == EnsureDict(v)
  {
  }

  /** The declared type of a field, after `Optional[...]` is taken off. */
  datatype FieldType =
    | IntT
    | StrT
    | BoolT
    | FloatT
    | BytesT
    | ObjectT
    | ListT(elem: FieldType)
    | DictT(values: FieldType)

  /** The value has the declared type exactly. */
  predicate Conforms(t: FieldType, v: Value)
  {
    match t
    case IntT => v.IntV?
    case StrT => v.StrV?
    case BoolT => v.BoolV?
    case FloatT => v.FloatV?
    case BytesT => v.BytesV?
    case ObjectT => true
    case ListT(e) => v.ListV? && forall i :: 0 <= i < |v.items| ==> Conforms(e, v.items[i])
    case DictT(vt) => v.DictV? && forall i :: 0 <= i < |v.entries| ==> Conforms(vt, v.entries[i].1)
  }

  /** The `mode="before"` validator attached to a field, if any. */
  datatype Hook = NoHook | EnsureListHook | EnsureDictHook

  /**
   * A declared field: `nullable` for `Optional[...]`, `default` None for a
   * required field (`Field(...)`).
   */
  datatype Field = Field(name: string, ty: FieldType, nullable: bool, default: Option<Value>, hook: Hook)

  /** `name: ty = Field(...)`: must be supplied, and None is refused. */
  function RequiredField(name: string, ty: FieldType, hook: Hook): Field
  {
    Field(name, ty, false, None, hook)
  }

  /** `name: Optional[ty] = Field(None)`. */
  function OptionalField(name: string, ty: FieldType, hook: Hook): Field
  {
    Field(name, ty, true, Some(NoneV), hook)
  }

  datatype Extra = Forbid | Ignore

  datatype ModelSpec = ModelSpec(fields: seq<Field>, extra: Extra)

  datatype Issue = Missing(field: string) | WrongType(field: string) | ExtraForbidden(field: string)

  datatype FieldOutcome = Accepted(value: Value) | Rejected(issue: Issue) | Raised

  /** A validator run on a supplied value; None when it raises a non-validation exception. */
  function RunHook(h: Hook, v: Value): Option<Value>
  {
    match h
    case NoHook => Some(v)
    case EnsureListHook => (match EnsureList(v) case Some(xs) => Some(ListV(xs)) case None => None)
    case EnsureDictHook => Some(EnsureDict(v))
  }

  /** One field: an absent one takes its default or is missing; a supplied one runs its validator and is type-checked. */
  function ValidateField(f: Field, input: map<string, Value>): FieldOutcome
  {
    if f.name !in input then
      (if f.default.Some? then Accepted(f.default.value) else Rejected(Missing(f.name)))
    else
      match RunHook(f.hook, input[f.name])
      case None => Raised
      case Some(v) =>
        if (v.NoneV? && f.nullable) || Conforms(f.ty, v) then Accepted(v) else Rejected(WrongType(f.name))
  }

  /**
   * What one field's validation promises: an absent field is accepted with
   * its default when it has one and is reported missing otherwise, without
   * its validator running; an accepted supplied value is None on a nullable
   * field or of the field's type; a field without a validator never raises
   * and keeps the supplied value; a rejection names the field.
   */
  lemma FieldOutcomes(f: Field, input: map<string, Value>)
    ensures f.name !in input && f.default.Some? ==> ValidateField(f, input) == Accepted(f.default.value)
    ensures f.name !in input && f.default.None? ==> ValidateField(f, input) == Rejected(Missing(f.name))
    ensures f.name in input && ValidateField(f, input).Accepted? ==>
              var v := ValidateField(f, input).value;
              (v.NoneV? && f.nullable) || Conforms(f.ty, v)
    ensures f.name in input && f.hook == NoHook ==>
              && !ValidateField(f, input).Raised?
              && (ValidateField(f, input).Accepted? <==> (input[f.name].NoneV? && f.nullable) || Conforms(f.ty, input[f.name]))
              && (ValidateField(f, input).Accepted? ==> ValidateField(f, input).value == input[f.name])
    ensures ValidateField(f, input).Rejected? ==>
              ValidateField(f, input).issue in {Missing(f.name), WrongType(f.name)}
  {
  }

  predicate IsFieldName(fields: seq<Field>, k: string)
  {
    exists i :: 0 <= i < |fields| && fields[i].name == k
  }

  predicate DistinctFieldNames(fields: seq<Field>)
  {
    forall i, j :: 0 <= i < j < |fields| ==> fields[i].name != fields[j].name
  }

  datatype FieldsOutcome = Collected(values: map<string, Value>, issues: set<Issue>) | Aborted(field: string)

  /** The fields validated in declaration order; the first exception aborts, problems are collected. */
  function ValidateFields(fields: seq<Field>, input: map<string, Value>): (r: FieldsOutcome)
    ensures r.Aborted? <==> exists i :: 0 <= i < |fields| && ValidateField(fields[i], input).Raised?
    ensures r.Aborted? ==>
              exists i :: 0 <= i < |fields| && ValidateField(fields[i], input).Raised? && fields[i].name == r.field &&
                forall j :: 0 <= j < i ==> !ValidateField(fields[j], input).Raised?
  {
    if fields == [] then Collected(map[], {})
    else
      var rest := ValidateFields(fields[1..], input);
      assert forall i :: 0 < i < |fields| ==> fields[i] == fields[1..][i - 1];
      match ValidateField(fields[0], input)
      case Raised => Aborted(fields[0].name)
      case Rejected(x) =>
        (match rest
         case Aborted(n) => Aborted(n)
         case Collected(vs, xs) => Collected(vs, xs + {x}))
      case Accepted(v) =>
        (match rest
         case Aborted(n) => Aborted(n)
         case Collected(vs, xs) => Collected(vs[fields[0].name := v], xs))
  }

  /** The collected problems are exactly the rejected fields' issues; none means every field was accepted. */
  lemma {:induction false} CollectedIssues(fields: seq<Field>, input: map<string, Value>)
    requires ValidateFields(fields, input).Collected?
    ensures forall x :: x in ValidateFields(fields, input).issues <==>
              exists i :: 0 <= i < |fields| && ValidateField(fields[i], input) == Rejected(x)
    ensures ValidateFields(fields, input).issues == {} <==>
              forall i :: 0 <= i < |fields| ==> ValidateField(fields[i], input).Accepted?
  {
    if fields != [] {
      assert forall i :: 0 < i < |fields| ==> fields[i] == fields[1..][i - 1];
      CollectedIssues(fields[1..], input);
    }
  }

  /** Only declared names are kept, and with distinct names each holds its field's validated value. */
  lemma {:induction false} CollectedValues(fields: seq<Field>, input: map<string, Value>)
    requires ValidateFields(fields, input).Collected?
    ensures forall k :: k in ValidateFields(fields, input).values ==> IsFieldName(fields, k)
    ensures DistinctFieldNames(fields) ==>
              forall i :: 0 <= i < |fields| && ValidateField(fields[i], input).Accepted? ==>
                fields[i].name in ValidateFields(fields, input).values &&
                ValidateFields(fields, input).values[fields[i].name] == ValidateField(fields[i], input).value
  {
    if fields != [] {
      assert forall i :: 0 < i < |fields| ==> fields[i] == fields[1..][i - 1];
      CollectedValues(fields[1..], input);
      forall k | k in ValidateFields(fields, input).values
        ensures IsFieldName(fields, k)
      {
        if k != fields[0].name {
          assert IsFieldName(fields[1..], k);
        }
      }
    }
  }

  datatype Outcome =
    | Instance(values: map<string, Value>)
    | ValidationError(issues: set<Issue>)
    | TypeErrorRaised(field: string)

  /** Constructing the model from keyword arguments `input`. */
  /** The unknown names reported under `extra="forbid"`. */
  function ExtraIssues(spec: ModelSpec, input: map<string, Value>): (s: set<Issue>)
    ensures forall k :: ExtraForbidden(k) in s <==> spec.extra == Forbid && k in input && !IsFieldName(spec.fields, k)
    ensures forall x :: x in s ==> x.ExtraForbidden?
    ensures s == {} <==> (spec.extra == Forbid ==> forall k :: k in input ==> IsFieldName(spec.fields, k))
  {
    if spec.extra == Forbid then
      var s := set k | k in input && !IsFieldName(spec.fields, k) :: ExtraForbidden(k);
      assert forall k :: k in input && !IsFieldName(spec.fields, k) ==> ExtraForbidden(k) in s;
      s
    else {}
  }

  function Validate(spec: ModelSpec, input: map<string, Value>): (o: Outcome)
    ensures o.Instance? <==>
              && (forall i :: 0 <= i < |spec.fields| ==> ValidateField(spec.fields[i], input).Accepted?)
              && (spec.extra == Forbid ==> forall k :: k in input ==> IsFieldName(spec.fields, k))
    ensures o.Instance? ==> forall k :: k in o.values ==> IsFieldName(spec.fields, k)
    ensures o.ValidationError? ==>
              forall x :: x in o.issues <==>
                || (exists i :: 0 <= i < |spec.fields| && ValidateField(spec.fields[i], input) == Rejected(x))
                || (x.ExtraForbidden? && spec.extra == Forbid && x.field in input && !IsFieldName(spec.fields, x.field))
  {
    match ValidateFields(spec.fields, input)
    case Aborted(n) => TypeErrorRaised(n)
    case Collected(values, issues) =>
      CollectedIssues(spec.fields, input);
      CollectedValues(spec.fields, input);
      var extras := ExtraIssues(spec, input);
      if issues + extras == {} then Instance(values) else ValidationError(issues + extras)
  }

  /** In an instance, every field holds the value its own validation produced. */
  lemma InstanceValue(spec: ModelSpec, input: map<string, Value>, i: int)
    requires DistinctFieldNames(spec.fields) && 0 <= i < |spec.fields|
    requires Validate(spec, input).Instance?
    ensures spec.fields[i].name in Validate(spec, input).values
    ensures ValidateField(spec.fields[i], input) == Accepted(Validate(spec, input).values[spec.fields[i].name])
  {
    CollectedValues(spec.fields, input);
  }

  /** A supplied field holds what its validator returned for the supplied value. */
  lemma SuppliedValue(spec: ModelSpec, input: map<string, Value>, i: int)
    requires DistinctFieldNames(spec.fields) && 0 <= i < |spec.fields|
    requires Validate(spec, input).Instance? && spec.fields[i].name in input
    ensures spec.fields[i].name in Validate(spec, input).values
    ensures RunHook(spec.fields[i].hook, input[spec.fields[i].name]) == Some(Validate(spec, input).values[spec.fields[i].name])
  {
    InstanceValue(spec, input, i);
  }

  /** A field that is not supplied holds its default, untouched by its validator. */
  lemma AbsentValue(spec: ModelSpec, input: map<string, Value>, i: int)
    requires DistinctFieldNames(spec.fields) && 0 <= i < |spec.fields|
    requires Validate(spec, input).Instance? && spec.fields[i].name !in input
    ensures spec.fields[i].default.Some?
    ensures spec.fields[i].name in Validate(spec, input).values
    ensures Validate(spec, input).values[spec.fields[i].name] == spec.fields[i].default.value
  {
    InstanceValue(spec, input, i);
  }

  /** Fields from `lo` on that default to None and are not supplied are None in an instance. */
  lemma AbsentFieldsNone(spec: ModelSpec, input: map<string, Value>, lo: nat)
    requires DistinctFieldNames(spec.fields) && Validate(spec, input).Instance?
    requires forall i :: lo <= i < |spec.fields| ==> spec.fields[i].name !in input && spec.fields[i].default == Some(NoneV)
    ensures forall i :: lo <= i < |spec.fields| ==>
              spec.fields[i].name in Validate(spec, input).values
              && Validate(spec, input).values[spec.fields[i].name] == NoneV
  {
    forall i | lo <= i < |spec.fields|
      ensures spec.fields[i].name in Validate(spec, input).values
              && Validate(spec, input).values[spec.fields[i].name] == NoneV
    {
      AbsentValue(spec, input, i);
    }
  }

  /** A required field that is not supplied makes construction fail; unless a validator raised, the error names it. */
  lemma MissingRequiredRejected(spec: ModelSpec, input: map<string, Value>, i: int)
    requires 0 <= i < |spec.fields| && spec.fields[i].default.None? && spec.fields[i].name !in input
    ensures !Validate(spec, input).Instance?
    ensures Validate(spec, input).ValidationError? ==> Missing(spec.fields[i].name) in Validate(spec, input).issues
  {
    assert ValidateField(spec.fields[i], input) == Rejected(Missing(spec.fields[i].name));
  }

  /** With `extra="forbid"`, an unknown name makes construction fail; unless a validator raised, the error names it. */
  lemma UnknownNameRejected(spec: ModelSpec, input: map<string, Value>, k: string)
    requires spec.extra == Forbid && k in input && !IsFieldName(spec.fields, k)
    ensures !Validate(spec, input).Instance?
    ensures Validate(spec, input).ValidationError? ==> ExtraForbidden(k) in Validate(spec, input).issues
  {
  }

  /** With `extra="ignore"`, unknown names are dropped: the outcome is that of the declared names alone. */
  lemma UnknownNamesIgnored(spec: ModelSpec, input: map<string, Value>)
    requires spec.extra == Ignore
    ensures Validate(spec, input) == Validate(spec, map k | k in input && IsFieldName(spec.fields, k) :: input[k])
  {
    var declared := map k | k in input && IsFieldName(spec.fields, k) :: input[k];
    forall i | 0 <= i < |spec.fields|
      ensures ValidateField(spec.fields[i], input) == ValidateField(spec.fields[i], declared)
    {
      assert IsFieldName(spec.fields, spec.fields[i].name);
    }
    SameFieldOutcomes(spec.fields, input, declared);
  }

  lemma {:induction false} SameFieldOutcomes(fields: seq<Field>, a: map<string, Value>, b: map<string, Value>)
    requires forall i :: 0 <= i < |fields| ==> ValidateField(fields[i], a) == ValidateField(fields[i], b)
    ensures ValidateFields(fields, a) == ValidateFields(fields, b)
  {
    if fields != [] {
      assert forall i :: 0 <= i < |fields[1..]| ==> fields[1..][i] == fields[i + 1];
      SameFieldOutcomes(fields[1..], a, b);
    }
  }

  /**
   * In an instance, a field validated by `ensure_list` and defaulting to None
   * holds the list supplied for it, `[]` for a supplied None, and None when
   * not supplied.
   */
  lemma EnsureListFieldValue(spec: ModelSpec, input: map<string, Value>, i: int)
    requires DistinctFieldNames(spec.fields) && 0 <= i < |spec.fields|
    requires spec.fields[i].hook == EnsureListHook && spec.fields[i].default == Some(NoneV)
    requires Validate(spec, input).Instance?
    ensures spec.fields[i].name in Validate(spec, input).values
    ensures var name := spec.fields[i].name;
            var v := Validate(spec, input).values[name];
            && (name in input ==> EnsureList(input[name]).Some? && v == ListV(EnsureList(input[name]).value))
            && (name in input && input[name].ListV? ==> v == input[name])
            && (name in input && input[name].NoneV? ==> v == ListV([]))
            && (name !in input ==> v == NoneV)
  {
    InstanceValue(spec, input, i);
  }

  /** In an instance, a field validated by `ensure_dict` holds `value or {}` of the supplied value, a dict. */
  lemma EnsureDictFieldValue(spec: ModelSpec, input: map<string, Value>, i: int)
    requires DistinctFieldNames(spec.fields) && 0 <= i < |spec.fields|
    requires spec.fields[i].hook == EnsureDictHook && spec.fields[i].name in input
    requires Validate(spec, input).Instance?
    ensures spec.fields[i].name in Validate(spec, input).values
    ensures var name := spec.fields[i].name;
            var v := Validate(spec, input).values[name];
            && v == EnsureDict(input[name])
            && (!Truthy(input[name]) ==> v == DictV([]))
  {
    InstanceValue(spec, input, i);
  }

  /** The names a model declares. */
  function FieldNames(fields: seq<Field>): (names: set<string>)
    ensures forall k :: k in names <==> IsFieldName(fields, k)
  {
    set i | 0 <= i < |fields| :: fields[i].name
  }

  /**
   * A validator that raises on a supplied value aborts construction with its
   * exception when no earlier field has a validator.
   */
  lemma FirstRaiseEscapes(spec: ModelSpec, input: map<string, Value>, i: int)
    requires 0 <= i < |spec.fields| && spec.fields[i].name in input
    requires RunHook(spec.fields[i].hook, input[spec.fields[i].name]).None?
    requires forall j :: 0 <= j < i ==> spec.fields[j].hook == NoHook
    ensures Validate(spec, input) == TypeErrorRaised(spec.fields[i].name)
  {
    assert ValidateField(spec.fields[i], input).Raised?;
    var r := ValidateFields(spec.fields, input);
    var k :| 0 <= k < |spec.fields| && ValidateField(spec.fields[k], input).Raised? && spec.fields[k].name == r.field &&
               forall j :: 0 <= j < k ==> !ValidateField(spec.fields[j], input).Raised?;
    assert k == i;
  }

  /** When one field alone is rejected and no unknown name is refused, the error reports that field's issue alone. */
  lemma OnlyIssue(spec: ModelSpec, input: map<string, Value>, i: int, x: Issue)
    requires 0 <= i < |spec.fields| && ValidateField(spec.fields[i], input) == Rejected(x)
    requires forall j :: 0 <= j < |spec.fields| && j != i ==> ValidateField(spec.fields[j], input).Accepted?
    requires spec.extra == Forbid ==> forall k :: k in input ==> IsFieldName(spec.fields, k)
    ensures Validate(spec, input) == ValidationError({x})
  {
    var r := ValidateFields(spec.fields, input);
    assert r.Collected?;
    CollectedIssues(spec.fields, input);
    forall y
      ensures y in r.issues <==> y == x
    {
    }
  }

  /**
   * In an instance, a field without a validator holds the supplied value,
   * which is None only where the field allows it and otherwise has the
   * declared type, or its default when not supplied.
   */
  lemma PlainFieldValue(spec: ModelSpec, input: map<string, Value>, i: int)
    requires DistinctFieldNames(spec.fields) && 0 <= i < |spec.fields| && spec.fields[i].hook == NoHook
    requires Validate(spec, input).Instance?
    ensures spec.fields[i].name in Validate(spec, input).values
    ensures var f := spec.fields[i];
            f.name in input ==>
              && Validate(spec, input).values[f.name] == input[f.name]
              && ((f.nullable && input[f.name].NoneV?) || Conforms(f.ty, input[f.name]))
    ensures var f := spec.fields[i];
            f.name !in input ==> f.default.Some? && Validate(spec, input).values[f.name] == f.default.value
  {
    InstanceValue(spec, input, i);
  }

  /** A model whose fields carry no validator never lets an exception escape. */
  lemma NoHookNoRaise(spec: ModelSpec, input: map<string, Value>)
    requires forall i :: 0 <= i < |spec.fields| ==> spec.fields[i].hook == NoHook
    ensures !Validate(spec, input).TypeErrorRaised?
  {
    assert forall i :: 0 <= i < |spec.fields| ==> !ValidateField(spec.fields[i], input).Raised?;
  }
}
