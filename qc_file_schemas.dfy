/**
 * The request and response schemas of QC files, and the row that an ORM
 * insert of a validated create record writes to `qc_file`.
 *
 * The schemas keep pydantic's default `extra="ignore"`. `calc_type` and
 * `status` are plain strings here, so the schema layer accepts labels the
 * table's enum columns refuse, and it accepts a record with no owner or
 * several, which the owner check refuses.
 */
module QCFileSchemas {
  import opened Wrappers
  import opened Validation
  import opened QCFileModel

  const QCFileBaseFields: seq<Field> := [
    RequiredField("calc_type", StrT, NoHook),
    RequiredField("status", StrT, NoHook),
    RequiredField("level_id", IntT, NoHook),
    RequiredField("ess_id", IntT, NoHook),
    OptionalField("input_name", StrT, NoHook),
    OptionalField("output_name", StrT, NoHook),
    Field("compressed", BoolT, false, Some(BoolV(true)), NoHook),
    RequiredField("checksum", StrT, NoHook)
  ]

  const QCFileBase: ModelSpec := ModelSpec(QCFileBaseFields, Ignore)

  const QCFileCreateFields: seq<Field> := QCFileBaseFields + [
    OptionalField("species_id", IntT, NoHook),
    OptionalField("transition_state_id", IntT, NoHook),
    OptionalField("np_species_id", IntT, NoHook),
    OptionalField("input_file", BytesT, NoHook),
    OptionalField("output_file", BytesT, NoHook)
  ]

  const QCFileCreate: ModelSpec := ModelSpec(QCFileCreateFields, Ignore)

  /** The response schema `QCFile`. */
  const QCFileRead: ModelSpec := ModelSpec(QCFileBaseFields + [RequiredField("id", IntT, NoHook)], Ignore)

  lemma CreateNamesDistinct()
    ensures DistinctFieldNames(QCFileCreateFields)
  {
  }

  function IntColumn(v: Value): Option<int>
  {
    if v.IntV? then Some(v.i) else None
  }

  function StrColumn(v: Value): Option<string>
  {
    if v.StrV? then Some(v.s) else None
  }

  function BoolColumn(v: Value): Option<bool>
  {
    if v.BoolV? then Some(v.b) else None
  }

  function BytesColumn(v: Value): Option<Bytes>
  {
    if v.BytesV? then Some(v.bytes) else None
  }

  /** The value of a field of a validated record, NULL for a name it does not hold. */
  function Column(values: map<string, Value>, name: string): Value
  {
    if name in values then values[name] else NoneV
  }

  /** The row an ORM insert of a validated `QCFileCreate` record writes, field by field. */
  function RowOfCreate(values: map<string, Value>): (r: QCFileRow)
    ensures r.speciesId.Some? <==> "species_id" in values && values["species_id"].IntV?
    ensures r.transitionStateId.Some? <==> "transition_state_id" in values && values["transition_state_id"].IntV?
    ensures r.npSpeciesId.Some? <==> "np_species_id" in values && values["np_species_id"].IntV?
  {
    QCFileRow(
      IntColumn(Column(values, "species_id")),
      IntColumn(Column(values, "transition_state_id")),
      IntColumn(Column(values, "np_species_id")),
      StrColumn(Column(values, "calc_type")),
      StrColumn(Column(values, "status")),
      IntColumn(Column(values, "level_id")),
      IntColumn(Column(values, "ess_id")),
      StrColumn(Column(values, "input_name")),
      StrColumn(Column(values, "output_name")),
      BytesColumn(Column(values, "input_file")),
      BytesColumn(Column(values, "output_file")),
      BoolColumn(Column(values, "compressed")),
      StrColumn(Column(values, "checksum")))
  }

  /** An owner identifier given as an integer, as opposed to left out or given as None. */
  predicate OwnerSupplied(input: map<string, Value>, name: string)
  {
    name in input && input[name].IntV?
  }

  /** How many of the three owner identifiers a create request gives. */
  function OwnersSupplied(input: map<string, Value>): nat
  {
    (if OwnerSupplied(input, "species_id") then 1 else 0)
    + (if OwnerSupplied(input, "transition_state_id") then 1 else 0)
    + (if OwnerSupplied(input, "np_species_id") then 1 else 0)
  }

  /** Each validator-free field of a create record holds the supplied value or its default. */
  lemma CreateFieldValue(input: map<string, Value>, i: int)
    requires 0 <= i < |QCFileCreateFields| && Validate(QCFileCreate, input).Instance?
    ensures var f := QCFileCreateFields[i];
            var values := Validate(QCFileCreate, input).values;
            && f.name in values
            && (f.name in input ==> values[f.name] == input[f.name] && ((f.nullable && input[f.name].NoneV?) || Conforms(f.ty, input[f.name])))
            && (f.name !in input ==> f.default.Some? && values[f.name] == f.default.value)
  {
    CreateNamesDistinct();
    assert QCFileCreateFields[i].hook == NoHook;
    PlainFieldValue(QCFileCreate, input, i);
  }

  /**
   * The required text and integer fields of a create record reach their
   * NOT NULL columns unchanged.
   */
  lemma CreateRequiredColumns(input: map<string, Value>)
    requires Validate(QCFileCreate, input).Instance?
    ensures "calc_type" in input && input["calc_type"].StrV?
    ensures "status" in input && input["status"].StrV?
    ensures "level_id" in input && input["level_id"].IntV?
    ensures "ess_id" in input && input["ess_id"].IntV?
    ensures "checksum" in input && input["checksum"].StrV?
    ensures var r := RowOfCreate(Validate(QCFileCreate, input).values);
            && r.calcType == Some(input["calc_type"].s)
            && r.status == Some(input["status"].s)
            && r.levelId == Some(input["level_id"].i)
            && r.essId == Some(input["ess_id"].i)
            && r.checksum == Some(input["checksum"].s)
  {
    CreateFieldValue(input, 0);
    CreateFieldValue(input, 1);
    CreateFieldValue(input, 2);
    CreateFieldValue(input, 3);
    CreateFieldValue(input, 7);
  }

  /** `compressed` is true when left out, keeps a supplied boolean, and is never NULL. */
  lemma CreateCompressedColumn(input: map<string, Value>)
    requires Validate(QCFileCreate, input).Instance?
    ensures "compressed" in input ==> input["compressed"].BoolV?
    ensures RowOfCreate(Validate(QCFileCreate, input).values).compressed
              == Some(if "compressed" in input then input["compressed"].b else true)
  {
    CreateFieldValue(input, 6);
  }

  /** An owner column holds the identifier when one was given as an integer and is NULL otherwise. */
  lemma CreateOwnerColumns(input: map<string, Value>)
    requires Validate(QCFileCreate, input).Instance?
    ensures var r := RowOfCreate(Validate(QCFileCreate, input).values);
            && (r.speciesId.Some? <==> OwnerSupplied(input, "species_id"))
            && (r.transitionStateId.Some? <==> OwnerSupplied(input, "transition_state_id"))
            && (r.npSpeciesId.Some? <==> OwnerSupplied(input, "np_species_id"))
            && OwnerCount(r) == OwnersSupplied(input)
  {
    CreateFieldValue(input, 8);
    CreateFieldValue(input, 9);
    CreateFieldValue(input, 10);
  }

  /** The file names reach their columns unchanged, NULL when left out or None. */
  lemma CreateNameColumns(input: map<string, Value>)
    requires Validate(QCFileCreate, input).Instance?
    ensures var r := RowOfCreate(Validate(QCFileCreate, input).values);
            && (r.inputName.Some? <==> "input_name" in input && input["input_name"].StrV?)
            && (r.inputName.Some? ==> r.inputName.value == input["input_name"].s)
            && (r.outputName.Some? <==> "output_name" in input && input["output_name"].StrV?)
            && (r.outputName.Some? ==> r.outputName.value == input["output_name"].s)
  {
    CreateFieldValue(input, 4);
    CreateFieldValue(input, 5);
  }

  /** The file payloads reach their columns unchanged when given as bytes, and are NULL when left out or None. */
  lemma CreateFileColumns(input: map<string, Value>)
    requires Validate(QCFileCreate, input).Instance?
    ensures var r := RowOfCreate(Validate(QCFileCreate, input).values);
            && (r.inputFile.Some? <==> "input_file" in input && input["input_file"].BytesV?)
            && (r.inputFile.Some? ==> r.inputFile.value == input["input_file"].bytes)
            && (r.outputFile.Some? <==> "output_file" in input && input["output_file"].BytesV?)
            && (r.outputFile.Some? ==> r.outputFile.value == input["output_file"].bytes)
  {
    CreateFieldValue(input, 11);
    CreateFieldValue(input, 12);
  }

  /**
   * A validated create record never breaks a NOT NULL constraint, and the
   * table accepts its row exactly when `calc_type` and `status` are labels of
   * their enums, the text fits its columns and exactly one owner is given.
   */
  lemma CreateRowAdmissible(input: map<string, Value>)
    requires Validate(QCFileCreate, input).Instance?
    ensures "calc_type" in input && input["calc_type"].StrV? && "status" in input && input["status"].StrV?
    ensures "checksum" in input && input["checksum"].StrV?
    ensures NotNull(RowOfCreate(Validate(QCFileCreate, input).values))
    ensures var r := RowOfCreate(Validate(QCFileCreate, input).values);
            Admissible(Declared, r) <==>
              && ParseCalcType(input["calc_type"].s).Some?
              && ParseStatus(input["status"].s).Some?
              && FitsWidth(input["checksum"].s, ChecksumWidth)
              && (r.inputName.Some? ==> FitsWidth(r.inputName.value, NameWidth))
              && (r.outputName.Some? ==> FitsWidth(r.outputName.value, NameWidth))
              && OwnersSupplied(input) == 1
  {
    CreateRequiredColumns(input);
    CreateCompressedColumn(input);
    CreateOwnerColumns(input);
  }

  /** A create record whose `calc_type` is not a label passes the schema and is refused by the enum column. */
  lemma UnknownCalcTypeRefused(input: map<string, Value>, rows: seq<QCFileRow>)
    requires Validate(QCFileCreate, input).Instance?
    requires "calc_type" in input && input["calc_type"].StrV? && ParseCalcType(input["calc_type"].s).None?
    ensures TryInsert(Declared, rows, RowOfCreate(Validate(QCFileCreate, input).values)) == Err(InvalidEnumValue("calc_type"))
  {
    CreateRequiredColumns(input);
  }

  /**
   * A create record that gives no owner passes the schema and, when its other
   * columns fit, is refused by the owner check.
   */
  lemma OwnerlessCreateRefused(input: map<string, Value>, rows: seq<QCFileRow>)
    requires Validate(QCFileCreate, input).Instance? && OwnersSupplied(input) == 0
    requires "calc_type" in input && input["calc_type"].StrV? && ParseCalcType(input["calc_type"].s).Some?
    requires "status" in input && input["status"].StrV? && ParseStatus(input["status"].s).Some?
    requires "checksum" in input && input["checksum"].StrV? && FitsWidth(input["checksum"].s, ChecksumWidth)
    requires "input_name" in input && input["input_name"].StrV? ==> FitsWidth(input["input_name"].s, NameWidth)
    requires "output_name" in input && input["output_name"].StrV? ==> FitsWidth(input["output_name"].s, NameWidth)
    ensures TryInsert(Declared, rows, RowOfCreate(Validate(QCFileCreate, input).values)) == Err(CheckViolation(OwnerCheckName))
  {
    var r := RowOfCreate(Validate(QCFileCreate, input).values);
    CreateRequiredColumns(input);
    CreateCompressedColumn(input);
    CreateOwnerColumns(input);
    CreateNameColumns(input);
    assert NotNull(r) && FitsColumns(Declared, r) && OwnerCount(r) == 0;
    OwnerlessRowRefused(r, rows);
  }

  lemma OwnerlessRowRefused(r: QCFileRow, rows: seq<QCFileRow>)
    requires NotNull(r) && FitsColumns(Declared, r) && OwnerCount(r) == 0
    ensures TryInsert(Declared, rows, r) == Err(CheckViolation(OwnerCheckName))
  {
  }

  /** A record with the required fields only. */
  const OwnerlessCreate: map<string, Value> := map[
    "calc_type" := StrV("opt"),
    "status" := StrV("ok"),
    "level_id" := IntV(1),
    "ess_id" := IntV(1),
    "checksum" := StrV("abc")
  ]

  lemma OwnerlessCreateFieldsAccepted(input: map<string, Value>)
    requires input == OwnerlessCreate
    ensures forall i :: 0 <= i < |QCFileCreateFields| ==> ValidateField(QCFileCreateFields[i], input).Accepted?
  {
    assert ValidateField(QCFileCreateFields[0], input).Accepted?;
    assert ValidateField(QCFileCreateFields[1], input).Accepted?;
    assert ValidateField(QCFileCreateFields[2], input).Accepted?;
    assert ValidateField(QCFileCreateFields[3], input).Accepted?;
    assert ValidateField(QCFileCreateFields[4], input).Accepted?;
    assert ValidateField(QCFileCreateFields[5], input).Accepted?;
    assert ValidateField(QCFileCreateFields[6], input).Accepted?;
    assert ValidateField(QCFileCreateFields[7], input).Accepted?;
    assert ValidateField(QCFileCreateFields[8], input).Accepted?;
    assert ValidateField(QCFileCreateFields[9], input).Accepted?;
    assert ValidateField(QCFileCreateFields[10], input).Accepted?;
    assert ValidateField(QCFileCreateFields[11], input).Accepted?;
    assert ValidateField(QCFileCreateFields[12], input).Accepted?;
  }

  lemma OwnerlessCreateShape(input: map<string, Value>)
    requires input == OwnerlessCreate
    ensures OwnersSupplied(input) == 0 && "input_name" !in input && "output_name" !in input
    ensures "calc_type" in input && input["calc_type"] == StrV("opt")
    ensures "status" in input && input["status"] == StrV("ok")
    ensures "checksum" in input && input["checksum"] == StrV("abc")
  {
    assert input.Keys == {"calc_type", "status", "level_id", "ess_id", "checksum"};
  }

  /** The schema accepts a create request with no owner; the table then refuses its row with the owner check. */
  lemma OwnerlessCreateAcceptedThenRefused(input: map<string, Value>, rows: seq<QCFileRow>)
    requires input == OwnerlessCreate
    ensures Validate(QCFileCreate, input).Instance?
    ensures TryInsert(Declared, rows, RowOfCreate(Validate(QCFileCreate, input).values)) == Err(CheckViolation(OwnerCheckName))
  {
    OwnerlessCreateFieldsAccepted(input);
    OwnerlessCreateShape(input);
    OwnerlessCreateRefused(input, rows);
  }

  /** `compressed` has a default but is not Optional: an explicit None is a validation error naming it. */
  lemma ExplicitNoneCompressedRejected(input: map<string, Value>)
    requires "compressed" in input && input["compressed"].NoneV?
    ensures Validate(QCFileCreate, input).ValidationError?
    ensures WrongType("compressed") in Validate(QCFileCreate, input).issues
  {
    assert QCFileCreateFields[6].name == "compressed";
    assert ValidateField(QCFileCreateFields[6], input) == Rejected(WrongType("compressed"));
    NoHookNoRaise(QCFileCreate, input);
  }

  /** Names the create schema does not declare are dropped: the outcome is that of the declared names alone. */
  lemma CreateIgnoresUnknownNames(input: map<string, Value>)
    ensures Validate(QCFileCreate, input) == Validate(QCFileCreate, map k | k in input && IsFieldName(QCFileCreateFields, k) :: input[k])
  {
    UnknownNamesIgnored(QCFileCreate, input);
  }

  /** The response schema needs an integer `id`. */
  lemma ReadNeedsId(input: map<string, Value>)
    requires Validate(QCFileRead, input).Instance?
    ensures "id" in input && input["id"].IntV?
  {
    var last := |QCFileRead.fields| - 1;
    assert QCFileRead.fields[last] == RequiredField("id", IntT, NoHook);
    assert ValidateField(QCFileRead.fields[last], input).Accepted?;
  }
}
