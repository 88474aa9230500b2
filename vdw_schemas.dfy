/**
 * The request and response schemas of van der Waals wells and their entries.
 *
 * `VDWCreate` and `VDWUpdate` declare nothing of their own, so they validate
 * exactly as `VDWBase`; the stored forms add the `id` field and keep
 * `extra="forbid"`.
 */
module VDWSchemas {
  import opened Wrappers
  import opened Validation

  const VDWBaseFields: seq<Field> := [
    RequiredField("inchi_augmented", StrT, NoHook),
    RequiredField("constituents", ListT(IntT), EnsureListHook),
    RequiredField("charge", IntT, NoHook),
    RequiredField("multiplicity", IntT, NoHook),
    OptionalField("molecular_formula", StrT, NoHook),
    OptionalField("molecular_weight", FloatT, NoHook),
    OptionalField("labels", ListT(StrT), EnsureListHook),
    OptionalField("fragment_orientation", ListT(DictT(ObjectT)), EnsureListHook),
    OptionalField("reviewer_flags", DictT(StrT), EnsureDictHook)
  ]

  const VDWBase: ModelSpec := ModelSpec(VDWBaseFields, Forbid)

  const VDWInDB: ModelSpec := ModelSpec(VDWBaseFields + [RequiredField("id", IntT, NoHook)], Forbid)

  const VDWEntryBaseFields: seq<Field> := [
    RequiredField("vdw_id", IntT, NoHook),
    OptionalField("xyz", DictT(ObjectT), NoHook),
    OptionalField("energy", FloatT, NoHook)
  ]

  const VDWEntryBase: ModelSpec := ModelSpec(VDWEntryBaseFields, Forbid)

  const VDWEntryInDB: ModelSpec := ModelSpec(VDWEntryBaseFields + [RequiredField("id", IntT, NoHook)], Forbid)

  const VDWBaseNames: set<string> := {
    "inchi_augmented", "constituents", "charge", "multiplicity", "molecular_formula",
    "molecular_weight", "labels", "fragment_orientation", "reviewer_flags"
  }

  lemma VDWBaseNamesDistinct()
    ensures DistinctFieldNames(VDWBaseFields)
  {
  }

  lemma VDWBaseNamesAre()
    ensures FieldNames(VDWBaseFields) == VDWBaseNames
  {
    forall i | 0 <= i < |VDWBaseFields|
      ensures VDWBaseFields[i].name in VDWBaseNames
    {
    }
    forall k | k in VDWBaseNames
      ensures IsFieldName(VDWBaseFields, k)
    {
      var f := VDWBaseFields;
      if k == f[0].name {} else if k == f[1].name {} else if k == f[2].name {}
      else if k == f[3].name {} else if k == f[4].name {} else if k == f[5].name {}
      else if k == f[6].name {} else if k == f[7].name {} else { assert k == f[8].name; }
    }
  }

  /** A well built from the augmented InChI, two constituents, charge, multiplicity and one label. */
  const TwoFragmentWell: map<string, Value> := map[
    "inchi_augmented" := StrV("InChI=1/AB"),
    "constituents" := ListV([IntV(1), IntV(2)]),
    "charge" := IntV(0),
    "multiplicity" := IntV(1),
    "labels" := ListV([StrV("A···B")])
  ]

  /** The same arguments without `constituents`. */
  const WellWithoutConstituents: map<string, Value> := map[
    "inchi_augmented" := StrV("InChI=1/AB"),
    "charge" := IntV(0),
    "multiplicity" := IntV(1)
  ]

  lemma TwoFragmentWellDeclared()
    ensures forall k :: k in TwoFragmentWell ==> IsFieldName(VDWBaseFields, k)
  {
    forall k | k in TwoFragmentWell
      ensures IsFieldName(VDWBaseFields, k)
    {
      var f := VDWBaseFields;
      if k == f[0].name {} else if k == f[1].name {} else if k == f[2].name {}
      else if k == f[3].name {} else { assert k == f[6].name; }
    }
  }

  lemma TwoFragmentWellRequiredAccepted(input: map<string, Value>)
    requires input == TwoFragmentWell
    ensures forall i :: 0 <= i < 4 ==> ValidateField(VDWBaseFields[i], input).Accepted?
  {
    assert ValidateField(VDWBaseFields[0], input).Accepted?;
    assert ValidateField(VDWBaseFields[1], input).Accepted?;
    assert ValidateField(VDWBaseFields[2], input).Accepted?;
    assert ValidateField(VDWBaseFields[3], input).Accepted?;
  }

  lemma TwoFragmentWellOptionalAccepted(input: map<string, Value>)
    requires input == TwoFragmentWell
    ensures forall i :: 4 <= i < |VDWBaseFields| ==> ValidateField(VDWBaseFields[i], input).Accepted?
  {
    assert ValidateField(VDWBaseFields[4], input).Accepted?;
    assert ValidateField(VDWBaseFields[5], input).Accepted?;
    assert ValidateField(VDWBaseFields[6], input).Accepted?;
    assert ValidateField(VDWBaseFields[7], input).Accepted?;
    assert ValidateField(VDWBaseFields[8], input).Accepted?;
  }

  /** The two-fragment arguments build a `VDWBase`. */
  lemma TwoFragmentWellAccepted()
    ensures Validate(VDWBase, TwoFragmentWell).Instance?
  {
    TwoFragmentWellDeclared();
    TwoFragmentWellRequiredAccepted(TwoFragmentWell);
    TwoFragmentWellOptionalAccepted(TwoFragmentWell);
  }

  /** In any `VDWBase`, the four required fields were supplied, with their declared types. */
  lemma VDWBaseRequired(input: map<string, Value>)
    requires Validate(VDWBase, input).Instance?
    ensures "inchi_augmented" in input && input["inchi_augmented"].StrV?
    ensures "constituents" in input
    ensures "charge" in input && input["charge"].IntV?
    ensures "multiplicity" in input && input["multiplicity"].IntV?
  {
    assert ValidateField(VDWBaseFields[0], input).Accepted?;
    assert ValidateField(VDWBaseFields[1], input).Accepted?;
    assert ValidateField(VDWBaseFields[2], input).Accepted?;
    assert ValidateField(VDWBaseFields[3], input).Accepted?;
  }

  /**
   * `constituents` is required, yet a supplied None is accepted and becomes
   * `[]`, because `ensure_list` runs before the type check; a supplied list
   * is kept as it is.
   */
  lemma ConstituentsValue(input: map<string, Value>)
    requires Validate(VDWBase, input).Instance?
    ensures "constituents" in input && "constituents" in Validate(VDWBase, input).values
    ensures input["constituents"].NoneV? ==> Validate(VDWBase, input).values["constituents"] == ListV([])
    ensures input["constituents"].ListV? ==> Validate(VDWBase, input).values["constituents"] == input["constituents"]
  {
    VDWBaseRequired(input);
    VDWBaseNamesDistinct();
    assert VDWBaseFields[1].name == "constituents";
    SuppliedValue(VDWBase, input, 1);
  }

  /**
   * `labels` and `fragment_orientation` hold the list supplied for them, a
   * supplied None has become `[]`, and when not supplied they are None.
   */
  lemma OptionalListValue(input: map<string, Value>, i: int)
    requires i == 6 || i == 7
    requires Validate(VDWBase, input).Instance?
    ensures VDWBaseFields[i].name in Validate(VDWBase, input).values
    ensures var name := VDWBaseFields[i].name;
            var v := Validate(VDWBase, input).values[name];
            && (name in input && input[name].ListV? ==> v == input[name])
            && (name in input && input[name].NoneV? ==> v == ListV([]))
            && (name !in input ==> v == NoneV)
  {
    VDWBaseNamesDistinct();
    assert VDWBaseFields[i].hook == EnsureListHook && VDWBaseFields[i].default == Some(NoneV);
    EnsureListFieldValue(VDWBase, input, i);
  }

  /** A supplied `reviewer_flags` is kept when truthy and replaced by `{}` otherwise; either way it is a dict. */
  lemma VDWReviewerFlagsValue(input: map<string, Value>)
    requires Validate(VDWBase, input).Instance? && "reviewer_flags" in input
    ensures "reviewer_flags" in Validate(VDWBase, input).values
    ensures var v := Validate(VDWBase, input).values["reviewer_flags"];
            v.DictV? && (Truthy(input["reviewer_flags"]) ==> v == input["reviewer_flags"])
            && (!Truthy(input["reviewer_flags"]) ==> v == DictV([]))
  {
    VDWBaseNamesDistinct();
    var f := VDWBaseFields[8];
    assert f.name == "reviewer_flags" && f.hook == EnsureDictHook;
    EnsureDictFieldValue(VDWBase, input, 8);
    var v := Validate(VDWBase, input).values[f.name];
    assert v.DictV? by {
      InstanceValue(VDWBase, input, 8);
      FieldOutcomes(f, input);
      assert v != NoneV;
    }
    var x := input[f.name];
    assert v == EnsureDict(x);
    assert Truthy(x) ==> v == x;
    assert !Truthy(x) ==> v == DictV([]);
  }

  /** The constituents of the two-fragment well come back as given. */
  lemma TwoFragmentWellValues(input: map<string, Value>)
    requires input == TwoFragmentWell
    ensures Validate(VDWBase, input).Instance?
    ensures "constituents" in Validate(VDWBase, input).values
    ensures Validate(VDWBase, input).values["constituents"] == ListV([IntV(1), IntV(2)])
  {
    TwoFragmentWellAccepted();
    TwoFragmentWellLookups(input);
    ConstituentsValue(input);
  }

  lemma TwoFragmentWellLookups(input: map<string, Value>)
    requires input == TwoFragmentWell
    ensures "constituents" in input && input["constituents"] == ListV([IntV(1), IntV(2)])
    ensures "charge" in input && input["charge"] == IntV(0)
    ensures "multiplicity" in input && input["multiplicity"] == IntV(1)
  {
  }

  /** The charge and multiplicity of the two-fragment well come back as given: 0 and 1. */
  lemma TwoFragmentWellNumbers(input: map<string, Value>)
    requires input == TwoFragmentWell && Validate(VDWBase, input).Instance?
    ensures "charge" in Validate(VDWBase, input).values && Validate(VDWBase, input).values["charge"] == IntV(0)
    ensures "multiplicity" in Validate(VDWBase, input).values && Validate(VDWBase, input).values["multiplicity"] == IntV(1)
  {
    TwoFragmentWellLookups(input);
    ChargeAndMultiplicityValue(input);
  }

  /** `charge` and `multiplicity` hold the integers supplied for them. */
  lemma ChargeAndMultiplicityValue(input: map<string, Value>)
    requires Validate(VDWBase, input).Instance?
    ensures "charge" in input && "charge" in Validate(VDWBase, input).values
    ensures "multiplicity" in input && "multiplicity" in Validate(VDWBase, input).values
    ensures Validate(VDWBase, input).values["charge"] == input["charge"] && input["charge"].IntV?
    ensures Validate(VDWBase, input).values["multiplicity"] == input["multiplicity"] && input["multiplicity"].IntV?
  {
    VDWBaseNamesDistinct();
    assert VDWBaseFields[2].name == "charge" && VDWBaseFields[3].name == "multiplicity";
    assert ValidateField(VDWBaseFields[2], input).Accepted? && ValidateField(VDWBaseFields[3], input).Accepted?;
    PlainFieldValue(VDWBase, input, 2);
    PlainFieldValue(VDWBase, input, 3);
  }

  lemma WithoutConstituentsOutcomes()
    ensures forall i :: 0 <= i < |VDWBaseFields| && i != 1 ==> ValidateField(VDWBaseFields[i], WellWithoutConstituents).Accepted?
    ensures ValidateField(VDWBaseFields[1], WellWithoutConstituents) == Rejected(Missing("constituents"))
  {
    var input := WellWithoutConstituents;
    assert ValidateField(VDWBaseFields[0], input).Accepted?;
    assert ValidateField(VDWBaseFields[2], input).Accepted?;
    assert ValidateField(VDWBaseFields[3], input).Accepted?;
    assert ValidateField(VDWBaseFields[4], input).Accepted?;
    assert ValidateField(VDWBaseFields[5], input).Accepted?;
    assert ValidateField(VDWBaseFields[6], input).Accepted?;
    assert ValidateField(VDWBaseFields[7], input).Accepted?;
    assert ValidateField(VDWBaseFields[8], input).Accepted?;
  }

  lemma WithoutConstituentsDeclared()
    ensures forall k :: k in WellWithoutConstituents ==> IsFieldName(VDWBaseFields, k)
  {
    forall k | k in WellWithoutConstituents
      ensures IsFieldName(VDWBaseFields, k)
    {
      var f := VDWBaseFields;
      if k == f[0].name {} else if k == f[2].name {} else { assert k == f[3].name; }
    }
  }

  /** Leaving out `constituents` is a validation error that reports exactly that field as missing. */
  lemma MissingConstituentsRejected(input: map<string, Value>)
    requires input == WellWithoutConstituents
    ensures Validate(VDWBase, input) == ValidationError({Missing("constituents")})
  {
    WithoutConstituentsOutcomes();
    WithoutConstituentsDeclared();
    OnlyIssue(VDWBase, input, 1, Missing("constituents"));
  }

  /** Any keyword that is not a declared field makes construction fail, and the error names it. */
  lemma VDWBaseRejectsUnknown(input: map<string, Value>, k: string)
    requires k in input && k !in VDWBaseNames
    ensures !Validate(VDWBase, input).Instance?
    ensures Validate(VDWBase, input).ValidationError? ==> ExtraForbidden(k) in Validate(VDWBase, input).issues
  {
    VDWBaseNamesAre();
    UnknownNameRejected(VDWBase, input, k);
  }

  /** The stored form needs `id`, which `VDWBase` refuses. */
  lemma VDWIdOnlyInStoredForm(input: map<string, Value>)
    ensures Validate(VDWInDB, input).Instance? ==> "id" in input && input["id"].IntV?
    ensures "id" in input ==> !Validate(VDWBase, input).Instance?
  {
    var last := |VDWInDB.fields| - 1;
    assert VDWInDB.fields[last] == RequiredField("id", IntT, NoHook);
    if Validate(VDWInDB, input).Instance? {
      assert ValidateField(VDWInDB.fields[last], input).Accepted?;
    }
    if "id" in input {
      VDWBaseRejectsUnknown(input, "id");
    }
  }

  /** Constructing a VDW entry needs an integer `vdw_id`; `xyz` and `energy` may be left out and are then None. */
  lemma VDWEntryBaseNeedsWell(input: map<string, Value>)
    requires Validate(VDWEntryBase, input).Instance?
    ensures "vdw_id" in input && input["vdw_id"].IntV?
    ensures "xyz" in Validate(VDWEntryBase, input).values && "energy" in Validate(VDWEntryBase, input).values
    ensures "xyz" !in input ==> Validate(VDWEntryBase, input).values["xyz"] == NoneV
    ensures "energy" !in input ==> Validate(VDWEntryBase, input).values["energy"] == NoneV
  {
    assert ValidateField(VDWEntryBaseFields[0], input).Accepted?;
    InstanceValue(VDWEntryBase, input, 1);
    InstanceValue(VDWEntryBase, input, 2);
  }

  /**
   * A van der Waals entry is built exactly when `vdw_id` is an integer,
   * `xyz` is left out, None or a dict, `energy` is left out, None or a float,
   * and no other name is given: the geometry and the energy are optional.
   */
  lemma VDWEntryBaseAccepts(input: map<string, Value>)
    ensures Validate(VDWEntryBase, input).Instance? <==>
              && "vdw_id" in input && input["vdw_id"].IntV?
              && ("xyz" in input ==> input["xyz"].NoneV? || Conforms(DictT(ObjectT), input["xyz"]))
              && ("energy" in input ==> input["energy"].NoneV? || input["energy"].FloatV?)
              && forall k :: k in input ==> k == "vdw_id" || k == "xyz" || k == "energy"
  {
    VDWEntryFieldsAccepted(input);
    VDWEntryNamesOnly(input);
  }

  lemma VDWEntryFieldsAccepted(input: map<string, Value>)
    ensures (forall i :: 0 <= i < |VDWEntryBaseFields| ==> ValidateField(VDWEntryBaseFields[i], input).Accepted?) <==>
              && "vdw_id" in input && input["vdw_id"].IntV?
              && ("xyz" in input ==> input["xyz"].NoneV? || Conforms(DictT(ObjectT), input["xyz"]))
              && ("energy" in input ==> input["energy"].NoneV? || input["energy"].FloatV?)
  {
    assert ValidateField(VDWEntryBaseFields[0], input).Accepted? <==> "vdw_id" in input && input["vdw_id"].IntV?;
    assert ValidateField(VDWEntryBaseFields[1], input).Accepted? <==>
             ("xyz" in input ==> input["xyz"].NoneV? || Conforms(DictT(ObjectT), input["xyz"]));
    assert ValidateField(VDWEntryBaseFields[2], input).Accepted? <==>
             ("energy" in input ==> input["energy"].NoneV? || input["energy"].FloatV?);
  }

  lemma VDWEntryNamesOnly(input: map<string, Value>)
    ensures (forall k :: k in input ==> IsFieldName(VDWEntryBaseFields, k)) <==>
              forall k :: k in input ==> k == "vdw_id" || k == "xyz" || k == "energy"
  {
    VDWEntryBaseNamesAre();
  }

  lemma VDWEntryBaseNamesAre()
    ensures FieldNames(VDWEntryBaseFields) == {"vdw_id", "xyz", "energy"}
  {
    assert IsFieldName(VDWEntryBaseFields, "vdw_id") by { assert VDWEntryBaseFields[0].name == "vdw_id"; }
    assert IsFieldName(VDWEntryBaseFields, "xyz") by { assert VDWEntryBaseFields[1].name == "xyz"; }
    assert IsFieldName(VDWEntryBaseFields, "energy") by { assert VDWEntryBaseFields[2].name == "energy"; }
  }

  /** A VDW entry refuses any keyword other than `vdw_id`, `xyz` and `energy`. */
  lemma VDWEntryBaseRejectsUnknown(input: map<string, Value>, k: string)
    requires k in input && k != "vdw_id" && k != "xyz" && k != "energy"
    ensures !Validate(VDWEntryBase, input).Instance?
    ensures Validate(VDWEntryBase, input).ValidationError? ==> ExtraForbidden(k) in Validate(VDWEntryBase, input).issues
  {
    VDWEntryBaseNamesAre();
    UnknownNameRejected(VDWEntryBase, input, k);
  }
}
