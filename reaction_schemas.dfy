/**
 * The request and response schemas of reactions and reaction entries.
 *
 * `ReactionCreate` and `ReactionUpdate` declare nothing of their own, so they
 * validate exactly as `ReactionBase`; the stored forms add the `id` field and
 * keep `extra="forbid"`.
 */
module ReactionSchemas {
  import opened Wrappers
  import opened Validation

  /** The fields that run through `ensure_list`. */
  const ListFieldNames: seq<string> :=
    ["labels", "reactant_species_ids", "reactant_vdw_ids", "product_species_ids", "product_vdw_ids"]

  const ReactionBaseFields: seq<Field> := [
    RequiredField("formal_charge", IntT, NoHook),
    RequiredField("multiplicity", IntT, NoHook),
    OptionalField("family", StrT, NoHook),
    OptionalField("labels", ListT(StrT), EnsureListHook),
    OptionalField("reactant_species_ids", ListT(IntT), EnsureListHook),
    OptionalField("reactant_vdw_ids", ListT(IntT), EnsureListHook),
    OptionalField("product_species_ids", ListT(IntT), EnsureListHook),
    OptionalField("product_vdw_ids", ListT(IntT), EnsureListHook),
    OptionalField("reviewer_flags", DictT(StrT), EnsureDictHook)
  ]

  const ReactionBase: ModelSpec := ModelSpec(ReactionBaseFields, Forbid)

  const ReactionInDB: ModelSpec := ModelSpec(ReactionBaseFields + [RequiredField("id", IntT, NoHook)], Forbid)

  const ReactionEntryBaseFields: seq<Field> := [
    RequiredField("reaction_id", IntT, NoHook),
    OptionalField("kinetics", DictT(ObjectT), NoHook)
  ]

  const ReactionEntryBase: ModelSpec := ModelSpec(ReactionEntryBaseFields, Forbid)

  const ReactionEntryInDB: ModelSpec := ModelSpec(ReactionEntryBaseFields + [RequiredField("id", IntT, NoHook)], Forbid)

  /** The keyword arguments of the schema test that names reactants and products. */
  const ReactantsAndProducts: map<string, Value> := map[
    "formal_charge" := IntV(0),
    "multiplicity" := IntV(1),
    "reactant_species_ids" := ListV([IntV(1)]),
    "product_species_ids" := ListV([IntV(2)])
  ]

  lemma ReactionBaseNamesDistinct()
    ensures DistinctFieldNames(ReactionBaseFields)
  {
  }

  lemma ReactantsAndProductsDeclared()
    ensures forall k :: k in ReactantsAndProducts ==> IsFieldName(ReactionBaseFields, k)
  {
    forall k | k in ReactantsAndProducts
      ensures IsFieldName(ReactionBaseFields, k)
    {
      if k == "formal_charge" { assert ReactionBaseFields[0].name == k; }
      else if k == "multiplicity" { assert ReactionBaseFields[1].name == k; }
      else if k == "reactant_species_ids" { assert ReactionBaseFields[4].name == k; }
      else { assert ReactionBaseFields[6].name == k; }
    }
  }

  lemma ReactantsAndProductsFirstAccepted(input: map<string, Value>)
    requires input == ReactantsAndProducts
    ensures forall i :: 0 <= i < 5 ==> ValidateField(ReactionBaseFields[i], input).Accepted?
  {
    assert ValidateField(ReactionBaseFields[0], input).Accepted?;
    assert ValidateField(ReactionBaseFields[1], input).Accepted?;
    assert ValidateField(ReactionBaseFields[2], input).Accepted?;
    assert ValidateField(ReactionBaseFields[3], input).Accepted?;
    assert ValidateField(ReactionBaseFields[4], input).Accepted?;
  }

  lemma ReactantsAndProductsRestAccepted(input: map<string, Value>)
    requires input == ReactantsAndProducts
    ensures forall i :: 5 <= i < |ReactionBaseFields| ==> ValidateField(ReactionBaseFields[i], input).Accepted?
  {
    assert ValidateField(ReactionBaseFields[5], input).Accepted?;
    assert ValidateField(ReactionBaseFields[6], input).Accepted?;
    assert ValidateField(ReactionBaseFields[7], input).Accepted?;
    assert ValidateField(ReactionBaseFields[8], input).Accepted?;
  }

  /** The reactants-and-products arguments build a `ReactionBase`. */
  lemma ReactantsAndProductsAccepted()
    ensures Validate(ReactionBase, ReactantsAndProducts).Instance?
  {
    ReactantsAndProductsDeclared();
    ReactantsAndProductsFirstAccepted(ReactantsAndProducts);
    ReactantsAndProductsRestAccepted(ReactantsAndProducts);
  }

  lemma ListFieldsHooked(i: int)
    requires 3 <= i <= 7
    ensures ReactionBaseFields[i].hook == EnsureListHook && ReactionBaseFields[i].default == Some(NoneV)
  {
  }

  /**
   * In any `ReactionBase`, a list-valued field holds the list supplied for it,
   * a supplied None has become `[]`, and a field not supplied is None.
   */
  lemma ListFieldValue(input: map<string, Value>, i: int)
    requires 3 <= i <= 7
    requires Validate(ReactionBase, input).Instance?
    ensures ReactionBaseFields[i].name in Validate(ReactionBase, input).values
    ensures var name := ReactionBaseFields[i].name;
            var v := Validate(ReactionBase, input).values[name];
            && (name in input ==> EnsureList(input[name]).Some? && v == ListV(EnsureList(input[name]).value))
            && (name in input && input[name].ListV? ==> v == input[name])
            && (name in input && input[name].NoneV? ==> v == ListV([]))
            && (name !in input ==> v == NoneV)
  {
    ReactionBaseNamesDistinct();
    ListFieldsHooked(i);
    EnsureListFieldValue(ReactionBase, input, i);
  }

  /** The reactant identifiers of the reactants-and-products arguments come back as given. */
  lemma ReactantIdsKept(input: map<string, Value>)
    requires input == ReactantsAndProducts
    ensures Validate(ReactionBase, input).Instance?
    ensures "reactant_species_ids" in Validate(ReactionBase, input).values
    ensures Validate(ReactionBase, input).values["reactant_species_ids"] == ListV([IntV(1)])
  {
    ReactantsAndProductsAccepted();
    ReactantsAndProductsLookups(input);
    ListFieldValue(input, 4);
  }

  /** The product identifiers of the reactants-and-products arguments come back as given. */
  lemma ProductIdsKept(input: map<string, Value>)
    requires input == ReactantsAndProducts
    ensures Validate(ReactionBase, input).Instance?
    ensures "product_species_ids" in Validate(ReactionBase, input).values
    ensures Validate(ReactionBase, input).values["product_species_ids"] == ListV([IntV(2)])
  {
    ReactantsAndProductsAccepted();
    ReactantsAndProductsLookups(input);
    ListFieldValue(input, 6);
  }

  lemma ReactantsAndProductsLookups(input: map<string, Value>)
    requires input == ReactantsAndProducts
    ensures ReactionBaseFields[4].name == "reactant_species_ids" && ReactionBaseFields[6].name == "product_species_ids"
    ensures "reactant_species_ids" in input && input["reactant_species_ids"] == ListV([IntV(1)])
    ensures "product_species_ids" in input && input["product_species_ids"] == ListV([IntV(2)])
  {
  }

  lemma LabelsNotSupplied()
    ensures ReactionBaseFields[3].name == "labels" && "labels" !in ReactantsAndProducts
  {
    assert ReactantsAndProducts.Keys == {"formal_charge", "multiplicity", "reactant_species_ids", "product_species_ids"};
  }

  /** `labels`, not supplied, is None rather than `[]`: the validator does not run on a default. */
  lemma LabelsLeftNone(input: map<string, Value>)
    requires input == ReactantsAndProducts
    ensures Validate(ReactionBase, input).Instance?
    ensures "labels" in Validate(ReactionBase, input).values
    ensures Validate(ReactionBase, input).values["labels"] == NoneV
  {
    ReactantsAndProductsAccepted();
    LabelsNotSupplied();
    ListFieldValue(input, 3);
  }

  /** A string given for `labels` is stored as the list of its characters, which is what `list(value)` yields. */
  lemma StringLabelsSplit(input: map<string, Value>)
    requires Validate(ReactionBase, input).Instance? && "labels" in input && input["labels"].StrV?
    ensures "labels" in Validate(ReactionBase, input).values
    ensures var v := Validate(ReactionBase, input).values["labels"];
            && v.ListV? && |v.items| == |input["labels"].s|
            && forall k :: 0 <= k < |v.items| ==> v.items[k] == StrV([input["labels"].s[k]])
  {
    assert ReactionBaseFields[3].name == "labels";
    ListFieldValue(input, 3);
    var given := input["labels"];
    assert Validate(ReactionBase, input).values["labels"] == ListV(EnsureList(given).value);
  }

  /** The keyword arguments of the schema test that give only charge and multiplicity. */
  const ChargeAndMultiplicity: map<string, Value> := map["formal_charge" := IntV(0), "multiplicity" := IntV(1)]

  lemma ChargeAndMultiplicityFieldsAccepted(input: map<string, Value>)
    requires input == ChargeAndMultiplicity
    ensures forall i :: 0 <= i < |ReactionBaseFields| ==> ValidateField(ReactionBaseFields[i], input).Accepted?
  {
    assert input.Keys == {"formal_charge", "multiplicity"};
    forall i | 0 <= i < |ReactionBaseFields|
      ensures ValidateField(ReactionBaseFields[i], input).Accepted?
    {
      if i >= 2 {
        assert ReactionBaseFields[i].name !in input;
      }
    }
  }

  lemma ChargeAndMultiplicityAccepted(input: map<string, Value>)
    requires input == ChargeAndMultiplicity
    ensures Validate(ReactionBase, input).Instance?
  {
    ChargeAndMultiplicityFieldsAccepted(input);
    assert forall k :: k in input ==> IsFieldName(ReactionBaseFields, k) by {
      assert ReactionBaseFields[0].name == "formal_charge" && ReactionBaseFields[1].name == "multiplicity";
    }
  }

  lemma OptionalNamesAbsent(input: map<string, Value>)
    requires input == ChargeAndMultiplicity
    ensures forall i :: 2 <= i < |ReactionBaseFields| ==>
              ReactionBaseFields[i].name !in input && ReactionBaseFields[i].default == Some(NoneV)
  {
    assert input.Keys == {"formal_charge", "multiplicity"};
  }

  /** Charge and multiplicity alone build a `ReactionBase` whose optional fields are all None. */
  lemma ChargeAndMultiplicitySuffice(input: map<string, Value>)
    requires input == ChargeAndMultiplicity
    ensures Validate(ReactionBase, input).Instance?
    ensures forall i :: 2 <= i < |ReactionBaseFields| ==>
              ReactionBaseFields[i].name in Validate(ReactionBase, input).values
              && Validate(ReactionBase, input).values[ReactionBaseFields[i].name] == NoneV
  {
    ChargeAndMultiplicityAccepted(input);
    OptionalNamesAbsent(input);
    ReactionBaseNamesDistinct();
    AbsentFieldsNone(ReactionBase, input, 2);
  }

  const ReactionBaseNames: set<string> := {
    "formal_charge", "multiplicity", "family", "labels", "reactant_species_ids",
    "reactant_vdw_ids", "product_species_ids", "product_vdw_ids", "reviewer_flags"
  }

  lemma ReactionBaseNamesAre()
    ensures FieldNames(ReactionBaseFields) == ReactionBaseNames
  {
    forall i | 0 <= i < |ReactionBaseFields|
      ensures ReactionBaseFields[i].name in ReactionBaseNames
    {
    }
    forall k | k in ReactionBaseNames
      ensures IsFieldName(ReactionBaseFields, k)
    {
      var f := ReactionBaseFields;
      if k == f[0].name {} else if k == f[1].name {} else if k == f[2].name {}
      else if k == f[3].name {} else if k == f[4].name {} else if k == f[5].name {}
      else if k == f[6].name {} else if k == f[7].name {} else { assert k == f[8].name; }
    }
  }

  /** Constructing a `ReactionBase` needs `formal_charge` and `multiplicity`, both integers. */
  lemma ReactionBaseRequired(input: map<string, Value>)
    requires Validate(ReactionBase, input).Instance?
    ensures "formal_charge" in input && input["formal_charge"].IntV?
    ensures "multiplicity" in input && input["multiplicity"].IntV?
  {
    assert ValidateField(ReactionBaseFields[0], input).Accepted?;
    assert ValidateField(ReactionBaseFields[1], input).Accepted?;
  }

  /** Any keyword that is not a declared field makes construction fail, and the error names it. */
  lemma ReactionBaseRejectsUnknown(input: map<string, Value>, k: string)
    requires k in input && k !in ReactionBaseNames
    ensures !Validate(ReactionBase, input).Instance?
    ensures Validate(ReactionBase, input).ValidationError? ==> ExtraForbidden(k) in Validate(ReactionBase, input).issues
  {
    ReactionBaseNamesAre();
    UnknownNameRejected(ReactionBase, input, k);
  }

  /**
   * A `labels` value that cannot be iterated makes `ensure_list` raise
   * TypeError, which escapes instead of a validation error whatever else is
   * supplied.
   */
  lemma NonIterableLabelsRaise(input: map<string, Value>)
    requires "labels" in input && (input["labels"].IntV? || input["labels"].BoolV? || input["labels"].FloatV?)
    ensures Validate(ReactionBase, input) == TypeErrorRaised("labels")
  {
    assert ReactionBaseFields[3].name == "labels";
    FirstRaiseEscapes(ReactionBase, input, 3);
  }

  /** A supplied `reviewer_flags` is kept when truthy and replaced by `{}` otherwise; either way it is a dict. */
  lemma ReviewerFlagsValue(input: map<string, Value>)
    requires Validate(ReactionBase, input).Instance? && "reviewer_flags" in input
    ensures "reviewer_flags" in Validate(ReactionBase, input).values
    ensures var v := Validate(ReactionBase, input).values["reviewer_flags"];
            v.DictV? && (Truthy(input["reviewer_flags"]) ==> v == input["reviewer_flags"])
            && (!Truthy(input["reviewer_flags"]) ==> v == DictV([]))
  {
    ReactionBaseNamesDistinct();
    var f := ReactionBaseFields[8];
    assert f.name == "reviewer_flags" && f.hook == EnsureDictHook;
    EnsureDictFieldValue(ReactionBase, input, 8);
    var v := Validate(ReactionBase, input).values[f.name];
    assert v.DictV? by {
      InstanceValue(ReactionBase, input, 8);
      FieldOutcomes(f, input);
      assert v != NoneV;
    }
    var x := input[f.name];
    assert v == EnsureDict(x);
    assert Truthy(x) ==> v == x;
    assert !Truthy(x) ==> v == DictV([]);
  }

  /** The stored form needs `id`, which `ReactionBase` refuses. */
  lemma IdOnlyInStoredForm(input: map<string, Value>)
    ensures Validate(ReactionInDB, input).Instance? ==> "id" in input && input["id"].IntV?
    ensures "id" in input ==> !Validate(ReactionBase, input).Instance?
  {
    var last := |ReactionInDB.fields| - 1;
    assert ReactionInDB.fields[last] == RequiredField("id", IntT, NoHook);
    if Validate(ReactionInDB, input).Instance? {
      assert ValidateField(ReactionInDB.fields[last], input).Accepted?;
    }
    if "id" in input {
      ReactionBaseRejectsUnknown(input, "id");
    }
  }

  /** Constructing a reaction entry needs an integer `reaction_id`; `kinetics` may be left out and is then None. */
  lemma ReactionEntryBaseNeedsReaction(input: map<string, Value>)
    requires Validate(ReactionEntryBase, input).Instance?
    ensures "reaction_id" in input && input["reaction_id"].IntV?
    ensures "kinetics" in Validate(ReactionEntryBase, input).values
    ensures "kinetics" !in input ==> Validate(ReactionEntryBase, input).values["kinetics"] == NoneV
  {
    assert ValidateField(ReactionEntryBaseFields[0], input).Accepted?;
    InstanceValue(ReactionEntryBase, input, 1);
  }

  /**
   * A reaction entry is built exactly when `reaction_id` is an integer,
   * `kinetics` is left out, None or a dict, and no other name is given:
   * `kinetics` is optional.
   */
  lemma ReactionEntryBaseAccepts(input: map<string, Value>)
    ensures Validate(ReactionEntryBase, input).Instance? <==>
              && "reaction_id" in input && input["reaction_id"].IntV?
              && ("kinetics" in input ==> input["kinetics"].NoneV? || Conforms(DictT(ObjectT), input["kinetics"]))
              && forall k :: k in input ==> k == "reaction_id" || k == "kinetics"
  {
    ReactionEntryFieldsAccepted(input);
    ReactionEntryNamesOnly(input);
  }

  lemma ReactionEntryFieldsAccepted(input: map<string, Value>)
    ensures (forall i :: 0 <= i < |ReactionEntryBaseFields| ==> ValidateField(ReactionEntryBaseFields[i], input).Accepted?) <==>
              && "reaction_id" in input && input["reaction_id"].IntV?
              && ("kinetics" in input ==> input["kinetics"].NoneV? || Conforms(DictT(ObjectT), input["kinetics"]))
  {
    assert ValidateField(ReactionEntryBaseFields[0], input).Accepted? <==> "reaction_id" in input && input["reaction_id"].IntV?;
    assert ValidateField(ReactionEntryBaseFields[1], input).Accepted? <==>
             ("kinetics" in input ==> input["kinetics"].NoneV? || Conforms(DictT(ObjectT), input["kinetics"]));
  }

  lemma ReactionEntryNamesOnly(input: map<string, Value>)
    ensures (forall k :: k in input ==> IsFieldName(ReactionEntryBaseFields, k)) <==>
              forall k :: k in input ==> k == "reaction_id" || k == "kinetics"
  {
    ReactionEntryBaseNamesAre();
  }

  lemma ReactionEntryBaseNamesAre()
    ensures FieldNames(ReactionEntryBaseFields) == {"reaction_id", "kinetics"}
  {
    assert IsFieldName(ReactionEntryBaseFields, "reaction_id") by { assert ReactionEntryBaseFields[0].name == "reaction_id"; }
    assert IsFieldName(ReactionEntryBaseFields, "kinetics") by { assert ReactionEntryBaseFields[1].name == "kinetics"; }
  }

  /** A reaction entry refuses any keyword other than `reaction_id` and `kinetics`. */
  lemma ReactionEntryBaseRejectsUnknown(input: map<string, Value>, k: string)
    requires k in input && k != "reaction_id" && k != "kinetics"
    ensures !Validate(ReactionEntryBase, input).Instance?
    ensures Validate(ReactionEntryBase, input).ValidationError? ==> ExtraForbidden(k) in Validate(ReactionEntryBase, input).issues
  {
    ReactionEntryBaseNamesAre();
    UnknownNameRejected(ReactionEntryBase, input, k);
  }
}
