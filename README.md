# qc_file: the quantum-chemistry file table, its backfill migration and the request schemas

TCKDB stores the input and output files of quantum-chemistry calculations in
the `qc_file` table. Each row belongs to exactly one owner: a species, a
transition state or a non-physical species. A row also records:

- the calculation type (`opt`, `freq`, `scan`, `irc`, `sp`);
- a status (`pending`, `ok`, `failed`);
- the level of theory and the electronic-structure software;
- optional file names and payloads;
- a `compressed` flag;
- a checksum that is unique across the table.

This project models three things:

- **The table** (`qc_file_model.dfy`, module `QCFileModel`). A row is a datatype with NULL written as `None`. The table is the class `QCFileTable`, holding its rows and the structural state the migrations change:
  - whether the enum types exist;
  - whether `calc_type`/`status` use them;
  - the checksum unique constraint;
  - the owner one-of check;
  - the named indexes.

  Every insert is checked the way the database engine checks it: column types and widths, then NOT NULL, then the check constraint, then the unique constraint. A VARCHAR(n) value longer than n characters is accepted only when the excess is all spaces, and it is stored cut to n characters. A rejected statement leaves the table unchanged. Deleting an owner sets the owner key to NULL in the rows that referenced it (`ondelete="SET NULL"`).
- **Revision b1e5f4c2a9d3** (`backfill_prep.dfy`, module `BackfillPrep`).
  - The upgrade retypes the two columns as enums, adds the two constraints, creates five non-unique indexes in a loop, and backfills one row per species and calculation type from the legacy `<calc>_ess_id`/`<calc>_level_id` columns of the species table. Each backfilled row gets the placeholder checksum `md5(id || ':' || calc)`.
  - The downgrade removes the structure and keeps every row.

  Both the specification (functions over rows and schema) and the in-place loops (methods on `QCFileTable`) are modelled. The methods are proved against the functions.
- **The pydantic schemas**:
  - `schema_validation.dfy` (module `Validation`) holds how a model turns keyword arguments into an instance. It covers required and optional fields, `mode="before"` validators, `ensure_list`/`ensure_dict`, and `extra="forbid"` versus the default `extra="ignore"`.
  - `reaction_schemas.dfy`, `vdw_schemas.dfy` and `qc_file_schemas.dfy` declare the concrete schemas and prove what they accept.

`wrappers.dfy` holds `Option` and `Result`.

The md5 digest is a parameter `md5: string -> Digest`, where a `Digest` is a string of 32 characters (PostgreSQL's `md5()` returns 32 hexadecimal digits). Nothing else is assumed about it. Where a property needs md5 not to collide, the lemma takes that as a hypothesis (`KeyHashInjective`). The key fed to md5 is proved injective in (species id, calculation type).

### What the table does and does not enforce

- There are three owner kinds: species, transition state and non-physical species. No VDW-entry owner key exists (`tckdb/backend/app/models/qc_file.py:28-36`, `:52-57`).
- No uniqueness rule per (owner, calc_type) exists. The five indexes of the migration are `unique=False`. Two rows for the same species and calculation type are accepted by the table; only the backfill avoids creating them.
- There is no ownership resolver, and no reject or supersede policy. Errors are the engine's constraint violations.
- The schema layer takes `calc_type` and `status` as plain strings (`tckdb/backend/app/schemas/qc_file.py:9-10`). It also accepts any number of owners. The table refuses both kinds of mistake at insert time.
- The placeholder checksum of the backfill is an md5 digest of a key string, not a digest of file bytes.

## Model

| member | source | states |
|---|---|---|
| QCFileModel.ParseCalcType | tckdb/backend/app/models/qc_file.py:17 | a string is accepted as a `calc_type_enum` value exactly when it is one of the five labels, and parsing returns the value with that label |
| QCFileModel.ParseStatus | tckdb/backend/app/models/qc_file.py:18 | a string is accepted as a `status_enum` value exactly when it is one of the three labels |
| QCFileModel.RowError | tckdb/backend/app/models/qc_file.py:38-57 | a row is free of errors iff its NOT NULL columns are set, its values fit the column types, every VARCHAR value is within its width or exceeds it only by spaces, and (under the check) exactly one owner is set; zero owners or two or more are always rejected under the check |
| QCFileModel.TryInsert | tckdb/backend/app/models/qc_file.py:48-57 | an insert succeeds iff the row is admissible and, under the unique constraint, its stored checksum is new. On success the row is appended as stored, its VARCHAR values cut to width. A duplicate checksum fails with `uq_qcfile_checksum`. A consistent table stays consistent |
| QCFileModel.Cut | tckdb/backend/app/models/qc_file.py:43-48 | a VARCHAR(n) column stores a prefix of the value of at most n characters, and a value within the width unchanged |
| QCFileModel.Stored | tckdb/backend/app/models/qc_file.py:38-48 | the stored row has every VARCHAR value within its width, equals the given row when that was already so, and differs from it in no other column |
| QCFileModel.StoredAdmissible | tckdb/backend/app/models/qc_file.py:38-48 | an admissible row stays admissible once stored, and only trailing spaces are cut from it |
| QCFileModel.TrailingSpaceCut | tckdb/backend/app/models/qc_file.py:48 | a checksum of 64 characters plus one space is accepted exactly when the 64 characters are, and is stored without the space |
| QCFileModel.WithDefaults | tckdb/backend/app/models/qc_file.py:47 | `compressed` becomes true when not given; every other column is left as given |
| QCFileModel.DeleteOwnerStatement | tckdb/backend/app/models/qc_file.py:28-57 | a successful SET NULL statement keeps every row, leaves none referencing the deleted owner, leaves non-referencing rows unchanged and every row admissible; otherwise it fails with `qc_owner_oneof_chk` |
| QCFileModel.SetNull | tckdb/backend/app/models/qc_file.py:28-36 | deleting an owner clears that owner key in exactly the rows that referenced it; every other row is unchanged |
| QCFileModel.OwnerDeleteRestricted | tckdb/backend/app/models/qc_file.py:28-57 | under the one-of check, deleting an owner succeeds iff no row references it, and then changes no row: SET NULL would leave a referencing row with no owner |
| QCFileModel.OwnerDeleteUnchecked | tckdb/backend/app/models/qc_file.py:28-36 | without the check, deleting an owner always succeeds, nulls the referencing keys and keeps the table consistent |
| QCFileModel.LabelsFitStringTag | alembic/versions/b1e5f4c2a9d3_qcfile_backfill_prep.py:44-56 | every enum label fits the legacy `String(20)` columns |
| QCFileModel.QCFileTable.InsertRow | tckdb/backend/app/models/qc_file.py:48-57 | an insert succeeds iff the engine check accepts it; the rows become old rows plus the stored row, which is returned, and a rejected insert leaves the rows unchanged |
| QCFileModel.QCFileTable.Add | tckdb/backend/app/models/qc_file.py:47-48 | an ORM add applies the `compressed` default before the engine check and appends the stored row; a failure leaves the rows unchanged |
| QCFileModel.QCFileTable.DeleteOwner | tckdb/backend/app/models/qc_file.py:28-36 | the new rows are those of the SET NULL statement, or unchanged together with its error |
| BackfillPrep.CalcTypesCoverDomain | alembic/versions/b1e5f4c2a9d3_qcfile_backfill_prep.py:30-33 | `CALC_TYPES` lists each of the five enum values exactly once, and each label parses back to its value |
| BackfillPrep.CalcNameInjective | alembic/versions/b1e5f4c2a9d3_qcfile_backfill_prep.py:33 | distinct calculation types have distinct labels |
| BackfillPrep.IntText | alembic/versions/b1e5f4c2a9d3_qcfile_backfill_prep.py:90 | `id::text` is non-empty, all digits for a non-negative id and a `-` followed by digits for a negative one |
| BackfillPrep.IntTextRoundTrip | alembic/versions/b1e5f4c2a9d3_qcfile_backfill_prep.py:90 | `id::text` read back as an integer gives the id, negative ids included |
| BackfillPrep.IntTextHasNoColon | alembic/versions/b1e5f4c2a9d3_qcfile_backfill_prep.py:90 | the text of an integer contains no `:` |
| BackfillPrep.ChecksumKeyRoundTrip | alembic/versions/b1e5f4c2a9d3_qcfile_backfill_prep.py:90 | the key `id || ':' || calc` parses back to (id, calc) |
| BackfillPrep.ChecksumKeyInjective | alembic/versions/b1e5f4c2a9d3_qcfile_backfill_prep.py:81-90 | two keys are equal only for the same species id and calculation type |
| BackfillPrep.InsertAll | alembic/versions/b1e5f4c2a9d3_qcfile_backfill_prep.py:87-95 | a successful INSERT ... SELECT appends the stored form of its rows in order and keeps the table consistent |
| BackfillPrep.RunBackfill | alembic/versions/b1e5f4c2a9d3_qcfile_backfill_prep.py:82-95 | a successful run only adds rows after the existing ones and keeps the table consistent |
| BackfillPrep.BackfillRow | alembic/versions/b1e5f4c2a9d3_qcfile_backfill_prep.py:88-90 | the row inserted for species `s` has `species_id = s.id` and no other owner key, so it satisfies the one-of check |
| BackfillPrep.Backfill | alembic/versions/b1e5f4c2a9d3_qcfile_backfill_prep.py:80-95 | a successful backfill keeps every existing row in place at the front and leaves a consistent table consistent |
| BackfillPrep.BackfillRowStored | alembic/versions/b1e5f4c2a9d3_qcfile_backfill_prep.py:88-90 | a backfilled row is stored exactly as the SELECT list produces it, because its label and its 32-character digest fit their columns |
| BackfillPrep.CandidatesStored | alembic/versions/b1e5f4c2a9d3_qcfile_backfill_prep.py:87-93 | the rows of one INSERT ... SELECT are stored unchanged |
| BackfillPrep.BackfillRowAdmissible | alembic/versions/b1e5f4c2a9d3_qcfile_backfill_prep.py:64-70 | a backfilled row passes every row constraint, the owner one-of check included |
| BackfillPrep.CandidatesMembers | alembic/versions/b1e5f4c2a9d3_qcfile_backfill_prep.py:91-93 | one statement's rows are exactly the backfill rows of the species with both legacy columns set and no existing row for that pair |
| BackfillPrep.PlannedMembers | alembic/versions/b1e5f4c2a9d3_qcfile_backfill_prep.py:82-93 | the planned rows are exactly the backfill rows of the selected (species, calc) pairs |
| BackfillPrep.RunBackfillAppendsPlanned | alembic/versions/b1e5f4c2a9d3_qcfile_backfill_prep.py:82-95 | a successful run leaves the old rows followed by the planned rows: inserts of one calculation type do not change which species the later types select |
| BackfillPrep.BackfillInsertsExactlySelected | alembic/versions/b1e5f4c2a9d3_qcfile_backfill_prep.py:87-94 | after a successful backfill, the old rows are unchanged at the front. A row for (s, c) was added iff `s.<c>_ess_id` and `s.<c>_level_id` are set and no row had `species_id = s.id` and `calc_type = c` |
| BackfillPrep.BackfilledRowsShape | alembic/versions/b1e5f4c2a9d3_qcfile_backfill_prep.py:88-90 | every added row has `species_id = s.id`, the calc label, the legacy ess and level ids, `status = 'ok'`, `compressed = TRUE` and the md5 placeholder checksum. It has exactly one owner, and its calc_type is in the enum domain |
| BackfillPrep.RunBackfillNothingSelected | alembic/versions/b1e5f4c2a9d3_qcfile_backfill_prep.py:93 | when no pair is selected, the run inserts nothing |
| BackfillPrep.BackfillIdempotent | alembic/versions/b1e5f4c2a9d3_qcfile_backfill_prep.py:93 | a second backfill over the result of a first adds no row, so the end state equals a single run |
| BackfillPrep.PlannedPairsDistinct | alembic/versions/b1e5f4c2a9d3_qcfile_backfill_prep.py:82-93 | with distinct species ids, no two backfilled rows share a (species, calc_type) pair |
| BackfillPrep.PlannedChecksumsDistinct | alembic/versions/b1e5f4c2a9d3_qcfile_backfill_prep.py:90 | with distinct species ids and an md5 that does not collide on keys, the planned rows have pairwise distinct checksums |
| BackfillPrep.BackfilledChecksumsDistinct | alembic/versions/b1e5f4c2a9d3_qcfile_backfill_prep.py:81-90 | under the same hypotheses, the rows a successful backfill added never collide with each other on checksum |
| BackfillPrep.InsertAllSucceeds | alembic/versions/b1e5f4c2a9d3_qcfile_backfill_prep.py:87-95 | an INSERT ... SELECT of admissible rows whose stored checksums are all new succeeds |
| BackfillPrep.RunBackfillSucceeds | alembic/versions/b1e5f4c2a9d3_qcfile_backfill_prep.py:82-95 | the statements for a list of calculation types all succeed when the planned rows are admissible and their checksums are new |
| BackfillPrep.BackfillSucceeds | alembic/versions/b1e5f4c2a9d3_qcfile_backfill_prep.py:59-95 | on a consistent table, the backfill succeeds when species ids are distinct, md5 does not collide, and no existing row holds a placeholder the backfill needs |
| BackfillPrep.CreateIndexes | alembic/versions/b1e5f4c2a9d3_qcfile_backfill_prep.py:71-78 | creating the named indexes succeeds iff the names are distinct and none exists yet, and adds exactly those names |
| BackfillPrep.DropIndexes | alembic/versions/b1e5f4c2a9d3_qcfile_backfill_prep.py:100-107 | dropping succeeds iff the names are distinct and all exist, and removes exactly those names; a failure is an undefined object |
| BackfillPrep.AlterColumnsAsWritten | alembic/versions/b1e5f4c2a9d3_qcfile_backfill_prep.py:44-56 | as written (no `postgresql_using`), retyping succeeds iff the columns already have the enum types; a VARCHAR column is refused with a datatype mismatch whatever it holds |
| BackfillPrep.AlterColumns | alembic/versions/b1e5f4c2a9d3_qcfile_backfill_prep.py:44-56 | with the explicit cast, retyping succeeds iff every stored `calc_type` and `status` is a label of its enum, and then only the column typing changes; otherwise it fails with an invalid enum value |
| BackfillPrep.AddConstraints | alembic/versions/b1e5f4c2a9d3_qcfile_backfill_prep.py:58-78 | adding the unique constraint, the check and the five indexes succeeds iff neither constraint exists, the checksums are distinct, every row has exactly one owner and no index name exists; it adds exactly those |
| BackfillPrep.UpgradeStructureAsWritten | alembic/versions/b1e5f4c2a9d3_qcfile_backfill_prep.py:36-78 | as written, the structural upgrade of a table with VARCHAR columns fails at the first `alter_column` |
| BackfillPrep.UpgradeAsWrittenRefused | alembic/versions/b1e5f4c2a9d3_qcfile_backfill_prep.py:36-78 | on any table at the previous revision the as-written upgrade fails, while the upgrade with the cast succeeds iff the labels are enum values, the checksums are distinct and every row has one owner |
| BackfillPrep.UpgradeStructure | alembic/versions/b1e5f4c2a9d3_qcfile_backfill_prep.py:36-78 | the structural upgrade (with the cast) succeeds iff every label is in its enum, the checksums are distinct, every row has one owner and none of the constraints and indexes exists; then the enum types, enum columns, both constraints and the five indexes are in place, and a consistent table stays consistent |
| BackfillPrep.Upgrade | alembic/versions/b1e5f4c2a9d3_qcfile_backfill_prep.py:36-95 | the upgrade fails with the structural error when the structural steps fail; when it succeeds, its schema is theirs, the old rows stay at the front, and a consistent table stays consistent under the new schema |
| BackfillPrep.Downgrade | alembic/versions/b1e5f4c2a9d3_qcfile_backfill_prep.py:98-125 | the downgrade succeeds iff the five indexes and both constraints exist, and fails otherwise with an undefined object. It reverts the columns to strings, drops both constraints, removes exactly the five indexes, and leaves the enum types in place |
| BackfillPrep.RelaxKeepsConsistent | alembic/versions/b1e5f4c2a9d3_qcfile_backfill_prep.py:109-125 | dropping constraints and reverting the columns to strings keeps every existing row valid |
| BackfillPrep.DowngradeUndoesUpgrade | alembic/versions/b1e5f4c2a9d3_qcfile_backfill_prep.py:98-125 | after a successful upgrade from the prior revision, the downgrade restores the prior structure except for the enum types. It keeps every row, old and backfilled, and the rows stay consistent |
| BackfillPrep.InsertSelect | alembic/versions/b1e5f4c2a9d3_qcfile_backfill_prep.py:87-95 | the loop over species performs exactly the INSERT ... SELECT for one calculation type; on failure the table is unchanged |
| BackfillPrep.InsertSelectStep | alembic/versions/b1e5f4c2a9d3_qcfile_backfill_prep.py:91-93 | one species step of the statement extends its result by that species' row when it is selected |
| BackfillPrep.BackfillTable | alembic/versions/b1e5f4c2a9d3_qcfile_backfill_prep.py:82-95 | the loop over `CALC_TYPES` yields the backfill's rows, or its error with the rows unchanged |
| BackfillPrep.CreateMigrationIndexes | alembic/versions/b1e5f4c2a9d3_qcfile_backfill_prep.py:71-78 | the index loop creates exactly the five indexes, or fails with the schema unchanged |
| BackfillPrep.UpgradeTable | alembic/versions/b1e5f4c2a9d3_qcfile_backfill_prep.py:36-95 | `upgrade()` yields the new schema and rows of the upgrade, or its error with schema and rows as before (one transaction) |
| BackfillPrep.DowngradeTable | alembic/versions/b1e5f4c2a9d3_qcfile_backfill_prep.py:98-125 | `downgrade()` changes only the structure: the rows are unchanged whether it succeeds or fails |
| Validation.ListOf | tckdb/backend/app/schemas/reaction.py:41 | `list(value)`: a string gives its characters, a dict its keys and bytes their integer values, in order; an int, bool, float or None is not iterable |
| Validation.EnsureList | tckdb/backend/app/schemas/reaction.py:36-41 | `ensure_list` maps None to `[]`, keeps a list's elements, and turns a string into its characters, a dict into its keys and bytes into their integer values, in order; it raises exactly for a non-iterable value |
| Validation.EnsureListIdempotent | tckdb/backend/app/schemas/reaction.py:41 | applying `ensure_list` to its own result changes nothing |
| Validation.FalsyValues | tckdb/backend/app/schemas/reaction.py:47 | Python truthiness: None, 0, False and empty strings, bytes, lists and dicts are falsy; a list or dict is truthy iff non-empty |
| Validation.EnsureDict | tckdb/backend/app/schemas/reaction.py:43-47 | `ensure_dict` returns a truthy value unchanged and maps a falsy value (None, `{}`) to `{}`; the result is never None |
| Validation.EnsureDictIdempotent | tckdb/backend/app/schemas/reaction.py:47 | applying `ensure_dict` twice is the same as once |
| Validation.FieldOutcomes | tckdb/backend/app/schemas/reaction.py:11-23 | one field: left out, it takes its default or is reported missing, without its validator running; an accepted supplied value is None on an optional field or of the field's type; without a validator it never raises, and it is accepted iff the supplied value is None on an optional field or of the type, keeping that value |
| Validation.ValidateFields | tckdb/backend/app/schemas/reaction.py:11-41 | field validation is aborted iff some validator raised, and then by the first field (in declaration order) whose validator raised |
| Validation.CollectedIssues | tckdb/backend/app/schemas/reaction.py:11-23 | the collected issues are exactly the rejections of individual fields; none iff every field was accepted |
| Validation.CollectedValues | tckdb/backend/app/schemas/reaction.py:11-23 | the collected values are keyed by declared names and each holds what its field's validation produced |
| Validation.ExtraIssues | tckdb/backend/app/schemas/reaction.py:26 | under `extra="forbid"` each unknown keyword is reported, and under `ignore` none is |
| Validation.Validate | tckdb/backend/app/schemas/reaction.py:8-26 | construction yields an instance iff every field is accepted and, under forbid, every keyword is declared; a validation error lists exactly the field rejections and forbidden extras |
| Validation.InstanceValue | tckdb/backend/app/schemas/reaction.py:11-23 | every declared field is present in an instance with the value its validation accepted |
| Validation.SuppliedValue | tckdb/backend/app/schemas/reaction.py:28-41 | a supplied field holds what its before-validator returned |
| Validation.AbsentValue | tckdb/backend/app/schemas/reaction.py:13-23 | a field left out holds its default, and its validator did not run |
| Validation.AbsentFieldsNone | tckdb/backend/app/schemas/reaction.py:13-23 | optional fields left out are all None |
| Validation.MissingRequiredRejected | tckdb/backend/app/schemas/reaction.py:11-12 | leaving out a required field prevents an instance, and the error names it as missing |
| Validation.UnknownNameRejected | tckdb/backend/app/schemas/reaction.py:26 | under forbid, an unknown keyword prevents an instance, and the error names it |
| Validation.UnknownNamesIgnored | tckdb/backend/app/schemas/qc_file.py:8-16 | under the default `ignore`, the outcome equals that of the declared keywords alone |
| Validation.SameFieldOutcomes | tckdb/backend/app/schemas/reaction.py:11-23 | field validation depends only on each field's own outcome |
| Validation.EnsureListFieldValue | tckdb/backend/app/schemas/reaction.py:28-41 | an optional list field with `ensure_list` holds `ensure_list` of the supplied value (the list itself, `[]` for None), and None when left out |
| Validation.EnsureDictFieldValue | tckdb/backend/app/schemas/reaction.py:43-47 | a supplied dict field with `ensure_dict` holds the supplied value when truthy and `{}` otherwise |
| Validation.FirstRaiseEscapes | tckdb/backend/app/schemas/reaction.py:36-41 | a TypeError from `list(value)` escapes construction when no earlier field has a validator |
| Validation.OnlyIssue | tckdb/backend/app/schemas/reaction.py:8-26 | when one field is rejected and everything else is fine, the error holds exactly that one issue |
| Validation.PlainFieldValue | tckdb/backend/app/schemas/qc_file.py:9-16 | a field without a validator holds the supplied value, which conforms to its type, or its default when left out |
| Validation.NoHookNoRaise | tckdb/backend/app/schemas/qc_file.py:8-24 | a model without validators never raises: it yields an instance or a validation error |
| ReactionSchemas.ReactionBaseNamesAre | tckdb/backend/app/schemas/reaction.py:11-23 | `ReactionBase` declares exactly its nine field names |
| ReactionSchemas.ReactantsAndProductsAccepted | tckdb/backend/app/tests/schemas/test_reaction.py:8-13 | charge, multiplicity and reactant and product ids build a `ReactionBase` |
| ReactionSchemas.ListFieldValue | tckdb/backend/app/schemas/reaction.py:28-41 | each of the five list fields holds `ensure_list` of the supplied value (the list itself, `[]` for None), and None when left out |
| ReactionSchemas.ReactantIdsKept | tckdb/backend/app/tests/schemas/test_reaction.py:14 | `reactant_species_ids=[1]` comes back as `[1]` |
| ReactionSchemas.ProductIdsKept | tckdb/backend/app/tests/schemas/test_reaction.py:15 | `product_species_ids=[2]` comes back as `[2]` |
| ReactionSchemas.StringLabelsSplit | tckdb/backend/app/schemas/reaction.py:36-41 | a string given for `labels` is stored as the list of its one-character strings, in order |
| ReactionSchemas.LabelsLeftNone | tckdb/backend/app/schemas/reaction.py:14 | `labels` left out is None, not `[]` |
| ReactionSchemas.ChargeAndMultiplicitySuffice | tckdb/backend/app/tests/schemas/test_reaction.py:17 | `formal_charge` and `multiplicity` alone build a `ReactionBase`, with every optional field None |
| ReactionSchemas.ReactionBaseRequired | tckdb/backend/app/schemas/reaction.py:11-12 | every `ReactionBase` was given integer `formal_charge` and `multiplicity` |
| ReactionSchemas.ReactionBaseRejectsUnknown | tckdb/backend/app/schemas/reaction.py:26 | any undeclared keyword prevents a `ReactionBase`, and the error names it |
| ReactionSchemas.NonIterableLabelsRaise | tckdb/backend/app/schemas/reaction.py:36-41 | a non-iterable `labels` makes construction raise TypeError rather than a validation error |
| ReactionSchemas.ReviewerFlagsValue | tckdb/backend/app/schemas/reaction.py:43-47 | a supplied `reviewer_flags` is kept when truthy and is `{}` otherwise |
| ReactionSchemas.IdOnlyInStoredForm | tckdb/backend/app/schemas/reaction.py:62-66 | the stored form needs an integer `id`, which `ReactionBase` refuses |
| ReactionSchemas.ReactionEntryBaseAccepts | tckdb/backend/app/schemas/reaction.py:81-86 | a reaction entry is built iff `reaction_id` is an integer, `kinetics` is left out, None or a dict, and no other keyword is given |
| ReactionSchemas.ReactionEntryBaseNeedsReaction | tckdb/backend/app/schemas/reaction.py:81-86 | a reaction entry needs an integer `reaction_id`; `kinetics` left out is None |
| ReactionSchemas.ReactionEntryBaseRejectsUnknown | tckdb/backend/app/schemas/reaction.py:86 | a reaction entry refuses any keyword other than `reaction_id` and `kinetics` |
| VDWSchemas.VDWBaseNamesAre | tckdb/backend/app/schemas/VDW.py:11-23 | `VDWBase` declares exactly its nine field names |
| VDWSchemas.TwoFragmentWellAccepted | tckdb/backend/app/tests/schemas/test_VDW.py:11-17 | the two-fragment well of the schema test builds a `VDWBase` |
| VDWSchemas.VDWBaseRequired | tckdb/backend/app/schemas/VDW.py:11-16 | every `VDWBase` was given a string `inchi_augmented`, `constituents`, and integer `charge` and `multiplicity` |
| VDWSchemas.ConstituentsValue | tckdb/backend/app/schemas/VDW.py:26-32 | a supplied None `constituents` becomes `[]`, and a supplied list is kept |
| VDWSchemas.OptionalListValue | tckdb/backend/app/schemas/VDW.py:26-32 | `labels` and `fragment_orientation` hold the supplied list, `[]` for None, and None when left out |
| VDWSchemas.VDWReviewerFlagsValue | tckdb/backend/app/schemas/VDW.py:34-38 | a supplied `reviewer_flags` is kept when truthy and is `{}` otherwise |
| VDWSchemas.TwoFragmentWellValues | tckdb/backend/app/tests/schemas/test_VDW.py:18 | `constituents=[1, 2]` comes back as `[1, 2]` |
| VDWSchemas.ChargeAndMultiplicityValue | tckdb/backend/app/schemas/VDW.py:15-16 | every `VDWBase` holds the integer `charge` and `multiplicity` it was given |
| VDWSchemas.TwoFragmentWellNumbers | tckdb/backend/app/tests/schemas/test_VDW.py:19-20 | the two-fragment well comes back with `charge` 0 and `multiplicity` 1 |
| VDWSchemas.MissingConstituentsRejected | tckdb/backend/app/tests/schemas/test_VDW.py:22-27 | leaving out `constituents` gives a validation error whose only issue is the missing `constituents` |
| VDWSchemas.VDWBaseRejectsUnknown | tckdb/backend/app/schemas/VDW.py:24 | any undeclared keyword prevents a `VDWBase`, and the error names it |
| VDWSchemas.VDWIdOnlyInStoredForm | tckdb/backend/app/schemas/VDW.py:53-57 | the stored form needs an integer `id`, which `VDWBase` refuses |
| VDWSchemas.VDWEntryBaseAccepts | tckdb/backend/app/schemas/VDW.py:72-78 | a VDW entry is built iff `vdw_id` is an integer, `xyz` is left out, None or a dict, `energy` is left out, None or a float, and no other keyword is given |
| VDWSchemas.VDWEntryBaseNeedsWell | tckdb/backend/app/schemas/VDW.py:72-78 | a VDW entry needs an integer `vdw_id`; `xyz` and `energy` left out are None |
| VDWSchemas.VDWEntryBaseRejectsUnknown | tckdb/backend/app/schemas/VDW.py:78 | a VDW entry refuses any keyword other than `vdw_id`, `xyz` and `energy` |
| QCFileSchemas.RowOfCreate | tckdb/backend/app/schemas/qc_file.py:8-24 | the row written for a validated create record, field by field (an assumed mapping: the service code that performs the insert is not part of this model); an owner column is set exactly when the record holds an integer under that name |
| QCFileSchemas.CreateFieldValue | tckdb/backend/app/schemas/qc_file.py:8-24 | each field of a create record holds the supplied value, which conforms to its type, or its default when left out |
| QCFileSchemas.CreateRequiredColumns | tckdb/backend/app/schemas/qc_file.py:9-16 | a create record was given string `calc_type`, `status` and `checksum` and integer `level_id` and `ess_id`, and these reach their NOT NULL columns unchanged |
| QCFileSchemas.CreateCompressedColumn | tckdb/backend/app/schemas/qc_file.py:15 | `compressed` is true when left out and the supplied boolean otherwise |
| QCFileSchemas.CreateOwnerColumns | tckdb/backend/app/schemas/qc_file.py:20-22 | an owner column is set exactly when that owner id was given, so the row's owner count is the number of owners given |
| QCFileSchemas.CreateNameColumns | tckdb/backend/app/schemas/qc_file.py:13-14 | a file name column is set iff a string was supplied for it, and then holds that string; left out or None, it is NULL |
| QCFileSchemas.CreateFileColumns | tckdb/backend/app/schemas/qc_file.py:23-24 | a payload column holds the supplied bytes, and is NULL when left out or None |
| QCFileSchemas.CreateRowAdmissible | tckdb/backend/app/schemas/qc_file.py:19-24 | a validated create record never breaks NOT NULL. The table accepts its row iff both labels are enum values, each text is within its width or exceeds it only by spaces, and exactly one owner is given |
| QCFileSchemas.UnknownCalcTypeRefused | tckdb/backend/app/schemas/qc_file.py:9 | a create record with an unknown `calc_type` label passes the schema and is refused by the enum column |
| QCFileSchemas.OwnerlessCreateRefused | tckdb/backend/app/schemas/qc_file.py:20-22 | a create record with no owner passes the schema and, when its labels are enum values and its texts fit their columns, is refused by `qc_owner_oneof_chk` |
| QCFileSchemas.OwnerlessRowRefused | tckdb/backend/app/models/qc_file.py:52-57 | a row whose columns fit but which has no owner is refused by the check constraint |
| QCFileSchemas.OwnerlessCreateAcceptedThenRefused | tckdb/backend/app/schemas/qc_file.py:19-24 | a concrete ownerless create record is accepted by the schema and refused by the table |
| QCFileSchemas.ExplicitNoneCompressedRejected | tckdb/backend/app/schemas/qc_file.py:15 | `compressed=None` is a validation error: the field has a default but does not accept None |
| QCFileSchemas.CreateIgnoresUnknownNames | tckdb/backend/app/schemas/qc_file.py:19-24 | unknown keywords do not change the outcome of `QCFileCreate` |
| QCFileSchemas.ReadNeedsId | tckdb/backend/app/schemas/qc_file.py:27-30 | the response schema needs an integer `id` |

## Findings

| source | as written | input that shows it | evidently intended | confidence | as-written member | corrected member |
|---|---|---|---|---|---|---|
| alembic/versions/b1e5f4c2a9d3_qcfile_backfill_prep.py:44-56 | `alter_column("calc_type", existing_type=String(20), type_=calc_type_enum)` (and the same for `status`) without `postgresql_using`; PostgreSQL has no implicit cast from VARCHAR to an enum, so `ALTER COLUMN ... TYPE calc_type_enum` fails with "column cannot be cast automatically" | any table at the previous revision, where `calc_type` and `status` are VARCHAR(20) — even an empty one | the columns retyped with `postgresql_using="calc_type::calc_type_enum"` and `"status::status_enum"`, failing only on a stored label outside the enum | high, not executed (rests on PostgreSQL's cast rules) | BackfillPrep.UpgradeAsWrittenRefused | BackfillPrep.UpgradeStructure |

## Left out

- `tckdb/backend/app/utils/qcfile_utils.py` (gzip compression and hashing of payloads) is not part of this model. Nothing in the table or the migration calls it, and its properties could only be assumed, not proved.
- md5 is a parameter. Of the real digest only its length of 32 characters is used, and where freedom from collisions matters it is a hypothesis of the lemma.
- The `id` primary key, the `AuditMixin` timestamps (`created_at`, `updated_at`, `now()`) and relationships are not modelled. A row is identified by its position in the table.
- Foreign-key existence of `level_id`, `ess_id` and the owner keys in their parent tables is not modelled, since those tables are outside the core. Deleting an owner is modelled only through its SET NULL effect on `qc_file`.
- BackfillPrep.UpgradeStructure: the column typing is modelled with the explicit cast `USING calc_type::calc_type_enum` (and the same for `status`), which the revision does not pass; as written, PostgreSQL refuses the alteration of every VARCHAR column (see Findings and `UpgradeStructureAsWritten`). The rest of the upgrade and the backfill are modelled on top of the corrected alteration, since as written nothing after it can run.
- BackfillPrep.UpgradeTable: the step-by-step upgrade uses the same corrected alteration as `UpgradeStructure`. Batch-mode table copies are not modelled: on PostgreSQL the batch context emits plain `ALTER TABLE` statements.
- BackfillPrep.Candidates: the species table is a sequence, and each `INSERT ... SELECT` inserts its rows in that order. The statement has no `ORDER BY`, so the engine may insert them in another order; the set of rows inserted, and the success or failure of the statement, do not depend on it, but the positions of the new rows in the model do.
- `calc_type_enum.create(checkfirst=True)` is modelled as a flag that becomes true. The downgrade keeps the types, as the commented-out drops leave them.
- Validation.Conforms: pydantic's lax coercions (`"1"` to `1`, `1` to `True`, bytes to str and the like) are not modelled. A value conforms only when it already has the declared type.
- Validation.Value: floats are opaque bit patterns, and `molecular_weight` and `energy` are never computed with.
- `model_config = ConfigDict(from_attributes=True)` (building a schema from an ORM object) is not modelled. The stored schemas are modelled only as validators of keyword arguments.
- `ReactionCreate`, `ReactionUpdate`, `Reaction`, `ReactionInDB`, the VDW counterparts and the entry counterparts add nothing to their bases. They validate as the bases or as the `InDB` forms modelled here.
- `models/reaction.py`, `models/VDW.py` and `models/transition_state.py` are not part of this model: declarative columns and relationships with no behaviour of their own.
- Concurrency, locking and transaction isolation are left to the database engine. Each statement and the whole migration are modelled as atomic.
