/**
 * The `qc_file` table that stores quantum-chemistry calculation files.
 *
 * A row is a record of column values, NULL written as `None`. The table holds
 * its rows together with the structural state that the migrations change: the
 * two enumerated types, whether `calc_type`/`status` use them, the checksum
 * unique constraint, the owner one-of check constraint and the named indexes.
 * Every insert is checked against that state the way the database engine
 * checks it (VARCHAR values cut to width when the excess is spaces); a
 * rejected statement leaves the table as it was.
 */
module QCFileModel {
  import opened Wrappers

  type Bytes = seq<bv8>

  /** The `calc_type_enum` domain. */
  datatype CalcType = Opt | Freq | Scan | Irc | Sp

  /** The `status_enum` domain. */
  datatype Status = StatusPending | StatusOk | StatusFailed

  function CalcName(c: CalcType): string
  {
    match c
    case Opt => "opt"
    case Freq => "freq"
    case Scan => "scan"
    case Irc => "irc"
    case Sp => "sp"
  }

  function StatusName(s: Status): string
  {
    match s
    case StatusPending => "pending"
    case StatusOk => "ok"
    case StatusFailed => "failed"
  }

  /** The enum type's input conversion: a label of the domain or nothing. */
  function ParseCalcType(s: string): (c: Option<CalcType>)
    ensures c.Some? ==> CalcName(c.value) == s
    ensures c.None? ==> forall t :: CalcName(t) != s
  {
    if s == "opt" then Some(Opt)
    else if s == "freq" then Some(Freq)
    else if s == "scan" then Some(Scan)
    else if s == "irc" then Some(Irc)
    else if s == "sp" then Some(Sp)
    else None
  }

  function ParseStatus(s: string): (t: Option<Status>)
    ensures t.Some? ==> StatusName(t.value) == s
    ensures t.None? ==> forall u :: StatusName(u) != s
  {
    if s == "pending" then Some(StatusPending)
    else if s == "ok" then Some(StatusOk)
    else if s == "failed" then Some(StatusFailed)
    else None
  }

  /** Widths of the VARCHAR columns. */
  const ChecksumWidth: nat := 64
  const NameWidth: nat := 255
  /** Width of `calc_type`/`status` while they are plain strings. */
  const StringTagWidth: nat := 20

  const ChecksumUniqueName: string := "uq_qcfile_checksum"
  const OwnerCheckName: string := "qc_owner_oneof_chk"

  /** One row of `qc_file` (the surrogate `id` and the audit timestamps are not modelled). */
  datatype QCFileRow = QCFileRow(
    speciesId: Option<int>,
    transitionStateId: Option<int>,
    npSpeciesId: Option<int>,
    calcType: Option<string>,
    status: Option<string>,
    levelId: Option<int>,
    essId: Option<int>,
    inputName: Option<string>,
    outputName: Option<string>,
    inputFile: Option<Bytes>,
    outputFile: Option<Bytes>,
    compressed: Option<bool>,
    checksum: Option<string>)

  /** The three owner foreign keys. */
  datatype OwnerKind = SpeciesOwner | TransitionStateOwner | NpSpeciesOwner

  function OwnerKey(r: QCFileRow, k: OwnerKind): Option<int>
  {
    match k
    case SpeciesOwner => r.speciesId
    case TransitionStateOwner => r.transitionStateId
    case NpSpeciesOwner => r.npSpeciesId
  }

  /** The row with owner key `k` set to NULL. */
  function ClearOwner(r: QCFileRow, k: OwnerKind): QCFileRow
  {
    match k
    case SpeciesOwner => r.(speciesId := None)
    case TransitionStateOwner => r.(transitionStateId := None)
    case NpSpeciesOwner => r.(npSpeciesId := None)
  }

  /** The left-hand side of `qc_owner_oneof_chk`: how many owner keys are not NULL. */
  function OwnerCount(r: QCFileRow): nat
  {
    (if r.speciesId.Some? then 1 else 0)
    + (if r.transitionStateId.Some? then 1 else 0)
    + (if r.npSpeciesId.Some? then 1 else 0)
  }

  /** Exactly one owner key is set. */
  predicate ExactlyOneOwner(r: QCFileRow)
  {
    || (r.speciesId.Some? && r.transitionStateId.None? && r.npSpeciesId.None?)
    || (r.speciesId.None? && r.transitionStateId.Some? && r.npSpeciesId.None?)
    || (r.speciesId.None? && r.transitionStateId.None? && r.npSpeciesId.Some?)
  }

  /** The structural state of the table that the migrations change. */
  datatype TableSchema = TableSchema(
    enumTypes: bool,       // calc_type_enum and status_enum exist
    enumColumns: bool,     // calc_type/status are typed by them (else VARCHAR(20))
    checksumUnique: bool,  // uq_qcfile_checksum
    ownerCheck: bool,      // qc_owner_oneof_chk
    indexes: set<string>)

  /** The indexes the ORM declaration creates through `index=True`. */
  const DeclaredIndexes: set<string> := {
    "ix_qc_file_id", "ix_qc_file_species_id", "ix_qc_file_transition_state_id",
    "ix_qc_file_np_species_id", "ix_qc_file_level_id", "ix_qc_file_ess_id"}

  /** The table as the ORM class declares it. */
  const Declared: TableSchema := TableSchema(true, true, true, true, DeclaredIndexes)

  /** The errors the database engine reports for statements on the table. */
  datatype DbError =
    | NotNullViolation(column: string)
    | StringTooLong(column: string)
    | InvalidEnumValue(column: string)
    | CheckViolation(constraint: string)
    | UniqueViolation(constraint: string)
    | DuplicateObject(name: string)
    | UndefinedObject(name: string)
    | DatatypeMismatch(column: string)  // ALTER ... TYPE with no cast the engine may apply unasked

  /**
   * The input rule of VARCHAR(n): a value longer than `n` is accepted only
   * when every character past the `n`-th is a space.
   */
  predicate FitsWidth(s: string, n: nat)
  {
    forall k :: n <= k < |s| ==> s[k] == ' '
  }

  /** What a VARCHAR(n) column stores for a supplied value: the value cut to `n` characters. */
  function Cut(v: Option<string>, n: nat): (w: Option<string>)
    ensures w.Some? <==> v.Some?
    ensures w.Some? ==> |w.value| <= n && w.value <= v.value
    ensures w.Some? && |v.value| <= n ==> w == v
  {
    if v.Some? && |v.value| > n then Some(v.value[..n]) else v
  }

  predicate CalcTypeFits(schema: TableSchema, s: string)
  {
    if schema.enumColumns then ParseCalcType(s).Some? else FitsWidth(s, StringTagWidth)
  }

  predicate StatusFits(schema: TableSchema, s: string)
  {
    if schema.enumColumns then ParseStatus(s).Some? else FitsWidth(s, StringTagWidth)
  }

  function TagError(schema: TableSchema, column: string): DbError
  {
    if schema.enumColumns then InvalidEnumValue(column) else StringTooLong(column)
  }

  /** Input conversion of each supplied value to its column's type. */
  function ColumnTypeError(schema: TableSchema, r: QCFileRow): Option<DbError>
  {
    if r.calcType.Some? && !CalcTypeFits(schema, r.calcType.value) then Some(TagError(schema, "calc_type"))
    else if r.status.Some? && !StatusFits(schema, r.status.value) then Some(TagError(schema, "status"))
    else if r.inputName.Some? && !FitsWidth(r.inputName.value, NameWidth) then Some(StringTooLong("input_name"))
    else if r.outputName.Some? && !FitsWidth(r.outputName.value, NameWidth) then Some(StringTooLong("output_name"))
    else if r.checksum.Some? && !FitsWidth(r.checksum.value, ChecksumWidth) then Some(StringTooLong("checksum"))
    else None
  }

  /** The NOT NULL columns, in declaration order. */
  function NotNullError(r: QCFileRow): Option<DbError>
  {
    if r.calcType.None? then Some(NotNullViolation("calc_type"))
    else if r.status.None? then Some(NotNullViolation("status"))
    else if r.levelId.None? then Some(NotNullViolation("level_id"))
    else if r.essId.None? then Some(NotNullViolation("ess_id"))
    else if r.compressed.None? then Some(NotNullViolation("compressed"))
    else if r.checksum.None? then Some(NotNullViolation("checksum"))
    else None
  }

  predicate NotNull(r: QCFileRow)
  {
    r.calcType.Some? && r.status.Some? && r.levelId.Some? && r.essId.Some?
    && r.compressed.Some? && r.checksum.Some?
  }

  /** Every supplied value fits its column's type under `schema`. */
  predicate FitsColumns(schema: TableSchema, r: QCFileRow)
  {
    && (r.calcType.Some? ==> CalcTypeFits(schema, r.calcType.value))
    && (r.status.Some? ==> StatusFits(schema, r.status.value))
    && (r.inputName.Some? ==> FitsWidth(r.inputName.value, NameWidth))
    && (r.outputName.Some? ==> FitsWidth(r.outputName.value, NameWidth))
    && (r.checksum.Some? ==> FitsWidth(r.checksum.value, ChecksumWidth))
  }

  /** Every VARCHAR value of `r` is within its column's width: what a stored row looks like. */
  predicate WithinWidths(schema: TableSchema, r: QCFileRow)
  {
    && (!schema.enumColumns && r.calcType.Some? ==> |r.calcType.value| <= StringTagWidth)
    && (!schema.enumColumns && r.status.Some? ==> |r.status.value| <= StringTagWidth)
    && (r.inputName.Some? ==> |r.inputName.value| <= NameWidth)
    && (r.outputName.Some? ==> |r.outputName.value| <= NameWidth)
    && (r.checksum.Some? ==> |r.checksum.value| <= ChecksumWidth)
  }

  /**
   * The row the engine stores for `r`: the assignment to each VARCHAR column
   * cuts the value to the column's width; nothing else changes.
   */
  function Stored(schema: TableSchema, r: QCFileRow): (s: QCFileRow)
    ensures WithinWidths(schema, s)
    ensures WithinWidths(schema, r) ==> s == r
    ensures s.(calcType := r.calcType, status := r.status, inputName := r.inputName,
               outputName := r.outputName, checksum := r.checksum) == r
  {
    r.(calcType := if schema.enumColumns then r.calcType else Cut(r.calcType, StringTagWidth),
       status := if schema.enumColumns then r.status else Cut(r.status, StringTagWidth),
       inputName := Cut(r.inputName, NameWidth),
       outputName := Cut(r.outputName, NameWidth),
       checksum := Cut(r.checksum, ChecksumWidth))
  }

  /**
   * The first constraint local to one row that `r` violates under `schema`:
   * type conversion, then NOT NULL, then the owner check.
   */
  function RowError(schema: TableSchema, r: QCFileRow): (e: Option<DbError>)
    ensures e.None? <==> NotNull(r) && FitsColumns(schema, r) && (schema.ownerCheck ==> ExactlyOneOwner(r))
    ensures schema.ownerCheck && (OwnerCount(r) == 0 || OwnerCount(r) >= 2) ==> e.Some?
  {
    match ColumnTypeError(schema, r)
    case Some(e) => Some(e)
    case None =>
      match NotNullError(r)
      case Some(e) => Some(e)
      case None =>
        if schema.ownerCheck && OwnerCount(r) != 1 then Some(CheckViolation(OwnerCheckName)) else None
  }

  predicate Admissible(schema: TableSchema, r: QCFileRow)
  {
    RowError(schema, r).None?
  }

  predicate ChecksumTaken(rows: seq<QCFileRow>, c: string)
  {
    exists i :: 0 <= i < |rows| && rows[i].checksum == Some(c)
  }

  predicate ChecksumsDistinct(rows: seq<QCFileRow>)
  {
    forall i, j :: 0 <= i < j < |rows| ==> rows[i].checksum != rows[j].checksum
  }

  /** What the table's constraints guarantee about its rows at every moment. */
  predicate Consistent(schema: TableSchema, rows: seq<QCFileRow>)
  {
    && (schema.enumColumns ==> schema.enumTypes)
    && (forall i :: 0 <= i < |rows| ==> Admissible(schema, rows[i]))
    && (schema.checksumUnique ==> ChecksumsDistinct(rows))
  }

  /** `w` is `v` with some trailing spaces removed. */
  predicate SpacesCut(v: Option<string>, w: Option<string>)
  {
    v.Some? <==> w.Some? && (v.Some? ==> w.value <= v.value && forall k :: |w.value| <= k < |v.value| ==> v.value[k] == ' ')
  }

  /**
   * An admissible row is stored with the excess spaces of its VARCHAR values
   * cut off, and the stored row is admissible too.
   */
  lemma StoredAdmissible(schema: TableSchema, r: QCFileRow)
    requires Admissible(schema, r)
    ensures Admissible(schema, Stored(schema, r))
    ensures var s := Stored(schema, r);
            && SpacesCut(r.calcType, s.calcType) && SpacesCut(r.status, s.status)
            && SpacesCut(r.inputName, s.inputName) && SpacesCut(r.outputName, s.outputName)
            && SpacesCut(r.checksum, s.checksum)
  {
  }

  /** A checksum one space longer than its column is accepted, and stored without the space. */
  lemma TrailingSpaceCut(schema: TableSchema, r: QCFileRow, c: string)
    requires |c| == ChecksumWidth && r.checksum == Some(c + " ")
    ensures Admissible(schema, r) <==> Admissible(schema, r.(checksum := Some(c)))
    ensures Stored(schema, r).checksum == Some(c)
  {
    assert FitsWidth(c + " ", ChecksumWidth);
    assert (c + " ")[..ChecksumWidth] == c;
  }

  /**
   * An `INSERT` of one row, checked by the engine against the constraints
   * present; the row stored is `Stored(schema, r)`, and the unique constraint
   * compares the stored checksum.
   */
  function TryInsert(schema: TableSchema, rows: seq<QCFileRow>, r: QCFileRow): (res: Result<seq<QCFileRow>, DbError>)
    ensures res.Ok? <==> Admissible(schema, r) && !(schema.checksumUnique && ChecksumTaken(rows, Stored(schema, r).checksum.value))
    ensures res.Ok? ==> res.value == rows + [Stored(schema, r)]
    ensures res.Err? && Admissible(schema, r) ==> res.error == UniqueViolation(ChecksumUniqueName)
    ensures res.Ok? && Consistent(schema, rows) ==> Consistent(schema, res.value)
  {
    match RowError(schema, r)
    case Some(e) => Err(e)
    case None =>
      var s := Stored(schema, r);
      if schema.checksumUnique && ChecksumTaken(rows, s.checksum.value) then Err(UniqueViolation(ChecksumUniqueName))
      else StoredAdmissible(schema, r); Ok(rows + [s])
  }

  /** The ORM column default: `compressed` is true when not supplied. */
  function WithDefaults(r: QCFileRow): (d: QCFileRow)
    ensures d.compressed == (if r.compressed.None? then Some(true) else r.compressed)
    ensures d.(compressed := r.compressed) == r
  {
    r.(compressed := if r.compressed.None? then Some(true) else r.compressed)
  }

  /** `ON DELETE SET NULL`: every reference to owner `id` of kind `k` becomes NULL. */
  function SetNull(rows: seq<QCFileRow>, k: OwnerKind, id: int): (out: seq<QCFileRow>)
    ensures |out| == |rows|
    ensures forall i :: 0 <= i < |rows| && OwnerKey(rows[i], k) == Some(id) ==> out[i] == ClearOwner(rows[i], k)
    ensures forall i :: 0 <= i < |rows| && OwnerKey(rows[i], k) != Some(id) ==> out[i] == rows[i]
  {
    seq(|rows|, i requires 0 <= i < |rows| => if OwnerKey(rows[i], k) == Some(id) then ClearOwner(rows[i], k) else rows[i])
  }

  /**
   * The update the engine runs when owner `id` of kind `k` is deleted: the
   * referencing rows lose that key, and the update fails if one of them then
   * breaks a constraint.
   */
  function DeleteOwnerStatement(schema: TableSchema, rows: seq<QCFileRow>, k: OwnerKind, id: int): (res: Result<seq<QCFileRow>, DbError>)
    ensures res.Ok? ==> |res.value| == |rows|
    ensures res.Ok? ==> forall i :: 0 <= i < |rows| ==> OwnerKey(res.value[i], k) != Some(id) && Admissible(schema, res.value[i])
    ensures res.Ok? ==> forall i :: 0 <= i < |rows| && OwnerKey(rows[i], k) != Some(id) ==> res.value[i] == rows[i]
    ensures res.Err? ==> res.error == CheckViolation(OwnerCheckName)
  {
    var cleared := SetNull(rows, k, id);
    if forall i :: 0 <= i < |cleared| ==> Admissible(schema, cleared[i]) then Ok(cleared)
    else Err(CheckViolation(OwnerCheckName))
  }

  /**
   * While the one-of check is in force, deleting an owner succeeds exactly
   * when no row references it: the check turns `SET NULL` into a restriction.
   */
  lemma OwnerDeleteRestricted(schema: TableSchema, rows: seq<QCFileRow>, k: OwnerKind, id: int)
    requires Consistent(schema, rows) && schema.ownerCheck
    ensures DeleteOwnerStatement(schema, rows, k, id).Ok?
            <==> forall i :: 0 <= i < |rows| ==> OwnerKey(rows[i], k) != Some(id)
    ensures DeleteOwnerStatement(schema, rows, k, id).Ok? ==> DeleteOwnerStatement(schema, rows, k, id).value == rows
  {
    var cleared := SetNull(rows, k, id);
    if i :| 0 <= i < |rows| && OwnerKey(rows[i], k) == Some(id) {
      assert Admissible(schema, rows[i]);
      assert OwnerCount(cleared[i]) == 0;
      assert !Admissible(schema, cleared[i]);
    } else {
      assert cleared == rows;
    }
  }

  /** Without the one-of check, deleting an owner always succeeds and may leave rows with no owner. */
  lemma OwnerDeleteUnchecked(schema: TableSchema, rows: seq<QCFileRow>, k: OwnerKind, id: int)
    requires Consistent(schema, rows) && !schema.ownerCheck
    ensures DeleteOwnerStatement(schema, rows, k, id) == Ok(SetNull(rows, k, id))
    ensures Consistent(schema, SetNull(rows, k, id))
  {
    var cleared := SetNull(rows, k, id);
    forall i | 0 <= i < |cleared|
      ensures Admissible(schema, cleared[i]) && cleared[i].checksum == rows[i].checksum
    {
      assert Admissible(schema, rows[i]);
    }
  }

  /** Every enum label also fits the VARCHAR(20) the columns had before and after the enum typing. */
  lemma LabelsFitStringTag(c: CalcType, s: Status)
    ensures |CalcName(c)| <= StringTagWidth && |StatusName(s)| <= StringTagWidth
  {
  }

  /** The `qc_file` table with its rows and its current structure. */
  class QCFileTable {
    var schema: TableSchema
    var rows: seq<QCFileRow>

    ghost predicate Valid()
      reads this
    {
      Consistent(schema, rows)
    }

    constructor (initial: TableSchema)
      requires initial.enumColumns ==> initial.enumTypes
      ensures Valid() && schema == initial && rows == []
    {
      schema := initial;
      rows := [];
    }

    /** An `INSERT` statement: the row is stored, cut to the column widths, or the table is left unchanged. */
    method InsertRow(r: QCFileRow) returns (res: Result<QCFileRow, DbError>)
      requires Valid()
      modifies this
      ensures Valid() && schema == old(schema)
      ensures res.Ok? <==> TryInsert(schema, old(rows), r).Ok?
      ensures res.Ok? ==> res.value == Stored(schema, r) && rows == old(rows) + [Stored(schema, r)]
      ensures res.Err? ==> TryInsert(schema, old(rows), r) == Err(res.error) && rows == old(rows)
    {
      match TryInsert(schema, rows, r)
      case Ok(next) =>
        rows := next;
        res := Ok(Stored(schema, r));
      case Err(e) =>
        res := Err(e);
    }

    /** Adding a `QCFile` object through the ORM: the column default applies, then the insert runs. */
    method Add(r: QCFileRow) returns (res: Result<QCFileRow, DbError>)
      requires Valid()
      modifies this
      ensures Valid() && schema == old(schema)
      ensures res.Ok? <==> TryInsert(schema, old(rows), WithDefaults(r)).Ok?
      ensures res.Ok? ==> res.value == Stored(schema, WithDefaults(r)) && rows == old(rows) + [Stored(schema, WithDefaults(r))]
      ensures res.Err? ==> rows == old(rows)
    {
      res := InsertRow(WithDefaults(r));
    }

    /** The effect on this table of deleting owner `id` of kind `k`. */
    method DeleteOwner(k: OwnerKind, id: int) returns (res: Result<(), DbError>)
      requires Valid()
      modifies this
      ensures Valid() && schema == old(schema)
      ensures res.Ok? ==> DeleteOwnerStatement(schema, old(rows), k, id) == Ok(rows)
      ensures res.Err? ==> DeleteOwnerStatement(schema, old(rows), k, id) == Err(res.error) && rows == old(rows)
    {
      match DeleteOwnerStatement(schema, rows, k, id)
      case Ok(next) =>
        if schema.ownerCheck {
          OwnerDeleteRestricted(schema, rows, k, id);
        } else {
          OwnerDeleteUnchecked(schema, rows, k, id);
        }
        rows := next;
        res := Ok(());
      case Err(e) =>
        res := Err(e);
    }
  }
}
