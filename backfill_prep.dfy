/**
 * Revision b1e5f4c2a9d3 of the `qc_file` table ("qcfile backfill prep").
 *
 * The upgrade gives `calc_type`/`status` their enumerated types, adds the
 * checksum unique constraint, the owner one-of check and five named indexes,
 * and then backfills `qc_file` from the legacy per-calculation columns of the
 * species table. The downgrade removes the structure again and keeps every row.
 * The migration runs in one transaction: when a statement fails, the whole
 * revision fails and the table is as it was before.
 */
module BackfillPrep {
  import opened Wrappers
  import opened QCFileModel

  // ---------------------------------------------------------------------------
  // The legacy species columns
  // ---------------------------------------------------------------------------

  /** `CALC_TYPES`, in the order the backfill visits them. */
  const CalcTypes: seq<CalcType> := [Opt, Freq, Scan, Irc, Sp]

  /** A species row, reduced to its key and its ten legacy `<calc>_ess_id`/`<calc>_level_id` columns. */
  datatype Species = Species(
    id: int,
    optEssId: Option<int>, optLevelId: Option<int>,
    freqEssId: Option<int>, freqLevelId: Option<int>,
    scanEssId: Option<int>, scanLevelId: Option<int>,
    ircEssId: Option<int>, ircLevelId: Option<int>,
    spEssId: Option<int>, spLevelId: Option<int>)

  /** The column `<calc>_ess_id`. */
  function EssColumn(s: Species, c: CalcType): Option<int>
  {
    match c
    case Opt => s.optEssId
    case Freq => s.freqEssId
    case Scan => s.scanEssId
    case Irc => s.ircEssId
    case Sp => s.spEssId
  }

  /** The column `<calc>_level_id`. */
  function LevelColumn(s: Species, c: CalcType): Option<int>
  {
    match c
    case Opt => s.optLevelId
    case Freq => s.freqLevelId
    case Scan => s.scanLevelId
    case Irc => s.ircLevelId
    case Sp => s.spLevelId
  }

  lemma CalcTypesCoverDomain()
    ensures |CalcTypes| == 5
    ensures forall c :: c in CalcTypes
    ensures forall i, j :: 0 <= i < j < |CalcTypes| ==> CalcTypes[i] != CalcTypes[j]
    ensures forall i :: 0 <= i < |CalcTypes| ==> ParseCalcType(CalcName(CalcTypes[i])) == Some(CalcTypes[i])
  {
    forall c ensures c in CalcTypes {
      match c
      case Opt => assert CalcTypes[0] == c;
      case Freq => assert CalcTypes[1] == c;
      case Scan => assert CalcTypes[2] == c;
      case Irc => assert CalcTypes[3] == c;
      case Sp => assert CalcTypes[4] == c;
    }
  }

  lemma CalcNameInjective(a: CalcType, b: CalcType)
    ensures CalcName(a) == CalcName(b) ==> a == b
  {
    if CalcName(a) == CalcName(b) {
      assert ParseCalcType(CalcName(a)) == Some(a);
      assert ParseCalcType(CalcName(b)) == Some(b);
    }
  }

  // ---------------------------------------------------------------------------
  // The placeholder checksum key `s.id::text || ':' || calc`
  // ---------------------------------------------------------------------------

  predicate IsDigit(ch: char)
  {
    '0' <= ch <= '9'
  }

  predicate AllDigits(s: string)
  {
    forall i :: 0 <= i < |s| ==> IsDigit(s[i])
  }

  function DigitChar(d: nat): (ch: char)
    requires d < 10
    ensures IsDigit(ch) && ch as int - '0' as int == d
  {
    ('0' as int + d) as char
  }

  /** The decimal text of a natural number, without leading zeros. */
  function NatText(n: nat): (s: string)
    ensures |s| >= 1 && AllDigits(s)
  {
    if n < 10 then [DigitChar(n)] else NatText(n / 10) + [DigitChar(n % 10)]
  }

  /** `integer::text`: the decimal text, with a leading '-' for a negative value. */
  function IntText(i: int): (s: string)
    ensures |s| >= 1
    ensures i >= 0 ==> AllDigits(s)
    ensures i < 0 ==> s[0] == '-' && |s| >= 2 && AllDigits(s[1..])
  {
    if i < 0 then "-" + NatText(-i) else NatText(i)
  }

  function DigitsValue(s: string): nat
    requires AllDigits(s)
  {
    if s == [] then 0 else DigitsValue(s[..|s| - 1]) * 10 + (s[|s| - 1] as int - '0' as int)
  }

  /** Reads back the text `IntText` writes. */
  function ParseIntText(s: string): Option<int>
  {
    if |s| >= 2 && s[0] == '-' && AllDigits(s[1..]) then Some(0 - DigitsValue(s[1..]) as int)
    else if |s| >= 1 && AllDigits(s) then Some(DigitsValue(s))
    else None
  }

  /** What `md5()` returns: 32 hexadecimal digits (the model keeps only the length). */
  type Digest = s: string | |s| == 32 witness "00000000000000000000000000000000"

  /** The string whose md5 the backfill stores as the checksum. */
  function ChecksumKey(id: int, c: CalcType): string
  {
    IntText(id) + ":" + CalcName(c)
  }

  /** The position of the first ':' in `s`. */
  function ColonIndex(s: string): (k: Option<nat>)
    ensures k.Some? ==> k.value < |s| && s[k.value] == ':' && forall j :: 0 <= j < k.value ==> s[j] != ':'
    ensures k.None? ==> forall j :: 0 <= j < |s| ==> s[j] != ':'
  {
    if s == [] then None
    else if s[0] == ':' then Some(0)
    else match ColonIndex(s[1..])
      case None => None
      case Some(k) => Some(k + 1)
  }

  /** Splits a key at its first ':' into the species id and the calculation type. */
  function ParseChecksumKey(key: string): Option<(int, CalcType)>
  {
    match ColonIndex(key)
    case None => None
    case Some(k) =>
      match (ParseIntText(key[..k]), ParseCalcType(key[k + 1..]))
      case (Some(id), Some(c)) => Some((id, c))
      case _ => None
  }

  lemma {:induction false} NatTextRoundTrip(n: nat)
    ensures DigitsValue(NatText(n)) == n
  {
    if n >= 10 {
      NatTextRoundTrip(n / 10);
      var t := NatText(n);
      assert t[..|t| - 1] == NatText(n / 10);
    }
  }

  lemma IntTextRoundTrip(i: int)
    ensures ParseIntText(IntText(i)) == Some(i)
  {
    var n: nat := if i < 0 then -i else i;
    var d := NatText(n);
    NatTextRoundTrip(n);
    if i < 0 {
      var t := "-" + d;
      assert t[0] == '-' && t[1..] == d;
    } else {
      assert IsDigit(d[0]);
    }
  }

  /** Integer text holds digits and at most a sign, never the separator ':'. */
  lemma IntTextHasNoColon(i: int)
    ensures forall j :: 0 <= j < |IntText(i)| ==> IntText(i)[j] != ':'
  {
    var n: nat := if i < 0 then -i else i;
    var d := NatText(n);
    if i < 0 {
      forall j | 0 <= j < |IntText(i)| ensures IntText(i)[j] != ':' {
        if j > 0 {
          assert IntText(i)[j] == d[j - 1];
        }
      }
    }
  }

  /** The key can be read back: `ParseChecksumKey` is a left inverse of `ChecksumKey`. */
  lemma ChecksumKeyRoundTrip(id: int, c: CalcType)
    ensures ParseChecksumKey(ChecksumKey(id, c)) == Some((id, c))
  {
    var t := IntText(id);
    var key := ChecksumKey(id, c);
    IntTextRoundTrip(id);
    IntTextHasNoColon(id);
    assert key[|t|] == ':';
    assert ColonIndex(key) == Some(|t|);
    assert key[..|t|] == t;
    assert key[|t| + 1..] == CalcName(c);
  }

  /** Distinct (species, calculation) pairs never share a checksum key. */
  lemma ChecksumKeyInjective(a: int, c: CalcType, b: int, d: CalcType)
    ensures ChecksumKey(a, c) == ChecksumKey(b, d) ==> a == b && c == d
  {
    ChecksumKeyRoundTrip(a, c);
    ChecksumKeyRoundTrip(b, d);
  }

  // ---------------------------------------------------------------------------
  // The backfill statements, as functions of the table
  // ---------------------------------------------------------------------------

  /** Both legacy columns of calculation `c` are set (the statement's WHERE clause). */
  predicate HasLegacyPair(s: Species, c: CalcType)
  {
    EssColumn(s, c).Some? && LevelColumn(s, c).Some?
  }

  /** Some row already records calculation `c` of species `id` (the NOT EXISTS subquery). */
  predicate HasSlot(rows: seq<QCFileRow>, id: int, c: CalcType)
  {
    exists q :: 0 <= q < |rows| && rows[q].speciesId == Some(id) && rows[q].calcType == Some(CalcName(c))
  }

  predicate Selected(rows: seq<QCFileRow>, s: Species, c: CalcType)
  {
    HasLegacyPair(s, c) && !HasSlot(rows, s.id, c)
  }

  /** The row the statement for `c` inserts for species `s`. */
  function BackfillRow(s: Species, c: CalcType, md5: string -> Digest): (r: QCFileRow)
    ensures r.speciesId == Some(s.id) && ExactlyOneOwner(r)
  {
    QCFileRow(
      speciesId := Some(s.id), transitionStateId := None, npSpeciesId := None,
      calcType := Some(CalcName(c)), status := Some(StatusName(StatusOk)),
      levelId := LevelColumn(s, c), essId := EssColumn(s, c),
      inputName := None, outputName := None, inputFile := None, outputFile := None,
      compressed := Some(true), checksum := Some(md5(ChecksumKey(s.id, c))))
  }

  /** The rows the `INSERT ... SELECT` for `c` produces against `rows`, in species order. */
  function Candidates(rows: seq<QCFileRow>, species: seq<Species>, c: CalcType, md5: string -> Digest): seq<QCFileRow>
  {
    if species == [] then []
    else
      var s := species[|species| - 1];
      Candidates(rows, species[..|species| - 1], c, md5) + (if Selected(rows, s, c) then [BackfillRow(s, c, md5)] else [])
  }

  /** The rows the engine stores for `xs`, each cut to the column widths. */
  function StoredRows(schema: TableSchema, xs: seq<QCFileRow>): seq<QCFileRow>
  {
    if xs == [] then [] else StoredRows(schema, xs[..|xs| - 1]) + [Stored(schema, xs[|xs| - 1])]
  }

  /** Inserting `xs` one after another; the first rejected row fails the whole statement. */
  function InsertAll(schema: TableSchema, rows: seq<QCFileRow>, xs: seq<QCFileRow>): (res: Result<seq<QCFileRow>, DbError>)
    ensures res.Ok? ==> res.value == rows + StoredRows(schema, xs)
    ensures res.Ok? && Consistent(schema, rows) ==> Consistent(schema, res.value)
  {
    if xs == [] then Ok(rows)
    else match InsertAll(schema, rows, xs[..|xs| - 1])
      case Err(e) => Err(e)
      case Ok(mid) =>
        assert mid + [Stored(schema, xs[|xs| - 1])] == rows + StoredRows(schema, xs);
        TryInsert(schema, mid, xs[|xs| - 1])
  }

  /** The backfill statements for `calcs`, run in order, each against the table the previous left. */
  function RunBackfill(schema: TableSchema, rows: seq<QCFileRow>, species: seq<Species>, md5: string -> Digest,
                       calcs: seq<CalcType>): (res: Result<seq<QCFileRow>, DbError>)
    ensures res.Ok? ==> |rows| <= |res.value| && res.value[..|rows|] == rows
    ensures res.Ok? && Consistent(schema, rows) ==> Consistent(schema, res.value)
  {
    if calcs == [] then Ok(rows)
    else match RunBackfill(schema, rows, species, md5, calcs[..|calcs| - 1])
      case Err(e) => Err(e)
      case Ok(mid) =>
        var res := InsertAll(schema, mid, Candidates(mid, species, calcs[|calcs| - 1], md5));
        assert res.Ok? ==> res.value[..|rows|] == mid[..|rows|];
        res
  }

  /** The data step of the upgrade: one statement per entry of `CALC_TYPES`. */
  function Backfill(schema: TableSchema, rows: seq<QCFileRow>, species: seq<Species>, md5: string -> Digest): (res: Result<seq<QCFileRow>, DbError>)
    ensures res.Ok? ==> |rows| <= |res.value| && res.value[..|rows|] == rows
    ensures res.Ok? && Consistent(schema, rows) ==> Consistent(schema, res.value)
  {
    RunBackfill(schema, rows, species, md5, CalcTypes)
  }

  /** What the backfill adds when it succeeds: the candidates of each statement, judged against the original table. */
  function Planned(rows: seq<QCFileRow>, species: seq<Species>, md5: string -> Digest, calcs: seq<CalcType>): seq<QCFileRow>
  {
    if calcs == [] then []
    else Planned(rows, species, md5, calcs[..|calcs| - 1]) + Candidates(rows, species, calcs[|calcs| - 1], md5)
  }

  // ---------------------------------------------------------------------------
  // Lemmas about the backfill
  // ---------------------------------------------------------------------------

  /** A backfilled row satisfies every row constraint of the table, the owner one-of check included. */
  lemma BackfillRowAdmissible(schema: TableSchema, s: Species, c: CalcType, md5: string -> Digest)
    requires HasLegacyPair(s, c)
    ensures Admissible(schema, BackfillRow(s, c, md5))
    ensures ExactlyOneOwner(BackfillRow(s, c, md5))
  {
    LabelsFitStringTag(c, StatusOk);
    assert ParseCalcType(CalcName(c)) == Some(c) by { CalcNameInjective(c, ParseCalcType(CalcName(c)).value); }
  }

  /** A backfilled row is stored exactly as the SELECT produces it: its label and digest fit their columns. */
  lemma BackfillRowStored(schema: TableSchema, s: Species, c: CalcType, md5: string -> Digest)
    ensures Stored(schema, BackfillRow(s, c, md5)) == BackfillRow(s, c, md5)
  {
    LabelsFitStringTag(c, StatusOk);
  }

  lemma {:induction false} StoredRowsExact(schema: TableSchema, xs: seq<QCFileRow>)
    requires forall x :: x in xs ==> Stored(schema, x) == x
    ensures StoredRows(schema, xs) == xs
  {
    if xs != [] {
      assert xs == xs[..|xs| - 1] + [xs[|xs| - 1]];
      StoredRowsExact(schema, xs[..|xs| - 1]);
    }
  }

  /** The statement's rows are stored unchanged. */
  lemma CandidatesStored(schema: TableSchema, rows: seq<QCFileRow>, species: seq<Species>, c: CalcType, md5: string -> Digest)
    ensures StoredRows(schema, Candidates(rows, species, c, md5)) == Candidates(rows, species, c, md5)
  {
    CandidatesMembers(rows, species, c, md5);
    forall x | x in Candidates(rows, species, c, md5)
      ensures Stored(schema, x) == x
    {
      var s :| s in species && Selected(rows, s, c) && x == BackfillRow(s, c, md5);
      BackfillRowStored(schema, s, c, md5);
    }
    StoredRowsExact(schema, Candidates(rows, species, c, md5));
  }

  lemma {:induction false} CandidatesMembers(rows: seq<QCFileRow>, species: seq<Species>, c: CalcType, md5: string -> Digest)
    ensures forall r :: r in Candidates(rows, species, c, md5) ==>
              exists s :: s in species && Selected(rows, s, c) && r == BackfillRow(s, c, md5)
    ensures forall s :: s in species && Selected(rows, s, c) ==> BackfillRow(s, c, md5) in Candidates(rows, species, c, md5)
  {
    if species != [] {
      var init := species[..|species| - 1];
      CandidatesMembers(rows, init, c, md5);
      assert species == init + [species[|species| - 1]];
    }
  }

  lemma {:induction false} CandidatesAppend(rows: seq<QCFileRow>, a: seq<Species>, b: seq<Species>, c: CalcType, md5: string -> Digest)
    ensures Candidates(rows, a + b, c, md5) == Candidates(rows, a, c, md5) + Candidates(rows, b, c, md5)
  {
    if b != [] {
      var init := b[..|b| - 1];
      CandidatesAppend(rows, a, init, c, md5);
      assert (a + b)[..|a + b| - 1] == a + init;
    } else {
      assert a + b == a;
    }
  }

  /** The candidates depend on the table only through the slots of the scanned species. */
  lemma {:induction false} CandidatesSameSlots(rows1: seq<QCFileRow>, rows2: seq<QCFileRow>, species: seq<Species>, c: CalcType, md5: string -> Digest)
    requires forall s :: s in species ==> HasSlot(rows1, s.id, c) == HasSlot(rows2, s.id, c)
    ensures Candidates(rows1, species, c, md5) == Candidates(rows2, species, c, md5)
  {
    if species != [] {
      var init := species[..|species| - 1];
      assert forall s :: s in init ==> s in species;
      CandidatesSameSlots(rows1, rows2, init, c, md5);
    }
  }

  lemma {:induction false} InsertAllErrExtends(schema: TableSchema, rows: seq<QCFileRow>, xs: seq<QCFileRow>, ys: seq<QCFileRow>)
    requires InsertAll(schema, rows, xs).Err?
    ensures InsertAll(schema, rows, xs + ys) == InsertAll(schema, rows, xs)
  {
    if ys == [] {
      assert xs + ys == xs;
    } else {
      var init := ys[..|ys| - 1];
      InsertAllErrExtends(schema, rows, xs, init);
      assert (xs + ys)[..|xs + ys| - 1] == xs + init;
    }
  }

  lemma {:induction false} RunBackfillErrExtends(schema: TableSchema, rows: seq<QCFileRow>, species: seq<Species>, md5: string -> Digest,
                                                 calcs: seq<CalcType>, n: nat)
    requires n <= |calcs| && RunBackfill(schema, rows, species, md5, calcs[..n]).Err?
    ensures RunBackfill(schema, rows, species, md5, calcs) == RunBackfill(schema, rows, species, md5, calcs[..n])
  {
    if n < |calcs| {
      var init := calcs[..|calcs| - 1];
      assert init[..n] == calcs[..n];
      RunBackfillErrExtends(schema, rows, species, md5, init, n);
    } else {
      assert calcs[..n] == calcs;
    }
  }

  lemma {:induction false} PlannedMembers(rows: seq<QCFileRow>, species: seq<Species>, md5: string -> Digest, calcs: seq<CalcType>)
    ensures forall r :: r in Planned(rows, species, md5, calcs) ==>
              exists s, c :: s in species && c in calcs && Selected(rows, s, c) && r == BackfillRow(s, c, md5)
    ensures forall s, c :: s in species && c in calcs && Selected(rows, s, c) ==> BackfillRow(s, c, md5) in Planned(rows, species, md5, calcs)
  {
    if calcs != [] {
      var init := calcs[..|calcs| - 1];
      var last := calcs[|calcs| - 1];
      PlannedMembers(rows, species, md5, init);
      CandidatesMembers(rows, species, last, md5);
      assert calcs == init + [last];
    }
  }

  predicate DistinctCalcs(calcs: seq<CalcType>)
  {
    forall i, j :: 0 <= i < j < |calcs| ==> calcs[i] != calcs[j]
  }

  /** Rows of other calculation types do not change whether a slot is taken. */
  lemma HasSlotIgnoresOtherCalcs(rows: seq<QCFileRow>, extra: seq<QCFileRow>, id: int, c: CalcType)
    requires forall r :: r in extra ==> r.calcType != Some(CalcName(c))
    ensures HasSlot(rows + extra, id, c) == HasSlot(rows, id, c)
  {
    forall q | |rows| <= q < |rows + extra|
      ensures (rows + extra)[q].calcType != Some(CalcName(c))
    {
      assert (rows + extra)[q] == extra[q - |rows|];
    }
    if HasSlot(rows, id, c) {
      var q :| 0 <= q < |rows| && rows[q].speciesId == Some(id) && rows[q].calcType == Some(CalcName(c));
      assert (rows + extra)[q] == rows[q];
    }
  }

  /** The planned rows of calculation types other than `last` do not mention `last`. */
  lemma PlannedOtherCalcs(rows: seq<QCFileRow>, species: seq<Species>, md5: string -> Digest, calcs: seq<CalcType>,
                          last: CalcType)
    requires last !in calcs
    ensures forall r :: r in Planned(rows, species, md5, calcs) ==> r.calcType != Some(CalcName(last))
  {
    PlannedMembers(rows, species, md5, calcs);
    forall r | r in Planned(rows, species, md5, calcs)
      ensures r.calcType != Some(CalcName(last))
    {
      var s, c :| s in species && c in calcs && Selected(rows, s, c) && r == BackfillRow(s, c, md5);
      CalcNameInjective(c, last);
    }
  }

  /**
   * A successful backfill appends exactly the planned rows: each statement sees
   * the table as the earlier statements left it, but those added only rows of
   * other calculation types, so its candidates are those of the original table.
   */
  lemma {:induction false} RunBackfillAppendsPlanned(schema: TableSchema, rows: seq<QCFileRow>, species: seq<Species>, md5: string -> Digest,
                                                     calcs: seq<CalcType>)
    requires DistinctCalcs(calcs)
    requires RunBackfill(schema, rows, species, md5, calcs).Ok?
    ensures RunBackfill(schema, rows, species, md5, calcs).value == rows + Planned(rows, species, md5, calcs)
  {
    if calcs != [] {
      var init := calcs[..|calcs| - 1];
      var last := calcs[|calcs| - 1];
      assert DistinctCalcs(init) && last !in init by {
        forall k | 0 <= k < |init| ensures calcs[k] == init[k] {}
      }
      RunBackfillLast(schema, rows, species, md5, calcs);
      RunBackfillAppendsPlanned(schema, rows, species, md5, init);
      PlannedCandidatesUnchanged(rows, species, md5, init, last);
      var p := Planned(rows, species, md5, init);
      var c := Candidates(rows, species, last, md5);
      assert Planned(rows, species, md5, calcs) == p + c;
      assert (rows + p) + c == rows + (p + c);
    }
  }

  /** A successful run is the successful run of its earlier statements followed by the rows of the last one. */
  lemma RunBackfillLast(schema: TableSchema, rows: seq<QCFileRow>, species: seq<Species>, md5: string -> Digest,
                        calcs: seq<CalcType>)
    requires calcs != [] && RunBackfill(schema, rows, species, md5, calcs).Ok?
    ensures RunBackfill(schema, rows, species, md5, calcs[..|calcs| - 1]).Ok?
    ensures var mid := RunBackfill(schema, rows, species, md5, calcs[..|calcs| - 1]).value;
            RunBackfill(schema, rows, species, md5, calcs).value == mid + Candidates(mid, species, calcs[|calcs| - 1], md5)
  {
    var init := calcs[..|calcs| - 1];
    assert RunBackfill(schema, rows, species, md5, init).Ok?;
    CandidatesStored(schema, RunBackfill(schema, rows, species, md5, init).value, species, calcs[|calcs| - 1], md5);
  }

  /** Rows planned for other calculation types leave the candidates of `last` as they were. */
  lemma PlannedCandidatesUnchanged(rows: seq<QCFileRow>, species: seq<Species>, md5: string -> Digest, calcs: seq<CalcType>,
                                   last: CalcType)
    requires last !in calcs
    ensures Candidates(rows + Planned(rows, species, md5, calcs), species, last, md5) == Candidates(rows, species, last, md5)
  {
    PlannedOtherCalcs(rows, species, md5, calcs, last);
    forall s | s in species
      ensures HasSlot(rows + Planned(rows, species, md5, calcs), s.id, last) == HasSlot(rows, s.id, last)
    {
      HasSlotIgnoresOtherCalcs(rows, Planned(rows, species, md5, calcs), s.id, last);
    }
    CandidatesSameSlots(rows + Planned(rows, species, md5, calcs), rows, species, last, md5);
  }

  /**
   * The backfill only inserts, and it inserts a row for species `s` and
   * calculation `c` exactly when both legacy columns of `c` are set and no row
   * for `(s.id, c)` existed: every selected pair gets its row, and every added
   * row is the row of a selected pair.
   */
  lemma BackfillInsertsExactlySelected(schema: TableSchema, rows: seq<QCFileRow>, species: seq<Species>, md5: string -> Digest,
                                       after: seq<QCFileRow>)
    requires Backfill(schema, rows, species, md5) == Ok(after)
    ensures |rows| <= |after| && after[..|rows|] == rows
    ensures forall s, c :: s in species && Selected(rows, s, c) ==> BackfillRow(s, c, md5) in after[|rows|..]
    ensures forall r :: r in after[|rows|..] ==>
              exists s, c :: s in species && Selected(rows, s, c) && r == BackfillRow(s, c, md5)
  {
    CalcTypesCoverDomain();
    RunBackfillAppendsPlanned(schema, rows, species, md5, CalcTypes);
    PlannedMembers(rows, species, md5, CalcTypes);
    assert after[|rows|..] == Planned(rows, species, md5, CalcTypes);
  }

  /**
   * Every row the backfill adds belongs to exactly one species, is an `ok`
   * compressed row of a scanned calculation type, and carries the species'
   * legacy software and level of theory for that type.
   */
  lemma BackfilledRowsShape(schema: TableSchema, rows: seq<QCFileRow>, species: seq<Species>, md5: string -> Digest,
                            after: seq<QCFileRow>, k: int)
    requires Backfill(schema, rows, species, md5) == Ok(after)
    requires |rows| <= k < |after|
    ensures exists s, c :: s in species && HasLegacyPair(s, c)
              && after[k].speciesId == Some(s.id)
              && after[k].calcType == Some(CalcName(c))
              && after[k].essId == EssColumn(s, c) && after[k].levelId == LevelColumn(s, c)
              && after[k].checksum == Some(md5(ChecksumKey(s.id, c)))
    ensures ExactlyOneOwner(after[k]) && after[k].speciesId.Some?
    ensures after[k].status == Some("ok") && after[k].compressed == Some(true)
    ensures after[k].calcType.Some? && ParseCalcType(after[k].calcType.value).Some?
  {
    BackfillInsertsExactlySelected(schema, rows, species, md5, after);
    assert after[k] in after[|rows|..] by { assert after[|rows|..][k - |rows|] == after[k]; }
    var s, c :| s in species && Selected(rows, s, c) && after[k] == BackfillRow(s, c, md5);
    assert ParseCalcType(CalcName(c)) == Some(c) by { CalcNameInjective(c, ParseCalcType(CalcName(c)).value); }
  }

  lemma {:induction false} RunBackfillNothingSelected(schema: TableSchema, rows: seq<QCFileRow>, species: seq<Species>, md5: string -> Digest,
                                                      calcs: seq<CalcType>)
    requires forall s, c :: s in species ==> !Selected(rows, s, c)
    ensures RunBackfill(schema, rows, species, md5, calcs) == Ok(rows)
  {
    if calcs != [] {
      var last := calcs[|calcs| - 1];
      RunBackfillNothingSelected(schema, rows, species, md5, calcs[..|calcs| - 1]);
      CandidatesMembers(rows, species, last, md5);
      if Candidates(rows, species, last, md5) != [] {
        assert Candidates(rows, species, last, md5)[0] in Candidates(rows, species, last, md5);
      }
    }
  }

  /** Running the backfill again over its own result inserts nothing: one run and two runs end in the same table. */
  lemma BackfillIdempotent(schema: TableSchema, rows: seq<QCFileRow>, species: seq<Species>, md5: string -> Digest,
                           after: seq<QCFileRow>)
    requires Backfill(schema, rows, species, md5) == Ok(after)
    ensures Backfill(schema, after, species, md5) == Ok(after)
  {
    BackfillInsertsExactlySelected(schema, rows, species, md5, after);
    forall s, c | s in species
      ensures !Selected(after, s, c)
    {
      if HasLegacyPair(s, c) {
        if HasSlot(rows, s.id, c) {
          var q :| 0 <= q < |rows| && rows[q].speciesId == Some(s.id) && rows[q].calcType == Some(CalcName(c));
          assert after[q] == rows[q];
        } else {
          var r := BackfillRow(s, c, md5);
          assert r in after[|rows|..];
          var k :| 0 <= k < |after[|rows|..]| && after[|rows|..][k] == r;
          assert after[|rows| + k] == r;
        }
      }
    }
    RunBackfillNothingSelected(schema, after, species, md5, CalcTypes);
  }

  /** `species.id` is the primary key of `species`. */
  predicate SpeciesIdsDistinct(species: seq<Species>)
  {
    forall i, j :: 0 <= i < j < |species| ==> species[i].id != species[j].id
  }

  /** No two rows record the same calculation of the same species. */
  predicate PairsDistinct(xs: seq<QCFileRow>)
  {
    forall i, j :: 0 <= i < j < |xs| ==> xs[i].speciesId != xs[j].speciesId || xs[i].calcType != xs[j].calcType
  }

  /** One statement inserts at most one row per species. */
  lemma {:induction false} CandidatesPairsDistinct(rows: seq<QCFileRow>, species: seq<Species>, c: CalcType, md5: string -> Digest)
    requires SpeciesIdsDistinct(species)
    ensures forall i, j :: 0 <= i < j < |Candidates(rows, species, c, md5)| ==>
              Candidates(rows, species, c, md5)[i].speciesId != Candidates(rows, species, c, md5)[j].speciesId
  {
    if species != [] {
      var init := species[..|species| - 1];
      var s := species[|species| - 1];
      assert SpeciesIdsDistinct(init);
      CandidatesPairsDistinct(rows, init, c, md5);
      CandidatesMembers(rows, init, c, md5);
      var prev := Candidates(rows, init, c, md5);
      forall r | r in prev
        ensures r.speciesId != Some(s.id)
      {
        var t :| t in init && Selected(rows, t, c) && r == BackfillRow(t, c, md5);
        var k :| 0 <= k < |init| && init[k] == t;
        assert species[k] == t;
      }
    }
  }

  /** Over distinct calculation types, the planned rows never repeat a (species, calculation) pair. */
  lemma {:induction false} PlannedPairsDistinct(rows: seq<QCFileRow>, species: seq<Species>, md5: string -> Digest, calcs: seq<CalcType>)
    requires SpeciesIdsDistinct(species) && DistinctCalcs(calcs)
    ensures PairsDistinct(Planned(rows, species, md5, calcs))
  {
    if calcs != [] {
      var init := calcs[..|calcs| - 1];
      var last := calcs[|calcs| - 1];
      assert DistinctCalcs(init);
      PlannedPairsDistinct(rows, species, md5, init);
      assert last !in init by {
        forall k | 0 <= k < |init| ensures init[k] != last { assert calcs[k] == init[k]; }
      }
      PlannedOtherCalcs(rows, species, md5, init, last);
      CandidatesPairsDistinct(rows, species, last, md5);
      CandidatesMembers(rows, species, last, md5);
      var p := Planned(rows, species, md5, init);
      var cs := Candidates(rows, species, last, md5);
      forall j | 0 <= j < |cs|
        ensures cs[j].calcType == Some(CalcName(last))
      {
        assert cs[j] in cs;
      }
      forall i, j | 0 <= i < j < |p + cs|
        ensures (p + cs)[i].speciesId != (p + cs)[j].speciesId || (p + cs)[i].calcType != (p + cs)[j].calcType
      {
        if j < |p| {
          assert (p + cs)[i] == p[i] && (p + cs)[j] == p[j];
        } else if i >= |p| {
          assert (p + cs)[i] == cs[i - |p|] && (p + cs)[j] == cs[j - |p|];
        } else {
          assert (p + cs)[i] == p[i] && p[i] in p;
          assert (p + cs)[j] == cs[j - |p|];
        }
      }
    }
  }

  /** `md5` does not collide on two different checksum keys. */
  ghost predicate KeyHashInjective(md5: string -> Digest)
  {
    forall a: int, c: CalcType, b: int, d: CalcType ::
      ChecksumKey(a, c) != ChecksumKey(b, d) ==> md5(ChecksumKey(a, c)) != md5(ChecksumKey(b, d))
  }

  /**
   * The rows the backfill plans never collide with each other on `checksum`:
   * their keys differ because species ids are distinct and calculation names
   * are, and a key names its species and calculation.
   */
  lemma PlannedChecksumsDistinct(rows: seq<QCFileRow>, species: seq<Species>, md5: string -> Digest)
    requires SpeciesIdsDistinct(species) && KeyHashInjective(md5)
    ensures ChecksumsDistinct(Planned(rows, species, md5, CalcTypes))
  {
    CalcTypesCoverDomain();
    var p := Planned(rows, species, md5, CalcTypes);
    PlannedPairsDistinct(rows, species, md5, CalcTypes);
    PlannedMembers(rows, species, md5, CalcTypes);
    forall i, j | 0 <= i < j < |p|
      ensures p[i].checksum != p[j].checksum
    {
      assert p[i] in p && p[j] in p;
      var s1, c1 :| s1 in species && c1 in CalcTypes && Selected(rows, s1, c1) && p[i] == BackfillRow(s1, c1, md5);
      var s2, c2 :| s2 in species && c2 in CalcTypes && Selected(rows, s2, c2) && p[j] == BackfillRow(s2, c2, md5);
      assert s1.id != s2.id || c1 != c2;
      ChecksumKeyInjective(s1.id, c1, s2.id, c2);
    }
  }

  /** A successful backfill adds rows whose checksums are pairwise distinct, whatever the table's constraints. */
  lemma BackfilledChecksumsDistinct(schema: TableSchema, rows: seq<QCFileRow>, species: seq<Species>, md5: string -> Digest,
                                    after: seq<QCFileRow>)
    requires Backfill(schema, rows, species, md5) == Ok(after)
    requires SpeciesIdsDistinct(species) && KeyHashInjective(md5)
    ensures |rows| <= |after| && ChecksumsDistinct(after[|rows|..])
  {
    CalcTypesCoverDomain();
    RunBackfillAppendsPlanned(schema, rows, species, md5, CalcTypes);
    PlannedChecksumsDistinct(rows, species, md5);
    assert after[|rows|..] == Planned(rows, species, md5, CalcTypes);
  }

  /** A statement whose rows all pass the row constraints and whose stored checksums are all new succeeds. */
  lemma {:induction false} InsertAllSucceeds(schema: TableSchema, rows: seq<QCFileRow>, xs: seq<QCFileRow>)
    requires forall x :: x in xs ==> Admissible(schema, x)
    requires schema.checksumUnique ==> ChecksumsDistinct(rows + StoredRows(schema, xs))
    ensures InsertAll(schema, rows, xs).Ok?
  {
    if xs != [] {
      var init, x := xs[..|xs| - 1], xs[|xs| - 1];
      var ys, yi, sx := StoredRows(schema, xs), StoredRows(schema, init), Stored(schema, x);
      assert x in xs && forall z :: z in init ==> z in xs;
      assert rows + ys == (rows + yi) + [sx];
      if schema.checksumUnique {
        forall i, j | 0 <= i < j < |rows + yi|
          ensures (rows + yi)[i].checksum != (rows + yi)[j].checksum
        {
          assert (rows + yi)[i] == (rows + ys)[i] && (rows + yi)[j] == (rows + ys)[j];
        }
      }
      InsertAllSucceeds(schema, rows, init);
      if schema.checksumUnique {
        forall q | 0 <= q < |rows + yi|
          ensures (rows + yi)[q].checksum != Some(sx.checksum.value)
        {
          assert (rows + ys)[q] == (rows + yi)[q] && (rows + ys)[|rows + ys| - 1] == sx;
        }
      }
    }
  }

  lemma ChecksumsDistinctPrefix(xs: seq<QCFileRow>, k: nat)
    requires k <= |xs| && ChecksumsDistinct(xs)
    ensures ChecksumsDistinct(xs[..k])
  {
    forall i, j | 0 <= i < j < k
      ensures xs[..k][i].checksum != xs[..k][j].checksum
    {
      assert xs[..k][i] == xs[i] && xs[..k][j] == xs[j];
    }
  }

  /**
   * The statements for `calcs` all succeed when every planned row passes the
   * row constraints and, under the unique constraint, no two checksums of the
   * table and the planned rows coincide.
   */
  lemma {:induction false} RunBackfillSucceeds(schema: TableSchema, rows: seq<QCFileRow>, species: seq<Species>, md5: string -> Digest,
                                               calcs: seq<CalcType>)
    requires DistinctCalcs(calcs)
    requires forall r :: r in Planned(rows, species, md5, calcs) ==> Admissible(schema, r)
    requires schema.checksumUnique ==> ChecksumsDistinct(rows + Planned(rows, species, md5, calcs))
    ensures RunBackfill(schema, rows, species, md5, calcs).Ok?
  {
    if calcs != [] {
      var init := calcs[..|calcs| - 1];
      var last := calcs[|calcs| - 1];
      PlannedPrefixFits(schema, rows, species, md5, calcs);
      RunBackfillSucceeds(schema, rows, species, md5, init);
      RunBackfillAppendsPlanned(schema, rows, species, md5, init);
      var p := Planned(rows, species, md5, init);
      var cs := Candidates(rows + p, species, last, md5);
      assert RunBackfill(schema, rows, species, md5, calcs) == InsertAll(schema, rows + p, cs);
      CandidatesStored(schema, rows + p, species, last, md5);
      InsertAllSucceeds(schema, rows + p, cs);
    }
  }

  /** What the statements for `calcs` need holds for all but the last of them, and for the last one's candidates. */
  lemma PlannedPrefixFits(schema: TableSchema, rows: seq<QCFileRow>, species: seq<Species>, md5: string -> Digest,
                          calcs: seq<CalcType>)
    requires calcs != [] && DistinctCalcs(calcs)
    requires forall r :: r in Planned(rows, species, md5, calcs) ==> Admissible(schema, r)
    requires schema.checksumUnique ==> ChecksumsDistinct(rows + Planned(rows, species, md5, calcs))
    ensures DistinctCalcs(calcs[..|calcs| - 1])
    ensures forall r :: r in Planned(rows, species, md5, calcs[..|calcs| - 1]) ==> Admissible(schema, r)
    ensures schema.checksumUnique ==> ChecksumsDistinct(rows + Planned(rows, species, md5, calcs[..|calcs| - 1]))
    ensures forall r :: r in Candidates(rows + Planned(rows, species, md5, calcs[..|calcs| - 1]), species, calcs[|calcs| - 1], md5)
              ==> Admissible(schema, r)
    ensures schema.checksumUnique ==>
              ChecksumsDistinct((rows + Planned(rows, species, md5, calcs[..|calcs| - 1]))
                                + Candidates(rows + Planned(rows, species, md5, calcs[..|calcs| - 1]), species, calcs[|calcs| - 1], md5))
  {
    var init := calcs[..|calcs| - 1];
    var last := calcs[|calcs| - 1];
    var p := Planned(rows, species, md5, init);
    var cs := Candidates(rows, species, last, md5);
    assert Planned(rows, species, md5, calcs) == p + cs;
    assert DistinctCalcs(init);
    assert last !in init by {
      forall k | 0 <= k < |init| ensures init[k] != last { assert calcs[k] == init[k]; }
    }
    PlannedCandidatesUnchanged(rows, species, md5, init, last);
    assert rows + p == (rows + (p + cs))[..|rows + p|];
    if schema.checksumUnique {
      ChecksumsDistinctPrefix(rows + (p + cs), |rows + p|);
    }
    assert (rows + p) + cs == rows + (p + cs);
  }

  /**
   * On a consistent table, the backfill succeeds when species ids are
   * distinct, `md5` neither collides on two keys nor exceeds the checksum
   * width, and no existing row already holds the placeholder checksum of a
   * row the backfill will insert.
   */
  lemma BackfillSucceeds(schema: TableSchema, rows: seq<QCFileRow>, species: seq<Species>, md5: string -> Digest)
    requires Consistent(schema, rows)
    requires SpeciesIdsDistinct(species) && KeyHashInjective(md5)
    requires forall q, s, c :: 0 <= q < |rows| && s in species && Selected(rows, s, c) ==>
               rows[q].checksum != Some(md5(ChecksumKey(s.id, c)))
    ensures Backfill(schema, rows, species, md5).Ok?
  {
    CalcTypesCoverDomain();
    var p := Planned(rows, species, md5, CalcTypes);
    PlannedMembers(rows, species, md5, CalcTypes);
    forall r | r in p
      ensures Admissible(schema, r)
    {
      var s, c :| s in species && c in CalcTypes && Selected(rows, s, c) && r == BackfillRow(s, c, md5);
      BackfillRowAdmissible(schema, s, c, md5);
    }
    if schema.checksumUnique {
      PlannedChecksumsDistinct(rows, species, md5);
      forall i, j | 0 <= i < j < |rows + p|
        ensures (rows + p)[i].checksum != (rows + p)[j].checksum
      {
        if j < |rows| {
          assert (rows + p)[i] == rows[i] && (rows + p)[j] == rows[j];
        } else if i >= |rows| {
          assert (rows + p)[i] == p[i - |rows|] && (rows + p)[j] == p[j - |rows|];
        } else {
          assert (rows + p)[j] == p[j - |rows|] && p[j - |rows|] in p;
          var s, c :| s in species && c in CalcTypes && Selected(rows, s, c) && p[j - |rows|] == BackfillRow(s, c, md5);
          assert (rows + p)[i] == rows[i];
        }
      }
    }
    RunBackfillSucceeds(schema, rows, species, md5, CalcTypes);
  }

  // ---------------------------------------------------------------------------
  // The structural steps
  // ---------------------------------------------------------------------------

  /** The five indexes the upgrade creates (all with `unique=False`) and the downgrade drops. */
  const MigrationIndexes: seq<string> := [
    "qc_file_species_id_idx", "qc_file_calc_type_idx", "qc_file_status_idx",
    "qc_file_level_id_idx", "qc_file_ess_id_idx"]

  predicate DistinctNames(names: seq<string>)
  {
    forall i, j :: 0 <= i < j < |names| ==> names[i] != names[j]
  }

  /** `op.create_index` for each name in turn; an existing name is an error. */
  function CreateIndexes(schema: TableSchema, names: seq<string>): (res: Result<TableSchema, DbError>)
    ensures res.Ok? <==> DistinctNames(names) && forall n :: n in names ==> n !in schema.indexes
    ensures res.Ok? ==> res.value == schema.(indexes := schema.indexes + set n | n in names)
  {
    if names == [] then Ok(schema)
    else
      var init, n := names[..|names| - 1], names[|names| - 1];
      assert names == init + [n];
      assert DistinctNames(names) <==> DistinctNames(init) && n !in init by {
        if DistinctNames(init) && n !in init {
          forall i, j | 0 <= i < j < |names| ensures names[i] != names[j] {
            if j == |names| - 1 { assert names[i] in init; }
          }
        }
        forall k | 0 <= k < |init| ensures names[k] == init[k] {}
      }
      match CreateIndexes(schema, init)
      case Err(e) => Err(e)
      case Ok(s) =>
        if n in s.indexes then Err(DuplicateObject(n))
        else Ok(s.(indexes := s.indexes + {n}))
  }

  /** `op.drop_index` for each name in turn; a missing name is an error. */
  function DropIndexes(schema: TableSchema, names: seq<string>): (res: Result<TableSchema, DbError>)
    ensures res.Ok? <==> DistinctNames(names) && forall n :: n in names ==> n in schema.indexes
    ensures res.Ok? ==> res.value == schema.(indexes := schema.indexes - set n | n in names)
    ensures res.Err? ==> res.error.UndefinedObject?
  {
    if names == [] then Ok(schema)
    else
      var init, n := names[..|names| - 1], names[|names| - 1];
      assert names == init + [n];
      assert DistinctNames(names) <==> DistinctNames(init) && n !in init by {
        if DistinctNames(init) && n !in init {
          forall i, j | 0 <= i < j < |names| ensures names[i] != names[j] {
            if j == |names| - 1 { assert names[i] in init; }
          }
        }
        forall k | 0 <= k < |init| ensures names[k] == init[k] {}
      }
      match DropIndexes(schema, init)
      case Err(e) => Err(e)
      case Ok(s) =>
        if n !in s.indexes then Err(UndefinedObject(n))
        else Ok(s.(indexes := s.indexes - {n}))
  }

  predicate SomeCalcTypeOutsideEnum(rows: seq<QCFileRow>)
  {
    exists i :: 0 <= i < |rows| && rows[i].calcType.Some? && ParseCalcType(rows[i].calcType.value).None?
  }

  predicate SomeStatusOutsideEnum(rows: seq<QCFileRow>)
  {
    exists i :: 0 <= i < |rows| && rows[i].status.Some? && ParseStatus(rows[i].status.value).None?
  }

  predicate SomeOwnerCountNotOne(rows: seq<QCFileRow>)
  {
    exists i :: 0 <= i < |rows| && OwnerCount(rows[i]) != 1
  }

  /**
   * The two `alter_column` calls as the revision writes them: `existing_type`
   * is VARCHAR(20) and no `postgresql_using` is given, so the engine must
   * convert the stored strings without being told how. PostgreSQL has no
   * assignment cast from a string type to an enum (the cast through the
   * enum's input function is explicit only), so a VARCHAR column is refused
   * whatever it holds; a column that already has the enum type is left as is.
   */
  function AlterColumnsAsWritten(schema: TableSchema): (res: Result<TableSchema, DbError>)
    ensures res.Ok? <==> schema.enumColumns
    ensures res.Ok? ==> res.value == schema
    ensures res.Err? ==> res.error == DatatypeMismatch("calc_type")
  {
    if schema.enumColumns then Ok(schema) else Err(DatatypeMismatch("calc_type"))
  }

  /**
   * The same calls with `postgresql_using="calc_type::calc_type_enum"` and
   * `"status::status_enum"`: every stored label is cast, and the first one
   * outside its enum fails the statement.
   */
  function AlterColumns(schema: TableSchema, rows: seq<QCFileRow>): (res: Result<TableSchema, DbError>)
    ensures res.Ok? <==> !SomeCalcTypeOutsideEnum(rows) && !SomeStatusOutsideEnum(rows)
    ensures res.Ok? ==> res.value == schema.(enumColumns := true)
    ensures res.Err? ==> res.error.InvalidEnumValue?
  {
    if SomeCalcTypeOutsideEnum(rows) then Err(InvalidEnumValue("calc_type"))
    else if SomeStatusOutsideEnum(rows) then Err(InvalidEnumValue("status"))
    else Ok(schema.(enumColumns := true))
  }

  /** The steps after the column typing: the unique constraint, the check constraint, the indexes. */
  function AddConstraints(typed: TableSchema, rows: seq<QCFileRow>): (res: Result<TableSchema, DbError>)
    ensures res.Ok? <==> && !typed.checksumUnique && ChecksumsDistinct(rows)
                         && !typed.ownerCheck && !SomeOwnerCountNotOne(rows)
                         && forall n :: n in MigrationIndexes ==> n !in typed.indexes
    ensures res.Ok? ==> res.value == typed.(checksumUnique := true, ownerCheck := true,
                                            indexes := typed.indexes + set n | n in MigrationIndexes)
  {
    if typed.checksumUnique then Err(DuplicateObject(ChecksumUniqueName))
    else if !ChecksumsDistinct(rows) then Err(UniqueViolation(ChecksumUniqueName))
    else if typed.ownerCheck then Err(DuplicateObject(OwnerCheckName))
    else if SomeOwnerCountNotOne(rows) then Err(CheckViolation(OwnerCheckName))
    else
      assert DistinctNames(MigrationIndexes);
      CreateIndexes(typed.(checksumUnique := true, ownerCheck := true), MigrationIndexes)
  }

  /** The schema changes of the upgrade as written; the column typing already refuses a VARCHAR table. */
  function UpgradeStructureAsWritten(schema: TableSchema, rows: seq<QCFileRow>): (res: Result<TableSchema, DbError>)
    ensures !schema.enumColumns ==> res == Err(DatatypeMismatch("calc_type"))
  {
    match AlterColumnsAsWritten(schema.(enumTypes := true))
    case Err(e) => Err(e)
    case Ok(typed) => AddConstraints(typed, rows)
  }

  /**
   * The schema changes of the upgrade, with the columns cast explicitly:
   * enum types, column typing, constraints, indexes. It succeeds exactly when
   * every stored label is in its enum, the checksums are distinct, every row
   * has one owner and none of the constraints and indexes exists yet.
   */
  function UpgradeStructure(schema: TableSchema, rows: seq<QCFileRow>): (res: Result<TableSchema, DbError>)
    ensures res.Ok? <==> && !SomeCalcTypeOutsideEnum(rows) && !SomeStatusOutsideEnum(rows)
                         && !schema.checksumUnique && ChecksumsDistinct(rows)
                         && !schema.ownerCheck && !SomeOwnerCountNotOne(rows)
                         && forall n :: n in MigrationIndexes ==> n !in schema.indexes
    ensures res.Ok? ==> res.value.enumTypes && res.value.enumColumns && res.value.checksumUnique && res.value.ownerCheck
    ensures res.Ok? ==> res.value.indexes == schema.indexes + set n | n in MigrationIndexes
    ensures res.Ok? && Consistent(schema, rows) ==> Consistent(res.value, rows)
  {
    match AlterColumns(schema.(enumTypes := true), rows)
    case Err(e) => Err(e)
    case Ok(typed) =>
      var res := AddConstraints(typed, rows);
      var full := schema.(enumTypes := true, enumColumns := true, checksumUnique := true, ownerCheck := true);
      assert res.Ok? && Consistent(schema, rows) ==> Consistent(full, rows) by {
        if res.Ok? && Consistent(schema, rows) {
          forall i | 0 <= i < |rows| ensures Admissible(full, rows[i]) {
            assert Admissible(schema, rows[i]);
          }
        }
      }
      assert res.Ok? ==> forall r :: RowError(res.value, r) == RowError(full, r);
      res
  }

  /**
   * As written, the revision cannot upgrade any table still at the previous
   * revision, whatever it holds; with the explicit cast, a table whose
   * labels are in the enums, whose checksums are distinct and whose rows
   * each have one owner passes the structural steps.
   */
  lemma UpgradeAsWrittenRefused(schema: TableSchema, rows: seq<QCFileRow>)
    requires PreRevision(schema)
    ensures UpgradeStructureAsWritten(schema, rows) == Err(DatatypeMismatch("calc_type"))
    ensures UpgradeStructure(schema, rows).Ok?
            <==> !SomeCalcTypeOutsideEnum(rows) && !SomeStatusOutsideEnum(rows) && ChecksumsDistinct(rows) && !SomeOwnerCountNotOne(rows)
  {
  }

  /** The whole upgrade: the schema changes, then the backfill against the new constraints. */
  function Upgrade(schema: TableSchema, rows: seq<QCFileRow>, species: seq<Species>, md5: string -> Digest)
    : (res: Result<(TableSchema, seq<QCFileRow>), DbError>)
    ensures UpgradeStructure(schema, rows).Err? ==> res == Err(UpgradeStructure(schema, rows).error)
    ensures res.Ok? ==> UpgradeStructure(schema, rows) == Ok(res.value.0)
    ensures res.Ok? ==> |rows| <= |res.value.1| && res.value.1[..|rows|] == rows
    ensures res.Ok? && Consistent(schema, rows) ==> Consistent(res.value.0, res.value.1)
  {
    match UpgradeStructure(schema, rows)
    case Err(e) => Err(e)
    case Ok(s) =>
      match Backfill(s, rows, species, md5)
      case Err(e) => Err(e)
      case Ok(after) => Ok((s, after))
  }

  /** The downgrade: it drops the indexes and the constraints and retypes the columns as strings; it has no rows to touch. */
  function Downgrade(schema: TableSchema): (res: Result<TableSchema, DbError>)
    ensures res.Ok? <==> (forall n :: n in MigrationIndexes ==> n in schema.indexes) && schema.ownerCheck && schema.checksumUnique
    ensures res.Err? ==> res.error.UndefinedObject?
    ensures res.Ok? ==> !res.value.enumColumns && !res.value.checksumUnique && !res.value.ownerCheck
    ensures res.Ok? ==> res.value.enumTypes == schema.enumTypes
    ensures res.Ok? ==> res.value.indexes == schema.indexes - set n | n in MigrationIndexes
  {
    match DropIndexes(schema, MigrationIndexes)
    case Err(e) => Err(e)
    case Ok(s) =>
      if !s.ownerCheck then Err(UndefinedObject(OwnerCheckName))
      else if !s.checksumUnique then Err(UndefinedObject(ChecksumUniqueName))
      else Ok(s.(ownerCheck := false, checksumUnique := false, enumColumns := false))
  }

  /** Dropping constraints and retyping enum columns as VARCHAR(20) keeps every row admissible. */
  lemma RelaxKeepsConsistent(schema: TableSchema, relaxed: TableSchema, rows: seq<QCFileRow>)
    requires Consistent(schema, rows)
    requires relaxed.enumTypes == schema.enumTypes && !relaxed.enumColumns
    requires relaxed.ownerCheck ==> schema.ownerCheck
    requires relaxed.checksumUnique ==> schema.checksumUnique
    ensures Consistent(relaxed, rows)
  {
    forall i | 0 <= i < |rows| ensures Admissible(relaxed, rows[i]) {
      var r := rows[i];
      assert Admissible(schema, r);
      if schema.enumColumns {
        var c := ParseCalcType(r.calcType.value).value;
        var st := ParseStatus(r.status.value).value;
        LabelsFitStringTag(c, st);
      }
    }
  }

  /** A table that has never been through this revision. */
  predicate PreRevision(schema: TableSchema)
  {
    && !schema.enumColumns && !schema.checksumUnique && !schema.ownerCheck
    && forall n :: n in MigrationIndexes ==> n !in schema.indexes
  }

  /**
   * Downgrading after a successful upgrade succeeds, restores the structure
   * (the enum types themselves are kept) and keeps every row, the backfilled
   * ones included; the rows still satisfy the relaxed table.
   */
  lemma DowngradeUndoesUpgrade(schema: TableSchema, rows: seq<QCFileRow>, species: seq<Species>, md5: string -> Digest,
                               upgraded: TableSchema, after: seq<QCFileRow>)
    requires PreRevision(schema) && Consistent(schema, rows)
    requires Upgrade(schema, rows, species, md5) == Ok((upgraded, after))
    ensures Downgrade(upgraded) == Ok(schema.(enumTypes := true))
    ensures |rows| <= |after| && after[..|rows|] == rows
    ensures Consistent(schema.(enumTypes := true), after)
  {
    var added := set n | n in MigrationIndexes;
    assert upgraded.indexes - added == schema.indexes;
    assert Consistent(upgraded, rows);
    RelaxKeepsConsistent(upgraded, schema.(enumTypes := true), after);
  }

  // ---------------------------------------------------------------------------
  // The revision, run step by step on the table
  // ---------------------------------------------------------------------------

  /**
   * One `INSERT ... SELECT` statement: the candidates for `ct`, judged against
   * the table as the statement found it, inserted one by one; a rejected row
   * rolls the statement back.
   */
  method InsertSelect(t: QCFileTable, species: seq<Species>, ct: CalcType, md5: string -> Digest) returns (res: Result<(), DbError>)
    requires t.Valid()
    modifies t
    ensures t.Valid() && t.schema == old(t.schema)
    ensures res.Ok? ==> InsertAll(old(t.schema), old(t.rows), Candidates(old(t.rows), species, ct, md5)) == Ok(t.rows)
    ensures res.Err? ==> InsertAll(old(t.schema), old(t.rows), Candidates(old(t.rows), species, ct, md5)) == Err(res.error)
    ensures res.Err? ==> t.rows == old(t.rows)
  {
    var snapshot := t.rows;
    var j := 0;
    while j < |species|
      invariant 0 <= j <= |species|
      invariant t.Valid() && t.schema == old(t.schema) && snapshot == old(t.rows) && Consistent(t.schema, snapshot)
      invariant InsertAll(t.schema, snapshot, Candidates(snapshot, species[..j], ct, md5)) == Ok(t.rows)
    {
      var failed := InsertSelectStep(t, snapshot, species, j, ct, md5);
      if failed.Some? {
        StatementFails(t.schema, snapshot, species, j, ct, md5);
        t.rows := snapshot;
        return Err(failed.value);
      }
      j := j + 1;
    }
    assert species[..j] == species;
    res := Ok(());
  }

  /** The statement's work on species `j`: insert its row if it is selected. */
  method InsertSelectStep(t: QCFileTable, snapshot: seq<QCFileRow>, species: seq<Species>, j: nat, ct: CalcType, md5: string -> Digest)
    returns (failed: Option<DbError>)
    requires t.Valid() && j < |species|
    requires InsertAll(t.schema, snapshot, Candidates(snapshot, species[..j], ct, md5)) == Ok(t.rows)
    modifies t
    ensures t.Valid() && t.schema == old(t.schema)
    ensures failed.None? ==> InsertAll(t.schema, snapshot, Candidates(snapshot, species[..j + 1], ct, md5)) == Ok(t.rows)
    ensures failed.Some? ==> InsertAll(t.schema, snapshot, Candidates(snapshot, species[..j + 1], ct, md5)) == Err(failed.value)
    ensures failed.Some? ==> t.rows == old(t.rows)
  {
    var s := species[j];
    CandidatesStep(snapshot, species, j, ct, md5);
    var cands := Candidates(snapshot, species[..j], ct, md5);
    if HasLegacyPair(s, ct) && !HasSlot(snapshot, s.id, ct) {
      var row := BackfillRow(s, ct, md5);
      ghost var mid := t.rows;
      InsertAllStep(t.schema, snapshot, cands, row, mid);
      var inserted := t.InsertRow(row);
      if inserted.Err? {
        return Some(inserted.error);
      }
      assert TryInsert(t.schema, mid, row) == Ok(t.rows);
    } else {
      assert cands + [] == cands;
    }
    failed := None;
  }

  /** The backfill loop of `upgrade()`: one statement per entry of `CALC_TYPES`. */
  method BackfillTable(t: QCFileTable, species: seq<Species>, md5: string -> Digest) returns (res: Result<(), DbError>)
    requires t.Valid()
    modifies t
    ensures t.Valid() && t.schema == old(t.schema)
    ensures res.Ok? ==> Backfill(old(t.schema), old(t.rows), species, md5) == Ok(t.rows)
    ensures res.Err? ==> Backfill(old(t.schema), old(t.rows), species, md5) == Err(res.error) && t.rows == old(t.rows)
  {
    var start := t.rows;
    var i := 0;
    while i < |CalcTypes|
      invariant 0 <= i <= |CalcTypes|
      invariant t.Valid() && t.schema == old(t.schema) && start == old(t.rows) && Consistent(t.schema, start)
      invariant RunBackfill(t.schema, start, species, md5, CalcTypes[..i]) == Ok(t.rows)
    {
      RunBackfillStep(t.schema, start, species, md5, CalcTypes, i, t.rows);
      var step := InsertSelect(t, species, CalcTypes[i], md5);
      if step.Err? {
        RunBackfillErrExtends(t.schema, start, species, md5, CalcTypes, i + 1);
        t.rows := start;
        return Err(step.error);
      }
      i := i + 1;
    }
    assert CalcTypes[..i] == CalcTypes;
    res := Ok(());
  }

  lemma RunBackfillStep(schema: TableSchema, rows: seq<QCFileRow>, species: seq<Species>, md5: string -> Digest,
                        calcs: seq<CalcType>, i: nat, mid: seq<QCFileRow>)
    requires i < |calcs| && RunBackfill(schema, rows, species, md5, calcs[..i]) == Ok(mid)
    ensures RunBackfill(schema, rows, species, md5, calcs[..i + 1]) == InsertAll(schema, mid, Candidates(mid, species, calcs[i], md5))
  {
    assert calcs[..i + 1][..i] == calcs[..i];
  }

  lemma CandidatesStep(rows: seq<QCFileRow>, species: seq<Species>, j: nat, ct: CalcType, md5: string -> Digest)
    requires j < |species|
    ensures Candidates(rows, species[..j + 1], ct, md5)
            == Candidates(rows, species[..j], ct, md5)
               + (if Selected(rows, species[j], ct) then [BackfillRow(species[j], ct, md5)] else [])
  {
    assert species[..j + 1][..j] == species[..j];
  }

  lemma InsertAllStep(schema: TableSchema, rows: seq<QCFileRow>, xs: seq<QCFileRow>, x: QCFileRow, mid: seq<QCFileRow>)
    requires InsertAll(schema, rows, xs) == Ok(mid)
    ensures InsertAll(schema, rows, xs + [x]) == TryInsert(schema, mid, x)
  {
    assert (xs + [x])[..|xs|] == xs;
  }

  /** A rejected row fails its whole statement, with the row's error. */
  lemma StatementFails(schema: TableSchema, snapshot: seq<QCFileRow>, species: seq<Species>, j: nat, ct: CalcType, md5: string -> Digest)
    requires j < |species| && InsertAll(schema, snapshot, Candidates(snapshot, species[..j + 1], ct, md5)).Err?
    ensures InsertAll(schema, snapshot, Candidates(snapshot, species, ct, md5))
            == InsertAll(schema, snapshot, Candidates(snapshot, species[..j + 1], ct, md5))
  {
    assert species == species[..j + 1] + species[j + 1..];
    CandidatesAppend(snapshot, species[..j + 1], species[j + 1..], ct, md5);
    InsertAllErrExtends(schema, snapshot, Candidates(snapshot, species[..j + 1], ct, md5), Candidates(snapshot, species[j + 1..], ct, md5));
  }

  /** `upgrade()`: each step changes the table; a failing step rolls the whole revision back. */
  method UpgradeTable(t: QCFileTable, species: seq<Species>, md5: string -> Digest) returns (res: Result<(), DbError>)
    requires t.Valid()
    modifies t
    ensures t.Valid()
    ensures res.Ok? ==> Upgrade(old(t.schema), old(t.rows), species, md5) == Ok((t.schema, t.rows))
    ensures res.Err? ==> Upgrade(old(t.schema), old(t.rows), species, md5) == Err(res.error)
    ensures res.Err? ==> t.schema == old(t.schema) && t.rows == old(t.rows)
  {
    var before := t.schema;
    // enum types created with checkfirst: never an error
    t.schema := t.schema.(enumTypes := true);
    // the column typing with the explicit cast of AlterColumns
    if SomeCalcTypeOutsideEnum(t.rows) {
      t.schema := before;
      return Err(InvalidEnumValue("calc_type"));
    }
    if SomeStatusOutsideEnum(t.rows) {
      t.schema := before;
      return Err(InvalidEnumValue("status"));
    }
    t.schema := t.schema.(enumColumns := true);
    if t.schema.checksumUnique {
      t.schema := before;
      return Err(DuplicateObject(ChecksumUniqueName));
    }
    if !ChecksumsDistinct(t.rows) {
      t.schema := before;
      return Err(UniqueViolation(ChecksumUniqueName));
    }
    t.schema := t.schema.(checksumUnique := true);
    if t.schema.ownerCheck {
      t.schema := before;
      return Err(DuplicateObject(OwnerCheckName));
    }
    if SomeOwnerCountNotOne(t.rows) {
      t.schema := before;
      return Err(CheckViolation(OwnerCheckName));
    }
    t.schema := t.schema.(ownerCheck := true);
    var typed := t.schema;
    var failed := CreateMigrationIndexes(t);
    if failed.Some? {
      assert typed == before.(enumTypes := true, enumColumns := true, checksumUnique := true, ownerCheck := true);
      assert UpgradeStructure(before, old(t.rows)) == Err(failed.value);
      t.schema := before;
      return Err(failed.value);
    }
    assert UpgradeStructure(before, old(t.rows)) == Ok(t.schema);
    res := BackfillTable(t, species, md5);
    if res.Err? {
      t.schema := before;
    }
  }

  /** The five `CREATE INDEX` statements of the upgrade, in order; a failing one leaves the indexes as they were. */
  method CreateMigrationIndexes(t: QCFileTable) returns (failed: Option<DbError>)
    modifies t
    ensures t.rows == old(t.rows)
    ensures failed.None? ==> CreateIndexes(old(t.schema), MigrationIndexes) == Ok(t.schema)
    ensures failed.Some? ==> CreateIndexes(old(t.schema), MigrationIndexes) == Err(failed.value) && t.schema == old(t.schema)
  {
    var start := t.schema;
    var k := 0;
    while k < |MigrationIndexes|
      invariant 0 <= k <= |MigrationIndexes|
      invariant t.rows == old(t.rows)
      invariant CreateIndexes(start, MigrationIndexes[..k]) == Ok(t.schema)
    {
      var name := MigrationIndexes[k];
      assert MigrationIndexes[..k + 1][..k] == MigrationIndexes[..k];
      if name in t.schema.indexes {
        assert CreateIndexes(start, MigrationIndexes[..k + 1]) == Err(DuplicateObject(name));
        CreateIndexesErrExtends(start, MigrationIndexes, k + 1);
        t.schema := start;
        return Some(DuplicateObject(name));
      }
      t.schema := t.schema.(indexes := t.schema.indexes + {name});
      k := k + 1;
    }
    assert MigrationIndexes[..k] == MigrationIndexes;
    return None;
  }

  lemma {:induction false} CreateIndexesErrExtends(schema: TableSchema, names: seq<string>, n: nat)
    requires n <= |names| && CreateIndexes(schema, names[..n]).Err?
    ensures CreateIndexes(schema, names) == CreateIndexes(schema, names[..n])
  {
    if n < |names| {
      var init := names[..|names| - 1];
      assert init[..n] == names[..n];
      CreateIndexesErrExtends(schema, init, n);
    } else {
      assert names[..n] == names;
    }
  }

  lemma {:induction false} DropIndexesErrExtends(schema: TableSchema, names: seq<string>, n: nat)
    requires n <= |names| && DropIndexes(schema, names[..n]).Err?
    ensures DropIndexes(schema, names) == DropIndexes(schema, names[..n])
  {
    if n < |names| {
      var init := names[..|names| - 1];
      assert init[..n] == names[..n];
      DropIndexesErrExtends(schema, init, n);
    } else {
      assert names[..n] == names;
    }
  }

  /** `downgrade()`: drops the indexes one by one, then the constraints, then retypes the columns; no row is deleted. */
  method DowngradeTable(t: QCFileTable) returns (res: Result<(), DbError>)
    requires t.Valid()
    modifies t
    ensures t.Valid() && t.rows == old(t.rows)
    ensures res.Ok? ==> Downgrade(old(t.schema)) == Ok(t.schema)
    ensures res.Err? ==> Downgrade(old(t.schema)) == Err(res.error) && t.schema == old(t.schema)
  {
    var before := t.schema;
    var k := 0;
    while k < |MigrationIndexes|
      invariant 0 <= k <= |MigrationIndexes|
      invariant t.rows == old(t.rows)
      invariant DropIndexes(before, MigrationIndexes[..k]) == Ok(t.schema)
    {
      var name := MigrationIndexes[k];
      assert MigrationIndexes[..k + 1][..k] == MigrationIndexes[..k];
      if name !in t.schema.indexes {
        assert DropIndexes(before, MigrationIndexes[..k + 1]) == Err(UndefinedObject(name));
        DropIndexesErrExtends(before, MigrationIndexes, k + 1);
        t.schema := before;
        return Err(UndefinedObject(name));
      }
      t.schema := t.schema.(indexes := t.schema.indexes - {name});
      k := k + 1;
    }
    assert MigrationIndexes[..k] == MigrationIndexes;
    if !t.schema.ownerCheck {
      t.schema := before;
      return Err(UndefinedObject(OwnerCheckName));
    }
    t.schema := t.schema.(ownerCheck := false);
    if !t.schema.checksumUnique {
      t.schema := before;
      return Err(UndefinedObject(ChecksumUniqueName));
    }
    t.schema := t.schema.(checksumUnique := false);
    t.schema := t.schema.(enumColumns := false);
    RelaxKeepsConsistent(before, t.schema, t.rows);
    res := Ok(());
  }
}
