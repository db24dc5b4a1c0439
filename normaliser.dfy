/**
 * The response normaliser of the capacity lookup service: each facility
 * record of the lookup response's `dlt_resultList` expands into one row per
 * grid stage present (substation always, main transformer when MTR_CAPA > 0,
 * distribution line when DL_CAPA > 0), every row carrying the chain's final
 * connectable capacity and status.
 */
module Normaliser {
  import opened Wrappers
  import opened Capacity

  /**
   * One facility record of the lookup response. Numeric fields are the
   * already-parsed integers, an absent key being 0; the name fields are
   * absent (None) or present.
   */
  datatype Record = Record(
    substName: Option<string>,  // SUBST_NM
    mtrNo: Option<string>,      // MTR_NO
    dlName: Option<string>,     // DL_NM
    substCapa: int,             // SUBST_CAPA: substation standard capacity
    gSubstCapa: int,            // G_SUBST_CAPA: substation plan-reflected capacity
    substPwr: int,              // SUBST_PWR: substation received capacity
    mtrCapa: int,               // MTR_CAPA
    gMtrCapa: int,              // G_MTR_CAPA
    mtrPwr: int,                // MTR_PWR
    dlCapa: int,                // DL_CAPA
    gDlCapa: int,               // G_DL_CAPA
    dlPwr: int,                 // DL_PWR
    vol1: int,                  // VOL_1: substation spare capacity
    vol2: int,                  // VOL_2: main transformer spare capacity
    vol3: int                   // VOL_3: distribution line spare capacity
  )

  /** The lookup response: `dlt_resultList` when that key is present, and
      whether the body holds any other key (an empty body reads as no answer). */
  datatype Response = Response(resultList: Option<seq<Record>>, hasOtherKeys: bool) {
    predicate IsEmpty() { resultList.None? && !hasOtherKeys }
  }

  /** The grid stage a row describes, in chain order. */
  datatype Stage = Substation | Transformer | Line

  function Rank(s: Stage): nat {
    match s
    case Substation => 0
    case Transformer => 1
    case Line => 2
  }

  /**
   * One normalised row. Field comments give the column it fills.
   */
  datatype Row = Row(
    stage: Stage,               // which raw fields the row preserves
    substation: string,         // 변전소
    transformer: string,        // 주변압기
    line: string,               // 배전선로
    standardCapacity: int,      // 접속기준용량(kW)
    receivedCapacity: int,      // 접수기준접속용량(kW)
    plannedCapacity: int,       // 접속계획반영접속용량(kW)
    spare: int,                 // 여유용량(kW)
    plannedSpare: int,          // 접속계획반영여유용량(kW)
    finalCapacity: int,         // 최종접속가능용량
    status: Status              // 상태
  )

  /** The record's figures for one stage: standard, received, plan-reflected and spare capacity. */
  function StandardOf(rec: Record, s: Stage): int {
    match s
    case Substation => rec.substCapa
    case Transformer => rec.mtrCapa
    case Line => rec.dlCapa
  }

  function ReceivedOf(rec: Record, s: Stage): int {
    match s
    case Substation => rec.substPwr
    case Transformer => rec.mtrPwr
    case Line => rec.dlPwr
  }

  function PlannedOf(rec: Record, s: Stage): int {
    match s
    case Substation => rec.gSubstCapa
    case Transformer => rec.gMtrCapa
    case Line => rec.gDlCapa
  }

  function SpareOf(rec: Record, s: Stage): int {
    match s
    case Substation => rec.vol1
    case Transformer => rec.vol2
    case Line => rec.vol3
  }

  /** A row agrees with the record it came from and with the chain's values:
      its identity columns, its stage's figures, and the shared chain values. */
  predicate RowOf(rec: Record, row: Row) {
    && row.substation == SubstationLabel(rec)
    && row.transformer == (if row.stage == Substation then "-" else TransformerLabel(rec))
    && row.line == (if row.stage == Line then rec.dlName.GetOr("-") else "-")
    && row.standardCapacity == StandardOf(rec, row.stage)
    && row.receivedCapacity == ReceivedOf(rec, row.stage)
    && row.plannedCapacity == PlannedOf(rec, row.stage)
    && row.spare == SpareOf(rec, row.stage)
    && row.plannedSpare == PlanReflectedSpare(row.standardCapacity, row.plannedCapacity)
    && row.finalCapacity == FinalCapacity(rec.vol1, rec.vol2, rec.vol3)
    && row.status == StatusOf(row.finalCapacity)
  }

  /** Display labels, with the source's defaults for absent names. */
  function SubstationLabel(rec: Record): string { rec.substName.GetOr("") + "변전소" }
  function TransformerLabel(rec: Record): string { "#" + rec.mtrNo.GetOr("-") }

  function SubstationRow(rec: Record, final: int, status: Status): Row {
    Row(Substation, SubstationLabel(rec), "-", "-",
        rec.substCapa, rec.substPwr, rec.gSubstCapa, rec.vol1,
        PlanReflectedSpare(rec.substCapa, rec.gSubstCapa), final, status)
  }

  function TransformerRow(rec: Record, final: int, status: Status): Row {
    Row(Transformer, SubstationLabel(rec), TransformerLabel(rec), "-",
        rec.mtrCapa, rec.mtrPwr, rec.gMtrCapa, rec.vol2,
        PlanReflectedSpare(rec.mtrCapa, rec.gMtrCapa), final, status)
  }

  function LineRow(rec: Record, final: int, status: Status): Row {
    Row(Line, SubstationLabel(rec), TransformerLabel(rec), rec.dlName.GetOr("-"),
        rec.dlCapa, rec.dlPwr, rec.gDlCapa, rec.vol3,
        PlanReflectedSpare(rec.dlCapa, rec.gDlCapa), final, status)
  }

  /** How many rows a record expands into. */
  function RowCount(rec: Record): nat {
    1 + (if rec.mtrCapa > 0 then 1 else 0) + (if rec.dlCapa > 0 then 1 else 0)
  }

  /**
   * The rows of one record: substation, then main transformer if MTR_CAPA > 0,
   * then distribution line if DL_CAPA > 0, all sharing the chain's final
   * capacity and status.
   */
  function ExpandRecord(rec: Record): (r: seq<Row>)
    ensures |r| == RowCount(rec)
  {
    var final := FinalCapacity(rec.vol1, rec.vol2, rec.vol3);
    var status := StatusOf(final);
    [SubstationRow(rec, final, status)]
      + (if rec.mtrCapa > 0 then [TransformerRow(rec, final, status)] else [])
      + (if rec.dlCapa > 0 then [LineRow(rec, final, status)] else [])
  }

  /**
   * The shape of one record's rows: one to three of them, the substation row
   * first, a transformer row exactly when MTR_CAPA > 0, a line row exactly
   * when DL_CAPA > 0, in chain order, each agreeing with the record and all
   * sharing the chain's final capacity and status.
   */
  lemma ExpandRecordShape(rec: Record)
    ensures var r := ExpandRecord(rec);
      && 1 <= |r| <= 3
      && r[0].stage == Substation && r[0].substation == SubstationLabel(rec)
      && ((exists i :: 0 <= i < |r| && r[i].stage == Transformer) <==> rec.mtrCapa > 0)
      && ((exists i :: 0 <= i < |r| && r[i].stage == Line) <==> rec.dlCapa > 0)
      && (forall i, j :: 0 <= i < j < |r| ==> Rank(r[i].stage) < Rank(r[j].stage))
      && (forall i :: 0 <= i < |r| ==> RowOf(rec, r[i]))
      && (forall i, j :: 0 <= i < |r| && 0 <= j < |r| ==>
            r[i].finalCapacity == r[j].finalCapacity && r[i].status == r[j].status)
  {
    var r := ExpandRecord(rec);
    if rec.mtrCapa > 0 {
      assert r[1].stage == Transformer;
    }
    if rec.dlCapa > 0 {
      assert r[|r| - 1].stage == Line;
    }
  }

  /** The rows of a list of records, in input order. */
  function FormatRecords(rs: seq<Record>): seq<Row> {
    if rs == [] then []
    else FormatRecords(rs[..|rs| - 1]) + ExpandRecord(rs[|rs| - 1])
  }

  /** The normalised rows of a whole response; no `dlt_resultList` gives no rows. */
  function FormattedRows(resp: Response): (r: seq<Row>)
    ensures resp.resultList.None? ==> r == []
  {
    match resp.resultList
    case None => []
    case Some(rs) => FormatRecords(rs)
  }

  /**
   * The normaliser as the service runs it: walk `dlt_resultList` and append
   * each record's rows to the output.
   */
  method FormatApiResponse(resp: Response) returns (rows: seq<Row>)
    ensures rows == FormattedRows(resp)
  {
    rows := [];
    if resp.resultList.Some? {
      var records := resp.resultList.value;
      var i := 0;
      while i < |records|
        invariant 0 <= i <= |records|
        invariant rows == FormatRecords(records[..i])
      {
        var rec := records[i];
        var final := FinalCapacity(rec.vol1, rec.vol2, rec.vol3);
        var status := StatusOf(final);
        rows := rows + [SubstationRow(rec, final, status)];
        if rec.mtrCapa > 0 {
          rows := rows + [TransformerRow(rec, final, status)];
        }
        if rec.dlCapa > 0 {
          rows := rows + [LineRow(rec, final, status)];
        }
        assert rows == FormatRecords(records[..i]) + ExpandRecord(rec);
        assert records[..i + 1][..i] == records[..i];
        i := i + 1;
      }
      assert records[..i] == records;
    }
  }

  // ---------------------------------------------------------------------
  // Properties of the normaliser

  /** Total number of rows a list of records expands into. */
  function TotalRows(rs: seq<Record>): nat {
    if rs == [] then 0 else TotalRows(rs[..|rs| - 1]) + RowCount(rs[|rs| - 1])
  }

  /** How many rows of `rows` describe stage `s`. */
  function CountStage(rows: seq<Row>, s: Stage): nat {
    if rows == [] then 0
    else CountStage(rows[..|rows| - 1], s) + (if rows[|rows| - 1].stage == s then 1 else 0)
  }

  /** Normalising a concatenation concatenates the normalised parts: records
      are processed independently and in order. */
  lemma {:induction false} FormatRecordsAppend(a: seq<Record>, b: seq<Record>)
    ensures FormatRecords(a + b) == FormatRecords(a) + FormatRecords(b)
    decreases |b|
  {
    if b == [] {
      assert a + b == a;
    } else {
      var b', last := b[..|b| - 1], b[|b| - 1];
      assert (a + b)[..|a + b| - 1] == a + b';
      assert (a + b)[|a + b| - 1] == last;
      var rows := ExpandRecord(last);
      calc {
        FormatRecords(a + b);
        FormatRecords(a + b') + rows;
        { FormatRecordsAppend(a, b'); }
        (FormatRecords(a) + FormatRecords(b')) + rows;
        FormatRecords(a) + (FormatRecords(b') + rows);
        FormatRecords(a) + FormatRecords(b);
      }
    }
  }

  /** The rows of record `j` sit between the rows of the records before it and
      those after it. */
  lemma FormatRecordsOrder(rs: seq<Record>, j: nat)
    requires j < |rs|
    ensures FormatRecords(rs) == FormatRecords(rs[..j]) + ExpandRecord(rs[j]) + FormatRecords(rs[j + 1..])
  {
    var pre, here, post := rs[..j], [rs[j]], rs[j + 1..];
    SplitAt(rs, j);
    calc {
      FormatRecords(rs);
      { FormatRecordsAppend(pre + here, post); }
      FormatRecords(pre + here) + FormatRecords(post);
      { FormatRecordsAppend(pre, here); }
      FormatRecords(pre) + FormatRecords(here) + FormatRecords(post);
      { FormatRecordsSingle(rs[j]); }
      FormatRecords(pre) + ExpandRecord(rs[j]) + FormatRecords(post);
    }
  }

  lemma FormatRecordsSingle(rec: Record)
    ensures FormatRecords([rec]) == ExpandRecord(rec)
  {
  }

  /** A sequence is its prefix, the element at `j` and its suffix. */
  lemma SplitAt<T>(s: seq<T>, j: nat)
    requires j < |s|
    ensures s == (s[..j] + [s[j]]) + s[j + 1..]
  {
  }

  /** The output length is the sum of the per-record row counts, between one
      and three rows per record. */
  lemma {:induction false} FormatRecordsLength(rs: seq<Record>)
    ensures |FormatRecords(rs)| == TotalRows(rs)
    ensures |rs| <= TotalRows(rs) <= 3 * |rs|
  {
    if rs != [] {
      FormatRecordsLength(rs[..|rs| - 1]);
    }
  }

  lemma {:induction false} CountStageAppend(x: seq<Row>, y: seq<Row>, s: Stage)
    ensures CountStage(x + y, s) == CountStage(x, s) + CountStage(y, s)
    decreases |y|
  {
    if y == [] {
      assert x + y == x;
    } else {
      var y' := y[..|y| - 1];
      assert (x + y)[..|x + y| - 1] == x + y';
      CountStageAppend(x, y', s);
    }
  }

  /** Counting the stages of one record's rows. */
  lemma ExpandRecordStageCounts(rec: Record)
    ensures CountStage(ExpandRecord(rec), Substation) == 1
    ensures CountStage(ExpandRecord(rec), Transformer) == (if rec.mtrCapa > 0 then 1 else 0)
    ensures CountStage(ExpandRecord(rec), Line) == (if rec.dlCapa > 0 then 1 else 0)
  {
    var r := ExpandRecord(rec);
    var final := FinalCapacity(rec.vol1, rec.vol2, rec.vol3);
    var status := StatusOf(final);
    var first := [SubstationRow(rec, final, status)];
    var second := if rec.mtrCapa > 0 then [TransformerRow(rec, final, status)] else [];
    var third := if rec.dlCapa > 0 then [LineRow(rec, final, status)] else [];
    forall s: Stage
      ensures CountStage(r, s) == CountStage(first, s) + CountStage(second, s) + CountStage(third, s)
    {
      CountStageAppend(first, second, s);
      CountStageAppend(first + second, third, s);
    }
    assert first[..0] == [];
    assert rec.mtrCapa > 0 ==> second[..0] == [];
    assert rec.dlCapa > 0 ==> third[..0] == [];
  }

  /** Exactly one substation row per record; a transformer row per record
      with MTR_CAPA > 0; a line row per record with DL_CAPA > 0. */
  lemma {:induction false} StageRowsPerRecord(rs: seq<Record>)
    ensures CountStage(FormatRecords(rs), Substation) == |rs|
    ensures CountStage(FormatRecords(rs), Transformer) == |set i | 0 <= i < |rs| && rs[i].mtrCapa > 0|
    ensures CountStage(FormatRecords(rs), Line) == |set i | 0 <= i < |rs| && rs[i].dlCapa > 0|
  {
    if rs != [] {
      var n := |rs| - 1;
      var init, rows := rs[..n], ExpandRecord(rs[n]);
      StageRowsPerRecord(init);
      ExpandRecordStageCounts(rs[n]);
      assert FormatRecords(rs) == FormatRecords(init) + rows;
      CountStageAppend(FormatRecords(init), rows, Substation);
      CountStageAppend(FormatRecords(init), rows, Transformer);
      CountStageAppend(FormatRecords(init), rows, Line);
      TransformerIndexSetGrows(rs);
      LineIndexSetGrows(rs);
    }
  }

  /** Adding a record to the end of the list adds its index to the set of
      records with a transformer exactly when it has one. */
  lemma TransformerIndexSetGrows(rs: seq<Record>)
    requires rs != []
    ensures var n := |rs| - 1;
      |set i | 0 <= i < |rs| && rs[i].mtrCapa > 0|
        == |set i | 0 <= i < n && rs[..n][i].mtrCapa > 0| + (if rs[n].mtrCapa > 0 then 1 else 0)
  {
    var n := |rs| - 1;
    var before := set i | 0 <= i < n && rs[..n][i].mtrCapa > 0;
    var after := set i | 0 <= i < |rs| && rs[i].mtrCapa > 0;
    assert after == before + (if rs[n].mtrCapa > 0 then {n} else {});
  }

  /** The same for records with a distribution line. */
  lemma LineIndexSetGrows(rs: seq<Record>)
    requires rs != []
    ensures var n := |rs| - 1;
      |set i | 0 <= i < |rs| && rs[i].dlCapa > 0|
        == |set i | 0 <= i < n && rs[..n][i].dlCapa > 0| + (if rs[n].dlCapa > 0 then 1 else 0)
  {
    var n := |rs| - 1;
    var before := set i | 0 <= i < n && rs[..n][i].dlCapa > 0;
    var after := set i | 0 <= i < |rs| && rs[i].dlCapa > 0;
    assert after == before + (if rs[n].dlCapa > 0 then {n} else {});
  }

  /** Every row of the output is consistent with the record it came from:
      rows of record `j` carry record `j`'s final capacity and status, and
      their plan-reflected spare is computed from their own figures. */
  lemma RowsBelongToTheirRecord(rs: seq<Record>, j: nat, k: nat)
    requires j < |rs| && k < RowCount(rs[j])
    ensures |FormatRecords(rs[..j])| + k < |FormatRecords(rs)|
    ensures FormatRecords(rs)[|FormatRecords(rs[..j])| + k] == ExpandRecord(rs[j])[k]
    ensures RowOf(rs[j], FormatRecords(rs)[|FormatRecords(rs[..j])| + k])
  {
    var pre, e, post := FormatRecords(rs[..j]), ExpandRecord(rs[j]), FormatRecords(rs[j + 1..]);
    FormatRecordsOrder(rs, j);
    assert FormatRecords(rs) == pre + e + post;
    assert (pre + e + post)[|pre| + k] == e[k];
    ExpandRecordShape(rs[j]);
  }

  /** Every output row satisfies the row invariants: non-negative final
      capacity, status Normal exactly when it is positive, and plan-reflected
      spare equal to standard minus plan-reflected capacity when both are positive. */
  lemma {:induction false} OutputRowsConsistent(rs: seq<Record>)
    ensures forall row :: row in FormatRecords(rs) ==>
      && row.finalCapacity >= 0
      && (row.status == Normal <==> row.finalCapacity > 0)
      && row.plannedSpare == PlanReflectedSpare(row.standardCapacity, row.plannedCapacity)
  {
    if rs != [] {
      OutputRowsConsistent(rs[..|rs| - 1]);
    }
  }
}
