/**
 * The highlighted cells of the ad-set table. Each cell reads its metric with
 * `info.getValue() || 0`, so a missing value is banded as 0, and picks one
 * class by straight-line threshold tests.
 */
module AdSetTable {
  import opened Wrappers

  /** `info.getValue() || 0`. */
  function CellValue(v: Option<real>): real {
    v.GetOr(0.0)
  }

  datatype CpmClass = CpmNormal | CpmWarning | CpmExpensive

  /** The CPM cell: above 80 is very expensive, above 40 up to 80 a warning. */
  function CpmCell(v: Option<real>): (c: CpmClass)
    ensures c == CpmExpensive <==> CellValue(v) > 80.0
    ensures c == CpmWarning <==> 40.0 < CellValue(v) <= 80.0
    ensures c == CpmNormal <==> CellValue(v) <= 40.0
  {
    var val := CellValue(v);
    if val > 80.0 then CpmExpensive
    else if val > 40.0 && val <= 80.0 then CpmWarning
    else CpmNormal
  }

  function CpmSeverity(c: CpmClass): nat {
    match c
    case CpmNormal => 0
    case CpmWarning => 1
    case CpmExpensive => 2
  }

  /** A dearer CPM is never flagged milder than a cheaper one. */
  lemma CpmCellMonotone(x: real, y: real)
    requires x <= y
    ensures CpmSeverity(CpmCell(Some(x))) <= CpmSeverity(CpmCell(Some(y)))
  {
  }

  datatype CtrClass = CtrLow | CtrNormal | CtrHigh

  /** The CTR cell: below 1 is low, 2 or more is high. */
  function CtrCell(v: Option<real>): (c: CtrClass)
    ensures c == CtrLow <==> CellValue(v) < 1.0
    ensures c == CtrHigh <==> CellValue(v) >= 2.0
    ensures c == CtrNormal <==> 1.0 <= CellValue(v) < 2.0
  {
    var val := CellValue(v);
    if val < 1.0 then CtrLow
    else if val >= 2.0 then CtrHigh
    else CtrNormal
  }

  function CtrRank(c: CtrClass): nat {
    match c
    case CtrLow => 0
    case CtrNormal => 1
    case CtrHigh => 2
  }

  /** A higher CTR never gets a worse class than a lower one. */
  lemma CtrCellMonotone(x: real, y: real)
    requires x <= y
    ensures CtrRank(CtrCell(Some(x))) <= CtrRank(CtrCell(Some(y)))
  {
  }

  datatype CpaClass = CpaGood | CpaNeutral | CpaBad

  /** The CPA cell: a positive CPA below 20 is good, above 50 bad; 0 (no conversions) is neutral. */
  function CpaCell(v: Option<real>): (c: CpaClass)
    ensures c == CpaGood <==> 0.0 < CellValue(v) < 20.0
    ensures c == CpaBad <==> CellValue(v) > 50.0
    ensures c == CpaNeutral <==> CellValue(v) <= 0.0 || 20.0 <= CellValue(v) <= 50.0
  {
    var val := CellValue(v);
    if val > 0.0 && val < 20.0 then CpaGood
    else if val > 50.0 then CpaBad
    else CpaNeutral
  }

  /** Among positive CPAs, a dearer one is never classed better than a cheaper one. */
  lemma CpaCellMonotone(x: real, y: real)
    requires 0.0 < x <= y
    ensures CpaCell(Some(y)) == CpaGood ==> CpaCell(Some(x)) == CpaGood
    ensures CpaCell(Some(x)) == CpaBad ==> CpaCell(Some(y)) == CpaBad
  {
  }

  /** The frequency cell: a frequency above 3 marks the ad set as fatigued. */
  function IsFatigued(v: Option<real>): (fatigued: bool)
    ensures fatigued <==> v.Some? && v.value > 3.0
  {
    CellValue(v) > 3.0
  }
}
