/**
  The size mapping: an ordered table of (upper bound, label) pairs scanned in
  ascending order; a volume gets the label of the first bound it does not
  exceed. The table ends in a catch-all entry with no bound.
 */
module Sizing {

  /** An inclusive upper bound on the volume, or none at all (the catch-all). */
  datatype Bound = AtMost(threshold: real) | Unbounded

  datatype SizeEntry = SizeEntry(bound: Bound, size: string)

  /** The label of the catch-all entry, for volumes above every threshold. */
  const CatchAllLabel := "Size Check Required"

  /**
    The calibrated size table, in scanning order. The labels do not follow
    a clean cup progression (32D comes before 34D before 36C): the order is
    that of the observed volume ranges.
   */
  const VolumeSizeMap: seq<SizeEntry> := [
    SizeEntry(AtMost(2.5), "32A"),
    SizeEntry(AtMost(3.5), "32B"),
    SizeEntry(AtMost(4.5), "34B"),
    SizeEntry(AtMost(5.5), "32C"),
    SizeEntry(AtMost(6.5), "34C"),
    SizeEntry(AtMost(7.5), "36B"),
    SizeEntry(AtMost(8.5), "32D"),
    SizeEntry(AtMost(9.5), "34D"),
    SizeEntry(AtMost(10.5), "36C"),
    SizeEntry(AtMost(11.5), "38B"),
    SizeEntry(AtMost(12.5), "34DD"),
    SizeEntry(AtMost(13.5), "36D"),
    SizeEntry(AtMost(14.5), "38C"),
    SizeEntry(AtMost(16.0), "40C"),
    SizeEntry(AtMost(18.0), "36DD"),
    SizeEntry(AtMost(20.0), "38D"),
    SizeEntry(Unbounded, CatchAllLabel)
  ]

  /** The volume does not exceed the bound. */
  predicate Admits(bound: Bound, v: real) {
    bound.Unbounded? || v <= bound.threshold
  }

  /**
    The position of the first entry whose bound admits `v`, or `|table|` when
    none does: every earlier entry rejects `v`.
   */
  function FirstFit(table: seq<SizeEntry>, v: real): (i: nat)
    ensures i <= |table|
    ensures i < |table| ==> Admits(table[i].bound, v)
    ensures forall j :: 0 <= j < i ==> !Admits(table[j].bound, v)
    decreases |table|
  {
    if |table| == 0 then 0
    else if Admits(table[0].bound, v) then 0
    else
      var rest := FirstFit(table[1..], v);
      assert forall j :: 1 <= j < 1 + rest ==> table[j] == table[1..][j - 1];
      1 + rest
  }

  /** The labels of a table. */
  function Labels(table: seq<SizeEntry>): set<string> {
    set e | e in table :: e.size
  }

  /**
    The recommended size for an adjusted volume: the label of the first table
    entry whose bound the volume does not exceed. It is always one of the
    table's labels, never the empty string. The fallback after the scan is
    not needed: `CatchAllFits` shows the scan always stops inside the table.
   */
  function VolumeToBraSize(volumeAdjusted: real): (recommended: string)
    ensures recommended in Labels(VolumeSizeMap)
    ensures recommended != ""
  {
    var i := FirstFit(VolumeSizeMap, volumeAdjusted);
    CatchAllFits(VolumeSizeMap, volumeAdjusted);
    LabelsNonEmpty();
    assert VolumeSizeMap[i] in VolumeSizeMap;
    VolumeSizeMap[i].size
  }

  /** A table ending in the catch-all admits every volume at some entry. */
  lemma CatchAllFits(table: seq<SizeEntry>, v: real)
    requires 0 < |table| && table[|table| - 1].bound.Unbounded?
    ensures FirstFit(table, v) < |table|
  {
    assert Admits(table[|table| - 1].bound, v);
  }

  /** No label of the calibrated table is empty. */
  lemma LabelsNonEmpty()
    ensures forall e :: e in VolumeSizeMap ==> e.size != ""
  {
  }

  /** `a` is a finite bound below `b`. */
  predicate Below(a: Bound, b: Bound) {
    a.AtMost? && (b.Unbounded? || a.threshold < b.threshold)
  }

  /** Each bound is finite and below the next one; only the last may be the catch-all. */
  predicate AscendingSteps(table: seq<SizeEntry>) {
    forall i :: 0 <= i < |table| - 1 ==> Below(table[i].bound, table[i + 1].bound)
  }

  /** Every bound is finite and below every later one. */
  predicate Ascending(table: seq<SizeEntry>) {
    forall i, j :: 0 <= i < j < |table| ==> Below(table[i].bound, table[j].bound)
  }

  /** No label appears twice. */
  predicate DistinctLabels(table: seq<SizeEntry>) {
    forall i, j :: 0 <= i < j < |table| ==> table[i].size != table[j].size
  }

  /** Ascending steps make the whole table ascending. */
  lemma {:induction false} StepsAscending(table: seq<SizeEntry>)
    requires AscendingSteps(table)
    ensures Ascending(table)
  {
    if |table| > 1 {
      var rest := table[1..];
      assert AscendingSteps(rest) by {
        forall i | 0 <= i < |rest| - 1
          ensures Below(rest[i].bound, rest[i + 1].bound)
        {
          assert rest[i] == table[i + 1] && rest[i + 1] == table[i + 2];
        }
      }
      StepsAscending(rest);
      forall i, j | 0 <= i < j < |table|
        ensures Below(table[i].bound, table[j].bound)
      {
        if 0 < i {
          assert table[i] == rest[i - 1] && table[j] == rest[j - 1];
        } else if 1 < j {
          assert table[1] == rest[0] && table[j] == rest[j - 1];
        }
      }
    }
  }

  /**
    The calibrated table is well formed: thresholds strictly increase, the
    catch-all comes last, and every label is different.
   */
  lemma SizeMapWellFormed()
    ensures Ascending(VolumeSizeMap)
    ensures VolumeSizeMap[|VolumeSizeMap| - 1].bound.Unbounded?
    ensures DistinctLabels(VolumeSizeMap)
  {
    assert AscendingSteps(VolumeSizeMap);
    StepsAscending(VolumeSizeMap);
    SizeMapDistinctLabels();
  }

  /** Every label of the calibrated table is different. */
  lemma SizeMapDistinctLabels()
    ensures DistinctLabels(VolumeSizeMap)
  {
    DistinctLabelsFrom(0, 8);
    DistinctLabelsFrom(8, |VolumeSizeMap|);
  }

  /** The labels of entries `lo` to `hi - 1` differ from every later label. */
  lemma DistinctLabelsFrom(lo: nat, hi: nat)
    requires (lo, hi) == (0, 8) || (lo, hi) == (8, |VolumeSizeMap|)
    ensures forall i, j :: lo <= i < hi && i < j < |VolumeSizeMap| ==> VolumeSizeMap[i].size != VolumeSizeMap[j].size
  {
  }

  /**
    A larger volume never lands on an earlier entry, for any table: an entry
    that admits a volume admits every smaller one.
   */
  lemma {:induction false} FirstFitMonotonic(table: seq<SizeEntry>, v1: real, v2: real)
    requires v1 <= v2
    ensures FirstFit(table, v1) <= FirstFit(table, v2)
    decreases |table|
  {
    if |table| > 0 && !Admits(table[0].bound, v1) {
      FirstFitMonotonic(table[1..], v1, v2);
    }
  }

  /**
    In an ascending table the first fit is entry `k` exactly when `v` lies in
    entry `k`'s band: at most its bound and above the previous entry's bound.
   */
  lemma FirstFitBand(table: seq<SizeEntry>, k: nat, v: real)
    requires Ascending(table)
    requires k < |table|
    ensures FirstFit(table, v) == k <==> Admits(table[k].bound, v) && (k == 0 || !Admits(table[k - 1].bound, v))
  {
    var i := FirstFit(table, v);
    if Admits(table[k].bound, v) && (k == 0 || !Admits(table[k - 1].bound, v)) {
      if i < k {
        assert false;
      }
    }
  }

  /**
    The recommended size is the label of entry `k` exactly when the volume
    lies in entry `k`'s band.
   */
  lemma SizeBand(v: real, k: nat)
    requires k < |VolumeSizeMap|
    ensures VolumeToBraSize(v) == VolumeSizeMap[k].size <==>
      Admits(VolumeSizeMap[k].bound, v) && (k == 0 || !Admits(VolumeSizeMap[k - 1].bound, v))
  {
    SizeMapWellFormed();
    FirstFitBand(VolumeSizeMap, k, v);
    FirstFitBand(VolumeSizeMap, |VolumeSizeMap| - 1, v);
  }

  /** The boundary cases of the table; bounds are inclusive. */
  lemma SizeBoundaries(v: real)
    ensures v <= 2.5 ==> VolumeToBraSize(v) == "32A"
    ensures VolumeToBraSize(2.50001) == "32B"
    ensures VolumeToBraSize(20.0) == "38D"
    ensures 20.0 < v ==> VolumeToBraSize(v) == CatchAllLabel
  {
    SizeBand(2.50001, 1);
    SizeBand(20.0, 15);
    SizeBand(v, 16);
  }

  /** A larger volume never maps to an earlier entry of the calibrated table. */
  lemma SizeMonotonic(v1: real, v2: real)
    requires v1 <= v2
    ensures FirstFit(VolumeSizeMap, v1) <= FirstFit(VolumeSizeMap, v2)
  {
    FirstFitMonotonic(VolumeSizeMap, v1, v2);
  }
}
