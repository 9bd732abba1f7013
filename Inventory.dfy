/**
 * The inventory snapshot: rows normalised from the uploaded CSV, the set of
 * valid bins built from them, and item lookup.
 */
module Inventory {
  import opened Wrappers
  import opened Text

  /** One parsed CSV record; a column the record lacks is `None`. */
  datatype RawRow = RawRow(
    itemId: Option<string>,        // "Item ID"
    bin: Option<string>,           // "Warehouse Bin ID"
    received: Option<string>,      // "Received At Warehouse"
    status: Option<string>,        // "Status"
    category: Option<string>,      // "Category"
    subcategory: Option<string>)   // "Subcategory"

  /** A stored inventory row. */
  datatype Row = Row(itemId: string, bin: string, received: string, status: string,
                     category: string, subcategory: string)

  /** `(value || "")`: a missing column reads as the empty string. */
  function OrEmpty(o: Option<string>): (v: string)
    ensures v == "" <==> o.None? || o.value == ""
    ensures o.Some? ==> v == o.value
  {
    if o.Some? then o.value else ""
  }

  /** Normalises one record: ids trimmed and upper-cased, the display fields trimmed only. */
  function NormalizeRow(raw: RawRow): (row: Row)
    ensures raw.itemId.None? ==> row.itemId == ""
    ensures raw.bin.None? ==> row.bin == ""
    ensures |row.itemId| <= |OrEmpty(raw.itemId)| && |row.bin| <= |OrEmpty(raw.bin)|
  {
    Row(NormalizeId(OrEmpty(raw.itemId)), NormalizeId(OrEmpty(raw.bin)),
        Trim(OrEmpty(raw.received)), Trim(OrEmpty(raw.status)),
        Trim(OrEmpty(raw.category)), Trim(OrEmpty(raw.subcategory)))
  }

  /**
   * A stored row has normal ids and trimmed display fields; an id that was
   * already normal is stored as it came, and a missing column is stored empty.
   */
  lemma NormalizedRowFields(raw: RawRow)
    ensures var r := NormalizeRow(raw);
            && IsNormalId(r.itemId) && IsNormalId(r.bin)
            && IsTrimmed(r.received) && IsTrimmed(r.status)
            && IsTrimmed(r.category) && IsTrimmed(r.subcategory)
            && (IsNormalId(OrEmpty(raw.itemId)) ==> r.itemId == OrEmpty(raw.itemId))
            && (IsNormalId(OrEmpty(raw.bin)) ==> r.bin == OrEmpty(raw.bin))
            && (raw.itemId.None? ==> r.itemId == "")
            && (raw.bin.None? ==> r.bin == "")
  {
    NormalizeIdIsNormal(OrEmpty(raw.itemId));
    NormalizeIdIsNormal(OrEmpty(raw.bin));
    NormalizeFixedPoints(OrEmpty(raw.itemId));
    NormalizeFixedPoints(OrEmpty(raw.bin));
  }

  /** The stored rows of an upload: each record normalised, in order. */
  function NormalizeRows(raw: seq<RawRow>): (rows: seq<Row>)
    ensures |rows| == |raw|
  {
    if raw == [] then [] else NormalizeRows(raw[..|raw| - 1]) + [NormalizeRow(raw[|raw| - 1])]
  }

  /** Row `i` of an upload is stored as record `i` normalised. */
  lemma {:induction false} NormalizeRowsAt(raw: seq<RawRow>, i: nat)
    requires i < |raw|
    ensures NormalizeRows(raw)[i] == NormalizeRow(raw[i])
  {
    if i < |raw| - 1 {
      NormalizeRowsAt(raw[..|raw| - 1], i);
    }
  }

  /**
   * After an upload every stored id is the trimmed, upper-cased value of its
   * column, and the valid bins are exactly the non-empty normalised bins.
   */
  lemma IngestNormalizes(raw: seq<RawRow>)
    ensures var rows := NormalizeRows(raw);
            && (forall i :: 0 <= i < |raw| ==>
                  && rows[i].itemId == NormalizeId(OrEmpty(raw[i].itemId))
                  && rows[i].bin == NormalizeId(OrEmpty(raw[i].bin))
                  && IsNormalId(rows[i].itemId) && IsNormalId(rows[i].bin))
            && (forall b :: b in ValidBins(rows) <==>
                  b != "" && exists i :: 0 <= i < |raw| && NormalizeId(OrEmpty(raw[i].bin)) == b)
  {
    var rows := NormalizeRows(raw);
    forall i | 0 <= i < |raw|
      ensures rows[i] == NormalizeRow(raw[i]) && IsNormalId(rows[i].itemId) && IsNormalId(rows[i].bin)
    {
      NormalizeRowsAt(raw, i);
      NormalizedRowFields(raw[i]);
    }
  }

  /** Reading one more record appends its normalised row. */
  lemma NormalizeRowsExtend(raw: seq<RawRow>, i: nat)
    requires i < |raw|
    ensures NormalizeRows(raw[..i + 1]) == NormalizeRows(raw[..i]) + [NormalizeRow(raw[i])]
  {
    assert raw[..i + 1][..i] == raw[..i];
  }

  /** The upload's `data` handler: each parsed record, normalised, pushed in order. */
  method ReadRows(raw: seq<RawRow>) returns (rows: seq<Row>)
    ensures rows == NormalizeRows(raw)
  {
    rows := [];
    var i := 0;
    while i < |raw|
      invariant 0 <= i <= |raw|
      invariant rows == NormalizeRows(raw[..i])
    {
      NormalizeRowsExtend(raw, i);
      rows := rows + [NormalizeRow(raw[i])];
      i := i + 1;
    }
    assert raw[..i] == raw;
  }

  /** The set of valid bins: every non-empty bin of some row. */
  function ValidBins(rows: seq<Row>): (bins: set<string>)
    ensures "" !in bins
    ensures rows == [] ==> bins == {}
  {
    set i | 0 <= i < |rows| && rows[i].bin != "" :: rows[i].bin
  }

  /** A bin is valid exactly when it is non-empty and some row is stored in it. */
  lemma ValidBinsMembers(rows: seq<Row>)
    ensures forall b :: b in ValidBins(rows) <==> b != "" && exists i :: 0 <= i < |rows| && rows[i].bin == b
  {
  }

  /** `rows.map(r => r.bin).filter(b => b)`: the non-empty bins, in row order. */
  function NonEmptyBins(rows: seq<Row>): (bins: seq<string>)
    ensures forall b :: b in bins <==> b != "" && exists i :: 0 <= i < |rows| && rows[i].bin == b
  {
    if rows == [] then []
    else
      var last := rows[|rows| - 1];
      var front := NonEmptyBins(rows[..|rows| - 1]);
      assert forall i :: 0 <= i < |rows| - 1 ==> rows[..|rows| - 1][i] == rows[i];
      front + (if last.bin != "" then [last.bin] else [])
  }

  predicate Distinct(s: seq<string>) {
    forall i, j :: 0 <= i < j < |s| ==> s[i] != s[j]
  }

  /** Iteration order of a JavaScript `Set` built from `s`: each value once, at its first occurrence. */
  function Dedupe(s: seq<string>): (r: seq<string>)
    ensures Distinct(r)
    ensures forall x :: x in r <==> x in s
  {
    if s == [] then []
    else
      var front := Dedupe(s[..|s| - 1]);
      var last := s[|s| - 1];
      assert forall x :: x in s <==> x in s[..|s| - 1] || x == last;
      if last in front then front else front + [last]
  }

  /** The position of the first occurrence of `x` in `s`. */
  function FirstIndex(s: seq<string>, x: string): (k: nat)
    requires x in s
    ensures k < |s| && s[k] == x
    ensures forall j :: 0 <= j < k ==> s[j] != x
  {
    if s[0] == x then 0 else 1 + FirstIndex(s[1..], x)
  }

  /** A value already in a prefix first occurs where it first occurs in the prefix. */
  lemma FirstIndexInPrefix(s: seq<string>, n: nat, x: string)
    requires n <= |s| && x in s[..n]
    ensures FirstIndex(s, x) == FirstIndex(s[..n], x)
  {
    var k' := FirstIndex(s[..n], x);
    assert s[k'] == x;
  }

  /** Every value of `r` occurs in `s`, and `r` lists them in the order they first occur there. */
  predicate InFirstOccurrenceOrder(r: seq<string>, s: seq<string>) {
    && (forall y :: y in r ==> y in s)
    && forall i, j :: 0 <= i < j < |r| ==> FirstIndex(s, r[i]) < FirstIndex(s, r[j])
  }

  /** Extending `s` keeps an order of first occurrences in its prefix. */
  lemma OrderInLongerSeq(r: seq<string>, s: seq<string>, n: nat)
    requires n <= |s| && InFirstOccurrenceOrder(r, s[..n])
    ensures InFirstOccurrenceOrder(r, s)
    ensures forall y :: y in r ==> FirstIndex(s, y) < n
  {
    forall y | y in r
      ensures FirstIndex(s, y) == FirstIndex(s[..n], y) < n
    {
      FirstIndexInPrefix(s, n, y);
    }
  }

  /** A value first occurring at the end of `s` may be appended to such an order. */
  lemma AppendFreshKeepsOrder(r: seq<string>, s: seq<string>)
    requires s != [] && s[|s| - 1] !in s[..|s| - 1]
    requires InFirstOccurrenceOrder(r, s[..|s| - 1])
    ensures InFirstOccurrenceOrder(r + [s[|s| - 1]], s)
  {
    var last := s[|s| - 1];
    OrderInLongerSeq(r, s, |s| - 1);
    assert FirstIndex(s, last) == |s| - 1 by {
      assert forall j :: 0 <= j < |s| - 1 ==> s[j] == s[..|s| - 1][j];
    }
    var r' := r + [last];
    forall i, j | 0 <= i < j < |r'|
      ensures FirstIndex(s, r'[i]) < FirstIndex(s, r'[j])
    {
      assert r'[i] == r[i];
      if j < |r| {
        assert r'[j] == r[j];
      }
    }
  }

  /**
   * The values of `Dedupe(s)` come in the order of their first occurrence
   * in `s`, as the iteration order of a `Set` filled from `s`.
   */
  lemma {:induction false} DedupeKeepsFirstOccurrenceOrder(s: seq<string>)
    ensures InFirstOccurrenceOrder(Dedupe(s), s)
  {
    if s != [] {
      var p, last := s[..|s| - 1], s[|s| - 1];
      DedupeKeepsFirstOccurrenceOrder(p);
      if last in Dedupe(p) {
        OrderInLongerSeq(Dedupe(p), s, |s| - 1);
      } else {
        AppendFreshKeepsOrder(Dedupe(p), s);
      }
    }
  }

  /** `[...validBins]`: the valid bins, each once, in order of first appearance. */
  function BinList(rows: seq<Row>): (bins: seq<string>)
    ensures Distinct(bins)
    ensures forall b :: b in bins <==> b in ValidBins(rows)
  {
    Dedupe(NonEmptyBins(rows))
  }

  /** `csvData.find(r => r.itemId === id)`: the first row with that id. */
  function FindItem(rows: seq<Row>, id: string): (r: Option<Row>)
    ensures r.None? <==> forall i :: 0 <= i < |rows| ==> rows[i].itemId != id
    ensures r.Some? ==> exists i :: 0 <= i < |rows| && rows[i] == r.value && rows[i].itemId == id
                                    && forall j :: 0 <= j < i ==> rows[j].itemId != id
  {
    if rows == [] then None
    else if rows[0].itemId == id then Some(rows[0])
    else
      var r := FindItem(rows[1..], id);
      assert forall i :: 1 <= i < |rows| ==> rows[i] == rows[1..][i - 1];
      if r.Some? then
        ghost var i :| 0 <= i < |rows[1..]| && rows[1..][i] == r.value && rows[1..][i].itemId == id
                       && forall j :: 0 <= j < i ==> rows[1..][j].itemId != id;
        assert rows[i + 1] == r.value;
        r
      else r
  }

  predicate UniqueItemIds(rows: seq<Row>) {
    forall i, j :: 0 <= i < j < |rows| ==> rows[i].itemId != rows[j].itemId
  }

  /**
   * Looking up the id of row `i` gives the earliest row with that id, so a
   * later duplicate is shadowed; with unique ids it gives row `i` itself and
   * hence that row's bin.
   */
  lemma LookupRow(rows: seq<Row>, i: nat)
    requires i < |rows|
    ensures var r := FindItem(rows, rows[i].itemId);
            r.Some? && r.value.itemId == rows[i].itemId
            && exists k :: 0 <= k <= i && rows[k] == r.value
    ensures UniqueItemIds(rows) ==> FindItem(rows, rows[i].itemId) == Some(rows[i])
  {
    var r := FindItem(rows, rows[i].itemId);
    var k :| 0 <= k < |rows| && rows[k] == r.value && rows[k].itemId == rows[i].itemId
             && forall j :: 0 <= j < k ==> rows[j].itemId != rows[i].itemId;
    assert k <= i;
    if UniqueItemIds(rows) {
      assert k == i;
    }
  }
}
