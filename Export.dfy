/** The export summary: one detail row per scan entry with per-bin totals. */
module Export {
  import opened Wrappers
  import opened Classifier
  import opened Sessions

  /** A field of an exported row: text, or a number that is printed in decimal. */
  datatype Cell = TextCell(text: string) | Int(value: int)

  datatype ExportError = NoAudits   // "No audits to export"

  /** The column names of the export. */
  function Header(): (h: seq<Cell>)
    ensures |h| == 13
  {
    [TextCell("Bin ID"), TextCell("Auditor"), TextCell("Audit Status"), TextCell("# Items"), TextCell("Accuracy %"),
     TextCell("Start Time"), TextCell("End Time"),
     TextCell("Item ID"), TextCell("Expected Bin"), TextCell("Scanned Bin"),
     TextCell("Item Status"), TextCell("Resolved"), TextCell("Timestamp")]
  }

  /** The status text stored in an entry and printed in the export. */
  function StatusName(s: Status): (n: string)
    ensures n == "match" <==> s == Match
  {
    match s
    case Match => "match"
    case Mismatch => "mismatch"
    case NoBin => "no-bin"
    case RemoveItem => "remove-item"
  }

  /** JavaScript truthiness of an optional timestamp: set and non-empty. */
  predicate IsSet(t: Option<string>): (present: bool)
    ensures !present <==> t.None? || t.value == ""
  {
    t.Some? && t.value != ""
  }

  /** `items.filter(i => i.status === "match").length`. */
  function MatchCount(items: seq<ScanEntry>): (n: nat)
    ensures n <= |items|
    ensures n == 0 <==> forall i :: 0 <= i < |items| ==> items[i].status != Match
    ensures n == |items| <==> forall i :: 0 <= i < |items| ==> items[i].status == Match
  {
    if items == [] then 0
    else
      var front := items[..|items| - 1];
      assert forall i :: 0 <= i < |front| ==> front[i] == items[i];
      MatchCount(front) + (if items[|items| - 1].status == Match then 1 else 0)
  }

  /**
   * `total ? Math.round(correct / total * 100) : 0` in integer arithmetic:
   * 100 * correct / total rounded half up, and 0 when there is nothing to count.
   */
  function Accuracy(correct: nat, total: nat): (a: nat)
    ensures total == 0 ==> a == 0
    ensures total > 0 ==> 2 * total * a <= 200 * correct + total < 2 * total * a + 2 * total
    ensures correct <= total ==> a <= 100
    ensures 0 < total == correct ==> a == 100
  {
    if total == 0 then 0
    else
      var a := (200 * correct + total) / (2 * total);
      AccuracyBounds(correct, total, a);
      a
  }

  lemma AccuracyBounds(correct: nat, total: nat, a: nat)
    requires total > 0 && a == (200 * correct + total) / (2 * total)
    ensures 2 * total * a <= 200 * correct + total < 2 * total * a + 2 * total
    ensures correct <= total ==> a <= 100
    ensures correct == total ==> a == 100
  {
    var n, d := 200 * correct + total, 2 * total;
    assert d * a <= n < d * a + d;
    if correct <= total {
      if a > 100 {
        assert d * a >= d * 101 by { MulMono(d, 101, a); }
        assert false;
      }
    }
    if correct == total {
      assert n == d * 100 + total;
      if a < 100 {
        assert d * (a + 1) <= d * 100 by { MulMono(d, a + 1, 100); }
        assert false;
      }
    }
  }

  lemma MulMono(d: nat, x: nat, y: nat)
    requires x <= y
    ensures d * x <= d * y
  {
  }

  /** `audit.endTime ? "Completed" : "In Progress"`. */
  function StatusLabel(endTime: Option<string>): (l: string)
    ensures l == "Completed" <==> IsSet(endTime)
    ensures l == "In Progress" <==> !IsSet(endTime)
  {
    if IsSet(endTime) then "Completed" else "In Progress"
  }

  /**
   * The detail row of entry `e` of session `s` for bin `bin`, given the session's count and accuracy:
   * one cell per header column, with the entry's own fields in the columns named for them.
   */
  function DetailRow(bin: string, s: Session, total: nat, accuracy: nat, e: ScanEntry): (r: seq<Cell>)
    ensures |r| == |Header()|
    ensures r[0] == TextCell(bin) && r[7] == TextCell(e.itemId) && r[10] == TextCell(StatusName(e.status))
  {
    [TextCell(bin), TextCell(s.auditor), TextCell(StatusLabel(s.endTime)), Int(total), Int(accuracy),
     TextCell(s.startTime), TextCell(if IsSet(s.endTime) then s.endTime.value else "-"),
     TextCell(e.itemId), TextCell(e.expectedBin), TextCell(e.scannedBin),
     TextCell(StatusName(e.status)), TextCell(if e.resolved then "Yes" else "No"), TextCell(e.ts)]
  }

  /** The rows of one session, one per entry and in entry order. */
  function SessionRows(bin: string, s: Session): (rows: seq<seq<Cell>>)
    ensures |rows| == |s.items|
  {
    var total := |s.items|;
    var accuracy := Accuracy(MatchCount(s.items), total);
    seq(total, j requires 0 <= j < total => DetailRow(bin, s, total, accuracy, s.items[j]))
  }

  /** `audit.items.forEach(...)`: pushes the detail row of each entry of session `s`, in entry order. */
  method EmitSessionRows(bin: string, s: Session) returns (rows: seq<seq<Cell>>)
    ensures rows == SessionRows(bin, s)
  {
    var total := |s.items|;
    var accuracy := Accuracy(MatchCount(s.items), total);
    rows := [];
    var j := 0;
    while j < total
      invariant 0 <= j <= total
      invariant rows == SessionRows(bin, s)[..j]
    {
      rows := rows + [DetailRow(bin, s, total, accuracy, s.items[j])];
      assert SessionRows(bin, s)[..j + 1] == SessionRows(bin, s)[..j] + [SessionRows(bin, s)[j]];
      j := j + 1;
    }
    assert SessionRows(bin, s)[..total] == SessionRows(bin, s);
  }

  /** The number of entries over the sessions of `order`. */
  function EntryCount(audits: map<string, Session>, order: seq<string>): (n: nat)
    requires forall i :: 0 <= i < |order| ==> order[i] in audits
    ensures n == 0 <==> forall i :: 0 <= i < |order| ==> audits[order[i]].items == []
  {
    if order == [] then 0
    else EntryCount(audits, order[..|order| - 1]) + |audits[order[|order| - 1]].items|
  }

  /** The detail rows of the sessions of `order`, session after session: one per scan entry. */
  function BinRows(audits: map<string, Session>, order: seq<string>): (rows: seq<seq<Cell>>)
    requires forall i :: 0 <= i < |order| ==> order[i] in audits
    ensures |rows| == EntryCount(audits, order)
  {
    if order == [] then []
    else
      var last := order[|order| - 1];
      BinRows(audits, order[..|order| - 1]) + SessionRows(last, audits[last])
  }

  /** `for (const [bin, audit] of Object.entries(audits))`: the rows of each session of `order` in turn. */
  method EmitBinRows(audits: map<string, Session>, order: seq<string>) returns (rows: seq<seq<Cell>>)
    requires forall i :: 0 <= i < |order| ==> order[i] in audits
    ensures rows == BinRows(audits, order)
  {
    rows := [];
    var i := 0;
    while i < |order|
      invariant 0 <= i <= |order|
      invariant rows == BinRows(audits, order[..i])
    {
      var bin := order[i];
      var binRows := EmitSessionRows(bin, audits[bin]);
      assert order[..i + 1][..i] == order[..i];
      rows := rows + binRows;
      i := i + 1;
    }
    assert order[..i] == order;
  }

  /**
   * The export of all sessions, taken in `order` (the order in which their
   * bins were first started): a header and the detail rows, or an error
   * when there is no session at all.
   */
  function ExportRows(audits: map<string, Session>, order: seq<string>): (r: Result<seq<seq<Cell>>, ExportError>)
    requires forall i :: 0 <= i < |order| ==> order[i] in audits
    ensures r.Failure? <==> |audits| == 0
    ensures r.Success? ==> |r.value| >= 1 && r.value[0] == Header()
  {
    if |audits| == 0 then Failure(NoAudits)
    else Success([Header()] + BinRows(audits, order))
  }

  /**
   * Row `j` of a session describes entry `j` field by field, and carries the
   * session's bin, auditor, label, times, count and an accuracy within 0..100.
   */
  lemma SessionRowFields(bin: string, s: Session, j: nat)
    requires j < |s.items|
    ensures var row := SessionRows(bin, s)[j];
            |row| == 13
            && row[0] == TextCell(bin) && row[1] == TextCell(s.auditor)
            && row[3] == Int(|s.items|)
            && row[4].Int? && 0 <= row[4].value <= 100
            && row[4].value == Accuracy(MatchCount(s.items), |s.items|)
            && row[5] == TextCell(s.startTime)
            && (row[6] == TextCell("-") <==> !IsSet(s.endTime) || s.endTime.value == "-")
            && (IsSet(s.endTime) ==> row[6] == TextCell(s.endTime.value))
            && row[7] == TextCell(s.items[j].itemId)
            && row[8] == TextCell(s.items[j].expectedBin) && row[9] == TextCell(s.items[j].scannedBin)
            && row[10] == TextCell(StatusName(s.items[j].status))
            && (row[11] == TextCell("Yes") <==> s.items[j].resolved)
            && row[12] == TextCell(s.items[j].ts)
            && (row[2] == TextCell("Completed") <==> IsSet(s.endTime))
  {
  }

  /** Every exported detail row has the 13 columns and an accuracy within 0..100. */
  lemma {:induction false} RowsWellFormed(audits: map<string, Session>, order: seq<string>)
    requires forall i :: 0 <= i < |order| ==> order[i] in audits
    ensures forall r: seq<Cell> :: r in BinRows(audits, order) ==> |r| == 13 && r[4].Int? && 0 <= r[4].value <= 100
  {
    if order != [] {
      var front, last := order[..|order| - 1], order[|order| - 1];
      RowsWellFormed(audits, front);
      var s := audits[last];
      forall r: seq<Cell> | r in SessionRows(last, s)
        ensures |r| == 13 && r[4].Int? && 0 <= r[4].value <= 100
      {
        var j :| 0 <= j < |SessionRows(last, s)| && SessionRows(last, s)[j] == r;
        SessionRowFields(last, s, j);
      }
    }
  }
}
