/** Classification of one scanned item against the bin being audited. */
module Classifier {
  import opened Wrappers
  import opened Text
  import opened Inventory
  import BinValidation

  /** The scan outcomes "match", "mismatch", "no-bin" and "remove-item". */
  datatype Status = Match | Mismatch | NoBin | RemoveItem

  /** Vendor statuses, compared upper-cased, that mean the item must leave the bin. */
  const TerminalStatuses: seq<string> := ["SHAPPI CLOSED", "SHAPPI CANCELED", "ABANDONED"]

  predicate IsTerminal(vendorStatus: string): (t: bool)
    ensures t ==> vendorStatus != ""
  {
    UpperAscii(vendorStatus) in TerminalStatuses
  }

  /** The terminal test ignores case: an upper-cased status is terminal exactly when the status is. */
  lemma IsTerminalIgnoresCase(vendorStatus: string)
    ensures IsTerminal(UpperAscii(vendorStatus)) == IsTerminal(vendorStatus)
  {
    var u := UpperAscii(vendorStatus);
    UpperAsciiChars(vendorStatus);
    UpperAsciiChars(u);
    assert UpperAscii(u) == u;
  }

  /** `csvItem?.bin || "-"`: the row's bin, or "-" when there is no row or its bin is empty. */
  function ExpectedBin(rec: Option<Row>): (e: string)
    ensures e == "-" <==> rec.None? || rec.value.bin == "" || rec.value.bin == "-"
    ensures e != "-" ==> rec.Some? && e == rec.value.bin
  {
    if rec.Some? && rec.value.bin != "" then rec.value.bin else "-"
  }

  /**
   * The outcome for item row `rec` (None when the id is not in the
   * inventory) scanned into bin `scannedBin`, in priority order: a terminal
   * vendor status wins over everything, then an absent row, then a bin that
   * differs from the expected one.
   */
  function Classify(scannedBin: string, rec: Option<Row>): (s: Status)
    ensures s == RemoveItem <==> rec.Some? && IsTerminal(rec.value.status)
    ensures s == NoBin <==> rec.None?
    ensures s == Mismatch <==> rec.Some? && !IsTerminal(rec.value.status) && ExpectedBin(rec) != scannedBin
    ensures s == Match <==> rec.Some? && !IsTerminal(rec.value.status) && ExpectedBin(rec) == scannedBin
  {
    var base := if rec.None? then NoBin
                else if ExpectedBin(rec) != scannedBin then Mismatch
                else Match;
    if rec.Some? && IsTerminal(rec.value.status) then RemoveItem else base
  }

  /** `expectedBin !== "-" ? expectedBin : null`: the bin to move the item to. */
  function CorrectBin(expectedBin: string): (c: Option<string>)
    ensures c.None? <==> expectedBin == "-"
    ensures c.Some? ==> c.value == expectedBin
  {
    if expectedBin != "-" then Some(expectedBin) else None
  }

  /** A terminal status gives "remove-item" even when the item sits in the right bin. */
  lemma TerminalOverridesMatch(scannedBin: string, row: Row)
    requires row.bin == scannedBin && IsTerminal(row.status)
    ensures Classify(scannedBin, Some(row)) == RemoveItem
  {
  }

  /** A "match" means the row's own bin is the scanned bin, so scanning into a real bin never matches a row without one. */
  lemma MatchMeansRowBin(scannedBin: string, rec: Option<Row>)
    requires Classify(scannedBin, rec) == Match
    ensures rec.Some? && (rec.value.bin == scannedBin || (rec.value.bin == "" && scannedBin == "-"))
  {
  }

  /**
   * Scanning into a well-formed bin an item whose row has no bin gives
   * "mismatch" (not "no-bin"), and no correct bin is reported.
   */
  lemma EmptyBinIsMismatch(scannedBin: string, row: Row)
    requires BinValidation.IsBinFormat(scannedBin) && row.bin == "" && !IsTerminal(row.status)
    ensures Classify(scannedBin, Some(row)) == Mismatch
    ensures CorrectBin(ExpectedBin(Some(row))).None?
  {
  }

  /** The correct bin is reported exactly when the row exists and names a bin other than "-". */
  lemma CorrectBinReported(rec: Option<Row>)
    ensures CorrectBin(ExpectedBin(rec)).Some? <==> rec.Some? && rec.value.bin != "" && rec.value.bin != "-"
    ensures CorrectBin(ExpectedBin(rec)).Some? ==> CorrectBin(ExpectedBin(rec)).value == rec.value.bin
  {
  }
}
