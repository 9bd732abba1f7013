/** The bin check that gates the start of an audit session. */
module BinValidation {
  import opened Wrappers
  import opened Text
  import Inventory

  /** `/^[A-Z]{3}$/`: exactly three capital ASCII letters. */
  predicate IsBinFormat(s: string): (ok: bool)
    ensures ok ==> s != "" && s != "-"
  {
    |s| == 3 && forall i :: 0 <= i < 3 ==> 'A' <= s[i] <= 'Z'
  }

  datatype StartError =
    | BadFormat    // "Invalid Bin Format. Must be 3 letters."
    | UnknownBin   // "Bin not found in CSV."

  /**
   * Normalises the bin id from the request and checks it: the format first,
   * membership in the valid bins second.  On success the normalised bin is
   * returned.
   */
  function ValidateBin(raw: string, validBins: set<string>): (r: Result<string, StartError>)
    ensures r == Failure(BadFormat) <==> !IsBinFormat(NormalizeId(raw))
    ensures r == Failure(UnknownBin) <==> IsBinFormat(NormalizeId(raw)) && NormalizeId(raw) !in validBins
    ensures r.Success? <==> IsBinFormat(NormalizeId(raw)) && NormalizeId(raw) in validBins
    ensures r.Success? ==> r.value == NormalizeId(raw)
  {
    var bin := NormalizeId(raw);
    if !IsBinFormat(bin) then Failure(BadFormat)
    else if bin !in validBins then Failure(UnknownBin)
    else Success(bin)
  }

  /** The format check comes first: a badly formed bin is rejected whatever bins are known. */
  lemma FormatBeforeMembership(raw: string, known: set<string>, other: set<string>)
    requires ValidateBin(raw, known) == Failure(BadFormat)
    ensures ValidateBin(raw, other) == Failure(BadFormat)
  {
  }

  /**
   * A bin accepted against the bins of an upload is the bin stored in one
   * of its rows.  With no upload every bin is rejected.
   */
  lemma AcceptedBinIsStored(raw: string, rows: seq<Inventory.Row>)
    requires ValidateBin(raw, Inventory.ValidBins(rows)).Success?
    ensures exists i :: 0 <= i < |rows| && rows[i].bin == NormalizeId(raw)
    ensures rows != []
  {
  }

  /**
   * Validation ignores case and padding: codes that normalise alike, such as
   * " abc " and "ABC", get the same answer against any set of bins.
   */
  lemma ValidationIgnoresCaseAndPadding(raw1: string, raw2: string, validBins: set<string>)
    requires NormalizeId(raw1) == NormalizeId(raw2)
    ensures ValidateBin(raw1, validBins) == ValidateBin(raw2, validBins)
  {
  }
}
