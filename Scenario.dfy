/**
 * A client of the engine: a two-row inventory is uploaded and one bin is
 * opened, with the answers following from the contracts alone; the lemmas
 * evaluate ingestion, lookup and classification on that inventory.
 */
module Scenario {
  import opened Wrappers
  import opened Text
  import opened Inventory
  import BinValidation
  import opened Classifier
  import opened Sessions
  import opened Export
  import opened Engine

  function Upload(): seq<RawRow> {
    [RawRow(Some("A100"), Some("ABC"), None, Some("Active"), None, None),
     RawRow(Some("A101"), Some("XYZ"), None, Some("Shappi Closed"), None, None)]
  }

  const A100 := Row("A100", "ABC", "", "Active", "", "")
  const A101 := Row("A101", "XYZ", "", "Shappi Closed", "", "")

  /** A normal id is its own normalisation. */
  lemma NormalLiteral(s: string)
    requires IsNormalId(s)
    ensures NormalizeId(s) == s && UpperAscii(s) == s
  {
    NormalizeFixedPoints(s);
  }

  lemma NormalA100()
    ensures NormalizeId("A100") == "A100" && UpperAscii("A100") == "A100"
  {
    NormalLiteral("A100");
  }

  lemma NormalA101()
    ensures NormalizeId("A101") == "A101" && UpperAscii("A101") == "A101"
  {
    NormalLiteral("A101");
  }

  lemma NormalABC()
    ensures NormalizeId("ABC") == "ABC" && UpperAscii("ABC") == "ABC"
  {
    NormalLiteral("ABC");
  }

  lemma NormalXYZ()
    ensures NormalizeId("XYZ") == "XYZ" && UpperAscii("XYZ") == "XYZ"
  {
    NormalLiteral("XYZ");
  }

  lemma NormalZ999()
    ensures NormalizeId("Z999") == "Z999" && UpperAscii("Z999") == "Z999"
  {
    NormalLiteral("Z999");
  }

  lemma FirstRow()
    ensures NormalizeRow(Upload()[0]) == A100
  {
    NormalA100();
    NormalABC();
    TrimmedIsFixed("");
    TrimmedIsFixed("Active");
  }

  lemma SecondRow()
    ensures NormalizeRow(Upload()[1]) == A101
  {
    NormalA101();
    NormalXYZ();
    TrimmedIsFixed("");
    TrimmedIsFixed("Shappi Closed");
  }

  lemma FirstUploadRow()
    ensures NormalizeRows(Upload()[..1]) == [A100]
  {
    FirstRow();
    assert Upload()[..1][..0] == [];
  }

  lemma UploadRows()
    ensures NormalizeRows(Upload()) == [A100, A101]
  {
    FirstUploadRow();
    SecondRow();
    assert Upload()[..1] == Upload()[..|Upload()| - 1];
  }

  lemma UploadOutcomes()
    ensures FindItem([A100, A101], "A100") == Some(A100)
    ensures FindItem([A100, A101], "A101") == Some(A101)
    ensures FindItem([A100, A101], "Z999") == None
    ensures Classify("ABC", Some(A100)) == Match
    ensures Classify("ABC", Some(A101)) == RemoveItem
    ensures "ABC" in ValidBins([A100, A101])
  {
    assert UpperAscii("Active")[1] == 'C';
    assert UpperAscii("Shappi Closed") == "SHAPPI CLOSED";
    assert [A100, A101][0].bin == "ABC";
  }

  lemma ScanIds()
    ensures UpperAscii("ABC") == "ABC" && NormalizeId("ABC") == "ABC"
    ensures NormalizeId("A100") == "A100" && NormalizeId("A101") == "A101" && NormalizeId("Z999") == "Z999"
  {
    NormalABC();
    NormalA100();
    NormalA101();
    NormalZ999();
  }

  lemma StartAccepted()
    ensures BinValidation.ValidateBin("ABC", ValidBins([A100, A101])) == Success("ABC")
  {
    UploadOutcomes();
    ScanIds();
  }

  /** A fresh server given the two-row upload holds exactly those rows. */
  method UploadInventory() returns (engine: AuditEngine)
    ensures fresh(engine) && engine.Valid()
    ensures engine.csvData == [A100, A101] && engine.audits == map[] && engine.auditOrder == []
  {
    engine := new AuditEngine(None);
    UploadRows();
    var info := engine.UploadCsv(Upload(), "t0");
  }

  /** Upload the two rows and open bin "ABC" for Jane. */
  method OpenAudit() returns (engine: AuditEngine)
    ensures fresh(engine) && engine.Valid()
    ensures engine.csvData == [A100, A101]
    ensures engine.audits == map["ABC" := Session("Jane", "t1", None, [])]
    ensures engine.auditOrder == ["ABC"]
  {
    engine := UploadInventory();
    StartAccepted();
    var started := engine.Start("ABC", Some("Jane"), "t1");
    assert started == Success(Started("ABC", "Jane"));
  }
}
