/** Audit sessions and the per-item scan entries kept in them. */
module Sessions {
  import opened Wrappers
  import opened Classifier

  /** One scanned item of a session; `ts` is the time of its latest scan. */
  datatype ScanEntry = ScanEntry(itemId: string, expectedBin: string, scannedBin: string,
                                 status: Status, resolved: bool, ts: string)

  /** An audit of one bin; `endTime` is None while the audit is open. */
  datatype Session = Session(auditor: string, startTime: string, endTime: Option<string>,
                             items: seq<ScanEntry>)

  /** No item id occurs twice among the entries. */
  predicate DistinctIds(items: seq<ScanEntry>) {
    forall i, j :: 0 <= i < j < |items| ==> items[i].itemId != items[j].itemId
  }

  /** `items.find(i => i.itemId === id)`, as the index of the first entry with that id. */
  function FindEntry(items: seq<ScanEntry>, id: string): (k: Option<nat>)
    ensures k.None? <==> forall i :: 0 <= i < |items| ==> items[i].itemId != id
    ensures k.Some? ==> k.value < |items| && items[k.value].itemId == id
                        && forall j :: 0 <= j < k.value ==> items[j].itemId != id
  {
    if items == [] then None
    else if items[0].itemId == id then Some(0)
    else
      var k := FindEntry(items[1..], id);
      assert forall i :: 1 <= i < |items| ==> items[i] == items[1..][i - 1];
      if k.Some? then Some(k.value + 1) else None
  }

  /**
   * The de-duplicating upsert of a scan: an entry already present for `id`
   * gets the new status and timestamp and keeps everything else; otherwise a
   * new unresolved entry is put in front.
   */
  function Upsert(items: seq<ScanEntry>, id: string, expectedBin: string, scannedBin: string,
                  status: Status, ts: string): (r: seq<ScanEntry>)
    ensures FindEntry(items, id).None? ==>
              r == [ScanEntry(id, expectedBin, scannedBin, status, false, ts)] + items
    ensures FindEntry(items, id).Some? ==>
              var k := FindEntry(items, id).value;
              |r| == |items| && r[k] == items[k].(status := status, ts := ts)
              && forall j :: 0 <= j < |items| && j != k ==> r[j] == items[j]
  {
    match FindEntry(items, id)
    case None => [ScanEntry(id, expectedBin, scannedBin, status, false, ts)] + items
    case Some(k) => items[k := items[k].(status := status, ts := ts)]
  }

  /** `item.resolved = v` on the first entry for `id`; None when there is no such entry. */
  function SetResolved(items: seq<ScanEntry>, id: string, v: bool): (r: Option<seq<ScanEntry>>)
    ensures r.None? <==> FindEntry(items, id).None?
    ensures r.Some? ==>
              var k := FindEntry(items, id).value;
              |r.value| == |items| && r.value[k] == items[k].(resolved := v)
              && forall j :: 0 <= j < |items| && j != k ==> r.value[j] == items[j]
  {
    match FindEntry(items, id)
    case None => None
    case Some(k) => Some(items[k := items[k].(resolved := v)])
  }

  /**
   * Upserting keeps ids distinct; afterwards `id` is present, its entry has
   * the new status and time, and the number of entries grows by one exactly
   * when `id` was new.
   */
  lemma UpsertKeepsIdsDistinct(items: seq<ScanEntry>, id: string, expectedBin: string,
                               scannedBin: string, status: Status, ts: string)
    requires DistinctIds(items)
    ensures var r := Upsert(items, id, expectedBin, scannedBin, status, ts);
            DistinctIds(r)
            && FindEntry(r, id).Some?
            && r[FindEntry(r, id).value].status == status && r[FindEntry(r, id).value].ts == ts
            && (|r| == |items| + 1 <==> FindEntry(items, id).None?)
            && (|r| == |items| <==> FindEntry(items, id).Some?)
  {
    var r := Upsert(items, id, expectedBin, scannedBin, status, ts);
    match FindEntry(items, id)
    case None =>
      assert r[0].itemId == id;
      assert forall i :: 1 <= i < |r| ==> r[i] == items[i - 1];
    case Some(k) =>
      assert forall i :: 0 <= i < |r| ==> r[i].itemId == items[i].itemId;
      assert r[k].itemId == id;
  }

  /**
   * A rescan changes only status and timestamp: the entry keeps its
   * resolved flag, expected bin and scanned bin, and so does every other entry.
   */
  lemma RescanPreserves(items: seq<ScanEntry>, id: string, expectedBin: string,
                        scannedBin: string, status: Status, ts: string)
    requires FindEntry(items, id).Some?
    ensures var r := Upsert(items, id, expectedBin, scannedBin, status, ts);
            |r| == |items|
            && forall i :: 0 <= i < |items| ==>
                 r[i].itemId == items[i].itemId && r[i].resolved == items[i].resolved
                 && r[i].expectedBin == items[i].expectedBin && r[i].scannedBin == items[i].scannedBin
  {
  }

  /**
   * Scanning the same new item twice leaves one entry for it, carrying the
   * second scan's status and time and the first scan's expected and scanned bins.
   */
  lemma {:induction false} RescanIsIdempotent(items: seq<ScanEntry>, id: string, expectedBin: string,
                                              scannedBin: string, s1: Status, t1: string,
                                              e2: string, b2: string, s2: Status, t2: string)
    requires FindEntry(items, id).None?
    ensures Upsert(Upsert(items, id, expectedBin, scannedBin, s1, t1), id, e2, b2, s2, t2)
            == [ScanEntry(id, expectedBin, scannedBin, s2, false, t2)] + items
  {
    var once := Upsert(items, id, expectedBin, scannedBin, s1, t1);
    assert once[0].itemId == id;
    assert FindEntry(once, id) == Some(0);
  }

  /**
   * Setting the resolved flag changes no id, status, bin or timestamp, so
   * classification is untouched and ids stay distinct.
   */
  lemma SetResolvedOnlyTouchesFlag(items: seq<ScanEntry>, id: string, v: bool)
    requires SetResolved(items, id, v).Some?
    ensures var r := SetResolved(items, id, v).value;
            |r| == |items|
            && (forall i :: 0 <= i < |items| ==>
                  r[i] == items[i].(resolved := r[i].resolved))
            && r[FindEntry(items, id).value].resolved == v
            && (DistinctIds(items) ==> DistinctIds(r))
  {
  }
}
