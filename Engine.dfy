/**
 * The audit session engine: the uploaded inventory, the valid bins, the
 * audits map `bin -> session`, and the events broadcast to every client.
 */
module Engine {
  import opened Wrappers
  import opened Text
  import opened Inventory
  import opened BinValidation
  import opened Classifier
  import opened Sessions
  import opened Export

  /** A JSON request-body value, as far as its truthiness is concerned. */
  datatype Json = Undefined | Null | Bool(b: bool) | Number(x: real) | Str(s: string) | Array | Object

  /** `!!v`: false, 0, "", null and a missing value are false; everything else is true. */
  predicate Truthy(v: Json): (t: bool)
    ensures !t <==> v in {Undefined, Null, Bool(false), Number(0.0), Str("")}
  {
    match v
    case Undefined => false
    case Null => false
    case Bool(b) => b
    case Number(x) => x != 0.0
    case Str(s) => s != ""
    case Array => true
    case Object => true
  }

  /** The messages broadcast to all connected clients. */
  datatype Event =
    | CsvUpdated(total: nat, uploadedAt: string, bins: seq<string>)
    | AuditStarted(bin: string, auditor: string)
    | ItemResolved(binId: string, itemId: string, resolved: bool)
    | AuditEnded(bin: string, endTime: string)

  datatype CsvInfo = CsvInfo(total: nat, uploadedAt: string, bins: seq<string>)
  datatype Started = Started(bin: string, auditor: string)
  datatype ScanReply = ScanReply(status: Status, correctBin: Option<string>, record: Option<Row>)

  datatype ScanError =
    | MissingField    // "Missing binId or itemId"
    | NoActiveAudit   // "No active audit for this bin"

  datatype ResolveError =
    | AuditNotFound   // "Audit not found"
    | ItemNotFound    // "Item not found"

  datatype EndError = NoAudit   // "No active audit"

  /** `(auditor || "Unknown")`: the auditor named in the query, or "Unknown". */
  function AuditorName(q: Option<string>): (name: string)
    ensures name != ""
    ensures q.Some? && q.value != "" ==> name == q.value
    ensures q.None? || q.value == "" ==> name == "Unknown"
  {
    if q.Some? && q.value != "" then q.value else "Unknown"
  }

  /** `!binId || !itemId`: a field is absent or empty. */
  predicate MissingInput(binId: Option<string>, itemId: Option<string>): (m: bool)
    ensures !m ==> binId.Some? && itemId.Some? && binId.value != "" && itemId.value != ""
  {
    binId.None? || binId.value == "" || itemId.None? || itemId.value == ""
  }

  /** The key `audits[binId]` reads when `binId` is absent from the body. */
  function ResolveKey(binId: Option<string>): (k: string)
    ensures binId.Some? ==> k == binId.value
    ensures binId.None? ==> !IsBinFormat(k)
  {
    if binId.Some? then binId.value else "undefined"
  }

  /** Entries of the session for `bin` belong to it, have normal ids, and no id twice. */
  predicate SessionWellFormed(bin: string, s: Session) {
    DistinctIds(s.items)
    && forall i :: 0 <= i < |s.items| ==> s.items[i].scannedBin == bin && IsNormalId(s.items[i].itemId)
  }

  /** A scan into the session of `bin` keeps it well formed. */
  lemma UpsertKeepsSessionWellFormed(bin: string, s: Session, item: string, expected: string, status: Status, now: string)
    requires SessionWellFormed(bin, s) && IsNormalId(item)
    ensures SessionWellFormed(bin, s.(items := Upsert(s.items, item, expected, bin, status, now)))
  {
    var items := Upsert(s.items, item, expected, bin, status, now);
    UpsertKeepsIdsDistinct(s.items, item, expected, bin, status, now);
    if FindEntry(s.items, item).None? {
      assert forall i :: 1 <= i < |items| ==> items[i] == s.items[i - 1];
    }
  }

  /** Resolving an entry of the session for `bin` keeps it well formed. */
  lemma SetResolvedKeepsSessionWellFormed(bin: string, s: Session, item: string, v: bool)
    requires SessionWellFormed(bin, s) && SetResolved(s.items, item, v).Some?
    ensures SessionWellFormed(bin, s.(items := SetResolved(s.items, item, v).value))
  {
    SetResolvedOnlyTouchesFlag(s.items, item, v);
  }

  /**
   * `order` lists each bin of `audits` exactly once, and every session is
   * keyed by a three-letter bin and well formed.
   */
  predicate AuditsWellFormed(audits: map<string, Session>, order: seq<string>) {
    && Distinct(order)
    && (forall i :: 0 <= i < |order| ==> order[i] in audits)
    && (forall b :: b in audits ==> b in order)
    && (forall b :: b in audits ==> IsBinFormat(b) && SessionWellFormed(b, audits[b]))
  }

  /** Storing a well-formed session for a three-letter bin, appending the bin when it is new. */
  lemma InstallKeepsAuditsWellFormed(audits: map<string, Session>, order: seq<string>, bin: string, s: Session)
    requires AuditsWellFormed(audits, order) && IsBinFormat(bin) && SessionWellFormed(bin, s)
    ensures AuditsWellFormed(audits[bin := s], if bin in audits then order else order + [bin])
  {
  }

  /** The whole observable state, for saying that a request changed nothing. */
  datatype EngineState = EngineState(csvData: seq<Row>, csvUploadedAt: Option<string>,
                                     validBins: set<string>, audits: map<string, Session>,
                                     auditOrder: seq<string>, events: seq<Event>)

  class AuditEngine {
    var csvData: seq<Row>
    var csvUploadedAt: Option<string>
    var validBins: set<string>
    /** The audits, one per bin. */
    var audits: map<string, Session>
    /** The bins of `audits` in the order they were first started (the iteration order of the object). */
    var auditOrder: seq<string>
    var events: seq<Event>

    ghost predicate Valid()
      reads this
    {
      validBins == ValidBins(csvData) && AuditsWellFormed(audits, auditOrder)
    }

    ghost function State(): EngineState
      reads this
    {
      EngineState(csvData, csvUploadedAt, validBins, audits, auditOrder, events)
    }

    /** A fresh server: no rows, no audits; `uploadedAt` is the upload time persisted by an earlier run, if any. */
    constructor (uploadedAt: Option<string>)
      ensures Valid()
      ensures csvData == [] && validBins == {} && csvUploadedAt == uploadedAt
      ensures audits == map[] && auditOrder == [] && events == []
    {
      csvData := [];
      csvUploadedAt := uploadedAt;
      validBins := {};
      audits := map[];
      auditOrder := [];
      events := [];
    }

    /**
     * Replaces the inventory with the normalised rows of an upload and
     * rebuilds the valid bins; audits are kept.
     */
    method UploadCsv(raw: seq<RawRow>, timestamp: string) returns (info: CsvInfo)
      requires Valid()
      modifies this
      ensures Valid()
      ensures csvData == NormalizeRows(raw)
      ensures validBins == ValidBins(csvData) && csvUploadedAt == Some(timestamp)
      ensures audits == old(audits) && auditOrder == old(auditOrder)
      ensures info == CsvInfo(|raw|, timestamp, BinList(csvData))
      ensures events == old(events) + [CsvUpdated(|raw|, timestamp, BinList(csvData))]
    {
      var rows := ReadRows(raw);
      info := ReplaceInventory(rows, timestamp);
    }

    /** Stores `rows` as the inventory, rebuilds the valid bins and announces the upload. */
    method ReplaceInventory(rows: seq<Row>, timestamp: string) returns (info: CsvInfo)
      requires Valid()
      modifies this
      ensures Valid()
      ensures csvData == rows
      ensures validBins == ValidBins(rows) && csvUploadedAt == Some(timestamp)
      ensures audits == old(audits) && auditOrder == old(auditOrder)
      ensures info == CsvInfo(|rows|, timestamp, BinList(rows))
      ensures events == old(events) + [CsvUpdated(|rows|, timestamp, BinList(rows))]
    {
      assert AuditsWellFormed(audits, auditOrder);
      csvData := rows;
      csvUploadedAt := Some(timestamp);
      validBins := ValidBins(rows);
      var bins := BinList(rows);
      events := events + [CsvUpdated(|rows|, timestamp, bins)];
      info := CsvInfo(|rows|, timestamp, bins);
    }

    /** `audits[bin] = s`: stores a session, adding `bin` to the iteration order when it is new. */
    method PutSession(bin: string, s: Session)
      requires Valid() && IsBinFormat(bin) && SessionWellFormed(bin, s)
      modifies this
      ensures Valid()
      ensures audits == old(audits)[bin := s]
      ensures auditOrder == if bin in old(audits) then old(auditOrder) else old(auditOrder) + [bin]
      ensures csvData == old(csvData) && validBins == old(validBins) && csvUploadedAt == old(csvUploadedAt)
      ensures events == old(events)
    {
      var order := if bin in audits then auditOrder else auditOrder + [bin];
      InstallKeepsAuditsWellFormed(audits, auditOrder, bin, s);
      audits, auditOrder := audits[bin := s], order;
    }

    /**
     * Opens an audit of a bin: rejects a bin that is not three letters, then
     * one not in the inventory; otherwise installs a fresh session, replacing
     * any earlier one for that bin.
     */
    method Start(binId: string, auditor: Option<string>, now: string) returns (r: Result<Started, StartError>)
      requires Valid()
      modifies this
      ensures Valid()
      ensures r.Failure? <==> ValidateBin(binId, old(validBins)).Failure?
      ensures r.Failure? ==> r.error == ValidateBin(binId, old(validBins)).error && State() == old(State())
      ensures r.Success? ==>
                var bin, who := NormalizeId(binId), AuditorName(auditor);
                && r.value == Started(bin, who)
                && audits == old(audits)[bin := Session(who, now, None, [])]
                && auditOrder == (if bin in old(audits) then old(auditOrder) else old(auditOrder) + [bin])
                && events == old(events) + [AuditStarted(bin, who)]
                && csvData == old(csvData) && validBins == old(validBins)
                && csvUploadedAt == old(csvUploadedAt)
    {
      var v := ValidateBin(binId, validBins);
      if v.Failure? {
        return Failure(v.error);
      }
      var bin, who := v.value, AuditorName(auditor);
      assert IsBinFormat(bin) && SessionWellFormed(bin, Session(who, now, None, []));
      PutSession(bin, Session(who, now, None, []));
      Announce(AuditStarted(bin, who));
      r := Success(Started(bin, who));
    }

    /** `io.emit(...)`: appends an event to the broadcast log and changes nothing else. */
    method Announce(e: Event)
      requires Valid()
      modifies this
      ensures Valid()
      ensures events == old(events) + [e]
      ensures csvData == old(csvData) && validBins == old(validBins) && csvUploadedAt == old(csvUploadedAt)
      ensures audits == old(audits) && auditOrder == old(auditOrder)
    {
      events := events + [e];
    }

    /**
     * Records a scan: rejects a missing field or a bin with no audit;
     * otherwise classifies the item and upserts its entry in the bin's session.
     * The bin id is upper-cased but not trimmed; the item id is both.
     */
    method Scan(binId: Option<string>, itemId: Option<string>, now: string) returns (r: Result<ScanReply, ScanError>)
      requires Valid()
      modifies this
      ensures Valid()
      ensures r == Failure(MissingField) <==> MissingInput(binId, itemId)
      ensures r == Failure(NoActiveAudit) <==> !MissingInput(binId, itemId) && UpperAscii(binId.value) !in old(audits)
      ensures r.Failure? ==> State() == old(State())
      ensures r.Success? ==>
                !MissingInput(binId, itemId) &&
                var bin, item := UpperAscii(binId.value), NormalizeId(itemId.value);
                var rec := FindItem(csvData, item);
                var status, expected := Classify(bin, rec), ExpectedBin(rec);
                && bin in old(audits)
                && r.value == ScanReply(status, CorrectBin(expected), rec)
                && audits == old(audits)[bin := old(audits)[bin].(items := Upsert(old(audits)[bin].items, item, expected, bin, status, now))]
                && csvData == old(csvData) && validBins == old(validBins) && csvUploadedAt == old(csvUploadedAt)
                && auditOrder == old(auditOrder) && events == old(events)
    {
      if MissingInput(binId, itemId) {
        return Failure(MissingField);
      }
      var bin := UpperAscii(binId.value);
      var item := NormalizeId(itemId.value);
      if bin !in audits {
        return Failure(NoActiveAudit);
      }
      var rec := FindItem(csvData, item);
      var status := Classify(bin, rec);
      var expected := ExpectedBin(rec);
      var s := audits[bin];
      var items := Upsert(s.items, item, expected, bin, status, now);
      NormalizeIdIsNormal(itemId.value);
      UpsertKeepsSessionWellFormed(bin, s, item, expected, status, now);
      PutSession(bin, s.(items := items));
      r := Success(ScanReply(status, CorrectBin(expected), rec));
    }

    /**
     * Sets the resolved flag of one entry to the truthiness of `resolved`.
     * Neither id is normalised; an absent bin id reads the key "undefined".
     */
    method Resolve(binId: Option<string>, itemId: Option<string>, resolved: Json) returns (r: Result<(), ResolveError>)
      requires Valid()
      modifies this
      ensures Valid()
      ensures r == Failure(AuditNotFound) <==> ResolveKey(binId) !in old(audits)
      ensures r == Failure(ItemNotFound) <==>
                ResolveKey(binId) in old(audits)
                && (itemId.None? || FindEntry(old(audits)[ResolveKey(binId)].items, itemId.value).None?)
      ensures r.Failure? ==> State() == old(State())
      ensures r.Success? ==>
                var key := ResolveKey(binId);
                && binId.Some? && itemId.Some? && key in old(audits)
                && SetResolved(old(audits)[key].items, itemId.value, Truthy(resolved)).Some?
                && audits == old(audits)[key := old(audits)[key].(items := SetResolved(old(audits)[key].items, itemId.value, Truthy(resolved)).value)]
                && events == old(events) + [ItemResolved(key, itemId.value, Truthy(resolved))]
                && csvData == old(csvData) && validBins == old(validBins) && csvUploadedAt == old(csvUploadedAt)
                && auditOrder == old(auditOrder)
    {
      assert AuditsWellFormed(audits, auditOrder);
      var key := ResolveKey(binId);
      if key !in audits {
        return Failure(AuditNotFound);
      }
      if itemId.None? {
        return Failure(ItemNotFound);
      }
      var s := audits[key];
      var updated := SetResolved(s.items, itemId.value, Truthy(resolved));
      if updated.None? {
        return Failure(ItemNotFound);
      }
      assert binId.Some? by {
        assert !IsBinFormat("undefined");
      }
      SetResolvedKeepsSessionWellFormed(key, s, itemId.value, Truthy(resolved));
      PutSession(key, s.(items := updated.value));
      Announce(ItemResolved(key, itemId.value, Truthy(resolved)));
      r := Success(());
    }

    /** Closes the audit of `bin` (not normalised) at time `now`; it stays in the map and in the export. */
    method End(bin: string, now: string) returns (r: Result<string, EndError>)
      requires Valid()
      modifies this
      ensures Valid()
      ensures r.Failure? <==> bin !in old(audits)
      ensures r.Failure? ==> State() == old(State())
      ensures r.Success? ==>
                && r.value == bin
                && audits == old(audits)[bin := old(audits)[bin].(endTime := Some(now))]
                && events == old(events) + [AuditEnded(bin, now)]
                && csvData == old(csvData) && validBins == old(validBins) && csvUploadedAt == old(csvUploadedAt)
                && auditOrder == old(auditOrder)
    {
      if bin !in audits {
        return Failure(NoAudit);
      }
      PutSession(bin, audits[bin].(endTime := Some(now)));
      events := events + [AuditEnded(bin, now)];
      r := Success(bin);
    }

    /**
     * Builds the export: header, then for each bin in the order it was first
     * started, one detail row per entry of its session.
     */
    method ExportSummary() returns (r: Result<seq<seq<Cell>>, ExportError>)
      requires Valid()
      ensures r == ExportRows(audits, auditOrder)
    {
      if |audits| == 0 {
        return Failure(NoAudits);
      }
      var rows := EmitBinRows(audits, auditOrder);
      r := Success([Header()] + rows);
    }
  }

  /**
   * A scan with a bin id padded at either end never reaches a session: scan
   * upper-cases but does not trim, and every session key is three letters.
   */
  lemma PaddedBinIdHasNoSession(binId: string, audits: map<string, Session>, order: seq<string>)
    requires binId != [] && (IsWhitespace(binId[0]) || IsWhitespace(binId[|binId| - 1]))
    requires AuditsWellFormed(audits, order)
    ensures UpperAscii(binId) !in audits
  {
    var u := UpperAscii(binId);
    assert u[0] == UpperChar(binId[0]) && u[|u| - 1] == UpperChar(binId[|binId| - 1]);
    UpperKeepsWhitespace(binId[0]);
    UpperKeepsWhitespace(binId[|binId| - 1]);
    assert !IsBinFormat(u);
  }
}
