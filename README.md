# Bin audit engine model

A Dafny model of the audit session engine of the warehouse bin-audit
server (`server.js`). It covers:

- Inventory upload. Each parsed CSV record becomes a row with trimmed,
  upper-cased item and bin ids and trimmed display fields. The set of
  valid bins is rebuilt from the rows.
- Starting an audit of a bin. The bin id is normalised, checked for the
  three-capital-letter format, then checked against the valid bins. A
  fresh session replaces any earlier session for that bin.
- Scanning an item into an open audit. The scan is classified as
  "match", "mismatch", "no-bin" or "remove-item", and the entry is
  upserted: a rescan updates it in place, a new item goes in front.
- Resolving an entry, ending an audit, and exporting the summary. The
  export has one detail row per entry, with per-bin counts, the accuracy
  rounded half up, and a status label.

The server's state becomes the class `Engine.AuditEngine`. Its fields
are:

- the rows;
- the upload time;
- the valid bins;
- the audits, as a map from bin to session;
- the iteration order of the audits object, as the sequence of bins in
  order of their first start;
- the broadcast events, as a log.

Each request handler that changes the server's state is a method that
`modifies` the engine. Each states its error results, the complete new
state, and the class invariant it keeps. On every error path it also
guarantees that nothing changed. The export handler changes nothing: it
only reads the engine and states its result.

The pure parts are functions with lemmas beside them:

- `Text`: JavaScript `trim` over the ECMAScript whitespace set, and ASCII
  `toUpperCase`.
- `Inventory`: row normalisation, the valid bins, the listing order of a
  `Set`, and `find`.
- `BinValidation`, `Classifier`, `Sessions` and `Export`.

`PlainObject` models key lookup on the plain object that holds the
audits, including the properties it inherits. `Scenario` evaluates the
model on a two-row inventory.

Inputs that come from outside become parameters:

- the parsed CSV records;
- the request fields, as `Option<string>` when the body may lack them;
- the `resolved` value, as a small JSON datatype together with its
  truthiness;
- every clock reading, as a timestamp string.

The model follows the code in these choices:

- Item lookup takes the first row with the id.
- There is no "no inventory" rejection. Starting any bin fails then
  because the valid set is empty.
- A row with an empty bin gives expected bin "-" and the scan
  "mismatch".
- A terminal vendor status overrides every other outcome.
- A scan broadcasts no event.
- Starting an audit that is already open discards its items.
- There is no expected-items count or coverage figure.

## Model

| member | source | states |
|---|---|---|
| Text.IsWhitespace | server.js:70 | the characters `trim` removes are the ECMAScript WhiteSpace and LineTerminator code points, each a single UTF-16 code unit |
| Text.WhitespaceIsNotALetter | server.js:70 | no whitespace character is an ASCII letter; no-break space and the byte order mark are whitespace, the zero-width space is not |
| Text.Trim | server.js:70-75 | the trimmed string has no whitespace at either end |
| Text.TrimSpec | server.js:70-75 | `trim` keeps one contiguous block of the input, and everything it cuts from either side is whitespace |
| Text.SkipLeading | server.js:70 | the index reached is the first non-whitespace position at or after the start, and every character skipped is whitespace |
| Text.SkipTrailing | server.js:70 | the end reached leaves no trailing whitespace, and every character dropped is whitespace |
| Text.UpperChar | server.js:70 | a lower-case ASCII letter becomes its capital (code point minus 32); any other character is unchanged |
| Text.UpperAscii | server.js:70 | upper-casing keeps the length |
| Text.UpperAsciiChars | server.js:70 | upper-casing leaves no lower-case letter, capitalises each lower-case letter and keeps every other character |
| Text.NormalizeId | server.js:70 | normalising an id (trim, then upper-case) never makes it longer |
| Text.NormalizeIdIsNormal | server.js:70-71 | every trimmed, upper-cased id is trimmed and has no lower-case letter |
| Text.UpperOfTrimmed | server.js:166 | upper-casing a trimmed string gives a normal id, because case mapping neither creates nor removes whitespace |
| Text.UpperKeepsWhitespace | server.js:166 | upper-casing neither creates nor removes whitespace |
| Text.TrimmedIsFixed | server.js:72-75 | trimming a string without edge whitespace returns it unchanged |
| Text.NormalizeFixedPoints | server.js:131 | normal ids are exactly the fixed points of normalisation, and normalising twice changes nothing more |
| Inventory.OrEmpty | server.js:70-75 | `value \|\| ""` is empty exactly when the column is missing or empty, and is the column's value when present |
| Inventory.NormalizeRow | server.js:69-76 | a missing item or bin column is stored as "", and normalising never lengthens an id |
| Inventory.NormalizedRowFields | server.js:69-76 | every stored row has normal ids and trimmed display fields; a missing column is stored as ""; an already normal id is stored as it came |
| Inventory.NormalizeRows | server.js:68-77 | the upload stores one row per parsed record |
| Inventory.NormalizeRowsAt | server.js:68-77 | stored row i is parsed record i, normalised |
| Inventory.ReadRows | server.js:68-77 | the `data` handler pushes the normalised records in order, giving exactly the stored rows |
| Inventory.IngestNormalizes | server.js:69-85 | each stored id is the trimmed, upper-cased column value; a bin is valid exactly when it is non-empty and is some record's normalised bin |
| Inventory.ValidBins | server.js:85 | the empty bin is never valid, and an empty inventory has no valid bins |
| Inventory.ValidBinsMembers | server.js:85 | the valid bins are exactly the non-empty bins of the rows |
| Inventory.NonEmptyBins | server.js:85 | the filtered bin list holds exactly the non-empty bins of the rows |
| Inventory.Dedupe | server.js:85 | a `Set` lists each value once, and holds exactly the values it was built from |
| Inventory.FirstIndex | server.js:85 | the position found holds the value, and no earlier position does |
| Inventory.DedupeKeepsFirstOccurrenceOrder | server.js:85 | a `Set` lists its values in the order of their first occurrence in the input |
| Inventory.BinList | server.js:96 | the announced bin list has no duplicates and holds exactly the valid bins |
| Inventory.FindItem | server.js:171 | the lookup is None exactly when no row has the id; otherwise it is the earliest row with the id |
| Inventory.LookupRow | server.js:171 | looking up a row's own id gives an earlier or equal row with that id; with unique ids it gives the row itself |
| BinValidation.IsBinFormat | server.js:135 | a well-formed bin is never the empty bin or the "-" placeholder |
| BinValidation.ValidateBin | server.js:131-141 | a bad format is rejected first, and a well-formed bin outside the valid set second; success returns the normalised bin |
| BinValidation.FormatBeforeMembership | server.js:135-141 | a badly formed bin is rejected whatever bins are known |
| BinValidation.AcceptedBinIsStored | server.js:139 | an accepted bin is the bin of some stored row, so with no upload every bin is rejected |
| BinValidation.ValidationIgnoresCaseAndPadding | server.js:131-141 | codes that normalise alike (such as " abc " and "ABC") get the same answer against any set of bins |
| Classifier.IsTerminal | server.js:182-184 | only a non-empty vendor status can be terminal |
| Classifier.IsTerminalIgnoresCase | server.js:184 | the terminal test ignores case: upper-casing the status first changes nothing |
| Classifier.ExpectedBin | server.js:174 | the expected bin is "-" exactly when there is no row, the row's bin is empty, or it is "-"; otherwise it is the row's bin |
| Classifier.Classify | server.js:173-187 | remove-item exactly for a terminal status; no-bin exactly for an absent row; otherwise match or mismatch as the expected bin equals the scanned bin or not |
| Classifier.TerminalOverridesMatch | server.js:182-187 | a terminal status gives remove-item even in the right bin |
| Classifier.MatchMeansRowBin | server.js:174-180 | a match means the row exists and its bin is the scanned bin, or the row has no bin and the scanned bin is "-" (never a well-formed audit key) |
| Classifier.EmptyBinIsMismatch | server.js:174-187 | a row with no bin and a non-terminal status, scanned into a well-formed bin, is a mismatch with no correct bin |
| Classifier.CorrectBin | server.js:207 | the correct bin is null exactly for "-", and otherwise is the expected bin |
| Classifier.CorrectBinReported | server.js:174-207 | a correct bin is reported exactly when the row exists and names a real bin; it is that bin |
| Sessions.FindEntry | server.js:190 | the search is None exactly when no entry has the id; otherwise it is an index of an entry with the id |
| Sessions.Upsert | server.js:190-203 | a new id gets an unresolved entry in front of the others; an existing entry gets the new status and time and keeps all else |
| Sessions.UpsertKeepsIdsDistinct | server.js:189-203 | upserting keeps ids distinct; the id is then present, and the count grows by one exactly when it was new |
| Sessions.RescanPreserves | server.js:191-193 | a rescan keeps the entry's resolved flag and bins, and every other entry |
| Sessions.RescanIsIdempotent | server.js:189-203 | scanning a new item twice leaves one entry, with the second scan's status and time |
| Sessions.SetResolved | server.js:222-225 | resolving fails exactly when no entry has the id; otherwise only that entry's resolved flag changes |
| Sessions.SetResolvedOnlyTouchesFlag | server.js:225 | resolving changes no id, bin, status or time, and keeps ids distinct |
| Export.Header | server.js:255-262 | the header has the 13 export columns |
| Export.StatusName | server.js:282 | the exported status is "match" exactly for a match |
| Export.MatchCount | server.js:266 | the match count is at most the entry count; it is 0 exactly when no entry matches, and the total exactly when all do |
| Export.Accuracy | server.js:267 | accuracy is 100 * correct / total rounded half up, 0 for an empty session, at most 100, and 100 when every entry matches |
| Export.IsSet | server.js:268 | `audit.endTime` is falsy exactly when it is unset or empty (also used at server.js:278) |
| Export.StatusLabel | server.js:268 | the label is "Completed" exactly when the end time is set, and "In Progress" otherwise |
| Export.DetailRow | server.js:271-285 | a detail row has one cell per header column, with the bin first, the item id in column 8 and the status in column 11 |
| Export.SessionRows | server.js:270-286 | a session gives one row per entry |
| Export.EmitSessionRows | server.js:270-286 | the `forEach` pushes exactly the session's rows, in entry order |
| Export.EntryCount | server.js:264-287 | the entry count is 0 exactly when every exported session is empty |
| Export.BinRows | server.js:264-287 | there is exactly one detail row per scan entry |
| Export.EmitBinRows | server.js:264-287 | the loop over `Object.entries` gives exactly the detail rows, session after session in insertion order |
| Export.ExportRows | server.js:252-262 | exporting fails exactly when there is no audit; otherwise the header comes first |
| Export.SessionRowFields | server.js:271-285 | row j carries the bin, auditor, label, count, accuracy (within 0..100) and start time; the end time, or "-" when unset; and entry j's id, bins, status, Yes/No resolved flag and time |
| Export.RowsWellFormed | server.js:271-285 | every detail row has 13 columns and an accuracy within 0..100 |
| Engine.AuditorName | server.js:132 | the stored name is never empty; a missing or empty auditor reads as "Unknown", and any other name is kept |
| Engine.Truthy | server.js:225 | `!!resolved` is false exactly for undefined, null, false, 0 and "" |
| Engine.MissingInput | server.js:162 | when no field is reported missing, both ids are present and non-empty |
| Engine.ResolveKey | server.js:219 | a present bin id is the key used; an absent one reads the key "undefined", which is not a well-formed bin |
| Engine.UpsertKeepsSessionWellFormed | server.js:189-203 | a scan keeps a session's entries distinct, normal and in its own bin |
| Engine.SetResolvedKeepsSessionWellFormed | server.js:222-225 | resolving keeps a session well formed |
| Engine.InstallKeepsAuditsWellFormed | server.js:143-148 | storing a well-formed session under a three-letter bin keeps the audits object consistent with its key order |
| Engine.AuditEngine.constructor | server.js:39-56 | a fresh server has no rows, no valid bins and no audits, and an optional persisted upload time |
| Engine.AuditEngine.UploadCsv | server.js:62-105 | an upload stores the normalised rows and their valid bins, keeps the audits, and announces and answers the count and bin list |
| Engine.AuditEngine.ReplaceInventory | server.js:81-103 | storing the rows rebuilds the valid bins, keeps the audits, and announces the count and bin list |
| Engine.AuditEngine.PutSession | server.js:143-148 | `audits[bin] = s` replaces that bin's session, and a new key goes last in iteration order |
| Engine.AuditEngine.Announce | server.js:150 | broadcasting an event appends it to the log and changes no other state, keeping the class invariant |
| Engine.AuditEngine.Start | server.js:130-152 | start fails exactly as validation does, changing nothing; otherwise it installs a fresh session, adds a new bin last and announces the start |
| Engine.AuditEngine.Scan | server.js:158-210 | scan rejects a missing field, then a bin with no audit, changing nothing; otherwise it classifies, upserts and answers status, correct bin and row |
| Engine.AuditEngine.Resolve | server.js:216-229 | resolve gives audit-not-found exactly for an unknown key and item-not-found exactly for an unknown item, changing nothing; otherwise it sets the flag and announces it |
| Engine.AuditEngine.End | server.js:235-245 | end fails exactly for a bin with no audit, changing nothing; otherwise it sets the end time and announces it |
| Engine.AuditEngine.ExportSummary | server.js:251-294 | the export is exactly the header and detail rows of the sessions in insertion order, or the no-audits error |
| Engine.PaddedBinIdHasNoSession | server.js:165-169 | scan does not trim the bin id, so a bin id with whitespace at either end never names a session |
| PlainObject.PrototypeProperties | server.js:43 | the names a plain object inherits from `Object.prototype` include "constructor", "toString" and "__proto__" |
| PlainObject.Get | server.js:43 | a key is found as an own property exactly when it is one, and is inherited exactly when it is a prototype property and not own |
| PlainObject.EndStatusAsWritten | server.js:236-244 | as written, end answers 404 exactly when the bin is neither an own key nor an inherited property, and 200 otherwise |
| PlainObject.ResolveStepAsWritten | server.js:217-223 | as written, resolve answers 404 for a key neither own nor inherited, fails with 500 for an inherited one, and looks up the item only for an own key |
| PlainObject.EndAcceptsInheritedKey | server.js:238 | as written, ending bin "constructor" with no such audit answers 200 |
| PlainObject.ResolveCrashesOnInheritedKey | server.js:219-222 | as written, resolving in bin "toString" with no such audit reaches `items.find` on a function and fails with 500 |
| PlainObject.PrototypePropertiesHaveLowerCase | server.js:165 | every inherited property name has a lower-case letter at index 1 or 2 |
| PlainObject.UpperCasedKeyIsNeverInherited | server.js:165-168 | an upper-cased key never finds an inherited property, so scan and start are not affected |
| Scenario.UploadRows | server.js:69-76 | the two sample records are stored as their normalised rows |
| Scenario.UploadOutcomes | server.js:171-187 | on the sample inventory: A100 matches in ABC, A101 is remove-item because it is closed, Z999 is absent, and ABC is a valid bin |
| Scenario.StartAccepted | server.js:131-141 | bin ABC is accepted after the sample upload |
| Scenario.UploadInventory | server.js:62-105 | a fresh server given the sample upload holds exactly its rows and no audit |
| Scenario.OpenAudit | server.js:130-152 | uploading and then starting ABC for Jane gives one open, empty session |

## Left out

- HTTP transport is not modelled: Express routing, multer, status codes
  and JSON bodies. Each handler's outcome is a `Result`, with one error
  case per distinct response.
- CSV parsing is not modelled: parsed records are the input, with columns
  the record lacks as `None`.
- The temporary-file removal, the `data/csv-meta.json` write and the
  `/csv-status` endpoint are not modelled. They are file-system I/O. The
  upload time read at startup is a constructor parameter.
- Socket.io broadcasting is not modelled. Each emitted event is appended
  to an event log instead.
- Clock readings (`moment()`, `new Date()`) are not modelled. Each is a
  timestamp parameter, and formatting is left out.
- The export's attachment file name (server.js:292) is not modelled, and
  with it the `Date.now()` reading it contains. The export takes no time.
- Export.Accuracy: it is computed in exact integer arithmetic, not in
  double precision. The two agree whenever the double quotient rounds
  the way the exact one does.
- The final `join(",")` / `join("\n")` of the export is not modelled. The
  export is a sequence of typed cells. No quoting is done, as in the
  source.
- Strings are sequences of Unicode scalar values, while JavaScript
  strings are UTF-16 code units and a JSON body may carry lone
  surrogates. This is not modelled. Bin ids that matter are three ASCII
  capitals, so lookups and the bin format are unaffected.
- Text.UpperAscii: it is ASCII-only. Non-ASCII case mapping of
  `toUpperCase` (for example "ß" to "SS") is not modelled.
- Request fields that are not strings are not modelled: a number, an
  array, or a query parameter given twice. They are taken to be strings
  or absent. Only `resolved` is modelled as any JSON value, for its
  truthiness.
- The scan handler's unused auditor read (server.js:160) is not
  modelled.
- Writes through special keys such as `__proto__` are not modelled, nor
  is any other prototype side effect. `PlainObject` models reads only.
- The client (`public/app.js`, `live-app.js`) and the service worker are
  not part of this model.

## Findings

| source | as written | input that shows it | evidently intended | confidence | as-written member | corrected member |
|---|---|---|---|---|---|---|
| server.js:238 | `!audits[bin]` also finds properties inherited from `Object.prototype` | `POST /audit/end/constructor` with no audit of that name: the test passes, and the handler assigns `endTime` on the `Object` function and answers 200 | 404 "No active audit" unless `bin` is an own key | not executed | PlainObject.EndStatusAsWritten, PlainObject.EndAcceptsInheritedKey | Engine.AuditEngine.End |
| server.js:219-223 | `audits[binId]` finds an inherited function, which passes the existence test | resolve with `binId` "toString": `audit.items` is undefined, so `find` throws and the server answers 500 | 404 "Audit not found" unless `binId` is an own key | not executed | PlainObject.ResolveStepAsWritten, PlainObject.ResolveCrashesOnInheritedKey | Engine.AuditEngine.Resolve |
