/** The admin route that reports whether a deleted collection, file or
    stored object has left anything behind: a shared-token gate, then counts
    of the rows that still reference each given id and the presence of the
    stored object. The environment, the clock, the row counts and the
    storage listing are parameters. */
module VerifyDeletionRoute {
  import opened Wrappers
  import opened JsText
  import opened JsObject
  import opened Http

  // ---------------------------------------------------------------------------
  // The token gate

  /** `authHeader.replace(/^Bearer\s+/i, "")`: drops a leading "Bearer" in
      any case together with the whitespace run after it; a value without
      that prefix is left as it is. */
  function StripBearer(s: string): string {
    if |s| >= 7 && ToLower(s[..6]) == "bearer" && IsSpace(s[6]) then TrimStart(s[6..]) else s
  }

  /** `getToken`, given the `x-admin-token` and `authorization` headers. */
  function GetToken(adminHeader: Option<string>, authorization: Option<string>): (r: Option<string>)
    ensures adminHeader.Some? && adminHeader.value != "" ==> r == adminHeader
    ensures (adminHeader.None? || adminHeader.value == "") && (authorization.None? || authorization.value == "") ==> r.None?
  {
    if adminHeader.Some? && adminHeader.value != "" then adminHeader
    else if authorization.None? || authorization.value == "" then None
    else Some(Trim(StripBearer(authorization.value)))
  }

  /** Whitespace in front of text that starts with a non-space is exactly
      what `trimStart` drops. */
  lemma {:induction false} TrimStartSpaces(sp: string, t: string)
    requires forall k :: 0 <= k < |sp| ==> IsSpace(sp[k])
    requires t == [] || !IsSpace(t[0])
    ensures TrimStart(sp + t) == t
  {
    var s := sp + t;
    var r := TrimStart(s);
    TrimStartSpec(s);
    assert r == s[|sp|..];
    assert s[|sp|..] == t;
  }

  /** A `Bearer` credential, in any letter case and with any whitespace
      after the scheme, yields the token itself. */
  lemma {:induction false} BearerTokenExtracted(scheme: string, sp: string, t: string)
    requires |scheme| == 6 && ToLower(scheme) == "bearer"
    requires |sp| > 0 && forall k :: 0 <= k < |sp| ==> IsSpace(sp[k])
    requires t == [] || (!IsSpace(t[0]) && !IsSpace(t[|t| - 1]))
    ensures GetToken(None, Some(scheme + sp + t)) == Some(t)
  {
    var s := scheme + sp + t;
    assert StripBearer(s) == t by {
      assert s[..6] == scheme;
      assert s[6] == sp[0];
      assert s[6..] == sp + t;
      TrimStartSpaces(sp, t);
    }
    TrimNoOp(t);
  }

  /** An Authorization value without the scheme is only trimmed. */
  lemma {:induction false} OtherCredentialTrimmed(s: string)
    requires s != ""
    requires !(|s| >= 7 && ToLower(s[..6]) == "bearer" && IsSpace(s[6]))
    ensures GetToken(None, Some(s)) == Some(Trim(s))
    ensures GetToken(Some(""), Some(s)) == Some(Trim(s))
  {
  }

  /** The gate: a configured, non-empty token that the request repeats. */
  predicate TokenAccepted(adminToken: Option<string>, requestToken: Option<string>) {
    adminToken.Some? && adminToken.value != "" && requestToken == adminToken
  }

  /** No request passes when the token is not configured, and a request
      with no credential never passes. */
  lemma {:induction false} GateClosedWithoutToken(adminToken: Option<string>, adminHeader: Option<string>, authorization: Option<string>)
    ensures (adminToken.None? || adminToken == Some("")) ==> !TokenAccepted(adminToken, GetToken(adminHeader, authorization))
    ensures (adminHeader.None? || adminHeader == Some("")) && (authorization.None? || authorization == Some(""))
            ==> !TokenAccepted(adminToken, GetToken(adminHeader, authorization))
  {
  }

  // ---------------------------------------------------------------------------
  // Row counts

  /** The rows counted for a collection and for a file: (table, column). The
      table name is also the key of its count in the report. */
  const CollectionChecks: seq<(string, string)> := [
    ("collections", "id"), ("collection_files", "collection_id"),
    ("collection_workspaces", "collection_id"), ("assistant_collections", "collection_id"),
    ("chats", "collection_id")]

  const FileChecks: seq<(string, string)> := [
    ("files", "id"), ("file_items", "file_id"), ("chat_files", "file_id"),
    ("collection_files", "file_id"), ("assistant_files", "file_id"), ("file_workspaces", "file_id")]

  /** The exact-count query `(table, column, value)`: the count the database
      reports (which may be null), or its error message. */
  type Counter = (string, string, string) -> Result<Option<int>>

  /** The counts of `checks` for `value` (`getCount` over the list; a null
      count is 0), or the first failure as `"<table>: <message>"`. */
  function CountAll(checks: seq<(string, string)>, value: string, count: Counter): (r: Result<seq<int>>)
    ensures r.Ok? <==> forall i :: 0 <= i < |checks| ==> count(checks[i].0, checks[i].1, value).Ok?
    ensures r.Ok? ==> |r.value| == |checks|
                      && forall i :: 0 <= i < |checks| ==> r.value[i] == count(checks[i].0, checks[i].1, value).value.GetOr(0)
    ensures r.Err? ==> exists i :: 0 <= i < |checks| && count(checks[i].0, checks[i].1, value).Err?
                          && (forall j :: 0 <= j < i ==> count(checks[j].0, checks[j].1, value).Ok?)
                          && r.message == checks[i].0 + ": " + count(checks[i].0, checks[i].1, value).message
    decreases |checks|
  {
    if checks == [] then Ok([])
    else
      match count(checks[0].0, checks[0].1, value)
      case Err(m) => Err(checks[0].0 + ": " + m)
      case Ok(n) =>
        var rest := CountAll(checks[1..], value, count);
        CountsShift(checks, value, count);
        if rest.Err? then
          var i :| 0 <= i < |checks[1..]| && count(checks[1..][i].0, checks[1..][i].1, value).Err?
                   && (forall j :: 0 <= j < i ==> count(checks[1..][j].0, checks[1..][j].1, value).Ok?)
                   && rest.message == checks[1..][i].0 + ": " + count(checks[1..][i].0, checks[1..][i].1, value).message;
          assert checks[i + 1] == checks[1..][i];
          Err(rest.message)
        else
          Ok([n.GetOr(0)] + rest.value)
  }

  /** The checks after the first are the checks of the tail, one position
      later. */
  lemma {:induction false} CountsShift(checks: seq<(string, string)>, value: string, count: Counter)
    requires checks != []
    ensures forall i :: 0 < i < |checks| ==>
              count(checks[i].0, checks[i].1, value) == count(checks[1..][i - 1].0, checks[1..][i - 1].1, value)
  {
    forall i | 0 < i < |checks|
      ensures count(checks[i].0, checks[i].1, value) == count(checks[1..][i - 1].0, checks[1..][i - 1].1, value)
    {
      assert checks[i] == checks[1..][i - 1];
    }
  }

  /** The report for one id: the id, then each table's count under the
      table's name. */
  function Report(id: string, checks: seq<(string, string)>, counts: seq<int>): (r: Json)
    requires |counts| == |checks|
    ensures r.JObj? && Keys(r.fields) == ["id"] + seq(|checks|, i requires 0 <= i < |checks| => checks[i].0)
  {
    JObj([("id", JStr(id))] + seq(|checks|, i requires 0 <= i < |checks| => (checks[i].0, JNum(counts[i] as real))))
  }

  // ---------------------------------------------------------------------------
  // Storage

  /** The storage listing of a folder filtered by a name, as the names of
      the entries it returns (which may be null), or its error message. */
  type Lister = (string, string) -> Result<Option<seq<string>>>

  /** `{ path, status }`. */
  function StorageReport(path: string, status: string): Json {
    JObj([("path", JStr(path)), ("status", JStr(status))])
  }

  /** What `storageStatus(path)` gives: the last "/"-piece is the file name and the
      rest the folder; an empty name is an invalid path, looked up nowhere;
      otherwise the object is present when an entry of the listing has
      exactly that name. A listing error is `"storage: <message>"`. */
  function StorageOutcome(path: string, list: Lister): (r: Result<Json>)
    ensures LastPiece(path, '/') == "" ==> r == Ok(StorageReport(path, "invalid_path"))
    ensures LastPiece(path, '/') != "" ==> match list(AllButLastPiece(path, '/'), LastPiece(path, '/'))
              case Err(m) => r == Err("storage: " + m)
              case Ok(names) => r == Ok(StorageReport(path,
                                  if LastPiece(path, '/') in names.GetOr([]) then "present" else "missing"))
  {
    var fileName := LastPiece(path, '/');
    var folder := AllButLastPiece(path, '/');
    if fileName == "" then Ok(StorageReport(path, "invalid_path"))
    else match list(folder, fileName)
      case Err(m) => Err("storage: " + m)
      case Ok(data) =>
        var found := fileName in data.GetOr([]);
        Ok(StorageReport(path, if found then "present" else "missing"))
  }

  /** `storageStatus`: splits the path, pops the file name off the pieces,
      joins the rest back into the folder, and looks the name up. */
  method StorageStatus(path: string, list: Lister) returns (r: Result<Json>)
    ensures r == StorageOutcome(path, list)
  {
    var parts := Split(path, '/');
    var fileName := parts[|parts| - 1];
    parts := parts[..|parts| - 1];
    var folder := Join(parts, "/");
    if fileName == "" {
      return Ok(StorageReport(path, "invalid_path"));
    }
    var listed := list(folder, fileName);
    if listed.Err? {
      return Err("storage: " + listed.message);
    }
    var found := fileName in listed.value.GetOr([]);
    r := Ok(StorageReport(path, if found then "present" else "missing"));
  }

  /** The file name is empty exactly when the path is empty or ends in "/". */
  lemma {:induction false} InvalidPathIff(path: string)
    ensures LastPiece(path, '/') == "" <==> path == "" || path[|path| - 1] == '/'
  {
    LastPieceSplits(path, '/');
    var name := LastPiece(path, '/');
    if '/' in path && name != "" {
      assert path[|path| - 1] == name[|name| - 1];
      assert name[|name| - 1] in name;
    }
  }

  /** A path with a folder is that folder, "/", and a name holding no "/". */
  lemma {:induction false} PathSplits(path: string)
    requires '/' in path
    ensures path == AllButLastPiece(path, '/') + "/" + LastPiece(path, '/')
    ensures '/' !in LastPiece(path, '/')
  {
    LastPieceSplits(path, '/');
  }

  /** A listing that names the file exactly makes it present, whatever else
      it lists; one that does not makes it missing. */
  lemma {:induction false} StoragePresentIff(path: string, list: Lister)
    requires LastPiece(path, '/') != ""
    requires list(AllButLastPiece(path, '/'), LastPiece(path, '/')).Ok?
    ensures StorageOutcome(path, list).Ok?
    ensures StorageOutcome(path, list).value == StorageReport(path, "present")
            <==> LastPiece(path, '/') in list(AllButLastPiece(path, '/'), LastPiece(path, '/')).value.GetOr([])
  {
  }

  // ---------------------------------------------------------------------------
  // The report and the handler

  /** `result.key = Report(...)` when the id is given: the result so far,
      extended with the counts of `checks`, or the first error. */
  function AddCounts(result: Result<Obj<Json>>, key: string, id: string, checks: seq<(string, string)>,
                     count: Counter): Result<Obj<Json>>
  {
    if result.Err? || id == "" then result
    else match CountAll(checks, id, count)
      case Err(m) => Err(m)
      case Ok(counts) => Ok(Set(result.value, key, Report(id, checks, counts)))
  }

  /** The body of the `try` block: the timestamp, then a collection report
      when a collection id is given, a file report when a file id is given
      and a storage report when a path is given, in that order; the first
      failing query ends it with its message. */
  function Verification(timestamp: string, collectionId: string, fileId: string, filePath: string,
                        count: Counter, list: Lister): Result<Obj<Json>>
  {
    var withCollection := AddCounts(Ok([("timestamp", JStr(timestamp))]), "collection", collectionId, CollectionChecks, count);
    var withFile := AddCounts(withCollection, "file", fileId, FileChecks, count);
    AddStorage(withFile, filePath, list)
  }

  /** `result.storage = await storageStatus(filePath)` when a path is given. */
  function AddStorage(result: Result<Obj<Json>>, filePath: string, list: Lister): Result<Obj<Json>>
  {
    if result.Err? || filePath == "" then result
    else match StorageOutcome(filePath, list)
      case Err(m) => Err(m)
      case Ok(storage) => Ok(Set(result.value, "storage", storage))
  }

  /** The `try` block as the handler runs it: starts the result with the
      timestamp and assigns each section whose id is given, stopping at the
      first failure. */
  method BuildResult(timestamp: string, collectionId: string, fileId: string, filePath: string,
                     count: Counter, list: Lister) returns (r: Result<Obj<Json>>)
    ensures r == Verification(timestamp, collectionId, fileId, filePath, count, list)
  {
    var result: Obj<Json> := [("timestamp", JStr(timestamp))];
    var withCollection := AddSection(result, "collection", collectionId, CollectionChecks, count);
    if withCollection.Err? {
      return withCollection;
    }
    var withFile := AddSection(withCollection.value, "file", fileId, FileChecks, count);
    if withFile.Err? {
      return withFile;
    }
    result := withFile.value;
    if filePath != "" {
      var storage := StorageStatus(filePath, list);
      if storage.Err? {
        return Err(storage.message);
      }
      result := Set(result, "storage", storage.value);
    }
    r := Ok(result);
  }

  /** `if (id) { ...; result.key = { id, ...counts } }`. */
  method AddSection(result: Obj<Json>, key: string, id: string, checks: seq<(string, string)>, count: Counter)
    returns (r: Result<Obj<Json>>)
    ensures r == AddCounts(Ok(result), key, id, checks, count)
  {
    r := Ok(result);
    if id != "" {
      var counts := CountAll(checks, id, count);
      if counts.Err? {
        return Err(counts.message);
      }
      r := Ok(Set(result, key, Report(id, checks, counts.value)));
    }
  }

  function KeyIf(given: bool, key: string): seq<string> {
    if given then [key] else []
  }

  /** A report always carries the timestamp first, and a section for exactly
      the ids that were given, in the order collection, file, storage. */
  lemma {:induction false} VerificationKeys(timestamp: string, collectionId: string, fileId: string, filePath: string,
                         count: Counter, list: Lister)
    requires Verification(timestamp, collectionId, fileId, filePath, count, list).Ok?
    ensures var r := Verification(timestamp, collectionId, fileId, filePath, count, list).value;
            Keys(r) == ["timestamp"] + KeyIf(collectionId != "", "collection") + KeyIf(fileId != "", "file")
                       + KeyIf(filePath != "", "storage")
            && Get(r, "timestamp") == Some(JStr(timestamp))
  {
    var r0: Obj<Json> := [("timestamp", JStr(timestamp))];
    var r1 := AddCounts(Ok(r0), "collection", collectionId, CollectionChecks, count);
    var r2 := AddCounts(r1, "file", fileId, FileChecks, count);
    assert r1.Ok? && r2.Ok?;
    var k1, k2, k3 := KeyIf(collectionId != "", "collection"), KeyIf(fileId != "", "file"), KeyIf(filePath != "", "storage");
    assert Keys(r0) == ["timestamp"];
    SectionAppended(r0, "collection", collectionId, CollectionChecks, count);
    assert Keys(r1.value) == ["timestamp"] + k1;
    SectionAppended(r1.value, "file", fileId, FileChecks, count);
    assert Keys(r2.value) == ["timestamp"] + k1 + k2;
    StorageAppended(r2.value, filePath, list);
    var r := AddStorage(r2, filePath, list).value;
    assert Keys(r) == ["timestamp"] + k1 + k2 + k3;
    assert r == Verification(timestamp, collectionId, fileId, filePath, count, list).value;
    assert r[0] == r0[0] by {
      assert r1.value[..1] == r0;
      assert r2.value[..|r1.value|] == r1.value;
      assert r[..|r2.value|] == r2.value;
    }
    GetFirstAt(r, 0);
  }

  /** Assigning the storage report of a given path appends it after what
      is there. */
  lemma {:induction false} StorageAppended(result: Obj<Json>, filePath: string, list: Lister)
    requires "storage" !in Keys(result)
    requires AddStorage(Ok(result), filePath, list).Ok?
    ensures var r := AddStorage(Ok(result), filePath, list).value;
            Keys(r) == Keys(result) + KeyIf(filePath != "", "storage")
            && |r| >= |result| && r[..|result|] == result
  {
    if filePath != "" {
      SetAppends(result, "storage", StorageOutcome(filePath, list).value);
    }
  }

  /** Assigning the section of a given id appends it after what is there. */
  lemma {:induction false} SectionAppended(result: Obj<Json>, key: string, id: string,
                                           checks: seq<(string, string)>, count: Counter)
    requires key !in Keys(result)
    requires AddCounts(Ok(result), key, id, checks, count).Ok?
    ensures var r := AddCounts(Ok(result), key, id, checks, count).value;
            Keys(r) == Keys(result) + KeyIf(id != "", key)
            && |r| >= |result| && r[..|result|] == result
  {
    if id != "" {
      var counts := CountAll(checks, id, count).value;
      SetAppends(result, key, Report(id, checks, counts));
    }
  }

  /** A failed count's message is never empty: it starts with the table. */
  lemma {:induction false} CountErrorNamed(checks: seq<(string, string)>, value: string, count: Counter)
    ensures CountAll(checks, value, count).Err? ==> |CountAll(checks, value, count).message| >= 2
  {
    var r := CountAll(checks, value, count);
    if r.Err? {
      var i :| 0 <= i < |checks| && count(checks[i].0, checks[i].1, value).Err?
               && r.message == checks[i].0 + ": " + count(checks[i].0, checks[i].1, value).message;
    }
  }

  /** A report fails exactly when a query that runs fails. */
  lemma {:induction false} VerificationFailsIff(timestamp: string, collectionId: string, fileId: string, filePath: string,
                             count: Counter, list: Lister)
    ensures Verification(timestamp, collectionId, fileId, filePath, count, list).Err?
            <==> (collectionId != "" && CountAll(CollectionChecks, collectionId, count).Err?)
                 || (fileId != "" && CountAll(FileChecks, fileId, count).Err?)
                 || (filePath != "" && StorageOutcome(filePath, list).Err?)
  {
  }

  /** The message of a failed report is never empty: it always names the
      table or the storage. */
  lemma {:induction false} VerificationFailsWithMessage(timestamp: string, collectionId: string, fileId: string, filePath: string,
                                     count: Counter, list: Lister)
    ensures Verification(timestamp, collectionId, fileId, filePath, count, list).Err? ==>
              Verification(timestamp, collectionId, fileId, filePath, count, list).message != ""
  {
    var r0: Obj<Json> := [("timestamp", JStr(timestamp))];
    var c := AddCounts(Ok(r0), "collection", collectionId, CollectionChecks, count);
    var f := AddCounts(c, "file", fileId, FileChecks, count);
    assert c.Err? ==> |c.message| >= 2 by {
      CountErrorNamed(CollectionChecks, collectionId, count);
    }
    assert f.Err? ==> |f.message| >= 2 by {
      CountErrorNamed(FileChecks, fileId, count);
    }
    var v := AddStorage(f, filePath, list);
    assert v.Err? ==> |v.message| >= 2 by {
      if f.Ok? && filePath != "" {
        var st := StorageOutcome(filePath, list);
        assert st.Err? ==> |st.message| >= 9;
      }
    }
    assert v == Verification(timestamp, collectionId, fileId, filePath, count, list);
  }

  /** The trimmed text of a field the handler treats as given, else "". */
  function GivenText(a: Access): string {
    if Given(a) then a.value.s else ""
  }

  /** `POST`, given the configured token, the two token headers, the two
      Supabase settings, the parsed body (`None` when it is not JSON), the
      current time as an ISO string, the counts and the storage listing. */
  function Post(adminToken: Option<string>, adminHeader: Option<string>, authorization: Option<string>,
                supabaseUrl: Option<string>, serviceKey: Option<string>, body: Option<Json>,
                timestamp: string, count: Counter, list: Lister): Outcome
  {
    if !TokenAccepted(adminToken, GetToken(adminHeader, authorization)) then Respond(404, PlainText("Not Found"))
    else if supabaseUrl.None? || supabaseUrl.value == "" || serviceKey.None? || serviceKey.value == "" then
      Respond(500, Message("Missing Supabase config."))
    else if body.None? then Respond(400, Message("Invalid JSON payload."))
    else
      var collectionId := TrimmedProp(body.value, "collectionId");
      var fileId := TrimmedProp(body.value, "fileId");
      var filePath := TrimmedProp(body.value, "filePath");
      if collectionId.Throws? || fileId.Throws? || filePath.Throws? then Throw
      else if !Given(collectionId) && !Given(fileId) && !Given(filePath) then
        Respond(400, Message("Provide a collectionId, fileId, or filePath."))
      else match Verification(timestamp, GivenText(collectionId), GivenText(fileId), GivenText(filePath), count, list)
        case Ok(result) => Respond(200, JsonBody(JObj(result)))
        case Err(m) => Respond(500, Message(if m != "" then m else "Verification failed."))
  }

  /** The token gate comes before every other check. */
  lemma {:induction false} GateFirst(adminToken: Option<string>, adminHeader: Option<string>, authorization: Option<string>,
                  supabaseUrl: Option<string>, serviceKey: Option<string>, body: Option<Json>,
                  timestamp: string, count: Counter, list: Lister)
    requires !TokenAccepted(adminToken, GetToken(adminHeader, authorization))
    ensures Post(adminToken, adminHeader, authorization, supabaseUrl, serviceKey, body, timestamp, count, list)
            == Respond(404, PlainText("Not Found"))
  {
  }

  /** Past the gate and the configuration, a body that is not JSON, or one
      that gives none of the three ids, is a 400. */
  lemma {:induction false} BadRequests(adminToken: string, supabaseUrl: string, serviceKey: string, fields: Obj<Json>,
                    timestamp: string, count: Counter, list: Lister)
    requires adminToken != "" && supabaseUrl != "" && serviceKey != ""
    requires forall k :: k in Keys(fields) ==> k !in {"collectionId", "fileId", "filePath"}
    ensures Post(Some(adminToken), Some(adminToken), None, Some(supabaseUrl), Some(serviceKey), None, timestamp, count, list)
            == Respond(400, Message("Invalid JSON payload."))
    ensures Post(Some(adminToken), Some(adminToken), None, Some(supabaseUrl), Some(serviceKey), Some(JObj(fields)),
                 timestamp, count, list)
            == Respond(400, Message("Provide a collectionId, fileId, or filePath."))
  {
    assert Get(fields, "collectionId").None? && Get(fields, "fileId").None? && Get(fields, "filePath").None?;
  }

  /** Once the checks pass, the response is the report with status 200, or
      the failing query's own message with status 500: the generic
      "Verification failed." is never sent. */
  lemma {:induction false} ReportOrError(adminToken: string, supabaseUrl: string, serviceKey: string, fields: Obj<Json>,
                      timestamp: string, count: Counter, list: Lister)
    requires adminToken != "" && supabaseUrl != "" && serviceKey != ""
    requires var b := JObj(fields);
             !TrimmedProp(b, "collectionId").Throws? && !TrimmedProp(b, "fileId").Throws? && !TrimmedProp(b, "filePath").Throws?
    requires var b := JObj(fields);
             Given(TrimmedProp(b, "collectionId")) || Given(TrimmedProp(b, "fileId")) || Given(TrimmedProp(b, "filePath"))
    ensures var b := JObj(fields);
            Post(Some(adminToken), Some(adminToken), None, Some(supabaseUrl), Some(serviceKey), Some(b), timestamp, count, list)
            == match Verification(timestamp, GivenText(TrimmedProp(b, "collectionId")), GivenText(TrimmedProp(b, "fileId")),
                                  GivenText(TrimmedProp(b, "filePath")), count, list)
               case Ok(result) => Respond(200, JsonBody(JObj(result)))
               case Err(m) => Respond(500, Message(m))
  {
    var b := JObj(fields);
    VerificationFailsWithMessage(timestamp, GivenText(TrimmedProp(b, "collectionId")), GivenText(TrimmedProp(b, "fileId")),
                                 GivenText(TrimmedProp(b, "filePath")), count, list);
  }
}
