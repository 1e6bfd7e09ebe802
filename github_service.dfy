/** `githubService.js`: the access token kept in `localStorage`, the
    read of the data file (falling back to a built-in skeleton document)
    and the save protocol: read the file's current SHA, then PUT the new
    content carrying that SHA when there is one.

    The remote repository is a map from path to (content, sha). The
    network is not modelled: each request's reply is a parameter, so every
    success and failure the code distinguishes can be chosen. */
module GitHubService {
  import opened Common
  import opened Storage
  import opened Housing

  const RepoOwner: string := "M2KPortal"
  const RepoName: string := "M2KPortal.github.io"
  const Branch: string := "main"
  const DataFilePath: string := "m2k_2026_housing_data (1).json"
  const SettingsKey: string := "githubSettings"

  // ---------------------------------------------------------------------
  // Token store

  /** `getToken()` over the stored items: null when the settings entry is
      missing, empty or not JSON; otherwise the parsed `token` field, which
      is undefined (here None) when the object has none. */
  function TokenIn(items: map<string, StoredItem>): (r: Option<string>)
    ensures SettingsKey !in items ==> r == None
    ensures SettingsKey in items && items[SettingsKey].NotJson? ==> r == None
    ensures SettingsKey in items && items[SettingsKey].JsonObject? ==>
      (r.Some? <==> "token" in items[SettingsKey].fields) &&
      (r.Some? ==> r.value == items[SettingsKey].fields["token"])
  {
    match Lookup(items, SettingsKey)
    case None => None
    case Some(NotJson(_)) => None
    case Some(JsonObject(fields)) => if "token" in fields then Some(fields["token"]) else None
  }

  /** `!!getToken()`: the empty token counts as no token. */
  predicate HasTokenIn(items: map<string, StoredItem>)
    ensures HasTokenIn(items) <==>
      && SettingsKey in items && items[SettingsKey].JsonObject?
      && "token" in items[SettingsKey].fields && items[SettingsKey].fields["token"] != ""
  {
    TokenIn(items).Some? && TokenIn(items).value != ""
  }

  /** The object `saveGitHubToken` serializes. */
  function SettingsRecord(token: string, savedAt: string): (m: map<string, string>)
    ensures "token" in m && m["token"] == token
    ensures m.Keys == {"token", "owner", "repo", "branch", "filePath", "savedAt"}
  {
    map["token" := token, "owner" := RepoOwner, "repo" := RepoName,
        "branch" := Branch, "filePath" := DataFilePath, "savedAt" := savedAt]
  }

  /** Saving a token and reading it back gives the same token, and a
      non-empty one makes `hasGitHubToken` true. */
  lemma SaveTokenRoundTrip(items: map<string, StoredItem>, token: string, savedAt: string)
    ensures TokenIn(items[SettingsKey := JsonObject(SettingsRecord(token, savedAt))]) == Some(token)
    ensures token != "" <==> HasTokenIn(items[SettingsKey := JsonObject(SettingsRecord(token, savedAt))])
  {
  }

  /** After the settings entry is removed there is no token. */
  lemma ClearTokenRemovesIt(items: map<string, StoredItem>)
    ensures TokenIn(items - {SettingsKey}) == None
    ensures !HasTokenIn(items - {SettingsKey})
  {
  }

  /** `getToken()` reading the live store. */
  function GetToken(store: KeyValueStore): (r: Option<string>)
    reads store
    ensures r.Some? <==>
      && SettingsKey in store.items && store.items[SettingsKey].JsonObject?
      && "token" in store.items[SettingsKey].fields
    ensures r.Some? ==> r.value == store.items[SettingsKey].fields["token"]
  {
    TokenIn(store.items)
  }

  predicate HasGitHubToken(store: KeyValueStore)
    reads store
    ensures HasGitHubToken(store) <==>
      && SettingsKey in store.items && store.items[SettingsKey].JsonObject?
      && "token" in store.items[SettingsKey].fields && store.items[SettingsKey].fields["token"] != ""
  {
    HasTokenIn(store.items)
  }

  method SaveGitHubToken(store: KeyValueStore, token: string, savedAt: string)
    modifies store
    ensures store.items == old(store.items)[SettingsKey := JsonObject(SettingsRecord(token, savedAt))]
    ensures GetToken(store) == Some(token)
    ensures token != "" ==> HasGitHubToken(store)
  {
    store.SetItem(SettingsKey, JsonObject(SettingsRecord(token, savedAt)));
  }

  method ClearGitHubToken(store: KeyValueStore)
    modifies store
    ensures store.items == old(store.items) - {SettingsKey}
    ensures GetToken(store) == None && !HasGitHubToken(store)
  {
    store.RemoveItem(SettingsKey);
  }

  // ---------------------------------------------------------------------
  // Remote repository and replies

  datatype RemoteFile = RemoteFile(content: Document, sha: string)

  /** An HTTP status for which `response.ok` is false. */
  type ErrorStatus = s: int | 100 <= s < 600 && !(200 <= s < 300) witness 404

  /** How a GET is answered: by the repository itself (200 with the file,
      or 404 when there is none), by a non-ok status for reasons outside
      the model (authentication, rate limits, outages), or not at all
      (`fetch` rejects). */
  datatype Reply =
    | Served
    | Refused(status: ErrorStatus, statusText: string)
    | Unreachable(reason: string)

  /** How the PUT is answered. */
  datatype PutReply =
    | Committed(fileSha: string, commitSha: string)
    | PutRefused(status: ErrorStatus, message: string)
    | PutUnreachable(reason: string)

  /** The errors `saveHousingData` throws, with their `message`. */
  datatype SaveError =
    | TokenNotConfigured
    | ApiStatus(status: ErrorStatus, statusText: string)
    | PutFailed(message: string)
    | NetworkFailure(reason: string)
  {
    /** The thrown error's `message`. An API-status message starts with
        "GitHub API error: " and the status can be read back from the
        digits that follow it. */
    function Message(): (r: string)
      ensures TokenNotConfigured? ==> r == "GitHub token not configured. Please set it in Settings."
      ensures ApiStatus? ==>
        && "GitHub API error: " <= r
        && |r| >= 18 + |Decimal(status)|
        && DigitsValue(r[18..18 + |Decimal(status)|]) == status
        && r[18 + |Decimal(status)|..] == " " + statusText
      ensures PutFailed? ==> r == message
      ensures NetworkFailure? ==> r == reason
    {
      match this
      case TokenNotConfigured => "GitHub token not configured. Please set it in Settings."
      case ApiStatus(s, t) =>
        var head, digits, tail := "GitHub API error: ", Decimal(s), " " + t;
        var r := head + digits + tail;
        assert |head| == 18 && r[..18] == head;
        assert r[18..18 + |digits|] == digits;
        assert r[18 + |digits|..] == tail;
        r
      case PutFailed(m) => m
      case NetworkFailure(r) => r
    }
  }

  /** `{ success: true, commitSha }` */
  datatype SaveReceipt = SaveReceipt(commitSha: string)

  /** `getFileSha`: null on a 404 (the file does not exist yet), an error
      on any other non-ok status or a failed request, the file's SHA
      otherwise. */
  function GetFileSha(files: map<string, RemoteFile>, reply: Reply): (r: Result<Option<string>, SaveError>)
    ensures reply.Refused? ==> (r == Ok(None) <==> reply.status == 404)
    ensures reply.Refused? && reply.status != 404 ==> r == Err(ApiStatus(reply.status, reply.statusText))
    ensures reply.Unreachable? ==> r == Err(NetworkFailure(reply.reason))
    ensures reply.Served? ==> (r == Ok(None) <==> DataFilePath !in files)
    ensures reply.Served? && DataFilePath in files ==> r == Ok(Some(files[DataFilePath].sha))
  {
    match reply
    case Unreachable(reason) => Err(NetworkFailure(reason))
    case Refused(status, text) => if status == 404 then Ok(None) else Err(ApiStatus(status, text))
    case Served => if DataFilePath in files then Ok(Some(files[DataFilePath].sha)) else Ok(None)
  }

  // ---------------------------------------------------------------------
  // Default document and load

  const MealColors: seq<string> := ["Blue", "Red", "Orange", "Yellow", "Green", "Purple", "Brown", "Grey"]

  /** The meal times of each colour group in the skeleton document. */
  const DefaultMealTimes: map<string, MealTime> :=
    map[
      "Blue" := MealTime("7:00 AM", "12:00 PM", "5:30 PM", "7:30 AM"),
      "Red" := MealTime("7:15 AM", "12:15 PM", "5:45 PM", "7:45 AM"),
      "Orange" := MealTime("7:30 AM", "12:30 PM", "6:00 PM", "8:00 AM"),
      "Yellow" := MealTime("7:45 AM", "12:45 PM", "6:15 PM", "8:15 AM"),
      "Green" := MealTime("8:00 AM", "1:00 PM", "6:30 PM", "8:30 AM"),
      "Purple" := MealTime("8:15 AM", "1:15 PM", "6:45 PM", "8:45 AM"),
      "Brown" := MealTime("8:30 AM", "1:30 PM", "7:00 PM", "9:00 AM"),
      "Grey" := MealTime("8:45 AM", "1:45 PM", "7:15 PM", "9:15 AM")
    ]

  /** The skeleton has a time for exactly the eight meal colours. */
  lemma DefaultMealTimesShape()
    ensures DefaultMealTimes.Keys == set c | c in MealColors
    ensures |DefaultMealTimes| == 8
  {
    var k := {"Blue", "Red", "Orange", "Yellow", "Green", "Purple", "Brown", "Grey"};
    assert DefaultMealTimes.Keys == k;
    assert (set c | c in MealColors) == k;
    EightColors();
  }

  lemma EightColors()
    ensures |{"Blue", "Red", "Orange", "Yellow", "Green", "Purple", "Brown", "Grey"}| == 8
  {
    var s: set<string> := {};
    s := s + {"Blue"};
    assert |s| == 1;
    assert "Red" !in s;
    s := s + {"Red"};
    assert "Orange" !in s;
    s := s + {"Orange"};
    assert "Yellow" !in s;
    s := s + {"Yellow"};
    assert "Green" !in s;
    s := s + {"Green"};
    assert "Purple" !in s;
    s := s + {"Purple"};
    assert "Brown" !in s;
    s := s + {"Brown"};
    assert "Grey" !in s;
    s := s + {"Grey"};
    assert |s| == 8;
    assert s == {"Blue", "Red", "Orange", "Yellow", "Green", "Purple", "Brown", "Grey"};
  }

  /** `getInitialData()`; `stamp` is the ISO time it is built at. */
  function InitialData(stamp: string): (d: Document)
    ensures d.version == "3.0" && d.lastUpdated == stamp
    ensures d.youthGroups == [] && d.rooms == [] && PartitionsCurrent(d)
    ensures d.housingAssignments.male == map[] && d.housingAssignments.female == map[]
    ensures d.smallGroupAssignments == map[] && d.mealColorAssignments == map[]
    ensures NoDanglingAssignments(d)
    ensures (d.mealTimes.Keys == set c | c in MealColors) && |d.mealTimes| == 8
    ensures |d.activeColors| == 6 && forall c :: c in d.activeColors ==> c in d.mealTimes
    ensures d.adaIndividuals == Some([])
  {
    var d := Document(
      "3.0", stamp, [], [], [], [],
      HousingAssignments(map[], map[]), map[], map[],
      DefaultMealTimes,
      ["Blue", "Red", "Orange", "Yellow", "Green", "Purple"],
      Some([]),
      DefaultNotes("", "", "", ""),
      map[], []);
    DefaultMealTimesShape();
    d
  }

  /** `loadHousingData`: never fails. The stored document when the file is
      served; the skeleton on a 404, on any other status and on a failed
      request alike. */
  function LoadHousingData(files: map<string, RemoteFile>, reply: Reply, stamp: string): (d: Document)
    ensures !reply.Served? ==> d == InitialData(stamp)
    ensures DataFilePath !in files ==> d == InitialData(stamp)
    ensures reply.Served? && DataFilePath in files ==> d == files[DataFilePath].content
  {
    match reply
    case Served => if DataFilePath in files then files[DataFilePath].content else InitialData(stamp)
    case Refused(_, _) => InitialData(stamp)
    case Unreachable(_) => InitialData(stamp)
  }

  // ---------------------------------------------------------------------
  // Save

  /** The PUT request body. `content` stands for the base64 of the
      pretty-printed JSON of the document. */
  datatype PutBody = PutBody(message: string, content: Document, branch: string, sha: Option<string>)

  /** Builds the body and adds `sha` only when the fetched SHA is truthy. */
  method BuildPutBody(message: string, content: Document, currentSha: Option<string>) returns (body: PutBody)
    ensures body.message == message && body.content == content && body.branch == Branch
    ensures body.sha.Some? <==> currentSha.Some? && currentSha.value != ""
    ensures body.sha.Some? ==> body.sha == currentSha
  {
    body := PutBody(message, content, Branch, None);
    if currentSha.Some? && currentSha.value != "" {
      body := body.(sha := currentSha);
    }
  }

  /** The error a refused PUT throws: the reply's message, or a generic one
      when it has none. */
  function PutErrorMessage(status: ErrorStatus, message: string): (m: string)
    ensures message != "" ==> m == message
    ensures message == "" ==> m == "GitHub API error: " + Decimal(status)
  {
    if message != "" then message else "GitHub API error: " + Decimal(status)
  }

  class RemoteRepo {
    var files: map<string, RemoteFile>

    constructor (files: map<string, RemoteFile>)
      ensures this.files == files
    {
      this.files := files;
    }
  }

  /** `saveHousingData(doc)`. `sent` is the PUT body when a PUT was made.
      Nothing remote is touched without a token; only a committed PUT
      changes the repository, and then only the data file. */
  method SaveHousingData(store: KeyValueStore, repo: RemoteRepo, doc: Document,
                         shaReply: Reply, putReply: PutReply, stamp: string)
      returns (r: Result<SaveReceipt, SaveError>, sent: Option<PutBody>)
    modifies repo
    ensures !HasGitHubToken(store) ==> r == Err(TokenNotConfigured) && sent == None
    ensures HasGitHubToken(store) && GetFileSha(old(repo.files), shaReply).Err? ==>
      r == Err(GetFileSha(old(repo.files), shaReply).error) && sent == None
    ensures sent.Some? <==> HasGitHubToken(store) && GetFileSha(old(repo.files), shaReply).Ok?
    ensures sent.Some? ==>
      var currentSha := GetFileSha(old(repo.files), shaReply).value;
      && sent.value.message == "Update housing data - " + stamp
      && sent.value.content == doc && sent.value.branch == Branch
      && (sent.value.sha.Some? <==> currentSha.Some? && currentSha.value != "")
      && (sent.value.sha.Some? ==> sent.value.sha == currentSha)
    ensures sent.Some? && putReply.PutRefused? ==> r == Err(PutFailed(PutErrorMessage(putReply.status, putReply.message)))
    ensures sent.Some? && putReply.PutUnreachable? ==> r == Err(NetworkFailure(putReply.reason))
    ensures r.Ok? <==> sent.Some? && putReply.Committed?
    ensures r.Ok? ==> r.value.commitSha == Prefix(putReply.commitSha, 7)
    ensures r.Ok? ==> repo.files == old(repo.files)[DataFilePath := RemoteFile(doc, putReply.fileSha)]
    ensures r.Err? ==> repo.files == old(repo.files)
  {
    sent := None;
    var token := GetToken(store);
    if !(token.Some? && token.value != "") {
      return Err(TokenNotConfigured), sent;
    }
    var currentSha := GetFileSha(repo.files, shaReply);
    if currentSha.Err? {
      return Err(currentSha.error), sent;
    }
    var message := "Update housing data - " + stamp;
    var body := BuildPutBody(message, doc, currentSha.value);
    sent := Some(body);
    match putReply {
      case PutUnreachable(reason) =>
        r := Err(NetworkFailure(reason));
      case PutRefused(status, msg) =>
        r := Err(PutFailed(PutErrorMessage(status, msg)));
      case Committed(fileSha, commitSha) =>
        repo.files := repo.files[DataFilePath := RemoteFile(body.content, fileSha)];
        r := Ok(SaveReceipt(Prefix(commitSha, 7)));
    }
  }
}
