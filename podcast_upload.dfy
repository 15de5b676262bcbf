/**
 * Podcast upload: pick the one audio file of a directory, derive its title, tags and
 * description, build the multipart form and report what the server answered.
 *
 * The filesystem (existence checks and the directory listing), the clock and the HTTP
 * POST are inputs: `post` is the server, taking the request and giving back either a
 * response or the exception raised while sending it.
 */
module PodcastUpload {
  import opened Wrappers
  import opened Seqs
  import opened PyText
  import opened TradingSession

  // ---------------------------------------------------------------- file names

  /** `Path(name).suffix`: from the last dot on, when that dot is neither the first nor the last character. */
  function Suffix(name: string): (r: string)
    ensures r == [] || (2 <= |r| <= |name| && r[0] == '.' && r == name[|name| - |r|..] && '.' !in r[1..])
  {
    var i := RFind(name, '.');
    if 0 < i < |name| - 1 then name[i..] else ""
  }

  /** `Path(name).stem`: the name without its suffix. */
  function Stem(name: string): (r: string)
    ensures r + Suffix(name) == name
    ensures r == name <==> Suffix(name) == []
  {
    var i := RFind(name, '.');
    if 0 < i < |name| - 1 then name[..i] else name
  }

  /**
   * A name has a given extension (any case) exactly when it ends with it and has at least one
   * character before it: a leading dot starts a hidden name, not a suffix.
   */
  lemma SuffixIsExtByEnding(name: string, ext: string)
    requires |ext| >= 2 && ext[0] == '.' && '.' !in ext[1..]
    ensures Lower(Suffix(name)) == ext <==> |name| > |ext| && Lower(name[|name| - |ext|..]) == ext
  {
    var n, k := |name|, |ext|;
    if n > k && Lower(name[n - k..]) == ext {
      assert LowerChar(name[n - k]) == Lower(name[n - k..])[0];
      forall j | n - k < j < n
        ensures name[j] != '.'
      {
        assert LowerChar(name[j]) == Lower(name[n - k..])[j - (n - k)];
        assert ext[j - (n - k)] in ext[1..];
      }
      assert RFind(name, '.') == n - k;
    }
  }

  /** One directory entry: its name, its path as iteration yields it, and whether it is a regular file. */
  datatype Entry = Entry(name: string, path: string, isFile: bool)

  const AudioExtensions: set<string> := {".mp3", ".wav", ".m4a", ".aac", ".ogg", ".flac"}

  predicate IsAudioFile(e: Entry) {
    e.isFile && Lower(Suffix(e.name)) in AudioExtensions
  }

  /** The candidate audio files: the regular files with an audio suffix (any case), in listing order. */
  function AudioFiles(listing: seq<Entry>): seq<Entry> {
    Filter(listing, IsAudioFile)
  }

  /** There is no candidate exactly when no entry is a regular file with an audio suffix. */
  lemma AudioFilesEmpty(listing: seq<Entry>)
    ensures AudioFiles(listing) == [] <==> forall i :: 0 <= i < |listing| ==> !IsAudioFile(listing[i])
  {
    if AudioFiles(listing) == [] {
      FilterEmpty(listing, IsAudioFile);
    } else {
      assert AudioFiles(listing)[0] in listing;
    }
  }

  // ---------------------------------------------------------------- title, tags, description

  function Title(stem: string): string {
    "Podcast: " + stem
  }

  /** The upper-cased text before the first `_`, kept only when it is 2 to 5 characters long. */
  function SymbolTag(stem: string): (r: seq<string>)
    ensures |r| <= 1
    ensures r != [] ==> var k := |r[0]|;
      2 <= k <= 5 && k < |stem| && stem[k] == '_' && '_' !in stem[..k] && r[0] == Upper(stem[..k])
    ensures r == [] ==> forall k :: 2 <= k <= 5 && k < |stem| && stem[k] == '_' ==> '_' in stem[..k]
  {
    if '_' in stem then
      var symbol := Upper(PrefixBefore(stem, '_'));
      if 2 <= |symbol| <= 5 then [symbol] else []
    else []
  }

  /** `session_1`, `session_2` or `session_3`. */
  function SessionTag(session: SessionCode): (r: string)
    ensures r == ["session_1", "session_2", "session_3"][session - 1]
  {
    "session_" + [('0' as int + session) as char]
  }

  /** What the file name says the episode is about; "market" wins over "analysis". */
  datatype ContentKind = MarketKind | StockKind | GeneralKind

  function KindOf(stem: string): (r: ContentKind)
    ensures r == MarketKind <==> exists i :: OccursAtIgnoringCase(stem, "market", i)
    ensures r == StockKind <==>
      (forall i :: !OccursAtIgnoringCase(stem, "market", i)) && exists i :: OccursAtIgnoringCase(stem, "analysis", i)
  {
    LowerContains(stem, "market");
    LowerContains(stem, "analysis");
    var lower := Lower(stem);
    if Contains(lower, "market") then MarketKind
    else if Contains(lower, "analysis") then StockKind
    else GeneralKind
  }

  function KindTags(kind: ContentKind): seq<string> {
    match kind
    case MarketKind => ["MARKET", "ANALYSIS"]
    case StockKind => ["STOCK", "ANALYSIS"]
    case GeneralKind => ["GENERAL"]
  }

  /** The description, ending in the upload time formatted as `%d/%m/%Y %H:%M` (`stamp`). */
  function Description(kind: ContentKind, stamp: string): string {
    match kind
    case MarketKind => "Phân tích thị trường - " + stamp
    case StockKind => "Phân tích cổ phiếu - " + stamp
    case GeneralKind => "Podcast được tạo từ Stock AI Tool - " + stamp
  }

  /** The tag list, in order: symbol (maybe), session, date (`%Y%m%d`), content tags. */
  function PodcastTags(stem: string, session: SessionCode, date: string): seq<string> {
    SymbolTag(stem) + [SessionTag(session), date] + KindTags(KindOf(stem))
  }

  /** Tag derivation as the upload does it, one append or extend at a time. */
  method DeriveTags(stem: string, now: Time, date: string, stamp: string) returns (tags: seq<string>, description: string)
    requires now.Valid()
    ensures tags == PodcastTags(stem, Session(now), date)
    ensures description == Description(KindOf(stem), stamp)
  {
    tags := [];
    if '_' in stem {
      var symbol := Upper(PrefixBefore(stem, '_'));
      if 2 <= |symbol| <= 5 {
        tags := tags + [symbol];
      }
    }
    tags := tags + [SessionTag(Session(now))];
    tags := tags + [date];
    var lower := Lower(stem);
    if Contains(lower, "market") {
      tags := tags + ["MARKET", "ANALYSIS"];
      description := Description(MarketKind, stamp);
    } else if Contains(lower, "analysis") {
      tags := tags + ["STOCK", "ANALYSIS"];
      description := Description(StockKind, stamp);
    } else {
      tags := tags + ["GENERAL"];
      description := Description(GeneralKind, stamp);
    }
  }

  /**
   * The layout of the tag list: an optional symbol, then the session and the date, then
   * exactly the content tags; a symbol is present only when the stem has an `_` and its
   * upper-cased prefix is 2 to 5 characters long.
   */
  lemma PodcastTagsLayout(stem: string, session: SessionCode, date: string)
    ensures var tags, n := PodcastTags(stem, session, date), |SymbolTag(stem)|;
      && n <= 1
      && 3 <= |tags| <= 5
      && tags[n] == SessionTag(session) && tags[n + 1] == date
      && tags[n + 2..] == KindTags(KindOf(stem))
      && (n == 1 <==> '_' in stem && 2 <= |PrefixBefore(stem, '_')| <= 5)
      && (n == 1 ==> tags[0] == Upper(PrefixBefore(stem, '_')))
  {
  }

  /** A stem mentioning "market" in any case is tagged MARKET, ANALYSIS even when it also mentions "analysis". */
  lemma MarketTakesPriority(stem: string, session: SessionCode, date: string)
    requires Contains(Lower(stem), "market")
    ensures PodcastTags(stem, session, date)[|PodcastTags(stem, session, date)| - 2..] == ["MARKET", "ANALYSIS"]
  {
  }

  lemma VcbReportStem()
    ensures Stem("VCB_report.mp3") == "VCB_report"
  {
    var name := "VCB_report.mp3";
    assert name[10] == '.' && name[11] != '.' && name[12] != '.' && name[13] != '.';
    assert RFind(name, '.') == 10;
  }

  lemma VcbReportKind()
    ensures KindOf("VCB_report") == GeneralKind
  {
    var lower := Lower("VCB_report");
    assert lower == "vcb_report";
    assert !Contains(lower, "market") by {
      forall i | 0 <= i <= |lower| - 6 ensures !OccursAt(lower, "market", i) {
        assert lower[i] != "market"[0];
      }
    }
    assert !Contains(lower, "analysis") by {
      forall i | 0 <= i <= |lower| - 8 ensures !OccursAt(lower, "analysis", i) {
        assert lower[i] != "analysis"[0];
      }
    }
  }

  lemma VcbReportSymbol()
    ensures SymbolTag("VCB_report") == ["VCB"]
  {
    assert PrefixBefore("VCB_report", '_') == "VCB";
    assert Upper("VCB") == "VCB";
  }

  /** The file `VCB_report.mp3` is titled after its stem and tagged VCB, session, date, GENERAL. */
  lemma VcbReportExample(session: SessionCode, date: string)
    ensures Title(Stem("VCB_report.mp3")) == "Podcast: VCB_report"
    ensures PodcastTags(Stem("VCB_report.mp3"), session, date) == ["VCB", SessionTag(session), date, "GENERAL"]
  {
    VcbReportStem();
    VcbReportKind();
    VcbReportSymbol();
  }

  // ---------------------------------------------------------------- multipart form

  /** One part of the multipart body: the audio file part, or a text field. */
  datatype FormField =
    | FileField(name: string, fileName: string, contentType: string)
    | TextField(name: string, value: string)

  /** `audio/mpeg` for an `.mp3` file (any case), `audio/wav` for every other file. */
  function ContentType(fileName: string): (r: string)
    ensures r == "audio/mpeg" <==> |fileName| > 4 && Lower(fileName[|fileName| - 4..]) == ".mp3"
    ensures r != "audio/mpeg" ==> r == "audio/wav"
  {
    SuffixIsExtByEnding(fileName, ".mp3");
    if Lower(Suffix(fileName)) == ".mp3" then "audio/mpeg" else "audio/wav"
  }

  /** An optional field is sent only when its value is not empty (Python: `None` or `""`). */
  function OptionalField(name: string, value: string): seq<FormField> {
    if value != "" then [TextField(name, value)] else []
  }

  function TagFields(tags: seq<string>): seq<FormField> {
    seq(|tags|, i requires 0 <= i < |tags| => TextField("tags", tags[i]))
  }

  /** The fields in the order they are added: audio, title, secretKey, the optional ones, one `tags` field per tag. */
  function UploadForm(
    fileName: string, title: string, secretKey: string,
    description: string, uploadedBy: string, status: string, tags: seq<string>): seq<FormField>
  {
    [FileField("audio", fileName, ContentType(fileName)), TextField("title", title), TextField("secretKey", secretKey)]
    + OptionalField("description", description)
    + OptionalField("uploadedBy", uploadedBy)
    + OptionalField("status", status)
    + TagFields(tags)
  }

  /** The values sent under text fields named `name`, in order. */
  function ValuesOf(fields: seq<FormField>, name: string): seq<string> {
    if fields == [] then []
    else (if fields[0].TextField? && fields[0].name == name then [fields[0].value] else []) + ValuesOf(fields[1..], name)
  }

  lemma {:induction false} ValuesOfAppend(a: seq<FormField>, b: seq<FormField>, name: string)
    ensures ValuesOf(a + b, name) == ValuesOf(a, name) + ValuesOf(b, name)
  {
    if a == [] {
      assert a + b == b;
    } else {
      assert (a + b)[1..] == a[1..] + b;
      ValuesOfAppend(a[1..], b, name);
    }
  }

  lemma {:induction false} TagFieldValues(tags: seq<string>, name: string)
    ensures ValuesOf(TagFields(tags), name) == if name == "tags" then tags else []
  {
    if tags != [] {
      assert TagFields(tags)[1..] == TagFields(tags[1..]);
      TagFieldValues(tags[1..], name);
    }
  }

  lemma ValuesOfOptional(field: string, value: string, name: string)
    ensures ValuesOf(OptionalField(field, value), name) == if name == field && value != "" then [value] else []
  {
  }

  lemma ValuesOfRequired(fileName: string, title: string, secretKey: string, name: string)
    ensures ValuesOf([FileField("audio", fileName, ContentType(fileName)), TextField("title", title), TextField("secretKey", secretKey)], name)
         == (if name == "title" then [title] else []) + (if name == "secretKey" then [secretKey] else [])
  {
    var head := [FileField("audio", fileName, ContentType(fileName)), TextField("title", title), TextField("secretKey", secretKey)];
    assert head[1..][1..][1..] == [];
    assert ValuesOf(head[1..][1..], name) == (if name == "secretKey" then [secretKey] else []) + ValuesOf(head[1..][1..][1..], name);
    assert ValuesOf(head[1..], name) == (if name == "title" then [title] else []) + ValuesOf(head[1..][1..], name);
    assert ValuesOf(head, name) == [] + ValuesOf(head[1..], name);
  }

  /** The values sent under one name are those of the required fields, then of each optional field, then of the tags. */
  lemma FormValuesByPart(
    fileName: string, title: string, secretKey: string,
    description: string, uploadedBy: string, status: string, tags: seq<string>, name: string)
    ensures ValuesOf(UploadForm(fileName, title, secretKey, description, uploadedBy, status, tags), name)
         == (if name == "title" then [title] else [])
            + (if name == "secretKey" then [secretKey] else [])
            + (if name == "description" && description != "" then [description] else [])
            + (if name == "uploadedBy" && uploadedBy != "" then [uploadedBy] else [])
            + (if name == "status" && status != "" then [status] else [])
            + (if name == "tags" then tags else [])
  {
    var head := [FileField("audio", fileName, ContentType(fileName)), TextField("title", title), TextField("secretKey", secretKey)];
    var d, u, s := OptionalField("description", description), OptionalField("uploadedBy", uploadedBy), OptionalField("status", status);
    ValuesOfAppend(head + d + u + s, TagFields(tags), name);
    ValuesOfAppend(head + d + u, s, name);
    ValuesOfAppend(head + d, u, name);
    ValuesOfAppend(head, d, name);
    TagFieldValues(tags, name);
    ValuesOfRequired(fileName, title, secretKey, name);
    ValuesOfOptional("description", description, name);
    ValuesOfOptional("uploadedBy", uploadedBy, name);
    ValuesOfOptional("status", status, name);
  }

  /**
   * What the server receives: one audio part, first, with the content type chosen by the
   * suffix; exactly one `title` and one `secretKey`; `description`, `uploadedBy` and
   * `status` once each when not empty and otherwise not at all; the tags, in order, as
   * repeated `tags` fields.
   */
  lemma UploadFormContents(
    fileName: string, title: string, secretKey: string,
    description: string, uploadedBy: string, status: string, tags: seq<string>)
    ensures var form := UploadForm(fileName, title, secretKey, description, uploadedBy, status, tags);
      && form[0] == FileField("audio", fileName, ContentType(fileName))
      && ValuesOf(form, "title") == [title]
      && ValuesOf(form, "secretKey") == [secretKey]
      && ValuesOf(form, "description") == (if description != "" then [description] else [])
      && ValuesOf(form, "uploadedBy") == (if uploadedBy != "" then [uploadedBy] else [])
      && ValuesOf(form, "status") == (if status != "" then [status] else [])
      && ValuesOf(form, "tags") == tags
  {
    FormValuesByPart(fileName, title, secretKey, description, uploadedBy, status, tags, "title");
    FormValuesByPart(fileName, title, secretKey, description, uploadedBy, status, tags, "secretKey");
    FormValuesByPart(fileName, title, secretKey, description, uploadedBy, status, tags, "description");
    FormValuesByPart(fileName, title, secretKey, description, uploadedBy, status, tags, "uploadedBy");
    FormValuesByPart(fileName, title, secretKey, description, uploadedBy, status, tags, "status");
    FormValuesByPart(fileName, title, secretKey, description, uploadedBy, status, tags, "tags");
  }

  /** The audio part is the only file part. */
  lemma OneAudioPart(
    fileName: string, title: string, secretKey: string,
    description: string, uploadedBy: string, status: string, tags: seq<string>)
    ensures var form := UploadForm(fileName, title, secretKey, description, uploadedBy, status, tags);
      form[0] == FileField("audio", fileName, ContentType(fileName))
      && forall i :: 1 <= i < |form| ==> form[i].TextField?
  {
    var rest := [TextField("title", title), TextField("secretKey", secretKey)]
      + OptionalField("description", description) + OptionalField("uploadedBy", uploadedBy)
      + OptionalField("status", status) + TagFields(tags);
    assert forall i :: 0 <= i < |rest| ==> rest[i].TextField?;
    assert UploadForm(fileName, title, secretKey, description, uploadedBy, status, tags)
        == [FileField("audio", fileName, ContentType(fileName))] + rest;
  }

  /** The multipart body under construction (`aiohttp.FormData`). */
  class FormData {
    var fields: seq<FormField>

    constructor ()
      ensures fields == []
    {
      fields := [];
    }

    method AddField(field: FormField)
      modifies this
      ensures fields == old(fields) + [field]
    {
      fields := fields + [field];
    }
  }

  /** An optional text field is added only when its value is not empty. */
  method AddOptionalField(data: FormData, name: string, value: string)
    modifies data
    ensures data.fields == old(data.fields) + OptionalField(name, value)
  {
    if value != "" {
      data.AddField(TextField(name, value));
    }
  }

  /** One `tags` field per tag, in order; none when there are no tags. */
  method AddTagFields(data: FormData, tags: seq<string>)
    modifies data
    ensures data.fields == old(data.fields) + TagFields(tags)
  {
    if tags != [] {
      for i := 0 to |tags|
        invariant data.fields == old(data.fields) + TagFields(tags[..i])
      {
        data.AddField(TextField("tags", tags[i]));
        assert TagFields(tags[..i + 1]) == TagFields(tags[..i]) + [TextField("tags", tags[i])];
      }
      assert tags[..|tags|] == tags;
    } else {
      assert TagFields(tags) == [];
    }
  }

  /** Form building as the upload does it: required fields, optional fields, then one field per tag. */
  method BuildForm(
    fileName: string, title: string, secretKey: string,
    description: string, uploadedBy: string, status: string, tags: seq<string>) returns (data: FormData)
    ensures fresh(data)
    ensures data.fields == UploadForm(fileName, title, secretKey, description, uploadedBy, status, tags)
  {
    var audio := FileField("audio", fileName, ContentType(fileName));
    var required := [audio, TextField("title", title), TextField("secretKey", secretKey)];
    data := new FormData();
    data.AddField(audio);
    data.AddField(TextField("title", title));
    data.AddField(TextField("secretKey", secretKey));
    assert data.fields == required;
    AddOptionalField(data, "description", description);
    AddOptionalField(data, "uploadedBy", uploadedBy);
    AddOptionalField(data, "status", status);
    AddTagFields(data, tags);
    assert data.fields == required + OptionalField("description", description) + OptionalField("uploadedBy", uploadedBy)
      + OptionalField("status", status) + TagFields(tags);
  }

  // ---------------------------------------------------------------- sending one file

  /** The parsed body of the server's answer, or `{"message": text}` when it is not JSON. */
  datatype ResponseData = JsonBody(json: string) | MessageBody(message: string)

  /** What sending the request gave: a response (status, body text, body as JSON if it parses), or the exception raised. */
  datatype HttpOutcome = Responded(status: int, text: string, json: Option<string>) | TransportFailed(reason: string)

  /** The one POST the upload sends. */
  datatype UploadRequest = UploadRequest(url: string, form: seq<FormField>)

  datatype FileUploadResult =
    | Uploaded(statusCode: int, uploadedFile: string, title: string, serverResponse: ResponseData)
    | Rejected(statusCode: int, error: ResponseData, failedFile: string)
    | Errored(reason: string, failedFile: string)
  {
    predicate Success() {
      Uploaded?
    }
  }

  /** `FileNotFoundError` (a missing file or directory) and `ValueError` (a path that is not a directory). */
  datatype FsError = NotFound(message: string) | InvalidArgument(message: string)

  /** A local file as the upload sees it when it starts: its path, its name, and whether it exists. */
  datatype LocalFile = LocalFile(path: string, name: string, present: bool)

  const DefaultEndpoint := "/podcasts/upload"

  /** The server URL without its trailing slashes, followed by the endpoint. */
  function UploadUrl(serverUrl: string, endpoint: string): (r: string)
    ensures |endpoint| <= |r| <= |serverUrl| + |endpoint|
    ensures r == serverUrl[..|r| - |endpoint|] + endpoint
    ensures |r| == |endpoint| || serverUrl[|r| - |endpoint| - 1] != '/'
    ensures forall i :: |r| - |endpoint| <= i < |serverUrl| ==> serverUrl[i] == '/'
  {
    RStrip(serverUrl, '/') + endpoint
  }

  /** Trailing slashes on the server URL never change the URL posted to. */
  lemma {:induction false} UploadUrlIgnoresTrailingSlashes(serverUrl: string, slashes: nat, endpoint: string)
    ensures UploadUrl(serverUrl + seq(slashes, _ => '/'), endpoint) == UploadUrl(serverUrl, endpoint)
  {
    if slashes > 0 {
      var shorter := serverUrl + seq(slashes - 1, _ => '/');
      assert serverUrl + seq(slashes, _ => '/') == shorter + ['/'];
      assert (shorter + ['/'])[..|shorter|] == shorter;
      UploadUrlIgnoresTrailingSlashes(serverUrl, slashes - 1, endpoint);
    } else {
      assert serverUrl + seq(slashes, _ => '/') == serverUrl;
    }
  }

  /** The parsed JSON body when the body parses, otherwise `{"message": text}`. */
  function ResponseOf(text: string, json: Option<string>): (r: ResponseData)
    ensures json.Some? <==> r.JsonBody?
    ensures json.Some? ==> r.json == json.value
    ensures json.None? ==> r.message == text
  {
    if json.Some? then JsonBody(json.value) else MessageBody(text)
  }

  /** The result of one upload attempt, given what sending produced. */
  function FileResult(outcome: HttpOutcome, fileName: string, title: string): (r: FileUploadResult)
    ensures r.Success() <==> outcome.Responded? && (outcome.status == 200 || outcome.status == 201)
    ensures r.Uploaded? ==> outcome.Responded? && r.statusCode == outcome.status && r.uploadedFile == fileName && r.title == title
    ensures r.Uploaded? ==> r.serverResponse == ResponseOf(outcome.text, outcome.json)
    ensures r.Rejected? ==> outcome.Responded? && r.statusCode == outcome.status && r.failedFile == fileName
    ensures r.Rejected? ==> r.error == ResponseOf(outcome.text, outcome.json)
    ensures r.Errored? <==> outcome.TransportFailed?
    ensures r.Errored? ==> r.failedFile == fileName && r.reason == outcome.reason
  {
    match outcome
    case TransportFailed(reason) => Errored(reason, fileName)
    case Responded(status, text, json) =>
      if status == 200 || status == 201 then Uploaded(status, fileName, title, ResponseOf(text, json))
      else Rejected(status, ResponseOf(text, json), fileName)
  }

  function FileNotFoundMessage(path: string): string {
    "Không tìm thấy file audio '" + path + "'"
  }

  /** `upload_single_podcast_file`: a missing file raises; otherwise one POST, whose outcome becomes the result. */
  function SingleUpload(
    serverUrl: string, file: LocalFile, title: string, secretKey: string, endpoint: string,
    description: string, uploadedBy: string, status: string, tags: seq<string>,
    post: UploadRequest -> HttpOutcome): Result<FileUploadResult, FsError>
  {
    if !file.present then Err(NotFound(FileNotFoundMessage(file.path)))
    else
      var request := UploadRequest(UploadUrl(serverUrl, endpoint),
                                   UploadForm(file.name, title, secretKey, description, uploadedBy, status, tags));
      Ok(FileResult(post(request), file.name, title))
  }

  method UploadSingleFile(
    serverUrl: string, file: LocalFile, title: string, secretKey: string, endpoint: string,
    description: string, uploadedBy: string, status: string, tags: seq<string>,
    post: UploadRequest -> HttpOutcome) returns (r: Result<FileUploadResult, FsError>)
    ensures r == SingleUpload(serverUrl, file, title, secretKey, endpoint, description, uploadedBy, status, tags, post)
  {
    if !file.present {
      return Err(NotFound(FileNotFoundMessage(file.path)));
    }
    var url := UploadUrl(serverUrl, endpoint);
    var data := BuildForm(file.name, title, secretKey, description, uploadedBy, status, tags);
    var outcome := post(UploadRequest(url, data.fields));
    r := Ok(FileResult(outcome, file.name, title));
  }

  /**
   * A missing file is reported without any request; otherwise the result depends on the
   * server only through its answer to the one request built from the URL and the form.
   */
  lemma SingleUploadSendsOneRequest(
    serverUrl: string, file: LocalFile, title: string, secretKey: string, endpoint: string,
    description: string, uploadedBy: string, status: string, tags: seq<string>,
    post: UploadRequest -> HttpOutcome, post': UploadRequest -> HttpOutcome)
    requires file.present ==>
      var request := UploadRequest(UploadUrl(serverUrl, endpoint),
                                   UploadForm(file.name, title, secretKey, description, uploadedBy, status, tags));
      post(request) == post'(request)
    ensures SingleUpload(serverUrl, file, title, secretKey, endpoint, description, uploadedBy, status, tags, post)
         == SingleUpload(serverUrl, file, title, secretKey, endpoint, description, uploadedBy, status, tags, post')
  {
  }

  // ---------------------------------------------------------------- uploading a directory

  /** The directory as the filesystem shows it: whether the path exists and is a directory, and its entries in iteration order. */
  datatype Directory = Directory(path: string, present: bool, isDir: bool, entries: seq<Entry>)

  datatype UploadedFile = UploadedFile(
    fileName: string, filePath: string, title: string, tags: seq<string>, serverResponse: ResponseData)

  /** The `error` of a failed file upload: the server's answer, or the exception text. */
  datatype UploadError = ServerError(response: ResponseData) | TransportError(reason: string)

  datatype DirectoryUploadResult =
    | DirUploaded(directoryPath: string, uploadedFile: UploadedFile, statusCode: int)
    | NoAudioFound(directoryPath: string, message: string)
    | DirUploadFailed(directoryPath: string, error: UploadError, statusCode: int)
    | DirUploadErrored(directoryPath: string, message: string)
  {
    predicate Success() {
      DirUploaded?
    }
  }

  const Uploader := "stock-ai-tool"
  const Published := "published"

  function DirNotFoundMessage(path: string): string {
    "Không tìm thấy thư mục '" + path + "'"
  }

  function NotADirectoryMessage(path: string): string {
    "'" + path + "' không phải là thư mục"
  }

  function NoAudioMessage(path: string): string {
    "Không tìm thấy file audio nào trong thư mục '" + path + "'"
  }

  /**
   * The directory-level result wrapping one file's result: success is copied; a failed
   * upload keeps the server's status, or 0 when the request itself failed; a raised
   * error is reported, not propagated.
   */
  function DirectoryResult(
    dirPath: string, file: Entry, title: string, tags: seq<string>,
    result: Result<FileUploadResult, FsError>): (d: DirectoryUploadResult)
    ensures d.Success() <==> result.Ok? && result.value.Success()
    ensures d.DirUploaded? ==>
      d.uploadedFile == UploadedFile(file.name, file.path, title, tags, result.value.serverResponse)
      && d.statusCode == result.value.statusCode
    ensures d.DirUploadFailed? ==> result.Ok? && d.statusCode == (if result.value.Rejected? then result.value.statusCode else 0)
    ensures result.Ok? && !result.value.Success() ==> d.DirUploadFailed?
    ensures d.DirUploadFailed? ==>
      d.error == (if result.value.Rejected? then ServerError(result.value.error) else TransportError(result.value.reason))
    ensures d.DirUploadErrored? <==> result.Err?
    ensures result.Err? ==> d.DirUploadErrored? && d.message == "Lỗi khi upload " + file.name + ": " + result.error.message
    ensures d.directoryPath == dirPath
  {
    match result
    case Err(e) => DirUploadErrored(dirPath, "Lỗi khi upload " + file.name + ": " + e.message)
    case Ok(Uploaded(statusCode, _, _, response)) =>
      DirUploaded(dirPath, UploadedFile(file.name, file.path, title, tags, response), statusCode)
    case Ok(Rejected(statusCode, error, _)) => DirUploadFailed(dirPath, ServerError(error), statusCode)
    case Ok(Errored(reason, _)) => DirUploadFailed(dirPath, TransportError(reason), 0)
  }

  /** The upload of `file`, the directory's chosen audio file, stamped with the session of `now`. */
  function UploadOf(
    dir: Directory, file: Entry, secretKey: string, serverUrl: string, now: Time, date: string, stamp: string,
    stillExists: bool, post: UploadRequest -> HttpOutcome): DirectoryUploadResult
    requires now.Valid()
  {
    var stem := Stem(file.name);
    var title := Title(stem);
    var tags := PodcastTags(stem, Session(now), date);
    var result := SingleUpload(serverUrl, LocalFile(file.path, file.name, stillExists), title, secretKey, DefaultEndpoint,
                               Description(KindOf(stem), stamp), Uploader, Published, tags, post);
    DirectoryResult(dir.path, file, title, tags, result)
  }

  /**
   * `upload_audio_directory`: a missing path or a non-directory raises; a directory with
   * no audio file reports so without sending anything; otherwise the first audio file is
   * uploaded. `stillExists` says whether that file is still there when the upload starts.
   */
  function DirectoryUpload(
    dir: Directory, secretKey: string, serverUrl: string, now: Time, date: string, stamp: string,
    stillExists: bool, post: UploadRequest -> HttpOutcome): Result<DirectoryUploadResult, FsError>
    requires now.Valid()
  {
    if !dir.present then Err(NotFound(DirNotFoundMessage(dir.path)))
    else if !dir.isDir then Err(InvalidArgument(NotADirectoryMessage(dir.path)))
    else
      var audio := AudioFiles(dir.entries);
      if audio == [] then Ok(NoAudioFound(dir.path, NoAudioMessage(dir.path)))
      else Ok(UploadOf(dir, audio[0], secretKey, serverUrl, now, date, stamp, stillExists, post))
  }

  method UploadAudioDirectory(
    dir: Directory, secretKey: string, serverUrl: string, now: Time, date: string, stamp: string,
    stillExists: bool, post: UploadRequest -> HttpOutcome) returns (r: Result<DirectoryUploadResult, FsError>)
    requires now.Valid()
    ensures r == DirectoryUpload(dir, secretKey, serverUrl, now, date, stamp, stillExists, post)
  {
    if !dir.present {
      return Err(NotFound(DirNotFoundMessage(dir.path)));
    }
    if !dir.isDir {
      return Err(InvalidArgument(NotADirectoryMessage(dir.path)));
    }
    var audio := AudioFiles(dir.entries);
    if audio == [] {
      return Ok(NoAudioFound(dir.path, NoAudioMessage(dir.path)));
    }
    var file := audio[0];
    var stem := Stem(file.name);
    var title := Title(stem);
    var tags, description := DeriveTags(stem, now, date, stamp);
    var result := UploadSingleFile(serverUrl, LocalFile(file.path, file.name, stillExists), title, secretKey,
                                   DefaultEndpoint, description, Uploader, Published, tags, post);
    r := Ok(DirectoryResult(dir.path, file, title, tags, result));
  }

  /** With no audio file in an existing directory the result is a failure, and the server is never asked. */
  lemma NoAudioMeansNoUpload(
    dir: Directory, secretKey: string, serverUrl: string, now: Time, date: string, stamp: string,
    stillExists: bool, post: UploadRequest -> HttpOutcome)
    requires now.Valid() && dir.present && dir.isDir
    ensures var r := DirectoryUpload(dir, secretKey, serverUrl, now, date, stamp, stillExists, post);
      r.Ok? && r.value.NoAudioFound? <==> forall i :: 0 <= i < |dir.entries| ==> !IsAudioFile(dir.entries[i])
    ensures (forall i :: 0 <= i < |dir.entries| ==> !IsAudioFile(dir.entries[i])) ==>
      forall post' :: DirectoryUpload(dir, secretKey, serverUrl, now, date, stamp, stillExists, post)
                   == DirectoryUpload(dir, secretKey, serverUrl, now, date, stamp, stillExists, post')
  {
    AudioFilesEmpty(dir.entries);
  }

  /** The file uploaded is the first entry of the listing that is an audio file. */
  lemma UploadsFirstAudioFile(
    dir: Directory, secretKey: string, serverUrl: string, now: Time, date: string, stamp: string,
    stillExists: bool, post: UploadRequest -> HttpOutcome, k: nat)
    requires now.Valid() && dir.present && dir.isDir
    requires k < |dir.entries| && IsAudioFile(dir.entries[k])
    requires forall j :: 0 <= j < k ==> !IsAudioFile(dir.entries[j])
    ensures DirectoryUpload(dir, secretKey, serverUrl, now, date, stamp, stillExists, post)
         == Ok(UploadOf(dir, dir.entries[k], secretKey, serverUrl, now, date, stamp, stillExists, post))
  {
    FilterFirst(dir.entries, IsAudioFile, k);
  }

  /**
   * The directory upload succeeds exactly when the chosen file is still there and the
   * server answers its request with 200 or 201; the result then records the file, its
   * title and its tags.
   */
  lemma DirectoryUploadSuccess(
    dir: Directory, secretKey: string, serverUrl: string, now: Time, date: string, stamp: string,
    stillExists: bool, post: UploadRequest -> HttpOutcome, k: nat)
    requires now.Valid() && dir.present && dir.isDir
    requires k < |dir.entries| && IsAudioFile(dir.entries[k])
    requires forall j :: 0 <= j < k ==> !IsAudioFile(dir.entries[j])
    ensures var file, r := dir.entries[k], DirectoryUpload(dir, secretKey, serverUrl, now, date, stamp, stillExists, post);
      var stem := Stem(file.name);
      var request := UploadRequest(UploadUrl(serverUrl, DefaultEndpoint),
        UploadForm(file.name, Title(stem), secretKey, Description(KindOf(stem), stamp), Uploader, Published,
                   PodcastTags(stem, Session(now), date)));
      && (r.Ok? && r.value.Success() <==>
            stillExists && post(request).Responded? && (post(request).status == 200 || post(request).status == 201))
      && (r.Ok? && r.value.Success() ==>
            r.value.uploadedFile.fileName == file.name
            && r.value.uploadedFile.title == Title(stem)
            && r.value.uploadedFile.tags == PodcastTags(stem, Session(now), date))
  {
    UploadsFirstAudioFile(dir, secretKey, serverUrl, now, date, stamp, stillExists, post, k);
  }
}
