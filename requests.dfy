/** The request builder of requests.go: a `Client` collects the method, the
    URL, headers, query parameters and one body encoding through chained
    setters, and `Send` turns it into one request and a `Result`. */
module Requests {
  import opened HttpTypes
  import opened Results

  /** FileForm: plain multipart fields and file fields (field name to file
      path); either map may be nil. */
  datatype FileForm = FileForm(value: Option<Values>, file: Option<map<string, string>>)

  /** A multipart body is chosen as soon as either map of the spec is non-nil. */
  predicate HasMultipart(mp: FileForm)
  {
    mp.value.Some? || mp.file.Some?
  }

  /** The file fields of a spec; a nil map has none. */
  function FilesOf(mp: FileForm): map<string, string>
  {
    if mp.file.Some? then mp.file.value else map[]
  }

  /** The fields of a Client, as one value. `verb` is its HTTP method. */
  datatype Config = Config(
    client: Option<HttpClient>,
    url: string,
    verb: string,
    header: HeaderMap,
    params: Values,
    form: Values,
    json: Payload,
    multipart: FileForm)

  /** Everything Send depends on beyond the Client: the library's encoders and
      request validation, the outcomes of file I/O, the multipart writer, and
      http.DefaultClient. */
  datatype Env = Env(
    encode: Values -> string,                       // url.Values.Encode
    marshal: Payload -> Outcome<Bytes>,             // json.Marshal
    newRequest: (string, string) -> Option<Error>,  // http.NewRequest's check of method and URL
    openFile: string -> Option<Error>,              // os.Open
    createPart: (string, string) -> Option<Error>,  // multipart.Writer.CreateFormFile
    copyFile: string -> Option<Error>,              // io.Copy of an opened file into its part
    closeFile: string -> Option<Error>,             // (*os.File).Close
    closeWriter: Option<Error>,                     // multipart.Writer.Close
    boundary: string,                               // the writer's random boundary
    multipartBody: (FileForm, string) -> Bytes,     // the buffer the writer has filled
    defaultClient: HttpClient)                      // http.DefaultClient

  /** `order` lists every file field exactly once: the order in which Go's
      runtime happens to iterate over the map. */
  ghost predicate IsIterationOrder(order: seq<string>, files: map<string, string>)
  {
    && (forall n :: n in order <==> n in files)
    && (forall i, j :: 0 <= i < j < |order| ==> order[i] != order[j])
  }

  /** Key-wise overwrite merge, as the loops of Params and Headers do it. */
  function Merge(dst: Values, src: Values): (r: Values)
    ensures r.Keys == dst.Keys + src.Keys
    ensures forall k :: k in src ==> r[k] == src[k]
    ensures forall k :: k in dst && k !in src ==> r[k] == dst[k]
  {
    dst + src
  }

  // ---------------------------------------------------------------------------
  // URL assembly

  /** The URL after Send has appended the encoded query parameters. */
  function RewriteUrl(url: string, params: Values, encoded: string): (r: string)
    ensures |params| == 0 ==> r == url
    ensures |params| != 0 ==>
      && |r| == |url| + 1 + |encoded|
      && r[..|url|] == url
      && r[|url| + 1..] == encoded
      && r[|url|] == (if '?' in url then '&' else '?')
  {
    if |params| == 0 then url
    else if '?' !in url then url + "?" + encoded
    else url + "&" + encoded
  }

  /** Appending once leaves a '?' in the URL, so appending again uses '&'. */
  lemma RewriteTwiceAppendsTwice(url: string, params: Values, encoded: string)
    requires |params| != 0
    ensures RewriteUrl(RewriteUrl(url, params, encoded), params, encoded)
         == RewriteUrl(url, params, encoded) + "&" + encoded
  {
  }

  // ---------------------------------------------------------------------------
  // Choosing the body

  datatype BodyKind = MultipartKind | JsonKind | FormKind | EmptyKind

  /** Send's choice of body, in its order of precedence. */
  function Dispatch(mp: FileForm, contentType: string): (k: BodyKind)
    ensures k == MultipartKind <==> HasMultipart(mp)
    ensures k == JsonKind <==> !HasMultipart(mp) && JsonContentType <= contentType
    ensures k == FormKind <==> !HasMultipart(mp) && !(JsonContentType <= contentType) && FormContentType <= contentType
    ensures k == EmptyKind <==> !HasMultipart(mp) && !(JsonContentType <= contentType) && !(FormContentType <= contentType)
  {
    if HasMultipart(mp) then MultipartKind
    else if JsonContentType <= contentType then JsonKind
    else if FormContentType <= contentType then FormKind
    else EmptyKind
  }

  /** The Content-Type that Form or Json set last decides the body, unless a
      multipart spec is present, which wins over any Content-Type. */
  lemma LastBodySetterWins(h: HeaderMap, mp: FileForm, earlier: string)
    ensures Dispatch(mp, GetHeader(SetHeader(SetHeader(h, ContentType, earlier), ContentType, JsonContentType), ContentType))
         == (if HasMultipart(mp) then MultipartKind else JsonKind)
    ensures Dispatch(mp, GetHeader(SetHeader(SetHeader(h, ContentType, earlier), ContentType, FormContentType), ContentType))
         == (if HasMultipart(mp) then MultipartKind else FormKind)
  {
    assert JsonContentType[12] != FormContentType[12];
  }

  // ---------------------------------------------------------------------------
  // Building the request

  /** A request ready for the transport, or the error that stopped its building. */
  datatype Build = Sent(req: HttpRequest) | Aborted(error: Error)

  /** The first failing step for one file field: open, create the part, copy, close. */
  function FileError(env: Env, name: string, path: string): (r: Option<Error>)
    ensures r.None? <==>
      env.openFile(path).None? && env.createPart(name, path).None? && env.copyFile(path).None? && env.closeFile(path).None?
    ensures env.openFile(path).Some? ==> r == env.openFile(path)
    ensures env.openFile(path).None? && env.createPart(name, path).Some? ==> r == env.createPart(name, path)
    ensures env.openFile(path).None? && env.createPart(name, path).None? && env.copyFile(path).Some?
            ==> r == env.copyFile(path)
    ensures env.openFile(path).None? && env.createPart(name, path).None? && env.copyFile(path).None?
            ==> r == env.closeFile(path)
  {
    if env.openFile(path).Some? then env.openFile(path)
    else if env.createPart(name, path).Some? then env.createPart(name, path)
    else if env.copyFile(path).Some? then env.copyFile(path)
    else env.closeFile(path)
  }

  /** The error that ends the file loop of createMultipartForm, taking the files in `order`. */
  function FirstFileError(env: Env, files: map<string, string>, order: seq<string>): (r: Option<Error>)
    requires forall n :: n in order ==> n in files
    ensures (forall n :: n in order ==> FileError(env, n, files[n]).None?) ==> r.None?
    ensures order != [] && FileError(env, order[0], files[order[0]]).Some? ==> r == FileError(env, order[0], files[order[0]])
    decreases |order|
  {
    if order == [] then None
    else match FileError(env, order[0], files[order[0]])
      case Some(e) => Some(e)
      case None => FirstFileError(env, files, order[1..])
  }

  /** The file loop stops at the first file that fails and reports its error. */
  lemma {:induction false} FirstFileErrorIsEarliest(env: Env, files: map<string, string>, order: seq<string>)
    requires forall n :: n in order ==> n in files
    ensures FirstFileError(env, files, order).None? <==>
      forall i :: 0 <= i < |order| ==> FileError(env, order[i], files[order[i]]).None?
    ensures FirstFileError(env, files, order).Some? ==>
      exists i :: 0 <= i < |order|
        && FileError(env, order[i], files[order[i]]) == FirstFileError(env, files, order)
        && forall j :: 0 <= j < i ==> FileError(env, order[j], files[order[j]]).None?
    decreases |order|
  {
    if order != [] {
      var rest := order[1..];
      FirstFileErrorIsEarliest(env, files, rest);
      if FileError(env, order[0], files[order[0]]).None? {
        assert forall i :: 1 <= i < |order| ==> order[i] == rest[i - 1];
        if FirstFileError(env, files, rest).Some? {
          var i :| 0 <= i < |rest|
            && FileError(env, rest[i], files[rest[i]]) == FirstFileError(env, files, rest)
            && forall j :: 0 <= j < i ==> FileError(env, rest[j], files[rest[j]]).None?;
          assert FileError(env, order[i + 1], files[order[i + 1]]) == FirstFileError(env, files, order);
          assert forall j :: 0 <= j < i + 1 ==> FileError(env, order[j], files[order[j]]).None? by {
            forall j | 0 <= j < i + 1 ensures FileError(env, order[j], files[order[j]]).None? {
              if j > 0 { assert order[j] == rest[j - 1]; }
            }
          }
        }
      }
    }
  }

  /** Whatever the iteration order, the file loop succeeds exactly when every file does. */
  lemma FileLoopSucceedsIffEveryFileDoes(env: Env, files: map<string, string>, order: seq<string>)
    requires IsIterationOrder(order, files)
    ensures FirstFileError(env, files, order).None? <==> forall n :: n in files ==> FileError(env, n, files[n]).None?
  {
    FirstFileErrorIsEarliest(env, files, order);
    if FirstFileError(env, files, order).None? {
      forall n | n in files ensures FileError(env, n, files[n]).None? {
        var i :| 0 <= i < |order| && order[i] == n;
      }
    }
  }

  /** An error from the library check becomes the build's error; otherwise the request goes out. */
  function Checked(err: Option<Error>, req: HttpRequest): Build
  {
    match err
    case Some(e) => Aborted(e)
    case None => Sent(req)
  }

  /** The multipart request: the configured headers with Content-Type replaced by the writer's. */
  function MultipartRequest(cfg: Config, env: Env): HttpRequest
  {
    HttpRequest(cfg.verb, cfg.url, SetHeader(cfg.header, ContentType, FormDataContentType(env.boundary)),
                ByteBody(env.multipartBody(cfg.multipart, env.boundary)))
  }

  /** createMultipartForm, with the request error reported (see BuildMultipartAsWritten). */
  function BuildMultipart(cfg: Config, env: Env, order: seq<string>): (b: Build)
    requires IsIterationOrder(order, FilesOf(cfg.multipart))
    ensures var fileError := FirstFileError(env, FilesOf(cfg.multipart), order);
            var check := env.newRequest(cfg.verb, cfg.url);
            && (b.Sent? <==> fileError.None? && env.closeWriter.None? && check.None?)
            && (fileError.Some? ==> b == Aborted(fileError.value))
            && (fileError.None? && env.closeWriter.Some? ==> b == Aborted(env.closeWriter.value))
            && (fileError.None? && env.closeWriter.None? && check.Some? ==> b == Aborted(check.value))
    ensures b.Sent? ==>
              && b.req.verb == cfg.verb && b.req.url == cfg.url
              && b.req.header == SetHeader(cfg.header, ContentType, FormDataContentType(env.boundary))
              && b.req.body == ByteBody(env.multipartBody(cfg.multipart, env.boundary))
  {
    match FirstFileError(env, FilesOf(cfg.multipart), order)
    case Some(e) => Aborted(e)
    case None =>
      match env.closeWriter
      case Some(e) => Aborted(e)
      case None => Checked(env.newRequest(cfg.verb, cfg.url), MultipartRequest(cfg, env))
  }

  /** createJson. */
  function BuildJson(cfg: Config, env: Env): (b: Build)
    ensures var check := env.newRequest(cfg.verb, cfg.url);
            && (b.Sent? <==> env.marshal(cfg.json).Done? && check.None?)
            && (env.marshal(cfg.json).Failed? ==> b == Aborted(env.marshal(cfg.json).error))
            && (env.marshal(cfg.json).Done? && check.Some? ==> b == Aborted(check.value))
    ensures b.Sent? ==> b.req == HttpRequest(cfg.verb, cfg.url, cfg.header, ByteBody(env.marshal(cfg.json).value))
  {
    match env.marshal(cfg.json)
    case Failed(e) => Aborted(e)
    case Done(b) => Checked(env.newRequest(cfg.verb, cfg.url), HttpRequest(cfg.verb, cfg.url, cfg.header, ByteBody(b)))
  }

  /** createForm. */
  function BuildForm(cfg: Config, env: Env): (b: Build)
    ensures b.Sent? <==> env.newRequest(cfg.verb, cfg.url).None?
    ensures b.Aborted? ==> b.error == env.newRequest(cfg.verb, cfg.url).value
    ensures b.Sent? ==> b.req == HttpRequest(cfg.verb, cfg.url, cfg.header, TextBody(env.encode(cfg.form)))
  {
    Checked(env.newRequest(cfg.verb, cfg.url), HttpRequest(cfg.verb, cfg.url, cfg.header, TextBody(env.encode(cfg.form))))
  }

  /** createEmptyBody. */
  function BuildEmpty(cfg: Config, env: Env): (b: Build)
    ensures b.Sent? <==> env.newRequest(cfg.verb, cfg.url).None?
    ensures b.Aborted? ==> b.error == env.newRequest(cfg.verb, cfg.url).value
    ensures b.Sent? ==> b.req == HttpRequest(cfg.verb, cfg.url, cfg.header, NoBody)
  {
    Checked(env.newRequest(cfg.verb, cfg.url), HttpRequest(cfg.verb, cfg.url, cfg.header, NoBody))
  }

  function KindOf(cfg: Config): BodyKind
  {
    Dispatch(cfg.multipart, GetHeader(cfg.header, ContentType))
  }

  /** The request Send builds from a Client whose URL is already rewritten. */
  function BuildRequest(cfg: Config, env: Env, order: seq<string>): (b: Build)
    requires IsIterationOrder(order, FilesOf(cfg.multipart))
    ensures env.newRequest(cfg.verb, cfg.url).Some? ==> b.Aborted?
    ensures b.Sent? ==> b.req.verb == cfg.verb && b.req.url == cfg.url
    ensures b.Sent? ==> b.req.header == (if HasMultipart(cfg.multipart)
                                         then SetHeader(cfg.header, ContentType, FormDataContentType(env.boundary))
                                         else cfg.header)
  {
    match KindOf(cfg)
    case MultipartKind => BuildMultipart(cfg, env, order)
    case JsonKind => BuildJson(cfg, env)
    case FormKind => BuildForm(cfg, env)
    case EmptyKind => BuildEmpty(cfg, env)
  }

  /** The Client after the URL rewrite that opens Send. */
  function Prepared(cfg: Config, env: Env): Config
  {
    cfg.(url := RewriteUrl(cfg.url, cfg.params, env.encode(cfg.params)))
  }

  /** The Client after Send: the URL is rewritten in place and, because the
      multipart request shares the Client's header map, a multipart request
      that is sent leaves its Content-Type in the Client's headers. */
  function AfterSend(cfg: Config, env: Env, order: seq<string>): (r: Config)
    requires IsIterationOrder(order, FilesOf(cfg.multipart))
    ensures r == cfg.(url := RewriteUrl(cfg.url, cfg.params, env.encode(cfg.params)), header := r.header)
    ensures r.header == (if HasMultipart(cfg.multipart) && BuildRequest(Prepared(cfg, env), env, order).Sent?
                         then SetHeader(cfg.header, ContentType, FormDataContentType(env.boundary))
                         else cfg.header)
  {
    var p := Prepared(cfg, env);
    var b := BuildRequest(p, env, order);
    if HasMultipart(cfg.multipart) && b.Sent? then p.(header := b.req.header) else p
  }

  /** doSend's choice of transport: the Client's own, else http.DefaultClient. */
  function Transport(client: Option<HttpClient>, default: HttpClient): HttpClient
  {
    if client.Some? then client.value else default
  }

  /** The Result fields that http.Client.Do's answer leaves. */
  function Exchanged(x: Exchange): (r: (Option<Response>, Option<Error>))
    ensures r.1.None? ==> r.0.Some?
  {
    match x
    case Responded(resp) => (Some(resp), None)
    case TransportFailed(e) => (None, Some(e))
  }

  /** The Result fields after a build: an aborted build never reaches the transport. */
  function Deliver(b: Build, t: HttpClient): (r: (Option<Response>, Option<Error>))
    ensures r.1.None? ==> r.0.Some?
    ensures b.Aborted? ==> r == (None, Some(b.error))
  {
    match b
    case Aborted(e) => (None, Some(e))
    case Sent(req) => Exchanged(t.do(req))
  }

  /** The Result fields Send produces. */
  function SendResult(cfg: Config, env: Env, order: seq<string>): (r: (Option<Response>, Option<Error>))
    requires IsIterationOrder(order, FilesOf(cfg.multipart))
    ensures r.1.None? ==> r.0.Some?
  {
    Deliver(BuildRequest(Prepared(cfg, env), env, order), Transport(cfg.client, env.defaultClient))
  }

  // ---------------------------------------------------------------------------
  // What Send promises

  /** Send rewrites the URL in place, so a second Send appends the parameters again. */
  lemma SendTwiceAppendsParamsTwice(cfg: Config, env: Env, order: seq<string>)
    requires IsIterationOrder(order, FilesOf(cfg.multipart))
    requires |cfg.params| != 0
    ensures var once := AfterSend(cfg, env, order);
            && IsIterationOrder(order, FilesOf(once.multipart))
            && AfterSend(once, env, order).url == once.url + "&" + env.encode(cfg.params)
  {
    RewriteTwiceAppendsTwice(cfg.url, cfg.params, env.encode(cfg.params));
  }

  /** With no query parameters the URL is left as it was. */
  lemma SendWithoutParamsKeepsUrl(cfg: Config, env: Env, order: seq<string>)
    requires IsIterationOrder(order, FilesOf(cfg.multipart))
    requires |cfg.params| == 0
    ensures AfterSend(cfg, env, order).url == cfg.url
  {
  }

  /** A build that stops with an error is returned as the Result's error and no request is sent. */
  lemma AbortedBuildIsNeverSent(cfg: Config, env: Env, order: seq<string>, other: HttpClient)
    requires IsIterationOrder(order, FilesOf(cfg.multipart))
    requires BuildRequest(Prepared(cfg, env), env, order).Aborted?
    ensures SendResult(cfg, env, order) == (None, Some(BuildRequest(Prepared(cfg, env), env, order).error))
    ensures SendResult(cfg, env, order) == SendResult(cfg.(client := Some(other)), env, order)
  {
  }

  /** A request that is built goes to the Client's own transport when it has one, else to the default one. */
  lemma BuiltRequestGoesToChosenTransport(cfg: Config, env: Env, order: seq<string>)
    requires IsIterationOrder(order, FilesOf(cfg.multipart))
    requires BuildRequest(Prepared(cfg, env), env, order).Sent?
    ensures var req := BuildRequest(Prepared(cfg, env), env, order).req;
            SendResult(cfg, env, order)
            == Exchanged(if cfg.client.Some? then cfg.client.value.do(req) else env.defaultClient.do(req))
  {
  }

  /** Every request Send builds carries the Client's method and rewritten URL and
      the body its kind calls for; only the multipart request changes a header. */
  lemma SentRequestMatchesKind(cfg: Config, env: Env, order: seq<string>)
    requires IsIterationOrder(order, FilesOf(cfg.multipart))
    requires BuildRequest(Prepared(cfg, env), env, order).Sent?
    ensures var p := Prepared(cfg, env);
            var req := BuildRequest(p, env, order).req;
            && req.verb == cfg.verb
            && req.url == RewriteUrl(cfg.url, cfg.params, env.encode(cfg.params))
            && (KindOf(cfg) == MultipartKind ==>
                  && req.body == ByteBody(env.multipartBody(cfg.multipart, env.boundary))
                  && req.header == SetHeader(cfg.header, ContentType, FormDataContentType(env.boundary))
                  && AfterSend(cfg, env, order).header == req.header)
            && (KindOf(cfg) == JsonKind ==>
                  env.marshal(cfg.json).Done? && req.body == ByteBody(env.marshal(cfg.json).value) && req.header == cfg.header)
            && (KindOf(cfg) == FormKind ==> req.body == TextBody(env.encode(cfg.form)) && req.header == cfg.header)
            && (KindOf(cfg) == EmptyKind ==> req.body == NoBody && req.header == cfg.header)
            && (KindOf(cfg) != MultipartKind ==> AfterSend(cfg, env, order).header == cfg.header)
  {
  }

  /** The multipart request's Content-Type is the writer's, whatever was configured. */
  lemma MultipartContentTypeOverrides(cfg: Config, env: Env, order: seq<string>)
    requires IsIterationOrder(order, FilesOf(cfg.multipart))
    requires HasMultipart(cfg.multipart)
    requires BuildRequest(Prepared(cfg, env), env, order).Sent?
    ensures var req := BuildRequest(Prepared(cfg, env), env, order).req;
            && GetHeader(req.header, ContentType) == FormDataContentType(env.boundary)
            && (forall k :: k != ContentType ==> (k in req.header <==> k in cfg.header))
            && (forall k :: k in cfg.header && k != ContentType ==> req.header[k] == cfg.header[k])
  {
  }

  /** The multipart path stops at the first failure: a file step (in iteration
      order), then closing the writer, then the library's request check. */
  lemma MultipartStopsAtFirstFailure(cfg: Config, env: Env, order: seq<string>)
    requires IsIterationOrder(order, FilesOf(cfg.multipart))
    requires HasMultipart(cfg.multipart)
    ensures var b := BuildRequest(Prepared(cfg, env), env, order);
            var files := FilesOf(cfg.multipart);
            && (b.Sent? <==>
                  && (forall n :: n in files ==> FileError(env, n, files[n]).None?)
                  && env.closeWriter.None?
                  && env.newRequest(cfg.verb, RewriteUrl(cfg.url, cfg.params, env.encode(cfg.params))).None?)
            && ((exists n :: n in files && FileError(env, n, files[n]).Some?) ==>
                  exists i :: 0 <= i < |order|
                    && Some(b.error) == FileError(env, order[i], files[order[i]])
                    && forall j :: 0 <= j < i ==> FileError(env, order[j], files[order[j]]).None?)
            && ((forall n :: n in files ==> FileError(env, n, files[n]).None?) && env.closeWriter.Some? ==>
                  b == Aborted(env.closeWriter.value))
  {
    var files := FilesOf(cfg.multipart);
    FileLoopSucceedsIffEveryFileDoes(env, files, order);
    FirstFileErrorIsEarliest(env, files, order);
  }

  /** The JSON path stops at a marshalling failure, then at a rejected request. */
  lemma JsonStopsAtFirstFailure(cfg: Config, env: Env, order: seq<string>)
    requires IsIterationOrder(order, FilesOf(cfg.multipart))
    requires KindOf(cfg) == JsonKind
    ensures var b := BuildRequest(Prepared(cfg, env), env, order);
            var check := env.newRequest(cfg.verb, RewriteUrl(cfg.url, cfg.params, env.encode(cfg.params)));
            && (env.marshal(cfg.json).Failed? ==> b == Aborted(env.marshal(cfg.json).error))
            && (env.marshal(cfg.json).Done? && check.Some? ==> b == Aborted(check.value))
            && (b.Sent? <==> env.marshal(cfg.json).Done? && check.None?)
  {
  }

  /** On every path, a request the library rejects is reported as an error and never sent. */
  lemma RejectedRequestIsReported(cfg: Config, env: Env, order: seq<string>)
    requires IsIterationOrder(order, FilesOf(cfg.multipart))
    requires env.newRequest(cfg.verb, RewriteUrl(cfg.url, cfg.params, env.encode(cfg.params))).Some?
    ensures BuildRequest(Prepared(cfg, env), env, order).Aborted?
  {
  }

  // ---------------------------------------------------------------------------
  // The multipart path as the source has it

  /** The multipart path of the source may end in a runtime panic. */
  datatype Attempt = Completed(build: Build) | NilDereference

  /** createMultipartForm as written: the error from http.NewRequest is not
      checked, and `req.Header = c.header` then dereferences the nil request. */
  function BuildMultipartAsWritten(cfg: Config, env: Env, order: seq<string>): Attempt
    requires IsIterationOrder(order, FilesOf(cfg.multipart))
  {
    match FirstFileError(env, FilesOf(cfg.multipart), order)
    case Some(e) => Completed(Aborted(e))
    case None =>
      match env.closeWriter
      case Some(e) => Completed(Aborted(e))
      case None =>
        if env.newRequest(cfg.verb, cfg.url).Some? then NilDereference
        else Completed(Sent(MultipartRequest(cfg, env)))
  }

  /** Where the library rejects the method or URL, the source's multipart path
      panics while the corrected one reports the error; everywhere else they agree. */
  lemma MultipartAsWrittenPanicsOnRejectedRequest(cfg: Config, env: Env, order: seq<string>)
    requires IsIterationOrder(order, FilesOf(cfg.multipart))
    ensures env.newRequest(cfg.verb, cfg.url).Some? && FirstFileError(env, FilesOf(cfg.multipart), order).None?
              && env.closeWriter.None?
            ==> BuildMultipartAsWritten(cfg, env, order) == NilDereference
                && BuildMultipart(cfg, env, order) == Aborted(env.newRequest(cfg.verb, cfg.url).value)
    ensures BuildMultipartAsWritten(cfg, env, order) != NilDereference
            ==> BuildMultipartAsWritten(cfg, env, order) == Completed(BuildMultipart(cfg, env, order))
  {
  }

  /** A concrete case: method "BAD METHOD" with an empty multipart spec. The
      library rejects the method (it holds a space); the JSON path reports that,
      the multipart path of the source panics. */
  lemma RejectedMethodCrashesMultipart()
    ensures var env := Env(
              (v: Values) => "", (p: Payload) => Done([]),
              (m: string, u: string) => if ' ' in m then Some(Library("net/http: invalid method")) else None,
              (f: string) => None, (n: string, f: string) => None, (f: string) => None, (f: string) => None,
              None, "b", (mp: FileForm, b: string) => [], HttpClient((r: HttpRequest) => TransportFailed(Library("offline"))));
            var cfg := Config(None, "http://127.0.0.1:8080/ping", "BAD METHOD", map[], map[], map[], NilValue,
                              FileForm(Some(map[]), None));
            && BuildMultipartAsWritten(cfg, env, []) == NilDereference
            && BuildMultipart(cfg, env, []) == Aborted(Library("net/http: invalid method"))
            && BuildJson(cfg, env) == Aborted(Library("net/http: invalid method"))
  {
  }

  // ---------------------------------------------------------------------------
  // The Client

  class Client {
    var client: Option<HttpClient>
    var url: string
    var verb: string
    var header: HeaderMap
    var params: Values
    var form: Values
    var json: Payload
    var multipart: FileForm

    function Snapshot(): Config
      reads this
    {
      Config(client, url, verb, header, params, form, json, multipart)
    }

    constructor Get(url: string)
      ensures Snapshot() == Config(None, url, MethodGet, map[], map[], map[], NilValue, FileForm(None, None))
    {
      client, this.url, verb := None, url, MethodGet;
      header, params, form := map[], map[], map[];
      json, multipart := NilValue, FileForm(None, None);
    }

    constructor Post(url: string)
      ensures Snapshot() == Config(None, url, MethodPost, map[], map[], map[], NilValue, FileForm(None, None))
    {
      client, this.url, verb := None, url, MethodPost;
      header, params, form := map[], map[], map[];
      json, multipart := NilValue, FileForm(None, None);
    }

    constructor Put(url: string)
      ensures Snapshot() == Config(None, url, MethodPut, map[], map[], map[], NilValue, FileForm(None, None))
    {
      client, this.url, verb := None, url, MethodPut;
      header, params, form := map[], map[], map[];
      json, multipart := NilValue, FileForm(None, None);
    }

    constructor Delete(url: string)
      ensures Snapshot() == Config(None, url, MethodDelete, map[], map[], map[], NilValue, FileForm(None, None))
    {
      client, this.url, verb := None, url, MethodDelete;
      header, params, form := map[], map[], map[];
      json, multipart := NilValue, FileForm(None, None);
    }

    /** Any method, and a transport to use instead of http.DefaultClient (None for nil). */
    constructor Request(url: string, verb: string, client: Option<HttpClient>)
      ensures Snapshot() == Config(client, url, verb, map[], map[], map[], NilValue, FileForm(None, None))
    {
      this.client, this.url, this.verb := client, url, verb;
      header, params, form := map[], map[], map[];
      json, multipart := NilValue, FileForm(None, None);
    }

    method Params(p: Values) returns (same: Client)
      modifies this
      ensures same == this
      ensures Snapshot() == old(Snapshot()).(params := Merge(old(params), p))
    {
      var todo := p.Keys;
      while todo != {}
        invariant todo <= p.Keys
        invariant params == Merge(old(params), map k | k in p && k !in todo :: p[k])
        invariant Snapshot() == old(Snapshot()).(params := params)
        decreases todo
      {
        var k :| k in todo;
        params := params[k := p[k]];
        todo := todo - {k};
      }
      assert (map k | k in p && k !in todo :: p[k]) == p;
      same := this;
    }

    method Header(key: string, value: string) returns (same: Client)
      modifies this
      ensures same == this
      ensures Snapshot() == old(Snapshot()).(header := SetHeader(old(header), key, value))
    {
      header := SetHeader(header, key, value);
      same := this;
    }

    method Headers(h: HeaderMap) returns (same: Client)
      modifies this
      ensures same == this
      ensures Snapshot() == old(Snapshot()).(header := Merge(old(header), h))
    {
      var todo := h.Keys;
      while todo != {}
        invariant todo <= h.Keys
        invariant header == Merge(old(header), map k | k in h && k !in todo :: h[k])
        invariant Snapshot() == old(Snapshot()).(header := header)
        decreases todo
      {
        var k :| k in todo;
        header := header[k := h[k]];
        todo := todo - {k};
      }
      assert (map k | k in h && k !in todo :: h[k]) == h;
      same := this;
    }

    method Form(f: Values) returns (same: Client)
      modifies this
      ensures same == this
      ensures Snapshot() == old(Snapshot()).(header := SetHeader(old(header), ContentType, FormContentType), form := f)
    {
      header := SetHeader(header, ContentType, FormContentType);
      form := f;
      same := this;
    }

    method Json(j: Payload) returns (same: Client)
      modifies this
      ensures same == this
      ensures Snapshot() == old(Snapshot()).(header := SetHeader(old(header), ContentType, JsonContentType), json := j)
    {
      header := SetHeader(header, ContentType, JsonContentType);
      json := j;
      same := this;
    }

    method Multipart(mp: FileForm) returns (same: Client)
      modifies this
      ensures same == this
      ensures Snapshot() == old(Snapshot()).(multipart := mp)
    {
      multipart := mp;
      same := this;
    }

    /** `order` is the order in which Go iterates over the multipart file fields. */
    method Send(env: Env, order: seq<string>) returns (result: Result)
      requires IsIterationOrder(order, FilesOf(multipart))
      modifies this
      ensures fresh(result) && result.Valid()
      ensures Snapshot() == AfterSend(old(Snapshot()), env, order)
      ensures (result.resp, result.err) == SendResult(old(Snapshot()), env, order)
    {
      if |params| != 0 {
        var encoded := env.encode(params);
        if '?' !in url {
          url := url + "?" + encoded;
        } else {
          url := url + "&" + encoded;
        }
      }
      assert Snapshot() == Prepared(old(Snapshot()), env);
      var contentType := GetHeader(header, ContentType);
      if HasMultipart(multipart) {
        result := CreateMultipartForm(env, order);
      } else if JsonContentType <= contentType {
        result := CreateJson(env);
      } else if FormContentType <= contentType {
        result := CreateForm(env);
      } else {
        result := CreateEmptyBody(env);
      }
    }

    method CreateMultipartForm(env: Env, order: seq<string>) returns (result: Result)
      requires IsIterationOrder(order, FilesOf(multipart))
      modifies this
      ensures fresh(result) && result.Valid()
      ensures var b := BuildMultipart(old(Snapshot()), env, order);
              && (result.resp, result.err) == Deliver(b, Transport(client, env.defaultClient))
              && Snapshot() == (if b.Sent? then old(Snapshot()).(header := b.req.header) else old(Snapshot()))
    {
      result := new Result();
      var files := FilesOf(multipart);
      var i := 0;
      while i < |order|
        invariant 0 <= i <= |order|
        invariant FirstFileError(env, files, order) == FirstFileError(env, files, order[i..])
        invariant result.resp == None && result.err == None
        invariant Snapshot() == old(Snapshot())
      {
        assert order[i..][1..] == order[i + 1..];
        var name := order[i];
        var filename := files[name];
        var err := env.openFile(filename);
        if err.Some? {
          result.err := err;
          return;
        }
        err := env.createPart(name, filename);
        if err.Some? {
          result.err := err;
          return;
        }
        err := env.copyFile(filename);
        if err.Some? {
          result.err := err;
          return;
        }
        err := env.closeFile(filename);
        if err.Some? {
          result.err := err;
          return;
        }
        i := i + 1;
      }
      // The plain fields are written next; the source discards WriteField's errors.
      var err := env.closeWriter;
      if err.Some? {
        result.err := err;
        return;
      }
      err := env.newRequest(verb, url);
      if err.Some? {
        result.err := err;
        return;
      }
      var body := ByteBody(env.multipartBody(multipart, env.boundary));
      // The request's header map is the Client's own, so setting it changes both.
      header := SetHeader(header, ContentType, FormDataContentType(env.boundary));
      DoSend(HttpRequest(verb, url, header, body), result, env);
    }

    method CreateJson(env: Env) returns (result: Result)
      ensures fresh(result) && result.Valid()
      ensures (result.resp, result.err) == Deliver(BuildJson(Snapshot(), env), Transport(client, env.defaultClient))
    {
      result := new Result();
      var b := env.marshal(json);
      if b.Failed? {
        result.err := Some(b.error);
        return;
      }
      var err := env.newRequest(verb, url);
      if err.Some? {
        result.err := err;
        return;
      }
      DoSend(HttpRequest(verb, url, header, ByteBody(b.value)), result, env);
    }

    method CreateForm(env: Env) returns (result: Result)
      ensures fresh(result) && result.Valid()
      ensures (result.resp, result.err) == Deliver(BuildForm(Snapshot(), env), Transport(client, env.defaultClient))
    {
      result := new Result();
      var encoded := env.encode(form);
      var err := env.newRequest(verb, url);
      if err.Some? {
        result.err := err;
        return;
      }
      DoSend(HttpRequest(verb, url, header, TextBody(encoded)), result, env);
    }

    method CreateEmptyBody(env: Env) returns (result: Result)
      ensures fresh(result) && result.Valid()
      ensures (result.resp, result.err) == Deliver(BuildEmpty(Snapshot(), env), Transport(client, env.defaultClient))
    {
      result := new Result();
      var err := env.newRequest(verb, url);
      if err.Some? {
        result.err := err;
        return;
      }
      DoSend(HttpRequest(verb, url, header, NoBody), result, env);
    }

    method DoSend(req: HttpRequest, result: Result, env: Env)
      modifies result
      ensures (result.resp, result.err) == Deliver(Sent(req), Transport(client, env.defaultClient))
    {
      var transport := if client.Some? then client.value else env.defaultClient;
      match transport.do(req)
      case Responded(resp) =>
        result.resp, result.err := Some(resp), None;
      case TransportFailed(e) =>
        result.resp, result.err := None, Some(e);
    }
  }
}
