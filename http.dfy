/** The parts of Go's standard library that requests.go relies on (net/http,
    net/url, encoding/json, os, io), reduced to what the builder and the result
    wrapper can observe of them.  Behaviour the library decides on its own
    (percent-encoding, JSON encoding, request validation, file and network I/O)
    is not defined here: it reaches the model as function-valued parameters. */
module HttpTypes {

  datatype Option<+T> = None | Some(value: T)

  /** A Go `error` value. */
  datatype Error =
    | StatusNot200               // the error StatusOk records
    | StatusNot2xx               // the error Status2xx records
    | Library(message: string)   // an error handed back by the library, the OS or the network

  /** A value-or-error pair, for Go functions that return `(T, error)`. */
  datatype Outcome<+T> = Done(value: T) | Failed(error: Error)

  newtype byte = x: int | 0 <= x < 256

  type Bytes = seq<byte>

  /** url.Values and http.Header alike: each key maps to its list of values.
      Header keys are taken to be in canonical form already. */
  type Values = map<string, seq<string>>

  type HeaderMap = map<string, seq<string>>

  const MethodGet := "GET"
  const MethodPost := "POST"
  const MethodPut := "PUT"
  const MethodDelete := "DELETE"

  const StatusOK := 200
  const StatusMultipleChoices := 300

  const ContentType := "Content-Type"
  const JsonContentType := "application/json"
  const FormContentType := "application/x-www-form-urlencoded"

  /** The value multipart.Writer.FormDataContentType reports for the writer's
      own boundary: a random hex string, which needs no quoting. */
  function FormDataContentType(boundary: string): string
  {
    "multipart/form-data; boundary=" + boundary
  }

  /** http.Header.Set: all values of `key` are replaced by the single `value`. */
  function SetHeader(h: HeaderMap, key: string, value: string): (r: HeaderMap)
    ensures key in r && r[key] == [value]
    ensures forall k :: k != key ==> (k in r <==> k in h)
    ensures forall k :: k in h && k != key ==> r[k] == h[k]
    ensures GetHeader(r, key) == value
  {
    h[key := [value]]
  }

  /** http.Header.Get: the first value of `key`, or "" when there is none. */
  function GetHeader(h: HeaderMap, key: string): (r: string)
    ensures key in h && h[key] != [] ==> r == h[key][0]
    ensures key !in h || h[key] == [] ==> r == ""
  {
    if key in h && h[key] != [] then h[key][0] else ""
  }

  /** The interface{} value given to Client.Json: Go's nil, or some other Go
      value, named by a description; only json.Marshal looks inside it. */
  datatype Payload = NilValue | GoValue(description: string)

  /** An http.Response as the wrapper sees it: the status code and what reading
      the whole body stream yields (its bytes, or the error the read ends in). */
  datatype Response = Response(statusCode: int, body: Bytes, readFailure: Option<Error>)

  /** The io.Reader an outgoing request carries. */
  datatype Body = NoBody | ByteBody(bytes: Bytes) | TextBody(text: string)

  /** An outgoing request; `verb` is its HTTP method. */
  datatype HttpRequest = HttpRequest(verb: string, url: string, header: HeaderMap, body: Body)

  /** What http.Client.Do hands back: a response, or a transport error. */
  datatype Exchange = Responded(resp: Response) | TransportFailed(error: Error)

  /** An *http.Client; its Do performs the network exchange. */
  datatype HttpClient = HttpClient(do: HttpRequest -> Exchange)

  /** The file system as Result.Save uses it: the outcome of os.Create for a
      name, and of writing given bytes into the created file. */
  datatype FileSystem = FileSystem(create: string -> Option<Error>, write: (string, Bytes) -> Option<Error>)
}
