# requests: a verified model of the request builder and result wrapper

This project models `requests.go` from the Go library `xuanbo/requests`. The library is a fluent builder over `net/http`, with two parts.

A `Client` collects a request through chained setters: the method, the URL, query parameters, headers, and one body (a form, a JSON value or a multipart spec). `Send` then does four things:

- it appends the encoded query parameters to the URL, in place;
- it picks one body strategy by a fixed precedence: a multipart spec, then a JSON Content-Type, then a form Content-Type, then no body;
- it builds the request, stopping at the first failure;
- it hands the request to the Client's own `*http.Client` if it has one, otherwise to `http.DefaultClient`.

The `Result` it returns holds the response and an error slot. Once the slot holds an error, `StatusOk` and `Status2xx` keep it and return the same `Result`, and `Raw`, `Text`, `Json` and `Save` return that error; none of them reads the body.

The project has three modules:

- `HttpTypes` (`http.dfy`): stand-ins for the parts of the Go standard library that the code observes. These are header maps with `Set`/`Get`, responses, outgoing requests, the transport (`HttpClient`, a function from request to response or error) and the file system used by `Save`.
- `Results` (`results.dfy`): the class `Result`. It has pure functions that give what each of its methods returns and leaves in the error slot. `Run` describes a chain of such calls, and lemmas about it state the "first error wins" rule.
- `Requests` (`requests.dfy`): the class `Client`, with its fields, constructors, setters, `Send` and the four body builders. It has a value view (`Config`, through `Client.Snapshot`) and pure functions (`RewriteUrl`, `Dispatch`, `BuildRequest`, `AfterSend`, `SendResult`) that specify `Send`. Lemmas state what `Send` promises.

Behaviour that the Go library or the OS decides is not defined in the model. It reaches `Send` as fields of an `Env` value:

- percent-encoding;
- JSON encoding;
- `http.NewRequest`'s check of the method and URL;
- the outcome of each file open, part creation, copy and close;
- the multipart writer's close, boundary and buffer;
- `http.DefaultClient`.

Go's random iteration order over the multipart file map is an explicit parameter `order`: a list of every file field, each exactly once. The Go field `method` is called `verb` because `method` is a Dafny keyword. In `Send` and the body builders, the URL used is the rewritten one.

The multipart path does not copy the Client's headers. `req.Header = c.header` shares the map, so setting the multipart Content-Type on the request also writes it into the Client's own headers. The model keeps that: after a multipart request is built, `Client.header` holds the multipart Content-Type.

## Model

| member | source | states |
|---|---|---|
| `Requests.Client.Get` | requests.go:44-49 | the method is GET and the URL is the argument; the header, params and form maps are empty; there is no custom client, the JSON value is nil and the multipart spec is nil |
| `Requests.Client.Post` | requests.go:52-57 | as Get, with method POST |
| `Requests.Client.Put` | requests.go:60-65 | as Get, with method PUT |
| `Requests.Client.Delete` | requests.go:68-73 | as Get, with method DELETE |
| `Requests.Client.Request` | requests.go:77-83 | the caller's method string and custom client (or nil) are stored as given; everything else starts empty, as in newClient |
| `Requests.Merge` | requests.go:87-89 | key-wise overwrite merge: every key of the argument maps to the argument's value list; other keys keep their entries; no key is lost or invented |
| `Requests.Client.Params` | requests.go:86-91 | the params map becomes the overwrite merge of the old map with the argument; no other field changes; the same Client is returned |
| `HttpTypes.GetHeader` | requests.go:141 | Get yields the key's first value, or "" when the key is absent or has no values |
| `HttpTypes.SetHeader` | requests.go:95 | after Set, the key holds exactly the one value and Get returns it; every other key is unchanged |
| `Requests.Client.Header` | requests.go:94-97 | all values of the key are replaced by the single value; nothing else in the Client changes |
| `Requests.Client.Headers` | requests.go:100-105 | the header map becomes the overwrite merge of the old headers with the argument; nothing else changes |
| `Requests.Client.Form` | requests.go:108-112 | Content-Type becomes `application/x-www-form-urlencoded` and the form is stored; nothing else changes |
| `Requests.Client.Json` | requests.go:115-119 | Content-Type becomes `application/json` and the value is stored; nothing else changes |
| `Requests.Client.Multipart` | requests.go:122-125 | the spec is stored and the headers are untouched |
| `Requests.LastBodySetterWins` | requests.go:108-119 | after any earlier Content-Type, a later Json makes Send choose JSON and a later Form makes it choose the form, unless a multipart spec is present, which always wins |
| `Requests.RewriteUrl` | requests.go:131-139 | with no params the URL is unchanged; otherwise it is the old URL, then `&` if the old URL already has a `?` (else `?`), then the encoded params |
| `Requests.RewriteTwiceAppendsTwice` | requests.go:134-138 | rewriting a rewritten URL appends `&` and the encoded params once more |
| `Requests.SendTwiceAppendsParamsTwice` | requests.go:131-139 | because Send rewrites the Client's URL in place, a second Send on the same Client appends the params again after `&` |
| `Requests.SendWithoutParamsKeepsUrl` | requests.go:131 | with an empty params map Send leaves the URL as it was |
| `Requests.Dispatch` | requests.go:141-150 | exactly one body path: multipart iff the spec's Value or File is non-nil; else JSON iff Content-Type starts with `application/json`; else form iff it starts with `application/x-www-form-urlencoded`; else no body |
| `Requests.FileError` | requests.go:163-186 | one file field fails iff its open, part creation, copy or close fails, and the error reported is that of the earliest failing step: open, then part creation, then copy, then close |
| `Requests.FirstFileError` | requests.go:162-187 | the loop succeeds when every listed file field succeeds, and a failing first field stops it with that field's error |
| `Requests.FirstFileErrorIsEarliest` | requests.go:162-187 | the file loop fails iff some file fails, and it reports the error of the first failing file in iteration order, all earlier files having succeeded |
| `Requests.FileLoopSucceedsIffEveryFileDoes` | requests.go:162-187 | whatever order Go iterates the map in, the file loop succeeds exactly when every file field succeeds |
| `Requests.BuildMultipart` | requests.go:156-205 | the request is built iff the file loop, the writer's close and the library's request check all succeed; otherwise the error is the file loop's, else the close error, else the check's (the check's error is reported, see Findings); a built request has the Client's method and URL, the writer's buffer as body, and the Client's headers with Content-Type replaced by the writer's value |
| `Requests.BuildJson` | requests.go:209-227 | the request is built iff marshalling and the request check succeed; a marshal failure is reported first, then the check's error; a built request carries the marshalled bytes and the Client's headers unchanged |
| `Requests.BuildForm` | requests.go:230-244 | the request is built iff the request check succeeds, else its error is reported; a built request carries the encoded form and the Client's headers unchanged |
| `Requests.BuildEmpty` | requests.go:247-259 | the request is built iff the request check succeeds, else its error is reported; a built request has no body and the Client's headers unchanged |
| `Requests.BuildRequest` | requests.go:141-150 | whatever body path is chosen, a request the library rejects is never built; a built request has the Client's method and URL, and its headers are the Client's, with the writer's Content-Type exactly when a multipart spec is present |
| `Requests.MultipartStopsAtFirstFailure` | requests.go:156-205 | a multipart request is sent iff every file succeeds, the writer closes and the request is accepted; the error is the first failing file's, else the writer's close error |
| `Requests.JsonStopsAtFirstFailure` | requests.go:209-227 | a marshal failure stops the JSON path with that error; otherwise a rejected request stops it; otherwise the request is sent |
| `Requests.RejectedRequestIsReported` | requests.go:201-258 | whenever `http.NewRequest` rejects the method or URL, Send reports an error and sends nothing, on every body path (with the multipart path corrected, see Findings) |
| `Requests.MultipartContentTypeOverrides` | requests.go:201-203 | the multipart request's Content-Type is the writer's value whatever was configured, and every other configured header is sent unchanged |
| `Requests.SentRequestMatchesKind` | requests.go:141-258 | a sent request has the Client's method and rewritten URL and the body of its path (multipart buffer, marshalled JSON, encoded form or none); only the multipart path changes a header, and there the Client's own header map changes with it |
| `Requests.AbortedBuildIsNeverSent` | requests.go:164-253 | when building stops with an error, the Result carries exactly that error and no response, and it does not depend on the transport |
| `Requests.BuiltRequestGoesToChosenTransport` | requests.go:261-268 | a built request goes to the Client's own transport when one was given, else to the default one, and the Result holds that transport's answer |
| `Requests.SendResult` | requests.go:128-153 | the Result of Send never has a nil response together with a nil error |
| `Requests.AfterSend` | requests.go:128-153 | Send's own code changes only the Client's URL, which becomes the rewritten URL, and its Content-Type, which becomes the writer's value exactly when a multipart spec is present and the multipart request is built; a multipart build that stops at a file, the writer or the request check leaves the headers alone |
| `Requests.Client.Send` | requests.go:128-153 | the new Client state is AfterSend of the old one and the returned Result is SendResult of it (corrected multipart path, see Findings); the Result satisfies the Do invariant |
| `Requests.Client.CreateMultipartForm` | requests.go:156-206 | the loop stops at the first failing file, in iteration order; the Result is the multipart build's, delivered; the header changes only when the request is sent (corrected multipart path, see Findings) |
| `Requests.Client.CreateJson` | requests.go:209-227 | the Result is the JSON build's, delivered; the Client is unchanged |
| `Requests.Client.CreateForm` | requests.go:230-244 | the Result is the form build's (body: the encoded form), delivered |
| `Requests.Client.CreateEmptyBody` | requests.go:247-259 | the Result is the bodiless build's, delivered |
| `Requests.Client.DoSend` | requests.go:261-268 | the Result fields are the chosen transport's answer to the request |
| `Results.Result.constructor` | requests.go:157 | a new Result has a nil response and no error |
| `Results.CheckStatusOk` | requests.go:271-281 | an error already recorded stays; otherwise the error is set iff the status code is not 200, and then it is the "not 200" error |
| `Results.Result.StatusOk` | requests.go:271-281 | the error slot becomes CheckStatusOk of the old state; the response is untouched; the same Result is returned |
| `Results.CheckStatus2xx` | requests.go:284-294 | an error already recorded stays; otherwise no error is set iff 200 <= status code < 300, and otherwise it is the "not in [200, 300)" error |
| `Results.Result.Status2xx` | requests.go:284-294 | the error slot becomes CheckStatus2xx of the old state; the same Result is returned |
| `Results.ReadBody` | requests.go:297-310 | a recorded error is returned unchanged without reading; otherwise the read fails iff the body stream fails, and a successful read yields the whole body |
| `Results.Result.Raw` | requests.go:297-310 | returns ReadBody of the old state and records a read failure in the slot |
| `Results.Result.Text` | requests.go:313-321 | returns the body on success; on any Raw failure returns "" with that error, which is recorded |
| `Results.DecodeJson` | requests.go:324-332 | a recorded error is returned unchanged; otherwise there is no error iff both reading and decoding succeed, and only then a value is decoded; a read failure returns the read's error and a decoding failure returns `json.Unmarshal`'s error |
| `Results.Result.Json` | requests.go:324-332 | returns DecodeJson of the old state; a read failure is recorded in the slot, but a decoding failure is only returned, not recorded |
| `Results.SaveError` | requests.go:335-356 | a recorded error is returned unchanged without touching the file system; otherwise the save succeeds iff creating the file, writing the body and reading the stream all succeed, and the error reported is the create failure, else the write failure, else the read failure |
| `Results.Result.Save` | requests.go:335-356 | returns SaveError of the old state and records any new failure in the slot |
| `Results.After` | requests.go:271-356 | an error already in the slot is kept by every operation |
| `Results.FirstErrorWins` | requests.go:272-338 | once the slot holds an error, any chain of StatusOk, Status2xx, Raw, Text, Json and Save calls ends with that same error |
| `Results.FailureIsFinal` | requests.go:272-338 | calls made after a chain that failed leave its error as it was |
| `Results.FailedCheckSurfacesInText` | requests.go:313-317 | after StatusOk fails on a non-200 response, reading the body returns the status error, not the body |
| `Requests.MultipartAsWrittenPanicsOnRejectedRequest` | requests.go:201-203 | where the request is rejected after the files and the writer succeed, the source's multipart path dereferences nil while the corrected one reports the error; otherwise the two agree |
| `Requests.RejectedMethodCrashesMultipart` | requests.go:201-203 | for method "BAD METHOD" with an empty multipart spec, the source's path panics while the JSON path and the corrected multipart path report the rejection |

## Left out

- Transport: the network exchange is a function `HttpRequest -> Exchange` held by `HttpClient`. Redirects, timeouts, connection reuse and a response returned together with an error are not modelled. On every path the request's header map is the Client's own map (requests.go:202, 224, 241, 256), so a transport that writes request headers, such as an `*http.Client` with a cookie jar adding `Cookie`, changes the Client's headers too; the pure `do` function cannot, so Send's contract does not cover such changes.
- Setter arguments by reference: `Params`, `Headers` and `Form` store the caller's value lists and maps, and `Multipart` the caller's maps, by reference (requests.go:88, 102, 110, 123). A caller who changes them before `Send` changes what is sent. The model stores values, so that sharing is not modelled.
- Encoders: `url.Values.Encode`, `json.Marshal`, `json.Unmarshal`, the multipart boundary and the multipart buffer's bytes are uninterpreted functions in `Env`. Percent-encoding, key sorting and the layout of a multipart body are not modelled.
- Multipart fields: errors from `writer.WriteField`, which the source discards, are not modelled.
- Header keys: keys are taken to be canonical already. `http.Header.Set`/`Get` canonicalise keys and `Headers` stores its keys as given; that difference is not modelled.
- File and stream I/O: open, copy, close, create and write are outcomes only. Nothing models the bytes that reach a file, a partial write, or a truncated file.
- Resource release: when a part or copy fails, the source leaves the opened file unclosed. The closing of response bodies and the order of `defer` calls are not modelled either.
- Single read of the body: the response body is a value, so a second read yields the same outcome rather than an already drained stream.
- Nil and empty maps: a nil `form` and an empty one encode the same way and are both the empty map. The multipart spec keeps nil apart from empty, because `Send` tests it.
- Results.Result.Json: the decoded value is returned instead of being written through the caller's pointer. What `json.Unmarshal` leaves in the target after it fails is not modelled.
- Request interceptors: no interceptor code exists in requests.go, so there is nothing to model. The demo program examples/main.go is not part of this model.

## Findings

| source | as written | input that shows it | evidently intended | confidence | as-written member | corrected member |
|---|---|---|---|---|---|---|
| requests.go:201-203 | the multipart path ignores the error from `http.NewRequest` and then runs `req.Header = c.header` on a nil request | `Request(u, "BAD METHOD", nil).Multipart(FileForm{Value: url.Values{}}).Send()`; the method holds a space, so the request is rejected and the program panics with a nil dereference | as on the JSON, form and no-body paths, a rejected request is returned as the Result's error | high, not executed | `Requests.MultipartAsWrittenPanicsOnRejectedRequest` (on `BuildMultipartAsWritten`), `Requests.RejectedMethodCrashesMultipart` | `Requests.RejectedRequestIsReported` (on `BuildMultipart`, which `Client.CreateMultipartForm` and `Client.Send` follow) |
