/** The response wrapper of requests.go: a `Result` holds the transport's
    response and an error slot.  Once the slot holds an error, every later
    operation hands that same error back and reads nothing. */
module Results {
  import opened HttpTypes

  /** The error StatusOk leaves in the slot. */
  function CheckStatusOk(err: Option<Error>, resp: Option<Response>): (r: Option<Error>)
    requires err.None? ==> resp.Some?
    ensures err.Some? ==> r == err
    ensures err.None? ==> (r.Some? <==> resp.value.statusCode != StatusOK)
    ensures err.None? && r.Some? ==> r == Some(StatusNot200)
  {
    if err.Some? then err
    else if resp.value.statusCode != StatusOK then Some(StatusNot200)
    else None
  }

  /** The error Status2xx leaves in the slot. */
  function CheckStatus2xx(err: Option<Error>, resp: Option<Response>): (r: Option<Error>)
    requires err.None? ==> resp.Some?
    ensures err.Some? ==> r == err
    ensures err.None? ==> (r.None? <==> StatusOK <= resp.value.statusCode < StatusMultipleChoices)
    ensures err.None? && r.Some? ==> r == Some(StatusNot2xx)
  {
    if err.Some? then err
    else if resp.value.statusCode < StatusOK || resp.value.statusCode >= StatusMultipleChoices then Some(StatusNot2xx)
    else None
  }

  /** What Raw returns: the recorded error, else the whole body or the error reading it ends in. */
  function ReadBody(err: Option<Error>, resp: Option<Response>): (r: Outcome<Bytes>)
    requires err.None? ==> resp.Some?
    ensures err.Some? ==> r == Failed(err.value)
    ensures err.None? ==> (r.Failed? <==> resp.value.readFailure.Some?)
    ensures err.None? && r.Failed? ==> resp.value.readFailure == Some(r.error)
    ensures r.Done? ==> err.None? && r.value == resp.value.body
  {
    if err.Some? then Failed(err.value)
    else match resp.value.readFailure
      case Some(e) => Failed(e)
      case None => Done(resp.value.body)
  }

  /** The slot after an operation that reports `d`: a failure is recorded, a success leaves the slot as it was. */
  function Latch<T>(err: Option<Error>, d: Outcome<T>): Option<Error>
  {
    if d.Failed? then Some(d.error) else err
  }

  /** What Json returns: the decoded value, or the error of reading or of decoding. */
  function DecodeJson(err: Option<Error>, resp: Option<Response>, unmarshal: Bytes -> Outcome<Payload>): (r: (Option<Payload>, Option<Error>))
    requires err.None? ==> resp.Some?
    ensures err.Some? ==> r == (None, err)
    ensures r.1.None? <==> ReadBody(err, resp).Done? && unmarshal(ReadBody(err, resp).value).Done?
    ensures r.0.Some? <==> r.1.None?
    ensures r.0.Some? ==> r.0.value == unmarshal(resp.value.body).value
    ensures ReadBody(err, resp).Failed? ==> r.1 == Some(ReadBody(err, resp).error)
    ensures ReadBody(err, resp).Done? && unmarshal(resp.value.body).Failed?
            ==> r.1 == Some(unmarshal(resp.value.body).error)
  {
    match ReadBody(err, resp)
    case Failed(e) => (None, Some(e))
    case Done(b) =>
      match unmarshal(b)
      case Done(v) => (Some(v), None)
      case Failed(e) => (None, Some(e))
  }

  /** What Save returns: the recorded error, else the first failure of creating
      the file or of copying the body into it.  The copy writes what it has read
      before it reports the error the read ends in. */
  function SaveError(err: Option<Error>, resp: Option<Response>, name: string, fs: FileSystem): (r: Option<Error>)
    requires err.None? ==> resp.Some?
    ensures err.Some? ==> r == err
    ensures err.None? ==> (r.None? <==> fs.create(name).None? && fs.write(name, resp.value.body).None? && resp.value.readFailure.None?)
    ensures err.None? && fs.create(name).Some? ==> r == fs.create(name)
    ensures err.None? && fs.create(name).None? && fs.write(name, resp.value.body).Some?
            ==> r == fs.write(name, resp.value.body)
    ensures err.None? && fs.create(name).None? && fs.write(name, resp.value.body).None?
            ==> r == resp.value.readFailure
  {
    if err.Some? then err
    else if fs.create(name).Some? then fs.create(name)
    else if fs.write(name, resp.value.body).Some? then fs.write(name, resp.value.body)
    else resp.value.readFailure
  }

  /** One call on a Result, for reasoning about chains of calls. */
  datatype Step =
    | StatusOkStep
    | Status2xxStep
    | RawStep
    | TextStep
    | JsonStep(unmarshal: Bytes -> Outcome<Payload>)
    | SaveStep(name: string, fs: FileSystem)

  /** The error slot after one call. */
  function After(err: Option<Error>, resp: Option<Response>, step: Step): (r: Option<Error>)
    requires err.None? ==> resp.Some?
    ensures err.Some? ==> r == err
  {
    match step
    case StatusOkStep => CheckStatusOk(err, resp)
    case Status2xxStep => CheckStatus2xx(err, resp)
    case RawStep => Latch(err, ReadBody(err, resp))
    case TextStep => Latch(err, ReadBody(err, resp))
    case JsonStep(_) => Latch(err, ReadBody(err, resp))
    case SaveStep(name, fs) =>
      var e := SaveError(err, resp, name, fs);
      if e.Some? then e else err
  }

  /** The error slot after a chain of calls; the response itself never changes. */
  function Run(err: Option<Error>, resp: Option<Response>, steps: seq<Step>): Option<Error>
    requires err.None? ==> resp.Some?
    decreases |steps|
  {
    if steps == [] then err else Run(After(err, resp, steps[0]), resp, steps[1..])
  }

  /** The first error recorded is the one every later call in the chain keeps. */
  lemma {:induction false} FirstErrorWins(err: Option<Error>, resp: Option<Response>, steps: seq<Step>)
    requires err.Some?
    ensures Run(err, resp, steps) == err
    decreases |steps|
  {
    if steps != [] {
      FirstErrorWins(After(err, resp, steps[0]), resp, steps[1..]);
    }
  }

  /** Calling more operations after a chain that failed does not change its error. */
  lemma {:induction false} FailureIsFinal(err: Option<Error>, resp: Option<Response>, steps: seq<Step>, more: seq<Step>)
    requires err.None? ==> resp.Some?
    requires Run(err, resp, steps).Some?
    ensures Run(err, resp, steps + more) == Run(err, resp, steps)
    decreases |steps|
  {
    if steps == [] {
      assert steps + more == more;
      FirstErrorWins(err, resp, more);
    } else {
      assert (steps + more)[1..] == steps[1..] + more;
      FailureIsFinal(After(err, resp, steps[0]), resp, steps[1..], more);
    }
  }

  /** A failed StatusOk check is what a following Text reports, not the body. */
  lemma FailedCheckSurfacesInText(resp: Response)
    requires resp.statusCode != StatusOK
    ensures ReadBody(CheckStatusOk(None, Some(resp)), Some(resp)) == Failed(StatusNot200)
  {
  }

  /** requests.go's Result: the response (nil when the request never got one)
      and the error slot. */
  class Result {
    var resp: Option<Response>
    var err: Option<Error>

    /** http.Client.Do never returns a nil response together with a nil error. */
    ghost predicate Valid()
      reads this
    {
      err.None? ==> resp.Some?
    }

    /** new(Result): both fields nil. */
    constructor ()
      ensures resp == None && err == None
    {
      resp := None;
      err := None;
    }

    method StatusOk() returns (same: Result)
      requires Valid()
      modifies this
      ensures same == this && Valid()
      ensures resp == old(resp)
      ensures err == CheckStatusOk(old(err), old(resp))
    {
      same := this;
      if err.Some? {
        return;
      }
      if resp.value.statusCode != StatusOK {
        err := Some(StatusNot200);
        return;
      }
    }

    method Status2xx() returns (same: Result)
      requires Valid()
      modifies this
      ensures same == this && Valid()
      ensures resp == old(resp)
      ensures err == CheckStatus2xx(old(err), old(resp))
    {
      same := this;
      if err.Some? {
        return;
      }
      if resp.value.statusCode < StatusOK || resp.value.statusCode >= StatusMultipleChoices {
        err := Some(StatusNot2xx);
        return;
      }
    }

    method Raw() returns (data: Outcome<Bytes>)
      requires Valid()
      modifies this
      ensures Valid() && resp == old(resp)
      ensures data == ReadBody(old(err), old(resp))
      ensures err == Latch(old(err), data)
    {
      if err.Some? {
        return Failed(err.value);
      }
      match resp.value.readFailure
      case Some(e) =>
        err := Some(e);
        return Failed(e);
      case None =>
        return Done(resp.value.body);
    }

    /** Go strings are byte strings, so the text is the body's bytes. */
    method Text() returns (text: Bytes, e: Option<Error>)
      requires Valid()
      modifies this
      ensures Valid() && resp == old(resp)
      ensures var d := ReadBody(old(err), old(resp));
              && (d.Done? ==> text == d.value && e == None)
              && (d.Failed? ==> text == [] && e == Some(d.error))
      ensures err == Latch(old(err), ReadBody(old(err), old(resp)))
    {
      var data := Raw();
      if data.Failed? {
        err := Some(data.error);
        return [], err;
      }
      return data.value, None;
    }

    /** The decoded value is what json.Unmarshal stores through the caller's pointer. */
    method Json(unmarshal: Bytes -> Outcome<Payload>) returns (decoded: Option<Payload>, e: Option<Error>)
      requires Valid()
      modifies this
      ensures Valid() && resp == old(resp)
      ensures (decoded, e) == DecodeJson(old(err), old(resp), unmarshal)
      ensures err == Latch(old(err), ReadBody(old(err), old(resp)))
    {
      var data := Raw();
      if data.Failed? {
        err := Some(data.error);
        return None, err;
      }
      match unmarshal(data.value)
      case Done(v) =>
        return Some(v), None;
      case Failed(decodeError) =>
        return None, Some(decodeError);
    }

    method Save(name: string, fs: FileSystem) returns (e: Option<Error>)
      requires Valid()
      modifies this
      ensures Valid() && resp == old(resp)
      ensures e == SaveError(old(err), old(resp), name, fs)
      ensures err == (if e.Some? then e else old(err))
    {
      if err.Some? {
        return err;
      }
      e := fs.create(name);
      if e.Some? {
        err := e;
        return err;
      }
      e := fs.write(name, resp.value.body);
      if e.None? {
        e := resp.value.readFailure;
      }
      if e.Some? {
        err := e;
        return err;
      }
      return None;
    }
  }
}
