/**
  UploadSpecification of src/models/upload-specification.ts: the validated
  descriptor of a two-phase upload and the transfer of the content to it.
*/
module UploadSpecifications {
  import opened Wrappers
  import opened Common

  newtype byte = x: int | 0 <= x < 256

  /** The "prepare upload" response body. The resume and threading fields are never read. */
  datatype PrepareUploadApiResponse = PrepareUploadApiResponse(Method: Option<string>, ChunkUri: Option<string>)

  /** One confirmed upload, as the upload endpoint reports it. */
  datatype UploadInfo = UploadInfo(
    uploadid: string, parentid: string, streamid: string, id: string,
    filename: string, displayname: string, size: int, md5: string)

  /** The upload endpoint's answer: its confirmations and its error flag. */
  datatype SubmitUploadApiResponse = SubmitUploadApiResponse(value: seq<UploadInfo>, error: bool)

  /** Content to upload: a buffer, or a string still to be encoded. */
  datatype Contents = Buffer(bytes: seq<byte>) | Text(text: string)

  /** The POST the upload sends: its target, its body and its Content-Type header. */
  datatype SubmitRequest = SubmitRequest(target: string, body: seq<byte>, contentType: string)

  /** The validated descriptor. */
  datatype UploadSpecification = UploadSpecification(transferMethod: string, url: string)

  /** The only transfer method implemented. */
  const StandardMethod := "Standard"

  /** The response-format hint appended to the chunk URL. */
  const FormatHint := "&fmt=json"

  predicate Valid(spec: UploadSpecification)
  {
    spec.transferMethod != "" && spec.url != ""
  }

  /**
    The constructor: an absent body and a body without a method or a chunk URL are
    rejected, in that order. Any method is accepted here, not only "Standard".
  */
  function FromResponse(data: Option<PrepareUploadApiResponse>): (r: Result<UploadSpecification, Error>)
    ensures data.None? ==> r == Failure(EmptyUploadResponse)
    ensures data.Some? ==> (r.Success? <==> Present(data.value.Method) && Present(data.value.ChunkUri))
    ensures data.Some? && r.Failure? ==> r.error == UploadDetailsNotFound
    ensures r.Success? ==>
      Valid(r.value) && Some(r.value.transferMethod) == data.value.Method && Some(r.value.url) == data.value.ChunkUri
  {
    match data
    case None => Failure(EmptyUploadResponse)
    case Some(d) =>
      if !Present(d.Method) || !Present(d.ChunkUri) then Failure(UploadDetailsNotFound)
      else Success(UploadSpecification(d.Method.value, d.ChunkUri.value))
  }

  /** The response body a descriptor describes. */
  function ToResponse(spec: UploadSpecification): PrepareUploadApiResponse
  {
    PrepareUploadApiResponse(Some(spec.transferMethod), Some(spec.url))
  }

  /** Every valid descriptor is accepted back from the body it describes, and no invalid one is. */
  lemma SpecificationRoundTrip(spec: UploadSpecification)
    ensures FromResponse(Some(ToResponse(spec))) ==
      if Valid(spec) then Success(spec) else Failure(UploadDetailsNotFound)
  {
  }

  /** `{ChunkUri: ''}` is rejected; `{ChunkUri: 'x', Method: 'Raw'}` is accepted. */
  lemma ConstructionExamples()
    ensures FromResponse(Some(PrepareUploadApiResponse(None, Some("")))) == Failure(UploadDetailsNotFound)
    ensures FromResponse(Some(PrepareUploadApiResponse(Some("Raw"), Some("x"))))
         == Success(UploadSpecification("Raw", "x"))
  {
  }

  /** The submit target: the chunk URL followed by the format hint, nothing else. */
  function SubmitTarget(spec: UploadSpecification): (t: string)
    ensures |t| == |spec.url| + |FormatHint|
    ensures t[..|spec.url|] == spec.url && t[|spec.url|..] == FormatHint
  {
    spec.url + FormatHint
  }

  /** Distinct chunk URLs give distinct targets. */
  lemma SubmitTargetInjective(a: UploadSpecification, b: UploadSpecification)
    requires SubmitTarget(a) == SubmitTarget(b)
    ensures a.url == b.url
  {
  }

  /**
    How the upload endpoint's answer is read: a transport failure is passed on, a set
    error flag is a failure, and otherwise the first confirmation is the result
    (None when the list is empty, where the source returns `undefined`).
  */
  function Interpret(submit: Result<SubmitUploadApiResponse, Error>): (r: Result<Option<UploadInfo>, Error>)
    ensures submit.Failure? ==> r == Failure(submit.error)
    ensures submit.Success? && submit.value.error ==> r == Failure(UploadFailed)
    ensures submit.Success? && !submit.value.error ==>
      r.Success? && (r.value.Some? <==> |submit.value.value| > 0)
    ensures r.Success? && r.value.Some? ==> r.value.value == submit.value.value[0]
  {
    match submit
    case Failure(e) => Failure(e)
    case Success(resp) =>
      if resp.error then Failure(UploadFailed)
      else if |resp.value| == 0 then Success(None)
      else Success(Some(resp.value[0]))
  }

  /**
    `upload`: refuses any method other than "Standard" before any request; otherwise
    turns a string into bytes with `encode`, labels the bytes with the content type
    `detect` finds in them, posts them to the submit target, and reads the answer.
    `request` is the POST that is sent (None: nothing is sent).
  */
  method Upload(spec: UploadSpecification, contents: Contents,
                encode: string -> seq<byte>, detect: seq<byte> -> string,
                submit: Result<SubmitUploadApiResponse, Error>)
    returns (request: Option<SubmitRequest>, r: Result<Option<UploadInfo>, Error>)
    ensures spec.transferMethod != StandardMethod ==> request == None && r == Failure(UnsupportedUploadMethod)
    ensures spec.transferMethod == StandardMethod ==>
      var body := if contents.Buffer? then contents.bytes else encode(contents.text);
      && request == Some(SubmitRequest(SubmitTarget(spec), body, detect(body)))
      && r == Interpret(submit)
  {
    if spec.transferMethod != StandardMethod {
      return None, Failure(UnsupportedUploadMethod);
    }
    var bytes: seq<byte>;
    match contents {
      case Buffer(b) => bytes := b;
      case Text(t) => bytes := encode(t);
    }
    var contentType := detect(bytes);
    request := Some(SubmitRequest(SubmitTarget(spec), bytes, contentType));
    r := Interpret(submit);
  }
}
