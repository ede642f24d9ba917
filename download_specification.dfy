/**
  DownloadSpecification of src/models/download-specification.ts: the validated
  descriptor of a two-phase download, built from a "prepare download" response.
*/
module DownloadSpecifications {
  import opened Wrappers
  import opened Common

  /** The "prepare download" response body; any field may be missing from the JSON. */
  datatype DownloadApiResponse = DownloadApiResponse(
    DownloadToken: Option<string>,
    DownloadUrl: Option<string>,
    DownloadPrepStatusURL: Option<string>,
    OdataMetadata: Option<string>,  // 'odata.metadata'
    OdataType: Option<string>)      // 'odata.type'

  /** The descriptor handed to the caller. */
  datatype DownloadSpecification = DownloadSpecification(
    token: string,
    url: string,
    prepStatus: Option<string>,
    odataMetadata: Option<string>,
    odataType: Option<string>)

  /** A descriptor is usable when it has both a token and a transfer URL. */
  predicate Valid(spec: DownloadSpecification)
  {
    spec.token != "" && spec.url != ""
  }

  /**
    The constructor: an absent body and a body without a token or a URL are
    rejected, in that order; otherwise every field is carried over unchanged.
  */
  function FromResponse(data: Option<DownloadApiResponse>): (r: Result<DownloadSpecification, Error>)
    ensures data.None? ==> r == Failure(EmptyDownloadResponse)
    ensures data.Some? ==>
      (r.Success? <==> Present(data.value.DownloadToken) && Present(data.value.DownloadUrl))
    ensures data.Some? && r.Failure? ==> r.error == DownloadDetailsNotFound
    ensures r.Success? ==> Valid(r.value)
    ensures r.Success? ==>
      && Some(r.value.token) == data.value.DownloadToken
      && Some(r.value.url) == data.value.DownloadUrl
      && r.value.prepStatus == data.value.DownloadPrepStatusURL
      && r.value.odataMetadata == data.value.OdataMetadata
      && r.value.odataType == data.value.OdataType
  {
    match data
    case None => Failure(EmptyDownloadResponse)
    case Some(d) =>
      if !Present(d.DownloadToken) || !Present(d.DownloadUrl) then Failure(DownloadDetailsNotFound)
      else Success(DownloadSpecification(d.DownloadToken.value, d.DownloadUrl.value,
                                         d.DownloadPrepStatusURL, d.OdataMetadata, d.OdataType))
  }

  /** The response body a descriptor describes. */
  function ToResponse(spec: DownloadSpecification): DownloadApiResponse
  {
    DownloadApiResponse(Some(spec.token), Some(spec.url), spec.prepStatus, spec.odataMetadata, spec.odataType)
  }

  /** Every valid descriptor is accepted back from the body it describes, and no invalid one is. */
  lemma SpecificationRoundTrip(spec: DownloadSpecification)
    ensures FromResponse(Some(ToResponse(spec))) ==
      if Valid(spec) then Success(spec) else Failure(DownloadDetailsNotFound)
  {
  }

  /** Construction is lossless: an accepted body is recovered from its descriptor. */
  lemma ResponseRoundTrip(data: DownloadApiResponse)
    requires FromResponse(Some(data)).Success?
    ensures ToResponse(FromResponse(Some(data)).value) == data
  {
  }

  /** `{DownloadToken: 'x'}` alone is rejected. */
  lemma TokenAloneIsRejected()
    ensures FromResponse(Some(DownloadApiResponse(Some("x"), None, None, None, None)))
         == Failure(DownloadDetailsNotFound)
  {
  }
}
