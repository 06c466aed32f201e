/**
 * `extractTextFromPDF` from backend/routes/aiRoutes.js: choose a signed URL for the stored
 * file (falling back to the URL itself when no public id can be found or signing throws),
 * fetch it, fetch the original URL once more if that response is not ok, and decode the
 * body of whichever response was ok. Signing, fetching and PDF decoding are inputs.
 */
module PdfExtraction {
  import opened Wrappers
  import PublicId

  type Bytes = seq<bv8>

  /** What one `await fetch(target)` settled to. */
  datatype FetchOutcome =
    | Rejected(reason: string)
    | Response(ok: bool, statusText: string, body: Bytes)

  /** The collaborators of the extraction. */
  datatype Services = Services(
    sign: string -> Result<string, string>,  // `cloudinary.url(publicId, ...)` for a signed raw PDF, or what it threw
    fetch: (nat, string) -> FetchOutcome,    // the outcome of the n-th fetch of this extraction, given its target
    decodePdf: Bytes -> Result<string, string>) // `pdf(buffer)` then `.text`, or what it threw

  const FetchFailedPrefix: string := "Failed to fetch PDF: "

  /** The target of the first fetch (lines 35-48). */
  function SignedTarget(url: string, sign: string -> Result<string, string>): (t: string)
    ensures PublicId.ExtractPublicId(url).Failure? ==> t == url
    ensures PublicId.ExtractPublicId(url).Success? ==>
      var signed := sign(PublicId.ExtractPublicId(url).value);
      t == if signed.Success? then signed.value else url
  {
    match PublicId.ExtractPublicId(url)
    case Failure(_) => url
    case Success(publicId) =>
      match sign(publicId)
      case Failure(_) => url
      case Success(signed) => signed
  }

  /** What the extraction returns for `url`, as a function of its collaborators. */
  function ExtractedText(url: string, svc: Services): (r: Result<string, string>)
    ensures var first := svc.fetch(0, SignedTarget(url, svc.sign));
      && (first.Rejected? ==> r == Failure(first.reason))
      && (first.Response? && first.ok ==> r == svc.decodePdf(first.body))
      && (first.Response? && !first.ok && svc.fetch(1, url).Rejected? ==> r == Failure(svc.fetch(1, url).reason))
  {
    match svc.fetch(0, SignedTarget(url, svc.sign))
    case Rejected(reason) => Failure(reason)
    case Response(ok, _, body) =>
      if ok then svc.decodePdf(body)
      else
        match svc.fetch(1, url)
        case Rejected(reason) => Failure(reason)
        case Response(ok', statusText', body') =>
          if ok' then svc.decodePdf(body') else Failure(FetchFailedPrefix + statusText')
  }

  /**
   * The extraction, step by step. `fetched` lists the targets in the order they were
   * fetched: at most two, the signed target first and the original URL only after a
   * response that was not ok.
   */
  method ExtractTextFromPdf(url: string, svc: Services) returns (fetched: seq<string>, r: Result<string, string>)
    ensures r == ExtractedText(url, svc)
    ensures 1 <= |fetched| <= 2
    ensures PublicId.ExtractPublicId(url).Failure? ==> fetched[0] == url
    ensures PublicId.ExtractPublicId(url).Success? && svc.sign(PublicId.ExtractPublicId(url).value).Failure? ==>
      fetched[0] == url
    ensures PublicId.ExtractPublicId(url).Success? && svc.sign(PublicId.ExtractPublicId(url).value).Success? ==>
      fetched[0] == svc.sign(PublicId.ExtractPublicId(url).value).value
    ensures var first := svc.fetch(0, fetched[0]);
      && (first.Rejected? ==> |fetched| == 1 && r == Failure(first.reason))
      && (first.Response? && first.ok ==> |fetched| == 1 && r == svc.decodePdf(first.body))
      && (first.Response? && !first.ok ==> |fetched| == 2 && fetched[1] == url)
    ensures |fetched| == 2 ==>
      var second := svc.fetch(1, url);
      && (second.Rejected? ==> r == Failure(second.reason))
      && (second.Response? && second.ok ==> r == svc.decodePdf(second.body))
      && (second.Response? && !second.ok ==> r == Failure(FetchFailedPrefix + second.statusText))
  {
    var signedUrl: string;
    var publicId := PublicId.ExtractPublicId(url);
    if publicId.Failure? {
      signedUrl := url;
    } else {
      var signed := svc.sign(publicId.value);
      if signed.Failure? {
        signedUrl := url;
      } else {
        signedUrl := signed.value;
      }
    }

    fetched := [signedUrl];
    var response := svc.fetch(0, signedUrl);
    if response.Rejected? {
      return fetched, Failure(response.reason);
    }
    if !response.ok {
      fetched := fetched + [url];
      var fallbackResponse := svc.fetch(1, url);
      if fallbackResponse.Rejected? {
        return fetched, Failure(fallbackResponse.reason);
      }
      if !fallbackResponse.ok {
        return fetched, Failure(FetchFailedPrefix + fallbackResponse.statusText);
      }
      r := svc.decodePdf(fallbackResponse.body);
      return;
    }
    r := svc.decodePdf(response.body);
  }

  /** An extraction that succeeds returns the decoded text of a response that was ok, never of one that was not. */
  lemma ExtractedFromOkResponse(url: string, svc: Services)
    requires ExtractedText(url, svc).Success?
    ensures var first := svc.fetch(0, SignedTarget(url, svc.sign));
      || (first.Response? && first.ok && svc.decodePdf(first.body) == ExtractedText(url, svc))
      || (first.Response? && !first.ok && svc.fetch(1, url).Response? && svc.fetch(1, url).ok
          && svc.decodePdf(svc.fetch(1, url).body) == ExtractedText(url, svc))
  {
  }

  /** When both responses are not ok the error carries the second one's status text. */
  lemma BothNotOkFails(url: string, svc: Services)
    requires svc.fetch(0, SignedTarget(url, svc.sign)).Response? && !svc.fetch(0, SignedTarget(url, svc.sign)).ok
    requires svc.fetch(1, url).Response? && !svc.fetch(1, url).ok
    ensures ExtractedText(url, svc) == Failure(FetchFailedPrefix + svc.fetch(1, url).statusText)
  {
  }
}
