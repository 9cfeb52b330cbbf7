/** The data the upload request builders work on: the outbound request
    descriptor, the stage-tagged upload error, and the Foundation,
    AVFoundation and AFNetworking collaborators that are not part of this
    model (URL resolution against the Vimeo base URL, the
    file system, the asset's file size, the HTTP library's build step). */
module Requests {
  import opened Results

  datatype Method = GET | POST | PUT | PATCH | DELETE

  /** A value in a request's parameter dictionary. */
  datatype Param = Text(text: string) | Number(number: nat) | Object(fields: map<string, Param>)

  type Params = map<string, Param>

  /** An outbound request; `parameters` is `None` where the source passes nil. */
  datatype Request = Request(
    verb: Method,
    url: string,
    parameters: Option<Params>,
    headers: map<string, string>)

  /** `c` with an ASCII upper-case letter turned to lower case. */
  function LowerAscii(c: char): char {
    if 'A' <= c <= 'Z' then (c as int - 'A' as int + 'a' as int) as char else c
  }

  /** Header field names are compared without regard to ASCII case. */
  predicate SameHeaderName(a: string, b: string) {
    |a| == |b| && forall i :: 0 <= i < |a| ==> LowerAscii(a[i]) == LowerAscii(b[i])
  }

  /** `setValue(_:forHTTPHeaderField:)`: the field named `name`, in any case,
      ends up with exactly one entry, holding `value`; every other field is kept. */
  function SetHeader(headers: map<string, string>, name: string, value: string): (r: map<string, string>)
    ensures name in r && r[name] == value
    ensures forall k :: k in r && SameHeaderName(k, name) ==> k == name
    ensures forall k :: k in headers && !SameHeaderName(k, name) ==> k in r && r[k] == headers[k]
    ensures forall k :: k in r && k != name ==> k in headers && !SameHeaderName(k, name)
  {
    (map k | k in headers && !SameHeaderName(k, name) :: headers[k])[name := value]
  }

  /** The lifecycle stage an upload error is tagged with (`UploadErrorDomain`). */
  datatype UploadErrorDomain = Me | MyVideos | Create | Upload | Activate | VideoSettings | Delete

  datatype UploadError = UploadError(domain: UploadErrorDomain, description: string)

  /** A local file URL; `path` is `None` when the URL has no file path. */
  datatype FileUrl = FileUrl(path: Option<string>)

  /** What asking an asset for its file size yields: a length, nil, or a thrown error. */
  datatype SizeProbe = Known(length: nat) | Unknown | Failed(description: string)

  /** The platform collaborators: `resolve` gives the absolute string of a URI
      taken relative to the Vimeo base URL, `fileExists` asks the file
      manager, `fileSize` asks the media asset. */
  datatype Platform = Platform(
    resolve: string -> string,
    fileExists: string -> bool,
    fileSize: FileUrl -> SizeProbe)

  /** The request serializer: its build step reports an error description
      for the calls it refuses, and otherwise yields a request for the
      method, URL and parameters asked for, carrying the headers it chooses
      for that call. */
  datatype Serializer = Serializer(
    buildFailure: (Method, string, Option<Params>) -> Option<string>,
    buildHeaders: (Method, string, Option<Params>) -> map<string, string>)

  /** One call of the serializer's build step, with a refusal re-tagged with
      the stage `domain`. */
  function Build(serializer: Serializer, verb: Method, url: string, parameters: Option<Params>,
                 domain: UploadErrorDomain): (r: Result<Request, UploadError>)
    ensures r.Success? <==> serializer.buildFailure(verb, url, parameters).None?
    ensures r.Success? ==> r.value.verb == verb && r.value.url == url && r.value.parameters == parameters
    ensures r.Success? ==> r.value.headers == serializer.buildHeaders(verb, url, parameters)
    ensures r.Failure? ==> r.error.domain == domain
    ensures r.Failure? ==> r.error.description == serializer.buildFailure(verb, url, parameters).value
  {
    match serializer.buildFailure(verb, url, parameters)
    case Some(description) => Failure(UploadError(domain, description))
    case None => Success(Request(verb, url, parameters, serializer.buildHeaders(verb, url, parameters)))
  }
}
