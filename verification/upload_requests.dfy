/** The upload lifecycle requests of `VimeoRequestSerializer+Upload.swift`:
    each builder returns the request descriptor or the error, tagged with
    the stage that produced it, that the Swift method throws. */
module UploadRequests {
  import opened Results
  import opened Requests
  import opened Decimal

  const MeUri := "/me"
  const MyVideosUri := "/me/videos"
  const StreamingType := "streaming"
  const VideoMimeType := "video/mp4"
  const ContentLengthHeader := "Content-Length"
  const ContentTypeHeader := "Content-Type"

  const NoFileLengthMessage := "Unable to calculate file length."
  const MissingSourceMessage := "Attempt to construct upload request but the source file does not exist."
  const EmptyUriMessage := "videoUri has length of 0."
  const EmptyParametersMessage := "Parameters dictionary is empty."

  /** The parameters of a streaming create request for a file of `length` bytes. */
  function StreamingCreateParameters(length: nat): Params {
    map["type" := Text(StreamingType), "size" := Number(length)]
  }

  /** GET on `/me`. */
  function MeRequest(serializer: Serializer, platform: Platform): (r: Result<Request, UploadError>)
    ensures r.Success? <==> serializer.buildFailure(GET, platform.resolve(MeUri), None).None?
    ensures r.Success? ==> r.value == Request(GET, platform.resolve(MeUri), None,
                                              serializer.buildHeaders(GET, platform.resolve(MeUri), None))
    ensures r.Failure? ==> r.error == UploadError(Me, serializer.buildFailure(GET, platform.resolve(MeUri), None).value)
  {
    Build(serializer, GET, platform.resolve(MeUri), None, Me)
  }

  /** GET on `/me/videos`. */
  function MyVideosRequest(serializer: Serializer, platform: Platform): (r: Result<Request, UploadError>)
    ensures r.Success? <==> serializer.buildFailure(GET, platform.resolve(MyVideosUri), None).None?
    ensures r.Success? ==> r.value == Request(GET, platform.resolve(MyVideosUri), None,
                                              serializer.buildHeaders(GET, platform.resolve(MyVideosUri), None))
    ensures r.Failure? ==>
      r.error == UploadError(MyVideos, serializer.buildFailure(GET, platform.resolve(MyVideosUri), None).value)
  {
    Build(serializer, GET, platform.resolve(MyVideosUri), None, MyVideos)
  }

  /** The create parameters for the file at `url`: its type and its size. */
  function CreateVideoRequestBaseParameters(platform: Platform, url: FileUrl): (r: Result<Params, UploadError>)
    ensures r.Success? <==> platform.fileSize(url).Known?
    ensures r.Success? ==> r.value.Keys == {"type", "size"}
    ensures r.Success? ==> r.value["type"] == Text(StreamingType)
    ensures r.Success? ==> r.value["size"] == Number(platform.fileSize(url).length)
    ensures r.Failure? ==> r.error.domain == Create
    ensures platform.fileSize(url).Unknown? ==> r.error.description == NoFileLengthMessage
    ensures platform.fileSize(url).Failed? ==> r.error.description == platform.fileSize(url).description
  {
    match platform.fileSize(url)
    case Failed(description) => Failure(UploadError(Create, description))
    case Unknown => Failure(UploadError(Create, NoFileLengthMessage))
    case Known(length) => Success(StreamingCreateParameters(length))
  }

  /** POST of `parameters` to the absolute `url`. */
  function CreateVideoRequestWithParameters(serializer: Serializer, url: string, parameters: Params)
    : (r: Result<Request, UploadError>)
    ensures r.Success? <==> serializer.buildFailure(POST, url, Some(parameters)).None?
    ensures r.Success? ==> r.value == Request(POST, url, Some(parameters),
                                              serializer.buildHeaders(POST, url, Some(parameters)))
    ensures r.Failure? ==> r.error == UploadError(Create, serializer.buildFailure(POST, url, Some(parameters)).value)
  {
    Build(serializer, POST, url, Some(parameters), Create)
  }

  /** POST to `/me/videos` creating a streaming video of the size of the file
      at `url`; `url` only supplies the size, never the destination. */
  function CreateVideoRequest(serializer: Serializer, platform: Platform, url: FileUrl)
    : (r: Result<Request, UploadError>)
    ensures r.Success? <==>
      && platform.fileSize(url).Known?
      && serializer.buildFailure(POST, platform.resolve(MyVideosUri),
                                 Some(StreamingCreateParameters(platform.fileSize(url).length))).None?
    ensures r.Success? ==> r.value.verb == POST && r.value.url == platform.resolve(MyVideosUri)
    ensures r.Success? ==> r.value.parameters == Some(map["type" := Text(StreamingType),
                                                          "size" := Number(platform.fileSize(url).length)])
    ensures r.Success? ==> r.value.headers == serializer.buildHeaders(POST, platform.resolve(MyVideosUri),
                                                                      r.value.parameters)
    ensures r.Failure? ==> r.error.domain == Create
    ensures platform.fileSize(url).Unknown? ==> r == Failure(UploadError(Create, NoFileLengthMessage))
    ensures platform.fileSize(url).Failed? ==> r == Failure(UploadError(Create, platform.fileSize(url).description))
    ensures platform.fileSize(url).Known? && r.Failure? ==>
      r.error.description == serializer.buildFailure(POST, platform.resolve(MyVideosUri),
                                                     Some(StreamingCreateParameters(platform.fileSize(url).length))).value
  {
    var parameters :- CreateVideoRequestBaseParameters(platform, url);
    CreateVideoRequestWithParameters(serializer, platform.resolve(MyVideosUri), parameters)
  }

  /** Whether the source URL has a path at which the file manager finds a file. */
  predicate SourceExists(platform: Platform, source: FileUrl) {
    source.path.Some? && platform.fileExists(source.path.value)
  }

  /** PUT of the file at `source` to `destination`, with its length and media type as headers. */
  function UploadVideoRequest(serializer: Serializer, platform: Platform, source: FileUrl, destination: string)
    : (r: Result<Request, UploadError>)
    ensures !SourceExists(platform, source) ==> r == Failure(UploadError(Upload, MissingSourceMessage))
    ensures r.Success? <==>
      && SourceExists(platform, source)
      && serializer.buildFailure(PUT, destination, None).None?
      && platform.fileSize(source).Known?
    ensures r.Success? ==> r.value.verb == PUT && r.value.url == destination && r.value.parameters == None
    ensures r.Success? ==> ContentTypeHeader in r.value.headers && r.value.headers[ContentTypeHeader] == VideoMimeType
    ensures r.Success? ==> ContentLengthHeader in r.value.headers
                           && r.value.headers[ContentLengthHeader] == FormatNat(platform.fileSize(source).length)
    ensures r.Success? ==> forall h :: h in r.value.headers && SameHeaderName(h, ContentTypeHeader) ==> h == ContentTypeHeader
    ensures r.Success? ==> forall h :: h in r.value.headers && SameHeaderName(h, ContentLengthHeader) ==> h == ContentLengthHeader
    ensures r.Success? ==> forall h :: h in serializer.buildHeaders(PUT, destination, None)
                                      && !SameHeaderName(h, ContentLengthHeader) && !SameHeaderName(h, ContentTypeHeader)
                                      ==> h in r.value.headers
                                          && r.value.headers[h] == serializer.buildHeaders(PUT, destination, None)[h]
    ensures r.Success? ==> forall h :: h in r.value.headers && h != ContentLengthHeader && h != ContentTypeHeader
                                      ==> h in serializer.buildHeaders(PUT, destination, None)
    ensures r.Failure? ==> r.error.domain == Upload
    ensures SourceExists(platform, source) && serializer.buildFailure(PUT, destination, None).Some? ==>
      r.error.description == serializer.buildFailure(PUT, destination, None).value
    ensures (SourceExists(platform, source) && serializer.buildFailure(PUT, destination, None).None?
             && platform.fileSize(source).Unknown?) ==> r.error.description == NoFileLengthMessage
    ensures (SourceExists(platform, source) && serializer.buildFailure(PUT, destination, None).None?
             && platform.fileSize(source).Failed?) ==> r.error.description == platform.fileSize(source).description
  {
    if !SourceExists(platform, source) then Failure(UploadError(Upload, MissingSourceMessage))
    else
      var request :- Build(serializer, PUT, destination, None, Upload);
      match platform.fileSize(source)
      case Failed(description) => Failure(UploadError(Upload, description))
      case Unknown => Failure(UploadError(Upload, NoFileLengthMessage))
      case Known(length) =>
        assert |ContentLengthHeader| != |ContentTypeHeader|;
        var withLength := SetHeader(request.headers, ContentLengthHeader, FormatNat(length));
        Success(request.(headers := SetHeader(withLength, ContentTypeHeader, VideoMimeType)))
  }

  /** DELETE on the video's URI, which finalises a streaming upload. */
  function ActivateVideoRequest(serializer: Serializer, platform: Platform, uri: string)
    : (r: Result<Request, UploadError>)
    ensures r.Success? <==> serializer.buildFailure(DELETE, platform.resolve(uri), None).None?
    ensures r.Success? ==> r.value == Request(DELETE, platform.resolve(uri), None,
                                              serializer.buildHeaders(DELETE, platform.resolve(uri), None))
    ensures r.Failure? ==>
      r.error == UploadError(Activate, serializer.buildFailure(DELETE, platform.resolve(uri), None).value)
  {
    Build(serializer, DELETE, platform.resolve(uri), None, Activate)
  }

  /** PATCH of the serialised `videoSettings` to the video's URI. */
  function VideoSettingsRequest<S>(serializer: Serializer, platform: Platform, videoUri: string,
                                   videoSettings: S, parameterDictionary: S -> Params)
    : (r: Result<Request, UploadError>)
    ensures |videoUri| == 0 ==> r == Failure(UploadError(VideoSettings, EmptyUriMessage))
    ensures |videoUri| > 0 && |parameterDictionary(videoSettings)| == 0 ==>
      r == Failure(UploadError(VideoSettings, EmptyParametersMessage))
    ensures r.Success? <==>
      && |videoUri| > 0
      && |parameterDictionary(videoSettings)| > 0
      && serializer.buildFailure(PATCH, platform.resolve(videoUri), Some(parameterDictionary(videoSettings))).None?
    ensures r.Success? ==>
      r.value == Request(PATCH, platform.resolve(videoUri), Some(parameterDictionary(videoSettings)),
                         serializer.buildHeaders(PATCH, platform.resolve(videoUri), Some(parameterDictionary(videoSettings))))
    ensures r.Failure? ==> r.error.domain == VideoSettings
    ensures |videoUri| > 0 && |parameterDictionary(videoSettings)| > 0 && r.Failure? ==>
      r.error.description ==
        serializer.buildFailure(PATCH, platform.resolve(videoUri), Some(parameterDictionary(videoSettings))).value
  {
    if |videoUri| == 0 then Failure(UploadError(VideoSettings, EmptyUriMessage))
    else
      var url := platform.resolve(videoUri);
      var parameters := parameterDictionary(videoSettings);
      if |parameters| == 0 then Failure(UploadError(VideoSettings, EmptyParametersMessage))
      else Build(serializer, PATCH, url, Some(parameters), VideoSettings)
  }

  /** DELETE on the video's URI. */
  function DeleteVideoRequest(serializer: Serializer, platform: Platform, videoUri: string)
    : (r: Result<Request, UploadError>)
    ensures |videoUri| == 0 ==> r == Failure(UploadError(Delete, EmptyUriMessage))
    ensures r.Success? <==> |videoUri| > 0 && serializer.buildFailure(DELETE, platform.resolve(videoUri), None).None?
    ensures r.Success? ==> r.value == Request(DELETE, platform.resolve(videoUri), None,
                                              serializer.buildHeaders(DELETE, platform.resolve(videoUri), None))
    ensures r.Failure? ==> r.error.domain == Delete
    ensures |videoUri| > 0 && r.Failure? ==>
      r.error.description == serializer.buildFailure(DELETE, platform.resolve(videoUri), None).value
  {
    if |videoUri| == 0 then Failure(UploadError(Delete, EmptyUriMessage))
    else Build(serializer, DELETE, platform.resolve(videoUri), None, Delete)
  }

  /** The Content-Length header of a built upload request reads back as the file's length. */
  lemma UploadContentLengthRoundTrip(serializer: Serializer, platform: Platform, source: FileUrl, destination: string)
    requires UploadVideoRequest(serializer, platform, source, destination).Success?
    ensures platform.fileSize(source).Known?
    ensures ParseNat(UploadVideoRequest(serializer, platform, source, destination).value.headers[ContentLengthHeader])
            == Some(platform.fileSize(source).length)
    ensures IsCanonical(UploadVideoRequest(serializer, platform, source, destination).value.headers[ContentLengthHeader])
  {
    ParseFormat(platform.fileSize(source).length);
    FormatIsCanonical(platform.fileSize(source).length);
  }

  /** For one file, the size a create request declares is the length the
      upload request's Content-Length header announces. */
  lemma CreateSizeMatchesUploadLength(serializer: Serializer, platform: Platform, file: FileUrl, destination: string)
    requires UploadVideoRequest(serializer, platform, file, destination).Success?
    ensures CreateVideoRequestBaseParameters(platform, file).Success?
    ensures CreateVideoRequestBaseParameters(platform, file).value["size"]
         == Number(ParseNat(UploadVideoRequest(serializer, platform, file, destination).value.headers[ContentLengthHeader]).value)
    ensures CreateVideoRequest(serializer, platform, file).Success? ==>
      CreateVideoRequest(serializer, platform, file).value.parameters.value["size"]
        == CreateVideoRequestBaseParameters(platform, file).value["size"]
  {
    UploadContentLengthRoundTrip(serializer, platform, file, destination);
  }

  /** The create request's destination and body depend on the file only
      through its size: the file URL argument is never the destination. */
  lemma CreateDependsOnlyOnFileSize(serializer: Serializer, platform: Platform, url1: FileUrl, url2: FileUrl)
    requires platform.fileSize(url1) == platform.fileSize(url2)
    ensures CreateVideoRequest(serializer, platform, url1) == CreateVideoRequest(serializer, platform, url2)
  {
  }

  /** An empty video URI fails before any URL is resolved, any settings are
      serialised or any request is built: the outcome is the same whatever
      those collaborators do. */
  lemma EmptyUriFailsBeforeBuilding<S>(serializer1: Serializer, platform1: Platform,
                                       serializer2: Serializer, platform2: Platform,
                                       videoSettings: S, dictionary1: S -> Params, dictionary2: S -> Params)
    ensures VideoSettingsRequest(serializer1, platform1, "", videoSettings, dictionary1)
         == VideoSettingsRequest(serializer2, platform2, "", videoSettings, dictionary2)
    ensures DeleteVideoRequest(serializer1, platform1, "") == DeleteVideoRequest(serializer2, platform2, "")
  {
  }

  /** A missing source file fails before any request is built or any size is read. */
  lemma MissingSourceFailsBeforeBuilding(serializer1: Serializer, serializer2: Serializer,
                                         platform1: Platform, platform2: Platform,
                                         source: FileUrl, destination: string)
    requires !SourceExists(platform1, source)
    requires source.path.Some? ==> platform2.fileExists(source.path.value) == platform1.fileExists(source.path.value)
    ensures UploadVideoRequest(serializer1, platform1, source, destination)
         == UploadVideoRequest(serializer2, platform2, source, destination)
  {
  }

  /** One step of the upload lifecycle, with the arguments it is built from. */
  datatype Step =
    | MeStep
    | MyVideosStep
    | CreateStep(file: FileUrl)
    | CreateWithParametersStep(url: string, parameters: Params)
    | UploadStep(source: FileUrl, destination: string)
    | ActivateStep(uri: string)
    | SettingsStep(videoUri: string, settings: Params)
    | DeleteStep(videoUri: string)

  /** The stage each step's errors name. */
  function StageOf(step: Step): UploadErrorDomain {
    match step
    case MeStep => Me
    case MyVideosStep => MyVideos
    case CreateStep(_) => Create
    case CreateWithParametersStep(_, _) => Create
    case UploadStep(_, _) => Upload
    case ActivateStep(_) => Activate
    case SettingsStep(_, _) => VideoSettings
    case DeleteStep(_) => Delete
  }

  /** The HTTP method of each stage of the lifecycle. */
  function MethodOf(stage: UploadErrorDomain): Method {
    match stage
    case Me => GET
    case MyVideos => GET
    case Create => POST
    case Upload => PUT
    case Activate => DELETE
    case VideoSettings => PATCH
    case Delete => DELETE
  }

  function RequestFor(serializer: Serializer, platform: Platform, step: Step): Result<Request, UploadError> {
    match step
    case MeStep => MeRequest(serializer, platform)
    case MyVideosStep => MyVideosRequest(serializer, platform)
    case CreateStep(file) => CreateVideoRequest(serializer, platform, file)
    case CreateWithParametersStep(url, parameters) => CreateVideoRequestWithParameters(serializer, url, parameters)
    case UploadStep(source, destination) => UploadVideoRequest(serializer, platform, source, destination)
    case ActivateStep(uri) => ActivateVideoRequest(serializer, platform, uri)
    case SettingsStep(videoUri, settings) =>
      VideoSettingsRequest(serializer, platform, videoUri, settings, (p: Params) => p)
    case DeleteStep(videoUri) => DeleteVideoRequest(serializer, platform, videoUri)
  }

  /** Every failure names the stage that produced it, and every success uses
      that stage's method. */
  lemma StageTagging(serializer: Serializer, platform: Platform, step: Step)
    ensures RequestFor(serializer, platform, step).Failure? ==>
      RequestFor(serializer, platform, step).error.domain == StageOf(step)
    ensures RequestFor(serializer, platform, step).Success? ==>
      RequestFor(serializer, platform, step).value.verb == MethodOf(StageOf(step))
  {
  }
}
