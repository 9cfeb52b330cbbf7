/** The streaming upload strategy: choosing the streaming upload link of a
    video and building the PUT request that sends the file to it. */
module StreamingUploadStrategy {
  import opened Results
  import opened Requests
  import opened Videos
  import UploadRequests

  datatype UploadLinkError = WrongType | Unavailable

  predicate IsStreaming(video: Video) {
    video.upload.Some? && video.upload.value.approach == Some(Streaming)
  }

  /** The link to stream the file to: the video must use the streaming
      approach, and must carry an upload link. */
  function UploadLink(video: Video): (r: Result<string, UploadLinkError>)
    ensures r.Success? <==> IsStreaming(video) && video.upload.value.uploadLink.Some?
    ensures r.Success? ==> r.value == video.upload.value.uploadLink.value
    ensures r == Failure(WrongType) <==> !IsStreaming(video)
    ensures r == Failure(Unavailable) <==> IsStreaming(video) && video.upload.value.uploadLink.None?
  {
    if !IsStreaming(video) then Failure(WrongType)
    else
      match video.upload.value.uploadLink
      case None => Failure(Unavailable)
      case Some(link) => Success(link)
  }

  /** Why no upload request could be made. */
  datatype UploadRequestError = SerializerUnavailable | RequestFailed(error: UploadError)

  /** The upload request for `fileUrl` to `uploadLink`; without a request
      serializer there is none, whatever the file and link. */
  function UploadRequest(requestSerializer: Option<Serializer>, platform: Platform, fileUrl: FileUrl, uploadLink: string)
    : (r: Result<Request, UploadRequestError>)
    ensures requestSerializer.None? ==> r == Failure(SerializerUnavailable)
    ensures r.Success? <==>
      && requestSerializer.Some?
      && UploadRequests.SourceExists(platform, fileUrl)
      && requestSerializer.value.buildFailure(PUT, uploadLink, None).None?
      && platform.fileSize(fileUrl).Known?
    ensures r.Success? ==> r.value.verb == PUT && r.value.url == uploadLink
    ensures r.Failure? && requestSerializer.Some? ==> r.error.RequestFailed? && r.error.error.domain == Upload
  {
    match requestSerializer
    case None => Failure(SerializerUnavailable)
    case Some(serializer) =>
      match UploadRequests.UploadVideoRequest(serializer, platform, fileUrl, uploadLink)
      case Success(request) => Success(request)
      case Failure(error) => Failure(RequestFailed(error))
  }

  /** The link chosen for a streaming video is where its upload request
      sends the file: the request exists exactly when the serializer's
      upload request for that link does, and is a PUT to the link. */
  lemma UploadToChosenLink(serializer: Serializer, platform: Platform, fileUrl: FileUrl, video: Video)
    requires UploadLink(video).Success?
    ensures var link := video.upload.value.uploadLink.value;
            var r := UploadRequest(Some(serializer), platform, fileUrl, UploadLink(video).value);
            && (r.Success? <==> UploadRequests.UploadVideoRequest(serializer, platform, fileUrl, link).Success?)
            && (r.Success? ==> r.value == UploadRequests.UploadVideoRequest(serializer, platform, fileUrl, link).value)
            && (r.Success? ==> r.value.verb == PUT && r.value.url == link)
  {
  }

  /** A video whose `upload` object names `approach` and `uploadLink`. */
  function VideoWithUpload(approach: UploadApproach, uploadLink: Option<string>): Video {
    Video(None, Some(UploadInfo(Some(approach), uploadLink)))
  }

  /** The scenarios of the strategy's tests: a streaming link is returned, a
      TUS video is the wrong type, a streaming video without a link has none
      available, and no serializer means no request. */
  lemma TestScenarios(platform: Platform, fileUrl: FileUrl)
    ensures UploadLink(VideoWithUpload(Streaming, Some("https://www.google.com"))) == Success("https://www.google.com")
    ensures UploadLink(VideoWithUpload(Tus, Some("https://www.google.com"))) == Failure(WrongType)
    ensures UploadLink(VideoWithUpload(Streaming, None)) == Failure(Unavailable)
    ensures UploadRequest(None, platform, fileUrl, "https://www.google.com").Failure?
  {
  }
}
