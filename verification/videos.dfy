/** The parts of a Vimeo video resource (`VIMVideo`) that the upload
    strategy and the player read. */
module Videos {
  import opened Results

  /** How a video accepts its bytes; the values of the API's `upload.approach`. */
  datatype UploadApproach = Streaming | Post | Pull | Tus

  /** The video's `upload` object; both fields are optional in a response. */
  datatype UploadInfo = UploadInfo(approach: Option<UploadApproach>, uploadLink: Option<string>)

  datatype Video = Video(link: Option<string>, upload: Option<UploadInfo>)
}
