# VimeoUpload request construction, streaming link selection, archive migration and player embed URL

This project models, in Dafny, the sequential logic at the core of the VimeoUpload iOS SDK:

- **Upload request builders** (`VimeoRequestSerializer+Upload.swift`). Each lifecycle step builds an HTTP request descriptor or fails with an `UploadError`. The error is tagged with the `UploadErrorDomain` of the stage that produced it: `Me`, `MyVideos`, `Create`, `Upload`, `Activate`, `VideoSettings` or `Delete`. The steps are: fetch the account, list its videos, create a video record, PUT the file bytes, activate, patch the settings, and delete.
- **Streaming upload strategy**. `UploadLink` picks a video's streaming upload link or fails with `wrongType` or `unavailable`. `UploadRequest` fails when no request serializer is given; with one, it builds the serializer's upload request to the link.
- **Archive migration** (`ArchiveDataLoader.loadData`). The loader prefers a legacy archive file at `<folder>/<key>.archive` when it loads. That file is then deleted. Otherwise the loader returns the keyed archive's object.
- **Player embed URL**. The video id is the part of the video link after its last `/`. The player page is `https://player.vimeo.com/video/<id>?byline=false`.

Collaborators from Foundation, AVFoundation and AFNetworking are not part of this model; they are parameters. `Platform` holds URL resolution against the Vimeo base URL, the file manager's existence check and the asset's file size. `Serializer` holds the HTTP library's build step, which may refuse a call, and the headers it chooses for each call. All of these are function-typed fields.

Modules: `Results` (Option/Result), `Decimal` (rendering of the Content-Length value and its parser), `Requests` (data model), `UploadRequests`, `Videos`, `StreamingUploadStrategy`, `ArchiveMigration`, `Player`.

## Model

| member | source | states |
|---|---|---|
| UploadRequests.MeRequest | VimeoUpload/Networking/Upload/VimeoRequestSerializer+Upload.swift:32-44 | Succeeds exactly when the build step accepts a GET on `/me` resolved against the base URL, and then is that GET with no parameters; every failure is tagged `Me`. |
| UploadRequests.MyVideosRequest | VimeoUpload/Networking/Upload/VimeoRequestSerializer+Upload.swift:46-58 | Succeeds exactly when the build step accepts a GET on the resolved `/me/videos`, and then is that GET with no parameters; failures are tagged `MyVideos`. |
| UploadRequests.CreateVideoRequestBaseParameters | VimeoUpload/Networking/Upload/VimeoRequestSerializer+Upload.swift:82-102 | Succeeds exactly when the file length is known, with exactly the keys `type` = "streaming" and `size` = the length; a nil length gives the `Create` error "Unable to calculate file length.", and a thrown size error keeps its description under the `Create` tag. |
| UploadRequests.CreateVideoRequestWithParameters | VimeoUpload/Networking/Upload/VimeoRequestSerializer+Upload.swift:69-80 | A POST of the given parameters to the given URL when the build step accepts it; failures are tagged `Create`. |
| UploadRequests.CreateVideoRequest | VimeoUpload/Networking/Upload/VimeoRequestSerializer+Upload.swift:60-67 | Succeeds exactly when the size is known and the build accepts it; the request is a POST to the resolved `/me/videos` (never the file URL) carrying exactly the streaming type and the size; failures are tagged `Create`. |
| UploadRequests.CreateDependsOnlyOnFileSize | VimeoUpload/Networking/Upload/VimeoRequestSerializer+Upload.swift:60-67 | Two file URLs with the same size produce the same create request: the shadowed URL parameter never reaches the destination. |
| UploadRequests.UploadVideoRequest | VimeoUpload/Networking/Upload/VimeoRequestSerializer+Upload.swift:104-139 | A missing source fails first with the `Upload` "source file does not exist" error; otherwise success needs an accepted build and a known length, giving a PUT to the destination unchanged with no parameters, Content-Length the decimal length, Content-Type `video/mp4`, replacing any header the build step chose whose name matches either of those ignoring ASCII case, and keeping every other header; a build refusal is reported before a size problem; all failures are tagged `Upload`. |
| Requests.Build | VimeoUpload/Networking/Upload/VimeoRequestSerializer+Upload.swift:37-41 | The build step shared by every builder: success exactly when the library accepts the call, with the method, URL and parameters asked for and the headers the library chose; a refusal keeps its description under the given stage tag. |
| UploadRequests.CreateSizeMatchesUploadLength | VimeoUpload/Networking/Upload/VimeoRequestSerializer+Upload.swift:96-135 | For one file, the `size` the create parameters declare is the length the upload request's Content-Length header announces. |
| Requests.SetHeader | VimeoUpload/Networking/Upload/VimeoRequestSerializer+Upload.swift:135-136 | Setting a header field leaves exactly one entry whose name matches it ignoring ASCII case, holding the new value, and keeps every field whose name does not match. |
| UploadRequests.UploadContentLengthRoundTrip | VimeoUpload/Networking/Upload/VimeoRequestSerializer+Upload.swift:130-135 | The Content-Length header of a built upload request is a canonical decimal string that parses back to the file's length. |
| UploadRequests.MissingSourceFailsBeforeBuilding | VimeoUpload/Networking/Upload/VimeoRequestSerializer+Upload.swift:104-109 | When the source file is absent the outcome does not depend on the serializer or the size oracle: nothing is built and no size is read. |
| UploadRequests.ActivateVideoRequest | VimeoUpload/Networking/Upload/VimeoRequestSerializer+Upload.swift:141-153 | A DELETE on the URI resolved against the base URL, with no parameters, when the build accepts it; failures are tagged `Activate`. |
| UploadRequests.VideoSettingsRequest | VimeoUpload/Networking/Upload/VimeoRequestSerializer+Upload.swift:155-178 | An empty URI fails first with "videoUri has length of 0." even when the parameters are empty; then empty parameters fail with "Parameters dictionary is empty."; otherwise a PATCH on the resolved URI carrying exactly the serialised parameters; failures are tagged `VideoSettings`. |
| UploadRequests.DeleteVideoRequest | VimeoUpload/Networking/Upload/VimeoRequestSerializer+Upload.swift:180-197 | An empty URI fails with the `Delete` error "videoUri has length of 0."; otherwise a DELETE on the resolved URI with no parameters when the build accepts it; failures are tagged `Delete`. |
| UploadRequests.EmptyUriFailsBeforeBuilding | VimeoUpload/Networking/Upload/VimeoRequestSerializer+Upload.swift:155-197 | With an empty video URI the settings and delete requests fail the same way whatever the serializer, the base URL and the settings serialisation do. |
| UploadRequests.StageTagging | VimeoUpload/Networking/Upload/VimeoRequestSerializer+Upload.swift:32-197 | For every lifecycle step, a failure carries that step's stage tag and a success uses that stage's method (GET, GET, POST, PUT, DELETE, PATCH, DELETE). |
| Decimal.FormatNat | VimeoUpload/Networking/Upload/VimeoRequestSerializer+Upload.swift:135 | The rendering of the file length is a non-empty string of digits, one digit long exactly for values below ten. |
| Decimal.ParseNat | VimeoUpload/Networking/Upload/VimeoRequestSerializer+Upload.swift:135 | The inverse reading of a header value: it yields a number exactly for non-empty strings of digits. |
| Decimal.ParseFormat | VimeoUpload/Networking/Upload/VimeoRequestSerializer+Upload.swift:135 | Parsing the rendering of any length gives the length back. |
| Decimal.FormatParse | VimeoUpload/Networking/Upload/VimeoRequestSerializer+Upload.swift:135 | Rendering the value of any canonical digit string gives the string back. |
| Decimal.FormatIsCanonical | VimeoUpload/Networking/Upload/VimeoRequestSerializer+Upload.swift:135 | A rendered length never has a leading zero. |
| StreamingUploadStrategy.UploadLink | Examples/VimeoUpload-iOS/VimeoUpload-iOSTests/StreamingUploadStrategyTests.swift:33-56 | Returns exactly the video's upload link when the approach is streaming and a link is present; fails with `wrongType` exactly when the approach is not streaming, and with `unavailable` exactly when it is streaming but no link is present. |
| StreamingUploadStrategy.UploadRequest | Examples/VimeoUpload-iOS/VimeoUpload-iOSTests/StreamingUploadStrategyTests.swift:58-73 | Without a request serializer it fails, whatever the file and link. With one, it is assumed to be the serializer's upload request for the link, a PUT to the link with `Upload`-tagged failures; the tests assert only the first case. |
| StreamingUploadStrategy.UploadToChosenLink | Examples/VimeoUpload-iOS/VimeoUpload-iOSTests/StreamingUploadStrategyTests.swift:58-73 | For a streaming video with a link, the upload request to the chosen link exists exactly when the serializer's upload request to that link does, and is that PUT. |
| StreamingUploadStrategy.TestScenarios | Examples/VimeoUpload-iOS/VimeoUpload-iOSTests/StreamingUploadStrategyTests.swift:33-73 | The four test scenarios: a streaming link is returned, a TUS video is the wrong type, a streaming video without a link has none available, and no serializer gives no request. |
| ArchiveMigration.LoadObject | VimeoUpload/Extensions/ArchiveMigrating.swift:56 | The keyed archive yields the object for a key exactly when the key is present. |
| ArchiveMigration.ArchiveFileExists | VimeoUpload/Extensions/ArchiveMigrating.swift:32-37 | A file that does not exist never loads, and deleting it leaves the store as it was; deleting one that exists changes the store. |
| ArchiveMigration.LoadArchiveFile | VimeoUpload/Extensions/ArchiveMigrating.swift:39-44 | A legacy file loads exactly when it exists and is readable; loaded data implies the file exists. |
| ArchiveMigration.DeleteArchiveFile | VimeoUpload/Extensions/ArchiveMigrating.swift:46-49 | The file at the path no longer exists, and every other legacy file is kept unchanged. |
| ArchiveMigration.LegacyPath | VimeoUpload/Extensions/ArchiveMigrating.swift:63 | The legacy path is the folder, then `/`, then the key, then `.archive`. |
| ArchiveMigration.LegacyPathInjective | VimeoUpload/Extensions/ArchiveMigrating.swift:63 | Within one folder, distinct keys have distinct legacy paths. |
| ArchiveMigration.LoadData | VimeoUpload/Extensions/ArchiveMigrating.swift:54-78 | With no migrator, the result is the new archive's object and no state. With a migrator, when the legacy file loads its data is returned and only that file is deleted. When the file is missing or loads as nil, the new-location data is returned and the legacy store is unchanged. No other legacy file changes in any case. The result is nil exactly when neither location holds data. |
| ArchiveMigration.LoadDataTwice | VimeoUpload/Extensions/ArchiveMigrating.swift:65-75 | Loading again with the legacy store the first load left returns the new-location data and changes nothing. |
| ArchiveMigration.LoadDataLeavesOtherKeys | VimeoUpload/Extensions/ArchiveMigrating.swift:63-77 | Loading one key never changes or deletes the legacy archive of another key in the same folder. |
| Player.LastIndexOf | Examples/VimeoUpload-iOS/VimeoUpload-iOS/ViewControllers/PlayerViewController.swift:46 | Finds the position of the last occurrence of a character, with no occurrence after it; absent exactly when the character does not occur. |
| Player.VideoId | Examples/VimeoUpload-iOS/VimeoUpload-iOS/ViewControllers/PlayerViewController.swift:44-48 | For a non-empty link, the id never contains `/`. If the link contains `/`, the id is the suffix strictly after its last `/`. Otherwise the id is the link without its first character. |
| Player.VideoIdOfPath | Examples/VimeoUpload-iOS/VimeoUpload-iOS/ViewControllers/PlayerViewController.swift:46-48 | Any prefix followed by `/` and a slash-free id yields exactly that id. |
| Player.TrailingSlashGivesEmptyId | Examples/VimeoUpload-iOS/VimeoUpload-iOS/ViewControllers/PlayerViewController.swift:46-48 | A link ending in `/` yields an empty id. |
| Player.PlayerUrl | Examples/VimeoUpload-iOS/VimeoUpload-iOS/ViewControllers/PlayerViewController.swift:44-51 | Requires the video, its link and a non-empty link (otherwise the screen traps). The page is `https://player.vimeo.com/video/`, then the slash-free video id, then `?byline=false`. |
| Player.PlayerUrlOfPath | Examples/VimeoUpload-iOS/VimeoUpload-iOS/ViewControllers/PlayerViewController.swift:17-51 | The page for a link ending in a slash-free id embeds exactly that id between the base URL and the byline query. |

## Left out

- URL resolution, file existence, file size and the HTTP library's build step are not modelled: they are foreign calls. They are parameters (`Platform`, `Serializer`). The contracts hold for any resolution, existence, size, refusal and header choice. One assumption about the library remains: a request it accepts records the method, URL string and parameters it was asked for, since how AFNetworking normalises the URL or encodes parameters is not part of this model.
- The trap when `NSURL(string:relativeToURL:)` returns nil is not modelled: `resolve` is total, because when resolution fails is up to the platform's URL parser.
- Requests.SetHeader: header names are matched ignoring ASCII case only, not full Unicode case, and the surviving entry is spelled as the name being set; which spelling Foundation keeps is not part of this model.
- Error metadata is not modelled: codes, `userInfo`, localisation and what `errorByAddingDomain` keeps of the underlying error. An error is its stage tag plus its description.
- `VideoSettings.parameterDictionary()` is not part of this model. It is an abstract function from settings to a parameter dictionary.
- The request body and its encoding are not modelled. For POST and PATCH, parameters are kept as a dictionary. For the upload, the file bytes are sent by the transport, not attached by the builder.
- The `StreamingUploadStrategy` source is not part of this model. Its tests fix the three outcomes of `UploadLink` and the failure of `UploadRequest` without a serializer. The rest of that type is not modelled.
- StreamingUploadStrategy.UploadRequest: with a serializer present it is assumed to hand the file and link to `uploadVideoRequestWithSource`. No test asserts it, and its implementation is not part of this model.
- StreamingUploadStrategy.UploadLink: a link that is present but empty is returned, not reported as `unavailable`; the tests only cover an absent link, and the strategy's own code, which decides this case, is not part of this model.
- StreamingUploadStrategy.UploadRequest: its error for a missing serializer is an opaque `SerializerUnavailable`, because the domain and text of that error are not in the sources modelled.
- The tests' JSON fixture loading and object mapping are not modelled: they are file I/O and a foreign mapper.
- Player.VideoId: works on code points, while Swift's `lastIndex(of:)` and `remove(at:)` work on extended grapheme clusters. They differ on links with combining marks. For `"a/\u{301}b"` the program finds no `/` character and returns `"/\u{301}b"`, which contains `/`, while the model returns `"\u{301}b"`. Grapheme segmentation is Unicode-table driven and is not modelled.
- Player.PlayerUrl: inherits the code-point reading of `Player.VideoId`. It also does not model the trap in `load(url:)` when `URL(string:)` rejects the built string, which depends on the platform's URL parser.
- The player UI is not modelled: the web view configuration, layout, navigation bar, back button and the empty navigation delegate callbacks carry no logic.
- The keyed archiver's persistence format is not modelled, and neither is the real file deletion. Both stores are maps. `loadData` never writes the keyed archive, so it is an input only.
- Upload orchestration, asynchronous callbacks, transport and retries are not modelled: they are in none of the modelled files and are I/O and concurrency.
