# jupyterlab-github drive, modelled in Dafny

This project models the read-only GitHub drive of the jupyterlab-github
extension: the `GitHubDrive` class and the `Private` helpers of
`src/contents.ts`, and the success rule of `apiRequest` together with the
`gitHubToJupyter` converter of `src/github.ts`. The drive maps a JupyterLab
path `<repo>/<in-repo path>` onto the GitHub API v3 repositories of one
organisation. It turns the API's contents JSON into Jupyter contents models,
and it refuses every write.

Files:

- `js.dfy` (module `Js`): the JavaScript runtime facts the code relies on.
  These are optional values, a synchronous throw (`Completion`), a settled
  promise (`Settled`), the error values that travel through them, JSON
  values, `String.prototype.indexOf` and `Array.prototype.map` with a
  callback that may throw.
- `paths.dfy` (module `Paths`): `split('/')`, `URLExt.join`, `PathExt.join`,
  `PathExt.basename` and `PathExt.dirname`, modelled as operations on the
  segments between slashes.
- `jupyter.dfy` (module `Jupyter`): `Contents.IModel` and the two fields of
  `DocumentRegistry.IFileType` that are read. `ValidNode` is the invariant
  of every node the drive hands out: read-only, named by the last segment of
  its path, and with content that fits its kind and format.
- `github.dfy` (module `GitHub`): the API response shapes, the status rule of
  `apiRequest` and `gitHubToJupyter`.
- `drive.dfy` (module `Drive`): `DummyDirectory`,
  `gitHubContentsToJupyterContents`, `reposToDirectory`, the path and
  failure decisions of `get`, the specification of `_getBlob`, and the class
  `GitHubDrive`.

The environment is passed in as parameters:

- A `Server` value answers every request by route (proxy or browser) and API
  path. It returns either the parsed body or the failed response's status and
  text.
- `Codecs` supplies `atob` and `JSON.parse`. `atob` is total; `JSON.parse`
  is partial and returns None where it would throw.
- The document registry's lookup is a function argument of the constructor.

Promises are modelled by the value they settle with. Every method that
talks to the network also returns the list of requests it made, so its
contract can state which requests it makes.

Facts about the code that the model keeps:

- A repository child's path is `repo.name`.
- There are no rate-limit or valid-user flags.
- `getDownloadUrl` rejects; it does not search a listing.
- The owner is always the `org` field and is never parsed from the path.
- An entry tagged `submodule` or `symlink` yields `undefined` (`None` here),
  both on its own and as a child of a listing. No model is made for it.

Some behaviours of the code as written are modelled as they are:

- When a conversion inside `get` throws, for instance `JSON.parse` on a
  'json' file that is not JSON, the `.catch` handler receives the thrown
  error. It then reads `response.xhr.status` from it and fails with a
  TypeError (`NoXhrMessage`).
- When the parent listing fetched by `_getBlob` is a single entry rather
  than an array, its `for..of` fails with a TypeError (`NotIterableMessage`).
- When `JSON.parse` throws inside `apiRequest`'s `onload`, the promise never
  settles (`NeverSettles`).

## Model

| member | source | states |
|---|---|---|
| Js.IndexOf | src/contents.ts:153-158 | `indexOf` returns -1 exactly when the needle occurs nowhere, and otherwise the first index where it occurs |
| Js.MapCompletion | src/contents.ts:394-397 | `map` with a throwing callback succeeds exactly when every element converts; it then gives one result per element, in order; otherwise it rethrows the first throw in list order |
| Paths.Split | src/contents.ts:142-143 | `split('/')` gives at least one piece, and no piece contains a slash |
| Paths.JoinSplit | src/contents.ts:142-143 | joining the pieces of a split with '/' gives the original string back |
| Paths.SplitJoin | src/contents.ts:142-143 | splitting a join of slash-free pieces gives exactly those pieces back |
| Paths.SegmentsOfJoin | src/contents.ts:143 | a join of segments has exactly those segments |
| Paths.UrlJoin | src/contents.ts:143-144 | the result of `URLExt.join` is normalised: its segments are those of its parts, in order |
| Paths.PathJoin | src/contents.ts:396 | `PathExt.join(a, b)` has the segments of `a` followed by those of `b` |
| Paths.Basename | src/contents.ts:386 | `PathExt.basename` holds no slash, is empty exactly when the path has no segment, and is otherwise the last segment |
| Paths.Dirname | src/contents.ts:306 | `PathExt.dirname` is empty when the path has no segment, and otherwise has all the path's segments but the last |
| Paths.SegmentsOfSegment | src/contents.ts:456-457 | a single segment is its own only segment and its own basename |
| Paths.BasenameOfPathJoin | src/contents.ts:386-396 | `PathExt.join(p, n)` for a segment `n` has the segments of `p` followed by `n`, its basename is `n` and its dirname is `p` normalised |
| Paths.DirnameBasename | src/contents.ts:306 | joining the dirname and the basename of a path gives the normalised path |
| Paths.UrlJoinThenPath | src/contents.ts:144 | joining segments with an already joined path puts one slash between them, and none when the path is empty |
| Paths.UrlJoinThree | src/contents.ts:134 | the URL of three segments is the segments with a slash between each |
| Paths.UrlJoinFourThenAnyPath | src/contents.ts:144 | joining four segments with any path adds a slash and the path's normalised form, or nothing when the path has no segment |
| Paths.UrlJoinSix | src/contents.ts:318-319 | the URL of six segments is the segments with a slash between each |
| GitHub.SettleApiRequest | src/github.ts:29-44 | the request rejects, carrying status and statusText, exactly on a network error or a status outside 200-299; it resolves exactly on a 2xx whose body parses, with the parsed body |
| GitHub.DecodeFileContent | src/github.ts:119-131 | a missing or empty body gives null; 'text' gives `atob` of the body, 'base64' the body itself, 'json' the parsed `atob` of it; the decoder throws, with a SyntaxError, exactly for 'json' with a body that does not parse |
| GitHub.EntryToJupyter | src/github.ts:117-155 | a 'file' becomes a file node whose content is the decoded body and whose mimetype is null, or the decoder's throw; a 'dir' becomes a directory with null content; submodule and symlink give no model; every node made is valid and sits at the given path |
| GitHub.GitHubToJupyter | src/github.ts:102-156 | a listing becomes a valid directory with one child per entry, in order, each child converted at the entry's own path; the conversion throws exactly when some entry's throws |
| GitHub.ListingChildAtSelfPath | src/github.ts:113-115 | child `i` of a converted listing is present exactly for a file or directory entry, and then its path is the entry's self-reported path |
| Drive.EntryToJupyterContents | src/contents.ts:399-439 | as `EntryToJupyter`, except that a file's mimetype is the file type's first mimetype |
| Drive.GitHubContentsToJupyterContents | src/contents.ts:381-440 | a listing becomes a valid directory with one child per entry, in order, child `i` converted at `PathExt.join(path, name_i)`; the conversion throws exactly when some entry's throws |
| Drive.ListingChildPath | src/contents.ts:394-397 | child `i` of a converted listing is present exactly for a file or directory entry; its path is the listing path joined with the entry's name, and for a one-segment name the child is named by that name |
| Drive.ConvertersAgreeOnEntry | src/contents.ts:399-439 | on a single entry the two converters agree on success, error, presence and every field except the mimetype |
| Drive.ReposToDirectory | src/contents.ts:452-479 | the repository listing is an unnamed, read-only root directory with one child per repository, in order; each child is a read-only directory named and placed by the repository's name, with null content |
| Drive.ReposDirectoryValid | src/contents.ts:452-479 | with one-segment repository names, the repository listing is a valid tree |
| Drive.DummyDirectoryValid | src/contents.ts:354-364 | the placeholder is a valid, read-only, empty directory at path "" |
| Drive.PathDecomposes | src/contents.ts:142-143 | the drive path is its repository, a slash and the rest; the repository holds no slash; the in-repo path has the segments of the rest |
| Drive.RepoOf | src/contents.ts:142 | the repository of a drive path holds no slash and is the whole path or the part before its first slash |
| Drive.RepoPathOf | src/contents.ts:143 | the in-repo path has the segments of the pieces after the first slash, and is empty when the drive path has no slash |
| Drive.ContentsApiPath | src/contents.ts:144 | for an org and a repository that are single segments, the contents path is `repos/<org>/<repo>/contents`, followed by `/` and the in-repo path normalised when that path has a segment |
| Drive.ContentsApiPathShape | src/contents.ts:142-144 | the contents request path is `repos/<org>/<repo>/contents`, followed by `/<repoPath>` when the in-repo path is not empty |
| Drive.ReposApiPath | src/contents.ts:134 | for an org that is a single segment, the repository listing is requested at `orgs/<org>/repos` |
| Drive.BlobApiPath | src/contents.ts:318-319 | for an org, a repository and a sha that are single segments, the blob is requested at `repos/<org>/<repo>/git/blobs/<sha>` |
| Drive.Classify | src/contents.ts:148-164 | a failed request gives the placeholder exactly on 404; it goes to the blob fallback exactly on a 403 whose text contains "blob" but not "rate limit"; a 403 with "rate limit" always rejects |
| Drive.FirstWithPath | src/contents.ts:309-315 | the index found is that of the first entry whose path matches; there is none exactly when no entry matches |
| Drive.FirstWithPathAt | src/contents.ts:309-315 | an entry that matches, with no match before it, is the one found |
| Drive.FindByPath | src/contents.ts:309-315 | the loop over the listing stops at the first entry with the path, or runs out exactly when there is none |
| Drive.BlobFallback | src/contents.ts:300-327 | `_getBlob` requests the parent listing first and at most one blob after it, all by the same route; a model it resolves with is valid and sits at the drive path |
| Drive.BlobFromListing | src/contents.ts:308-326 | once the listing arrives, no further request is made exactly when no entry has the in-repo path, and the answer is then "Cannot find sha for blob"; otherwise the one request is the blob of the first such entry; a model it resolves with is valid and sits at the drive path |
| Drive.BlobFromListingSplices | src/contents.ts:316-326 | when the first entry with the in-repo path is a file, the blob of that entry is the one request, and the answer is that file at the drive path with the blob's content decoded by the path's format, or the decoder's error |
| Drive.BlobFallbackSplicesContent | src/contents.ts:300-327 | when a file entry has the in-repo path, `_getBlob` makes exactly two requests, the parent listing and the blob of the first such entry; it answers with that file at the drive path, holding the blob's content decoded by the path's format, or with the decoder's error |
| Drive.BlobFallbackNoEntry | src/contents.ts:309-315 | when no entry of the parent listing has the in-repo path, `_getBlob` fails with "Cannot find sha for blob" after the listing request alone |
| Drive.GitHubDrive.constructor | src/contents.ts:37-44 | a new drive has no org, does not use the proxy and is not disposed (the field initialisers at lines 342-346); a path's file type is the registry's first match, or the 'text' type |
| Drive.GitHubDrive.OnProbeSettled | src/contents.ts:50-58 | when the proxy probe settles, the drive uses the proxy exactly if the probe succeeded |
| Drive.GitHubDrive.SetOrg | src/contents.ts:76-81 | setting the org stores it; setting the current value changes nothing |
| Drive.GitHubDrive.Dispose | src/contents.ts:100-106 | `dispose` leaves the drive disposed, changes only that flag, and does nothing on a disposed drive |
| Drive.GitHubDrive.ApiRequest | src/contents.ts:333-339 | one request is made at the given API path, through the proxy exactly when `useProxy` is set |
| Drive.GitHubDrive.Get | src/contents.ts:124-165 | with no org: the placeholder, no request. With an org and the empty path: exactly the `orgs/<org>/repos` request and the repository listing, or its failure. Otherwise the contents request first, then the converted contents; a conversion throw becomes a TypeError; a failure goes to the placeholder, a rejection with the same response, or the blob fallback, as `Classify` decides |
| Drive.GitHubDrive.GetBlob | src/contents.ts:300-327 | the step-by-step `_getBlob` settles and makes requests exactly as its specification `BlobFallback` says |
| Drive.GitHubDrive.GetBlobFromListing | src/contents.ts:308-326 | the callbacks after the listing arrives settle and make requests exactly as `BlobFromListing` says |
| Drive.GitHubDrive.GetDownloadUrl | src/contents.ts:177-179 | rejects with "Repository is read only" |
| Drive.GitHubDrive.NewUntitled | src/contents.ts:189-191 | rejects with "Repository is read only" |
| Drive.GitHubDrive.Delete | src/contents.ts:200-202 | rejects with "Repository is read only" |
| Drive.GitHubDrive.Rename | src/contents.ts:214-216 | rejects with "Repository is read only" |
| Drive.GitHubDrive.Save | src/contents.ts:228-230 | rejects with "Repository is read only" |
| Drive.GitHubDrive.Copy | src/contents.ts:242-244 | rejects with "Repository is read only" |
| Drive.GitHubDrive.CreateCheckpoint | src/contents.ts:254-256 | rejects with "Repository is read only" |
| Drive.GitHubDrive.ListCheckpoints | src/contents.ts:266-268 | resolves with the empty list |
| Drive.GitHubDrive.RestoreCheckpoint | src/contents.ts:279-281 | rejects with "Repository is read only" |
| Drive.GitHubDrive.DeleteCheckpoint | src/contents.ts:292-294 | rejects with "Read only" |

The read-only operations have no `modifies` clause, so they provably leave
the drive's state unchanged.

## Left out

- The XMLHttpRequest transport of `apiRequest`, and the request URL built from `GITHUB_API`. Only the status rule and the routing choice are modelled.
- The proxy probe request in the constructor. Its outcome is the `OnProbeSettled` callback, and the race between the probe and early requests is not modelled.
- `Signal`, `fileChanged`, `Signal.clearData`, `console.warn`/`console.error` and `ServerConnection.makeSettings`. These are framework calls with no effect on the drive's results.
- The `name`, `baseURL`, `serverSettings` and `isDisposed` getters. They only return constants or fields.
- The Python proxy handler, `setup.py`, `src/index.ts` and `src/browser.ts`. These are server I/O, packaging and UI code.
- The internals of `atob`, `JSON.parse` and `DocumentRegistry.getFileTypesForPath`. They are parameters, and `atob` is taken to be total, so its error on malformed base64 is not modelled.
- `.` and `..` normalisation and the leading slash of `PathExt.join`, `PathExt.basename` and `PathExt.dirname`. The path helpers only collapse empty segments.
- The in-place assignment `blobData.content = blob.content`. It is modelled as a copy of the entry with a new content. The listing it came from is discarded, so no aliasing can be observed.
- A backend whose answers change between requests. A `Server` is a function of route and API path, so the same request always gets the same answer. For a one-segment drive path such as `r`, the parent listing that `_getBlob` requests is the contents request that just failed, so the model's fallback fails again with that same response, where a real server could answer differently.
- The URL fields of `GitHubContents` and the file fields of the blob other than its content. The core never reads them.
- `src/contents.ts:21-22` imports `browserApiRequest`, `proxiedApiRequest`, `GitHubRepo` and `GitHubBlob`, which `src/github.ts` at this revision does not define. `GitHubRepo` and `GitHubBlob` are given the fields the drive reads. The two request helpers are assumed to reject with a response carrying the XHR status and text, as `get`'s failure handler reads them.
