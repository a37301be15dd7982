/**
 * src/contents.ts: the read-only GitHub drive. The `Private` namespace
 * (the placeholder directory and the two converters) comes first, then the
 * pieces of `get` that are plain decisions (path parsing, API paths, the
 * failure classification, the blob fallback's specification), then the
 * `GitHubDrive` class.
 *
 * The network is a parameter: a `Server` answers each of the three kinds
 * of request the drive makes, by route and API path, with a body or with
 * an HTTP status and response text. Promises are modelled by their
 * settled value, and every request a call issues is returned in order.
 */
module Drive {
  import opened Js
  import opened Paths
  import opened Jupyter
  import opened GitHub

  const ReadOnlyMessage := "Repository is read only"
  const ShortReadOnlyMessage := "Read only"
  const ShaNotFoundMessage := "Cannot find sha for blob"
  /**
   * The TypeError of a `for..of` over a response body that is not an array.
   * The wording is illustrative: JavaScript engines phrase it differently.
   */
  const NotIterableMessage := "dirContents is not iterable"
  /**
   * The TypeError of reading `response.xhr.status` when `response` is a
   * thrown error. The wording is illustrative: it is one engine's message,
   * and others phrase it differently.
   */
  const NoXhrMessage := "Cannot read property 'status' of undefined"

  /** Which request helper `_apiRequest` uses: the server proxy or the browser. */
  datatype Route = Proxied | Browser

  datatype Request = Request(route: Route, apiPath: string)

  /** A request helper's answer: the parsed body, or the failed response. */
  datatype Reply<+T> = Ok(body: T) | Err(status: int, responseText: string)

  datatype Server = Server(
    contents: (Route, string) -> Reply<Contents>,
    repos: (Route, string) -> Reply<seq<GitHubRepo>>,
    blobs: (Route, string) -> Reply<GitHubBlob>)

  /** `Private.DummyDirectory`: the empty placeholder. */
  const DummyDirectory := Model("", "", JsonFormat, Directory, false, "", "", None, Children([]))

  /** `gitHubContentsToJupyterContents` on a single entry. */
  function EntryToJupyterContents(path: string, entry: GitHubContents, fileTypeForPath: string -> FileType,
                                  codecs: Codecs): (r: Completion<Option<Model>>)
    ensures r.Normal? && r.value.Some? ==> ValidNode(r.value.value) && r.value.value.path == path
    ensures r.Normal? && r.value.Some? ==> (r.value.value.kind == File <==> entry.kind == FileEntry)
    ensures r == Normal(None) <==> entry.kind == SubmoduleEntry || entry.kind == SymlinkEntry
    ensures entry.kind == DirEntry ==> r == Normal(Some(DirectoryModel(path, NullContent)))
    ensures entry.kind == FileEntry ==>
      var fileType := fileTypeForPath(path);
      var decoded := DecodeFileContent(fileType.fileFormat, entry.content, codecs);
      && (r.Abrupt? <==> decoded.Abrupt?)
      && (r.Abrupt? ==> r.error == decoded.error)
      && (r.Normal? ==> r.value.Some? && r.value.value.format == fileType.fileFormat
                        && r.value.value.mimetype == FirstMime(fileType.mimeTypes)
                        && Normal(r.value.value.content) == decoded)
  {
    match entry.kind
    case FileEntry =>
      var fileType := fileTypeForPath(path);
      (match DecodeFileContent(fileType.fileFormat, entry.content, codecs)
       case Normal(c) => Normal(Some(FileModel(path, fileType.fileFormat, FirstMime(fileType.mimeTypes), c)))
       case Abrupt(e) => Abrupt(e))
    case DirEntry => Normal(Some(DirectoryModel(path, NullContent)))
    case _ => Normal(None)
  }

  /**
   * `Private.gitHubContentsToJupyterContents`. A listing becomes a
   * directory whose children are the entries converted, in order, entry
   * `i` at the listing's path joined with the entry's name.
   */
  function GitHubContentsToJupyterContents(path: string, contents: Contents, fileTypeForPath: string -> FileType,
                                           codecs: Codecs): (r: Completion<Option<Model>>)
    ensures r.Normal? && r.value.Some? ==> ValidNode(r.value.value) && r.value.value.path == path
    ensures contents.Entry? ==> r == EntryToJupyterContents(path, contents.item, fileTypeForPath, codecs)
    ensures contents.Listing? ==>
      (r.Normal? <==> forall i :: 0 <= i < |contents.items| ==>
         EntryToJupyterContents(PathJoin(path, contents.items[i].name), contents.items[i], fileTypeForPath, codecs).Normal?)
    ensures contents.Listing? && r.Normal? ==>
      && r.value.Some?
      && r.value.value.kind == Directory
      && r.value.value.content.Children?
      && |r.value.value.content.children| == |contents.items|
      && forall i :: 0 <= i < |contents.items| ==>
           r.value.value.content.children[i] ==
           EntryToJupyterContents(PathJoin(path, contents.items[i].name), contents.items[i], fileTypeForPath, codecs).value
  {
    match contents
    case Listing(items) =>
      (match MapCompletion(items, (c: GitHubContents) =>
               EntryToJupyterContents(PathJoin(path, c.name), c, fileTypeForPath, codecs))
       case Normal(children) => Normal(Some(DirectoryModel(path, Children(children))))
       case Abrupt(e) => Abrupt(e))
    case Entry(item) => EntryToJupyterContents(path, item, fileTypeForPath, codecs)
  }

  /**
   * In a converted listing, child `i` is present exactly when entry `i` is
   * a file or a directory; it then sits at the listing's path joined with
   * the entry's name and, when that name is one segment, is named by it,
   * so joining the parent's path with the child's name gives the child's path.
   */
  lemma ListingChildPath(path: string, items: seq<GitHubContents>, fileTypeForPath: string -> FileType,
                         codecs: Codecs, i: int)
    requires 0 <= i < |items|
    requires GitHubContentsToJupyterContents(path, Listing(items), fileTypeForPath, codecs).Normal?
    ensures var dir := GitHubContentsToJupyterContents(path, Listing(items), fileTypeForPath, codecs).value.value;
      var child := dir.content.children[i];
      && (child.Some? <==> items[i].kind == FileEntry || items[i].kind == DirEntry)
      && (child.Some? ==> child.value.path == PathJoin(dir.path, items[i].name))
      && (child.Some? && IsSegment(items[i].name) ==>
            child.value.name == items[i].name && PathJoin(dir.path, child.value.name) == child.value.path)
  {
    var converted := EntryToJupyterContents(PathJoin(path, items[i].name), items[i], fileTypeForPath, codecs);
    assert converted.Normal?;
    if IsSegment(items[i].name) {
      BasenameOfPathJoin(path, items[i].name);
    }
  }

  /**
   * The two converters agree on a single entry except for the mimetype:
   * src/contents.ts takes the file type's first one, src/github.ts none.
   */
  lemma ConvertersAgreeOnEntry(path: string, entry: GitHubContents, fileTypeForPath: string -> FileType,
                               codecs: Codecs)
    ensures var a := GitHubContentsToJupyterContents(path, Entry(entry), fileTypeForPath, codecs);
      var b := GitHubToJupyter(path, Entry(entry), fileTypeForPath, codecs);
      && a.Normal? == b.Normal?
      && (a.Abrupt? ==> a.error == b.error)
      && (a.Normal? ==> a.value.Some? == b.value.Some?)
      && (a.Normal? && a.value.Some? ==> a.value.value.(mimetype := None) == b.value.value)
  {
  }

  /** The directory literal `reposToDirectory` makes for one repository. */
  function RepoDirectory(repo: GitHubRepo): Model
  {
    Model(repo.name, repo.name, JsonFormat, Directory, false, "", "", None, NullContent)
  }

  /**
   * `Private.reposToDirectory`: an unnamed root directory with one child
   * per repository, in order, each a directory named and placed by the
   * repository's name, with null content.
   */
  function ReposToDirectory(repos: seq<GitHubRepo>): (r: Model)
    ensures r.name == "" && r.path == "" && r.kind == Directory && !r.writable
    ensures r.content.Children? && |r.content.children| == |repos|
    ensures forall i :: 0 <= i < |repos| ==>
      && r.content.children[i].Some?
      && r.content.children[i].value.name == repos[i].name
      && r.content.children[i].value.path == repos[i].name
      && r.content.children[i].value.kind == Directory
      && r.content.children[i].value.content == NullContent
      && !r.content.children[i].value.writable
  {
    Model("", "", JsonFormat, Directory, false, "", "", None,
          Children(seq(|repos|, i requires 0 <= i < |repos| => Some(RepoDirectory(repos[i])))))
  }

  /** With repository names that are single segments, the listing is a valid tree. */
  lemma ReposDirectoryValid(repos: seq<GitHubRepo>)
    requires forall i :: 0 <= i < |repos| ==> IsSegment(repos[i].name)
    ensures ValidNode(ReposToDirectory(repos))
  {
    var r := ReposToDirectory(repos);
    forall i | 0 <= i < |repos|
      ensures ValidNode(r.content.children[i].value)
    {
      SegmentsOfSegment(repos[i].name);
    }
    assert Basename("") == "" by {
      assert Split("") == [""];
    }
  }

  /** The placeholder is a valid, empty, read-only directory at the root. */
  lemma DummyDirectoryValid()
    ensures ValidNode(DummyDirectory)
    ensures DummyDirectory.path == "" && DummyDirectory.content == Children([])
  {
    assert Split("") == [""];
  }

  /**
   * `path.split('/')[0]`: the repository named by a drive path, which is
   * the whole path or the part before its first slash.
   */
  function RepoOf(path: string): (r: string)
    ensures '/' !in r && r <= path
    ensures |r| == |path| || path[|r|] == '/'
  {
    JoinSplit(path);
    Split(path)[0]
  }

  /**
   * `URLExt.join(...path.split('/').slice(1))`: the path inside the
   * repository, with the segments of everything after the first slash.
   */
  function RepoPathOf(path: string): (r: string)
    ensures Segments(r) == SegmentsOf(Split(path)[1..])
    ensures '/' !in path ==> r == ""
  {
    JoinSplit(path);
    UrlJoin(Split(path)[1..])
  }

  /** The repository listing of an org: `orgs/<org>/repos`. */
  function ReposApiPath(org: string): (r: string)
    ensures IsSegment(org) ==> r == "orgs" + "/" + org + "/" + "repos"
  {
    if IsSegment(org) then
      FixedSegments();
      UrlJoinThree("orgs", org, "repos");
      UrlJoin(["orgs", org, "repos"])
    else
      UrlJoin(["orgs", org, "repos"])
  }

  /**
   * The contents of a path in a repository:
   * `repos/<org>/<repo>/contents`, followed by `/<repoPath>` normalised
   * when the in-repo path has segments.
   */
  function ContentsApiPath(org: string, repo: string, repoPath: string): (r: string)
    ensures IsSegment(org) && IsSegment(repo) ==>
      r == "repos" + "/" + org + "/" + repo + "/" + "contents"
           + (if Segments(repoPath) == [] then "" else "/" + Join(Segments(repoPath)))
  {
    if IsSegment(org) && IsSegment(repo) then
      FixedSegments();
      UrlJoinFourThenAnyPath("repos", org, repo, "contents", repoPath);
      UrlJoin(["repos", org, repo, "contents", repoPath])
    else
      UrlJoin(["repos", org, repo, "contents", repoPath])
  }

  /** A blob of a repository by its sha: `repos/<org>/<repo>/git/blobs/<sha>`. */
  function BlobApiPath(org: string, repo: string, sha: string): (r: string)
    ensures IsSegment(org) && IsSegment(repo) && IsSegment(sha) ==>
      r == "repos" + "/" + org + "/" + repo + "/" + "git" + "/" + "blobs" + "/" + sha
  {
    if IsSegment(org) && IsSegment(repo) && IsSegment(sha) then
      FixedSegments();
      UrlJoinSix("repos", org, repo, "git", "blobs", sha);
      UrlJoin(["repos", org, repo, "git", "blobs", sha])
    else
      UrlJoin(["repos", org, repo, "git", "blobs", sha])
  }

  /**
   * A drive path is its repository, then, if it has more than one piece,
   * a slash and the rest; the repository holds no slash and the in-repo
   * path is the rest with empty pieces dropped.
   */
  lemma PathDecomposes(path: string)
    ensures '/' !in RepoOf(path)
    ensures |Split(path)| == 1 ==> path == RepoOf(path) && RepoPathOf(path) == ""
    ensures |Split(path)| > 1 ==> path == RepoOf(path) + "/" + Join(Split(path)[1..])
    ensures Segments(RepoPathOf(path)) == SegmentsOf(Split(path)[1..])
  {
    JoinSplit(path);
    if |Split(path)| == 1 {
      assert Split(path)[1..] == [];
    }
  }

  /**
   * With an org and a repository that are single segments, the request
   * path is `repos/<org>/<repo>/contents`, followed by `/<repoPath>` when
   * the in-repo path is not empty.
   */
  lemma ContentsApiPathShape(org: string, path: string)
    requires IsSegment(org) && IsSegment(RepoOf(path))
    ensures var repoPath := RepoPathOf(path);
      ContentsApiPath(org, RepoOf(path), repoPath)
        == "repos" + "/" + org + "/" + RepoOf(path) + "/" + "contents" + (if repoPath == "" then "" else "/" + repoPath)
  {
    var rest := SegmentsOf(Split(path)[1..]);
    assert RepoPathOf(path) == Join(rest);
    if rest != [] {
      JoinNonEmpty(rest);
    }
  }

  /** The fixed pieces of the API paths hold no slash. */
  lemma FixedSegments()
    ensures IsSegment("repos") && IsSegment("contents") && IsSegment("orgs")
    ensures IsSegment("git") && IsSegment("blobs")
  {
    assert "git" == ['g', 'i', 't'];
    assert "blobs" == ['b', 'l', 'o', 'b', 's'];
    assert "repos" == ['r', 'e', 'p', 'o', 's'];
    assert "contents" == ['c', 'o', 'n', 't', 'e', 'n', 't', 's'];
    assert "orgs" == ['o', 'r', 'g', 's'];
  }

  /** What `get` does with a failed contents request. */
  datatype Recovery =
    | Placeholder   // answer with the placeholder directory
    | Reject        // pass the failure on to the caller (rate limit or any other error)
    | FetchBlob     // the file is too large for the contents API: try the blob fallback

  /**
   * The failure handler of `get`, its conditions taken in order: 404, then 403 with
   * "rate limit" in the text, then 403 with "blob", then everything else.
   */
  function Classify(status: int, responseText: string): (c: Recovery)
    ensures c == Placeholder <==> status == 404
    ensures c == FetchBlob <==>
      status == 403 && !Contains(responseText, "rate limit") && Contains(responseText, "blob")
    ensures status == 403 && Contains(responseText, "rate limit") ==> c == Reject
  {
    if status == 404 then Placeholder
    else if status == 403 && Contains(responseText, "rate limit") then Reject
    else if status == 403 && Contains(responseText, "blob") then FetchBlob
    else Reject
  }

  /** The index of the first entry whose `path` is `p`, if there is one. */
  function FirstWithPath(items: seq<GitHubContents>, p: string): (r: Option<nat>)
    ensures r.Some? ==>
      r.value < |items| && items[r.value].path == p && forall j :: 0 <= j < r.value ==> items[j].path != p
    ensures r.None? <==> forall j :: 0 <= j < |items| ==> items[j].path != p
  {
    if items == [] then None
    else if items[0].path == p then Some(0)
    else
      match FirstWithPath(items[1..], p)
      case None => None
      case Some(k) => Some(k + 1)
  }

  /** The entry found is the one that the loop of `_getBlob` stops at. */
  lemma {:induction false} FirstWithPathAt(items: seq<GitHubContents>, p: string, i: nat)
    requires i < |items| && items[i].path == p
    requires forall j :: 0 <= j < i ==> items[j].path != p
    ensures FirstWithPath(items, p) == Some(i)
  {
    if i > 0 {
      FirstWithPathAt(items[1..], p, i - 1);
    }
  }

  /**
   * The `for..of` loop of `_getBlob`'s first callback: the index of the
   * first listing entry whose path is `p`, or None when the loop runs out.
   */
  method FindByPath(items: seq<GitHubContents>, p: string) returns (found: Option<nat>)
    ensures found == FirstWithPath(items, p)
  {
    var i := 0;
    while i < |items|
      invariant 0 <= i <= |items|
      invariant forall j :: 0 <= j < i ==> items[j].path != p
    {
      if items[i].path == p {
        FirstWithPathAt(items, p, i);
        return Some(i);
      }
      i := i + 1;
    }
    return None;
  }

  /** A `.then` callback's result as the promise it settles. */
  function Settle<T>(c: Completion<T>): Settled<T>
  {
    match c
    case Normal(v) => Resolved(v)
    case Abrupt(e) => Rejected(e)
  }

  /**
   * `_getBlob(path)`, step by step: list the parent directory of the
   * in-repo path, take the first entry with that path, fetch the blob by
   * its sha, and convert the entry with its content replaced by the
   * blob's, at the original drive path. Returns the settled promise and
   * the requests made.
   */
  function BlobFallback(org: string, route: Route, path: string, server: Server, codecs: Codecs,
                        fileTypeForPath: string -> FileType): (r: (Settled<Option<Model>>, seq<Request>))
    ensures 1 <= |r.1| <= 2
    ensures r.1[0] == Request(route, ContentsApiPath(org, RepoOf(path), Dirname(RepoPathOf(path))))
    ensures |r.1| == 2 ==> r.1[1].route == route
    ensures r.0.Resolved? && r.0.value.Some? ==> ValidNode(r.0.value.value) && r.0.value.value.path == path
  {
    var repo, repoPath := RepoOf(path), RepoPathOf(path);
    var dirApiPath := ContentsApiPath(org, repo, Dirname(repoPath));
    var dirRequest := Request(route, dirApiPath);
    match server.contents(route, dirApiPath)
    case Err(status, text) => (Rejected(Response(status, text)), [dirRequest])
    case Ok(Entry(_)) => (Rejected(TypeError(NotIterableMessage)), [dirRequest])
    case Ok(Listing(items)) =>
      var (r, requests) := BlobFromListing(org, route, path, items, server, codecs, fileTypeForPath);
      (r, [dirRequest] + requests)
  }

  /**
   * The callbacks of `_getBlob` after the listing has arrived: take the
   * first entry with the in-repo path, fetch the blob by its sha, and
   * convert the entry with its content replaced by the blob's.
   */
  function BlobFromListing(org: string, route: Route, path: string, items: seq<GitHubContents>, server: Server,
                           codecs: Codecs, fileTypeForPath: string -> FileType): (r: (Settled<Option<Model>>, seq<Request>))
    ensures r.1 == [] <==> FirstWithPath(items, RepoPathOf(path)).None?
    ensures r.1 == [] ==> r.0 == Rejected(ErrorObject(ShaNotFoundMessage))
    ensures r.1 != [] ==>
      var i := FirstWithPath(items, RepoPathOf(path)).value;
      r.1 == [Request(route, BlobApiPath(org, RepoOf(path), items[i].sha))]
    ensures r.0.Resolved? && r.0.value.Some? ==> ValidNode(r.0.value.value) && r.0.value.value.path == path
  {
    match FirstWithPath(items, RepoPathOf(path))
    case None => (Rejected(ErrorObject(ShaNotFoundMessage)), [])
    case Some(i) =>
      var blobApiPath := BlobApiPath(org, RepoOf(path), items[i].sha);
      var blobRequest := Request(route, blobApiPath);
      match server.blobs(route, blobApiPath)
      case Err(status, text) => (Rejected(Response(status, text)), [blobRequest])
      case Ok(blob) =>
        var blobData := items[i].(content := Some(blob.content));
        (Settle(GitHubContentsToJupyterContents(path, Entry(blobData), fileTypeForPath, codecs)), [blobRequest])
  }

  /**
   * When the listing holds a file entry at the in-repo path, the fallback
   * asks for the blob of the first such entry and answers with that file,
   * at the drive path, holding the blob's content decoded by the path's
   * format (or the decoder's error).
   */
  lemma BlobFallbackSplicesContent(org: string, route: Route, path: string, server: Server, codecs: Codecs,
                                   fileTypeForPath: string -> FileType, i: nat)
    requires var dirApiPath := ContentsApiPath(org, RepoOf(path), Dirname(RepoPathOf(path)));
      && server.contents(route, dirApiPath).Ok?
      && server.contents(route, dirApiPath).body.Listing?
      && var items := server.contents(route, dirApiPath).body.items;
         && i < |items| && items[i].path == RepoPathOf(path) && items[i].kind == FileEntry
         && (forall j :: 0 <= j < i ==> items[j].path != RepoPathOf(path))
         && server.blobs(route, BlobApiPath(org, RepoOf(path), items[i].sha)).Ok?
    ensures var dirApiPath := ContentsApiPath(org, RepoOf(path), Dirname(RepoPathOf(path)));
      var items := server.contents(route, dirApiPath).body.items;
      var blobApiPath := BlobApiPath(org, RepoOf(path), items[i].sha);
      var blob := server.blobs(route, blobApiPath).body;
      var fileType := fileTypeForPath(path);
      var (r, requests) := BlobFallback(org, route, path, server, codecs, fileTypeForPath);
      && requests == [Request(route, dirApiPath), Request(route, blobApiPath)]
      && r == (match DecodeFileContent(fileType.fileFormat, Some(blob.content), codecs)
               case Normal(c) => Resolved(Some(FileModel(path, fileType.fileFormat, FirstMime(fileType.mimeTypes), c)))
               case Abrupt(e) => Rejected(e))
  {
    var dirApiPath := ContentsApiPath(org, RepoOf(path), Dirname(RepoPathOf(path)));
    var items := server.contents(route, dirApiPath).body.items;
    FirstWithPathAt(items, RepoPathOf(path), i);
    BlobFromListingSplices(org, route, path, items, server, codecs, fileTypeForPath, i);
    var fromListing := BlobFromListing(org, route, path, items, server, codecs, fileTypeForPath);
    assert BlobFallback(org, route, path, server, codecs, fileTypeForPath)
      == (fromListing.0, [Request(route, dirApiPath)] + fromListing.1);
  }

  /** `BlobFallbackSplicesContent` once the listing has arrived and the entry is found. */
  lemma BlobFromListingSplices(org: string, route: Route, path: string, items: seq<GitHubContents>, server: Server,
                               codecs: Codecs, fileTypeForPath: string -> FileType, i: nat)
    requires FirstWithPath(items, RepoPathOf(path)) == Some(i) && items[i].kind == FileEntry
    requires server.blobs(route, BlobApiPath(org, RepoOf(path), items[i].sha)).Ok?
    ensures var blobApiPath := BlobApiPath(org, RepoOf(path), items[i].sha);
      var blob := server.blobs(route, blobApiPath).body;
      var fileType := fileTypeForPath(path);
      var (r, requests) := BlobFromListing(org, route, path, items, server, codecs, fileTypeForPath);
      && requests == [Request(route, blobApiPath)]
      && r == (match DecodeFileContent(fileType.fileFormat, Some(blob.content), codecs)
               case Normal(c) => Resolved(Some(FileModel(path, fileType.fileFormat, FirstMime(fileType.mimeTypes), c)))
               case Abrupt(e) => Rejected(e))
  {
    var blob := server.blobs(route, BlobApiPath(org, RepoOf(path), items[i].sha)).body;
    var blobData := items[i].(content := Some(blob.content));
    assert blobData.kind == FileEntry;
  }

  /**
   * When no entry of the parent listing has the in-repo path, the fallback
   * fails with "Cannot find sha for blob" after the listing request alone.
   */
  lemma BlobFallbackNoEntry(org: string, route: Route, path: string, server: Server, codecs: Codecs,
                            fileTypeForPath: string -> FileType)
    requires var dirApiPath := ContentsApiPath(org, RepoOf(path), Dirname(RepoPathOf(path)));
      && server.contents(route, dirApiPath).Ok?
      && server.contents(route, dirApiPath).body.Listing?
      && forall j :: 0 <= j < |server.contents(route, dirApiPath).body.items| ==>
           server.contents(route, dirApiPath).body.items[j].path != RepoPathOf(path)
    ensures BlobFallback(org, route, path, server, codecs, fileTypeForPath).0 == Rejected(ErrorObject(ShaNotFoundMessage))
    ensures BlobFallback(org, route, path, server, codecs, fileTypeForPath).1
      == [Request(route, ContentsApiPath(org, RepoOf(path), Dirname(RepoPathOf(path))))]
  {
  }

  /**
   * `GitHubDrive`: a read-only `Contents.IDrive` over the repositories of
   * one GitHub organisation.
   */
  class GitHubDrive {
    var org: string
    var useProxy: bool
    var isDisposed: bool
    const fileTypeForPath: string -> FileType

    /**
     * The file type of a path is the registry's first match, or the 'text'
     * type when there is none. The proxy probe the source starts here
     * settles later, through `OnProbeSettled`.
     */
    constructor (typesForPath: string -> seq<FileType>, textType: FileType)
      ensures org == "" && !useProxy && !isDisposed
      ensures forall p :: fileTypeForPath(p) == if typesForPath(p) == [] then textType else typesForPath(p)[0]
    {
      fileTypeForPath := (p: string) => if |typesForPath(p)| == 0 then textType else typesForPath(p)[0];
      org := "";
      useProxy := false;
      isDisposed := false;
    }

    /** The callbacks of the constructor's proxy probe: use the proxy iff it answered. */
    method OnProbeSettled(proxyReachable: bool)
      modifies this`useProxy
      ensures useProxy == proxyReachable
    {
      if proxyReachable {
        useProxy := true;
      } else {
        useProxy := false;
      }
    }

    /** The `org` setter. Setting the current value changes nothing. */
    method SetOrg(newOrg: string)
      modifies this`org
      ensures org == newOrg
      ensures old(org) == newOrg ==> unchanged(this)
    {
      if newOrg == org {
        return;
      }
      org := newOrg;
    }

    /** `dispose`: idempotent; sets only `isDisposed`. */
    method Dispose()
      modifies this`isDisposed
      ensures isDisposed
      ensures old(isDisposed) ==> unchanged(this)
    {
      if isDisposed {
        return;
      }
      isDisposed := true;
    }

    function Routing(): Route
      reads this
    {
      if useProxy then Proxied else Browser
    }

    /** `_apiRequest`: one request, through the proxy exactly when `useProxy` is set. */
    method ApiRequest<T>(apiPath: string, endpoint: (Route, string) -> Reply<T>) returns (reply: Reply<T>, request: Request)
      ensures request.route == Proxied <==> useProxy
      ensures request.apiPath == apiPath
      ensures reply == endpoint(request.route, apiPath)
    {
      if useProxy == true {
        request := Request(Proxied, apiPath);
      } else {
        request := Request(Browser, apiPath);
      }
      reply := endpoint(request.route, apiPath);
    }

    /**
     * `get(path)`: the placeholder when no org is set, the org's
     * repositories for the empty path, and otherwise the converted
     * contents of the path, with failures handled as `Classify` says.
     */
    method Get(path: string, server: Server, codecs: Codecs) returns (r: Settled<Option<Model>>, requests: seq<Request>)
      ensures org == "" ==> r == Resolved(Some(DummyDirectory)) && requests == []
      ensures org != "" && path == "" ==>
        && requests == [Request(Routing(), ReposApiPath(org))]
        && r == (match server.repos(Routing(), ReposApiPath(org))
                 case Ok(repos) => Resolved(Some(ReposToDirectory(repos)))
                 case Err(status, text) => Rejected(Response(status, text)))
      ensures org != "" && path != "" ==>
        var apiPath := ContentsApiPath(org, RepoOf(path), RepoPathOf(path));
        && |requests| >= 1
        && requests[0] == Request(Routing(), apiPath)
        && match server.contents(Routing(), apiPath)
           case Ok(contents) =>
             && requests == [requests[0]]
             && r == (match GitHubContentsToJupyterContents(path, contents, fileTypeForPath, codecs)
                      case Normal(m) => Resolved(m)
                      case Abrupt(_) => Rejected(TypeError(NoXhrMessage)))
           case Err(status, text) =>
             match Classify(status, text)
             case Placeholder => requests == [requests[0]] && r == Resolved(Some(DummyDirectory))
             case Reject => requests == [requests[0]] && r == Rejected(Response(status, text))
             case FetchBlob =>
               && r == BlobFallback(org, Routing(), path, server, codecs, fileTypeForPath).0
               && requests[1..] == BlobFallback(org, Routing(), path, server, codecs, fileTypeForPath).1
    {
      if org == "" {
        return Resolved(Some(DummyDirectory)), [];
      }
      if org != "" && path == "" {
        var reply, request := ApiRequest(ReposApiPath(org), server.repos);
        assert request == Request(Routing(), ReposApiPath(org));
        requests := [request];
        match reply {
          case Ok(repos) => r := Resolved(Some(ReposToDirectory(repos)));
          case Err(status, text) => r := Rejected(Response(status, text));
        }
        return;
      }
      var repo := RepoOf(path);
      var repoPath := RepoPathOf(path);
      var apiPath := ContentsApiPath(org, repo, repoPath);
      var reply, request := ApiRequest(apiPath, server.contents);
      assert request == Request(Routing(), apiPath);
      requests := [request];
      match reply
      case Ok(contents) =>
        match GitHubContentsToJupyterContents(path, contents, fileTypeForPath, codecs) {
          case Normal(m) => r := Resolved(m);
          case Abrupt(_) =>
            // The failure handler reads `response.xhr.status` of the thrown error.
            r := Rejected(TypeError(NoXhrMessage));
        }
      case Err(status, text) =>
        match Classify(status, text)
        case Placeholder => r := Resolved(Some(DummyDirectory));
        case Reject => r := Rejected(Response(status, text));
        case FetchBlob =>
          var blobRequests;
          r, blobRequests := GetBlob(path, server, codecs);
          requests := requests + blobRequests;
    }

    /** `_getBlob(path)`, with the search of the parent listing as a loop. */
    method GetBlob(path: string, server: Server, codecs: Codecs) returns (r: Settled<Option<Model>>, requests: seq<Request>)
      ensures r == BlobFallback(org, Routing(), path, server, codecs, fileTypeForPath).0
      ensures requests == BlobFallback(org, Routing(), path, server, codecs, fileTypeForPath).1
    {
      var repo := RepoOf(path);
      var repoPath := RepoPathOf(path);
      var dirname := Dirname(repoPath);
      var dirApiPath := ContentsApiPath(org, repo, dirname);
      var dirReply, dirRequest := ApiRequest(dirApiPath, server.contents);
      assert dirRequest == Request(Routing(), dirApiPath);
      match dirReply
      case Err(status, text) =>
        r, requests := Rejected(Response(status, text)), [dirRequest];
      case Ok(Entry(_)) =>
        r, requests := Rejected(TypeError(NotIterableMessage)), [dirRequest];
      case Ok(Listing(items)) =>
        var blobRequests;
        r, blobRequests := GetBlobFromListing(path, items, server, codecs);
        requests := [dirRequest] + blobRequests;
    }

    /** The callbacks of `_getBlob` once the listing has arrived, with the search as a loop. */
    method GetBlobFromListing(path: string, items: seq<GitHubContents>, server: Server, codecs: Codecs)
      returns (r: Settled<Option<Model>>, requests: seq<Request>)
      ensures r == BlobFromListing(org, Routing(), path, items, server, codecs, fileTypeForPath).0
      ensures requests == BlobFromListing(org, Routing(), path, items, server, codecs, fileTypeForPath).1
    {
      var found := FindByPath(items, RepoPathOf(path));
      if found.None? {
        return Rejected(ErrorObject(ShaNotFoundMessage)), [];
      }
      var blobData := items[found.value];
      var blobReply, blobRequest := ApiRequest(BlobApiPath(org, RepoOf(path), blobData.sha), server.blobs);
      assert blobRequest == Request(Routing(), BlobApiPath(org, RepoOf(path), blobData.sha));
      requests := [blobRequest];
      match blobReply
      case Err(status, text) =>
        r := Rejected(Response(status, text));
      case Ok(blob) =>
        // The source assigns the blob's content into the listing entry it found.
        blobData := blobData.(content := Some(blob.content));
        r := Settle(GitHubContentsToJupyterContents(path, Entry(blobData), fileTypeForPath, codecs));
    }

    method GetDownloadUrl(path: string) returns (r: Settled<string>)
      ensures r == Rejected(Message(ReadOnlyMessage))
    {
      r := Rejected(Message(ReadOnlyMessage));
    }

    method NewUntitled(options: CreateOptions) returns (r: Settled<Model>)
      ensures r == Rejected(Message(ReadOnlyMessage))
    {
      r := Rejected(Message(ReadOnlyMessage));
    }

    method Delete(path: string) returns (r: Settled<()>)
      ensures r == Rejected(Message(ReadOnlyMessage))
    {
      r := Rejected(Message(ReadOnlyMessage));
    }

    method Rename(path: string, newPath: string) returns (r: Settled<Model>)
      ensures r == Rejected(Message(ReadOnlyMessage))
    {
      r := Rejected(Message(ReadOnlyMessage));
    }

    method Save(path: string, options: Model) returns (r: Settled<Model>)
      ensures r == Rejected(Message(ReadOnlyMessage))
    {
      r := Rejected(Message(ReadOnlyMessage));
    }

    method Copy(fromFile: string, toDir: string) returns (r: Settled<Model>)
      ensures r == Rejected(Message(ReadOnlyMessage))
    {
      r := Rejected(Message(ReadOnlyMessage));
    }

    method CreateCheckpoint(path: string) returns (r: Settled<Checkpoint>)
      ensures r == Rejected(Message(ReadOnlyMessage))
    {
      r := Rejected(Message(ReadOnlyMessage));
    }

    method ListCheckpoints(path: string) returns (r: Settled<seq<Checkpoint>>)
      ensures r == Resolved([])
    {
      r := Resolved([]);
    }

    method RestoreCheckpoint(path: string, checkpointId: string) returns (r: Settled<()>)
      ensures r == Rejected(Message(ReadOnlyMessage))
    {
      r := Rejected(Message(ReadOnlyMessage));
    }

    method DeleteCheckpoint(path: string, checkpointId: string) returns (r: Settled<()>)
      ensures r == Rejected(Message(ShortReadOnlyMessage))
    {
      r := Rejected(Message(ShortReadOnlyMessage));
    }
  }
}
