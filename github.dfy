/**
 * src/github.ts: the shapes of GitHub API v3 responses, the success rule
 * of `apiRequest`, and `gitHubToJupyter`, which turns a contents response
 * into a Jupyter model.
 */
module GitHub {
  import opened Js
  import opened Paths
  import opened Jupyter

  /** `GitHubContents.type`: 'file' | 'dir' | 'submodule' | 'symlink'. */
  datatype EntryType = FileEntry | DirEntry | SubmoduleEntry | SymlinkEntry

  /**
   * One entry of the contents API. `content` is the optional base64 body
   * of `GitHubFileContents`; the URL fields are not read by the core.
   */
  datatype GitHubContents = GitHubContents(
    kind: EntryType,
    size: int,
    name: string,
    path: string,
    sha: string,
    content: Option<string>)

  /** A contents response: one entry, or a directory listing of entries. */
  datatype Contents = Entry(item: GitHubContents) | Listing(items: seq<GitHubContents>)

  /**
   * A git blob and a repository summary. The drive imports both from the
   * revision of this file it was written against; only these fields are read.
   */
  datatype GitHubBlob = GitHubBlob(sha: string, size: int, encoding: string, content: string)

  datatype GitHubRepo = GitHubRepo(name: string)

  /** The status rule of `apiRequest`: a 2xx status is a success. */
  predicate IsSuccess(status: int)
  {
    200 <= status < 300
  }

  /** What the XMLHttpRequest of `apiRequest` reports: `onload` or `onerror`. */
  datatype XhrEvent =
    | Load(status: int, statusText: string, response: string)
    | NetworkError(status: int, statusText: string)

  /**
   * How the promise of `apiRequest` ends. `NeverSettles`: JSON.parse threw
   * inside `onload`, outside the promise executor, so neither resolve nor
   * reject ran.
   */
  datatype RequestOutcome =
    | Resolves(body: Json)
    | Rejects(status: int, statusText: string)
    | NeverSettles

  function SettleApiRequest(event: XhrEvent, parse: string -> Option<Json>): (r: RequestOutcome)
    ensures r.Rejects? <==> event.NetworkError? || !IsSuccess(event.status)
    ensures r.Rejects? ==> r.status == event.status && r.statusText == event.statusText
    ensures r.Resolves? <==> event.Load? && IsSuccess(event.status) && parse(event.response).Some?
    ensures r.Resolves? ==> parse(event.response) == Some(r.body)
  {
    match event
    case Load(status, statusText, response) =>
      if status >= 200 && status < 300 then
        match parse(response)
        case Some(body) => Resolves(body)
        case None => NeverSettles
      else Rejects(status, statusText)
    case NetworkError(status, statusText) => Rejects(status, statusText)
  }

  /**
   * The `switch (fileType.fileFormat)` that decodes a file body: 'text'
   * applies atob, 'base64' passes the string on, 'json' parses the atob
   * result; a missing or empty body gives null.
   */
  function DecodeFileContent(format: FileFormat, fileContents: Option<string>, codecs: Codecs): (r: Completion<Content>)
    ensures r == Normal(NullContent) <==> !Truthy(fileContents)
    ensures r.Normal? ==> ContentFits(format, r.value)
    ensures r.Abrupt? <==>
      format == JsonFormat && Truthy(fileContents) && codecs.parse(codecs.atob(fileContents.value)).None?
    ensures r.Abrupt? ==> r.error == SyntaxError
    ensures format == Base64Format && Truthy(fileContents) ==> r == Normal(Base64Content(fileContents.value))
    ensures format == TextFormat && Truthy(fileContents) ==> r == Normal(TextContent(codecs.atob(fileContents.value)))
    ensures format == JsonFormat && r.Normal? && r.value != NullContent ==>
      Some(r.value.json) == codecs.parse(codecs.atob(fileContents.value))
  {
    match format
    case TextFormat =>
      if Truthy(fileContents) then Normal(TextContent(codecs.atob(fileContents.value))) else Normal(NullContent)
    case Base64Format =>
      if Truthy(fileContents) then Normal(Base64Content(fileContents.value)) else Normal(NullContent)
    case JsonFormat =>
      if Truthy(fileContents) then
        match codecs.parse(codecs.atob(fileContents.value))
        case Some(j) => Normal(JsonContent(j))
        case None => Abrupt(SyntaxError)
      else Normal(NullContent)
  }

  /** `gitHubToJupyter` on a single entry: a file, a directory, or nothing. */
  function EntryToJupyter(path: string, entry: GitHubContents, fileTypeForPath: string -> FileType, codecs: Codecs)
    : (r: Completion<Option<Model>>)
    ensures r.Normal? && r.value.Some? ==> ValidNode(r.value.value) && r.value.value.path == path
    ensures r.Normal? && r.value.Some? ==> r.value.value.mimetype == None
    ensures r.Normal? && r.value.Some? ==> (r.value.value.kind == File <==> entry.kind == FileEntry)
    ensures r == Normal(None) <==> entry.kind == SubmoduleEntry || entry.kind == SymlinkEntry
    ensures entry.kind == DirEntry ==> r == Normal(Some(DirectoryModel(path, NullContent)))
    ensures entry.kind == FileEntry ==>
      var decoded := DecodeFileContent(fileTypeForPath(path).fileFormat, entry.content, codecs);
      && (r.Abrupt? <==> decoded.Abrupt?)
      && (r.Abrupt? ==> r.error == decoded.error)
      && (r.Normal? ==> r.value.Some? && r.value.value.format == fileTypeForPath(path).fileFormat
                        && Normal(r.value.value.content) == decoded)
  {
    match entry.kind
    case FileEntry =>
      var fileType := fileTypeForPath(path);
      (match DecodeFileContent(fileType.fileFormat, entry.content, codecs)
       case Normal(c) => Normal(Some(FileModel(path, fileType.fileFormat, None, c)))
       case Abrupt(e) => Abrupt(e))
    case DirEntry => Normal(Some(DirectoryModel(path, NullContent)))
    case _ => Normal(None)
  }

  /**
   * `gitHubToJupyter`. A listing becomes a directory whose children are
   * the entries converted, in order, each at the path the entry reports
   * for itself.
   */
  function GitHubToJupyter(path: string, contents: Contents, fileTypeForPath: string -> FileType, codecs: Codecs)
    : (r: Completion<Option<Model>>)
    ensures r.Normal? && r.value.Some? ==> ValidNode(r.value.value) && r.value.value.path == path
    ensures contents.Entry? ==> r == EntryToJupyter(path, contents.item, fileTypeForPath, codecs)
    ensures contents.Listing? ==>
      (r.Normal? <==> forall i :: 0 <= i < |contents.items| ==>
         EntryToJupyter(contents.items[i].path, contents.items[i], fileTypeForPath, codecs).Normal?)
    ensures contents.Listing? && r.Normal? ==>
      && r.value.Some?
      && r.value.value.kind == Directory
      && r.value.value.content.Children?
      && |r.value.value.content.children| == |contents.items|
      && forall i :: 0 <= i < |contents.items| ==>
           r.value.value.content.children[i] ==
           EntryToJupyter(contents.items[i].path, contents.items[i], fileTypeForPath, codecs).value
  {
    match contents
    case Listing(items) =>
      (match MapCompletion(items, (c: GitHubContents) => EntryToJupyter(c.path, c, fileTypeForPath, codecs))
       case Normal(children) => Normal(Some(DirectoryModel(path, Children(children))))
       case Abrupt(e) => Abrupt(e))
    case Entry(item) => EntryToJupyter(path, item, fileTypeForPath, codecs)
  }

  /**
   * In a converted listing, child `i` is present exactly when entry `i` is
   * a file or a directory, and then sits at the entry's own path, whatever
   * the path of the listing.
   */
  lemma ListingChildAtSelfPath(path: string, items: seq<GitHubContents>, fileTypeForPath: string -> FileType,
                               codecs: Codecs, i: int)
    requires 0 <= i < |items|
    requires GitHubToJupyter(path, Listing(items), fileTypeForPath, codecs).Normal?
    ensures var children := GitHubToJupyter(path, Listing(items), fileTypeForPath, codecs).value.value.content.children;
      && (children[i].Some? <==> items[i].kind == FileEntry || items[i].kind == DirEntry)
      && (children[i].Some? ==> children[i].value.path == items[i].path)
  {
    var child := EntryToJupyter(items[i].path, items[i], fileTypeForPath, codecs);
    assert child.Normal?;
  }
}
