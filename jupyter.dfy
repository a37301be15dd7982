/**
 * The Jupyter contents model the drive produces (`Contents.IModel` of
 * @jupyterlab/services) and the file type the document registry supplies
 * for a path (`DocumentRegistry.IFileType`, only the two fields read here).
 */
module Jupyter {
  import opened Js
  import opened Paths

  /** `fileFormat`: 'text' | 'base64' | 'json'. */
  datatype FileFormat = TextFormat | Base64Format | JsonFormat

  datatype FileType = FileType(fileFormat: FileFormat, mimeTypes: seq<string>)

  /** `type`: 'file' | 'directory'. */
  datatype ModelType = File | Directory

  /**
   * `content`: null, a decoded file body of one of the three formats, or
   * the list of a directory's children. A child is None where the
   * converter produced `undefined` for it.
   */
  datatype Content =
    | NullContent
    | TextContent(text: string)
    | Base64Content(data: string)
    | JsonContent(json: Json)
    | Children(children: seq<Option<Model>>)

  datatype Model = Model(
    name: string,
    path: string,
    format: FileFormat,
    kind: ModelType,
    writable: bool,
    created: string,
    lastModified: string,
    mimetype: Option<string>,   // null and undefined alike
    content: Content)

  datatype Checkpoint = Checkpoint(id: string, lastModified: string)

  /** `Contents.ICreateOptions`. */
  datatype CreateOptions = CreateOptions(path: string, kind: ModelType, ext: string)

  /** `fileType.mimeTypes[0]`, which is undefined for an empty list. */
  function FirstMime(mimeTypes: seq<string>): Option<string>
  {
    if mimeTypes == [] then None else Some(mimeTypes[0])
  }

  /** The object literal both converters return for a file. */
  function FileModel(path: string, format: FileFormat, mimetype: Option<string>, content: Content): Model
  {
    Model(Basename(path), path, format, File, false, "", "", mimetype, content)
  }

  /** The object literal both converters return for a directory. */
  function DirectoryModel(path: string, content: Content): Model
  {
    Model(Basename(path), path, JsonFormat, Directory, false, "", "", None, content)
  }

  /** A file's content is null or of the kind its format names. */
  predicate ContentFits(format: FileFormat, content: Content)
  {
    match content
    case NullContent => true
    case TextContent(_) => format == TextFormat
    case Base64Content(_) => format == Base64Format
    case JsonContent(_) => format == JsonFormat
    case Children(_) => false
  }

  /**
   * What every node the drive hands out satisfies: read-only, named by the
   * last segment of its path, empty timestamps; a directory is 'json' with
   * no mimetype and holds null or a list of such nodes; a file's content
   * fits its format.
   */
  predicate ValidNode(m: Model)
    decreases m
  {
    && !m.writable
    && m.name == Basename(m.path)
    && m.created == "" && m.lastModified == ""
    && (m.kind == Directory ==>
          m.format == JsonFormat && m.mimetype == None && (m.content.NullContent? || m.content.Children?))
    && (m.kind == File ==> ContentFits(m.format, m.content))
    && (m.content.Children? ==>
          forall i :: 0 <= i < |m.content.children| && m.content.children[i].Some? ==>
            ValidNode(m.content.children[i].value))
  }
}
