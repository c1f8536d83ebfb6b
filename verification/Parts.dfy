/** The structured data and file metadata a response carries. */
module Parts {
  import opened Wrappers
  import opened Json

  datatype Source = FromMessage | FromArtifact

  datatype DataPart = DataPart(
    source: Source,
    value: Json,
    mediaType: Option<string>,
    artifactId: Option<string>,
    artifactName: Option<string>)

  /** A file part: raw content has a size and a digest, a linked file has neither. */
  datatype FilePart = FilePart(
    source: Source,
    raw: bool,
    filename: Option<string>,
    mediaType: Option<string>,
    sizeBytes: Option<nat>,
    sha256: Option<string>,
    artifactId: Option<string>,
    artifactName: Option<string>)
}
