/** The two collaborator values a transformation subject carries but never looks
    inside: file references and artifact identifiers. */
module Files {

  /** A file reference. Like `java.io.File`, its string form is its (normalized)
      path. */
  datatype File = File(path: string)

  /** The string a file contributes when concatenated to a string. */
  function FileToString(f: File): string
  {
    f.path
  }

  /** An identifier of a resolved artifact. The subject reads nothing from it but
      its display name. */
  datatype ArtifactId = ArtifactId(displayName: string)
}
