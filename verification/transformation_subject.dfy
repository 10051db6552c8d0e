/** The unit of work of the artifact-transformation pipeline: an input file or
    artifact, the output of a successful transformation step, or the record of a
    failed one. Every value is immutable; a transition builds a new subject. */
module TransformationSubject {
  import opened Options
  import opened Files

  /** The four concrete subject classes. `E` is the error type (a `Throwable`),
      carried verbatim and never inspected.

      A transformed subject keeps a reference to its predecessor and asks it for
      its display name on demand, as the source does. The predecessor is always a
      subject, the only kind `transformationSuccessful` passes; the captured-name encoding
      is in module `CapturedNameSubject`, proved equivalent there. */
  datatype Subject<E> =
    | InitialFile(file: File)
    | InitialArtifact(artifactId: ArtifactId, file: File)
    | Transformed(previous: Subject<E>, files: seq<File>)
    | Failed(displayName: string, failure: E)

  /** Display name of a subject created from a bare file. */
  function FileSubjectName(f: File): string
  {
    "file " + FileToString(f)
  }

  /** Display name of a subject created from an artifact. */
  function ArtifactSubjectName(a: ArtifactId): string
  {
    "artifact " + a.displayName
  }

  // Factories

  /** A subject recording that transforming the subject named `displayName` failed. */
  function Failure<E>(displayName: string, failure: E): (r: Subject<E>)
    ensures r.Failed?
    ensures GetFailure(r) == Some(failure)
    ensures DisplayName(r) == displayName
  {
    Failed(displayName, failure)
  }

  /** A subject for a file that has no artifact identifier. */
  function Initial<E>(file: File): (r: Subject<E>)
    ensures !r.Failed? && GetFiles(r) == [file]
    ensures GetFailure(r) == None
    ensures DisplayName(r) == "file " + file.path
  {
    InitialFile(file)
  }

  /** A subject for the file of a resolved artifact; it is named after the
      artifact, not after the file. */
  function InitialFromArtifact<E>(artifactId: ArtifactId, file: File): (r: Subject<E>)
    ensures !r.Failed? && GetFiles(r) == [file]
    ensures GetFailure(r) == None
    ensures DisplayName(r) == "artifact " + artifactId.displayName
  {
    InitialArtifact(artifactId, file)
  }

  // Accessors

  /** The files to transform next. Asking a failed subject is a caller error
      (the source throws `UnsupportedOperationException`), hence the precondition. */
  function GetFiles<E>(s: Subject<E>): (r: seq<File>)
    requires GetFilesAllowed(s)
    ensures s.Transformed? || |r| == 1
  {
    match s
    case InitialFile(f) => [f]
    case InitialArtifact(_, f) => [f]
    case Transformed(_, fs) => fs
  }

  /** The failure that ended the chain, if any. It is present exactly when the
      subject is failed, that is exactly when `GetFiles` may not be called. */
  function GetFailure<E>(s: Subject<E>): (r: Option<E>)
    ensures r.Some? <==> s.Failed?
    ensures r.Some? <==> !GetFilesAllowed(s)
  {
    match s
    case Failed(_, e) => Some(e)
    case _ => None
  }

  /** Whether `GetFiles` is a valid call on `s`. */
  predicate GetFilesAllowed<E>(s: Subject<E>)
  {
    !s.Failed?
  }

  /** The subject a chain of successful transformations started from: the first
      subject reached through `previous` links that is not itself a result. */
  function Origin<E>(s: Subject<E>): (r: Subject<E>)
    ensures !r.Transformed?
    ensures !s.Transformed? ==> r == s
  {
    match s
    case Transformed(p, _) => Origin(p)
    case _ => s
  }

  /** The name an initial or failed subject gives itself. */
  function OwnName<E>(s: Subject<E>): string
    requires !s.Transformed?
  {
    match s
    case InitialFile(f) => FileSubjectName(f)
    case InitialArtifact(a, _) => ArtifactSubjectName(a)
    case Failed(n, _) => n
  }

  /** The display name. A transformed subject asks its predecessor, so the name
      of every subject is the name its origin gives itself. */
  function DisplayName<E>(s: Subject<E>): (r: string)
    ensures r == OwnName(Origin(s))
  {
    match s
    case Transformed(p, _) => DisplayName(p)
    case _ => OwnName(s)
  }

  /** `toString`, which every subject class overrides to return its display name. */
  function ToString<E>(s: Subject<E>): (r: string)
    ensures r == OwnName(Origin(s))
  {
    DisplayName(s)
  }

  // Transitions

  /** The subject after transforming `s` failed with `failure`. Callable on any
      subject, a failed one included: its earlier failure is dropped. */
  function TransformationFailed<E>(s: Subject<E>, failure: E): (r: Subject<E>)
    ensures r.Failed? && !GetFilesAllowed(r)
    ensures GetFailure(r) == Some(failure)
    ensures DisplayName(r) == DisplayName(s)
  {
    Failure(DisplayName(s), failure)
  }

  /** The subject after transforming `s` produced `result`, which may be empty.
      There is no guard on `s`: a failed `s` yields a subject without failure. */
  function TransformationSuccessful<E>(s: Subject<E>, result: seq<File>): (r: Subject<E>)
    ensures GetFilesAllowed(r) && GetFiles(r) == result
    ensures GetFailure(r) == None
    ensures DisplayName(r) == DisplayName(s)
    ensures Origin(r) == Origin(s)
  {
    Transformed(s, result)
  }

  /** Worked examples of the naming rules. */
  lemma Examples<E>(err: E)
    ensures DisplayName(Initial<E>(File("a.jar"))) == "file a.jar"
    ensures DisplayName(InitialFromArtifact<E>(ArtifactId("lib-1.0"), File("lib.jar"))) == "artifact lib-1.0"
    ensures GetFailure(TransformationFailed(Initial<E>(File("a.jar")), err)) == Some(err)
    ensures !GetFilesAllowed(TransformationFailed(Initial<E>(File("a.jar")), err))
    ensures DisplayName(TransformationSuccessful(Initial<E>(File("a.jar")), [File("a.class")])) == "file a.jar"
    ensures GetFiles(TransformationSuccessful(Initial<E>(File("a.jar")), [File("a.class")])) == [File("a.class")]
  {
  }
}
