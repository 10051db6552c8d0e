/** The same subject with the predecessor's display name captured as a string
    when a transformed subject is built, instead of a reference to the
    predecessor. Because subjects are immutable the two encodings cannot be told
    apart: `Capture` maps one onto the other, commutes with both transitions and
    preserves every accessor. */
module CapturedNameSubject {
  import opened Options
  import opened Files
  import T = TransformationSubject
  import C = Chains

  datatype Subject<E> =
    | InitialFile(file: File)
    | InitialArtifact(artifactId: ArtifactId, file: File)
    | Transformed(previousDisplayName: string, files: seq<File>)
    | Failed(displayName: string, failure: E)

  function GetFiles<E>(c: Subject<E>): seq<File>
    requires !c.Failed?
  {
    match c
    case InitialFile(f) => [f]
    case InitialArtifact(_, f) => [f]
    case Transformed(_, fs) => fs
  }

  function GetFailure<E>(c: Subject<E>): Option<E>
  {
    match c
    case Failed(_, e) => Some(e)
    case _ => None
  }

  /** Read in constant time: a transformed subject stores the name. */
  function DisplayName<E>(c: Subject<E>): string
  {
    match c
    case InitialFile(f) => T.FileSubjectName(f)
    case InitialArtifact(a, _) => T.ArtifactSubjectName(a)
    case Transformed(n, _) => n
    case Failed(n, _) => n
  }

  function TransformationFailed<E>(c: Subject<E>, failure: E): Subject<E>
  {
    Failed(DisplayName(c), failure)
  }

  function TransformationSuccessful<E>(c: Subject<E>, result: seq<File>): Subject<E>
  {
    Transformed(DisplayName(c), result)
  }

  function Apply<E>(c: Subject<E>, step: C.Step<E>): Subject<E>
  {
    match step
    case Succeeded(fs) => TransformationSuccessful(c, fs)
    case Threw(e) => TransformationFailed(c, e)
  }

  function Run<E>(c: Subject<E>, steps: seq<C.Step<E>>): Subject<E>
    decreases |steps|
  {
    if |steps| == 0 then c else Run(Apply(c, steps[0]), steps[1..])
  }

  /** The captured-name view of a predecessor-holding subject. Every accessor
      answers the same on both. */
  function Capture<E>(s: T.Subject<E>): (c: Subject<E>)
    ensures c.Failed? <==> s.Failed?
    ensures DisplayName(c) == T.DisplayName(s)
    ensures GetFailure(c) == T.GetFailure(s)
    ensures !s.Failed? ==> GetFiles(c) == T.GetFiles(s)
  {
    match s
    case InitialFile(f) => InitialFile(f)
    case InitialArtifact(a, f) => InitialArtifact(a, f)
    case Transformed(p, fs) => Transformed(T.DisplayName(p), fs)
    case Failed(n, e) => Failed(n, e)
  }

  /** Both transitions commute with `Capture`. */
  lemma CaptureCommutes<E>(s: T.Subject<E>, step: C.Step<E>)
    ensures Capture(C.Apply(s, step)) == Apply(Capture(s), step)
  {
  }

  /** Whole chains commute with `Capture`, so no sequence of transitions followed
      by any accessor distinguishes the two encodings. */
  lemma {:induction false} CaptureCommutesWithRun<E>(s: T.Subject<E>, steps: seq<C.Step<E>>)
    ensures Capture(C.Run(s, steps)) == Run(Capture(s), steps)
    decreases |steps|
  {
    if |steps| > 0 {
      CaptureCommutes(s, steps[0]);
      CaptureCommutesWithRun(C.Apply(s, steps[0]), steps[1..]);
    }
  }
}
