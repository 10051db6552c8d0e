# Transformation subjects

A model of Gradle's `TransformationSubject`: the immutable value that stands for one
unit of work in the artifact-transformation pipeline of dependency management. A
subject is one of four variants:

- a file about to be transformed (`InitialFileTransformationSubject`),
- the file of a resolved artifact about to be transformed (`InitialArtifactTransformationSubject`),
- the files produced by a successful transformation step (`DefaultTransformationSubject`),
- the record of a failed step (`TransformationFailedSubject`).

It has three factories (`failure`, `initial(file)`, `initial(artifactId, file)`), two
transitions (`transformationFailed`, `transformationSuccessful`) and the accessors
`getFiles`, `getFailure`, `getDisplayName` and `toString`.

Files:

- `options.dfy` — `Option`, standing for a nullable return value.
- `files.dfy` — file references (`File(path)`; like `java.io.File` their string form is
  the path) and artifact identifiers (only their display name is modelled).
- `transformation_subject.dfy` — the `Subject<E>` datatype (`E` is the `Throwable`
  type, carried and never inspected), factories, accessors and transitions.
- `chains.dfy` — a chain of step outcomes reported to one subject, and the chain
  properties: the display name sticks to the origin, the last step decides.
- `captured_name_subject.dfy` — the alternative encoding in which a transformed subject
  stores its predecessor's display name instead of the predecessor.

Modelling decisions:

- **Predecessor reference kept.** `DefaultTransformationSubject` holds its predecessor
  and reads `previous.getDisplayName()` on every call. The main model does the same:
  `Transformed(previous, files)` and a recursive `DisplayName`. Storing the predecessor's
  name as a string at construction is observationally equivalent because every subject is
  immutable (for predecessors that are subjects; see "## Left out"); `CapturedNameSubject` states that encoding and proves it equivalent through
  the abstraction function `Capture`, which preserves every accessor and commutes with
  both transitions and with whole chains.
- **`getFiles` on a failed subject** throws `UnsupportedOperationException` in the source.
  This is a caller error, not a domain failure, so it is the precondition
  `GetFilesAllowed(s)` (the subject is not failed) rather than a returned value.
- **`getFailure`** returns `null` for non-failed subjects; it is an `Option`.
- **`transformationSuccessful` has no guard:** applied to a failed subject it yields a
  transformed subject without a failure, named like the failed one.
- **`transformationFailed` on a failed subject** replaces the earlier failure; the last
  failure wins (`Chains.LastStepDecides`).
- The pipeline driver is not part of the source. `Chains.Step` and `Chains.Run` only list
  the outcomes a driver reports to one subject, so that chain properties can be stated.

## Model

| member | source | states |
|---|---|---|
| TransformationSubject.Failure | subprojects/dependency-management/src/main/java/org/gradle/api/internal/artifacts/transform/TransformationSubject.java:62-85 | the result is failed, its failure is the given one and its display name is the given name |
| TransformationSubject.Initial | subprojects/dependency-management/src/main/java/org/gradle/api/internal/artifacts/transform/TransformationSubject.java:93-130 | a subject for a file carries exactly that one file, has no failure and is named "file " followed by the file's path |
| TransformationSubject.InitialFromArtifact | subprojects/dependency-management/src/main/java/org/gradle/api/internal/artifacts/transform/TransformationSubject.java:132-144 | a subject for an artifact's file carries exactly that file, has no failure and is named "artifact " followed by the artifact's display name, whatever the file |
| TransformationSubject.GetFiles | subprojects/dependency-management/src/main/java/org/gradle/api/internal/artifacts/transform/TransformationSubject.java:71-74 | may be called only on a non-failed subject (the source throws UnsupportedOperationException otherwise); only a transformation result carries other than exactly one file |
| TransformationSubject.GetFailure | subprojects/dependency-management/src/main/java/org/gradle/api/internal/artifacts/transform/TransformationSubject.java:71-80 | a failure is present exactly for the failed variant, which is exactly when getFiles may not be called: a subject never has both files and a failure |
| TransformationSubject.Origin | subprojects/dependency-management/src/main/java/org/gradle/api/internal/artifacts/transform/TransformationSubject.java:146-168 | following predecessor links always ends at an initial or failed subject, and such a subject is its own origin |
| TransformationSubject.DisplayName | subprojects/dependency-management/src/main/java/org/gradle/api/internal/artifacts/transform/TransformationSubject.java:165-168 | the display name of every subject is the name its origin gives itself |
| TransformationSubject.ToString | subprojects/dependency-management/src/main/java/org/gradle/api/internal/artifacts/transform/TransformationSubject.java:170-173 | toString of every variant is its display name, the origin's own name |
| TransformationSubject.TransformationFailed | subprojects/dependency-management/src/main/java/org/gradle/api/internal/artifacts/transform/TransformationSubject.java:54-56 | on any subject, failed ones included, yields a failed subject whose getFiles is not callable, whose failure is the new one and whose display name is the old subject's |
| TransformationSubject.TransformationSuccessful | subprojects/dependency-management/src/main/java/org/gradle/api/internal/artifacts/transform/TransformationSubject.java:58-60 | on any subject yields one whose files are exactly the given list (possibly empty), with no failure, the same display name and the same origin |
| TransformationSubject.Examples | subprojects/dependency-management/src/main/java/org/gradle/api/internal/artifacts/transform/TransformationSubject.java:35-60 | concrete names: "file a.jar", "artifact lib-1.0"; a failed subject keeps its error and refuses getFiles; a transformed one keeps the name and carries its own files |
| Chains.ChainKeepsDisplayName | subprojects/dependency-management/src/main/java/org/gradle/api/internal/artifacts/transform/TransformationSubject.java:54-60 | any chain of successful and failed steps leaves the display name of the starting subject unchanged |
| Chains.SuccessfulChainKeepsOrigin | subprojects/dependency-management/src/main/java/org/gradle/api/internal/artifacts/transform/TransformationSubject.java:146-168 | a chain of successful steps of any length keeps the origin it started from |
| Chains.LastStepDecides | subprojects/dependency-management/src/main/java/org/gradle/api/internal/artifacts/transform/TransformationSubject.java:54-60 | after a non-empty chain, a last failure is the subject's failure (earlier ones are discarded), and a last success leaves exactly its files and no failure |
| CapturedNameSubject.Capture | subprojects/dependency-management/src/main/java/org/gradle/api/internal/artifacts/transform/TransformationSubject.java:146-168 | the captured-name encoding of a subject answers getFiles, getFailure and getDisplayName exactly as the predecessor-holding one |
| CapturedNameSubject.CaptureCommutes | subprojects/dependency-management/src/main/java/org/gradle/api/internal/artifacts/transform/TransformationSubject.java:54-60 | capturing commutes with both transitions |
| CapturedNameSubject.CaptureCommutesWithRun | subprojects/dependency-management/src/main/java/org/gradle/api/internal/artifacts/transform/TransformationSubject.java:146-168 | capturing commutes with whole chains, so no sequence of transitions and accessor calls tells the two encodings apart |

## Left out

- Java object identity, `@Nullable` plumbing and the memory kept alive by the `previous`
  reference: none of these is observable through the subject's accessors.
- A `null` failure passed to `failure` or `transformationFailed`: the source would build a
  failed subject whose `getFailure` is `null`; the model's error values are never null.
- `ImmutableList`, `java.io.File`, `ComponentArtifactIdentifier` and `Throwable` are a
  `seq`, a path, a display name and an opaque type parameter: the subject reads nothing
  else from them.
- `AbstractInitialTransformationSubject.getFile` is the datatype field `file`.
- TransformationSubject.GetFiles: its contract says only that initial subjects carry one
  file; which file, and the files of a transformed subject, are stated by the factories
  and `TransformationSuccessful`.
- Predecessors that are not subjects: the public constructor of
  `DefaultTransformationSubject` accepts any `Describable` as `previous`, but the model's
  predecessor is always a subject, which is what `transformationSuccessful` passes (`this`).
  A foreign `Describable` need not return a stable name, so the equivalence of the
  captured-name encoding is claimed only for chains built by the transitions.
