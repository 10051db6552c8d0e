/** Chains of transitions, as a pipeline driver applies them to one subject. The
    driver itself is not modelled; a chain is just the list of step outcomes it
    reports to the subject, in order. */
module Chains {
  import opened Options
  import opened Files
  import opened TransformationSubject

  /** The outcome of one transformation step: the files it produced, or what it threw. */
  datatype Step<E> = Succeeded(result: seq<File>) | Threw(failure: E)

  /** Reports one step outcome to `s`. */
  function Apply<E>(s: Subject<E>, step: Step<E>): Subject<E>
  {
    match step
    case Succeeded(fs) => TransformationSuccessful(s, fs)
    case Threw(e) => TransformationFailed(s, e)
  }

  /** Reports `steps` to `s`, first step first. */
  function Run<E>(s: Subject<E>, steps: seq<Step<E>>): Subject<E>
    decreases |steps|
  {
    if |steps| == 0 then s else Run(Apply(s, steps[0]), steps[1..])
  }

  /** Whether every step of `steps` succeeded. */
  predicate AllSucceeded<E>(steps: seq<Step<E>>)
  {
    forall i :: 0 <= i < |steps| ==> steps[i].Succeeded?
  }

  /** The display name sticks: no chain of outcomes, successful or failed, renames
      a subject. */
  lemma {:induction false} ChainKeepsDisplayName<E>(s: Subject<E>, steps: seq<Step<E>>)
    ensures DisplayName(Run(s, steps)) == DisplayName(s)
    decreases |steps|
  {
    if |steps| > 0 {
      ChainKeepsDisplayName(Apply(s, steps[0]), steps[1..]);
    }
  }

  /** After a chain of successful steps the subject still has the origin it
      started with, so in particular a chain from `Initial(f)` keeps the name
      `"file " + f.path`. */
  lemma {:induction false} SuccessfulChainKeepsOrigin<E>(s: Subject<E>, steps: seq<Step<E>>)
    requires AllSucceeded(steps)
    ensures Origin(Run(s, steps)) == Origin(s)
    decreases |steps|
  {
    if |steps| > 0 {
      assert steps[0].Succeeded?;
      SuccessfulChainKeepsOrigin(Apply(s, steps[0]), steps[1..]);
    }
  }

  /** Reporting one more step after a chain is reporting it to the chain's result. */
  lemma {:induction false} RunSnoc<E>(s: Subject<E>, steps: seq<Step<E>>, step: Step<E>)
    ensures Run(s, steps + [step]) == Apply(Run(s, steps), step)
    decreases |steps|
  {
    if |steps| == 0 {
      assert steps + [step] == [step];
    } else {
      assert (steps + [step])[1..] == steps[1..] + [step];
      RunSnoc(Apply(s, steps[0]), steps[1..], step);
    }
  }

  /** The last step decides the state of a non-empty chain: a last failure wins
      over every earlier one, and a last success carries exactly its own files
      and no failure, whatever came before. */
  lemma LastStepDecides<E>(s: Subject<E>, steps: seq<Step<E>>)
    requires |steps| > 0
    ensures steps[|steps| - 1].Threw? ==>
      Run(s, steps).Failed? && GetFailure(Run(s, steps)) == Some(steps[|steps| - 1].failure)
    ensures steps[|steps| - 1].Succeeded? ==>
      GetFilesAllowed(Run(s, steps)) && GetFiles(Run(s, steps)) == steps[|steps| - 1].result
      && GetFailure(Run(s, steps)) == None
  {
    var n := |steps| - 1;
    assert steps == steps[..n] + [steps[n]];
    RunSnoc(s, steps[..n], steps[n]);
  }
}
