/**
  The values the lifecycle evaluator works on: exceptions as outcome values,
  the project as it is seen by the evaluator, and the per-project evaluation
  state (ProjectStateInternal), which the evaluator updates in place.
*/
module Projects {

  datatype Option<+T> = None | Some(value: T)

  /** An exception. `Raised` is whatever a hook or the delegate evaluator throws;
      `ProjectConfigurationException` is the wrapper the lifecycle records. */
  datatype Error =
    | Raised(description: string)
    | ProjectConfigurationException(message: string, cause: Error)

  /** How a call into a collaborator ended: it returned, or it threw. */
  datatype Outcome = Pass | Fail(error: Error)

  /** The build's --stacktrace setting (StartParameter.getShowStacktrace()). */
  datatype ShowStacktrace = InternalExceptions | Always | AlwaysFull

  /** A project, reduced to what the lifecycle reads from it. The hooks registered
      on its evaluation broadcaster are given by what they do when notified:
      `beforeEvaluate` is the outcome of notifying the before-evaluate hooks, and
      `afterEvaluateBatches[k]` the outcome of dispatching the k-th batch of
      after-evaluate listeners (listeners added while a batch runs form the next
      batch). An empty sequence is a broadcaster with no after-evaluate listeners. */
  datatype Project = Project(
    displayName: string,
    identityPath: string,
    projectPath: string,
    buildIdentityPath: string,
    showStacktrace: ShowStacktrace,
    beforeEvaluate: Outcome,
    afterEvaluateBatches: seq<Outcome>)

  /** The value of a project's evaluation state. */
  datatype StateValue = StateValue(executing: bool, executed: bool, failure: Option<Error>) {

    /** A failure is only ever recorded together with the executed mark. */
    predicate Consistent() {
      failure.Some? ==> executed
    }

    predicate NotStarted() {
      !executing && !executed
    }

    function WithExecuting(b: bool): StateValue {
      this.(executing := b)
    }

    /** executed(): marks the project executed and keeps any recorded failure. */
    function MarkExecuted(): StateValue {
      this.(executed := true)
    }

    /** executed(failure): marks the project executed; a failure already recorded is never replaced. */
    function MarkExecutedWith(f: Error): StateValue {
      this.(executed := true, failure := if failure.Some? then failure else Some(f))
    }
  }

  const Unconfigured := StateValue(false, false, None)

  /** The evaluation state of one project, updated in place by the lifecycle.
      `history` lists every value the state has taken since it was created. */
  class ProjectState {
    var executing: bool
    var executed: bool
    var failure: Option<Error>
    ghost var history: seq<StateValue>

    function Value(): StateValue
      reads this
    {
      StateValue(executing, executed, failure)
    }

    ghost predicate Valid()
      reads this
    {
      Value().Consistent() && |history| > 0 && history[|history| - 1] == Value()
    }

    constructor ()
      ensures Valid() && Value() == Unconfigured && history == [Unconfigured]
    {
      executing, executed, failure := false, false, None;
      history := [Unconfigured];
    }

    method SetExecuting(b: bool)
      requires Valid()
      modifies this
      ensures Valid()
      ensures Value() == old(Value()).WithExecuting(b)
      ensures history == old(history) + [Value()]
    {
      executing := b;
      history := history + [Value()];
    }

    method Executed()
      requires Valid()
      modifies this
      ensures Valid()
      ensures Value() == old(Value()).MarkExecuted()
      ensures history == old(history) + [Value()]
    {
      executed := true;
      history := history + [Value()];
    }

    method ExecutedWithFailure(f: Error)
      requires Valid()
      modifies this
      ensures Valid()
      ensures Value() == old(Value()).MarkExecutedWith(f)
      ensures history == old(history) + [Value()]
    {
      executed := true;
      if failure.None? {
        failure := Some(f);
      }
      history := history + [Value()];
    }

    function HasFailure(): bool
      reads this
    {
      failure.Some?
    }

    /** rethrowFailure(): throws the recorded failure, if there is one. */
    method RethrowFailure() returns (outcome: Outcome)
      ensures outcome.Fail? <==> failure.Some?
      ensures outcome.Fail? ==> failure == Some(outcome.error)
    {
      outcome := if failure.Some? then Fail(failure.value) else Pass;
    }
  }
}
