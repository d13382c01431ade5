/**
  LifecycleProjectEvaluator itself: it updates the project's state in place and
  appends to the timeline (the build operation executor's trace together with
  the calls into the hooks and the delegate) and to the log. Every method is
  proved to change the observed world exactly as the function of the same name
  in module Lifecycle says; the three `Run...` methods are the `run` methods of
  the build operations ConfigureProject, ExecuteBeforeEvaluateHooks and
  AfterBeforeEvaluateHooks, each wrapped as the executor runs it.
*/
module Evaluators {
  import opened Projects
  import opened Lifecycle

  class LifecycleProjectEvaluator {
    /** The delegate evaluator: what evaluating a project's configuration does. */
    const delegate: Project -> Outcome
    var events: seq<Event>
    var log: seq<LogEntry>

    constructor (delegate: Project -> Outcome)
      ensures this.delegate == delegate && events == [] && log == []
    {
      this.delegate := delegate;
      events, log := [], [];
    }

    /** What the lifecycle can change: the project's state with its history, the timeline and the log. */
    ghost function Observed(state: ProjectState): World
      reads this, state
    {
      World(state.Value(), state.history, events, log)
    }

    method Evaluate(project: Project, state: ProjectState) returns (outcome: Outcome)
      requires state.Valid()
      modifies this, state
      ensures state.Valid()
      ensures Evaluation(Observed(state), outcome) == Lifecycle.Evaluate(delegate, project, old(Observed(state)))
    {
      if state.executed || state.executing {
        return Pass;
      }
      outcome := RunConfigureProject(project, state);
    }

    method DoConfigure(project: Project, state: ProjectState)
      requires state.Valid()
      modifies this, state
      ensures state.Valid()
      ensures Observed(state) == Lifecycle.DoConfigure(delegate, project, old(Observed(state)))
    {
      var failed := RunExecuteBeforeEvaluateHooks(project, state);
      if failed {
        return;
      }
      EvaluateDelegate(project, state);
      RunAfterEvaluateHooks(project, state);
    }

    /** The try/catch/finally around the delegate, before the after-evaluate operation. */
    method EvaluateDelegate(project: Project, state: ProjectState)
      requires state.Valid()
      modifies this, state
      ensures state.Valid()
      ensures Observed(state) == EvaluateWithDelegate(delegate, project, old(Observed(state)))
    {
      state.SetExecuting(true);
      events := events + [DelegateEvaluate(state.Value())];
      var evaluated := delegate(project);
      if evaluated.Fail? {
        AddConfigurationFailure(project, state, evaluated.error);
      }
      state.SetExecuting(false);
      state.Executed();
    }

    method NotifyAfterEvaluate(project: Project, state: ProjectState)
      requires state.Valid()
      modifies this, state
      ensures state.Valid()
      ensures Observed(state) == Lifecycle.NotifyAfterEvaluate(project, old(Observed(state)))
    {
      var batches := project.afterEvaluateBatches;
      var next: nat := 0;
      var more := true;
      while more
        invariant next <= |batches| || next == 1
        invariant more ==> next < |batches| || next == 0
        invariant more ==> DispatchFrom(batches, next) == DispatchFrom(batches, 0)
        invariant !more ==> DispatchFrom(batches, 0) == Dispatch(next, None)
        invariant Observed(state) == old(Observed(state)).Emit(StepEvents(next))
        decreases |batches| + 1 - next
      {
        var outcome := StepOutcome(batches, next);
        events := events + [AfterEvaluateStep(next)];
        assert events == old(events) + StepEvents(next + 1);
        next := next + 1;
        if outcome.Fail? {
          OnAfterEvaluateFailure(outcome.error, project, state);
          return;
        }
        more := next < |batches|;
      }
    }

    method OnAfterEvaluateFailure(e: Error, project: Project, state: ProjectState)
      requires state.Valid()
      modifies this, state
      ensures state.Valid()
      ensures Observed(state) == Lifecycle.OnAfterEvaluateFailure(project, old(Observed(state)), e)
    {
      if state.HasFailure() {
        var entry := AfterEvaluateFailureEntry(project.showStacktrace, e);
        log := log + [entry];
        return;
      }
      AddConfigurationFailure(project, state, e);
    }

    method AddConfigurationFailure(project: Project, state: ProjectState, e: Error)
      requires state.Valid()
      modifies state
      ensures state.Valid()
      ensures Observed(state) == Lifecycle.AddConfigurationFailure(project, old(Observed(state)), e)
    {
      state.ExecutedWithFailure(ConfigurationFailure(project, e));
    }

    /** ConfigureProject: configure, then rethrow the recorded failure or set the result. */
    method RunConfigureProject(project: Project, state: ProjectState) returns (outcome: Outcome)
      requires state.Valid()
      modifies this, state
      ensures state.Valid()
      ensures Evaluation(Observed(state), outcome) == ConfigureProject(delegate, project, old(Observed(state)))
    {
      var descriptor := ConfigureProjectDescription(project);
      events := events + [Started(descriptor)];
      DoConfigure(project, state);
      outcome := state.RethrowFailure();
      var result := if outcome.Pass? then Some(ConfigureProjectResult) else None;
      var failure := if outcome.Fail? then Some(outcome.error) else None;
      events := events + [Finished(descriptor, result, failure)];
    }

    /** ExecuteBeforeEvaluateHooks: notify the before-evaluate hooks; on failure record it and set `failed`. */
    method RunExecuteBeforeEvaluateHooks(project: Project, state: ProjectState) returns (failed: bool)
      requires state.Valid()
      modifies this, state
      ensures state.Valid()
      ensures BeforeHooks(Observed(state), failed) == ExecuteBeforeEvaluateHooks(project, old(Observed(state)))
    {
      var descriptor := BeforeEvaluateHooksDescription(project);
      events := events + [Started(descriptor), BeforeEvaluateBroadcast];
      var result: Option<OperationResult> := None;
      failed := false;
      match project.beforeEvaluate {
        case Pass =>
          result := Some(BeforeEvaluatedResult);
        case Fail(e) =>
          AddConfigurationFailure(project, state, e);
          failed := true;
      }
      events := events + [Finished(descriptor, result, None)];
    }

    /** AfterBeforeEvaluateHooks: notify the after-evaluate hooks, then set the result. */
    method RunAfterEvaluateHooks(project: Project, state: ProjectState)
      requires state.Valid()
      modifies this, state
      ensures state.Valid()
      ensures Observed(state) == ExecuteAfterEvaluateHooks(project, old(Observed(state)))
    {
      var descriptor := AfterEvaluateHooksDescription(project);
      events := events + [Started(descriptor)];
      NotifyAfterEvaluate(project, state);
      events := events + [Finished(descriptor, Some(AfterEvaluatedResult), None)];
    }
  }
}
