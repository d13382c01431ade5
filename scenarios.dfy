/**
  Clients of LifecycleProjectEvaluator: each method sets up a project, its hooks
  and a delegate, evaluates the project through the class and states what the
  caller then sees. They are proved from the class's contracts alone.
*/
module Scenarios {
  import opened Projects
  import opened Lifecycle
  import opened Evaluators

  const ErrA := Raised("ErrA")
  const ErrB := Raised("ErrB")
  const ErrC := Raised("ErrC")
  const ErrD := Raised("ErrD")

  function SampleProject(beforeEvaluate: Outcome, afterEvaluateBatches: seq<Outcome>): Project {
    Project("project ':app'", ":app", ":app", ":", Always, beforeEvaluate, afterEvaluateBatches)
  }

  /** The delegate throws ErrA and the only after-evaluate listener throws ErrB: the recorded
      failure wraps ErrA, and ErrB only reaches the log, with its stack trace. */
  method DelegateAndAfterHookFail() returns (failure: Option<Error>, log: seq<LogEntry>, outcome: Outcome, executed: bool)
    ensures failure == Some(ConfigurationFailure(SampleProject(Pass, [Fail(ErrB)]), ErrA))
    ensures outcome == Fail(failure.value)
    ensures log == [LogEntry(AfterEvaluateFailureMessage, Some(ErrB))]
    ensures executed
  {
    var p := SampleProject(Pass, [Fail(ErrB)]);
    var evaluator := new LifecycleProjectEvaluator(_ => Fail(ErrA));
    var state := new ProjectState();
    outcome := evaluator.Evaluate(p, state);
    failure, log, executed := state.failure, evaluator.log, state.executed;
  }

  /** A before-evaluate hook throws ErrC: the recorded failure wraps ErrC, and the delegate,
      which would throw ErrD, is never called. */
  method BeforeHookFails() returns (failure: Option<Error>, events: seq<Event>, outcome: Outcome, executed: bool)
    ensures failure == Some(ConfigurationFailure(SampleProject(Fail(ErrC), []), ErrC))
    ensures outcome == Fail(failure.value)
    ensures (forall ev <- events :: !ev.DelegateEvaluate?) && Started(AfterEvaluateHooksDescription(SampleProject(Fail(ErrC), []))) !in events
    ensures executed
  {
    var p := SampleProject(Fail(ErrC), []);
    var evaluator := new LifecycleProjectEvaluator(_ => Fail(ErrD));
    var state := new ProjectState();
    outcome := evaluator.Evaluate(p, state);
    failure, events, executed := state.failure, evaluator.events, state.executed;
  }

  /** Nothing throws: no failure, and the three operations report their results. */
  method AllPhasesSucceed() returns (failure: Option<Error>, events: seq<Event>, outcome: Outcome)
    ensures failure == None && outcome == Pass
    ensures var p := SampleProject(Pass, []);
      var cd, bd, ad := ConfigureProjectDescription(p), BeforeEvaluateHooksDescription(p), AfterEvaluateHooksDescription(p);
      events == [Started(cd), Started(bd), BeforeEvaluateBroadcast, Finished(bd, Some(BeforeEvaluatedResult), None),
                 DelegateEvaluate(StateValue(true, false, None)), Started(ad), AfterEvaluateStep(0), Finished(ad, Some(AfterEvaluatedResult), None),
                 Finished(cd, Some(ConfigureProjectResult), None)]
  {
    var p := SampleProject(Pass, []);
    var evaluator := new LifecycleProjectEvaluator(_ => Pass);
    var state := new ProjectState();
    outcome := evaluator.Evaluate(p, state);
    failure, events := state.failure, evaluator.events;
  }

  /** Evaluating a project a second time does nothing, even when its first evaluation failed. */
  method EvaluatingTwiceRunsOnce() returns (first: Outcome, second: Outcome, eventsAfterFirst: seq<Event>, eventsAfterSecond: seq<Event>)
    ensures first.Fail? && second == Pass
    ensures eventsAfterSecond == eventsAfterFirst
  {
    var p := SampleProject(Pass, [Pass, Fail(ErrB)]);
    var evaluator := new LifecycleProjectEvaluator(_ => Pass);
    var state := new ProjectState();
    assert DispatchFrom(p.afterEvaluateBatches, 1) == Dispatch(2, Some(ErrB));
    first := evaluator.Evaluate(p, state);
    eventsAfterFirst := evaluator.events;
    second := evaluator.Evaluate(p, state);
    eventsAfterSecond := evaluator.events;
  }
}
