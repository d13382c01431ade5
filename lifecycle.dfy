/**
  The project configuration lifecycle of LifecycleProjectEvaluator, stated as
  functions. Each function maps the world before one step of the evaluator (the
  project's state, the values it has taken, the timeline and the log) to the
  world after it, given the project and the delegate evaluator. The class in
  module Evaluators is proved to do exactly this; module LifecycleProperties
  proves what it means.
*/
module Lifecycle {
  import opened Projects

  // ---------------------------------------------------------------------------
  // Build operations, the timeline and the log
  // ---------------------------------------------------------------------------

  /** BuildOperationCategory: only ConfigureProject sets an operation type. */
  datatype Category = ConfigureProjectCategory | Uncategorized

  /** The details payload of each operation: the project path and the owning build's identity path. */
  datatype Details =
    | ConfigureProjectDetails(projectPath: string, buildPath: string)
    | BeforeEvaluatedDetails(projectPath: string, buildPath: string)
    | AfterEvaluatedDetails(projectPath: string, buildPath: string)

  datatype Descriptor = Descriptor(
    displayName: string,
    progressDisplayName: Option<string>,
    category: Category,
    details: Details)

  /** The RESULT constant each operation type sets on success. */
  datatype OperationResult = ConfigureProjectResult | BeforeEvaluatedResult | AfterEvaluatedResult

  /** One entry of the timeline. The build operation executor reports the start and
      the end of each operation (with the result the operation set and the failure it
      let escape); the calls into the hooks and the delegate evaluator are recorded
      where they happen, so that their order relative to the operations is visible;
      the delegate call records the project's state at the moment of the call. */
  datatype Event =
    | Started(descriptor: Descriptor)
    | Finished(descriptor: Descriptor, result: Option<OperationResult>, failure: Option<Error>)
    | BeforeEvaluateBroadcast
    | DelegateEvaluate(state: StateValue)
    | AfterEvaluateStep(batch: nat)

  /** An ERROR-level log entry, with the exception handed to the logger if any. */
  datatype LogEntry = LogEntry(message: string, thrown: Option<Error>)

  /** What the lifecycle can change, as one value: the project's state, every value the
      state has taken (`history`, whose last element is `state`), the timeline and the log.
      Each function below maps the world before a step to the world after it. */
  datatype World = World(state: StateValue, history: seq<StateValue>, events: seq<Event>, log: seq<LogEntry>) {

    /** The state is set to `s` (one call of a state mutator). */
    function Set(s: StateValue): World {
      this.(state := s, history := history + [s])
    }

    function Emit(es: seq<Event>): World {
      this.(events := events + es)
    }

    function Log(entry: LogEntry): World {
      this.(log := log + [entry])
    }
  }

  /** A step that may throw: the world after it, and how it ended. */
  datatype Evaluation = Evaluation(world: World, outcome: Outcome)

  // ---------------------------------------------------------------------------
  // Operation descriptions
  // ---------------------------------------------------------------------------

  function ConfigureProjectDescription(p: Project): Descriptor {
    Descriptor("Configure project " + p.identityPath, None, ConfigureProjectCategory,
      ConfigureProjectDetails(p.projectPath, p.buildIdentityPath))
  }

  function BeforeEvaluateHooksDescription(p: Project): Descriptor {
    var suffix := " (" + p.identityPath + ")";
    Descriptor("Execute beforeEvaluate hooks" + suffix, Some("Executing beforeEvaluate hooks" + suffix),
      Uncategorized, BeforeEvaluatedDetails(p.projectPath, p.buildIdentityPath))
  }

  function AfterEvaluateHooksDescription(p: Project): Descriptor {
    var suffix := " (" + p.identityPath + ")";
    Descriptor("Execute afterEvaluate hooks" + suffix, Some("Executing afterEvaluate hooks" + suffix),
      Uncategorized, AfterEvaluatedDetails(p.projectPath, p.buildIdentityPath))
  }

  // ---------------------------------------------------------------------------
  // Failure recording
  // ---------------------------------------------------------------------------

  /** The exception addConfigurationFailure records for a caught exception `e`. */
  function ConfigurationFailure(p: Project, e: Error): Error {
    ProjectConfigurationException("A problem occurred configuring " + p.displayName + ".", e)
  }

  function AddConfigurationFailure(p: Project, w: World, e: Error): World {
    w.Set(w.state.MarkExecutedWith(ConfigurationFailure(p, e)))
  }

  const AfterEvaluateFailureMessage := "Project evaluation failed including an error in afterEvaluate {}."

  /** The log entry for an after-evaluate failure that does not become the project's failure. */
  function AfterEvaluateFailureEntry(show: ShowStacktrace, e: Error): (entry: LogEntry)
    ensures entry.thrown.Some? <==> show != InternalExceptions
    ensures entry.thrown.Some? ==> entry.thrown == Some(e) && entry.message == AfterEvaluateFailureMessage
    ensures entry.thrown.None? ==> entry.message == AfterEvaluateFailureMessage + StacktraceHint
  {
    if show != InternalExceptions then LogEntry(AfterEvaluateFailureMessage, Some(e))
    else LogEntry(AfterEvaluateFailureMessage + StacktraceHint, None)
  }

  const StacktraceHint := " Run with --stacktrace for details of the afterEvaluate {} error."

  function OnAfterEvaluateFailure(p: Project, w: World, e: Error): World {
    if w.state.failure.Some? then w.Log(AfterEvaluateFailureEntry(p.showStacktrace, e))
    else AddConfigurationFailure(p, w, e)
  }

  // ---------------------------------------------------------------------------
  // After-evaluate dispatch (the do-while over stepEvaluationListener)
  // ---------------------------------------------------------------------------

  /** What the k-th step of the stepper does. The first step always dispatches the
      broadcaster itself, which passes when it has no listeners. */
  function StepOutcome(batches: seq<Outcome>, k: nat): Outcome {
    if k < |batches| then batches[k] else Pass
  }

  /** How a dispatch ended: the number of steps taken, and the exception that stopped it. */
  datatype Dispatch = Dispatch(steps: nat, thrown: Option<Error>)

  /** Dispatch from step k on: step until a batch throws or no batch follows. */
  function DispatchFrom(batches: seq<Outcome>, k: nat): (r: Dispatch)
    decreases |batches| - k
    ensures k < r.steps
    ensures r.steps <= |batches| || r.steps == k + 1
    ensures forall j :: k <= j < r.steps - 1 ==> batches[j].Pass?
    ensures r.thrown.Some? ==> r.steps <= |batches| && batches[r.steps - 1] == Fail(r.thrown.value)
    ensures r.thrown.None? ==> r.steps >= |batches| && forall j :: k <= j < |batches| ==> batches[j].Pass?
  {
    match StepOutcome(batches, k)
    case Fail(e) => Dispatch(k + 1, Some(e))
    case Pass => if k + 1 < |batches| then DispatchFrom(batches, k + 1) else Dispatch(k + 1, None)
  }

  /** The timeline entries of the first n steps. */
  function StepEvents(n: nat): seq<Event> {
    if n == 0 then [] else StepEvents(n - 1) + [AfterEvaluateStep(n - 1)]
  }

  function NotifyAfterEvaluate(p: Project, w: World): World {
    var d := DispatchFrom(p.afterEvaluateBatches, 0);
    var stepped := w.Emit(StepEvents(d.steps));
    match d.thrown
    case None => stepped
    case Some(e) => OnAfterEvaluateFailure(p, stepped, e)
  }

  // ---------------------------------------------------------------------------
  // The three build operations and the lifecycle
  // ---------------------------------------------------------------------------

  /** AfterBeforeEvaluateHooks run by the executor: hook failures are absorbed, so it always sets its result. */
  function ExecuteAfterEvaluateHooks(p: Project, w: World): World {
    var d := AfterEvaluateHooksDescription(p);
    NotifyAfterEvaluate(p, w.Emit([Started(d)])).Emit([Finished(d, Some(AfterEvaluatedResult), None)])
  }

  /** ExecuteBeforeEvaluateHooks run by the executor, with the value of its `failed` field. */
  datatype BeforeHooks = BeforeHooks(world: World, failed: bool)

  function ExecuteBeforeEvaluateHooks(p: Project, w: World): BeforeHooks {
    var d := BeforeEvaluateHooksDescription(p);
    var notified := w.Emit([Started(d), BeforeEvaluateBroadcast]);
    match p.beforeEvaluate
    case Pass => BeforeHooks(notified.Emit([Finished(d, Some(BeforeEvaluatedResult), None)]), false)
    case Fail(e) => BeforeHooks(AddConfigurationFailure(p, notified, e).Emit([Finished(d, None, None)]), true)
  }

  /** The delegate call: setExecuting(true), the call with its failure caught and recorded,
      then setExecuting(false) and executed(). */
  function EvaluateWithDelegate(delegate: Project -> Outcome, p: Project, w: World): World {
    var started := w.Set(w.state.WithExecuting(true));
    var called := started.Emit([DelegateEvaluate(started.state)]);
    var caught := match delegate(p)
      case Pass => called
      case Fail(e) => AddConfigurationFailure(p, called, e);
    var stopped := caught.Set(caught.state.WithExecuting(false));
    stopped.Set(stopped.state.MarkExecuted())
  }

  function DoConfigure(delegate: Project -> Outcome, p: Project, w: World): World {
    var b := ExecuteBeforeEvaluateHooks(p, w);
    if b.failed then b.world
    else ExecuteAfterEvaluateHooks(p, EvaluateWithDelegate(delegate, p, b.world))
  }

  /** ConfigureProject run by the executor: the executor reports the failure the operation
      rethrows, and rethrows it. */
  function ConfigureProject(delegate: Project -> Outcome, p: Project, w: World): Evaluation {
    var d := ConfigureProjectDescription(p);
    var c := DoConfigure(delegate, p, w.Emit([Started(d)]));
    match c.state.failure
    case Some(f) => Evaluation(c.Emit([Finished(d, None, Some(f))]), Fail(f))
    case None => Evaluation(c.Emit([Finished(d, Some(ConfigureProjectResult), None)]), Pass)
  }

  function Evaluate(delegate: Project -> Outcome, p: Project, w: World): Evaluation {
    if w.state.executed || w.state.executing then Evaluation(w, Pass)
    else ConfigureProject(delegate, p, w)
  }
}
