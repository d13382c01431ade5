# Project configuration lifecycle (Gradle's LifecycleProjectEvaluator), modelled in Dafny

Gradle configures each project of a build once. `LifecycleProjectEvaluator` runs
that configuration as three build operations in a row:

1. The before-evaluate hooks. If they throw, the failure is recorded and the
   rest is skipped.
2. The delegate evaluator. The project is marked executing around the call, and
   any exception it throws is recorded.
3. The after-evaluate hooks. They run whatever the delegate did, batch by batch.

A failure is recorded as a `ProjectConfigurationException` whose message is
"A problem occurred configuring <display name>." and whose cause is the original
exception. A failing after-evaluate hook becomes the project's failure only when
no failure is recorded yet; otherwise it is only logged, so the root cause is
kept. The outer "Configure project <identity path>" operation then rethrows the
recorded failure, or sets its result. `evaluate` does nothing for a project that
is already executing or executed.

Files:

- `projects.dfy` (module `Projects`): exceptions as `Outcome` values, the
  project as the evaluator reads it, the state value, and the class
  `ProjectState`. That class stands for Gradle's per-project state, which the
  evaluator updates in place. It keeps a ghost `history` of every value it has
  taken.
- `lifecycle.dfy` (module `Lifecycle`): the operation descriptors, the timeline
  and the log. It also gives each step of the evaluator as a function. The
  function maps the `World` before the step (state, history, timeline, log) to
  the `World` after it.
- `evaluator.dfy` (module `Evaluators`): the class `LifecycleProjectEvaluator`.
  Its methods mirror the Java methods and the `run` methods of the three
  operations. Each is proved to change the world exactly as one function of
  `Lifecycle` says. Most share the function's name; `EvaluateDelegate` is tied to
  `EvaluateWithDelegate`, `RunConfigureProject` to `ConfigureProject`,
  `RunExecuteBeforeEvaluateHooks` to `ExecuteBeforeEvaluateHooks`, and
  `RunAfterEvaluateHooks` to `ExecuteAfterEvaluateHooks`. `NotifyAfterEvaluate`
  keeps the source's loop.
- `lifecycle_properties.dfy` (module `LifecycleProperties`): lemmas stating what
  the lifecycle promises.
- `scenarios.dfy` (module `Scenarios`): client methods that evaluate concrete
  projects through the class.

Modelling choices:

- Every exception is an `Outcome`: `Pass`, or `Fail(error)`.
- The delegate evaluator is a function `Project -> Outcome` held by the
  evaluator.
- The before-evaluate broadcast is one outcome, `Project.beforeEvaluate`.
- `stepEvaluationListener` is a sequence of batch outcomes,
  `Project.afterEvaluateBatches`. Step k dispatches batch k. It returns no next
  batch after the last one. The source's do-while always takes at least one
  step, so an empty sequence stands for a broadcaster with no listeners: one step
  that passes.
- The build operation executor is reduced to what it reports. Each operation
  adds `Started(descriptor)` when it begins and `Finished(descriptor, result,
  failure)` when it ends. `result` is the result the operation set; `failure` is
  the exception it let escape, which the executor rethrows.
- The calls into the hooks and the delegate are recorded in the same timeline
  (`BeforeEvaluateBroadcast`, `DelegateEvaluate(state)`, `AfterEvaluateStep(k)`).
  This makes their order relative to the operations visible. The delegate call
  records the project's state at the moment of the call, so the timeline shows
  that the project is executing while the delegate runs.
- The logger is a sequence of ERROR entries, each a message plus the exception
  it was given, if any.
- The --stacktrace setting is a field of the project
  (`Project.showStacktrace`).
- Three details of the operations and the log, as the code has them:
  - Only the outer operation has an operation type (CONFIGURE_PROJECT). The two
    hook operations are uncategorized and carry a progress display name instead.
  - The hook operations are named "Execute beforeEvaluate hooks (<identity
    path>)" and "Execute afterEvaluate hooks (<identity path>)", with
    parentheses.
  - A log entry records the format string and the exception exactly as they are
    passed to the logger: with the stack trace, the exception is the logger's one
    argument; without it, the hint is appended and no argument is passed. How
    SLF4J fills the `{}` placeholders is not modelled, so the message keeps them.
- `executed(failure)` never replaces a failure that is already recorded. Its
  implementation in `ProjectStateInternal` is not modelled.

## Model

| member | source | states |
|---|---|---|
| Projects.ProjectState.SetExecuting | subprojects/core/src/main/java/org/gradle/configuration/project/LifecycleProjectEvaluator.java:62 | setExecuting changes the executing flag only and appends the new value to the state's history |
| Projects.ProjectState.Executed | subprojects/core/src/main/java/org/gradle/configuration/project/LifecycleProjectEvaluator.java:69 | executed() marks the project executed and keeps any recorded failure |
| Projects.ProjectState.ExecutedWithFailure | subprojects/core/src/main/java/org/gradle/configuration/project/LifecycleProjectEvaluator.java:108 | executed(failure) marks the project executed and records the failure unless one is recorded already |
| Projects.ProjectState.RethrowFailure | subprojects/core/src/main/java/org/gradle/configuration/project/LifecycleProjectEvaluator.java:124 | rethrowFailure throws exactly when a failure is recorded, and throws that failure |
| Lifecycle.AfterEvaluateFailureEntry | subprojects/core/src/main/java/org/gradle/configuration/project/LifecycleProjectEvaluator.java:94-100 | the log entry carries the exception iff show-stacktrace is not INTERNAL_EXCEPTIONS; otherwise the message gets the " Run with --stacktrace …" hint |
| Lifecycle.DispatchFrom | subprojects/core/src/main/java/org/gradle/configuration/project/LifecycleProjectEvaluator.java:75-88 | the dispatch steps until a batch throws or no batch follows. Every batch before the last step passed. If it stopped on an exception, that is the last batch's exception. It ends without one iff every batch passes |
| Evaluators.LifecycleProjectEvaluator.Evaluate | subprojects/core/src/main/java/org/gradle/configuration/project/LifecycleProjectEvaluator.java:48-53 | evaluate changes state, timeline and log exactly as Lifecycle.Evaluate says, keeping the state consistent |
| Evaluators.LifecycleProjectEvaluator.DoConfigure | subprojects/core/src/main/java/org/gradle/configuration/project/LifecycleProjectEvaluator.java:55-72 | doConfigure does the before-hooks operation, then (unless it failed) the delegate and the after-hooks operation, as Lifecycle.DoConfigure says |
| Evaluators.LifecycleProjectEvaluator.EvaluateDelegate | subprojects/core/src/main/java/org/gradle/configuration/project/LifecycleProjectEvaluator.java:62-69 | changes the world as Lifecycle.EvaluateWithDelegate says: executing is set, then the delegate call is recorded with the state it sees; its exception is recorded, not thrown; afterwards executing is cleared and the project marked executed |
| Evaluators.LifecycleProjectEvaluator.NotifyAfterEvaluate | subprojects/core/src/main/java/org/gradle/configuration/project/LifecycleProjectEvaluator.java:74-89 | the do-while loop takes exactly the steps Lifecycle.DispatchFrom gives, and hands the exception that stopped it to the failure handler |
| Evaluators.LifecycleProjectEvaluator.OnAfterEvaluateFailure | subprojects/core/src/main/java/org/gradle/configuration/project/LifecycleProjectEvaluator.java:91-104 | an after-evaluate exception is logged when a failure is recorded, and recorded otherwise |
| Evaluators.LifecycleProjectEvaluator.AddConfigurationFailure | subprojects/core/src/main/java/org/gradle/configuration/project/LifecycleProjectEvaluator.java:106-109 | the exception is wrapped with "A problem occurred configuring <display name>." and recorded through executed(failure) |
| Evaluators.LifecycleProjectEvaluator.RunConfigureProject | subprojects/core/src/main/java/org/gradle/configuration/project/LifecycleProjectEvaluator.java:121-126 | the outer operation configures, then fails with the recorded failure or sets its result |
| Evaluators.LifecycleProjectEvaluator.RunExecuteBeforeEvaluateHooks | subprojects/core/src/main/java/org/gradle/configuration/project/LifecycleProjectEvaluator.java:150-158 | the before-hooks operation sets its result when the hooks pass; otherwise it records the failure, sets no result and reports `failed` |
| Evaluators.LifecycleProjectEvaluator.RunAfterEvaluateHooks | subprojects/core/src/main/java/org/gradle/configuration/project/LifecycleProjectEvaluator.java:180-183 | the after-hooks operation notifies the hooks and always sets its result |
| LifecycleProperties.StepEventsAreTheSteps | subprojects/core/src/main/java/org/gradle/configuration/project/LifecycleProjectEvaluator.java:76-88 | n steps of the loop record the steps 0 … n-1, in order |
| LifecycleProperties.StepEventsMembership | subprojects/core/src/main/java/org/gradle/configuration/project/LifecycleProjectEvaluator.java:76-88 | an event is among the first n steps' events iff it is step j for some j < n |
| LifecycleProperties.EvaluateIsANoOpOnceStarted | subprojects/core/src/main/java/org/gradle/configuration/project/LifecycleProjectEvaluator.java:48-53 | when the project is executing or executed, evaluate runs nothing, changes nothing and returns normally |
| LifecycleProperties.EvaluateRunsOnce | subprojects/core/src/main/java/org/gradle/configuration/project/LifecycleProjectEvaluator.java:48-72 | a first evaluation leaves the project executed, not executing and consistent, so a second evaluation is a no-op |
| LifecycleProperties.BeforeEvaluateFailureSkipsTheRest | subprojects/core/src/main/java/org/gradle/configuration/project/LifecycleProjectEvaluator.java:55-60 | after a before-hook exception, the exact timeline shows: the wrapped failure is recorded; the before-hooks operation sets no result; the delegate is never called; executing is never set; the after-hooks operation never runs; evaluate throws the failure |
| LifecycleProperties.PhaseOrder | subprojects/core/src/main/java/org/gradle/configuration/project/LifecycleProjectEvaluator.java:55-72 | when the before-hooks pass, the exact timeline is: before-hooks operation with its result, delegate call made while executing with no failure, after-hooks operation with its dispatch steps and its result, end of the outer operation. Afterwards the project is executed and not executing |
| LifecycleProperties.DelegateRunsWhileExecuting | subprojects/core/src/main/java/org/gradle/configuration/project/LifecycleProjectEvaluator.java:62-69 | for a project not yet started, the delegate is called with the state executing and no failure; the history is executing set, the wrapped failure if the delegate threw (still executing), executing cleared, executed; nothing is logged |
| LifecycleProperties.AfterEvaluateRunsExactlyOnce | subprojects/core/src/main/java/org/gradle/configuration/project/LifecycleProjectEvaluator.java:62-71 | when the before-hooks pass, the delegate is called once and the after-hooks operation starts once and sets its result once, whether or not the delegate threw |
| LifecycleProperties.DelegateFailureIsTheRootCause | subprojects/core/src/main/java/org/gradle/configuration/project/LifecycleProjectEvaluator.java:63-109 | a delegate exception e becomes the recorded failure, with message "A problem occurred configuring <display name>." and cause e. It stays the failure when an after-hook throws too; that exception only adds one log entry. evaluate throws the recorded failure |
| LifecycleProperties.AfterEvaluateFailureBecomesTheFailure | subprojects/core/src/main/java/org/gradle/configuration/project/LifecycleProjectEvaluator.java:91-109 | with a passing delegate, the first failing after-evaluate batch's exception becomes the recorded failure, wrapped; nothing is logged |
| LifecycleProperties.NothingThrowsMeansSuccess | subprojects/core/src/main/java/org/gradle/configuration/project/LifecycleProjectEvaluator.java:122-125 | when nothing throws, no failure is recorded, nothing is logged and evaluate succeeds |
| LifecycleProperties.RecordedFailureIsKept | subprojects/core/src/main/java/org/gradle/configuration/project/LifecycleProjectEvaluator.java:91-102 | with a failure recorded, an after-evaluate exception leaves state and timeline unchanged and appends one log entry |
| LifecycleProperties.DispatchStopsAtFirstFailure | subprojects/core/src/main/java/org/gradle/configuration/project/LifecycleProjectEvaluator.java:84-87 | no batch after a failing batch is dispatched |
| LifecycleProperties.DispatchReachesEveryBatch | subprojects/core/src/main/java/org/gradle/configuration/project/LifecycleProjectEvaluator.java:76-88 | when no batch throws, every batch is dispatched |
| LifecycleProperties.OuterOperationReportsTheRecordedFailure | subprojects/core/src/main/java/org/gradle/configuration/project/LifecycleProjectEvaluator.java:122-126 | the outer operation starts first and ends last. It sets its result iff no failure is recorded, and otherwise reports and throws that failure. No earlier operation reports a failure, and no operation reports both a result and a failure |
| LifecycleProperties.DescriptionsAreDistinct | subprojects/core/src/main/java/org/gradle/configuration/project/LifecycleProjectEvaluator.java:129-190 | the outer operation is "Configure project <identity path>", category CONFIGURE_PROJECT, with the project and build paths as details. The hook operations are uncategorized with a progress display name. The three display names differ |
| Scenarios.DelegateAndAfterHookFail | subprojects/core/src/main/java/org/gradle/configuration/project/LifecycleProjectEvaluator.java:63-103 | delegate throws ErrA and the after-hook throws ErrB: the recorded failure wraps ErrA, and the log holds one entry carrying ErrB |
| Scenarios.BeforeHookFails | subprojects/core/src/main/java/org/gradle/configuration/project/LifecycleProjectEvaluator.java:55-60 | a before-hook throws ErrC: the recorded failure wraps ErrC, and neither the delegate nor the after-hooks operation runs |
| Scenarios.AllPhasesSucceed | subprojects/core/src/main/java/org/gradle/configuration/project/LifecycleProjectEvaluator.java:121-126 | when nothing throws, no failure is recorded, and the timeline holds the three operations with their results, in order |
| Scenarios.EvaluatingTwiceRunsOnce | subprojects/core/src/main/java/org/gradle/configuration/project/LifecycleProjectEvaluator.java:48-53 | a second evaluate of a project whose first evaluation failed returns normally and adds nothing |

## Left out

- The listener broadcaster is not modelled. That covers listener registration, delivery to each listener in order, and listeners that register listeners while they are notified. The before-evaluate broadcast is one outcome. The after-evaluate side is the sequence of batch outcomes that `stepEvaluationListener` would produce. The broadcaster's own implementation is not modelled.
- The delegate evaluator is only its outcome. Its own code is not modelled, so in the model it cannot change the project's state or register hooks.
- The build operation executor is reduced to the start and end events it reports. Timing, parent operations, progress events and the descriptor builder API are library plumbing.
- The log is a list of ERROR entries. SLF4J's formatting and appenders are left out.
- Only exceptions are caught in the source, not `java.lang.Error`. The model has a single kind of failure.
- Concurrent evaluation of different projects is left out. The model is sequential.
- `EclipseWtpPlugin.java` is Gradle plugin wiring. Its effect depends on the order in which the plugin container fires callbacks, which lies outside the evaluator. It is not part of this model.
