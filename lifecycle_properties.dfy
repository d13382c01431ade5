/**
  What the lifecycle promises, proved of the functions in module Lifecycle (and so,
  through the ensures of the class in module Evaluators, of the evaluator itself):
  the re-entrancy guard, the order of the phases, the short-circuit on a
  before-evaluate failure, which failure is recorded when several are thrown, how
  the after-evaluate dispatch stops, and what the outer operation reports.
*/
module LifecycleProperties {
  import opened Projects
  import opened Lifecycle

  /** A world in which `evaluate` does real work: the project's state has not been started. */
  predicate Fresh(w: World) {
    w.state.NotStarted() && w.state.Consistent()
  }

  // ---------------------------------------------------------------------------
  // The after-evaluate steps
  // ---------------------------------------------------------------------------

  /** The first n steps are recorded as the steps 0 .. n-1, in order, and as nothing else. */
  lemma {:induction false} StepEventsAreTheSteps(n: nat)
    ensures |StepEvents(n)| == n
    ensures forall k :: 0 <= k < n ==> StepEvents(n)[k] == AfterEvaluateStep(k)
  {
    if n > 0 {
      StepEventsAreTheSteps(n - 1);
    }
  }

  lemma StepEventsMembership(n: nat, ev: Event)
    ensures ev in StepEvents(n) <==> ev.AfterEvaluateStep? && ev.batch < n
  {
    StepEventsAreTheSteps(n);
    if ev.AfterEvaluateStep? && ev.batch < n {
      assert StepEvents(n)[ev.batch] == ev;
    }
  }

  // ---------------------------------------------------------------------------
  // The guard
  // ---------------------------------------------------------------------------

  /** evaluate returns at once when the project is being or has been evaluated: nothing is run, nothing changes. */
  lemma EvaluateIsANoOpOnceStarted(delegate: Project -> Outcome, p: Project, w: World)
    requires w.state.executed || w.state.executing
    ensures Evaluate(delegate, p, w) == Evaluation(w, Pass)
  {
  }

  /** A first evaluation leaves the project executed, so that a second one is a no-op. */
  lemma EvaluateRunsOnce(delegate: Project -> Outcome, p: Project, w: World, p': Project)
    requires Fresh(w)
    ensures var r := Evaluate(delegate, p, w).world;
      && r.state.executed && !r.state.executing && r.state.Consistent()
      && Evaluate(delegate, p', r) == Evaluation(r, Pass)
  {
    if p.beforeEvaluate.Pass? {
      PhaseOrder(delegate, p, w);
    }
  }

  // ---------------------------------------------------------------------------
  // Phases
  // ---------------------------------------------------------------------------

  /** A failing before-evaluate hook is recorded and ends the evaluation: its operation sets no
      result, the project is never marked executing, the delegate is not called and the
      after-evaluate operation does not run; the outer operation fails with the recorded failure. */
  lemma BeforeEvaluateFailureSkipsTheRest(delegate: Project -> Outcome, p: Project, w: World, e: Error)
    requires Fresh(w) && p.beforeEvaluate == Fail(e)
    ensures var r := Evaluate(delegate, p, w);
      var f := ConfigurationFailure(p, e);
      var cd, bd := ConfigureProjectDescription(p), BeforeEvaluateHooksDescription(p);
      && r.world.state == StateValue(false, true, Some(f))
      && r.world.history == w.history + [StateValue(false, true, Some(f))]
      && r.world.events == w.events + [Started(cd), Started(bd), BeforeEvaluateBroadcast, Finished(bd, None, None), Finished(cd, None, Some(f))]
      && r.world.log == w.log
      && r.outcome == Fail(f)
  {
    var cd, bd := ConfigureProjectDescription(p), BeforeEvaluateHooksDescription(p);
    var b := ExecuteBeforeEvaluateHooks(p, w.Emit([Started(cd)]));
    assert b.world.events == w.events + [Started(cd), Started(bd), BeforeEvaluateBroadcast, Finished(bd, None, None)];
  }

  /** Once the before-evaluate hooks pass, the phases run in this order: the before-evaluate
      operation with its result, the delegate (called while the project is executing and has no
      failure recorded), the after-evaluate operation with the steps of
      its dispatch and its result, and the end of the outer operation. Afterwards the project
      is executed and no longer executing. */
  lemma PhaseOrder(delegate: Project -> Outcome, p: Project, w: World)
    requires Fresh(w) && p.beforeEvaluate.Pass?
    ensures var r := Evaluate(delegate, p, w).world;
      var d := DispatchFrom(p.afterEvaluateBatches, 0);
      var f := r.state.failure;
      var cd, bd, ad := ConfigureProjectDescription(p), BeforeEvaluateHooksDescription(p), AfterEvaluateHooksDescription(p);
      && r.events == w.events
        + [Started(cd), Started(bd), BeforeEvaluateBroadcast, Finished(bd, Some(BeforeEvaluatedResult), None), DelegateEvaluate(StateValue(true, false, None)), Started(ad)]
        + StepEvents(d.steps)
        + [Finished(ad, Some(AfterEvaluatedResult), None), Finished(cd, if f.None? then Some(ConfigureProjectResult) else None, f)]
      && r.state.executed && !r.state.executing && r.state.Consistent()
  {
    var cd, bd, ad := ConfigureProjectDescription(p), BeforeEvaluateHooksDescription(p), AfterEvaluateHooksDescription(p);
    var d := DispatchFrom(p.afterEvaluateBatches, 0);
    var b := ExecuteBeforeEvaluateHooks(p, w.Emit([Started(cd)]));
    var m := EvaluateWithDelegate(delegate, p, b.world);
    var head := [Started(cd), Started(bd), BeforeEvaluateBroadcast, Finished(bd, Some(BeforeEvaluatedResult), None), DelegateEvaluate(StateValue(true, false, None))];
    assert m.events == w.events + head;
    assert m.state.executed && !m.state.executing;
    var n := NotifyAfterEvaluate(p, m.Emit([Started(ad)]));
    assert n.events == w.events + head + [Started(ad)] + StepEvents(d.steps);
    assert n.state.executed && !n.state.executing && n.state.Consistent();
  }

  /** The delegate step of a project not yet started: the project is marked executing before the
      call and the call sees that state; a failure it throws is recorded while the project is still
      executing; then executing is cleared and the project is marked executed. */
  lemma DelegateRunsWhileExecuting(delegate: Project -> Outcome, p: Project, w: World)
    requires w.state == Unconfigured
    ensures var r := EvaluateWithDelegate(delegate, p, w);
      var failed := delegate(p).Fail?;
      var f := if failed then Some(ConfigurationFailure(p, delegate(p).error)) else None;
      && r.events == w.events + [DelegateEvaluate(StateValue(true, false, None))]
      && r.history == w.history + [StateValue(true, false, None)]
        + (if failed then [StateValue(true, true, f)] else [])
        + [StateValue(false, failed, f), StateValue(false, true, f)]
      && r.state == StateValue(false, true, f)
      && r.log == w.log
  {
  }

  /** Once the before-evaluate hooks pass, the delegate is called once and the after-evaluate
      operation runs once and sets its result, whatever the delegate and the hooks throw. */
  lemma AfterEvaluateRunsExactlyOnce(delegate: Project -> Outcome, p: Project, w: World)
    requires Fresh(w) && p.beforeEvaluate.Pass?
    ensures var r := Evaluate(delegate, p, w).world;
      var ad := AfterEvaluateHooksDescription(p);
      var added := multiset(r.events) - multiset(w.events);
      && added[DelegateEvaluate(StateValue(true, false, None))] == 1
      && added[Started(ad)] == 1
      && added[Finished(ad, Some(AfterEvaluatedResult), None)] == 1
  {
    PhaseOrder(delegate, p, w);
    var r := Evaluate(delegate, p, w).world;
    DescriptionsAreDistinct(p);
    PhasesOccurOnce(w.events, ConfigureProjectDescription(p), BeforeEvaluateHooksDescription(p),
      AfterEvaluateHooksDescription(p), DispatchFrom(p.afterEvaluateBatches, 0).steps, r.state.failure, r.events);
  }

  /** In a timeline laid out as PhaseOrder says, the delegate call and the start and the end of
      the after-evaluate operation each occur once among the added events. */
  lemma PhasesOccurOnce(before: seq<Event>, cd: Descriptor, bd: Descriptor, ad: Descriptor, n: nat,
                        f: Option<Error>, events: seq<Event>)
    requires ad != cd && ad != bd
    requires events == before
        + [Started(cd), Started(bd), BeforeEvaluateBroadcast, Finished(bd, Some(BeforeEvaluatedResult), None), DelegateEvaluate(StateValue(true, false, None)), Started(ad)]
        + StepEvents(n)
        + [Finished(ad, Some(AfterEvaluatedResult), None), Finished(cd, if f.None? then Some(ConfigureProjectResult) else None, f)]
    ensures var added := multiset(events) - multiset(before);
      && added[DelegateEvaluate(StateValue(true, false, None))] == 1
      && added[Started(ad)] == 1
      && added[Finished(ad, Some(AfterEvaluatedResult), None)] == 1
  {
    var head := [Started(cd), Started(bd), BeforeEvaluateBroadcast, Finished(bd, Some(BeforeEvaluatedResult), None), DelegateEvaluate(StateValue(true, false, None)), Started(ad)];
    var tail := [Finished(ad, Some(AfterEvaluatedResult), None), Finished(cd, if f.None? then Some(ConfigureProjectResult) else None, f)];
    assert events == before + head + StepEvents(n) + tail;
    AddedOnce(before, head, n, tail, DelegateEvaluate(StateValue(true, false, None)));
    AddedOnce(before, head, n, tail, Started(ad));
    AddedOnce(before, head, n, tail, Finished(ad, Some(AfterEvaluatedResult), None));
  }

  /** An event that is no step and occurs once in the fixed parts is added exactly once. */
  lemma AddedOnce(before: seq<Event>, head: seq<Event>, n: nat, tail: seq<Event>, x: Event)
    requires !x.AfterEvaluateStep?
    requires multiset(head)[x] + multiset(tail)[x] == 1
    ensures (multiset(before + head + StepEvents(n) + tail) - multiset(before))[x] == 1
  {
    StepEventsMembership(n, x);
    assert multiset(before + head + StepEvents(n) + tail) == multiset(before) + multiset(head) + multiset(StepEvents(n)) + multiset(tail);
  }

  // ---------------------------------------------------------------------------
  // Which failure is recorded
  // ---------------------------------------------------------------------------

  /** A delegate failure does not escape: it is recorded, wrapped, as the project's failure, and
      stays the recorded failure when an after-evaluate hook throws too; that second exception
      only adds one entry to the log. The outer operation fails with the recorded failure. */
  lemma DelegateFailureIsTheRootCause(delegate: Project -> Outcome, p: Project, w: World, e: Error)
    requires Fresh(w) && p.beforeEvaluate.Pass? && delegate(p) == Fail(e)
    ensures var r := Evaluate(delegate, p, w);
      var f := ProjectConfigurationException("A problem occurred configuring " + p.displayName + ".", e);
      var d := DispatchFrom(p.afterEvaluateBatches, 0);
      && r.world.state.failure == Some(f)
      && r.outcome == Fail(f)
      && r.world.log == w.log + (if d.thrown.Some? then [AfterEvaluateFailureEntry(p.showStacktrace, d.thrown.value)] else [])
  {
  }

  /** With a delegate that passes, the first exception thrown by an after-evaluate batch becomes
      the project's failure and nothing is logged. */
  lemma AfterEvaluateFailureBecomesTheFailure(delegate: Project -> Outcome, p: Project, w: World, i: nat)
    requires Fresh(w) && p.beforeEvaluate.Pass? && delegate(p).Pass?
    requires i < |p.afterEvaluateBatches| && p.afterEvaluateBatches[i].Fail?
    requires forall j :: 0 <= j < i ==> p.afterEvaluateBatches[j].Pass?
    ensures var r := Evaluate(delegate, p, w);
      var f := ConfigurationFailure(p, p.afterEvaluateBatches[i].error);
      && r.world.state.failure == Some(f)
      && r.outcome == Fail(f)
      && r.world.log == w.log
  {
    var d := DispatchFrom(p.afterEvaluateBatches, 0);
    assert d.steps == i + 1;
  }

  /** When nothing throws, no failure is recorded, nothing is logged and evaluate succeeds. */
  lemma NothingThrowsMeansSuccess(delegate: Project -> Outcome, p: Project, w: World)
    requires Fresh(w) && p.beforeEvaluate.Pass? && delegate(p).Pass?
    requires forall j :: 0 <= j < |p.afterEvaluateBatches| ==> p.afterEvaluateBatches[j].Pass?
    ensures var r := Evaluate(delegate, p, w);
      && r.world.state == StateValue(false, true, None)
      && r.world.log == w.log
      && r.outcome == Pass
  {
  }

  /** The handler of an after-evaluate failure never replaces a recorded failure: it logs. */
  lemma RecordedFailureIsKept(p: Project, w: World, e: Error)
    requires w.state.failure.Some?
    ensures OnAfterEvaluateFailure(p, w, e) == w.(log := w.log + [AfterEvaluateFailureEntry(p.showStacktrace, e)])
  {
  }

  // ---------------------------------------------------------------------------
  // The after-evaluate dispatch
  // ---------------------------------------------------------------------------

  /** No batch after the first one that throws is dispatched. */
  lemma DispatchStopsAtFirstFailure(delegate: Project -> Outcome, p: Project, w: World, i: nat)
    requires Fresh(w) && p.beforeEvaluate.Pass?
    requires i < |p.afterEvaluateBatches| && p.afterEvaluateBatches[i].Fail?
    ensures var r := Evaluate(delegate, p, w).world;
      forall j: nat :: AfterEvaluateStep(j) in r.events ==> AfterEvaluateStep(j) in w.events || j <= i
  {
    PhaseOrder(delegate, p, w);
    var d := DispatchFrom(p.afterEvaluateBatches, 0);
    assert d.steps <= i + 1;
    forall j: nat | AfterEvaluateStep(j) in StepEvents(d.steps) ensures j <= i {
      StepEventsMembership(d.steps, AfterEvaluateStep(j));
    }
  }

  /** When no batch throws, the stepper is followed to the last batch: every batch is dispatched. */
  lemma DispatchReachesEveryBatch(delegate: Project -> Outcome, p: Project, w: World)
    requires Fresh(w) && p.beforeEvaluate.Pass?
    requires forall j :: 0 <= j < |p.afterEvaluateBatches| ==> p.afterEvaluateBatches[j].Pass?
    ensures var r := Evaluate(delegate, p, w).world;
      forall j :: 0 <= j < |p.afterEvaluateBatches| ==> AfterEvaluateStep(j) in r.events
  {
    PhaseOrder(delegate, p, w);
    var d := DispatchFrom(p.afterEvaluateBatches, 0);
    forall j | 0 <= j < |p.afterEvaluateBatches| ensures AfterEvaluateStep(j) in StepEvents(d.steps) {
      StepEventsMembership(d.steps, AfterEvaluateStep(j));
    }
  }

  // ---------------------------------------------------------------------------
  // The outer operation
  // ---------------------------------------------------------------------------

  /** The outer operation sets its result exactly when no failure is recorded after configuring,
      and otherwise fails with that failure, which evaluate throws; no operation reports a
      failure before it, and none reports both a result and a failure. */
  lemma OuterOperationReportsTheRecordedFailure(delegate: Project -> Outcome, p: Project, w: World)
    requires Fresh(w)
    ensures var r := Evaluate(delegate, p, w);
      var ev := r.world.events;
      var f := r.world.state.failure;
      var cd := ConfigureProjectDescription(p);
      && |ev| > |w.events| + 1
      && ev[|w.events|] == Started(cd)
      && ev[|ev| - 1] == Finished(cd, if f.None? then Some(ConfigureProjectResult) else None, f)
      && (r.outcome.Pass? <==> f.None?)
      && (f.Some? ==> r.outcome == Fail(f.value))
      && (forall k :: |w.events| <= k < |ev| - 1 ==> ev[k].Finished? ==> ev[k].failure.None?)
      && (forall k :: |w.events| <= k < |ev| ==> ev[k].Finished? ==> ev[k].result.None? || ev[k].failure.None?)
  {
    var cd := ConfigureProjectDescription(p);
    if p.beforeEvaluate.Pass? {
      PhaseOrder(delegate, p, w);
      var d := DispatchFrom(p.afterEvaluateBatches, 0);
      StepEventsAreTheSteps(d.steps);
    } else {
      BeforeEvaluateFailureSkipsTheRest(delegate, p, w, p.beforeEvaluate.error);
    }
  }

  /** The descriptions: the outer operation is "Configure project <identity path>" with category
      CONFIGURE_PROJECT, the hook operations are uncategorized and carry a progress display name,
      and the three display names differ from one another. */
  lemma DescriptionsAreDistinct(p: Project)
    ensures var cd, bd, ad := ConfigureProjectDescription(p), BeforeEvaluateHooksDescription(p), AfterEvaluateHooksDescription(p);
      && cd.displayName == "Configure project " + p.identityPath && cd.category == ConfigureProjectCategory
      && cd.details == ConfigureProjectDetails(p.projectPath, p.buildIdentityPath)
      && bd.category == Uncategorized && bd.progressDisplayName.Some?
      && ad.category == Uncategorized && ad.progressDisplayName.Some?
      && cd.displayName != bd.displayName && cd.displayName != ad.displayName && bd.displayName != ad.displayName
  {
    var cd, bd, ad := ConfigureProjectDescription(p), BeforeEvaluateHooksDescription(p), AfterEvaluateHooksDescription(p);
    assert cd.displayName[1] == 'o' && bd.displayName[1] == 'x' && ad.displayName[1] == 'x';
    assert bd.displayName[8] == 'b' && ad.displayName[8] == 'a';
  }
}
