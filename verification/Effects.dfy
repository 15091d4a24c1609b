/** What executing any decision can do to the cluster, and what it achieves when nobody interferes. */
module Effects {
  import opened Results
  import opened Text
  import opened Model
  import opened Policy
  import opened Deployments
  import opened Histories
  import opened Cluster
  import opened Naming
  import opened Oom
  import opened Execution
  import opened Dispatch

  // ---- what any decision can do ------------------------------------------------------------------

  /** The gates a change of each part of a Deployment has passed, in terms of the decision as proposed. */
  predicate Gated(before: Dep, after: Dep, d: Decision, cfg: AgentConfig, reason: string, extra: string)
  {
    && SameShape(before, after)
    && (RestartStamped(before, after) ==>
          d.action.RestartDeployment? && !IsUnhealthy(reason) && !IsFailedScheduling(reason) && !ShowsOOM(extra))
    && (ReplicasChanged(before, after) ==>
          d.action.ScaleDeployment? && !IsFailedScheduling(reason)
          && after.replicas.Some? && after.replicas == Atoi(Param(d.parameters, "replicas"))
          && cfg.minScale <= after.replicas.value <= cfg.maxScale)
    && (ProbesChanged(before, after) ==>
          cfg.allowPatchProbe && AllowsPatch(before, "probe")
          && (|| (d.action.PatchProbe? && d.confidence >= cfg.patchConfidenceThreshold)
              || (d.action.RestartDeployment? && IsUnhealthy(reason))))
    && (ResourcesChanged(before, after) ==>
          cfg.allowPatchResources && AllowsPatch(before, "resources")
          && (|| (d.action.PatchResources? && d.confidence >= cfg.patchConfidenceThreshold)
              || (d.action.RestartDeployment? && ShowsOOM(extra))))
    && (ImagesChanged(before, after) ==>
          || (cfg.allowImageUpdates && d.action.SetDeploymentImage? && d.confidence >= cfg.imageUpdateThreshold)
          || (cfg.allowPatchRegistry && AllowsPatch(before, "registry")
              && d.action.PatchRegistry? && d.confidence >= cfg.patchConfidenceThreshold))
  }

  /** An act that respects every gate and stays on target. */
  predicate Legitimate(act: Act, d: Decision, cfg: AgentConfig, reason: string, extra: string)
  {
    match act
    case DeletedPod(key, force) =>
      && key == Key(d.namespace, d.resourceName) && EqualFold(d.resourceKind, "Pod")
      && (if force then d.action.DeleteAndRecreate? else d.action.DeleteFailedPod?)
    case Wrote(c) =>
      && c.key.ns == d.namespace && (Pinned(d) != "" ==> c.key.name == Pinned(d))
      && c.before.Some? && c.after.Some? && Gated(c.before.value, c.after.value, d, cfg, reason, extra)
  }

  lemma ScaledTo(before: Dep, mu: Mutation, at: string, after: Dep)
    requires Mutated(before, mu, at) == Ok(after) && mu.Scale?
    ensures after.replicas == Some(mu.replicas)
  {
  }

  /** Whatever a cleared decision covers is legitimate for the decision it was cleared from. */
  lemma CoveredIsLegitimate(act: Act, d: Decision, d': Decision, cx: Context, reason: string, extra: string)
    requires Cleared(d, d', cx, reason, extra) && Covered(act, d', cx.cfg)
    ensures Legitimate(act, d, cx.cfg, reason, extra)
  {
    hide IsUnhealthy, IsFailedScheduling, ShowsOOM, TrimSpace, ToLower, AllowsPatch, Mutated, Atoi, FieldsAsked,
         ProbeAsked, SameShape, ImagesChanged, ProbesChanged, ResourcesChanged, RestartStamped, ReplicasChanged;
    if act.Wrote? {
      var c := act.commit;
      EffectsOf(c.before.value, c.writer.mu, c.writer.at, c.after.value);
      if c.writer.mu.Scale? {
        ScaledTo(c.before.value, c.writer.mu, c.writer.at, c.after.value);
      }
    }
  }

  /** What the cluster sees of an execution: nothing on failure or in a dry run, else at most one legitimate act. */
  predicate Executed(before: seq<Act>, after: seq<Act>, d: Decision, cfg: AgentConfig, reason: string, extra: string,
                     err: Option<string>)
  {
    && (after == before
        || (|after| == |before| + 1 && after[..|before|] == before
            && Legitimate(after[|before|], d, cfg, reason, extra)))
    && (err.Some? || cfg.dryRun ==> after == before)
    && (err.None? && !cfg.dryRun && ChangesDeployment(d.action) ==> |after| == |before| + 1)
  }

  /** The act carries out what the decision became, down to every parameter written. */
  ghost predicate Explains(act: Act, d: Decision, d': Decision, cx: Context, reason: string, extra: string,
                           history: seq<World>, since: nat)
  {
    && Became(d, d', cx, history, since)
    && Passes(d', cx)
    && Covered(act, d', cx.cfg)
    && Planned(act, d', cx, reason, extra, history, since)
  }

  ghost predicate HasReason(act: Act, d: Decision, cx: Context, reason: string, extra: string, history: seq<World>,
                            since: nat)
  {
    exists d' :: Explains(act, d, d', cx, reason, extra, history, since)
  }

  /**
   An image that is set is the one proposed or, where none was, derived from the container meant in a Deployment
   aimed at.
   */
  lemma ImageIsProposedOrDerived(act: Act, d: Decision, d': Decision, cx: Context, reason: string, extra: string,
                                 history: seq<World>, since: nat)
    requires Explains(act, d, d', cx, reason, extra, history, since)
    requires act.Wrote? && act.commit.writer.Agent? && act.commit.writer.mu.SetImage?
    ensures TrimSpace(act.commit.writer.mu.image) != "" && cx.validImage(act.commit.writer.mu.image)
    ensures act.commit.writer.mu.container == Param(d.parameters, "container")
    ensures var image := act.commit.writer.mu.image;
      || image == Param(d.parameters, "image")
      || (LacksImage(d, cx.cfg)
          && exists key, dep :: Held(history, since, key, dep) && DerivedFrom(d, cx, image, key, dep))
  {
    hide DerivedFrom, LacksImage, TrimSpace, IsChange, Held, EscalatedToProbe, EscalatedToResources, Supplied,
         MeantProbe, Timings, Plan;
    assert "image" != "container" by { assert |"image"| == 5 && |"container"| == 9; }
    var to := d'.parameters;
    assert to != d.parameters ==> to == d.parameters["image" := Param(to, "image")];
  }

  /** What is written is what the decision said when it was proposed, unless it was a restart that became a patch. */
  lemma WrittenAsAsked(act: Act, d: Decision, d': Decision, cx: Context, reason: string, extra: string,
                       history: seq<World>, since: nat)
    requires Explains(act, d, d', cx, reason, extra, history, since) && act.Wrote? && act.commit.writer.Agent?
    ensures match act.commit.writer.mu
      case Restart => d.action.RestartDeployment?
      case Scale(n) => d.action.ScaleDeployment? && Atoi(Param(d.parameters, "replicas")) == Some(n)
      case SetImage(_, container) => d.action.SetDeploymentImage? && container == Param(d.parameters, "container")
      case Retime(container, probe, fields) =>
        || (d.action.PatchProbe? && FieldsAsked(d.parameters, fields) && ProbeAsked(d.parameters, container, probe))
        || (d.action.RestartDeployment? && cx.cfg.allowPatchProbe)
      case Resize(container, request) =>
        || (d.action.PatchResources? && container == Param(d.parameters, "container")
            && exists seen: Option<Dep> ::
                 && (seen.Some? ==> Held(history, since, act.commit.key, seen.value))
                 && request == RequestOf(cx.text, Supplied(cx.text, d.parameters, reason, extra, seen)))
        || (d.action.RestartDeployment? && cx.cfg.allowPatchResources)
      case MoveRegistry(container, registry) =>
        && d.action.PatchRegistry?
        && container == Param(d.parameters, "container") && registry == Param(d.parameters, "new_registry")
  {
    hide DerivedFrom, TrimSpace, IsChange, Held, EscalatedToProbe, EscalatedToResources, Supplied,
         RequestOf, FieldsAsked, ProbeAsked, Atoi, MeantProbe, Timings, AllowsPatch, ChooseProbe, ReplicasAsked;
    match act.commit.writer.mu {
      case Resize(_, _) =>
        assert d.action.PatchResources? ==> d' == d;
      case SetImage(_, _) => ImageIsProposedOrDerived(act, d, d', cx, reason, extra, history, since);
      case _ =>
    }
  }

  /**
   How executing a decision ends in an undisturbed cluster: refused by a guard, or carried out as what the guards
   made of it.
   */
  ghost predicate Undisturbed(before: seq<Act>, after: seq<Act>, err: Option<string>, d: Decision, cx: Context,
                              reason: string, extra: string, w: World)
  {
    exists r: Option<Decision> ::
      && ScreensTo(d, r, cx, reason, extra, w)
      && if r.None? then err.Some? && after == before else Done(before, after, err, r.value, cx, reason, extra, w)
  }

  /**
   While others only write Deployments and no request fails: the guards saw one moment, and what they passed was
   done.
   */
  ghost predicate RemediedSparedly(run: Course, d: Decision, cx: Context, reason: string, extra: string,
                                   err: Option<string>)
    requires run.start.history != []
  {
    exists i, r: Option<Decision> ::
      |run.start.history| - 1 <= i < |run.end.history| && ScreenedAt(run, d, cx, reason, extra, err, i, r)
  }

  ghost predicate ScreenedAt(run: Course, d: Decision, cx: Context, reason: string, extra: string, err: Option<string>,
                             i: nat, r: Option<Decision>)
    requires run.start.history != [] && i < |run.end.history|
  {
    && ScreensTo(d, r, cx, reason, extra, run.end.history[i])
    && if r.None? then err.Some? else DoneSpared(run, r.value, cx, reason, extra, err)
  }

  /** What executing any decision promises. */
  ghost predicate Remedies(run: Course, d: Decision, cx: Context, reason: string, extra: string, err: Option<string>)
  {
    var before, after, since := run.start.acts, run.end.acts, |run.start.history| - 1;
    && Harmless(run, cx.cfg, err)
    && Executed(before, after, d, cx.cfg, reason, extra, err)
    && (|after| > |before| ==> HasReason(after[|before|], d, cx, reason, extra, run.end.history, since))
    && (run.start.turns == [] ==> Undisturbed(before, after, err, d, cx, reason, extra, run.start.world))
    && (Spares(run.start.turns) ==> RemediedSparedly(run, d, cx, reason, extra, err))
    && (err.Some? ==> Faulted(run.end.taken, |run.start.taken|) || Excused(run, d, cx, reason, extra))
  }

  /** A failure has its cause: a guard refused, or what the guards passed could not be done. */
  ghost predicate Excused(run: Course, d: Decision, cx: Context, reason: string, extra: string)
    requires run.start.history != []
  {
    var history, since := run.end.history, |run.start.history| - 1;
    || ScreenedOut(d, cx, reason, extra, history, since)
    || exists d' :: Became(d, d', cx, history, since) && FailedForCause(run, d', cx, reason, extra)
  }

  lemma GuardRefused(run: Course, d: Decision, d': Decision, cx: Context, reason: string, extra: string,
                     err: Option<string>)
    requires Screened(run.start, run.end, d, d', cx, reason, extra, err) && err.Some?
    ensures Remedies(run, d, cx, reason, extra, err)
  {
    hide ScreensTo, Legitimate, Done, OnlyOthers, ScreenedOut, Faulted, Cleared, Became, HasReason, DoneSpared,
         FailedForCause;
    assert Spares([]);
    hide Spares;
    if Spares(run.start.turns) {
      var r: Option<Decision>, i := Option.None, |run.end.history| - 1;
      assert ScreenedAt(run, d, cx, reason, extra, err, i, r);
      assert run.start.turns == [] ==> ScreensTo(d, r, cx, reason, extra, run.start.world);
    }
  }

  /** What passed the guards was performed, and both happened in this course of the cluster. */
  ghost predicate Went(run: Course, read: Ledger, d: Decision, d': Decision, cx: Context, reason: string, extra: string,
                       err: Option<string>)
  {
    && Screened(run.start, read, d, d', cx, reason, extra, Option.None)
    && Performs(Course(read, run.end), d', cx, reason, extra, err)
  }

  lemma RemediedActs(run: Course, read: Ledger, d: Decision, d': Decision, cx: Context, reason: string, extra: string,
                     err: Option<string>)
    requires Went(run, read, d, d', cx, reason, extra, err) && run.start.history != []
    ensures Harmless(run, cx.cfg, err)
    ensures Executed(run.start.acts, run.end.acts, d, cx.cfg, reason, extra, err)
    ensures Became(d, d', cx, run.end.history, |run.start.history| - 1)
    ensures |run.end.acts| > |run.start.acts| ==>
      HasReason(run.end.acts[|run.start.acts|], d, cx, reason, extra, run.end.history, |run.start.history| - 1)
  {
    hide IsUnhealthy, IsFailedScheduling, ShowsOOM, Covered, Legitimate, Became, Planned, BlockUnsafePatch,
         BlockUnsafeImageUpdate, ScreensTo, Done, DoneSpared, SameAim, OnlyOthers, FailedForCause, Faulted, Explains,
         Passes, Spares, ScreenedOut;
    HarmlessSince(run.start, Course(read, run.end), cx.cfg, err);
    BecameLonger(d, d', cx, read.history, |run.start.history| - 1, run.end.history, |run.start.history| - 1);
    if |run.end.acts| > |run.start.acts| {
      CoveredIsLegitimate(run.end.acts[|run.start.acts|], d, d', cx, reason, extra);
      ExplainedSince(run, read, d, d', cx, reason, extra);
    }
  }

  lemma RemediedInCalm(run: Course, read: Ledger, d: Decision, d': Decision, cx: Context, reason: string, extra: string,
                       err: Option<string>)
    requires Went(run, read, d, d', cx, reason, extra, err) && run.start.history != []
    ensures run.start.turns == [] ==>
      Undisturbed(run.start.acts, run.end.acts, err, d, cx, reason, extra, run.start.world)
    ensures Spares(run.start.turns) ==> RemediedSparedly(run, d, cx, reason, extra, err)
  {
    hide Cleared, Covered, Legitimate, Became, Planned, ScreensTo, Done, DoneSpared, OnlyOthers, FailedForCause,
         Faulted, Acted, ScreenedOut;
    assert Spares([]);
    hide Spares;
    if run.start.turns == [] {
      var r := Some(d');
      assert ScreensTo(d, r, cx, reason, extra, run.start.world);
    }
    if Spares(run.start.turns) {
      DoneSparedSince(run.start, Course(read, run.end), d', cx, reason, extra, err);
      assert ScreenedAt(run, d, cx, reason, extra, err, |read.history| - 1, Some(d'));
    }
  }

  lemma RemediedForCause(run: Course, read: Ledger, d: Decision, d': Decision, cx: Context, reason: string,
                         extra: string, err: Option<string>)
    requires Went(run, read, d, d', cx, reason, extra, err) && run.start.history != [] && err.Some?
    requires Became(d, d', cx, run.end.history, |run.start.history| - 1)
    ensures Faulted(run.end.taken, |run.start.taken|) || Excused(run, d, cx, reason, extra)
  {
    hide Cleared, Covered, Legitimate, Became, Planned, ScreensTo, Done, DoneSpared, OnlyOthers, FailedForCause,
         Faulted, Acted, ScreenedOut, Spares;
    FaultedLonger(run.end.taken, |read.taken|, run.end.taken, |run.start.taken|);
    if FailedForCause(Course(read, run.end), d', cx, reason, extra) {
      FailedSince(run.start, Course(read, run.end), d', cx, reason, extra);
    }
  }

  lemma Remedied(run: Course, read: Ledger, d: Decision, d': Decision, cx: Context, reason: string, extra: string,
                 err: Option<string>)
    requires Went(run, read, d, d', cx, reason, extra, err) && run.start.history != []
    ensures Remedies(run, d, cx, reason, extra, err)
  {
    hide Went, Harmless, Executed, HasReason, Became, Undisturbed, RemediedSparedly, Spares, Faulted, Excused;
    RemediedActs(run, read, d, d', cx, reason, extra, err);
    RemediedInCalm(run, read, d, d', cx, reason, extra, err);
    if err.Some? {
      RemediedForCause(run, read, d, d', cx, reason, extra, err);
    }
  }

  lemma ExplainedSince(run: Course, read: Ledger, d: Decision, d': Decision, cx: Context, reason: string, extra: string)
    requires OnlyRead(run.start, read) && |run.end.acts| > |run.start.acts|
    requires Became(d, d', cx, run.end.history, |run.start.history| - 1)
    requires Passes(d', cx) && Covered(run.end.acts[|run.start.acts|], d', cx.cfg)
    requires Planned(run.end.acts[|run.start.acts|], d', cx, reason, extra, run.end.history, |read.history| - 1)
    ensures Explains(run.end.acts[|run.start.acts|], d, d', cx, reason, extra, run.end.history, |run.start.history| - 1)
  {
    hide Became, Planned, Covered, Passes, Spares, OnlyOthers;
    PlannedLonger(run.end.acts[|run.start.acts|], d', cx, reason, extra, run.end.history, |read.history| - 1,
                  run.end.history, |run.start.history| - 1);
  }

  lemma HarmlessSince(a: Ledger, run: Course, cfg: AgentConfig, err: Option<string>)
    requires OnlyRead(a, run.start) && Harmless(run, cfg, err)
    ensures Harmless(Course(a, run.end), cfg, err)
  {
    hide Spares, OnlyOthers;
    if run.end.acts == run.start.acts {
      CalmThen(a, run.start, run.end);
    }
  }

  lemma Started(a: Ledger, b: Ledger, d: Decision, d': Decision, cx: Context, reason: string, extra: string)
    requires Screened(a, b, d, d', cx, reason, extra, Option.None)
    ensures a.history != []
  {
    hide Cleared, Became, ScreensTo, ScreenedOut, Faulted, Spares, OnlyOthers;
  }

  method ExecuteDecision(api: ApiServer, d: Decision, cx: Context, reason: string,
                         extra: string) returns (err: Option<string>)
    requires api.Valid()
    modifies api
    ensures api.Valid() && Remedies(CourseOf(api), d, cx, reason, extra, err)
  {
    hide Screened, Performs, Remedies, ApiServer.Valid;
    var d';
    d', err := Screen(api, d, cx, reason, extra);
    if err.Some? {
      GuardRefused(CourseOf(api), d, d', cx, reason, extra, err);
      return;
    }
    ghost var read := api.Books();
    err := Perform(api, d', cx, reason, extra);
    Started(CourseOf(api).start, read, d, d', cx, reason, extra);
    Remedied(CourseOf(api), read, d, d', cx, reason, extra, err);
  }

  // ---- what is achieved when nobody interferes -----------------------------------------------------

  /** One write that gives a container its new resources and touches nothing else. */
  predicate Resourced(before: seq<Act>, after: seq<Act>, key: Key, dep: Dep, idx: nat, r: Resources)
    requires idx < |dep.containers|
  {
    && |after| == |before| + 1 && after[..|before|] == before && after[|before|].Wrote?
    && var c := after[|before|].commit;
       && c.writer.Agent? && c.key == key && c.before == Some(dep) && c.after.Some?
       && c.after.value.containers == dep.containers[idx := dep.containers[idx].(resources := r)]
       && c.after.value.replicas == dep.replicas && c.after.value.annotations == dep.annotations
  }

  /** A resources patch is carried out exactly when the validator takes its parameters. */
  lemma ResizeIsCarriedOut(before: seq<Act>, after: seq<Act>, err: Option<string>, e: Decision, cx: Context,
                           reason: string, extra: string, w: World, key: Key, dep: Dep)
    requires Done(before, after, err, e, cx, reason, extra, w) && e.action.PatchResources? && !cx.cfg.dryRun
    requires ReadsTo(e, w) == Some((key, dep))
    ensures var params := Supplied(cx.text, e.parameters, reason, extra, Some(dep));
      var patch := Reresourced(dep, Param(params, "container"), RequestOf(cx.text, params));
      && (err.None? <==> patch.Ok?)
      && if patch.Ok? then Resourced(before, after, key, dep, patch.value.idx, patch.value.container.resources)
         else after == before
  {
    hide TargetName, Supplied, Reresourced, RequestOf, Mutated, Plan, TrimSpace, PodDone;
    PlanOfResize(e, cx, reason, extra, Some(dep));
    var params := Supplied(cx.text, e.parameters, reason, extra, Some(dep));
    ResizeMutates(dep, Param(params, "container"), RequestOf(cx.text, params), cx.now);
  }

  lemma PlanOfResize(e: Decision, cx: Context, reason: string, extra: string, seen: Option<Dep>)
    requires e.action.PatchResources?
    ensures Plan(e, cx, reason, extra,
                 seen) == Ok(ResizeTo(cx.text, Supplied(cx.text, e.parameters, reason, extra, seen)))
  {
    hide Supplied, ResizeTo, ReplicasAsked, MeantProbe, Timings;
  }

  lemma ResizeMutates(dep: Dep, container: string, request: ResourceRequest, at: string)
    ensures var patch := Reresourced(dep, container, request);
      var result := Mutated(dep, Mutation.Resize(container, request), at);
      if patch.Ok? then result == Ok(Changed(dep, patch.value, at)) else result.Err?
  {
    hide Reresourced;
  }

  /**
   A decision that is neither an escalated nor an incomplete one reaches execution as it is when the guards pass it.
   */
  lemma ScreenedAsIs(d: Decision, e: Decision, r: Option<Decision>, cx: Context, reason: string, extra: string,
                     w: World)
    requires ScreensTo(d, r, cx, reason, extra, w) && EscalatesTo(d, cx, reason, extra, w) == Some(e)
    requires IsPatch(e.action) && BlockUnsafePatch(e, cx.cfg).None?
    ensures r == Some(e)
  {
    hide EscalatesTo, IsFailedScheduling, TrimSpace;
  }

  /** An out-of-memory restart that has to be turned into a patch of an opted-in Deployment. */
  ghost predicate OomRestart(d: Decision, cx: Context, reason: string, extra: string, w: World, key: Key, dep: Dep)
  {
    && d.action.RestartDeployment? && ShowsOOM(extra) && !IsUnhealthy(reason)
    && !cx.cfg.dryRun && cx.cfg.allowPatchResources && ReadsBack(cx.text)
    && ReadsTo(d, w) == Some((key, dep)) && key.name != "" && Trimmed(key.name)
    && AllowsPatch(dep, "resources") && dep.containers != [] && Trimmed(dep.containers[0].name)
  }

  lemma EscalatedTarget(d: Decision, cx: Context, w: World, key: Key, dep: Dep)
    requires ReadsTo(d, w) == Some((key, dep)) && dep.containers != [] && key.name != "" && Trimmed(key.name)
    ensures ReadsTo(EscalatedToResources(d, cx.cfg, cx.text, dep, key.name), w) == Some((key, dep))
  {
    hide TrimSpace, Trimmed, OwnerOfPod, ToLower, BumpedLimit;
    var params := EscalatedToResources(d, cx.cfg, cx.text, dep, key.name).parameters;
    DistinctKeys();
    assert Param(params, "deployment_name") == key.name;
    TrimSpaceMeaning(key.name);
  }

  lemma EscalatesToPatch(d: Decision, cx: Context, reason: string, extra: string, w: World, key: Key, dep: Dep)
    requires OomRestart(d, cx, reason, extra, w, key, dep)
    ensures EscalatesTo(d, cx, reason, extra, w) == Some(EscalatedToResources(d, cx.cfg, cx.text, dep, key.name))
  {
    hide ReadsTo, AllowsPatch, ShowsOOM, IsUnhealthy, HasResourceParams, Ordinary, EscalatedToResources, Trimmed,
         ReadsBack;
  }

  lemma BumpedFirstLimit(containers: seq<Container>)
    requires containers != []
    ensures var limit := containers[0].resources.memoryLimit;
      var m := if limit.Some? then limit.value else 0;
      0 <= m <= 17_179_869_184_000 ==>
        BumpedLimit(LimitOf(containers, ""))
        == AtLeast(536_870_912_000, AtMost(4_000 * ((m + 999) / 1000), 17_179_869_184_000))
  {
    hide BumpedLimit, NamedOrFirst;
    EmptyReference(containers);
    var m := LimitOf(containers, "");
    if 0 <= m <= 17_179_869_184_000 {
      BumpedLimitMeaning(m);
    }
  }

  /**
   Undisturbed, the first container gets its raised limit, although a restart was asked for, exactly when what was
   left over fits.
   */
  lemma OomRestartIsCarriedOut(before: seq<Act>, after: seq<Act>, err: Option<string>, d: Decision, cx: Context,
                               reason: string, extra: string, w: World, key: Key, dep: Dep)
    requires Undisturbed(before, after, err, d, cx, reason, extra, w) && OomRestart(d, cx, reason, extra, w, key, dep)
    ensures var floor := BumpedLimit(LimitOf(dep.containers, ""));
      var limit := dep.containers[0].resources.memoryLimit;
      var m := if limit.Some? then limit.value else 0;
      && (0 <= m <= 17_179_869_184_000 ==>
            floor == AtLeast(536_870_912_000, AtMost(4_000 * ((m + 999) / 1000), 17_179_869_184_000)))
      && (err.None? <==> FitsRestart(dep.containers[0].resources, RequestOf(cx.text, d.parameters), floor))
      && if err.None? then exists r :: Resourced(before, after, key, dep, 0, r) && RaisedTo(r, floor)
         else after == before
  {
    hide ScreensTo, Done, ReadsTo, EscalatesTo, EscalatedParams, AllowsPatch, ShowsOOM, Reresourced, RequestOf,
         FloorParams, Resourced, BumpedLimit, LimitOf, RaisedTo, Trimmed, HasResourceParams, BlockUnsafePatch,
         FitsRestart;
    BumpedFirstLimit(dep.containers);
    var r: Option<Decision> :| ScreensTo(d, r, cx, reason, extra, w)
      && if r.None? then err.Some? && after == before else Done(before, after, err, r.value, cx, reason, extra, w);
    var e := EscalatedToResources(d, cx.cfg, cx.text, dep, key.name);
    EscalatesToPatch(d, cx, reason, extra, w, key, dep);
    EscalationPassesPatchGuard(d, cx.cfg, cx.text, dep, key.name, "", "");
    ScreenedAsIs(d, e, r, cx, reason, extra, w);
    EscalatedTarget(d, cx, w, key, dep);
    EscalatedRestartSucceedsExactly(cx.text, dep, d.parameters, key.name);
    assert Supplied(cx.text, e.parameters, reason, extra, Some(dep)) == e.parameters;
    ResizeIsCarriedOut(before, after, err, e, cx, reason, extra, w, key, dep);
  }

  /** A resources patch proposed during an out-of-memory incident, and everything that lets it succeed. */
  ghost predicate OomPatch(d: Decision, cx: Context, extra: string, w: World, key: Key, dep: Dep)
  {
    && d.action.PatchResources? && ShowsOOM(extra)
    && !cx.cfg.dryRun && cx.cfg.allowPatchResources && d.confidence >= cx.cfg.patchConfidenceThreshold
    && ReadsBack(cx.text)
    && ReadsTo(d, w) == Some((key, dep))
    && AllowsPatch(dep, "resources") && AsksForLittleMemory(cx.text, dep, d.parameters)
    && dep.containers != [] && PlainReference(dep.containers, Param(d.parameters, "container"))
    && Ordinary(dep.containers[NamedOrFirst(dep.containers, Param(d.parameters, "container"))].resources)
    && var request := ReadRaw(cx.text, d.parameters, "memory_request");
       request.Absent? || (request.Amount? && request.q >= 16_777_216_000)
  }

  lemma PatchIsNotEscalated(d: Decision, cx: Context, reason: string, extra: string, w: World)
    requires IsPatch(d.action)
    ensures EscalatesTo(d, cx, reason, extra, w) == Some(d)
  {
    hide ProbeEscalation, MemoryEscalation, IsUnhealthy, ShowsOOM;
  }

  /**
   Undisturbed, such a patch goes through: the limit of the container meant rises to the bumped one and never falls.
   */
  lemma OomPatchIsCarriedOut(before: seq<Act>, after: seq<Act>, err: Option<string>, d: Decision, cx: Context,
                             reason: string, extra: string,
                             w: World, key: Key, dep: Dep)
    requires Undisturbed(before, after, err, d, cx, reason, extra, w) && OomPatch(d, cx, extra, w, key, dep)
    ensures err.None?
    ensures var ref := Param(d.parameters, "container");
      var i, m := NamedOrFirst(dep.containers, ref), LimitOf(dep.containers, ref);
      exists r ::
        && Resourced(before, after, key, dep, i, r) && Consistent(r)
        && r.memoryLimit == Some(AtLeast(536_870_912_000, AtMost(4_000 * ((m + 999) / 1000), 17_179_869_184_000)))
        && r.memoryLimit.value >= m
  {
    hide ScreensTo, Done, ReadsTo, EscalatesTo, AllowsPatch, ShowsOOM, Reresourced, RequestOf, FloorParams, Resourced,
         BumpedLimit, LimitOf, Consistent, Ordinary, PlainReference, NamedOrFirst, AsksForLittleMemory, WholeUnits,
         ReadRaw, HasResourceParams;
    var r: Option<Decision> :| ScreensTo(d, r, cx, reason, extra, w)
      && if r.None? then err.Some? && after == before else Done(before, after, err, r.value, cx, reason, extra, w);
    PatchIsNotEscalated(d, cx, reason, extra, w);
    ScreenedAsIs(d, d, r, cx, reason, extra, w);
    OomPathSucceeds(cx.text, dep, d.parameters);
    assert Supplied(cx.text, d.parameters, reason, extra, Some(dep)) == FloorParams(cx.text, dep, d.parameters);
    ResizeIsCarriedOut(before, after, err, d, cx, reason, extra, w, key, dep);
  }

  /** A scaling and what it meets in an undisturbed cluster: the Deployment it means, and nothing against it. */
  predicate Scaling(d: Decision, cx: Context, reason: string, w: World, key: Key, dep: Dep)
  {
    && d.action.ScaleDeployment? && !IsFailedScheduling(reason) && !cx.cfg.dryRun
    && ReadsTo(d, w) == Some((key, dep))
  }

  /** A 32-bit number within the bounds of the operator. */
  predicate InRange(n: Option<int>, cfg: AgentConfig)
  {
    n.Some? && -0x8000_0000 <= n.value <= 0x7FFF_FFFF && cfg.minScale <= n.value <= cfg.maxScale
  }

  /** Undisturbed, the Deployment gets exactly the number of replicas asked for, or is left alone when that is none. */
  lemma ScaleIsCarriedOut(before: seq<Act>, after: seq<Act>, err: Option<string>, d: Decision, cx: Context,
                          reason: string, extra: string, w: World, key: Key, dep: Dep)
    requires Undisturbed(before, after, err, d, cx, reason, extra, w) && Scaling(d, cx, reason, w, key, dep)
    ensures var n := Atoi(Param(d.parameters, "replicas"));
      && (err.None? <==> InRange(n, cx.cfg))
      && if err.Some? then after == before
         else
           && |after| == |before| + 1 && after[..|before|] == before && after[|before|].Wrote?
           && var c := after[|before|].commit;
              && c.key == key && c.before == Some(dep) && c.after.Some?
              && c.after.value == dep.(replicas := n, lastChange := c.after.value.lastChange)
  {
    hide ScreensTo, ReadsTo, EscalatesTo, Atoi, Mutated, Plan, PodDone;
    var r: Option<Decision> :| ScreensTo(d, r, cx, reason, extra, w)
      && if r.None? then err.Some? && after == before else Done(before, after, err, r.value, cx, reason, extra, w);
    ScalingPasses(d, r, cx, reason, extra, w);
    ScalingPlanned(d, cx, reason, extra, Some(dep));
    ScalingMutates(dep, cx.now);
    ScalingDone(before, after, err, d, cx, reason, extra, w, key, dep);
  }

  lemma ScalingPasses(d: Decision, r: Option<Decision>, cx: Context, reason: string, extra: string, w: World)
    requires ScreensTo(d, r, cx, reason, extra, w) && d.action.ScaleDeployment? && !IsFailedScheduling(reason)
    ensures r == Some(d)
  {
    hide ProbeEscalation, MemoryEscalation, IsFailedScheduling, IsUnhealthy, ShowsOOM, TrimSpace;
  }

  lemma ScalingPlanned(d: Decision, cx: Context, reason: string, extra: string, seen: Option<Dep>)
    requires d.action.ScaleDeployment?
    ensures var n, plan := Atoi(Param(d.parameters, "replicas")), Plan(d, cx, reason, extra, seen);
      if InRange(n, cx.cfg) then plan == Ok(Mutation.Scale(n.value)) else plan.Err?
  {
    hide MeantProbe, Timings, Supplied, RequestOf, Atoi, TrimSpace;
  }

  lemma ScalingMutates(dep: Dep, at: string)
    ensures forall n :: (
      var result := Mutated(dep, Mutation.Scale(n), at);
      result.Ok? && result.value == dep.(replicas := Some(n), lastChange := result.value.lastChange))
  {
  }

  lemma ScalingDone(before: seq<Act>, after: seq<Act>, err: Option<string>, d: Decision, cx: Context, reason: string,
                    extra: string, w: World, key: Key, dep: Dep)
    requires Done(before, after, err, d, cx, reason, extra, w) && Scaling(d, cx, reason, w, key, dep)
    ensures var plan := Plan(d, cx, reason, extra, Some(dep));
      if plan.Err? then err.Some? && after == before else Settles(before, after, err, key, plan.value, cx, w)
    ensures key in w.deployments && w.deployments[key].dep == dep
  {
    hide TargetName, Plan, Settles, PodDone, IsFailedScheduling;
  }
}
