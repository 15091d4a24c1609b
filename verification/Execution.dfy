/**
 Executing a decision: guards, automatic escalation of restarts that cannot help,
 completion of missing parameters, and the change itself.
 */
module Execution {
  import opened Results
  import opened Text
  import opened Model
  import opened Policy
  import opened Versions
  import opened Images
  import opened Deployments
  import opened Histories
  import opened Cluster
  import opened Naming
  import opened Oom

  /** What an execution depends on besides the decision and the cluster. */
  datatype Context = Context(
    cfg: AgentConfig,
    text: QuantityText,
    validImage: string -> bool,       // the OCI grammar check
    tags: Option<seq<string>>,        // what the image's registry lists, None when it cannot be asked
    logsError: Option<string>,        // how reading pod logs fails, if it does
    now: string)                      // the time stamp put on changes

  // ---- escalation ------------------------------------------------------------------------

  /** Readiness before liveness, first container first. */
  function FirstWithProbe(containers: seq<Container>, kind: ProbeKind, from: nat := 0): (r: Option<nat>)
    requires from <= |containers|
    ensures r.Some? ==> from <= r.value < |containers| && ProbeOf(containers[r.value], kind).Some?
    ensures forall i :: from <= i < (if r.Some? then r.value else |containers|) ==> ProbeOf(containers[i], kind).None?
    decreases |containers| - from
  {
    if from == |containers| then None
    else if ProbeOf(containers[from], kind).Some? then Some(from)
    else FirstWithProbe(containers, kind, from + 1)
  }

  function ChooseProbe(dep: Dep): (r: Option<(string, string)>)
    ensures r.None? <==> forall c :: c in dep.containers ==> c.readiness.None? && c.liveness.None?
    ensures r.Some? ==> r.value.1 == "readiness" || r.value.1 == "liveness"
  {
    var ready, live := FirstWithProbe(dep.containers, Readiness), FirstWithProbe(dep.containers, Liveness);
    if ready.Some? then
      assert dep.containers[ready.value] in dep.containers;
      Some((dep.containers[ready.value].name, "readiness"))
    else if live.Some? then
      assert dep.containers[live.value] in dep.containers;
      Some((dep.containers[live.value].name, "liveness"))
    else None
  }

  /** The first container that has a probe of this kind. */
  ghost predicate FirstProbed(containers: seq<Container>, kind: ProbeKind, name: string)
  {
    exists i :: 0 <= i < |containers| && containers[i].name == name && ProbeOf(containers[i], kind).Some?
      && forall j :: 0 <= j < i ==> ProbeOf(containers[j], kind).None?
  }

  /** Readiness is preferred; liveness is chosen only when no container has a readiness probe. */
  lemma ChosenProbeMeaning(dep: Dep)
    requires ChooseProbe(dep).Some?
    ensures var (name, probe) := ChooseProbe(dep).value;
      if exists c :: c in dep.containers && c.readiness.Some?
      then probe == "readiness" && FirstProbed(dep.containers, Readiness, name)
      else probe == "liveness" && FirstProbed(dep.containers, Liveness, name)
  {
    var ready := FirstWithProbe(dep.containers, Readiness);
    if ready.Some? {
      assert dep.containers[ready.value] in dep.containers;
    }
  }

  function AtLeastConfident(d: Decision, threshold: real): (d': Decision)
    ensures d' == d.(confidence := d'.confidence) && d'.confidence >= threshold && d'.confidence >= d.confidence
    ensures d'.confidence == threshold || d'.confidence == d.confidence
  {
    if d.confidence < threshold then d.(confidence := threshold) else d
  }

  function EscalatedToProbe(d: Decision, cfg: AgentConfig, depName: string, container: string,
                            probe: string): (d': Decision)
    ensures d'.action.PatchProbe? && d'.confidence >= cfg.patchConfidenceThreshold
  {
    AtLeastConfident(d, cfg.patchConfidenceThreshold).(
      action := PatchProbe,
      parameters := d.parameters["deployment_name" := depName]["container" := container]["probe" := probe]
                      ["failure_threshold" := "6"]["period_seconds" := "15"]["timeout_seconds" := "5"])
  }

  function EscalatedToResources(d: Decision, cfg: AgentConfig, text: QuantityText, dep: Dep,
                                depName: string): (d': Decision)
    requires dep.containers != []
    ensures d'.action.PatchResources? && d'.confidence >= cfg.patchConfidenceThreshold
  {
    AtLeastConfident(d, cfg.patchConfidenceThreshold).(
      action := PatchResources, parameters := EscalatedParams(text, dep, d.parameters, depName))
  }

  /** An escalated decision never trips over the patch guard. */
  lemma EscalationPassesPatchGuard(d: Decision, cfg: AgentConfig, text: QuantityText, dep: Dep,
                                   depName: string, container: string, probe: string)
    ensures cfg.allowPatchProbe ==> BlockUnsafePatch(EscalatedToProbe(d, cfg, depName, container, probe), cfg).None?
    ensures cfg.allowPatchResources && dep.containers != [] ==>
      BlockUnsafePatch(EscalatedToResources(d, cfg, text, dep, depName), cfg).None?
  {
  }

  /** Where a decision is aimed: everything but the action, the confidence and the remaining parameters. */
  predicate SameAim(d: Decision, d': Decision)
  {
    && d'.namespace == d.namespace && d'.resourceKind == d.resourceKind && d'.resourceName == d.resourceName
    && (Pinned(d) != "" ==> Pinned(d') == Pinned(d))
  }

  /** The Deployment name in the parameters that takes precedence, "" when there is none. */
  function Pinned(d: Decision): string
  {
    TrimSpace(Param(d.parameters, "deployment_name"))
  }

  lemma ProbeKeysLeaveTarget()
    ensures "container" != "deployment_name" && "probe" != "deployment_name" && "failure_threshold" != "deployment_name"
    ensures "period_seconds" != "deployment_name" && "timeout_seconds" != "deployment_name"
    ensures "memory_limit" != "deployment_name" && "image" != "deployment_name"
  {
    assert |"deployment_name"| == 15 && |"container"| == 9 && |"probe"| == 5 && |"failure_threshold"| == 17;
    assert |"period_seconds"| == 14 && |"memory_limit"| == 12 && |"image"| == 5;
    assert "timeout_seconds"[0] == 't' && "deployment_name"[0] == 'd';
  }

  lemma EscalationKeepsAim(d: Decision, cfg: AgentConfig, text: QuantityText, dep: Dep,
                           depName: string, container: string, probe: string)
    requires Pinned(d) != "" ==> depName == Pinned(d)
    ensures SameAim(d, EscalatedToProbe(d, cfg, depName, container, probe))
    ensures dep.containers != [] ==> SameAim(d, EscalatedToResources(d, cfg, text, dep, depName))
  {
    hide IsSpace, TrimSpace, Trimmed, BumpedLimit;
    ProbeKeysLeaveTarget();
    TrimSpaceMeaning(Param(d.parameters, "deployment_name"));
    assert Trimmed(Pinned(d)) && TrimSpace(Pinned(d)) == Pinned(d) by { TrimSpaceMeaning(Pinned(d)); }
  }

  /** A Deployment the decision may be aimed at. */
  predicate AimsAt(d: Decision, key: Key)
  {
    key.ns == d.namespace && (Pinned(d) != "" ==> key.name == Pinned(d))
  }

  /** The restart became a relaxed probe of an opted-in Deployment as the register holds it. */
  predicate RelaxesProbe(d: Decision, d': Decision, cfg: AgentConfig, key: Key, dep: Dep)
  {
    && AimsAt(d, key) && AllowsPatch(dep, "probe") && ChooseProbe(dep).Some?
    && d' == EscalatedToProbe(d, cfg, key.name, ChooseProbe(dep).value.0, ChooseProbe(dep).value.1)
  }

  /** The restart became a raised memory limit of an opted-in Deployment as the register holds it. */
  predicate RaisesMemory(d: Decision, d': Decision, cx: Context, key: Key, dep: Dep)
  {
    && AimsAt(d, key) && AllowsPatch(dep, "resources") && dep.containers != []
    && d' == EscalatedToResources(d, cx.cfg, cx.text, dep, key.name)
  }

  /** The Deployment a decision reads while nothing else touches the cluster. */
  function ReadsTo(d: Decision, w: World): Option<(Key, Dep)>
  {
    var name := TargetName(d.namespace, d.resourceKind, d.resourceName, d.parameters, w);
    if name.Some? && Key(d.namespace, name.value) in w.deployments
    then Some((Key(d.namespace, name.value), w.deployments[Key(d.namespace, name.value)].dep)) else None
  }

  /** The relaxed probe an undisturbed cluster gives, if flag, opt-in and probe are there. */
  function ProbeEscalation(d: Decision, cx: Context, w: World): Option<Decision>
  {
    var target := ReadsTo(d, w);
    if !cx.cfg.allowPatchProbe || target.None? then None
    else
      var (key, dep) := target.value;
      var chosen := ChooseProbe(dep);
      if !AllowsPatch(dep, "probe") || chosen.None? then None
      else Some(EscalatedToProbe(d, cx.cfg, key.name, chosen.value.0, chosen.value.1))
  }

  /** The raised memory limit an undisturbed cluster gives, if flag, opt-in and a container are there. */
  function MemoryEscalation(d: Decision, cx: Context, w: World): Option<Decision>
  {
    var target := ReadsTo(d, w);
    if !cx.cfg.allowPatchResources || target.None? then None
    else
      var (key, dep) := target.value;
      if !AllowsPatch(dep, "resources") || dep.containers == [] then None
      else Some(EscalatedToResources(d, cx.cfg, cx.text, dep, key.name))
  }

  /** The decision was found to mean the Deployment under this key. */
  ghost predicate Means(d: Decision, key: Key, history: seq<World>, since: nat)
  {
    key.ns == d.namespace
    && TargetFound(history, since, d.namespace, d.resourceKind, d.resourceName, d.parameters, key.name)
  }

  /** The decision was found to mean no Deployment. */
  ghost predicate MeansNone(d: Decision, history: seq<World>, since: nat)
  {
    TargetNotSeen(history, since, d.namespace, d.resourceKind, d.resourceName, d.parameters)
  }

  lemma MeansLonger(d: Decision, key: Key, earlier: seq<World>, from: nat, later: seq<World>, since: nat)
    requires Means(d, key, earlier, from) && earlier <= later && since <= from
    ensures Means(d, key, later, since)
  {
    hide TargetFound;
    TargetFoundLonger(earlier, from, later, since, d.namespace, d.resourceKind, d.resourceName, d.parameters, key.name);
  }

  lemma MeansNoneSince(d: Decision, history: seq<World>, from: nat, since: nat)
    requires MeansNone(d, history, from) && since <= from
    ensures MeansNone(d, history, since)
  {
    hide TargetNotSeen;
    TargetNotSeenSince(history, from, since, d.namespace, d.resourceKind, d.resourceName, d.parameters);
  }

  /** What reading the target comes to; what others spare makes the answer exact. */
  ghost predicate TargetRead(a: Ledger, b: Ledger, d: Decision, r: Result<(Key, Dep)>)
  {
    && OnlyRead(a, b)
    && (r.Ok? ==>
          && Means(d, r.value.0, b.history, |a.history| - 1)
          && r.value.0 in b.world.deployments && b.world.deployments[r.value.0].dep == r.value.1)
    && (r.Err? ==>
          || Faulted(b.taken, |a.taken|)
          || MeansNone(d, b.history, |a.history| - 1)
          || exists key :: Means(d, key, b.history, |a.history| - 1) && key !in b.world.deployments)
    && (Spares(a.turns) ==> Known(r) == ReadsTo(d, b.world))
  }

  lemma ReadAsAimed(a: Ledger, b: Ledger, d: Decision, r: Result<(Key, Dep)>)
    requires TargetRead(a, b, d, r)
    ensures r.Ok? ==> AimsAt(d, r.value.0) && Held(b.history, |a.history| - 1, r.value.0, r.value.1)
  {
    hide OwnerSeen, TrimSpace, Spares, ReadsTo, MeansNone, OnlyOthers, EqualFold;
    if r.Ok? {
      assert b.history[|b.history| - 1] == b.world;
    }
  }

  lemma TargetThenRead(a: Ledger, b: Ledger, c: Ledger, d: Decision, key: Key, read: Result<Stored>,
                       r: Result<(Key, Dep)>)
    requires OnlyRead(a, b) && OnlyRead(b, c) && Means(d, key, b.history, |a.history| - 1)
    requires Spares(a.turns) ==>
      Some(key.name) == TargetName(d.namespace, d.resourceKind, d.resourceName, d.parameters, b.world)
    requires Spares(b.turns) ==> (read.Ok? <==> key in c.world.deployments)
    requires read.Ok? ==> key in c.world.deployments && c.world.deployments[key] == read.value
    requires read.Err? ==> Faulted(c.taken, |b.taken|) || key !in c.world.deployments
    requires if read.Ok? then r == Ok((key, read.value.dep)) else r.Err?
    ensures TargetRead(a, c, d, r)
  {
    hide TargetName, Spares, OnlyOthers, TargetFound, MeansNone, Faulted;
    OnlyReadThen(a, b, c);
    MeansLonger(d, key, b.history, |a.history| - 1, c.history, |a.history| - 1);
    FaultedLonger(c.taken, |b.taken|, c.taken, |a.taken|);
    if Spares(a.turns) {
      TargetIsFixed(d.namespace, d.resourceKind, d.resourceName, d.parameters, b.world, c.world);
    }
  }

  lemma TargetNotRead(a: Ledger, b: Ledger, d: Decision, r: Result<(Key, Dep)>)
    requires OnlyRead(a, b) && r.Err?
    requires Faulted(b.taken, |a.taken|) || MeansNone(d, b.history, |a.history| - 1)
    requires Spares(a.turns) ==> TargetName(d.namespace, d.resourceKind, d.resourceName, d.parameters, b.world).None?
    ensures TargetRead(a, b, d, r)
  {
    hide TargetName, Spares, OnlyOthers, MeansNone, Faulted, Means;
  }

  /** Resolves the target of a decision and reads it. */
  method ReadTarget(api: ApiServer, d: Decision) returns (r: Result<(Key, Dep)>)
    requires api.Valid()
    modifies api
    ensures api.Valid() && TargetRead(old(api.Books()), api.Books(), d, r)
  {
    hide ApiServer.Valid, TargetFound, TargetNotSeen, EqualFold, TrimSpace, OnlyRead, Spares, Faulted, Kept, TargetRead,
         TargetName;
    var depName := ResolveDeploymentTarget(api, d.namespace, d.resourceKind, d.resourceName, d.parameters);
    if depName.Err? {
      r := Err(depName.error);
      TargetNotRead(old(api.Books()), api.Books(), d, r);
      return;
    }
    ghost var resolved := api.Books();
    var key := Key(d.namespace, depName.value);
    var dep := api.GetDeployment(key);
    r := if dep.Ok? then Ok((key, dep.value.dep)) else Err(dep.error);
    TargetThenRead(old(api.Books()), resolved, api.Books(), d, key, dep, r);
  }

  /** The Deployment opted in to this kind of patch and has something to patch. */
  predicate Fit(w: World, key: Key, kind: string)
  {
    && key in w.deployments && AllowsPatch(w.deployments[key].dep, kind)
    && if kind == "probe" then ChooseProbe(w.deployments[key].dep).Some? else w.deployments[key].dep.containers != []
  }

  /** No Deployment was meant, or the one meant was not fit at some moment. */
  ghost predicate Unfit(d: Decision, kind: string, history: seq<World>, since: nat)
  {
    MeansNone(d, history, since)
    || exists key, i :: since <= i < |history| && Means(d, key, history, since) && !Fit(history[i], key, kind)
  }

  /** Why reading the target did not lead to an escalation. */
  lemma NotFit(a: Ledger, b: Ledger, d: Decision, r: Result<(Key, Dep)>, kind: string)
    requires TargetRead(a, b, d, r) && (r.Ok? ==> !Fit(b.world, r.value.0, kind))
    ensures Faulted(b.taken, |a.taken|) || Unfit(d, kind, b.history, |a.history| - 1)
  {
    hide Means, MeansNone, Spares, ReadsTo, OnlyOthers, Faulted, AllowsPatch, ChooseProbe;
    var i := |b.history| - 1;
    if r.Ok? {
      assert !Fit(b.history[i], r.value.0, kind);
    } else if key :| Means(d, key, b.history, |a.history| - 1) && key !in b.world.deployments {
      assert !Fit(b.history[i], key, kind);
    }
  }

  /** Turns a blocked restart into a relaxed probe when flag and opt-in allow it. */
  method TryAutoPatchProbe(api: ApiServer, d: Decision, cx: Context) returns (d': Decision, ok: bool)
    requires api.Valid()
    modifies api
    ensures api.Valid() && api.Quiet()
    ensures !ok ==> d' == d
    ensures ok ==> d'.action.PatchProbe? && cx.cfg.allowPatchProbe && SameAim(d, d')
    ensures ok ==> BlockUnsafePatch(d', cx.cfg).None?
    ensures ok ==>
      exists key, dep :: Held(api.history, |old(api.history)| - 1, key, dep) && RelaxesProbe(d, d', cx.cfg, key, dep)
    ensures !ok ==>
      || !cx.cfg.allowPatchProbe || Faulted(api.taken, |old(api.taken)|)
      || Unfit(d, "probe", api.history, |old(api.history)| - 1)
    ensures Spares(old(api.turns)) ==> (if ok then Some(d') else None) == ProbeEscalation(d, cx, api.Present())
  {
    hide TrimSpace, AllowsPatch, SameAim, BlockUnsafePatch, EscalatedToProbe, ChooseProbe, ApiServer.Valid, ReadsTo,
         Held, OnlyRead, Spares, Means, MeansNone, Faulted;
    api.LastMoment();
    NothingRead(api.Books());
    if !cx.cfg.allowPatchProbe {
      return d, false;
    }
    var target := ReadTarget(api, d);
    ReadAsAimed(old(api.Books()), api.Books(), d, target);
    if target.Err? {
      NotFit(old(api.Books()), api.Books(), d, target, "probe");
      return d, false;
    }
    var key, dep := target.value.0, target.value.1;
    if !AllowsPatch(dep, "probe") {
      NotFit(old(api.Books()), api.Books(), d, target, "probe");
      return d, false;
    }
    var chosen := ChooseProbe(dep);
    if chosen.None? {
      NotFit(old(api.Books()), api.Books(), d, target, "probe");
      return d, false;
    }
    EscalationKeepsAim(d, cx.cfg, cx.text, dep, key.name, chosen.value.0, chosen.value.1);
    EscalationPassesPatchGuard(d, cx.cfg, cx.text, dep, key.name, chosen.value.0, chosen.value.1);
    d', ok := EscalatedToProbe(d, cx.cfg, key.name, chosen.value.0, chosen.value.1), true;
    assert RelaxesProbe(d, d', cx.cfg, key, dep);
  }

  /** Turns a blocked restart into a raised memory limit when flag and opt-in allow it. */
  method TryAutoPatchResources(api: ApiServer, d: Decision, cx: Context) returns (d': Decision, ok: bool)
    requires api.Valid()
    modifies api
    ensures api.Valid() && api.Quiet()
    ensures !ok ==> d' == d
    ensures ok ==> d'.action.PatchResources? && cx.cfg.allowPatchResources && SameAim(d, d')
    ensures ok ==> BlockUnsafePatch(d', cx.cfg).None?
    ensures ok ==>
      exists key, dep :: Held(api.history, |old(api.history)| - 1, key, dep) && RaisesMemory(d, d', cx, key, dep)
    ensures !ok ==>
      || !cx.cfg.allowPatchResources || Faulted(api.taken, |old(api.taken)|)
      || Unfit(d, "resources", api.history, |old(api.history)| - 1)
    ensures Spares(old(api.turns)) ==> (if ok then Some(d') else None) == MemoryEscalation(d, cx, api.Present())
  {
    hide TrimSpace, AllowsPatch, SameAim, BlockUnsafePatch, EscalatedToResources, ApiServer.Valid, ReadsTo, Held,
         OnlyRead, Spares, Means, MeansNone, Faulted;
    api.LastMoment();
    NothingRead(api.Books());
    if !cx.cfg.allowPatchResources {
      return d, false;
    }
    var target := ReadTarget(api, d);
    ReadAsAimed(old(api.Books()), api.Books(), d, target);
    if target.Err? {
      NotFit(old(api.Books()), api.Books(), d, target, "resources");
      return d, false;
    }
    var key, dep := target.value.0, target.value.1;
    if !AllowsPatch(dep, "resources") || dep.containers == [] {
      NotFit(old(api.Books()), api.Books(), d, target, "resources");
      return d, false;
    }
    EscalationKeepsAim(d, cx.cfg, cx.text, dep, key.name, "", "");
    EscalationPassesPatchGuard(d, cx.cfg, cx.text, dep, key.name, "", "");
    d', ok := EscalatedToResources(d, cx.cfg, cx.text, dep, key.name), true;
    assert RaisesMemory(d, d', cx, key, dep);
  }

  // ---- completing a missing image ------------------------------------------------------------

  /** The current image under the newest other tag its registry lists. */
  ghost predicate Discovered(cx: Context, current: string, image: string)
  {
    && cx.cfg.imageTagDiscovery && cx.tags.Some? && RefOf(current).Ok?
    && exists tag ::
         && tag != "" && PickedNewest(cx.tags.value, RefOf(current).value.tag, tag)
         && RetagImage(current, tag) == Ok(image)
  }

  /** The image that replaces the current one: the discovered one, else the one under the configured tag. */
  ghost predicate SuccessorIs(cx: Context, current: string, image: Option<string>)
  {
    if exists img :: Discovered(cx, current, img) then image.Some? && Discovered(cx, current, image.value)
    else if cx.cfg.imageFallbackTag != "" && RetagImage(current, cx.cfg.imageFallbackTag).Ok?
    then image == Some(RetagImage(current, cx.cfg.imageFallbackTag).value)
    else image.None?
  }

  /** An image found by tag discovery names the same repository and is not the current image. */
  lemma DiscoveredImageStays(cx: Context, current: string, image: string)
    requires Discovered(cx, current, image)
    requires forall t :: t in cx.tags.value ==> Trimmed(t) && SeparatorFree(t)
    ensures image != current && RefOf(image).Ok?
    ensures RefOf(image).value.host == RefOf(current).value.host && RefOf(image).value.repo == RefOf(current).value.repo
    ensures RefOf(image).value.tag in cx.tags.value && RefOf(image).value.tag != RefOf(current).value.tag
  {
    hide RefOf, PickedNewest, RetagImage, Trimmed, SeparatorFree, VersionOf;
    var tag :| tag != "" && PickedNewest(cx.tags.value, RefOf(current).value.tag, tag)
      && RetagImage(current, tag) == Ok(image);
    PickIsUsable(cx.tags.value, RefOf(current).value.tag, tag);
    DiscoveredImageIsNew(current, cx.tags.value, tag);
  }

  // ---- the container read and the container written ---------------------------------------------

  /**
   A discovered image is accepted by the container it was derived for, and by no other, exactly when both lookups
   agree.
   */
  lemma DiscoveredImageIsAccepted(cx: Context, dep: Dep, ref: string, image: string, at: string)
    requires dep.containers != [] && Discovered(cx, dep.containers[NamedOrFirst(dep.containers, ref)].image, image)
    requires forall t :: t in cx.tags.value ==> Trimmed(t) && SeparatorFree(t)
    ensures var i := NamedOrFirst(dep.containers, ref);
      PlainReference(dep.containers, ref) <==>
        && FindContainer(dep.containers, ref) == Ok(i)
        && Mutated(dep, SetImage(image, ref), at).Ok?
        && Mutated(dep, SetImage(image, ref), at).value.containers
           == dep.containers[i := dep.containers[i].(image := image)]
  {
    hide TrimSpace, Discovered, Trimmed, SeparatorFree, AllowsPatch, RefOf, PlainReference, ByName, ByImage,
         FindContainer, NamedOrFirst;
    DiscoveredImageStays(cx, dep.containers[NamedOrFirst(dep.containers, ref)].image, image);
    PlainReferenceAgrees(dep.containers, ref);
  }

  /**
   Else the image misses its container: the reference finds none, or another one by its image, which gets it
   instead.
   */
  lemma DiscoveredImageGoesAstray(cx: Context, dep: Dep, ref: string, image: string, at: string)
    requires dep.containers != [] && Discovered(cx, dep.containers[NamedOrFirst(dep.containers, ref)].image, image)
    requires !PlainReference(dep.containers, ref)
    ensures var found := FindContainer(dep.containers, ref);
      if found.Err? then Mutated(dep, SetImage(image, ref), at).Err?
      else
        var j := found.value;
        && j != NamedOrFirst(dep.containers, ref) && dep.containers[j].image == TrimSpace(ref)
        && (Mutated(dep, SetImage(image, ref), at).Ok? <==> image != dep.containers[j].image)
        && (image != dep.containers[j].image ==>
              Mutated(dep, SetImage(image, ref), at).value.containers
              == dep.containers[j := dep.containers[j].(image := image)])
  {
    hide TrimSpace, Discovered, AllowsPatch;
    PlainReferenceAgrees(dep.containers, ref);
  }

  function Plain(name: string, image: string): Container
  {
    Container(name, image, Option.None, Option.None, Resources(Option.None, Option.None, Option.None, Option.None))
  }

  /**
   The image derived for container x from a:1 is a:2; meant for the container running a:2, it is refused as a no-op.
   */
  lemma NoOpByImageReference(cx: Context, dep: Dep, at: string)
    requires cx.cfg.imageTagDiscovery && cx.tags == Some(["2"])
    requires dep.containers == [Plain("x", "a:1"), Plain("y", "a:2")]
    ensures NamedOrFirst(dep.containers, "a:2") == 0 && Discovered(cx, dep.containers[0].image, "a:2")
    ensures Mutated(dep, SetImage("a:2", "a:2"), at).Err?
  {
    hide IsSpace, TrimSpace, RefOf, RetagImage, AllowsPatch, PickedNewest;
    PickTwo();
    TrimmedImage();
    assert "a:2" != "x" && "a:2" != "y" by { assert |"a:2"| == 3 && |"x"| == 1 && |"y"| == 1; }
    assert "a:1" != "a:2" by { assert "a:1"[2] == '1' && "a:2"[2] == '2'; }
    var named := ByName(dep.containers, "a:2");
    assert named.None?;
    var pictured := ByImage(dep.containers, "a:2");
    assert dep.containers[1].image == "a:2" && dep.containers[0].image == "a:1";
    assert pictured == Some(1);
    assert Discovered(cx, "a:1", "a:2");
  }

  lemma TrimmedImage()
    ensures TrimSpace("a:2") == "a:2" && TrimSpace("2") == "2"
  {
    TrimSpaceMeaning("a:2");
    TrimSpaceMeaning("2");
  }

  lemma PickTwo()
    ensures RefOf("a:1").Ok? && RefOf("a:1").value.tag == "1" && PickedNewest(["2"], "1", "2")
    ensures RetagImage("a:1", "2") == Ok("a:2")
  {
    hide IsSpace, TrimSpace, Located, Older;
    AOne();
    LocatedTag("a", "1", "1");
    TwoIsAVersion();
    OlderIsAsymmetric(VersionOf("2").value, VersionOf("2").value);
    assert "2"[0] == '2' && "1"[0] == '1' && |"2"| == 1 && |"latest"| == 6;
    assert Candidate("1", "2");
    var tags := ["2"];
    assert tags[0] == "2" && "2" in tags;
    assert NewestOf(tags, "1", "2");
    TrimmedImage();
    RetagForm("a:1", "2", "a", "2");
    assert "a" + [':'] + "2" == "a:2";
  }

  predicate Usable(exclude: string, tag: string)
  {
    tag != exclude && (tag == "latest" || VersionOf(tag).Some?)
  }

  /** The newest tag other than the current one, if the registry answers with any usable tag at all. */
  method NewestTag(cx: Context, image: string) returns (tag: Option<string>)
    ensures tag.Some?
       <==> RefOf(image).Ok? && cx.tags.Some? && exists t :: t in cx.tags.value && Usable(RefOf(image).value.tag, t)
    ensures tag.Some? ==> tag.value != "" && PickedNewest(cx.tags.value, RefOf(image).value.tag, tag.value)
  {
    hide RefOf, PickedNewest, VersionOf;
    var ref := ParseRef(image);
    if ref.Err? || cx.tags.None? {
      return None;
    }
    var best := PickNewest(cx.tags.value, ref.value.tag);
    PickIsUsable(cx.tags.value, ref.value.tag, best);
    if best == "" {
      return None;
    }
    return Some(best);
  }

  /** What tag discovery would come up with is what the selection picked. */
  lemma DiscoveryIsUnique(cx: Context, current: string, image: string, tag: string)
    requires Discovered(cx, current, image) && PickedNewest(cx.tags.value, RefOf(current).value.tag, tag)
    ensures tag != "" && RetagImage(current, tag) == Ok(image)
  {
    hide RefOf, RetagImage, PickedNewest;
    var t :| t != "" && PickedNewest(cx.tags.value, RefOf(current).value.tag, t) && RetagImage(current, t) == Ok(image);
    PickIsUnique(cx.tags.value, RefOf(current).value.tag, t, tag);
  }

  lemma DiscoveryNeedsUsableTag(cx: Context, current: string, image: string)
    requires Discovered(cx, current, image)
    ensures exists t :: t in cx.tags.value && Usable(RefOf(current).value.tag, t)
  {
    hide RefOf, RetagImage, VersionOf;
    var t :| t != "" && PickedNewest(cx.tags.value, RefOf(current).value.tag, t) && RetagImage(current, t) == Ok(image);
    PickIsUsable(cx.tags.value, RefOf(current).value.tag, t);
  }

  /** The discovered image when there is one, else the current one under the configured tag. */
  method Successor(cx: Context, current: string) returns (image: Option<string>)
    ensures SuccessorIs(cx, current, image)
  {
    hide RetagImage, RefOf, PickedNewest, Usable;
    if cx.cfg.imageTagDiscovery {
      var tag := NewestTag(cx, current);
      if tag.Some? {
        var img := RetagImage(current, tag.value);
        if img.Ok? {
          assert Discovered(cx, current, img.value);
          return Some(img.value);
        }
      }
      forall img | Discovered(cx, current, img)
        ensures false
      {
        DiscoveryNeedsUsableTag(cx, current, img);
        DiscoveryIsUnique(cx, current, img, tag.value);
      }
    }
    if cx.cfg.imageFallbackTag == "" {
      return None;
    }
    var img := RetagImage(current, cx.cfg.imageFallbackTag);
    if img.Err? {
      return None;
    }
    return Some(img.value);
  }

  /** The image the container the parameters mean is running. */
  function CurrentImage(d: Decision, dep: Dep): string
    requires dep.containers != []
  {
    dep.containers[NamedOrFirst(dep.containers, Param(d.parameters, "container"))].image
  }

  /** The image follows that of the container meant in a Deployment the decision is aimed at. */
  ghost predicate DerivedFrom(d: Decision, cx: Context, image: string, key: Key, dep: Dep)
  {
    && AimsAt(d, key) && dep.containers != []
    && var read := NamedOrFirst(dep.containers, Param(d.parameters, "container"));
       SuccessorIs(cx, dep.containers[read].image, Some(image))
  }

  /** What an undisturbed cluster lets the agent derive. */
  ghost predicate ImageDerived(d: Decision, cx: Context, w: World, image: Option<string>)
  {
    var target := ReadsTo(d, w);
    if target.None? || target.value.1.containers == [] then image.None?
    else SuccessorIs(cx, CurrentImage(d, target.value.1), image)
  }

  /** No Deployment was meant, or the one meant gave no image to derive at some moment. */
  ghost predicate Underived(d: Decision, cx: Context, history: seq<World>, since: nat)
  {
    MeansNone(d, history, since)
    || exists key, i :: since <= i < |history| && Means(d, key, history, since) && Barren(d, cx, history[i], key)
  }

  ghost predicate Barren(d: Decision, cx: Context, w: World, key: Key)
  {
    key in w.deployments ==>
      var dep := w.deployments[key].dep;
      dep.containers == [] || SuccessorIs(cx, CurrentImage(d, dep), Option.None)
  }

  lemma UnderivedSince(d: Decision, cx: Context, history: seq<World>, from: nat, since: nat)
    requires Underived(d, cx, history, from) && since <= from
    ensures Underived(d, cx, history, since)
  {
    hide Means, MeansNone, Barren;
    if MeansNone(d, history, from) {
      MeansNoneSince(d, history, from, since);
    } else {
      var key, i :| from <= i < |history| && Means(d, key, history, from) && Barren(d, cx, history[i], key);
      MeansLonger(d, key, history, from, history, since);
    }
  }

  lemma NotDerived(a: Ledger, b: Ledger, d: Decision, cx: Context, r: Result<(Key, Dep)>)
    requires TargetRead(a, b, d, r) && (r.Ok? ==> Barren(d, cx, b.world, r.value.0))
    ensures Faulted(b.taken, |a.taken|) || Underived(d, cx, b.history, |a.history| - 1)
  {
    hide Means, MeansNone, Spares, ReadsTo, OnlyOthers, Faulted, SuccessorIs, NamedOrFirst;
    var i := |b.history| - 1;
    if r.Ok? {
      assert Barren(d, cx, b.history[i], r.value.0);
    } else if key :| Means(d, key, b.history, |a.history| - 1) && key !in b.world.deployments {
      assert Barren(d, cx, b.history[i], key);
    }
  }

  method DeriveFallbackImage(api: ApiServer, d: Decision, cx: Context) returns (image: Option<string>)
    requires api.Valid()
    modifies api
    ensures api.Valid() && api.Quiet()
    ensures image.Some? ==>
      exists key, dep ::
        Held(api.history, |old(api.history)| - 1, key, dep) && DerivedFrom(d, cx, image.value, key, dep)
    ensures image.None? ==>
      Faulted(api.taken, |old(api.taken)|) || Underived(d, cx, api.history, |old(api.history)| - 1)
    ensures Spares(old(api.turns)) ==> ImageDerived(d, cx, api.Present(), image)
  {
    hide TrimSpace, SuccessorIs, AimsAt, NamedOrFirst, ApiServer.Valid, ReadsTo, Held, OnlyRead, Spares, Means,
         MeansNone,
         Faulted;
    var target := ReadTarget(api, d);
    ReadAsAimed(old(api.Books()), api.Books(), d, target);
    if target.Err? || target.value.1.containers == [] {
      NotDerived(old(api.Books()), api.Books(), d, cx, target);
      return None;
    }
    image := Successor(cx, CurrentImage(d, target.value.1));
    if image.None? {
      NotDerived(old(api.Books()), api.Books(), d, cx, target);
    }
    assert image.Some? ==> DerivedFrom(d, cx, image.value, target.value.0, target.value.1);
  }

  predicate LacksImage(d: Decision, cfg: AgentConfig)
  {
    d.action.SetDeploymentImage? && cfg.allowImageUpdates && (cfg.imageTagDiscovery || cfg.imageFallbackTag != "")
    && TrimSpace(Param(d.parameters, "image")) == ""
  }

  function WithImage(d: Decision, image: string): Decision
  {
    d.(parameters := d.parameters["image" := image])
  }

  /** The decision lacked an image and got one derived from this Deployment. */
  ghost predicate Completed(d: Decision, d': Decision, cx: Context, key: Key, dep: Dep)
  {
    && LacksImage(d, cx.cfg)
    && d' == WithImage(d, Param(d'.parameters, "image"))
    && DerivedFrom(d, cx, Param(d'.parameters, "image"), key, dep)
  }

  /** What an undisturbed cluster completes a decision to. */
  ghost predicate CompletesTo(d: Decision, d': Decision, cx: Context, w: World)
  {
    if !LacksImage(d, cx.cfg) then d' == d
    else exists image :: ImageDerived(d, cx, w, image) && d' == if image.Some? then WithImage(d, image.value) else d
  }

  /** What lacks an image is completed by a derived one, unless none could be derived. */
  ghost predicate Finished(a: Ledger, b: Ledger, d: Decision, d': Decision, cx: Context)
  {
    && OnlyRead(a, b)
    && (d' == d || exists key, dep :: Held(b.history, |a.history| - 1, key, dep) && Completed(d, d', cx, key, dep))
    && (d' == d && LacksImage(d, cx.cfg) ==>
          Faulted(b.taken, |a.taken|) || Underived(d, cx, b.history, |a.history| - 1))
    && SameAim(d, d') && d'.action == d.action && d'.confidence == d.confidence
    && (!LacksImage(d, cx.cfg) ==> d' == d && b == a)
    && (Spares(a.turns) ==> CompletesTo(d, d', cx, b.world))
  }

  method CompleteImage(api: ApiServer, d: Decision, cx: Context) returns (d': Decision)
    requires api.Valid()
    modifies api
    ensures api.Valid() && Finished(old(api.Books()), api.Books(), d, d', cx)
    ensures !d.action.SetDeploymentImage? || !cx.cfg.allowImageUpdates || TrimSpace(Param(d.parameters, "image")) != ""
        || (!cx.cfg.imageTagDiscovery && cx.cfg.imageFallbackTag == "")
      ==> d' == d && api.Books() == old(api.Books())
  {
    hide TrimSpace, DerivedFrom, ImageDerived, Held, ApiServer.Valid, OnlyRead, Spares, Underived, Faulted;
    api.LastMoment();
    NothingRead(api.Books());
    d' := d;
    if LacksImage(d, cx.cfg) {
      var image := DeriveFallbackImage(api, d, cx);
      if image.Some? {
        ProbeKeysLeaveTarget();
        d' := WithImage(d, image.value);
        ghost var key, dep :| Held(api.history, |old(api.history)| - 1, key, dep)
          && DerivedFrom(d, cx, image.value, key, dep);
        assert Param(d'.parameters, "image") == image.value;
        assert Completed(d, d', cx, key, dep);
        DerivedIsNotBlank(d, cx, image.value, key, dep);
      }
    }
  }

  /** A derived image is never blank, so it is not what was lacking. */
  lemma DerivedIsNotBlank(d: Decision, cx: Context, image: string, key: Key, dep: Dep)
    requires DerivedFrom(d, cx, image, key, dep) && LacksImage(d, cx.cfg)
    ensures TrimSpace(image) != "" && WithImage(d, image) != d
  {
    hide TrimSpace, RefOf, PickedNewest, NamedOrFirst, AimsAt, NamePart;
    var current := CurrentImage(d, dep);
    var tag :| RetagImage(current, tag) == Ok(image);
    assert ':' in image;
    NotBlank(image, |NamePart(TrimSpace(current))|);
    assert Param(WithImage(d, image).parameters, "image") == image;
  }

  // ---- the guards in order -------------------------------------------------------------------

  /** What is known about a decision that got past every guard, against the one that was proposed. */
  predicate Cleared(d: Decision, d': Decision, cx: Context, reason: string, extra: string)
  {
    && SameAim(d, d')
    && (d'.action == d.action
        || (d.action.RestartDeployment? && d'.action.PatchProbe? && IsUnhealthy(reason))
        || (d.action.RestartDeployment? && d'.action.PatchResources? && ShowsOOM(extra)))
    && (d'.action.RestartDeployment? ==> !IsUnhealthy(reason) && !IsFailedScheduling(reason) && !ShowsOOM(extra))
    && (d'.action.ScaleDeployment? ==> !IsFailedScheduling(reason))
    && Passes(d', cx)
    && (d'.action == d.action ==> d'.confidence == d.confidence)
    && (d'.action == d.action && !d.action.SetDeploymentImage? ==> d' == d)
  }

  /** What execution may make of a decision: itself, or what a Deployment it read on the way turned it into. */
  ghost predicate Became(d: Decision, d': Decision, cx: Context, history: seq<World>, since: nat)
  {
    d' == d || exists key, dep :: Held(history, since, key, dep) && TurnedInto(d, d', cx, key, dep)
  }

  /** An escalated restart, or the decision completed by an image. */
  ghost predicate TurnedInto(d: Decision, d': Decision, cx: Context, key: Key, dep: Dep)
  {
    || Completed(d, d', cx, key, dep)
    || (d.action.RestartDeployment? && (RelaxesProbe(d, d', cx.cfg, key, dep) || RaisesMemory(d, d', cx, key, dep)))
  }

  lemma BecameLonger(d: Decision, d': Decision, cx: Context, earlier: seq<World>, from: nat, later: seq<World>,
                     since: nat)
    requires Became(d, d', cx, earlier, from) && earlier <= later && since <= from
    ensures Became(d, d', cx, later, since)
  {
    hide Held, TurnedInto;
    if d' != d {
      var key, dep :| Held(earlier, from, key, dep) && TurnedInto(d, d', cx, key, dep);
      HeldLonger(earlier, from, later, since, key, dep);
    }
  }

  /** Only a decision that was not escalated is ever completed. */
  lemma BecameInTheEnd(d: Decision, escalated: Decision, d': Decision, cx: Context, seen: seq<World>,
                       later: seq<World>, since: nat)
    requires Became(d, escalated, cx, seen, since) && since < |seen| && seen <= later
    requires escalated == d || !escalated.action.SetDeploymentImage?
    requires d' == escalated
      || exists key, dep :: Held(later, |seen| - 1, key, dep) && Completed(escalated, d', cx, key, dep)
    ensures Became(d, d', cx, later, since)
  {
    hide Held, DerivedFrom, EscalatedToProbe, EscalatedToResources, AllowsPatch, ChooseProbe, AimsAt, TrimSpace;
    if d' == escalated {
      BecameLonger(d, escalated, cx, seen, since, later, since);
    } else {
      var key, dep :| Held(later, |seen| - 1, key, dep) && Completed(escalated, d', cx, key, dep);
      HeldLonger(later, |seen| - 1, later, since, key, dep);
      assert TurnedInto(d, d', cx, key, dep);
    }
  }

  /** The escalations of an undisturbed cluster. */
  function EscalatesTo(d: Decision, cx: Context, reason: string, extra: string, w: World): Option<Decision>
  {
    var first := if BlockRestartOnProbeFailure(d, reason).None? then Some(d) else ProbeEscalation(d, cx, w);
    if first.None? || BlockRestartOnOOMKilled(first.value, extra).None? then first
    else MemoryEscalation(first.value, cx, w)
  }

  /** What gets past the guards in an undisturbed cluster, None when a guard refuses. */
  ghost predicate ScreensTo(d: Decision, r: Option<Decision>, cx: Context, reason: string, extra: string, w: World)
  {
    var escalated := EscalatesTo(d, cx, reason, extra, w);
    if escalated.None? || BlockWrongActionOnFailedScheduling(escalated.value, reason).Some? then r.None?
    else exists c :: CompletesTo(escalated.value, c, cx, w) && r == if Passes(c, cx) then Some(c) else None
  }

  /** What images and patches need: the operator's flag, enough confidence, and for an image a valid reference. */
  predicate Passes(d: Decision, cx: Context)
  {
    && (d.action.SetDeploymentImage? ==>
          && cx.cfg.allowImageUpdates && d.confidence >= cx.cfg.imageUpdateThreshold
          && TrimSpace(Param(d.parameters, "image")) != "" && cx.validImage(Param(d.parameters, "image")))
    && (d.action.PatchProbe? ==> cx.cfg.allowPatchProbe && d.confidence >= cx.cfg.patchConfidenceThreshold)
    && (d.action.PatchResources? ==> cx.cfg.allowPatchResources && d.confidence >= cx.cfg.patchConfidenceThreshold)
    && (d.action.PatchRegistry? ==> cx.cfg.allowPatchRegistry && d.confidence >= cx.cfg.patchConfidenceThreshold)
  }

  /** The two guards let exactly that through. */
  lemma GuardsAreExact(d: Decision, cx: Context)
    ensures Passes(d, cx) <==>
      && BlockUnsafeImageUpdate(d, cx.cfg.allowImageUpdates, cx.cfg.imageUpdateThreshold, cx.validImage).None?
      && BlockUnsafePatch(d, cx.cfg).None?
  {
    hide TrimSpace;
  }

  /** What lacks an image was not escalated, whatever the cluster holds. */
  lemma EscalatedBefore(d: Decision, e: Decision, cx: Context, reason: string, extra: string, read: World, later: World)
    requires LacksImage(e, cx.cfg) || later == read
    ensures EscalatesTo(d, cx, reason, extra, read) == Some(e) ==> EscalatesTo(d, cx, reason, extra, later) == Some(e)
  {
    hide ReadsTo, AllowsPatch, ChooseProbe, TrimSpace, IsUnhealthy, ShowsOOM;
  }

  lemma OnlyImagesLack(d: Decision, cfg: AgentConfig)
    ensures LacksImage(d, cfg) ==> d.action.SetDeploymentImage?
  {
    hide TrimSpace;
  }

  /** What was escalated was a restart and is a patch. */
  lemma EscalatedLacksNothing(d: Decision, e: Decision, cfg: AgentConfig)
    requires d.action.RestartDeployment? && (e.action.PatchProbe? || e.action.PatchResources?)
    ensures !LacksImage(d, cfg) && !LacksImage(e, cfg)
  {
    hide TrimSpace;
  }

  /** What kept an image from being derived while completing the decision counts from the beginning. */
  lemma ExcusedSince(a: Ledger, b: Ledger, c: Ledger, d: Decision, e: Decision, d': Decision, cx: Context)
    requires OnlyRead(a, b) && OnlyRead(b, c) && (e == d || !LacksImage(e, cx.cfg))
    requires d' == e && LacksImage(e, cx.cfg) ==>
      Faulted(c.taken, |b.taken|) || Underived(e, cx, c.history, |b.history| - 1)
    requires !LacksImage(e, cx.cfg) ==> d' == e
    requires e != d ==> !LacksImage(d, cx.cfg)
    ensures Faulted(c.taken, |a.taken|) || !Passes(d', cx) ==>
      Faulted(c.taken, |a.taken|) || TurnedDown(d, d', cx, c.history, |a.history| - 1)
  {
    hide LacksImage, Underived, Faulted, Spares, OnlyOthers, Passes;
    FaultedLonger(c.taken, |b.taken|, c.taken, |a.taken|);
    if d' == d && LacksImage(d, cx.cfg) && Underived(e, cx, c.history, |b.history| - 1) {
      UnderivedSince(d, cx, c.history, |b.history| - 1, |a.history| - 1);
    }
  }

  /** Reading on from what was read. */
  lemma ReadOn(a: Ledger, b: Ledger, c: Ledger)
    requires OnlyRead(a, b) && OnlyRead(b, c)
    ensures OnlyRead(a, c) && Onward(b, c) && 0 < |a.history| <= |b.history|
    ensures Spares(a.turns) ==>
      Spares(b.turns) && c.world.pods == b.world.pods && c.world.replicaSets == b.world.replicaSets
  {
    hide Spares, OnlyOthers;
    OnlyReadThen(a, b, c);
  }

  /** The restart was blocked, and the patch that should replace it is disabled or was not fit. */
  ghost predicate Unescalated(d: Decision, cx: Context, reason: string, extra: string, history: seq<World>, since: nat)
  {
    if BlockRestartOnProbeFailure(d, reason).Some? then !cx.cfg.allowPatchProbe || Unfit(d, "probe", history, since)
    else
      && BlockRestartOnOOMKilled(d, extra).Some?
      && (!cx.cfg.allowPatchResources || Unfit(d, "resources", history, since))
  }

  /**
   What a decision is escalated to: a fitting patch in the place of a useless restart, itself when no guard objects.
   */
  ghost predicate Escalated(a: Ledger, b: Ledger, d: Decision, d': Decision, cx: Context, reason: string, extra: string,
                            err: Option<string>)
  {
    && OnlyRead(a, b)
    && (err.None? ==>
          && SameAim(d, d') && Became(d, d', cx, b.history, |a.history| - 1)
          && (|| (d' == d && BlockRestartOnProbeFailure(d, reason).None? && BlockRestartOnOOMKilled(d, extra).None?)
              || (d.action.RestartDeployment? && d'.action.PatchProbe? && IsUnhealthy(reason))
              || (d.action.RestartDeployment? && d'.action.PatchResources? && ShowsOOM(extra)))
          && (d' != d ==> BlockUnsafePatch(d', cx.cfg).None?))
    && (err.Some? ==> Faulted(b.taken, |a.taken|) || Unescalated(d, cx, reason, extra, b.history, |a.history| - 1))
    && (Spares(a.turns) ==> (if err.None? then Some(d') else None) == EscalatesTo(d, cx, reason, extra, b.world))
  }

  /** Replaces a restart that cannot help, or reports why it is blocked. */
  method Escalate(api: ApiServer, d: Decision, cx: Context, reason: string, extra: string)
    returns (d': Decision, err: Option<string>)
    requires api.Valid()
    modifies api
    ensures api.Valid() && Escalated(old(api.Books()), api.Books(), d, d', cx, reason, extra, err)
  {
    hide IsUnhealthy, ShowsOOM, BlockUnsafePatch, TrimSpace, RelaxesProbe, RaisesMemory, Completed, ApiServer.Valid,
         ProbeEscalation, MemoryEscalation, Held, OnlyRead, Spares, Unfit, Faulted;
    api.LastMoment();
    NothingRead(api.Books());
    d' := d;
    err := BlockRestartOnProbeFailure(d', reason);
    if err.Some? {
      var ok;
      d', ok := TryAutoPatchProbe(api, d', cx);
      if !ok {
        return;
      }
      err := None;
    }
    err := BlockRestartOnOOMKilled(d', extra);
    if err.Some? {
      var ok;
      d', ok := TryAutoPatchResources(api, d', cx);
      if !ok {
        return;
      }
      err := None;
    }
  }

  /**
   Why a guard refused: a blocked restart, a useless action, or a decision that does not pass for all that was
   derived.
   */
  ghost predicate ScreenedOut(d: Decision, cx: Context, reason: string, extra: string, history: seq<World>, since: nat)
  {
    || Unescalated(d, cx, reason, extra, history, since)
    || BlockWrongActionOnFailedScheduling(d, reason).Some?
    || exists d' :: Became(d, d', cx, history, since) && TurnedDown(d, d', cx, history, since)
  }

  ghost predicate TurnedDown(d: Decision, d': Decision, cx: Context, history: seq<World>, since: nat)
  {
    !Passes(d', cx) && (d' == d && LacksImage(d, cx.cfg) ==> Underived(d, cx, history, since))
  }

  /** What passes the guards respects them all and stays on its aim; what does not was refused for cause. */
  ghost predicate Screened(a: Ledger, b: Ledger, d: Decision, d': Decision, cx: Context, reason: string, extra: string,
                           err: Option<string>)
  {
    && OnlyRead(a, b)
    && (err.None? ==> Cleared(d, d', cx, reason, extra) && Became(d, d', cx, b.history, |a.history| - 1))
    && (err.Some? ==> Faulted(b.taken, |a.taken|) || ScreenedOut(d, cx, reason, extra, b.history, |a.history| - 1))
    && (Spares(a.turns) ==> ScreensTo(d, if err.None? then Some(d') else None, cx, reason, extra, b.world))
  }

  lemma NotEscalated(a: Ledger, b: Ledger, d: Decision, e: Decision, cx: Context, reason: string, extra: string,
                     err: Option<string>)
    requires Escalated(a, b, d, e, cx, reason, extra, err) && err.Some?
    ensures Screened(a, b, d, e, cx, reason, extra, err)
  {
    hide EscalatesTo, CompletesTo, Unescalated, OnlyRead, Faulted, Spares;
  }

  lemma OfNoUse(a: Ledger, b: Ledger, d: Decision, e: Decision, cx: Context, reason: string, extra: string,
                err: Option<string>)
    requires Escalated(a, b, d, e, cx, reason, extra, Option.None)
    requires err.Some? && BlockWrongActionOnFailedScheduling(e, reason).Some?
    ensures Screened(a, b, d, e, cx, reason, extra, err)
  {
    hide EscalatesTo, CompletesTo, Unescalated, OnlyRead, Faulted, Spares, IsFailedScheduling, Became, SameAim;
  }

  /** After the escalation and the completion the remaining guards decide. */
  lemma ScreenedInTheEnd(a: Ledger, b: Ledger, c: Ledger, d: Decision, e: Decision, d': Decision, cx: Context,
                         reason: string,
                         extra: string, err: Option<string>)
    requires Escalated(a, b, d, e, cx, reason, extra, Option.None)
    requires BlockWrongActionOnFailedScheduling(e, reason).None?
    requires Finished(b, c, e, d', cx) && (err.None? <==> Passes(d', cx))
    ensures Screened(a, c, d, d', cx, reason, extra, err)
  {
    hide EscalatesTo, CompletesTo, Held, Became, Completed, LacksImage, OnlyRead, Spares, Underived, Faulted,
         Unescalated;
    hide IsUnhealthy, IsFailedScheduling, ShowsOOM, BlockUnsafePatch, BlockUnsafeImageUpdate, Pinned, Passes;
    ReadOn(a, b, c);
    BecameInTheEnd(d, e, d', cx, b.history, c.history, |a.history| - 1);
    EscalatedBefore(d, e, cx, reason, extra, b.world, c.world);
    if e != d {
      EscalatedLacksNothing(d, e, cx.cfg);
    }
    ExcusedSince(a, b, c, d, e, d', cx);
    OnlyImagesLack(e, cx.cfg);
  }

  method Screen(api: ApiServer, d: Decision, cx: Context, reason: string, extra: string)
    returns (d': Decision, err: Option<string>)
    requires api.Valid()
    modifies api
    ensures api.Valid() && Screened(old(api.Books()), api.Books(), d, d', cx, reason, extra, err)
  {
    hide Escalated, Finished, Screened, Passes, BlockWrongActionOnFailedScheduling, BlockUnsafePatch,
         BlockUnsafeImageUpdate,
         ApiServer.Valid;
    d', err := Escalate(api, d, cx, reason, extra);
    if err.Some? {
      NotEscalated(old(api.Books()), api.Books(), d, d', cx, reason, extra, err);
      return;
    }
    ghost var escalated, read := d', api.Books();
    err := BlockWrongActionOnFailedScheduling(d', reason);
    if err.Some? {
      OfNoUse(old(api.Books()), api.Books(), d, d', cx, reason, extra, err);
      return;
    }
    d' := CompleteImage(api, d', cx);
    err := BlockUnsafeImageUpdate(d', cx.cfg.allowImageUpdates, cx.cfg.imageUpdateThreshold, cx.validImage);
    if err.None? {
      err := BlockUnsafePatch(d', cx.cfg);
    }
    GuardsAreExact(d', cx);
    ScreenedInTheEnd(old(api.Books()), read, api.Books(), d, escalated, d', cx, reason, extra, err);
  }
}
