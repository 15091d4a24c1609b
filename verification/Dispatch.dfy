/** Carrying out a cleared decision, and what executing any decision can do to the cluster. */
module Dispatch {
  import opened Results
  import opened Text
  import opened Model
  import opened Policy
  import opened Deployments
  import opened WorkingCopies
  import opened Histories
  import opened Cluster
  import opened Naming
  import opened Oom
  import opened Execution

  // ---- what a cleared decision asks for ---------------------------------------------------

  const PROBE_FIELDS := ["initial_delay_seconds", "period_seconds", "failure_threshold", "success_threshold",
                         "timeout_seconds"]
  const TOLERANT_TIMINGS := map["failure_threshold" := "6", "period_seconds" := "15", "timeout_seconds" := "5"]

  function Timing(params: map<string, string>, key: string): string
  {
    TrimSpace(Param(params, key))
  }

  function GivenTimings(params: map<string, string>, keys: seq<string>): map<string, string>
  {
    map key | key in keys && Timing(params, key) != "" :: Timing(params, key)
  }

  /** The timings that were given, or the tolerant ones when none was. */
  function Timings(params: map<string, string>): (fields: map<string, string>)
    ensures fields != map[]
  {
    var given := GivenTimings(params, PROBE_FIELDS);
    if given == map[] then
      assert "period_seconds" in TOLERANT_TIMINGS;
      TOLERANT_TIMINGS
    else given
  }

  /** The timing under the key is taken over as it was given, and left out when it was not. */
  predicate TakenOver(params: map<string, string>, key: string, fields: map<string, string>)
  {
    if TrimSpace(Param(params, key)) == "" then key !in fields
    else key in fields && fields[key] == TrimSpace(Param(params, key))
  }

  predicate NoTimingGiven(params: map<string, string>)
  {
    && TrimSpace(Param(params, "initial_delay_seconds")) == "" && TrimSpace(Param(params, "period_seconds")) == ""
    && TrimSpace(Param(params, "failure_threshold")) == "" && TrimSpace(Param(params, "success_threshold")) == ""
    && TrimSpace(Param(params, "timeout_seconds")) == ""
  }

  /** Exactly the timings given; six failures at fifteen seconds with a timeout of five when there are none. */
  predicate FieldsAsked(params: map<string, string>, fields: map<string, string>)
  {
    if NoTimingGiven(params)
    then fields == map["failure_threshold" := "6", "period_seconds" := "15", "timeout_seconds" := "5"]
    else
      && TakenOver(params, "initial_delay_seconds", fields) && TakenOver(params, "period_seconds", fields)
      && TakenOver(params, "failure_threshold", fields) && TakenOver(params, "success_threshold", fields)
      && TakenOver(params, "timeout_seconds", fields)
      && fields.Keys <= {"initial_delay_seconds", "period_seconds", "failure_threshold", "success_threshold",
                         "timeout_seconds"}
  }

  /** All that is given is taken over, whatever the keys are called. */
  lemma AllTakenOver(params: map<string, string>, keys: seq<string>)
    ensures var given := GivenTimings(params, keys);
      && (forall key :: key in keys ==> TakenOver(params, key, given))
      && (forall key :: key in given ==> key in keys)
      && (given == map[] <==> forall key :: key in keys ==> TrimSpace(Param(params, key)) == "")
  {
    hide TrimSpace;
    var given := GivenTimings(params, keys);
    if key :| key in keys && Timing(params, key) != "" {
      assert key in given;
    }
  }

  lemma TakenOverByKey(params: map<string, string>, a: string, b: string, c: string, d: string, e: string)
    ensures var given := GivenTimings(params, [a, b, c, d, e]);
      && TakenOver(params, a, given) && TakenOver(params, b, given) && TakenOver(params, c, given)
      && TakenOver(params, d, given) && TakenOver(params, e, given) && given.Keys <= {a, b, c, d, e}
      && (given == map[] <==>
            && TrimSpace(Param(params, a)) == "" && TrimSpace(Param(params, b)) == ""
            && TrimSpace(Param(params, c)) == "" && TrimSpace(Param(params, d)) == ""
            && TrimSpace(Param(params, e)) == "")
  {
    hide TrimSpace, TakenOver, GivenTimings, Param;
    AllTakenOver(params, [a, b, c, d, e]);
  }

  lemma TimingsAsAsked(params: map<string, string>)
    ensures FieldsAsked(params, Timings(params))
  {
    hide TrimSpace, TakenOver, GivenTimings;
    TakenOverByKey(params, "initial_delay_seconds", "period_seconds", "failure_threshold", "success_threshold",
                   "timeout_seconds");
  }

  predicate NamesProbe(params: map<string, string>)
  {
    ToLower(Timing(params, "probe")) == "readiness" || ToLower(Timing(params, "probe")) == "liveness"
  }

  /** The probe the parameters name; else the one the Deployment offers, in the container they name if any. */
  function MeantProbe(params: map<string, string>, seen: Option<Dep>): Option<(string, string)>
  {
    var container := Timing(params, "container");
    if NamesProbe(params) then Some((container, ToLower(Timing(params, "probe"))))
    else if seen.None? || ChooseProbe(seen.value).None? then None
    else
      var chosen := ChooseProbe(seen.value).value;
      Some((if container == "" then chosen.0 else container, chosen.1))
  }

  /**
   The quantities of a patch: floored under OOM, defaulted for a pod no node takes, floored again when none was
   given.
   */
  function Supplied(text: QuantityText, asked: map<string, string>, reason: string, extra: string,
                    seen: Option<Dep>): map<string, string>
  {
    if !ShowsOOM(extra) && HasResourceParams(asked) then asked
    else if !ShowsOOM(extra) && IsFailedScheduling(reason) then SchedulableDefaults(text, asked)
    else if seen.Some? then FloorParams(text, seen.value, asked) else asked
  }

  function ResizeTo(text: QuantityText, params: map<string, string>): Mutation
  {
    Mutation.Resize(Param(params, "container"), RequestOf(text, params))
  }

  /** The replica count asked for: a 32-bit number within the policy bounds. */
  function ReplicasAsked(d: Decision, cfg: AgentConfig): (r: Result<int>)
    ensures r.Ok? ==> Atoi(Param(d.parameters, "replicas")) == Some(r.value)
    ensures r.Ok? ==> -0x8000_0000 <= r.value <= 0x7FFF_FFFF && cfg.minScale <= r.value <= cfg.maxScale
  {
    var replicas := Atoi(Param(d.parameters, "replicas"));
    if replicas.None? then Err("invalid replicas parameter")
    else if replicas.value < -0x8000_0000 || replicas.value > 0x7FFF_FFFF then Err("replicas out of range")
    else if replicas.value < cfg.minScale || replicas.value > cfg.maxScale then Err("replicas outside policy")
    else Ok(replicas.value)
  }

  /** The change a decision asks for, given the Deployment as it was read on the way, if it was. */
  function Plan(d: Decision, cx: Context, reason: string, extra: string, seen: Option<Dep>): Result<Mutation>
  {
    match d.action
    case RestartDeployment => Ok(Mutation.Restart)
    case ScaleDeployment =>
      var n := ReplicasAsked(d, cx.cfg);
      if n.Ok? then Ok(Mutation.Scale(n.value)) else Err(n.error)
    case SetDeploymentImage =>
      if TrimSpace(Param(d.parameters, "image")) == "" then Err("image parameter is required")
      else Ok(Mutation.SetImage(Param(d.parameters, "image"), Param(d.parameters, "container")))
    case PatchProbe =>
      var probe := MeantProbe(d.parameters, seen);
      if probe.None? then Err("probe must be one of: readiness, liveness")
      else Ok(Mutation.Retime(probe.value.0, probe.value.1, Timings(d.parameters)))
    case PatchResources => Ok(ResizeTo(cx.text, Supplied(cx.text, d.parameters, reason, extra, seen)))
    case PatchRegistry =>
      Ok(Mutation.MoveRegistry(Param(d.parameters, "container"), Param(d.parameters, "new_registry")))
    case _ => Err("no change of a deployment")
  }

  /** The probe that is named, or any when none is; in the container that is named, or any when neither is. */
  predicate ProbeAsked(params: map<string, string>, container: string, probe: string)
  {
    var word := ToLower(TrimSpace(Param(params, "probe")));
    && (probe == "readiness" || probe == "liveness")
    && (word == "readiness" || word == "liveness" ==>
          probe == word && container == TrimSpace(Param(params, "container")))
    && (TrimSpace(Param(params, "container")) != "" ==> container == TrimSpace(Param(params, "container")))
  }

  /** The change is of the kind that belongs to the action, and says what the parameters say. */
  predicate Asked(d: Decision, mu: Mutation, cfg: AgentConfig)
  {
    match mu
    case Restart => d.action.RestartDeployment?
    case Scale(n) =>
      && d.action.ScaleDeployment? && Atoi(Param(d.parameters, "replicas")) == Some(n)
      && -0x8000_0000 <= n <= 0x7FFF_FFFF && cfg.minScale <= n <= cfg.maxScale
    case SetImage(image, container) =>
      && d.action.SetDeploymentImage? && TrimSpace(image) != ""
      && image == Param(d.parameters, "image") && container == Param(d.parameters, "container")
    case Retime(container, probe, fields) =>
      d.action.PatchProbe? && FieldsAsked(d.parameters, fields) && ProbeAsked(d.parameters, container, probe)
    case Resize(container, _) => d.action.PatchResources? && container == Param(d.parameters, "container")
    case MoveRegistry(container, registry) =>
      && d.action.PatchRegistry?
      && container == Param(d.parameters, "container") && registry == Param(d.parameters, "new_registry")
  }

  lemma MeantAsAsked(params: map<string, string>, seen: Option<Dep>)
    requires MeantProbe(params, seen).Some?
    ensures var (container, probe) := MeantProbe(params, seen).value; ProbeAsked(params, container, probe)
  {
    hide TrimSpace, ToLower, ChooseProbe;
  }

  /** Raised and defaulted quantities stay with the container asked for. */
  lemma SuppliedKeepsContainer(text: QuantityText, asked: map<string, string>, reason: string, extra: string,
                               seen: Option<Dep>)
    ensures Param(Supplied(text, asked, reason, extra, seen), "container") == Param(asked, "container")
  {
    hide FloorFor, ReadRaw, HasResourceParams, IsFailedScheduling, ShowsOOM, Half;
    DistinctKeys();
    if seen.Some? {
      RaisedContainerName(text, asked, FloorFor(seen.value, asked));
    }
  }

  /** Whatever is planned was asked for. */
  lemma PlanIsAsked(d: Decision, cx: Context, reason: string, extra: string, seen: Option<Dep>)
    requires Plan(d, cx, reason, extra, seen).Ok?
    ensures Asked(d, Plan(d, cx, reason, extra, seen).value, cx.cfg)
  {
    hide MeantProbe, Timings, FieldsAsked, ProbeAsked, Supplied, RequestOf, TrimSpace, Atoi, ReplicasAsked;
    match d.action {
      case PatchProbe =>
        TimingsAsAsked(d.parameters);
        MeantAsAsked(d.parameters, seen);
      case PatchResources => SuppliedKeepsContainer(cx.text, d.parameters, reason, extra, seen);
      case _ =>
    }
  }

  /** Nothing is planned exactly when the parameters, and what was seen, leave open what is to be written. */
  lemma PlanFailsExactly(d: Decision, cx: Context, reason: string, extra: string, seen: Option<Dep>)
    requires ChangesDeployment(d.action)
    ensures Plan(d, cx, reason, extra, seen).Err? <==>
      match d.action
      case ScaleDeployment =>
        var n := Atoi(Param(d.parameters, "replicas"));
        !(n.Some? && -0x8000_0000 <= n.value <= 0x7FFF_FFFF && cx.cfg.minScale <= n.value <= cx.cfg.maxScale)
      case SetDeploymentImage => TrimSpace(Param(d.parameters, "image")) == ""
      case PatchProbe =>
        var word := ToLower(TrimSpace(Param(d.parameters, "probe")));
        && word != "readiness" && word != "liveness"
        && (seen.None? || forall c :: c in seen.value.containers ==> c.readiness.None? && c.liveness.None?)
      case _ => false
  {
    hide TrimSpace, ToLower, Timings, Supplied, Atoi;
  }

  /** What becomes of the quantities: kept, defaulted for a pod no node takes, or raised after the container seen. */
  lemma SuppliedMeaning(text: QuantityText, asked: map<string, string>, reason: string, extra: string,
                        seen: Option<Dep>)
    requires ReadsBack(text)
    ensures var supplied := Supplied(text, asked, reason, extra, seen);
      var given := RequestOf(text, asked) != ResourceRequest(Absent, Absent, Absent, Absent);
      if !ShowsOOM(extra) && given then supplied == asked
      else if !ShowsOOM(extra) && ToLower(TrimSpace(reason)) == "failedscheduling" then
        RequestOf(text, supplied)
        == ResourceRequest(Amount(100), Amount(67_108_864_000), Amount(500), Amount(268_435_456_000))
      else supplied == if seen.Some? then FloorParams(text, seen.value, asked) else asked
  {
    hide TrimSpace, ToLower, RequestOf, HasResourceParams, ShowsOOM, IsFailedScheduling, FloorParams, ReadsBack,
         SchedulableDefaults;
    NothingAsked(text, asked);
    GuardWords(reason, extra);
    DefaultsRequest(text, asked);
  }

  /** The actions that end in a Deployment write. */
  predicate ChangesDeployment(action: Action)
  {
    action.RestartDeployment? || action.ScaleDeployment? || action.SetDeploymentImage? || IsPatch(action)
  }

  /** An act this decision covers: the change it asks for on the Deployment it is aimed at, or its own pod. */
  predicate Covered(act: Act, d: Decision, cfg: AgentConfig)
  {
    match act
    case DeletedPod(key, force) =>
      && key == Key(d.namespace, d.resourceName) && EqualFold(d.resourceKind, "Pod")
      && (if force then d.action.DeleteAndRecreate? else d.action.DeleteFailedPod?)
    case Wrote(c) =>
      && IsChange(c) && c.writer.Agent? && c.key.ns == d.namespace
      && (Pinned(d) != "" ==> c.key.name == Pinned(d))
      && Asked(d, c.writer.mu, cfg)
  }

  /** At most one act was added and it is covered; a failure or a dry run added none. */
  predicate Acted(before: seq<Act>, after: seq<Act>, d: Decision, cfg: AgentConfig, err: Option<string>)
  {
    && (after == before
        || (|after| == |before| + 1 && after[..|before|] == before && Covered(after[|before|], d, cfg)))
    && (err.Some? || cfg.dryRun ==> after == before)
  }

  /** The act writes what was planned, on the strength of what was read of that same Deployment. */
  ghost predicate Planned(act: Act, d: Decision, cx: Context, reason: string, extra: string, history: seq<World>,
                          since: nat)
  {
    act.Wrote? && act.commit.writer.Agent? ==>
      exists seen: Option<Dep> ::
        && Plan(d, cx, reason, extra, seen) == Ok(act.commit.writer.mu)
        && (seen.Some? ==> Held(history, since, act.commit.key, seen.value))
  }

  lemma PlannedLonger(act: Act, d: Decision, cx: Context, reason: string, extra: string,
                      earlier: seq<World>, from: nat, later: seq<World>, since: nat)
    requires Planned(act, d, cx, reason, extra, earlier, from) && earlier <= later && since <= from
    ensures Planned(act, d, cx, reason, extra, later, since)
  {
    hide Plan, Held;
    if act.Wrote? && act.commit.writer.Agent? {
      var seen: Option<Dep> :| Plan(d, cx, reason, extra, seen) == Ok(act.commit.writer.mu)
        && (seen.Some? ==> Held(earlier, from, act.commit.key, seen.value));
      if seen.Some? {
        HeldLonger(earlier, from, later, since, act.commit.key, seen.value);
      }
    }
  }

  /**
   How a change ends in an undisturbed cluster: carried out exactly when it is possible; a dry run only says
   whether.
   */
  predicate Settles(before: seq<Act>, after: seq<Act>, err: Option<string>, key: Key, mu: Mutation, cx: Context,
                    w: World)
  {
    var possible := key in w.deployments && Mutated(w.deployments[key].dep, mu, cx.now).Ok?;
    && (err.None? <==> possible)
    && if !possible || cx.cfg.dryRun then after == before
       else
         var dep := w.deployments[key].dep;
         after == before + [Wrote(Commit(Agent(mu, cx.now), key, Some(dep), Some(Mutated(dep, mu, cx.now).value)))]
  }

  /** What a dry run says of a change: whether it is possible on the version read. */
  ghost predicate Rehearsed(a: Ledger, b: Ledger, key: Key, mu: Mutation, at: string, err: Option<string>)
  {
    && OnlyRead(a, b)
    && (err.None? ==> key in b.world.deployments && Mutated(b.world.deployments[key].dep, mu, at).Ok?)
    && (err.Some? ==> Faulted(b.taken, |a.taken|) || NotTaken(b.world, key, mu, at))
  }

  /** A dry run of a change: read, edit the copy, drop it. */
  method Rehearse(api: ApiServer, key: Key, mu: Mutation, at: string) returns (err: Option<string>)
    requires api.Valid()
    modifies api
    ensures api.Valid() && Rehearsed(old(api.Books()), api.Books(), key, mu, at, err)
  {
    hide Mutated, Becomes, ApiServer.Valid, OnlyRead, Kept, Spares, Faulted;
    var read := api.GetDeployment(key);
    if read.Err? {
      return Some(read.error);
    }
    var dep := new Deployment(read.value.dep);
    err := dep.Mutate(mu, at);
  }

  /** Writes the change, or only rehearses it in a dry run. */
  method Carry(api: ApiServer, key: Key, mu: Mutation, cx: Context) returns (err: Option<string>)
    requires api.Valid()
    modifies api
    ensures api.Valid() && Taken(old(api.Books()), api.Books(), key, mu, cx, err)
    ensures old(api.turns) == [] && (cx.cfg.dryRun || err.Some?) ==> api.Books() == old(api.Books())
  {
    hide Mutated, Refused, Faulted, Spares, OnlyOthers, Rivals;
    if cx.cfg.dryRun {
      err := Rehearse(api, key, mu, cx.now);
    } else {
      err := api.MutateDeployment(key, mu, cx.now);
      assert err.None? ==> IsChange(api.log[|api.log| - 1]);
    }
  }

  ghost predicate Taken(a: Ledger, b: Ledger, key: Key, mu: Mutation, cx: Context, err: Option<string>)
  {
    if cx.cfg.dryRun then Rehearsed(a, b, key, mu, cx.now, err)
    else Cycled(a, b, key, mu, cx.now, err) && (err.None? ==> IsChange(b.log[|b.log| - 1]))
  }

  function SeenIn(w: World, key: Key): Option<Dep>
  {
    if key in w.deployments then Some(w.deployments[key].dep) else None
  }

  /** How a decision about a Deployment ends in an undisturbed cluster; dry restarts and scalings read nothing. */
  predicate ChangeDone(before: seq<Act>, after: seq<Act>, err: Option<string>, d: Decision, cx: Context,
                       reason: string, extra: string, w: World)
  {
    var name := TargetName(d.namespace, d.resourceKind, d.resourceName, d.parameters, w);
    if name.None? then err.Some? && after == before
    else
      var key := Key(d.namespace, name.value);
      var plan := Plan(d, cx, reason, extra, SeenIn(w, key));
      if plan.Err? then err.Some? && after == before
      else if cx.cfg.dryRun && (plan.value.Restart? || plan.value.Scale?) then err.None? && after == before
      else Settles(before, after, err, key, plan.value, cx, w)
  }

  // ---- one method per action ----------------------------------------------------------------

  method Target(api: ApiServer, d: Decision) returns (r: Result<string>)
    requires api.Valid()
    modifies api
    ensures api.Valid() && api.Quiet()
    ensures r.Ok? ==> Means(d, Key(d.namespace, r.value), api.history, |old(api.history)| - 1)
    ensures r.Ok? && Pinned(d) != "" ==> r.value == Pinned(d)
    ensures r.Err? ==> Faulted(api.taken, |old(api.taken)|) || MeansNone(d, api.history, |old(api.history)| - 1)
    ensures Spares(old(api.turns)) ==>
      Known(r) == TargetName(d.namespace, d.resourceKind, d.resourceName, d.parameters, api.Present())
  {
    hide ApiServer.Valid, TrimSpace, OwnerSeen, TargetName, EqualFold, OnlyRead, Spares, Faulted, TargetNotSeen;
    r := ResolveDeploymentTarget(api, d.namespace, d.resourceKind, d.resourceName, d.parameters);
  }

  /** The cluster before and after. */
  datatype Course = Course(start: Ledger, end: Ledger)

  twostate function CourseOf(api: ApiServer): Course
    reads api
  {
    Course(old(api.Books()), api.Books())
  }

  /** The contents of the cluster after the act that was added, if one was. */
  function WithNewAct(run: Course): World
  {
    var before, after := run.start.acts, run.end.acts;
    if |after| <= |before| then run.start.world else Stepped(run.start.world, Ours(after[|before|]))
  }

  /**
   Without an act of the agent the time between was calm. Undisturbed, the cluster ends up as the added act made it, and
   failures and dry runs leave no trace at all.
   */
  ghost predicate Harmless(run: Course, cfg: AgentConfig, err: Option<string>)
  {
    && run.start.history != [] && run.start.history[|run.start.history| - 1] == run.start.world
    && Onward(run.start, run.end)
    && (run.end.acts == run.start.acts ==> Calm(run.start, run.end))
    && (run.start.turns == [] && (cfg.dryRun || err.Some?) ==> run.end == run.start)
    && (run.start.turns == [] ==> run.end.world == WithNewAct(run))
  }

  /** What every execution of a change promises. */
  ghost predicate Executes(run: Course, d: Decision, cx: Context, reason: string, extra: string, err: Option<string>)
  {
    var before, after, since := run.start.acts, run.end.acts, |run.start.history| - 1;
    && Harmless(run, cx.cfg, err)
    && Acted(before, after, d, cx.cfg, err)
    && (err.None? && !cx.cfg.dryRun ==> |after| == |before| + 1)
    && (|after| > |before| ==> Planned(after[|before|], d, cx, reason, extra, run.end.history, since))
    && (run.start.turns == [] ==> ChangeDone(before, after, err, d, cx, reason, extra, run.start.world))
    && (Spares(run.start.turns) ==> ChangeSpared(run, d, cx, reason, extra, err))
    && (err.Some? ==> Faulted(run.end.taken, |run.start.taken|) || ChangeFailed(run, d, cx, reason, extra))
  }

  /**
   Why a change was not made although no request failed: no Deployment was meant, or for the one meant there was nothing
   to write, or the change was not possible, or five times somebody else was faster.
   */
  ghost predicate ChangeFailed(run: Course, d: Decision, cx: Context, reason: string, extra: string)
    requires run.start.history != []
  {
    var history, since := run.end.history, |run.start.history| - 1;
    || MeansNone(d, history, since)
    || exists key, i ::
         since <= i < |history| && Means(d, key, history, since) && FailedAt(run, d, cx, reason, extra, key, i)
  }

  ghost predicate FailedAt(run: Course, d: Decision, cx: Context, reason: string, extra: string, key: Key, i: nat)
    requires run.start.history != [] && i < |run.end.history|
  {
    match Plan(d, cx, reason, extra, SeenIn(run.end.history[i], key))
    case Err(_) => true
    case Ok(mu) => NotMade(run, key, mu, cx)
  }

  /** The change was not possible, or five times somebody else was faster. */
  ghost predicate NotMade(run: Course, key: Key, mu: Mutation, cx: Context)
    requires run.start.history != []
  {
    || Refused(run.end.history, |run.start.history| - 1, key, mu, cx.now)
    || (!cx.cfg.dryRun && Rivals(run.end.taken, |run.start.taken|, key) >= 5)
  }

  /**
   While others only write Deployments and no request fails: some moment fixed the target and the plan, the plan was
   carried out, and if not, then because the change was not possible or five times somebody else was faster.
   */
  ghost predicate ChangeSpared(run: Course, d: Decision, cx: Context, reason: string, extra: string,
                               err: Option<string>)
    requires run.start.history != []
  {
    exists i :: |run.start.history| - 1 <= i < |run.end.history| && PlannedAt(run, d, cx, reason, extra, err, i)
  }

  ghost predicate PlannedAt(run: Course, d: Decision, cx: Context, reason: string, extra: string, err: Option<string>,
                            i: nat)
    requires run.start.history != [] && i < |run.end.history|
  {
    match TargetName(d.namespace, d.resourceKind, d.resourceName, d.parameters, run.end.history[i])
    case None => err.Some?
    case Some(name) =>
      match Plan(d, cx, reason, extra, SeenIn(run.end.history[i], Key(d.namespace, name)))
      case Err(_) => err.Some?
      case Ok(mu) => CarriedAsPlanned(run, Key(d.namespace, name), mu, cx, err)
  }

  /** The act that was added writes this change. */
  ghost predicate PlannedWrite(run: Course, mu: Mutation, cx: Context, key: Key)
    requires |run.end.acts| > |run.start.acts|
  {
    var act := run.end.acts[|run.start.acts|];
    act.Wrote? && act.commit.writer == Agent(mu, cx.now) && act.commit.key == key
  }

  ghost predicate CarriedAsPlanned(run: Course, key: Key, mu: Mutation, cx: Context, err: Option<string>)
    requires run.start.history != []
  {
    if cx.cfg.dryRun && (mu.Restart? || mu.Scale?) then err.None?
    else
      && (|run.end.acts| > |run.start.acts| ==> PlannedWrite(run, mu, cx, key))
      && (err.Some? ==> NotMade(run, key, mu, cx))
  }

  /** Carrying out a change planned on what was seen. */
  lemma PlannedAct(run: Course, d: Decision, cx: Context, reason: string, extra: string, name: string, mu: Mutation,
                   seen: Option<Dep>, history: seq<World>, since: nat)
    requires Plan(d, cx, reason, extra, seen) == Ok(mu)
    requires seen.Some? ==> Held(history, since, Key(d.namespace, name), seen.value)
    requires |run.end.acts| > |run.start.acts| && PlannedWrite(run, mu, cx, Key(d.namespace, name))
    ensures Planned(run.end.acts[|run.start.acts|], d, cx, reason, extra, history, since)
  {
    hide Plan, Held;
  }

  /** The change ends before anything is written: no Deployment is meant, or there is nothing to write. */
  lemma NotCarried(run: Course, d: Decision, cx: Context, reason: string, extra: string, err: Option<string>)
    requires OnlyRead(run.start, run.end) && err.Some?
    requires Faulted(run.end.taken, |run.start.taken|) || ChangeFailed(run, d, cx, reason, extra)
    requires Spares(run.start.turns) ==>
      var name := TargetName(d.namespace, d.resourceKind, d.resourceName, d.parameters, run.end.world);
      name.None? || Plan(d, cx, reason, extra, SeenIn(run.end.world, Key(d.namespace, name.value))).Err?
    ensures Executes(run, d, cx, reason, extra, err)
  {
    hide TargetName, Plan, Settles, Covered, Planned, OnlyOthers, Faulted, ChangeFailed;
    assert Spares([]);
    hide Spares;
    if Spares(run.start.turns) {
      assert PlannedAt(run, d, cx, reason, extra, err, |run.end.history| - 1);
    }
  }

  lemma MeantNone(run: Course, d: Decision, cx: Context, reason: string, extra: string)
    requires run.start.history != [] && MeansNone(d, run.end.history, |run.start.history| - 1)
    ensures ChangeFailed(run, d, cx, reason, extra)
  {
    hide MeansNone;
  }

  lemma NothingToWrite(run: Course, d: Decision, cx: Context, reason: string, extra: string, key: Key)
    requires OnlyRead(run.start, run.end) && Means(d, key, run.end.history, |run.start.history| - 1)
    requires Plan(d, cx, reason, extra, SeenIn(run.end.world, key)).Err?
    ensures ChangeFailed(run, d, cx, reason, extra)
  {
    hide MeansNone, Means, Plan, Spares, OnlyOthers;
    assert FailedAt(run, d, cx, reason, extra, key, |run.end.history| - 1);
  }

  lemma StoppedShort(run: Course, d: Decision, cx: Context, reason: string, extra: string, mu: Mutation)
    requires OnlyRead(run.start, run.end) && cx.cfg.dryRun && (mu.Restart? || mu.Scale?)
    requires Spares(run.start.turns) ==>
      var name := TargetName(d.namespace, d.resourceKind, d.resourceName, d.parameters, run.end.world);
      name.Some? && Plan(d, cx, reason, extra, SeenIn(run.end.world, Key(d.namespace, name.value))) == Ok(mu)
    ensures Executes(run, d, cx, reason, extra, Option.None)
  {
    hide TargetName, Plan, Settles, Covered, Planned, OnlyOthers;
    assert Spares([]);
    hide Spares;
    if Spares(run.start.turns) {
      assert PlannedAt(run, d, cx, reason, extra, Option.None, |run.end.history| - 1);
    }
  }

  /** Taken up after the target was resolved and the change planned. */
  ghost predicate TakenUp(run: Course, read: Ledger, d: Decision, cx: Context, reason: string, extra: string,
                          err: Option<string>, name: string, mu: Mutation, seen: Option<Dep>)
  {
    var key := Key(d.namespace, name);
    && OnlyRead(run.start, read) && Taken(read, run.end, key, mu, cx, err)
    && Means(d, key, read.history, |run.start.history| - 1)
    && Asked(d, mu, cx.cfg) && (Pinned(d) != "" ==> name == Pinned(d))
    && (mu.Restart? || mu.Scale? ==> !cx.cfg.dryRun)
    && Plan(d, cx, reason, extra, seen) == Ok(mu)
    && (seen.Some? ==> Held(read.history, |run.start.history| - 1, key, seen.value))
    && (!Faulted(read.taken, |run.start.taken|) ==> Plan(d, cx, reason, extra, SeenIn(read.world, key)) == Ok(mu))
    && (Spares(run.start.turns) ==>
          TargetName(d.namespace, d.resourceKind, d.resourceName, d.parameters, read.world) == Some(name))
  }

  lemma CarriedHarmlessly(run: Course, read: Ledger, d: Decision, cx: Context, reason: string, extra: string,
                          err: Option<string>, name: string, mu: Mutation, seen: Option<Dep>)
    requires TakenUp(run, read, d, cx, reason, extra, err, name, mu, seen)
    ensures Harmless(run, cx.cfg, err) && Acted(run.start.acts, run.end.acts, d, cx.cfg, err)
    ensures err.None? && !cx.cfg.dryRun ==> |run.end.acts| == |run.start.acts| + 1
    ensures |run.end.acts| > |run.start.acts| ==> PlannedWrite(run, mu, cx, Key(d.namespace, name))
  {
    hide Plan, Held, TargetName, TrimSpace, Asked, OnlyOthers, Mutated, NotTaken, Spares, Means;
    hide Refused, Rivals, Faulted;
    if run.end.acts == read.acts {
      CalmThen(run.start, read, run.end);
    }
  }

  lemma CarriedUndisturbed(run: Course, read: Ledger, d: Decision, cx: Context, reason: string, extra: string,
                           err: Option<string>, name: string, mu: Mutation, seen: Option<Dep>)
    requires TakenUp(run, read, d, cx, reason, extra, err, name, mu, seen) && run.start.turns == []
    ensures ChangeDone(run.start.acts, run.end.acts, err, d, cx, reason, extra, run.start.world)
  {
    hide Plan, Held, TargetName, TrimSpace, Asked, OnlyOthers, Mutated, Refused, Rivals, Faulted, Means;
    assert Spares([]);
    SparedMeansNoFault(run.start, read);
    SparedMeansNoFault(read, run.end);
  }

  /** What keeps a planned change from being made when no request fails. */
  lemma WhyNot(run: Course, read: Ledger, key: Key, mu: Mutation, cx: Context, err: Option<string>)
    requires OnlyRead(run.start, read) && Taken(read, run.end, key, mu, cx, err) && err.Some?
    ensures Faulted(run.end.taken, |run.start.taken|) || NotMade(run, key, mu, cx)
  {
    hide Mutated, Rivals, Faulted, Spares, OnlyOthers, CarriedOut;
    FaultedLonger(run.end.taken, |read.taken|, run.end.taken, |run.start.taken|);
    if cx.cfg.dryRun {
      assert NotTaken(run.end.world, key, mu, cx.now) ==>
        NotTaken(run.end.history[|run.end.history| - 1], key, mu, cx.now);
    } else {
      MoreRivals(read.taken, run.end.taken, |run.start.taken|, key);
      if Refused(run.end.history, |read.history| - 1, key, mu, cx.now) {
        StillRefused(run.end.history, |read.history| - 1, |run.start.history| - 1, key, mu, cx.now);
      }
    }
  }

  lemma CarriedForCause(run: Course, read: Ledger, d: Decision, cx: Context, reason: string, extra: string,
                        err: Option<string>, name: string, mu: Mutation, seen: Option<Dep>)
    requires TakenUp(run, read, d, cx, reason, extra, err, name, mu, seen) && err.Some?
    ensures run.start.history != []
    ensures Faulted(run.end.taken, |run.start.taken|) || ChangeFailed(run, d, cx, reason, extra)
  {
    hide Plan, Held, TargetName, TrimSpace, Asked, OnlyOthers, Mutated, Rivals, Faulted, Spares, Means, MeansNone;
    hide Refused;
    var key, i, since := Key(d.namespace, name), |read.history| - 1, |run.start.history| - 1;
    WhyNot(run, read, key, mu, cx, err);
    assert Onward(read, run.end);
    FaultedLonger(read.taken, |run.start.taken|, run.end.taken, |run.start.taken|);
    MeansLonger(d, key, read.history, since, run.end.history, since);
    if !Faulted(run.end.taken, |run.start.taken|) {
      assert run.end.history[i] == read.world;
      assert FailedAt(run, d, cx, reason, extra, key, i);
    }
  }

  lemma CarriedSparedly(run: Course, read: Ledger, d: Decision, cx: Context, reason: string, extra: string,
                        err: Option<string>, name: string, mu: Mutation, seen: Option<Dep>)
    requires TakenUp(run, read, d, cx, reason, extra, err, name, mu, seen) && Spares(run.start.turns)
    requires |run.end.acts| > |run.start.acts| ==> PlannedWrite(run, mu, cx, Key(d.namespace, name))
    ensures ChangeSpared(run, d, cx, reason, extra, err)
  {
    hide Plan, Held, TargetName, TrimSpace, Asked, OnlyOthers, Mutated, Rivals, Faulted, Spares, Means, NotMade;
    var key, i := Key(d.namespace, name), |read.history| - 1;
    assert Onward(run.start, run.end);
    SparedMeansNoFault(run.start, run.end);
    SparedMeansNoFault(run.start, read);
    if err.Some? {
      WhyNot(run, read, key, mu, cx, err);
    }
    assert run.end.history[i] == read.world;
    assert PlannedAt(run, d, cx, reason, extra, err, i);
  }

  lemma Carried(run: Course, read: Ledger, d: Decision, cx: Context, reason: string, extra: string, err: Option<string>,
                name: string, mu: Mutation, seen: Option<Dep>)
    requires TakenUp(run, read, d, cx, reason, extra, err, name, mu, seen)
    ensures Executes(run, d, cx, reason, extra, err)
  {
    CarriedHarmlessly(run, read, d, cx, reason, extra, err, name, mu, seen);
    hide TakenUp, Harmless, Acted, ChangeDone, ChangeSpared, ChangeFailed, Planned, PlannedWrite, Spares, Faulted;
    if err.Some? {
      CarriedForCause(run, read, d, cx, reason, extra, err, name, mu, seen);
    }
    if |run.end.acts| > |run.start.acts| {
      HeldByTheEnd(run, read, d, cx, reason, extra, err, name, mu, seen);
      PlannedAct(run, d, cx, reason, extra, name, mu, seen, run.end.history, |run.start.history| - 1);
    }
    if run.start.turns == [] {
      CarriedUndisturbed(run, read, d, cx, reason, extra, err, name, mu, seen);
    }
    if Spares(run.start.turns) {
      CarriedSparedly(run, read, d, cx, reason, extra, err, name, mu, seen);
    }
  }

  lemma HeldByTheEnd(run: Course, read: Ledger, d: Decision, cx: Context, reason: string, extra: string,
                     err: Option<string>, name: string, mu: Mutation, seen: Option<Dep>)
    requires TakenUp(run, read, d, cx, reason, extra, err, name, mu, seen)
    ensures run.start.history != [] && Plan(d, cx, reason, extra, seen) == Ok(mu)
    ensures seen.Some? ==> Held(run.end.history, |run.start.history| - 1, Key(d.namespace, name), seen.value)
  {
    hide Held, Plan, TargetName, Asked, TrimSpace, Mutated, OnlyOthers, Spares, NotTaken, Refused, Faulted, Rivals,
         Means;
    var since := |run.start.history| - 1;
    if seen.Some? {
      HeldLonger(read.history, since, run.end.history, since, Key(d.namespace, name), seen.value);
    }
  }

  method ExecDeletePod(api: ApiServer, d: Decision, cx: Context) returns (err: Option<string>)
    requires api.Valid() && (d.action.DeleteFailedPod? || d.action.DeleteAndRecreate?)
    modifies api
    ensures api.Valid() && Harmless(CourseOf(api), cx.cfg, err) && Acted(old(api.acts), api.acts, d, cx.cfg, err)
    ensures |api.acts| > |old(api.acts)| ==> api.acts[|old(api.acts)|].DeletedPod?
    ensures err.Some? ==> Faulted(api.taken, |old(api.taken)|) || !EqualFold(d.resourceKind, "Pod")
    ensures Spares(old(api.turns)) ==> PodDone(old(api.acts), api.acts, err, d, cx, old(api.Present()))
    ensures old(api.turns) == [] && EqualFold(d.resourceKind, "Pod") && !cx.cfg.dryRun ==>
      api.Present() == old(api.Present()).(pods := old(api.pods) - {Key(d.namespace, d.resourceName)})
  {
    hide ToLower, Spares, OnlyOthers, ApiServer.Valid;
    api.LastMoment();
    NothingRead(api.Books());
    if !EqualFold(d.resourceKind, "Pod") {
      return Some("requires resource_kind=Pod");
    }
    if cx.cfg.dryRun {
      return None;
    }
    err := api.DeletePod(Key(d.namespace, d.resourceName), d.action.DeleteAndRecreate?);
    FaultTaken(old(api.turns), old(api.taken), api.taken);
  }

  /** How a pod deletion ends in an undisturbed cluster: a pod that is gone already counts as deleted. */
  predicate PodDone(before: seq<Act>, after: seq<Act>, err: Option<string>, d: Decision, cx: Context, w: World)
  {
    var key := Key(d.namespace, d.resourceName);
    && (err.None? <==> EqualFold(d.resourceKind, "Pod"))
    && after == if EqualFold(d.resourceKind, "Pod") && !cx.cfg.dryRun && key in w.pods
                then before + [DeletedPod(key, d.action.DeleteAndRecreate?)] else before
  }

  /** The non-blank timing parameters, or tolerant defaults when there are none. */
  method ProbeFields(params: map<string, string>) returns (fields: map<string, string>)
    ensures fields == Timings(params) && FieldsAsked(params, fields)
  {
    hide TrimSpace, Timings, FieldsAsked;
    fields := map[];
    for i := 0 to |PROBE_FIELDS|
      invariant forall key :: key in fields <==> key in PROBE_FIELDS[..i] && Timing(params, key) != ""
      invariant forall key :: key in fields ==> fields[key] == Timing(params, key)
    {
      var v := TrimSpace(Param(params, PROBE_FIELDS[i]));
      if v != "" {
        fields := fields[PROBE_FIELDS[i] := v];
      }
    }
    assert PROBE_FIELDS[..|PROBE_FIELDS|] == PROBE_FIELDS;
    AllTimings(params, fields);
    TimingsAsAsked(params);
    if fields == map[] {
      fields := TOLERANT_TIMINGS;
    }
  }

  lemma AllTimings(params: map<string, string>, given: map<string, string>)
    requires forall key :: key in given <==> key in PROBE_FIELDS && Timing(params, key) != ""
    requires forall key :: key in given ==> given[key] == Timing(params, key)
    ensures Timings(params) == if given == map[] then TOLERANT_TIMINGS else given
  {
    hide Timing;
    assert GivenTimings(params, PROBE_FIELDS) == given;
  }

  /** The probe meant by the parameters, or one derived from the Deployment when they name none. */
  method ProbeMeant(api: ApiServer, d: Decision, depName: string) returns (r: Result<(string, string)>,
                    ghost seen: Option<Dep>)
    requires api.Valid()
    modifies api
    ensures api.Valid() && api.Quiet()
    ensures r.Ok? ==> MeantProbe(d.parameters, seen) == Some(r.value)
    ensures r.Ok? ==> ProbeAsked(d.parameters, r.value.0, r.value.1)
    ensures r.Ok? && seen.Some? ==>
      && ChooseProbe(seen.value).Some? && r.value.1 == ChooseProbe(seen.value).value.1
      && (TrimSpace(Param(d.parameters, "container")) == "" ==> r.value == ChooseProbe(seen.value).value)
    ensures seen.Some? ==> Held(api.history, |old(api.history)| - 1, Key(d.namespace, depName), seen.value)
    ensures !Faulted(api.taken, |old(api.taken)|) ==>
      Known(r) == MeantProbe(d.parameters, SeenIn(api.Present(), Key(d.namespace, depName)))
  {
    hide TrimSpace, ToLower, ChooseProbe, ApiServer.Valid, Spares, OnlyOthers, Kept, Faulted;
    api.LastMoment();
    NothingRead(api.Books());
    seen := None;
    var container := TrimSpace(Param(d.parameters, "container"));
    var probeType := ToLower(TrimSpace(Param(d.parameters, "probe")));
    if probeType == "readiness" || probeType == "liveness" {
      return Ok((container, probeType)), seen;
    }
    var dep := api.GetDeployment(Key(d.namespace, depName));
    if dep.Err? {
      return Err(dep.error), seen;
    }
    seen := Some(dep.value.dep);
    var chosen := ChooseProbe(dep.value.dep);
    if chosen.None? {
      return Err("no probe to derive a default from"), seen;
    }
    return Ok((if container == "" then chosen.value.0 else container, chosen.value.1)), seen;
  }

  /** Quantities the executor supplies: an OOM floor, schedulable defaults, or again the floor when none were given. */
  method ResourceParams(api: ApiServer, d: Decision, depName: string, cx: Context, reason: string, extra: string)
    returns (params: map<string, string>, ghost seen: Option<Dep>)
    requires api.Valid()
    modifies api
    ensures api.Valid() && api.Quiet()
    ensures params == Supplied(cx.text, d.parameters, reason, extra, seen)
    ensures seen.Some? ==> Held(api.history, |old(api.history)| - 1, Key(d.namespace, depName), seen.value)
    ensures !Faulted(api.taken, |old(api.taken)|) ==>
      params == Supplied(cx.text, d.parameters, reason, extra, SeenIn(api.Present(), Key(d.namespace, depName)))
  {
    hide TrimSpace, ToLower, FloorParams, HasResourceParams, IsFailedScheduling, ShowsOOM, ApiServer.Valid, Held,
         OnlyRead, Spares, Faulted;
    api.LastMoment();
    NothingRead(api.Books());
    params, seen := d.parameters, None;
    if ShowsOOM(extra) {
      params, seen := WithOOMMemoryFloor(api, Key(d.namespace, depName), cx, params);
    } else if IsFailedScheduling(reason) && !HasResourceParams(params) {
      params := SchedulableDefaults(cx.text, params);
    } else if !HasResourceParams(params) {
      params, seen := WithOOMMemoryFloor(api, Key(d.namespace, depName), cx, params);
    }
  }

  /** An unreadable Deployment leaves the parameters alone. */
  method WithOOMMemoryFloor(api: ApiServer, key: Key, cx: Context, params: map<string, string>)
    returns (raised: map<string, string>, ghost seen: Option<Dep>)
    requires api.Valid()
    modifies api
    ensures api.Valid() && api.Quiet()
    ensures raised == if seen.Some? then FloorParams(cx.text, seen.value, params) else params
    ensures seen.Some? ==> Held(api.history, |old(api.history)| - 1, key, seen.value)
    ensures !Faulted(api.taken, |old(api.taken)|) ==> seen == SeenIn(api.Present(), key)
  {
    hide FloorParams, ApiServer.Valid, Spares, OnlyOthers, Kept, Faulted;
    var dep := api.GetDeployment(key);
    if dep.Err? {
      return params, None;
    }
    return FloorParams(cx.text, dep.value.dep, params), Some(dep.value.dep);
  }

  /** The change a decision asks for, reading the Deployment only where its parameters leave something open. */
  method PlanChange(api: ApiServer, d: Decision, depName: string, cx: Context, reason: string, extra: string)
    returns (r: Result<Mutation>, ghost seen: Option<Dep>)
    requires api.Valid() && ChangesDeployment(d.action)
    modifies api
    ensures api.Valid() && api.Quiet()
    ensures r.Ok? ==> Plan(d, cx, reason, extra, seen) == r && Asked(d, r.value, cx.cfg)
    ensures seen.Some? ==> Held(api.history, |old(api.history)| - 1, Key(d.namespace, depName), seen.value)
    ensures !Faulted(api.taken, |old(api.taken)|) ==>
      var plan := Plan(d, cx, reason, extra, SeenIn(api.Present(), Key(d.namespace, depName)));
      if r.Ok? then plan == r else plan.Err?
  {
    hide TrimSpace, MeantProbe, Timings, Supplied, ApiServer.Valid, Held, ReplicasAsked, OnlyRead, Spares, Faulted,
         Asked, FieldsAsked, ProbeAsked, Atoi, ChooseProbe, RequestOf;
    api.LastMoment();
    NothingRead(api.Books());
    seen := None;
    match d.action {
      case RestartDeployment => r := Ok(Mutation.Restart);
      case ScaleDeployment =>
        var n := ReplicasAsked(d, cx.cfg);
        r := if n.Ok? then Ok(Mutation.Scale(n.value)) else Err(n.error);
      case SetDeploymentImage =>
        r := if TrimSpace(Param(d.parameters, "image")) == "" then Err("image parameter is required")
             else Ok(Mutation.SetImage(Param(d.parameters, "image"), Param(d.parameters, "container")));
      case PatchProbe =>
        var fields := ProbeFields(d.parameters);
        var probe;
        probe, seen := ProbeMeant(api, d, depName);
        r := if probe.Err? then Err(probe.error) else Ok(Mutation.Retime(probe.value.0, probe.value.1, fields));
      case PatchResources =>
        var params;
        params, seen := ResourceParams(api, d, depName, cx, reason, extra);
        r := Ok(ResizeTo(cx.text, params));
      case PatchRegistry =>
        r := Ok(Mutation.MoveRegistry(Param(d.parameters, "container"), Param(d.parameters, "new_registry")));
    }
    if r.Ok? {
      PlanIsAsked(d, cx, reason, extra, seen);
    }
  }

  /** Resolves the target, plans the change and carries it out; a dry restart or scaling stops before the write. */
  method ExecChange(api: ApiServer, d: Decision, cx: Context, reason: string, extra: string)
    returns (err: Option<string>)
    requires api.Valid() && ChangesDeployment(d.action)
    modifies api
    ensures api.Valid() && Executes(CourseOf(api), d, cx, reason, extra, err)
  {
    hide TrimSpace, TargetName, Settles, ApiServer.Valid, Executes, Acted, Held, Plan, Asked, OnlyRead, Spares, Taken,
         Means, MeansNone, Faulted, ChangeFailed;
    api.LastMoment();
    var depName := Target(api, d);
    if depName.Err? {
      err := Some(depName.error);
      if MeansNone(d, api.history, |old(api.history)| - 1) {
        MeantNone(CourseOf(api), d, cx, reason, extra);
      }
      NotCarried(CourseOf(api), d, cx, reason, extra, err);
      return;
    }
    ghost var found := api.Books();
    var mu, seen := PlanChange(api, d, depName.value, cx, reason, extra);
    ghost var read := api.Books();
    PlannedOnTarget(old(api.Books()), found, read, d, depName.value, seen);
    if mu.Err? {
      err := Some(mu.error);
      if !Faulted(read.taken, |old(api.taken)|) {
        NothingToWrite(CourseOf(api), d, cx, reason, extra, Key(d.namespace, depName.value));
      }
      NotCarried(CourseOf(api), d, cx, reason, extra, err);
      return;
    }
    if cx.cfg.dryRun && (mu.value.Restart? || mu.value.Scale?) {
      StoppedShort(CourseOf(api), d, cx, reason, extra, mu.value);
      return None;
    }
    err := Carry(api, Key(d.namespace, depName.value), mu.value, cx);
    Carried(CourseOf(api), read, d, cx, reason, extra, err, depName.value, mu.value, seen);
  }

  /** Planning comes after finding the target, which stays what it was when others spare it. */
  lemma PlannedOnTarget(a: Ledger, b: Ledger, c: Ledger, d: Decision, name: string, seen: Option<Dep>)
    requires OnlyRead(a, b) && OnlyRead(b, c) && Means(d, Key(d.namespace, name), b.history, |a.history| - 1)
    requires Spares(a.turns) ==>
      TargetName(d.namespace, d.resourceKind, d.resourceName, d.parameters, b.world) == Some(name)
    requires seen.Some? ==> Held(c.history, |b.history| - 1, Key(d.namespace, name), seen.value)
    ensures OnlyRead(a, c) && Means(d, Key(d.namespace, name), c.history, |a.history| - 1)
    ensures Spares(a.turns) ==>
      TargetName(d.namespace, d.resourceKind, d.resourceName, d.parameters, c.world) == Some(name)
    ensures seen.Some? ==> Held(c.history, |a.history| - 1, Key(d.namespace, name), seen.value)
    ensures Spares(a.turns) ==> !Faulted(c.taken, |a.taken|)
    ensures Faulted(c.taken, |b.taken|) ==> Faulted(c.taken, |a.taken|)
  {
    hide TargetName, Held, Means, Faulted, Spares;
    ReadOn(a, b, c);
    MeansLonger(d, Key(d.namespace, name), b.history, |a.history| - 1, c.history, |a.history| - 1);
    FaultedLonger(c.taken, |b.taken|, c.taken, |a.taken|);
    if Spares(a.turns) {
      TargetIsFixed(d.namespace, d.resourceKind, d.resourceName, d.parameters, b.world, c.world);
      SparedMeansNoFault(a, c);
    }
    if seen.Some? {
      HeldLonger(c.history, |b.history| - 1, c.history, |a.history| - 1, Key(d.namespace, name), seen.value);
    }
  }

  /** Reading logs changes nothing. */
  method InspectPodLogs(d: Decision, cx: Context) returns (err: Option<string>)
    ensures err.None?
       <==> (EqualFold(d.resourceKind, "Pod") || EqualFold(d.resourceKind, "Deployment")) && cx.logsError.None?
  {
    if !EqualFold(d.resourceKind, "Pod") && !EqualFold(d.resourceKind, "Deployment") {
      return Some("inspect_pod_logs requires resource_kind=Pod or Deployment");
    }
    return cx.logsError;
  }

  /** How a cleared decision ends in an undisturbed cluster. */
  predicate Done(before: seq<Act>, after: seq<Act>, err: Option<string>, d: Decision, cx: Context, reason: string,
                 extra: string, w: World)
  {
    if ChangesDeployment(d.action) then ChangeDone(before, after, err, d, cx, reason, extra, w)
    else if d.action.DeleteFailedPod? || d.action.DeleteAndRecreate? then PodDone(before, after, err, d, cx, w)
    else
      && after == before
      && (err.None? <==>
            if d.action.InspectPodLogs?
            then (EqualFold(d.resourceKind, "Pod") || EqualFold(d.resourceKind, "Deployment")) && cx.logsError.None?
            else !d.action.Unsupported?)
  }

  /** How a cleared decision ends while others only write Deployments and no request fails. */
  ghost predicate DoneSpared(run: Course, d: Decision, cx: Context, reason: string, extra: string, err: Option<string>)
    requires run.start.history != []
  {
    if ChangesDeployment(d.action) then ChangeSpared(run, d, cx, reason, extra, err)
    else Done(run.start.acts, run.end.acts, err, d, cx, reason, extra, run.start.world)
  }

  /** What every execution of a cleared decision promises. */
  ghost predicate Performs(run: Course, d: Decision, cx: Context, reason: string, extra: string, err: Option<string>)
  {
    var before, after, since := run.start.acts, run.end.acts, |run.start.history| - 1;
    && Harmless(run, cx.cfg, err)
    && Acted(before, after, d, cx.cfg, err)
    && (err.None? && !cx.cfg.dryRun && ChangesDeployment(d.action) ==> |after| == |before| + 1)
    && (|after| > |before| ==> Planned(after[|before|], d, cx, reason, extra, run.end.history, since))
    && (run.start.turns == [] ==> Done(before, after, err, d, cx, reason, extra, run.start.world))
    && (Spares(run.start.turns) ==> DoneSpared(run, d, cx, reason, extra, err))
    && (err.Some? ==> Faulted(run.end.taken, |run.start.taken|) || FailedForCause(run, d, cx, reason, extra))
  }

  /** What can be done at all about something that is not a change of a Deployment. */
  predicate Doable(d: Decision, cx: Context)
  {
    match d.action
    case DeleteFailedPod => EqualFold(d.resourceKind, "Pod")
    case DeleteAndRecreate => EqualFold(d.resourceKind, "Pod")
    case InspectPodLogs =>
      (EqualFold(d.resourceKind, "Pod") || EqualFold(d.resourceKind, "Deployment")) && cx.logsError.None?
    case Unsupported(_) => false
    case _ => true
  }

  ghost predicate FailedForCause(run: Course, d: Decision, cx: Context, reason: string, extra: string)
    requires run.start.history != []
  {
    if ChangesDeployment(d.action) then ChangeFailed(run, d, cx, reason, extra) else !Doable(d, cx)
  }

  /** A cause found from a later moment on counts from an earlier one with nothing but reading in between. */
  lemma FailedSince(a: Ledger, run: Course, d: Decision, cx: Context, reason: string, extra: string)
    requires OnlyRead(a, run.start) && Onward(run.start, run.end) && FailedForCause(run, d, cx, reason, extra)
    ensures FailedForCause(Course(a, run.end), d, cx, reason, extra)
  {
    hide Plan, Spares, OnlyOthers, Means, MeansNone, NotMade, Doable;
    var from, since := |run.start.history| - 1, |a.history| - 1;
    if ChangesDeployment(d.action) {
      if MeansNone(d, run.end.history, from) {
        MeansNoneSince(d, run.end.history, from, since);
      } else {
        var key, i :| from <= i < |run.end.history| && Means(d, key, run.end.history, from)
          && FailedAt(run, d, cx, reason, extra, key, i);
        MeansLonger(d, key, run.end.history, from, run.end.history, since);
        forall mu | NotMade(run, key, mu, cx)
          ensures NotMade(Course(a, run.end), key, mu, cx)
        {
          NotMadeSince(a, run, key, mu, cx);
        }
        assert FailedAt(Course(a, run.end), d, cx, reason, extra, key, i);
      }
    }
  }

  lemma NotMadeSince(a: Ledger, run: Course, key: Key, mu: Mutation, cx: Context)
    requires OnlyRead(a, run.start) && Onward(run.start, run.end) && NotMade(run, key, mu, cx)
    ensures NotMade(Course(a, run.end), key, mu, cx)
  {
    hide Spares, OnlyOthers, Rivals, NotTaken;
    MoreRivals(run.start.taken, run.end.taken, |a.taken|, key);
    if Refused(run.end.history, |run.start.history| - 1, key, mu, cx.now) {
      StillRefused(run.end.history, |run.start.history| - 1, |a.history| - 1, key, mu, cx.now);
    }
  }

  /** What was done from a later moment on was done since an earlier one with nothing but reading in between. */
  lemma DoneSparedSince(a: Ledger, run: Course, d: Decision, cx: Context, reason: string, extra: string,
                        err: Option<string>)
    requires OnlyRead(a, run.start) && Onward(run.start, run.end) && Spares(a.turns)
    requires DoneSpared(run, d, cx, reason, extra, err)
    ensures DoneSpared(Course(a, run.end), d, cx, reason, extra, err)
  {
    hide Plan, Spares, OnlyOthers, Rivals, TargetName, ToLower, CarriedAsPlanned;
    if ChangesDeployment(d.action) {
      var i :| |run.start.history| - 1 <= i < |run.end.history| && PlannedAt(run, d, cx, reason, extra, err, i);
      forall key, mu | CarriedAsPlanned(run, key, mu, cx, err)
        ensures CarriedAsPlanned(Course(a, run.end), key, mu, cx, err)
      {
        CarriedSince(a, run, key, mu, cx, err);
      }
      assert PlannedAt(Course(a, run.end), d, cx, reason, extra, err, i);
    }
  }

  lemma CarriedSince(a: Ledger, run: Course, key: Key, mu: Mutation, cx: Context, err: Option<string>)
    requires OnlyRead(a, run.start) && Onward(run.start, run.end) && CarriedAsPlanned(run, key, mu, cx, err)
    ensures CarriedAsPlanned(Course(a, run.end), key, mu, cx, err)
  {
    hide Spares, OnlyOthers, NotMade;
    if NotMade(run, key, mu, cx) {
      NotMadeSince(a, run, key, mu, cx);
    }
  }

  lemma ChangePerforms(run: Course, d: Decision, cx: Context, reason: string, extra: string, err: Option<string>)
    requires ChangesDeployment(d.action) && Executes(run, d, cx, reason, extra, err)
    ensures Performs(run, d, cx, reason, extra, err)
  {
    hide ChangeDone, Planned, Acted, Harmless, ChangeSpared, ChangeFailed, Spares, Faulted;
  }

  /** Everything but changes of a Deployment. */
  method PerformOther(api: ApiServer, d: Decision, cx: Context, reason: string, extra: string)
    returns (err: Option<string>)
    requires api.Valid() && !ChangesDeployment(d.action)
    modifies api
    ensures api.Valid() && Performs(CourseOf(api), d, cx, reason, extra, err)
  {
    hide Covered, ChangeDone, PodDone, ApiServer.Valid, ToLower, Plan, Held, OnlyOthers;
    api.LastMoment();
    NothingRead(api.Books());
    assert Spares([]);
    hide Spares;
    match d.action {
      case Noop => err := None;
      case AskHuman => err := None;
      case MarkForManualFix => err := None;
      case DeleteFailedPod => err := ExecDeletePod(api, d, cx);
      case DeleteAndRecreate => err := ExecDeletePod(api, d, cx);
      case InspectPodLogs => err := InspectPodLogs(d, cx);
      case Unsupported(_) => err := Some("unsupported action");
    }
  }

  method Perform(api: ApiServer, d: Decision, cx: Context, reason: string, extra: string) returns (err: Option<string>)
    requires api.Valid()
    modifies api
    ensures api.Valid() && Performs(CourseOf(api), d, cx, reason, extra, err)
  {
    hide Executes, Performs, ApiServer.Valid;
    if ChangesDeployment(d.action) {
      err := ExecChange(api, d, cx, reason, extra);
      ChangePerforms(CourseOf(api), d, cx, reason, extra, err);
    } else {
      err := PerformOther(api, d, cx, reason, extra);
    }
  }
}
