/**
 Deployments as far as the agent reads and changes them, the changes it can make,
 and the single-step undo record every change but a restart leaves behind.
 */
module Deployments {
  import opened Results
  import opened Text
  import opened Model
  import opened Images

  // ---- data -----------------------------------------------------------------------

  /** Probe timings in seconds; the handler is never touched. */
  datatype Probe = Probe(
    initialDelay: int, period: int, failureThreshold: int, successThreshold: int, timeout: int, handler: string)

  /** Requests and limits in thousandths of a core or byte; None when not set. */
  datatype Resources = Resources(
    cpuRequest: Option<int>, memoryRequest: Option<int>, cpuLimit: Option<int>, memoryLimit: Option<int>)

  datatype Container = Container(
    name: string, image: string, readiness: Option<Probe>, liveness: Option<Probe>, resources: Resources)

  datatype ProbeKind = Readiness | Liveness

  /** The values a change overwrote. */
  datatype Previous =
    | PreviousReplicas(replicas: int)
    | PreviousImage(image: string)
    | PreviousProbe(kind: ProbeKind, initialDelay: int, period: int, failureThreshold: int, successThreshold: int,
                    timeout: int)
    | PreviousResources(resources: Resources)

  /** The content of the last-change annotation. */
  datatype LastChange = LastChange(action: Action, container: string, previous: Previous, at: string)

  datatype Dep = Dep(
    annotations: map<string, string>,
    lastChange: Option<LastChange>,
    replicas: Option<int>,
    templateAnnotations: map<string, string>,
    containers: seq<Container>)

  /** A quantity parameter as the validator sees it. */
  datatype Raw = Absent | Malformed | Amount(q: int)

  datatype ResourceRequest = ResourceRequest(cpuRequest: Raw, memoryRequest: Raw, cpuLimit: Raw, memoryLimit: Raw)

  /** The changes the agent asks for. */
  datatype Mutation =
    | Restart
    | Scale(replicas: int)
    | SetImage(image: string, container: string)
    | Retime(container: string, probeType: string, fields: map<string, string>)
    | Resize(container: string, request: ResourceRequest)
    | MoveRegistry(container: string, newRegistry: string)

  const ALLOW_PATCH_ANNOTATION := "ai-remediator/allow-patch"
  const RESTARTED_AT := "ai-remediator/restarted-at"
  const MILLI: int := 1000
  const MI: int := 1024 * 1024
  const MIN_CPU: int := 10
  const MAX_CPU: int := 8 * MILLI
  const MIN_MEMORY: int := 16 * MI * MILLI
  const MAX_MEMORY: int := 16 * 1024 * MI * MILLI

  // ---- reading ----------------------------------------------------------------------

  /** One of the comma-separated parts is the scope or "*". */
  predicate ListsScope(parts: seq<string>, scope: string)
  {
    parts != []
    && (TrimSpace(ToLower(parts[0])) == "*" || TrimSpace(ToLower(parts[0])) == ToLower(scope)
        || ListsScope(parts[1..], scope))
  }

  /** The Deployment opts in to patches of this scope through its annotation. */
  predicate AllowsPatch(dep: Dep, scope: string)
  {
    ListsScope(Split(TrimSpace(Param(dep.annotations, ALLOW_PATCH_ANNOTATION)), ','), scope)
  }

  /** The first container with this name. */
  function ByName(containers: seq<Container>, name: string, from: nat := 0): (r: Option<nat>)
    requires from <= |containers|
    ensures r.Some? ==> from <= r.value < |containers| && containers[r.value].name == name
    ensures forall i :: from <= i < (if r.Some? then r.value else |containers|) ==> containers[i].name != name
    decreases |containers| - from
  {
    if from == |containers| then None
    else if containers[from].name == name then Some(from)
    else ByName(containers, name, from + 1)
  }

  /** The first container running this image. */
  function ByImage(containers: seq<Container>, image: string, from: nat := 0): (r: Option<nat>)
    requires from <= |containers|
    ensures r.Some? ==> from <= r.value < |containers| && containers[r.value].image == image
    ensures forall i :: from <= i < (if r.Some? then r.value else |containers|) ==> containers[i].image != image
    decreases |containers| - from
  {
    if from == |containers| then None
    else if containers[from].image == image then Some(from)
    else ByImage(containers, image, from + 1)
  }

  /** The container a reference means: by name, then by image, then the only one there is. */
  function FindContainer(containers: seq<Container>, ref: string): (r: Result<nat>)
    ensures r.Ok? ==> r.value < |containers|
  {
    if containers == [] then Err("deployment has no containers") else
      var name := TrimSpace(ref);
      var named, pictured := ByName(containers, name), ByImage(containers, name);
      if name == "" then Ok(0)
      else if named.Some? then Ok(named.value)
      else if pictured.Some? then Ok(pictured.value)
      else if |containers| == 1 then Ok(0)
      else Err("container not found")
  }

  ghost predicate FirstNamed(containers: seq<Container>, name: string, i: nat)
  {
    i < |containers| && containers[i].name == name && forall j :: 0 <= j < i ==> containers[j].name != name
  }

  ghost predicate FirstRunning(containers: seq<Container>, image: string, i: nat)
  {
    i < |containers| && containers[i].image == image && forall j :: 0 <= j < i ==> containers[j].image != image
  }

  /**
   A blank reference means the first container; a name wins over an image; a lone container is meant by anything
   else.
   */
  lemma FindContainerMeaning(containers: seq<Container>, ref: string, i: nat)
    requires containers != []
    ensures var name := TrimSpace(ref);
      FindContainer(containers, ref) == Ok(i) <==>
        if name == "" then i == 0
        else if exists c :: c in containers && c.name == name then FirstNamed(containers, name, i)
        else if exists c :: c in containers && c.image == name then FirstRunning(containers, name, i)
        else |containers| == 1 && i == 0
  {
    hide TrimSpace;
    var name := TrimSpace(ref);
    var named, pictured := ByName(containers, name), ByImage(containers, name);
    assert named.Some? ==> containers[named.value] in containers;
    assert pictured.Some? ==> containers[pictured.value] in containers;
  }

  /** The container the OOM floor and the image fallback look at: by name only, else the first. */
  function NamedOrFirst(containers: seq<Container>, ref: string): (i: nat)
    requires containers != []
    ensures i < |containers|
  {
    var named := ByName(containers, TrimSpace(ref));
    if TrimSpace(ref) != "" && named.Some? then named.value else 0
  }

  ghost predicate UniqueNames(containers: seq<Container>)
  {
    forall i, j :: 0 <= i < j < |containers| ==> containers[i].name != containers[j].name
  }

  // ---- probe timings ------------------------------------------------------------------

  /** The range each tunable probe field may take. */
  function ProbeBounds(key: string): Option<(int, int)>
  {
    if key == "initial_delay_seconds" then Some((0, 600))
    else if key == "period_seconds" then Some((1, 300))
    else if key == "failure_threshold" then Some((1, 20))
    else if key == "success_threshold" then Some((1, 5))
    else if key == "timeout_seconds" then Some((1, 60))
    else None
  }

  function ParseProbeField(key: string, raw: string): (r: Option<int>)
    ensures r.Some? ==> ProbeBounds(key).Some? && ProbeBounds(key).value.0 <= r.value <= ProbeBounds(key).value.1
  {
    var bounds := ProbeBounds(key);
    if bounds.None? then None else
      var n := Atoi(TrimSpace(raw));
      if n.None? || n.value < bounds.value.0 || n.value > bounds.value.1 then None else n
  }

  predicate ValidFields(fields: map<string, string>)
  {
    forall key :: key in fields ==> ParseProbeField(key, fields[key]).Some?
  }

  /** The field's new value, or the old one when the map does not name it. */
  function FieldOr(fields: map<string, string>, key: string, old_: int): int
  {
    if key in fields && ParseProbeField(key, fields[key]).Some? then ParseProbeField(key, fields[key]).value else old_
  }

  function Retimed(p: Probe, fields: map<string, string>): Probe
  {
    Probe(FieldOr(fields, "initial_delay_seconds", p.initialDelay),
          FieldOr(fields, "period_seconds", p.period),
          FieldOr(fields, "failure_threshold", p.failureThreshold),
          FieldOr(fields, "success_threshold", p.successThreshold),
          FieldOr(fields, "timeout_seconds", p.timeout),
          p.handler)
  }

  function KindOf(probeType: string): Option<ProbeKind>
  {
    var low := ToLower(TrimSpace(probeType));
    if low == "readiness" then Some(Readiness) else if low == "liveness" then Some(Liveness) else None
  }

  function ProbeOf(c: Container, kind: ProbeKind): Option<Probe>
  {
    if kind == Readiness then c.readiness else c.liveness
  }

  function WithProbe(c: Container, kind: ProbeKind, p: Probe): Container
  {
    if kind == Readiness then c.(readiness := Some(p)) else c.(liveness := Some(p))
  }

  // ---- resource quantities --------------------------------------------------------------

  predicate Acceptable(raw: Raw, min: int, max: int)
  {
    raw.Absent? || (raw.Amount? && min <= raw.q <= max)
  }

  function AmountOr(raw: Raw, current: Option<int>): Option<int>
  {
    if raw.Amount? then Some(raw.q) else current
  }

  function Resized(r: Resources, request: ResourceRequest): Resources
  {
    Resources(AmountOr(request.cpuRequest, r.cpuRequest), AmountOr(request.memoryRequest, r.memoryRequest),
              AmountOr(request.cpuLimit, r.cpuLimit), AmountOr(request.memoryLimit, r.memoryLimit))
  }

  predicate Within(request: Option<int>, limit: Option<int>)
  {
    request.Some? && limit.Some? ==> request.value <= limit.value
  }

  predicate Consistent(r: Resources)
  {
    Within(r.cpuRequest, r.cpuLimit) && Within(r.memoryRequest, r.memoryLimit)
  }

  predicate InBounds(request: ResourceRequest)
  {
    && Acceptable(request.cpuRequest, MIN_CPU, MAX_CPU) && Acceptable(request.cpuLimit, MIN_CPU, MAX_CPU)
    && Acceptable(request.memoryRequest, MIN_MEMORY, MAX_MEMORY)
    && Acceptable(request.memoryLimit, MIN_MEMORY, MAX_MEMORY)
  }

  predicate AsksNothing(request: ResourceRequest)
  {
    && request.cpuRequest.Absent? && request.memoryRequest.Absent?
    && request.cpuLimit.Absent? && request.memoryLimit.Absent?
  }

  // ---- the changes -----------------------------------------------------------------------

  /** A change of one container: where, to what, and the values it overwrites. */
  datatype Change = Change(idx: nat, container: Container, action: Action, previous: Previous)

  function Changed(dep: Dep, change: Change, at: string): Dep
    requires change.idx < |dep.containers|
  {
    dep.(containers := dep.containers[change.idx := change.container],
         lastChange := Some(LastChange(change.action, dep.containers[change.idx].name, change.previous, at)))
  }

  function Restarted(dep: Dep, at: string): Dep
  {
    dep.(templateAnnotations := dep.templateAnnotations[RESTARTED_AT := at])
  }

  function Scaled(dep: Dep, replicas: int, at: string): Dep
  {
    var previous := if dep.replicas.Some? then dep.replicas.value else 1;
    dep.(replicas := Some(replicas),
         lastChange := Some(LastChange(ScaleDeployment, "", PreviousReplicas(previous), at)))
  }

  /** The container whose image is to be set; an unchanged image is refused. */
  function PickForImage(dep: Dep, image: string, container: string): (r: Result<nat>)
    ensures r.Ok? ==> r.value < |dep.containers| && dep.containers[r.value].image != image
  {
    var idx := FindContainer(dep.containers, container);
    if idx.Err? then idx
    else if dep.containers[idx.value].image == image then Err("set_deployment_image is a no-op")
    else idx
  }

  function Reimaged(dep: Dep, image: string, container: string): (r: Result<Change>)
    ensures r.Ok? ==> Sound(dep, r.value) && r.value.container == dep.containers[r.value.idx].(image := image)
  {
    var idx := PickForImage(dep, image, container);
    if idx.Err? then Err(idx.error) else
      var c := dep.containers[idx.value];
      Ok(Change(idx.value, c.(image := image), SetDeploymentImage, PreviousImage(c.image)))
  }

  function Reprobed(dep: Dep, container: string, probeType: string, fields: map<string, string>): (r: Result<Change>)
    ensures r.Ok? ==> AllowsPatch(dep, "probe") && Sound(dep, r.value)
    ensures r.Ok? ==> SameButProbes(dep.containers[r.value.idx], r.value.container)
  {
    if !AllowsPatch(dep, "probe") then Err("deployment does not opt in to patch_probe")
    else
      var idx, kind := FindContainer(dep.containers, container), KindOf(probeType);
      if idx.Err? then Err(idx.error)
      else if kind.None? then Err("probe must be one of: readiness, liveness")
      else Retiming(dep, idx.value, kind.value, fields)
  }

  function Retiming(dep: Dep, idx: nat, kind: ProbeKind, fields: map<string, string>): (r: Result<Change>)
    requires idx < |dep.containers|
    ensures r.Ok? ==> Sound(dep, r.value) && SameButProbes(dep.containers[r.value.idx], r.value.container)
  {
    var c := dep.containers[idx];
    var probe := ProbeOf(c, kind);
    if probe.None? then Err("container has no such probe to patch")
    else if !ValidFields(fields) then Err("probe field outside bounds")
    else if fields == map[] then Err("patch_probe requires at least one probe field in parameters")
    else
      var p := probe.value;
      Ok(Change(idx, WithProbe(c, kind, Retimed(p, fields)), PatchProbe,
           PreviousProbe(kind, p.initialDelay, p.period, p.failureThreshold, p.successThreshold, p.timeout)))
  }

  function Reresourced(dep: Dep, container: string, request: ResourceRequest): (r: Result<Change>)
    ensures r.Ok? ==> AllowsPatch(dep, "resources") && Sound(dep, r.value)
    ensures r.Ok? ==> r.value.container == dep.containers[r.value.idx].(resources := r.value.container.resources)
  {
    if !AllowsPatch(dep, "resources") then Err("deployment does not opt in to patch_resources")
    else
      var idx := FindContainer(dep.containers, container);
      if idx.Err? then Err(idx.error) else Resizing(dep, idx.value, request)
  }

  function Resizing(dep: Dep, idx: nat, request: ResourceRequest): (r: Result<Change>)
    requires idx < |dep.containers|
    ensures r.Ok? ==>
      Sound(dep, r.value) && r.value.container == dep.containers[idx].(resources := r.value.container.resources)
  {
    var c := dep.containers[idx];
    var resized := Resized(c.resources, request);
    if !InBounds(request) then Err("quantity outside bounds")
    else if AsksNothing(request) then Err("patch_resources requires at least one quantity")
    else if !Consistent(resized) then Err("request exceeds limit")
    else Ok(Change(idx, c.(resources := resized), PatchResources, PreviousResources(c.resources)))
  }

  function Reregistered(dep: Dep, container: string, newRegistry: string): (r: Result<Change>)
    ensures r.Ok? ==> AllowsPatch(dep, "registry") && Sound(dep, r.value)
    ensures r.Ok? ==> r.value.container == dep.containers[r.value.idx].(image := r.value.container.image)
  {
    if !AllowsPatch(dep, "registry") then Err("deployment does not opt in to patch_registry")
    else
      var idx := FindContainer(dep.containers, container);
      if idx.Err? then Err(idx.error) else Moving(dep, idx.value, newRegistry)
  }

  function Moving(dep: Dep, idx: nat, newRegistry: string): (r: Result<Change>)
    requires idx < |dep.containers|
    ensures r.Ok? ==>
      Sound(dep, r.value) && r.value.container == dep.containers[r.value.idx].(image := r.value.container.image)
  {
    var c := dep.containers[idx];
    var swapped := SwapRegistry(c.image, newRegistry);
    if swapped.Err? then Err(swapped.error)
    else if swapped.value == c.image then Err("new registry produces the same image; no change")
    else Ok(Change(idx, c.(image := swapped.value), PatchRegistry, PreviousImage(c.image)))
  }

  /** The overwritten values recorded with a change suffice to take it back. */
  predicate Sound(dep: Dep, change: Change)
  {
    && change.idx < |dep.containers|
    && change.container.name == dep.containers[change.idx].name
    && Restored(change.container, change.previous) == dep.containers[change.idx]
    && !change.previous.PreviousReplicas?
  }

  predicate SameButProbes(c: Container, c': Container)
  {
    c' == c.(readiness := c'.readiness, liveness := c'.liveness)
  }

  /** The container change a mutation asks for. */
  function ChangeOf(dep: Dep, mu: Mutation): (r: Result<Change>)
    requires !mu.Restart? && !mu.Scale?
    ensures r.Ok? ==> Sound(dep, r.value)
  {
    match mu
    case SetImage(image, container) => Reimaged(dep, image, container)
    case Retime(container, probeType, fields) => Reprobed(dep, container, probeType, fields)
    case Resize(container, request) => Reresourced(dep, container, request)
    case MoveRegistry(container, newRegistry) => Reregistered(dep, container, newRegistry)
  }

  /** What a change makes of a Deployment, or why it is refused. */
  function Mutated(dep: Dep, mu: Mutation, at: string): Result<Dep>
  {
    if mu.Restart? then Ok(Restarted(dep, at))
    else if mu.Scale? then Ok(Scaled(dep, mu.replicas, at))
    else
      var change := ChangeOf(dep, mu);
      if change.Err? then Err(change.error) else Ok(Changed(dep, change.value, at))
  }

  // ---- undo ------------------------------------------------------------------------------

  function Restored(c: Container, previous: Previous): Container
  {
    match previous
    case PreviousReplicas(_) => c
    case PreviousImage(image) => c.(image := image)
    case PreviousResources(resources) => c.(resources := resources)
    case PreviousProbe(kind, initialDelay, period, failureThreshold, successThreshold, timeout) =>
      var probe := ProbeOf(c, kind);
      if probe.None? then c
      else WithProbe(c, kind,
                     Probe(initialDelay, period, failureThreshold, successThreshold, timeout, probe.value.handler))
  }

  /** What an operator does with the last-change record: write the previous values back. */
  function Reverted(dep: Dep): Dep
  {
    if dep.lastChange.None? then dep else
      var change := dep.lastChange.value;
      if change.previous.PreviousReplicas? then dep.(replicas := Some(change.previous.replicas)) else
        var idx := ByName(dep.containers, change.container);
        if idx.None? then dep
        else dep.(containers := dep.containers[idx.value := Restored(dep.containers[idx.value], change.previous)])
  }

  /**
   Undoing a change restores the Deployment it was applied to, up to the record itself and the default of one
   replica.
   */
  lemma UndoRestores(before: Dep, mu: Mutation, at: string, after: Dep)
    requires Mutated(before, mu, at) == Ok(after) && !mu.Restart?
    requires UniqueNames(before.containers)
    ensures after.lastChange.Some?
    ensures !mu.Scale? ==> Reverted(after) == before.(lastChange := after.lastChange)
    ensures mu.Scale? ==> Reverted(after) == before.(lastChange := after.lastChange,
                            replicas := Some(if before.replicas.Some? then before.replicas.value else 1))
  {
    if !mu.Scale? {
      UndoChange(before, ChangeOf(before, mu).value, at);
    }
  }

  lemma UndoChange(before: Dep, change: Change, at: string)
    requires Sound(before, change) && UniqueNames(before.containers)
    ensures Reverted(Changed(before, change, at)) == before.(lastChange := Changed(before, change, at).lastChange)
  {
    var after := Changed(before, change, at);
    SameIndexByName(before.containers, after.containers, change.idx);
    assert after.containers[change.idx := before.containers[change.idx]] == before.containers;
  }

  lemma SameIndexByName(before: seq<Container>, after: seq<Container>, idx: nat)
    requires UniqueNames(before) && idx < |before| == |after|
    requires forall i :: 0 <= i < |before| ==> after[i].name == before[i].name
    ensures ByName(after, before[idx].name) == Some(idx)
  {
    var found := ByName(after, before[idx].name);
    assert after[idx].name == before[idx].name;
    assert found.Some? && after[found.value].name == before[found.value].name;
  }

  // ---- what each change can touch -----------------------------------------------------------

  predicate SameShape(before: Dep, after: Dep)
  {
    && before.annotations == after.annotations
    && |before.containers| == |after.containers|
    && forall i :: 0 <= i < |before.containers| ==> before.containers[i].name == after.containers[i].name
  }

  predicate RestartStamped(before: Dep, after: Dep) { before.templateAnnotations != after.templateAnnotations }

  predicate ReplicasChanged(before: Dep, after: Dep) { before.replicas != after.replicas }

  predicate ImagesChanged(before: Dep, after: Dep)
    requires SameShape(before, after)
  {
    exists i :: 0 <= i < |before.containers| && before.containers[i].image != after.containers[i].image
  }

  predicate ProbesChanged(before: Dep, after: Dep)
    requires SameShape(before, after)
  {
    exists i :: 0 <= i < |before.containers|
      && (|| before.containers[i].readiness != after.containers[i].readiness
          || before.containers[i].liveness != after.containers[i].liveness)
  }

  predicate ResourcesChanged(before: Dep, after: Dep)
    requires SameShape(before, after)
  {
    exists i :: 0 <= i < |before.containers| && before.containers[i].resources != after.containers[i].resources
  }

  /** Only the matching change touches a part of the Deployment, and patches only an opted-in version. */
  lemma EffectsOf(before: Dep, mu: Mutation, at: string, after: Dep)
    requires Mutated(before, mu, at) == Ok(after)
    ensures SameShape(before, after)
    ensures RestartStamped(before, after) ==> mu.Restart?
    ensures ReplicasChanged(before, after) ==> mu.Scale?
    ensures ImagesChanged(before, after) ==> mu.SetImage? || (mu.MoveRegistry? && AllowsPatch(before, "registry"))
    ensures ProbesChanged(before, after) ==> mu.Retime? && AllowsPatch(before, "probe")
    ensures ResourcesChanged(before, after) ==> mu.Resize? && AllowsPatch(before, "resources")
  {
    if !mu.Restart? && !mu.Scale? {
      EffectsOfChange(before, ChangeOf(before, mu).value, at);
    }
  }

  /** A container change shows exactly in the fields of its container. */
  lemma EffectsOfChange(before: Dep, change: Change, at: string)
    requires Sound(before, change)
    ensures var c, after := before.containers[change.idx], Changed(before, change, at);
      && SameShape(before, after) && !RestartStamped(before, after) && !ReplicasChanged(before, after)
      && (ImagesChanged(before, after) <==> c.image != change.container.image)
      && (ProbesChanged(before, after)
          <==> c.readiness != change.container.readiness || c.liveness != change.container.liveness)
      && (ResourcesChanged(before, after) <==> c.resources != change.container.resources)
  {
    var after := Changed(before, change, at);
    assert after.containers[change.idx] == change.container;
  }

  // ---- every change, field by field ----------------------------------------------------------

  /** Some part of the comma-separated annotation, apart from case and blanks, is the scope or "*". */
  lemma AllowsPatchMeaning(dep: Dep, scope: string)
    ensures AllowsPatch(dep, scope) <==>
      exists part :: part in Split(TrimSpace(Param(dep.annotations, "ai-remediator/allow-patch")), ',')
        && (TrimSpace(ToLower(part)) == "*" || TrimSpace(ToLower(part)) == ToLower(scope))
  {
    hide Split, TrimSpace, ToLower;
    ListsScopeMeaning(Split(TrimSpace(Param(dep.annotations, "ai-remediator/allow-patch")), ','), scope);
  }

  lemma {:induction false} ListsScopeMeaning(parts: seq<string>, scope: string)
    ensures ListsScope(parts, scope) <==>
      exists part :: part in parts
        && (TrimSpace(ToLower(part)) == "*" || TrimSpace(ToLower(part)) == ToLower(scope))
  {
    hide TrimSpace, ToLower;
    if parts != [] {
      ListsScopeMeaning(parts[1..], scope);
      assert parts[0] in parts;
      assert forall part :: part in parts <==> part == parts[0] || part in parts[1..];
    }
  }

  /** The text is a number of this range. */
  predicate ReadsWithin(text: string, lo: int, hi: int)
  {
    Atoi(TrimSpace(text)).Some? && lo <= Atoi(TrimSpace(text)).value <= hi
  }

  /** The five timings that can be set, and their ranges. */
  predicate TakesTiming(key: string, text: string)
  {
    || (key == "initial_delay_seconds" && ReadsWithin(text, 0, 600))
    || (key == "period_seconds" && ReadsWithin(text, 1, 300))
    || (key == "failure_threshold" && ReadsWithin(text, 1, 20))
    || (key == "success_threshold" && ReadsWithin(text, 1, 5))
    || (key == "timeout_seconds" && ReadsWithin(text, 1, 60))
  }

  /** One timing: the number given under the key, or what it was. */
  predicate Timed(fields: map<string, string>, key: string, before: int, after: int)
  {
    if key in fields then Atoi(TrimSpace(fields[key])) == Some(after) else after == before
  }

  /** Every timing is written to its own field. */
  predicate TimedBy(before: Probe, fields: map<string, string>, after: Probe)
  {
    && Timed(fields, "initial_delay_seconds", before.initialDelay, after.initialDelay)
    && Timed(fields, "period_seconds", before.period, after.period)
    && Timed(fields, "failure_threshold", before.failureThreshold, after.failureThreshold)
    && Timed(fields, "success_threshold", before.successThreshold, after.successThreshold)
    && Timed(fields, "timeout_seconds", before.timeout, after.timeout)
    && after.handler == before.handler
  }

  lemma TimingKeysDiffer()
    ensures "initial_delay_seconds" != "period_seconds" && "initial_delay_seconds" != "failure_threshold"
    ensures "initial_delay_seconds" != "success_threshold" && "initial_delay_seconds" != "timeout_seconds"
    ensures "period_seconds" != "failure_threshold" && "period_seconds" != "success_threshold"
    ensures "period_seconds" != "timeout_seconds" && "failure_threshold" != "success_threshold"
    ensures "failure_threshold" != "timeout_seconds" && "success_threshold" != "timeout_seconds"
  {
    assert |"initial_delay_seconds"| == 21 && |"period_seconds"| == 14 && |"failure_threshold"| == 17;
    assert |"success_threshold"| == 17 && |"timeout_seconds"| == 15;
    assert "failure_threshold"[0] == 'f' && "success_threshold"[0] == 's';
  }

  lemma TakesTimingMeans(key: string, text: string)
    ensures TakesTiming(key, text) <==> ParseProbeField(key, text).Some?
    ensures TakesTiming(key, text) ==> ParseProbeField(key, text) == Atoi(TrimSpace(text))
  {
    hide Atoi, TrimSpace;
    TimingKeysDiffer();
  }

  lemma RetimedMeaning(probe: Probe, fields: map<string, string>)
    ensures ValidFields(fields) <==> forall key :: key in fields ==> TakesTiming(key, fields[key])
    ensures ValidFields(fields) ==> TimedBy(probe, fields, Retimed(probe, fields))
  {
    hide TakesTiming, ParseProbeField, Atoi, TrimSpace;
    forall key | key in fields
      ensures TakesTiming(key, fields[key]) <==> ParseProbeField(key, fields[key]).Some?
      ensures TakesTiming(key, fields[key]) ==> ParseProbeField(key, fields[key]) == Atoi(TrimSpace(fields[key]))
    {
      TakesTimingMeans(key, fields[key]);
    }
  }

  /** One quantity: the amount given, or what it was. */
  predicate Given(asked: Raw, before: Option<int>, after: Option<int>)
  {
    match asked
    case Absent => after == before
    case Malformed => false
    case Amount(q) => after == Some(q)
  }

  /** A quantity that is given is an amount within the bounds: 10m to 8 cores, 16Mi to 16Gi, in thousandths. */
  predicate Moderate(request: ResourceRequest)
  {
    && (!request.cpuRequest.Absent? ==> request.cpuRequest.Amount? && 10 <= request.cpuRequest.q <= 8_000)
    && (!request.cpuLimit.Absent? ==> request.cpuLimit.Amount? && 10 <= request.cpuLimit.q <= 8_000)
    && (!request.memoryRequest.Absent? ==>
          request.memoryRequest.Amount? && 16_777_216_000 <= request.memoryRequest.q <= 17_179_869_184_000)
    && (!request.memoryLimit.Absent? ==>
          request.memoryLimit.Amount? && 16_777_216_000 <= request.memoryLimit.q <= 17_179_869_184_000)
  }

  /** Every quantity is written to its own field, and no request exceeds its limit. */
  predicate GivenBy(before: Resources, request: ResourceRequest, after: Resources)
  {
    && Given(request.cpuRequest, before.cpuRequest, after.cpuRequest)
    && Given(request.memoryRequest, before.memoryRequest, after.memoryRequest)
    && Given(request.cpuLimit, before.cpuLimit, after.cpuLimit)
    && Given(request.memoryLimit, before.memoryLimit, after.memoryLimit)
    && (after.cpuRequest.Some? && after.cpuLimit.Some? ==> after.cpuRequest.value <= after.cpuLimit.value)
    && (after.memoryRequest.Some? && after.memoryLimit.Some? ==> after.memoryRequest.value <= after.memoryLimit.value)
  }

  /** The values a probe had, as they are recorded. */
  function ProbeRecord(kind: ProbeKind, p: Probe): Previous
  {
    PreviousProbe(kind, p.initialDelay, p.period, p.failureThreshold, p.successThreshold, p.timeout)
  }

  /** What a change of one container makes of it, with the values it overwrites. */
  predicate MadeOf(c: Container, mu: Mutation, after: Container, previous: Previous)
  {
    match mu
    case SetImage(image, _) =>
      c.image != image && after == c.(image := image) && previous == PreviousImage(c.image)
    case Retime(_, word, fields) =>
      && fields != map[] && (forall key :: key in fields ==> TakesTiming(key, fields[key]))
      && if ToLower(TrimSpace(word)) == "readiness" then
           && c.readiness.Some? && after.readiness.Some? && after == c.(readiness := after.readiness)
           && TimedBy(c.readiness.value, fields, after.readiness.value)
           && previous == ProbeRecord(Readiness, c.readiness.value)
         else
           && ToLower(TrimSpace(word)) == "liveness"
           && c.liveness.Some? && after.liveness.Some? && after == c.(liveness := after.liveness)
           && TimedBy(c.liveness.value, fields, after.liveness.value)
           && previous == ProbeRecord(Liveness, c.liveness.value)
    case Resize(_, request) =>
      && Moderate(request) && GivenBy(c.resources, request, after.resources)
      && after == c.(resources := after.resources) && previous == PreviousResources(c.resources)
      && !(request.cpuRequest.Absent? && request.memoryRequest.Absent? && request.cpuLimit.Absent?
           && request.memoryLimit.Absent?)
    case MoveRegistry(_, registry) =>
      SwapRegistry(c.image, registry) == Ok(after.image) && after.image != c.image
      && after == c.(image := after.image) && previous == PreviousImage(c.image)
    case _ => false
  }

  /** The action a change of one container is recorded as, the scope it needs, and the container it is aimed at. */
  function RecordedAs(mu: Mutation): (Action, string, string)
    requires !mu.Restart? && !mu.Scale?
  {
    match mu
    case SetImage(_, ref) => (SetDeploymentImage, "", ref)
    case Retime(ref, _, _) => (PatchProbe, "probe", ref)
    case Resize(ref, _) => (PatchResources, "resources", ref)
    case MoveRegistry(ref, _) => (PatchRegistry, "registry", ref)
  }

  /** What a change makes of a Deployment: every field of it. */
  predicate Becomes(before: Dep, mu: Mutation, at: string, after: Dep)
  {
    match mu
    case Restart =>
      after == before.(templateAnnotations := before.templateAnnotations["ai-remediator/restarted-at" := at])
    case Scale(n) =>
      var previous := if before.replicas.Some? then before.replicas.value else 1;
      after == before.(replicas := Some(n),
                       lastChange := Some(LastChange(ScaleDeployment, "", PreviousReplicas(previous), at)))
    case _ =>
      var (action, scope, ref) := RecordedAs(mu);
      && (scope != "" ==> AllowsPatch(before, scope))
      && var found := FindContainer(before.containers, ref);
         && found.Ok? && |after.containers| == |before.containers|
         && after.lastChange.Some?
         && var c, c' := before.containers[found.value], after.containers[found.value];
            && MadeOf(c, mu, c', after.lastChange.value.previous)
            && after == before.(containers := before.containers[found.value := c'],
                                lastChange := Some(LastChange(action, c.name, after.lastChange.value.previous, at)))
  }

  lemma ReprobedMeaning(dep: Dep, mu: Mutation, at: string)
    requires mu.Retime? && Mutated(dep, mu, at).Ok?
    ensures Becomes(dep, mu, at, Mutated(dep, mu, at).value)
  {
    hide AllowsPatch, FindContainer, Retimed, ValidFields, TimedBy, TakesTiming, ToLower, TrimSpace;
    var idx := FindContainer(dep.containers, mu.container).value;
    var kind := KindOf(mu.probeType).value;
    var p := ProbeOf(dep.containers[idx], kind).value;
    RetimedMeaning(p, mu.fields);
  }

  lemma ResizedMeaning(dep: Dep, mu: Mutation, at: string)
    requires mu.Resize? && Mutated(dep, mu, at).Ok?
    ensures Becomes(dep, mu, at, Mutated(dep, mu, at).value)
  {
    hide AllowsPatch, FindContainer;
  }

  lemma ReimagedMeaning(dep: Dep, mu: Mutation, at: string)
    requires (mu.SetImage? || mu.MoveRegistry?) && Mutated(dep, mu, at).Ok?
    ensures Becomes(dep, mu, at, Mutated(dep, mu, at).value)
  {
    hide AllowsPatch, FindContainer, SwapRegistry;
  }

  /** Every change that is carried out is one of these. */
  lemma CarriedOutByField(before: Dep, mu: Mutation, at: string, after: Dep)
    requires Mutated(before, mu, at) == Ok(after)
    ensures Becomes(before, mu, at, after)
  {
    hide AllowsPatch, FindContainer;
    match mu
    case Restart =>
    case Scale(_) =>
    case Retime(_, _, _) => ReprobedMeaning(before, mu, at);
    case Resize(_, _) => ResizedMeaning(before, mu, at);
    case SetImage(_, _) => ReimagedMeaning(before, mu, at);
    case MoveRegistry(_, _) => ReimagedMeaning(before, mu, at);
  }

  /** The timings leave one probe. */
  lemma TimedByOne(probe: Probe, fields: map<string, string>, p: Probe, q: Probe)
    requires TimedBy(probe, fields, p) && TimedBy(probe, fields, q)
    ensures p == q
  {
    hide Atoi, TrimSpace;
  }

  lemma RetimingIsNotRefused(before: Dep, mu: Mutation, at: string, after: Dep)
    requires mu.Retime? && Becomes(before, mu, at, after)
    ensures Mutated(before, mu, at) == Ok(after)
  {
    hide AllowsPatch, FindContainer, Retimed, ValidFields, TimedBy, TakesTiming, ToLower, TrimSpace;
    var idx := FindContainer(before.containers, mu.container).value;
    var kind := KindOf(mu.probeType).value;
    var p, q := ProbeOf(before.containers[idx], kind).value, ProbeOf(after.containers[idx], kind).value;
    RetimedMeaning(p, mu.fields);
    TimedByOne(p, mu.fields, q, Retimed(p, mu.fields));
  }

  lemma ResizingIsNotRefused(before: Dep, mu: Mutation, at: string, after: Dep)
    requires mu.Resize? && Becomes(before, mu, at, after)
    ensures Mutated(before, mu, at) == Ok(after)
  {
    hide AllowsPatch, FindContainer;
    var c := before.containers[FindContainer(before.containers, mu.container).value];
    var r := c.resources;
    assert r == Resources(r.cpuRequest, r.memoryRequest, r.cpuLimit, r.memoryLimit);
  }

  lemma ImageIsNotRefused(before: Dep, mu: Mutation, at: string, after: Dep)
    requires (mu.SetImage? || mu.MoveRegistry?) && Becomes(before, mu, at, after)
    ensures Mutated(before, mu, at) == Ok(after)
  {
    hide AllowsPatch, FindContainer, SwapRegistry;
  }

  /** And a change that could be carried out like this is not refused. */
  lemma NotRefused(before: Dep, mu: Mutation, at: string, after: Dep)
    requires Becomes(before, mu, at, after)
    ensures Mutated(before, mu, at) == Ok(after)
  {
    hide AllowsPatch, FindContainer, Becomes, Mutated;
    match mu
    case Restart => StampIsNotRefused(before, mu, at, after);
    case Scale(_) => StampIsNotRefused(before, mu, at, after);
    case Retime(_, _, _) => RetimingIsNotRefused(before, mu, at, after);
    case Resize(_, _) => ResizingIsNotRefused(before, mu, at, after);
    case SetImage(_, _) => ImageIsNotRefused(before, mu, at, after);
    case MoveRegistry(_, _) => ImageIsNotRefused(before, mu, at, after);
  }

  lemma StampIsNotRefused(before: Dep, mu: Mutation, at: string, after: Dep)
    requires (mu.Restart? || mu.Scale?) && Becomes(before, mu, at, after)
    ensures Mutated(before, mu, at) == Ok(after)
  {
  }

  /**
   What a change makes of a Deployment is exactly what is listed for it, and it is refused exactly when that is
   impossible.
   */
  lemma ChangeByField(before: Dep, mu: Mutation, at: string, after: Dep)
    ensures Mutated(before, mu, at) == Ok(after) <==> Becomes(before, mu, at, after)
  {
    hide Becomes, Mutated;
    if Mutated(before, mu, at) == Ok(after) {
      CarriedOutByField(before, mu, at, after);
    }
    if Becomes(before, mu, at, after) {
      NotRefused(before, mu, at, after);
    }
  }

  lemma RefusedMeansNothing(before: Dep, mu: Mutation, at: string)
    ensures Mutated(before, mu, at).Err? ==> forall after :: !Becomes(before, mu, at, after)
  {
    hide Becomes, Mutated;
    forall after | Becomes(before, mu, at, after)
      ensures Mutated(before, mu, at).Ok?
    {
      NotRefused(before, mu, at, after);
    }
  }
}
