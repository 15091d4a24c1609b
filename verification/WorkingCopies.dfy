/**
 The working copy of a Deployment that a read-modify-write cycle changes in place
 before sending it back. A refused change may leave the copy half edited; the copy
 is then dropped.
 */
module WorkingCopies {
  import opened Results
  import opened Text
  import opened Model
  import opened Images
  import opened Deployments

  /** The copy and the error agree with what the change is specified to do. */
  predicate Does(expected: Result<Dep>, err: Option<string>, value: Dep)
  {
    if expected.Ok? then err == None && value == expected.value else err == Some(expected.error)
  }

  /** A container change took place as specified, or was refused with the specified error. */
  predicate Carries(expected: Result<Change>, before: Dep, at: string, err: Option<string>, after: Dep)
    requires expected.Ok? ==> expected.value.idx < |before.containers|
  {
    if expected.Ok? then err == None && after == Changed(before, expected.value, at) else err == Some(expected.error)
  }

  lemma CarriesByField(before: Dep, mu: Mutation, at: string, err: Option<string>, after: Dep)
    requires !mu.Restart? && !mu.Scale? && Carries(ChangeOf(before, mu), before, at, err, after)
    ensures err.None? ==> Becomes(before, mu, at, after)
  {
    hide Becomes, Changed, Reimaged, Reprobed, Reresourced, Reregistered, Sound;
    if err.None? {
      CarriedOutByField(before, mu, at, after);
    }
  }

  class Deployment {
    var annotations: map<string, string>
    var lastChange: Option<LastChange>
    var replicas: Option<int>
    var templateAnnotations: map<string, string>
    var containers: seq<Container>

    function Value(): Dep
      reads this
    {
      Dep(annotations, lastChange, replicas, templateAnnotations, containers)
    }

    constructor (dep: Dep)
      ensures Value() == dep
    {
      annotations, lastChange, replicas := dep.annotations, dep.lastChange, dep.replicas;
      templateAnnotations, containers := dep.templateAnnotations, dep.containers;
    }

    method SetLastChange(action: Action, container: string, previous: Previous, at: string)
      modifies this`lastChange
      ensures lastChange == Some(LastChange(action, container, previous, at))
    {
      lastChange := Some(LastChange(action, container, previous, at));
    }

    method Restart(at: string)
      modifies this
      ensures Value() == Restarted(old(Value()), at) && Becomes(old(Value()), Mutation.Restart, at, Value())
    {
      templateAnnotations := templateAnnotations[RESTARTED_AT := at];
    }

    method Scale(count: int, at: string)
      modifies this
      ensures Value() == Scaled(old(Value()), count, at) && Becomes(old(Value()), Mutation.Scale(count), at, Value())
    {
      var previous := 1;
      if replicas.Some? {
        previous := replicas.value;
      }
      SetLastChange(ScaleDeployment, "", PreviousReplicas(previous), at);
      replicas := Some(count);
    }

    method SetImage(image: string, container: string, at: string) returns (err: Option<string>)
      modifies this
      ensures Carries(Reimaged(old(Value()), image, container), old(Value()), at, err, Value())
      ensures err.None? ==> Becomes(old(Value()), Mutation.SetImage(image, container), at, Value())
    {
      hide Becomes;
      var idx := PickForImage(Value(), image, container);
      if idx.Err? {
        return Some(idx.error);
      }
      var c := containers[idx.value];
      SetLastChange(SetDeploymentImage, c.name, PreviousImage(c.image), at);
      containers := containers[idx.value := c.(image := image)];
      err := None;
      CarriesByField(old(Value()), Mutation.SetImage(image, container), at, err, Value());
    }

    /** The fields are set one by one in an arbitrary order; the result does not depend on it. */
    method Retime(container: string, probeType: string, fields: map<string, string>,
                  at: string) returns (err: Option<string>)
      modifies this
      ensures Carries(Reprobed(old(Value()), container, probeType, fields), old(Value()), at, err, Value())
      ensures err.None? ==> Becomes(old(Value()), Mutation.Retime(container, probeType, fields), at, Value())
    {
      hide Becomes, AllowsPatch, Retiming, FindContainer, Sound;
      if !AllowsPatch(Value(), "probe") {
        return Some("deployment does not opt in to patch_probe");
      }
      var idx := FindContainer(containers, container);
      if idx.Err? {
        return Some(idx.error);
      }
      var kind := KindOf(probeType);
      if kind.None? {
        return Some("probe must be one of: readiness, liveness");
      }
      err := RetimeContainer(idx.value, kind.value, fields, at);
      CarriesByField(old(Value()), Mutation.Retime(container, probeType, fields), at, err, Value());
    }

    method RetimeContainer(idx: nat, kind: ProbeKind, fields: map<string, string>, at: string)
      returns (err: Option<string>)
      requires idx < |containers|
      modifies this
      ensures Carries(Retiming(old(Value()), idx, kind, fields), old(Value()), at, err, Value())
    {
      var c := containers[idx];
      var probe := ProbeOf(c, kind);
      if probe.None? {
        return Some("container has no such probe to patch");
      }
      var p := probe.value;
      SetLastChange(PatchProbe, c.name,
        PreviousProbe(kind, p.initialDelay, p.period, p.failureThreshold, p.successThreshold, p.timeout), at);
      var ok;
      p, ok := RetimeProbe(p, fields);
      if !ok {
        return Some("probe field outside bounds");
      }
      if fields == map[] {
        return Some("patch_probe requires at least one probe field in parameters");
      }
      containers := containers[idx := WithProbe(c, kind, p)];
      return None;
    }

    /** Walks the map in any order and stops at the first field that is unknown, not a number or out of range. */
    static method RetimeProbe(probe: Probe, fields: map<string, string>) returns (p: Probe, ok: bool)
      ensures ok <==> ValidFields(fields)
      ensures ok ==> p == Retimed(probe, fields)
      ensures ok <==> forall key :: key in fields ==> TakesTiming(key, fields[key])
      ensures ok ==> TimedBy(probe, fields, p)
    {
      hide TakesTiming, TimedBy, ParseProbeField;
      RetimedMeaning(probe, fields);
      p := probe;
      var todo := fields.Keys;
      while todo != {}
        invariant todo <= fields.Keys
        invariant forall key :: key in fields && key !in todo ==> ParseProbeField(key, fields[key]).Some?
        invariant p == Retimed(probe, fields - todo)
        decreases todo
      {
        var key :| key in todo;
        var v := ParseProbeField(key, fields[key]);
        if v.None? {
          return p, false;
        }
        ghost var done := fields - todo;
        todo := todo - {key};
        assert fields - todo == done[key := fields[key]];
        match key
        case "initial_delay_seconds" => p := p.(initialDelay := v.value);
        case "period_seconds" => p := p.(period := v.value);
        case "failure_threshold" => p := p.(failureThreshold := v.value);
        case "success_threshold" => p := p.(successThreshold := v.value);
        case "timeout_seconds" => p := p.(timeout := v.value);
        case _ => assert false;
      }
      assert fields - {} == fields;
      return p, true;
    }

    method Resize(container: string, request: ResourceRequest, at: string) returns (err: Option<string>)
      modifies this
      ensures Carries(Reresourced(old(Value()), container, request), old(Value()), at, err, Value())
      ensures err.None? ==> Becomes(old(Value()), Mutation.Resize(container, request), at, Value())
    {
      hide Becomes, AllowsPatch, Resizing, FindContainer, Sound;
      if !AllowsPatch(Value(), "resources") {
        return Some("deployment does not opt in to patch_resources");
      }
      var idx := FindContainer(containers, container);
      if idx.Err? {
        return Some(idx.error);
      }
      err := ResizeContainer(idx.value, request, at);
      CarriesByField(old(Value()), Mutation.Resize(container, request), at, err, Value());
    }

    method ResizeContainer(idx: nat, request: ResourceRequest, at: string) returns (err: Option<string>)
      requires idx < |containers|
      modifies this
      ensures Carries(Resizing(old(Value()), idx, request), old(Value()), at, err, Value())
    {
      var c := containers[idx];
      var r := c.resources;
      SetLastChange(PatchResources, c.name, PreviousResources(r), at);
      var changed := false;
      if !request.cpuRequest.Absent? {
        if !Acceptable(request.cpuRequest, MIN_CPU, MAX_CPU) { return Some("quantity outside bounds"); }
        r, changed := r.(cpuRequest := Some(request.cpuRequest.q)), true;
      }
      if !request.memoryRequest.Absent? {
        if !Acceptable(request.memoryRequest, MIN_MEMORY, MAX_MEMORY) { return Some("quantity outside bounds"); }
        r, changed := r.(memoryRequest := Some(request.memoryRequest.q)), true;
      }
      if !request.cpuLimit.Absent? {
        if !Acceptable(request.cpuLimit, MIN_CPU, MAX_CPU) { return Some("quantity outside bounds"); }
        r, changed := r.(cpuLimit := Some(request.cpuLimit.q)), true;
      }
      if !request.memoryLimit.Absent? {
        if !Acceptable(request.memoryLimit, MIN_MEMORY, MAX_MEMORY) { return Some("quantity outside bounds"); }
        r, changed := r.(memoryLimit := Some(request.memoryLimit.q)), true;
      }
      containers := containers[idx := c.(resources := r)];
      if !changed {
        return Some("patch_resources requires at least one quantity");
      }
      if !Consistent(r) {
        return Some("request exceeds limit");
      }
      return None;
    }

    method MoveRegistry(container: string, newRegistry: string, at: string) returns (err: Option<string>)
      modifies this
      ensures Carries(Reregistered(old(Value()), container, newRegistry), old(Value()), at, err, Value())
      ensures err.None? ==> Becomes(old(Value()), Mutation.MoveRegistry(container, newRegistry), at, Value())
    {
      hide Becomes, AllowsPatch, Moving, FindContainer, Sound;
      if !AllowsPatch(Value(), "registry") {
        return Some("deployment does not opt in to patch_registry");
      }
      var idx := FindContainer(containers, container);
      if idx.Err? {
        return Some(idx.error);
      }
      err := MoveContainer(idx.value, newRegistry, at);
      CarriesByField(old(Value()), Mutation.MoveRegistry(container, newRegistry), at, err, Value());
    }

    method MoveContainer(idx: nat, newRegistry: string, at: string) returns (err: Option<string>)
      requires idx < |containers|
      modifies this
      ensures Carries(Moving(old(Value()), idx, newRegistry), old(Value()), at, err, Value())
    {
      var c := containers[idx];
      var newImage := SwapRegistry(c.image, newRegistry);
      if newImage.Err? {
        return Some(newImage.error);
      }
      if newImage.value == c.image {
        return Some("new registry produces the same image; no change");
      }
      SetLastChange(PatchRegistry, c.name, PreviousImage(c.image), at);
      containers := containers[idx := c.(image := newImage.value)];
      return None;
    }

    method Mutate(mu: Mutation, at: string) returns (err: Option<string>)
      modifies this
      ensures Does(Mutated(old(Value()), mu, at), err, Value())
      ensures err.None? ==> Becomes(old(Value()), mu, at, Value())
      ensures err.Some? ==> forall after :: !Becomes(old(Value()), mu, at, after)
    {
      hide Becomes, Reimaged, Reprobed, Reresourced, Reregistered, AllowsPatch, Sound;
      RefusedMeansNothing(Value(), mu, at);
      match mu
      case Restart =>
        Restart(at);
        err := None;
      case Scale(count) =>
        Scale(count, at);
        err := None;
      case SetImage(image, container) => err := SetImage(image, container, at);
      case Retime(container, probeType, fields) => err := Retime(container, probeType, fields, at);
      case Resize(container, request) => err := Resize(container, request, at);
      case MoveRegistry(container, newRegistry) => err := MoveRegistry(container, newRegistry, at);
    }
  }
}
