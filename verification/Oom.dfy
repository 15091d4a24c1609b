/**
 Memory arithmetic of the out-of-memory path: the limit a killed container is
 raised to, and what that does to a resources patch.
 */
module Oom {
  import opened Results
  import opened Text
  import opened Model
  import opened Deployments

  // ---- quantities as text -----------------------------------------------------------------

  /** How quantities are read from and written to parameters, in thousandths. */
  datatype QuantityText = QuantityText(parse: string -> Option<int>, show: int -> string)

  /** What is written is not blank and reads back as the same quantity. */
  ghost predicate ReadsBack(text: QuantityText)
  {
    forall q: int :: q >= 0 ==> text.show(q) != "" && Trimmed(text.show(q)) && text.parse(text.show(q)) == Some(q)
  }

  function ReadRaw(text: QuantityText, params: map<string, string>, key: string): Raw
  {
    var raw := TrimSpace(Param(params, key));
    if raw == "" then Absent else if text.parse(raw).None? then Malformed else Amount(text.parse(raw).value)
  }

  function RequestOf(text: QuantityText, params: map<string, string>): ResourceRequest
  {
    ResourceRequest(ReadRaw(text, params, "cpu_request"), ReadRaw(text, params, "memory_request"),
                    ReadRaw(text, params, "cpu_limit"), ReadRaw(text, params, "memory_limit"))
  }

  /** What a parameter says of a quantity: nothing when blank, else the amount it spells, if it spells one. */
  predicate Says(text: QuantityText, params: map<string, string>, key: string, raw: Raw)
  {
    var word := TrimSpace(Param(params, key));
    if word == "" then raw.Absent?
    else if text.parse(word).None? then raw.Malformed?
    else raw == Amount(text.parse(word).value)
  }

  /** Each of the four quantities is read from the parameter of its own name. */
  lemma RequestAsWritten(text: QuantityText, params: map<string, string>)
    ensures var request := RequestOf(text, params);
      && Says(text, params, "cpu_request", request.cpuRequest)
      && Says(text, params, "memory_request", request.memoryRequest)
      && Says(text, params, "cpu_limit", request.cpuLimit)
      && Says(text, params, "memory_limit", request.memoryLimit)
  {
    hide TrimSpace, Param;
  }

  /** At least one of the four quantities is given. */
  predicate HasResourceParams(params: map<string, string>)
  {
    TrimSpace(Param(params, "cpu_request")) != "" || TrimSpace(Param(params, "memory_request")) != ""
    || TrimSpace(Param(params, "cpu_limit")) != "" || TrimSpace(Param(params, "memory_limit")) != ""
  }

  /** The conservative values for a pod no node can take. */
  function SchedulableDefaults(text: QuantityText, params: map<string, string>): map<string, string>
  {
    params["cpu_request" := text.show(100)]["memory_request" := text.show(64 * MI * MILLI)]
          ["cpu_limit" := text.show(500)]["memory_limit" := text.show(256 * MI * MILLI)]
  }

  // ---- the bumped limit -----------------------------------------------------------------------

  const FLOOR: int := 512 * MI * MILLI

  /** Quantity.Value: whole units, rounded away from zero. */
  function WholeUnits(q: int): (units: int)
    ensures q >= 0 ==> 1000 * (units - 1) < q <= 1000 * units
    ensures q < 0 ==> 1000 * units <= q < 1000 * (units + 1)
  {
    if q >= 0 then (q + MILLI - 1) / MILLI else -((-q + MILLI - 1) / MILLI)
  }

  /** int64 wrap-around. */
  function Wrap64(n: int): int
  {
    (n + 0x8000_0000_0000_0000) % 0x1_0000_0000_0000_0000 - 0x8000_0000_0000_0000
  }

  /** Four times the current limit, at least 512Mi, at most 16Gi; 0 stands for no limit. */
  function BumpedLimit(current: int): (r: int)
    ensures 536_870_912_000 <= r <= 17_179_869_184_000
  {
    var bumped := Wrap64(WholeUnits(current) * 4) * MILLI;
    var target := if current == 0 || bumped < FLOOR then FLOOR else bumped;
    if target > MAX_MEMORY then MAX_MEMORY else target
  }

  function AtLeast(a: int, b: int): int { if a < b then b else a }

  function AtMost(a: int, b: int): int { if a < b then a else b }

  /**
   Up to 16Gi the new limit is four times the old one in whole bytes, but at least 512Mi and at most 16Gi; it never
   falls below the old limit exactly up to 16Gi.
   */
  lemma BumpedLimitMeaning(current: int)
    requires 0 <= current <= MAX_INT64 * MILLI
    ensures current <= 17_179_869_184_000 ==>
      var units := (current + 999) / 1000;
      BumpedLimit(current) == AtLeast(536_870_912_000, AtMost(4_000 * units, 17_179_869_184_000))
    ensures BumpedLimit(current) >= current <==> current <= 17_179_869_184_000
  {
  }

  /** It is a whole number of bytes. */
  lemma BumpedIsWhole(current: int)
    ensures BumpedLimit(current) % 1000 == 0
  {
    hide Wrap64, WholeUnits;
    Thousands(Wrap64(WholeUnits(current) * 4));
  }

  lemma Thousands(n: int)
    ensures n * 1000 % 1000 == 0
  {
  }

  // ---- raising the limit in the parameters --------------------------------------------------------

  function LimitOf(containers: seq<Container>, ref: string): int
  {
    if containers == [] then 0 else
      var limit := containers[NamedOrFirst(containers, ref)].resources.memoryLimit;
      if limit.Some? then limit.value else 0
  }

  /** Half a quantity, in whole units. */
  function Half(q: int): (h: int)
    requires q >= 0
    ensures h >= 0 && h % 1000 == 0 && (q % 1000 == 0 ==> h <= q / 2 < h + 1000)
  {
    WholeUnits(q) / 2 * MILLI
  }

  /** Raises memory_limit to the floor and takes memory_request down to half of it when it lies above. */
  function Raise(text: QuantityText, params: map<string, string>, floor: int): map<string, string>
    requires floor >= 0
  {
    var request := ReadRaw(text, params, "memory_request");
    var raised := params["memory_limit" := text.show(floor)];
    if request.Amount? && request.q > floor then raised["memory_request" := text.show(Half(floor))] else raised
  }

  /** The floor that applies to these parameters. */
  function FloorFor(dep: Dep, params: map<string, string>): (r: int)
    ensures 536_870_912_000 <= r <= 17_179_869_184_000
  {
    BumpedLimit(LimitOf(dep.containers, Param(params, "container")))
  }

  /** The parameters of a resources patch during an OOM incident: an adequate limit stays, any other is raised. */
  function FloorParams(text: QuantityText, dep: Dep, params: map<string, string>): map<string, string>
  {
    var floor, limit := FloorFor(dep, params), ReadRaw(text, params, "memory_limit");
    if limit.Amount? && limit.q >= floor then params else Raise(text, params, floor)
  }

  /** The container is the first with the trimmed name, or the first of all when there is no such name. */
  lemma NamedOrFirstMeaning(containers: seq<Container>, ref: string, i: nat)
    requires containers != []
    ensures NamedOrFirst(containers, ref) == i <==>
      var name := TrimSpace(ref);
      if name != "" && exists c :: c in containers && c.name == name then FirstNamed(containers, name, i) else i == 0
  {
    hide TrimSpace;
    var named := ByName(containers, TrimSpace(ref));
    assert named.Some? ==> containers[named.value] in containers;
  }

  /**
   Raised are a memory limit that is missing or below the floor, and only with it, downwards, a memory request above
   the floor: to half of it in whole bytes.
   */
  lemma FloorParamsMeaning(text: QuantityText, dep: Dep, params: map<string, string>)
    requires ReadsBack(text)
    ensures var floor, raised := FloorFor(dep, params), FloorParams(text, dep, params);
      var asked, got := RequestOf(text, params), RequestOf(text, raised);
      && Param(raised, "container") == Param(params, "container")
      && if asked.memoryLimit.Amount? && asked.memoryLimit.q >= floor then raised == params
         else
           && got == asked.(memoryLimit := Amount(floor), memoryRequest := got.memoryRequest)
           && if asked.memoryRequest.Amount? && asked.memoryRequest.q > floor
              then
                && got.memoryRequest.Amount? && got.memoryRequest.q % 1000 == 0
                && got.memoryRequest.q <= floor / 2 < got.memoryRequest.q + 1000
              else got.memoryRequest == asked.memoryRequest
  {
    hide ReadRaw, Half, Raise, ReadsBack;
    RaisedRequest(text, params, FloorFor(dep, params));
    RaisedContainerName(text, params, FloorFor(dep, params));
    BumpedIsWhole(LimitOf(dep.containers, Param(params, "container")));
  }

  // ---- the raised patch against its own validator ---------------------------------------------------

  /** Only memory is asked for, and not already enough of it. */
  predicate AsksForLittleMemory(text: QuantityText, dep: Dep, params: map<string, string>)
  {
    && ReadRaw(text, params, "cpu_request").Absent? && ReadRaw(text, params, "cpu_limit").Absent?
    && (ReadRaw(text, params, "memory_limit").Amount? ==>
          ReadRaw(text, params, "memory_limit").q < FloorFor(dep, params))
  }

  lemma ReadWritten(text: QuantityText, params: map<string, string>, key: string, q: int)
    requires ReadsBack(text) && q >= 0
    ensures ReadRaw(text, params[key := text.show(q)], key) == Amount(q)
  {
    hide IsSpace, TrimSpace;
    assert text.parse(text.show(q)) == Some(q);
    TrimSpaceMeaning(text.show(q));
  }

  lemma ReadUntouched(text: QuantityText, params: map<string, string>, key: string, other: string, value: string)
    requires key != other
    ensures ReadRaw(text, params[other := value], key) == ReadRaw(text, params, key)
  {
  }

  lemma DistinctKeys()
    ensures "memory_limit" != "cpu_request" && "memory_limit" != "cpu_limit" && "memory_limit" != "memory_request"
    ensures "memory_limit" != "container" && "memory_limit" != "deployment_name"
    ensures "cpu_request" != "cpu_limit" && "cpu_request" != "container" && "cpu_limit" != "container"
    ensures "memory_request" != "cpu_request" && "memory_request" != "cpu_limit" && "memory_request" != "container"
    ensures "container" != "cpu_request" && "container" != "cpu_limit" && "container" != "deployment_name"
    ensures "deployment_name" != "cpu_request" && "deployment_name" != "cpu_limit"
    ensures "deployment_name" != "memory_request"
  {
    assert "memory_limit"[0] == 'm' && "cpu_request"[0] == 'c' && "cpu_limit"[0] == 'c';
    assert "container"[1] == 'o' && "cpu_limit"[1] == 'p';
    assert |"memory_limit"| == 12 && |"memory_request"| == 14 && |"cpu_request"| == 11 && |"container"| == 9;
    assert |"deployment_name"| == 15 && |"cpu_limit"| == 9;
  }

  /** Writing one quantity changes what is read under its key and nothing else. */
  lemma RequestWithLimit(text: QuantityText, params: map<string, string>, q: int)
    requires ReadsBack(text) && q >= 0
    ensures RequestOf(text, params["memory_limit" := text.show(q)]) == RequestOf(text,
                      params).(memoryLimit := Amount(q))
  {
    hide IsSpace, TrimSpace, ReadRaw, ReadsBack;
    DistinctKeys();
    var value := text.show(q);
    ReadWritten(text, params, "memory_limit", q);
    ReadUntouched(text, params, "cpu_request", "memory_limit", value);
    ReadUntouched(text, params, "cpu_limit", "memory_limit", value);
    ReadUntouched(text, params, "memory_request", "memory_limit", value);
  }

  lemma RequestWithRequest(text: QuantityText, params: map<string, string>, q: int)
    requires ReadsBack(text) && q >= 0
    ensures RequestOf(text, params["memory_request" := text.show(q)]) == RequestOf(text,
                      params).(memoryRequest := Amount(q))
  {
    hide IsSpace, TrimSpace, ReadRaw, ReadsBack;
    DistinctKeys();
    var value := text.show(q);
    ReadWritten(text, params, "memory_request", q);
    ReadUntouched(text, params, "cpu_request", "memory_request", value);
    ReadUntouched(text, params, "cpu_limit", "memory_request", value);
    ReadUntouched(text, params, "memory_limit", "memory_request", value);
  }

  /** Keys that carry no quantity. */
  lemma RequestWithName(text: QuantityText, params: map<string, string>, key: string, value: string)
    requires key == "container" || key == "deployment_name"
    ensures RequestOf(text, params[key := value]) == RequestOf(text, params)
  {
    hide IsSpace, TrimSpace, ReadRaw, ReadsBack;
    DistinctKeys();
    ReadUntouched(text, params, "cpu_request", key, value);
    ReadUntouched(text, params, "cpu_limit", key, value);
    ReadUntouched(text, params, "memory_request", key, value);
    ReadUntouched(text, params, "memory_limit", key, value);
  }

  /** The request that reaches the validator after the limit was raised. */
  lemma RaisedRequest(text: QuantityText, params: map<string, string>, floor: int)
    requires ReadsBack(text) && floor >= 0
    ensures RequestOf(text, Raise(text, params, floor))
         == RequestOf(text, params).(memoryLimit := Amount(floor),
                                     memoryRequest := Capped(ReadRaw(text, params, "memory_request"), floor))
  {
    hide IsSpace, TrimSpace, ReadRaw, Half, WholeUnits;
    HalfIsNonNegative(floor);
    RequestWithLimit(text, params, floor);
    RequestWithRequest(text, params["memory_limit" := text.show(floor)], Half(floor));
  }

  lemma HalfIsNonNegative(q: int)
    requires q >= 0
    ensures Half(q) >= 0
  {
  }

  lemma RaisedContainerName(text: QuantityText, params: map<string, string>, floor: int)
    requires floor >= 0
    ensures Param(Raise(text, params, floor), "container") == Param(params, "container")
  {
    DistinctKeys();
  }

  /** A memory request above the floor is replaced by half the floor. */
  function Capped(asked: Raw, floor: int): Raw
    requires floor >= 0
  {
    if asked.Amount? && asked.q > floor then Amount(Half(floor)) else asked
  }

  /** What the target container must satisfy: its own CPU figures agree and the memory request fits under the floor. */
  predicate FitsFloor(r: Resources, asked: Raw, floor: int)
  {
    && Within(r.cpuRequest, r.cpuLimit)
    && match asked
       case Absent => Within(r.memoryRequest, Some(floor))
       case Malformed => false
       case Amount(q) => q >= 16_777_216_000
  }

  predicate RaisedTo(r: Resources, limit: int)
  {
    r.memoryLimit == Some(limit) && Consistent(r)
  }

  /**
   The raised patch passes its validator exactly when a container is found and fits; it then gets the floor as
   limit.
   */
  lemma RaisedPatchSucceedsExactly(text: QuantityText, dep: Dep, params: map<string, string>)
    requires ReadsBack(text) && AllowsPatch(dep, "resources") && AsksForLittleMemory(text, dep, params)
    ensures var container, floor := Param(params, "container"), FloorFor(dep, params);
      var target, raised := FindContainer(dep.containers, container), FloorParams(text, dep, params);
      var patch := Reresourced(dep, Param(raised, "container"), RequestOf(text, raised));
      && (patch.Ok? <==>
            target.Ok?
            && FitsFloor(dep.containers[target.value].resources, ReadRaw(text, params, "memory_request"), floor))
      && (patch.Ok? ==> patch.value.idx == target.value && RaisedTo(patch.value.container.resources, floor))
  {
    RaisedRequest(text, params, FloorFor(dep, params));
    RaisedContainerName(text, params, FloorFor(dep, params));
    var target := FindContainer(dep.containers, Param(params, "container"));
    if target.Ok? {
      RaisedContainer(dep, target.value, ReadRaw(text, params, "memory_request"), FloorFor(dep, params));
    }
  }

  lemma RaisedContainer(dep: Dep, idx: nat, asked: Raw, floor: int)
    requires idx < |dep.containers| && FLOOR <= floor <= MAX_MEMORY
    ensures var patch := Resizing(dep, idx, ResourceRequest(Absent, Capped(asked, floor), Absent, Amount(floor)));
      && (patch.Ok? <==> FitsFloor(dep.containers[idx].resources, asked, floor))
      && (patch.Ok? ==> patch.value.idx == idx && RaisedTo(patch.value.container.resources, floor))
  {
  }

  /** No reference, a container's name, the first container's image, or no choice. */
  predicate PlainReference(containers: seq<Container>, ref: string)
  {
    || TrimSpace(ref) == ""
    || ByName(containers, TrimSpace(ref)).Some?
    || ByImage(containers, TrimSpace(ref)) == Some(0)
    || (ByImage(containers, TrimSpace(ref)).None? && |containers| == 1)
  }

  /** Exactly then the container that is read is the container that is written. */
  lemma PlainReferenceAgrees(containers: seq<Container>, ref: string)
    requires containers != []
    ensures PlainReference(containers, ref) <==> FindContainer(containers, ref) == Ok(NamedOrFirst(containers, ref))
  {
    hide TrimSpace;
  }

  /** Figures a container can have before the kill for the path to work: consistent, and a limit of at most 16Gi. */
  predicate Ordinary(r: Resources)
  {
    && Consistent(r)
    && (r.memoryLimit.Some? ==> 0 <= r.memoryLimit.value <= 17_179_869_184_000)
    && (r.memoryLimit.None? ==> r.memoryRequest.None?)
  }

  /**
   For a plainly referenced, ordinary container the OOM path never fails its own validator and never lowers the
   limit.
   */
  lemma OomPathSucceeds(text: QuantityText, dep: Dep, params: map<string, string>)
    requires ReadsBack(text) && AllowsPatch(dep, "resources") && AsksForLittleMemory(text, dep, params)
    requires dep.containers != [] && PlainReference(dep.containers, Param(params, "container"))
    requires Ordinary(dep.containers[NamedOrFirst(dep.containers, Param(params, "container"))].resources)
    requires var request := ReadRaw(text, params, "memory_request");
      request.Absent? || (request.Amount? && request.q >= 16_777_216_000)
    ensures var raised := FloorParams(text, dep, params);
      var patch := Reresourced(dep, Param(raised, "container"), RequestOf(text, raised));
      var m := LimitOf(dep.containers, Param(params, "container"));
      && patch.Ok? && patch.value.idx == NamedOrFirst(dep.containers, Param(params, "container"))
      && patch.value.container.resources.memoryLimit
         == Some(AtLeast(536_870_912_000, AtMost(4_000 * ((m + 999) / 1000), 17_179_869_184_000)))
      && patch.value.container.resources.memoryLimit.value >= m
      && Consistent(patch.value.container.resources)
  {
    hide TrimSpace, Trimmed, IsSpace, Param, Resizing, Sound, ListsScope, Split, Changed, Raise;
    PlainReferenceAgrees(dep.containers, Param(params, "container"));
    RaisedPatchSucceedsExactly(text, dep, params);
    BumpedLimitMeaning(LimitOf(dep.containers, Param(params, "container")));
  }

  /**
   A raised patch lowers the limit of its container exactly when that exceeds what was derived from the container
   read.
   */
  lemma LimitIsLoweredExactly(text: QuantityText, dep: Dep, params: map<string, string>)
    requires ReadsBack(text) && AllowsPatch(dep, "resources") && AsksForLittleMemory(text, dep, params)
    requires Reresourced(dep, Param(params, "container"), RequestOf(text, FloorParams(text, dep, params))).Ok?
    ensures var raised := FloorParams(text, dep, params);
      var patch := Reresourced(dep, Param(raised, "container"), RequestOf(text, raised));
      && Param(raised, "container") == Param(params, "container")
      && patch.value.container.resources.memoryLimit.Some?
      && var before := dep.containers[patch.value.idx].resources.memoryLimit;
         var after := patch.value.container.resources.memoryLimit.value;
         before.Some? ==>
           (after < before.value <==> BumpedLimit(LimitOf(dep.containers, Param(params, "container"))) < before.value)
  {
    hide TrimSpace, Param, Resizing, AllowsPatch, Raise, BumpedLimit, LimitOf, NamedOrFirst;
    RaisedContainerName(text, params, FloorFor(dep, params));
    RaisedPatchSucceedsExactly(text, dep, params);
  }

  /** With a plain reference and a limit up to 16Gi that never happens. */
  lemma PlainReferenceKeepsLimit(text: QuantityText, dep: Dep, params: map<string, string>)
    requires ReadsBack(text) && AllowsPatch(dep, "resources") && AsksForLittleMemory(text, dep, params)
    requires dep.containers != [] && PlainReference(dep.containers, Param(params, "container"))
    requires Reresourced(dep, Param(params, "container"), RequestOf(text, FloorParams(text, dep, params))).Ok?
    requires var target := NamedOrFirst(dep.containers, Param(params, "container"));
      var limit := dep.containers[target].resources.memoryLimit;
      limit.Some? && 0 <= limit.value <= MAX_INT64 * MILLI
    ensures var patch := Reresourced(dep, Param(params, "container"), RequestOf(text, FloorParams(text, dep, params)));
      var before := dep.containers[NamedOrFirst(dep.containers, Param(params, "container"))].resources.memoryLimit;
      && patch.value.idx == NamedOrFirst(dep.containers, Param(params, "container"))
      && patch.value.container.resources.memoryLimit.Some?
      && (patch.value.container.resources.memoryLimit.value >= before.value <==> before.value <= 17_179_869_184_000)
  {
    hide TrimSpace, Param, Resizing, AllowsPatch, Raise, BumpedLimit, NamedOrFirst, PlainReference;
    RaisedContainerName(text, params, FloorFor(dep, params));
    RaisedPatchSucceedsExactly(text, dep, params);
    PlainReferenceAgrees(dep.containers, Param(params, "container"));
    BumpedLimitMeaning(LimitOf(dep.containers, Param(params, "container")));
  }

  /** The schedulable defaults pass the validator of every opted-in Deployment in which the container is found. */
  lemma SchedulableDefaultsSucceed(text: QuantityText, dep: Dep, params: map<string, string>)
    requires ReadsBack(text) && AllowsPatch(dep, "resources")
    ensures var defaults := SchedulableDefaults(text, params);
      var patch := Reresourced(dep, Param(defaults, "container"), RequestOf(text, defaults));
      && (patch.Ok? <==> FindContainer(dep.containers, Param(params, "container")).Ok?)
      && (patch.Ok? ==> patch.value.container.resources
                        == Resources(Some(100), Some(67_108_864_000), Some(500), Some(268_435_456_000)))
  {
    hide TrimSpace, AllowsPatch, FindContainer, ReadsBack;
    DefaultsRequest(text, params);
  }

  lemma DefaultsRequest(text: QuantityText, params: map<string, string>)
    requires ReadsBack(text)
    ensures RequestOf(text, SchedulableDefaults(text, params))
         == ResourceRequest(Amount(100), Amount(64 * MI * MILLI), Amount(500), Amount(256 * MI * MILLI))
    ensures Param(SchedulableDefaults(text, params), "container") == Param(params, "container")
  {
    hide IsSpace, TrimSpace, ReadRaw, ReadsBack;
    DistinctKeys();
    var a := params["cpu_request" := text.show(100)];
    var b := a["memory_request" := text.show(64 * MI * MILLI)];
    var c := b["cpu_limit" := text.show(500)];
    var all := c["memory_limit" := text.show(256 * MI * MILLI)];
    ReadWritten(text, params, "cpu_request", 100);
    ReadUntouched(text, a, "cpu_request", "memory_request", text.show(64 * MI * MILLI));
    ReadUntouched(text, b, "cpu_request", "cpu_limit", text.show(500));
    ReadWritten(text, b, "cpu_limit", 500);
    RequestWithRequest(text, a, 64 * MI * MILLI);
    ReadUntouched(text, b, "memory_request", "cpu_limit", text.show(500));
    RequestWithLimit(text, c, 256 * MI * MILLI);
    assert SchedulableDefaults(text, params) == all;
  }

  /** A restart turned into a resources patch: the first container gets the bumped limit. */
  function EscalatedParams(text: QuantityText, dep: Dep, params: map<string, string>,
                           depName: string): map<string, string>
    requires dep.containers != []
  {
    var c := dep.containers[0];
    var current := if c.resources.memoryLimit.Some? then c.resources.memoryLimit.value else 0;
    params["deployment_name" := depName]["container" := c.name]["memory_limit" := text.show(BumpedLimit(current))]
  }

  /**
   What the first container and the quantities the model left over must satisfy for its limit to be raised to the
   floor.
   */
  predicate FitsRestart(r: Resources, left: ResourceRequest, floor: int)
  {
    && Acceptable(left.cpuRequest, 10, 8_000) && Acceptable(left.cpuLimit, 10, 8_000)
    && Acceptable(left.memoryRequest, 16_777_216_000, floor)
    && Within(AmountOr(left.cpuRequest, r.cpuRequest), AmountOr(left.cpuLimit, r.cpuLimit))
    && Within(AmountOr(left.memoryRequest, r.memoryRequest), Some(floor))
  }

  /**
   An escalated restart passes the validator exactly when what the model left over fits; the floor leaves it as it
   is.
   */
  lemma EscalatedRestartSucceedsExactly(text: QuantityText, dep: Dep, params: map<string, string>, depName: string)
    requires ReadsBack(text) && AllowsPatch(dep, "resources")
    requires dep.containers != [] && Trimmed(dep.containers[0].name)
    ensures var escalated := EscalatedParams(text, dep, params, depName);
      var floor := BumpedLimit(LimitOf(dep.containers, ""));
      var patch := Reresourced(dep, Param(escalated, "container"), RequestOf(text, escalated));
      && FloorParams(text, dep, escalated) == escalated
      && (patch.Ok? <==> FitsRestart(dep.containers[0].resources, RequestOf(text, params), floor))
      && (patch.Ok? ==> patch.value.idx == 0 && RaisedTo(patch.value.container.resources, floor))
  {
    hide TrimSpace, IsSpace, Resizing, Sound, ListsScope, Split, Changed, Raise, ReadRaw, HasResourceParams,
         NamedOrFirst;
    EmptyReference(dep.containers);
    var escalated, m := EscalatedParams(text, dep, params, depName), LimitOf(dep.containers, "");
    EscalatedRequest(text, dep, params, depName);
    assert ReadRaw(text, escalated, "memory_limit") == RequestOf(text, escalated).memoryLimit;
    FirstByItsName(dep.containers);
    ResizedToFloor(dep, RequestOf(text, params), BumpedLimit(m));
    FloorLeavesEnough(text, dep, escalated);
  }

  lemma ResizedToFloor(dep: Dep, left: ResourceRequest, floor: int)
    requires dep.containers != [] && FLOOR <= floor <= MAX_MEMORY
    ensures var patch := Resizing(dep, 0, left.(memoryLimit := Amount(floor)));
      && (patch.Ok? <==> FitsRestart(dep.containers[0].resources, left, floor))
      && (patch.Ok? ==> patch.value.idx == 0 && RaisedTo(patch.value.container.resources, floor))
  {
  }

  /** A restart that asks for nothing else always fits an ordinary container. */
  lemma PlainRestartFits(text: QuantityText, dep: Dep, params: map<string, string>)
    requires !HasResourceParams(params) && dep.containers != [] && Ordinary(dep.containers[0].resources)
    ensures FitsRestart(dep.containers[0].resources, RequestOf(text, params), BumpedLimit(LimitOf(dep.containers, "")))
  {
    hide IsSpace, TrimSpace;
    EmptyReference(dep.containers);
    NothingAsked(text, params);
    BumpedLimitMeaning(LimitOf(dep.containers, ""));
  }

  /**
   A memory request of 1Gi left over from the restart is above the raised limit of a container of 64Mi: the patch is
   refused.
   */
  lemma LeftoverRequestFails(text: QuantityText, dep: Dep, params: map<string, string>, depName: string)
    requires ReadsBack(text) && AllowsPatch(dep, "resources")
    requires ReadRaw(text, params, "memory_request") == Amount(1_073_741_824_000)
    requires dep.containers != [] && Trimmed(dep.containers[0].name)
    requires dep.containers[0].resources == Resources(Option.None, Option.None, Option.None, Some(67_108_864_000))
    ensures var escalated := EscalatedParams(text, dep, params, depName);
      && FloorParams(text, dep, escalated) == escalated
      && Reresourced(dep, Param(escalated, "container"), RequestOf(text, escalated)).Err?
  {
    hide TrimSpace, IsSpace, ReadRaw, Reresourced, FloorParams, EscalatedParams, Trimmed, AllowsPatch, NamedOrFirst,
         ReadsBack;
    EmptyReference(dep.containers);
    EscalatedRestartSucceedsExactly(text, dep, params, depName);
  }

  lemma NothingAsked(text: QuantityText, params: map<string, string>)
    ensures !HasResourceParams(params) <==> RequestOf(text, params) == ResourceRequest(Absent, Absent, Absent, Absent)
  {
  }

  /**
   What an escalated restart asks for: the bumped limit of the first container, by its name, and what was left over.
   */
  lemma EscalatedRequest(text: QuantityText, dep: Dep, params: map<string, string>, depName: string)
    requires ReadsBack(text) && dep.containers != []
    ensures RequestOf(text, EscalatedParams(text, dep, params, depName))
         == RequestOf(text, params).(memoryLimit := Amount(BumpedLimit(LimitOf(dep.containers, ""))))
    ensures Param(EscalatedParams(text, dep, params, depName), "container") == dep.containers[0].name
  {
    hide IsSpace, TrimSpace, Wrap64, WholeUnits, ReadRaw;
    EmptyReference(dep.containers);
    var c, floor := dep.containers[0], BumpedLimit(LimitOf(dep.containers, ""));
    var addressed := params["deployment_name" := depName];
    var named := addressed["container" := c.name];
    RequestWithName(text, params, "deployment_name", depName);
    RequestWithName(text, addressed, "container", c.name);
    RequestWithLimit(text, named, floor);
    DistinctKeys();
  }

  lemma FloorLeavesEnough(text: QuantityText, dep: Dep, params: map<string, string>)
    requires ReadRaw(text, params, "memory_limit") == Amount(FloorFor(dep, params))
    ensures FloorParams(text, dep, params) == params
  {
  }

  lemma EmptyReference(containers: seq<Container>)
    requires containers != []
    ensures NamedOrFirst(containers, "") == 0
  {
    TrimSpaceMeaning("");
  }

  lemma FirstByItsName(containers: seq<Container>)
    requires containers != [] && Trimmed(containers[0].name)
    ensures NamedOrFirst(containers, containers[0].name) == 0
    ensures FindContainer(containers, containers[0].name) == Ok(0)
  {
    hide IsSpace, TrimSpace;
    TrimSpaceMeaning(containers[0].name);
  }

  // ---- where the path goes wrong ------------------------------------------------------------------------

  lemma SecondByImage(containers: seq<Container>, ref: string)
    requires |containers| == 2 && ref != "" && Trimmed(ref)
    requires containers[0].name != ref && containers[1].name != ref && containers[0].image != ref
    requires containers[1].image == ref
    ensures FindContainer(containers, ref) == Ok(1) && NamedOrFirst(containers, ref) == 0
  {
    hide IsSpace, TrimSpace;
    TrimSpaceMeaning(ref);
  }

  /** A second container given by its image is sized after the first one: a limit of 2Gi falls to the 512Mi floor. */
  lemma ImageReferenceLowersLimit(text: QuantityText, dep: Dep, params: map<string, string>)
    requires ReadsBack(text) && AllowsPatch(dep, "resources") && AsksForLittleMemory(text, dep, params)
    requires ReadRaw(text, params, "memory_request").Absent?
    requires var ref := Param(params, "container");
      |dep.containers| == 2 && ref != "" && Trimmed(ref)
      && dep.containers[0].name != ref && dep.containers[1].name != ref
      && dep.containers[0].image != ref && dep.containers[1].image == ref
    requires dep.containers[0].resources.memoryLimit == Some(33_554_432_000)
    requires dep.containers[1].resources == Resources(Option.None, Option.None, Option.None, Some(2_147_483_648_000))
    ensures var raised := FloorParams(text, dep, params);
      var patch := Reresourced(dep, Param(raised, "container"), RequestOf(text, raised));
      patch.Ok? && patch.value.idx == 1 && patch.value.container.resources.memoryLimit == Some(536_870_912_000)
      && 536_870_912_000 < dep.containers[1].resources.memoryLimit.value
  {
    hide TrimSpace, Trimmed, IsSpace, Param, Resizing, Sound, ListsScope, Split, Changed, Raise;
    SecondByImage(dep.containers, Param(params, "container"));
    RaisedPatchSucceedsExactly(text, dep, params);
  }
}
