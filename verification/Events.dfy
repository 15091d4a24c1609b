/** Events: which of them are in scope, whom they are filed under, and how a decision is anchored to its event. */
module Events {
  import opened Results
  import opened Text
  import opened Model
  import opened Histories
  import opened Cluster
  import opened Naming
  import opened Execution
  import opened Effects

  datatype Event = Event(
    typ: string,
    namespace: string,
    name: string,
    resourceVersion: string,
    kind: string,          // of the object involved
    objName: string,
    reason: string,
    message: string)

  /** A listed event, with what the outside world contributes should it be handled. */
  datatype Visit = Visit(
    event: Event,
    timeLeft: bool,               // one more model call still fits into the poll
    extra: string,                // cluster snapshot and pod state given to the model
    reply: Result<Decision>,      // the language model's answer
    tags: Option<seq<string>>,
    logsError: Option<string>,
    stamp: string,                // the time stamp put on changes
    recordedAt: int,
    redisUp: bool)

  /** What a poll gets to see: the list request failed, or the events listed at one moment. */
  datatype PollInput = ListFailed | Listed(now: int, visits: seq<Visit>)

  // ---- filters ------------------------------------------------------------------------------

  /** Warnings from namespaces that are not excluded and, if there is an allow list, are on it. */
  predicate InScope(e: Event, cfg: AgentConfig)
  {
    && EqualFold(e.typ, "Warning")
    && e.namespace !in cfg.excludeNamespaces
    && (cfg.includeNamespaces != [] ==> e.namespace in cfg.includeNamespaces)
  }

  function KeyOf(e: Event): string
  {
    e.namespace + "/" + e.name + "/" + e.resourceVersion
  }

  /** Keys tell events apart: namespaces and names hold no '/', a new resource version makes a new event. */
  lemma KeysAreDistinct(e1: Event, e2: Event)
    requires '/' !in e1.namespace + e1.name && '/' !in e2.namespace + e2.name
    ensures KeyOf(e1) == KeyOf(e2)
       <==> e1.namespace == e2.namespace && e1.name == e2.name && e1.resourceVersion == e2.resourceVersion
  {
    assert forall c :: c in e1.namespace || c in e1.name ==> c in e1.namespace + e1.name;
    assert forall c :: c in e2.namespace || c in e2.name ==> c in e2.namespace + e2.name;
    if KeyOf(e1) == KeyOf(e2) {
      assert KeyOf(e1) == e1.namespace + "/" + (e1.name + "/" + e1.resourceVersion);
      assert KeyOf(e2) == e2.namespace + "/" + (e2.name + "/" + e2.resourceVersion);
      SameHead(e1.namespace, e1.name + "/" + e1.resourceVersion, e2.namespace, e2.name + "/" + e2.resourceVersion);
      SameHead(e1.name, e1.resourceVersion, e2.name, e2.resourceVersion);
    }
  }

  lemma SameHead(a1: string, b1: string, a2: string, b2: string)
    requires '/' !in a1 && '/' !in a2 && a1 + "/" + b1 == a2 + "/" + b2
    ensures a1 == a2 && b1 == b2
  {
    IndexOfSplit(a1, '/', b1);
    IndexOfSplit(a2, '/', b2);
    assert a1 == (a1 + "/" + b1)[..|a1|] && a2 == (a2 + "/" + b2)[..|a2|];
    assert b1 == (a1 + "/" + b1)[|a1| + 1..] && b2 == (a2 + "/" + b2)[|a2| + 1..];
  }

  /** The keys of the events in scope. */
  function KeysOf(visits: seq<Visit>, cfg: AgentConfig): set<string>
  {
    set i | 0 <= i < |visits| && InScope(visits[i].event, cfg) :: KeyOf(visits[i].event)
  }

  lemma KeysGrow(visits: seq<Visit>, i: nat, cfg: AgentConfig)
    requires i < |visits|
    ensures KeysOf(visits[..i + 1], cfg)
         == KeysOf(visits[..i], cfg) + if InScope(visits[i].event, cfg) then {KeyOf(visits[i].event)} else {}
  {
    hide InScope, KeyOf;
    var less, more := KeysOf(visits[..i], cfg), KeysOf(visits[..i + 1], cfg);
    forall key
      ensures key in more <==> key in less || (InScope(visits[i].event, cfg) && key == KeyOf(visits[i].event))
    {
      if key in more {
        var j :| 0 <= j < i + 1 && InScope(visits[..i + 1][j].event, cfg) && key == KeyOf(visits[..i + 1][j].event);
        assert j < i ==> visits[..i][j] == visits[..i + 1][j];
      }
      if key in less {
        var j :| 0 <= j < i && InScope(visits[..i][j].event, cfg) && key == KeyOf(visits[..i][j].event);
        assert visits[..i][j] == visits[..i + 1][j];
      }
      if InScope(visits[i].event, cfg) && key == KeyOf(visits[i].event) {
        assert visits[..i + 1][i] == visits[i];
      }
    }
  }

  /** The events in scope whose key was not seen before, in order: those that are handled. */
  function NewOnes(visits: seq<Visit>, seen: set<string>, cfg: AgentConfig): seq<Visit>
  {
    if visits == [] then []
    else
      var earlier, last := visits[..|visits| - 1], visits[|visits| - 1];
      if InScope(last.event, cfg) && KeyOf(last.event) !in seen + KeysOf(earlier, cfg)
      then NewOnes(earlier, seen, cfg) + [last] else NewOnes(earlier, seen, cfg)
  }

  lemma NoKeys(cfg: AgentConfig)
    ensures KeysOf([], cfg) == {}
  {
  }

  lemma OneKeyMore(keys: set<string>, seen: set<string>, key: string)
    ensures |(keys + {key}) - seen| == |keys - seen| + if key in seen + keys then 0 else 1
  {
    assert (keys + {key}) - seen == if key in seen + keys then keys - seen else (keys - seen) + {key};
  }

  lemma {:induction false} NewOnesHaveNewKeys(visits: seq<Visit>, seen: set<string>, cfg: AgentConfig)
    ensures |NewOnes(visits, seen, cfg)| == |KeysOf(visits, cfg) - seen|
  {
    hide InScope, KeyOf, KeysOf;
    if visits == [] {
      NoKeys(cfg);
    } else {
      var n := |visits| - 1;
      NewOnesHaveNewKeys(visits[..n], seen, cfg);
      KeysGrow(visits, n, cfg);
      assert visits[..n + 1] == visits;
      OneKeyMore(KeysOf(visits[..n], cfg), seen, KeyOf(visits[n].event));
    }
  }

  lemma PrefixKeys(visits: seq<Visit>, n: nat, cfg: AgentConfig)
    requires n <= |visits|
    ensures KeysOf(visits[..n], cfg) <= KeysOf(visits, cfg)
  {
    hide InScope, KeyOf;
    forall key | key in KeysOf(visits[..n], cfg)
      ensures key in KeysOf(visits, cfg)
    {
      var i :| 0 <= i < n && InScope(visits[..n][i].event, cfg) && key == KeyOf(visits[..n][i].event);
      assert visits[i] == visits[..n][i];
    }
  }

  lemma NewOnesGrow(visits: seq<Visit>, i: nat, seen: set<string>, cfg: AgentConfig)
    requires i < |visits|
    ensures NewOnes(visits[..i + 1], seen, cfg) == NewOnes(visits[..i], seen, cfg)
      + if InScope(visits[i].event, cfg) && KeyOf(visits[i].event) !in seen + KeysOf(visits[..i], cfg)
        then [visits[i]] else []
  {
    hide InScope, KeyOf;
    assert visits[..i + 1][..i] == visits[..i];
  }

  // ---- targets --------------------------------------------------------------------------------

  /** Whom an event is filed under while nothing else touches the cluster. */
  function TargetOf(e: Event, w: World): Target
  {
    var owner := TargetOfPod(w, e.namespace, e.objName);
    if EqualFold(e.kind, "Pod") && owner.Some? then Target("Deployment", owner.value) else Target(e.kind, e.objName)
  }

  /** Nothing led from the pod to a Deployment: its owners did not, and its name did not; or a request failed. */
  ghost predicate NoOwnerSeen(e: Event, history: seq<World>, taken: seq<Turn>, since: nat, turn: nat)
  {
    || Faulted(taken, turn)
    || (OwnerNotSeen(history, since, e.namespace, e.objName) && NameNotSeen(history, since, e.namespace, e.objName))
  }

  /** What a target rests on: a pod's owner, seen or suggested by its name; the object itself when there is none. */
  ghost predicate TargetSeen(e: Event, target: Target, history: seq<World>, taken: seq<Turn>, since: nat, turn: nat)
  {
    || (target == Target(e.kind, e.objName)
        && (EqualFold(e.kind, "Pod") ==> NoOwnerSeen(e, history, taken, since, turn)))
    || (EqualFold(e.kind, "Pod") && target.kind == "Deployment"
        && (|| OwnerSeen(history, since, e.namespace, e.objName, target.name)
            || NameSeen(history, since, e.namespace, e.objName, target.name)))
  }

  /** A pod whose owner was not found is filed under what its name suggests, or under itself. */
  lemma GuessedTarget(a: Ledger, b: Ledger, c: Ledger, e: Event, failed: Result<string>, guess: Option<string>)
    requires EqualFold(e.kind, "Pod") && Resolved(a, b, e.namespace, e.objName, failed) && failed.Err? && OnlyRead(b, c)
    requires guess.Some? ==> NameSeen(c.history, |b.history| - 1, e.namespace, e.objName, guess.value)
    requires guess.None? ==>
      Faulted(c.taken, |b.taken|) || NameNotSeen(c.history, |b.history| - 1, e.namespace, e.objName)
    requires Spares(b.turns) ==> guess == InferredFromName(c.world, e.namespace, e.objName)
    ensures OnlyRead(a, c)
    ensures var target := if guess.Some? then Target("Deployment", guess.value) else Target(e.kind, e.objName);
      && TargetSeen(e, target, c.history, c.taken, |a.history| - 1, |a.taken|)
      && (Spares(a.turns) ==> target == TargetOf(e, c.world))
  {
    hide EqualFold, OwnerOfPod, InferredFromName, OwnerSeen, OwnerNotSeen, NameSeen, NameNotSeen, Faulted, Spares,
         OnlyOthers;
    OnlyReadThen(a, b, c);
    FaultedLonger(b.taken, |a.taken|, c.taken, |a.taken|);
    FaultedLonger(c.taken, |b.taken|, c.taken, |a.taken|);
    if OwnerNotSeen(b.history, |a.history| - 1, e.namespace, e.objName) {
      OwnerNotSeenLonger(b.history, |a.history| - 1, c.history, |a.history| - 1, e.namespace, e.objName);
    }
    if guess.Some? {
      NameSeenSince(c.history, |b.history| - 1, |a.history| - 1, e.namespace, e.objName, guess.value);
    } else if NameNotSeen(c.history, |b.history| - 1, e.namespace, e.objName) {
      NameNotSeenLonger(c.history, |b.history| - 1, c.history, |a.history| - 1, e.namespace, e.objName);
    }
    if Spares(a.turns) {
      OwnerIsFixed(e.namespace, e.objName, b.world, c.world);
    }
  }

  lemma OwnerFound(a: Ledger, b: Ledger, e: Event, owner: Result<string>)
    requires EqualFold(e.kind, "Pod") && Resolved(a, b, e.namespace, e.objName, owner) && owner.Ok?
    ensures OnlyRead(a, b)
    ensures TargetSeen(e, Target("Deployment", owner.value), b.history, b.taken, |a.history| - 1, |a.taken|)
    ensures Spares(a.turns) ==> Target("Deployment", owner.value) == TargetOf(e, b.world)
  {
    hide EqualFold, OwnerOfPod, InferredFromName, OwnerSeen, NameSeen, Faulted, Spares, OnlyOthers;
  }

  /** Collapses pods onto the Deployment that owns them, or seems to have owned them. */
  method ResolveTarget(api: ApiServer, e: Event) returns (target: Target)
    requires api.Valid()
    modifies api
    ensures api.Valid() && api.Quiet()
    ensures TargetSeen(e, target, api.history, api.taken, |old(api.history)| - 1, |old(api.taken)|)
    ensures !EqualFold(e.kind, "Pod") ==> target == Target(e.kind, e.objName) && api.Books() == old(api.Books())
    ensures Spares(old(api.turns)) ==> target == TargetOf(e, api.Present())
  {
    hide Resolved, TargetOfPod, NoOwnerSeen, OwnerSeen, NameSeen, EqualFold, ApiServer.Valid, OnlyRead, Spares, Faulted,
         NameNotSeen;
    api.LastMoment();
    NothingRead(api.Books());
    target := Target(e.kind, e.objName);
    if EqualFold(e.kind, "Pod") {
      var owner := ResolveDeploymentFromPod(api, e.namespace, e.objName);
      if owner.Ok? {
        OwnerFound(old(api.Books()), api.Books(), e, owner);
        target := Target("Deployment", owner.value);
      } else {
        ghost var asked := api.Books();
        var guess := InferDeploymentFromPodName(api, e.namespace, e.objName);
        GuessedTarget(old(api.Books()), asked, api.Books(), e, owner, guess);
        if guess.Some? {
          target := Target("Deployment", guess.value);
        }
      }
    }
  }

  function SignalOf(e: Event, target: Target): string
  {
    Signal(e.namespace, target.kind, target.name, CanonicalReason(e.reason, e.message))
  }

  predicate IsDeployment(target: Target)
  {
    EqualFold(target.kind, "Deployment") && target.name != ""
  }

  /**
   The model proposes, the event anchors: namespace, kind and name are the event's, and a known owner fixes the
   Deployment.
   */
  function Anchored(d: Decision, e: Event, target: Target): Decision
  {
    d.(namespace := e.namespace, resourceKind := e.kind, resourceName := e.objName,
       parameters := if IsDeployment(target) then d.parameters["deployment_name" := target.name] - {"deployment"}
                     else d.parameters)
  }

  lemma PodIsNotDeployment()
    ensures EqualFold("Pod", "Pod") && !EqualFold("Pod", "Deployment") && EqualFold("Deployment", "Deployment")
  {
    SameLength("Pod");
    SameLength("Deployment");
    assert |"Pod"| == 3 && |"Deployment"| == 10;
  }

  lemma {:induction false} SameLength(s: string)
    ensures |ToLower(s)| == |s|
  {
    if s != "" {
      SameLength(s[1..]);
    }
  }

  /** The event is about the Deployment d or about one of its pods, alive or gone. */
  ghost predicate About(e: Event, w: World, d: string)
  {
    || (e.kind == "Deployment" && e.objName == d)
    || (e.kind == "Pod"
        && exists h1, h2 :: e.objName == d + ['-'] + h1 + ['-'] + h2 && GenerationOf(w, e.namespace, d, h1, h2))
  }

  lemma FiledUnderDeployment(e: Event, w: World, d: string)
    requires About(e, w, d)
    ensures TargetOf(e, w) == Target("Deployment", d)
  {
    hide ToLower, GenerationOf, TargetOfPod;
    PodIsNotDeployment();
    if e.kind == "Pod" {
      var h1, h2 :| e.objName == d + ['-'] + h1 + ['-'] + h2 && GenerationOf(w, e.namespace, d, h1, h2);
      GenerationsCollapse(w, e.namespace, d, h1, h2);
    }
  }

  /** All events about a Deployment and its pods share one signal per canonical reason, also at different moments. */
  lemma GenerationsShareSignal(e1: Event, w1: World, e2: Event, w2: World, d: string)
    requires About(e1, w1, d) && About(e2, w2, d) && e1.namespace == e2.namespace
    requires '|' !in e1.namespace + "Deployment" + d
    ensures SignalOf(e1, TargetOf(e1, w1)) == SignalOf(e2, TargetOf(e2, w2))
       <==> CanonicalReason(e1.reason, e1.message) == CanonicalReason(e2.reason, e2.message)
  {
    hide About, TargetOf, CanonicalReason;
    FiledUnderDeployment(e1, w1, d);
    FiledUnderDeployment(e2, w2, d);
    SignalsAreDistinct(e1.namespace, "Deployment", d, CanonicalReason(e1.reason, e1.message),
                       e2.namespace, "Deployment", d, CanonicalReason(e2.reason, e2.message));
  }

  /** Where acts caused by an event may land. */
  predicate OnTarget(act: Act, e: Event, target: Target)
  {
    match act
    case DeletedPod(key, _) => EqualFold(e.kind, "Pod") && key == Key(e.namespace, e.objName)
    case Wrote(c) =>
      && c.key.ns == e.namespace
      && (IsDeployment(target) && Trimmed(target.name) ==> c.key.name == target.name)
  }

  lemma DistinctParameters()
    ensures "deployment_name" != "deployment"
  {
    assert |"deployment_name"| == 15 && |"deployment"| == 10;
  }

  /** Once the owner is known, what the model wrote about the target no longer matters. */
  lemma AnchorFixesTarget(d: Decision, e: Event, target: Target)
    ensures IsDeployment(target) ==>
      SteeredName(Anchored(d, e, target).parameters) == TrimSpace(target.name) == Pinned(Anchored(d, e, target))
    ensures !IsDeployment(target) ==> SteeredName(Anchored(d, e, target).parameters) == SteeredName(d.parameters)
  {
    hide TrimSpace;
    DistinctParameters();
    if IsDeployment(target) {
      var params := Anchored(d, e, target).parameters;
      assert Param(params, "deployment_name") == target.name && Param(params, "deployment") == "";
      assert TrimSpace("") == "" by { TrimSpaceMeaning(""); }
    }
  }

  /** The event gives namespace, kind and name; whatever else the model answered stays as it was. */
  lemma AnchorKeepsTheRest(d: Decision, e: Event, target: Target)
    ensures var anchored := Anchored(d, e, target);
      && anchored.namespace == e.namespace && anchored.resourceKind == e.kind && anchored.resourceName == e.objName
      && anchored.action == d.action && anchored.confidence == d.confidence && anchored.severity == d.severity
      && forall key :: key != "deployment_name" && key != "deployment" ==>
           Param(anchored.parameters, key) == Param(d.parameters, key)
  {
  }

  /** Target pinning: whatever the model returned, and through every escalation, acts land on the event's own target. */
  lemma ActsStayOnTarget(act: Act, d: Decision, e: Event, target: Target, cfg: AgentConfig, extra: string)
    requires Legitimate(act, Anchored(d, e, target), cfg, e.reason, extra)
    ensures OnTarget(act, e, target)
  {
    hide TrimSpace, ToLower, Gated, SteeredName;
    AnchorFixesTarget(d, e, target);
    TrimSpaceMeaning(target.name);
  }
}
