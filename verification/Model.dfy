/** The vocabulary of the agent: actions, severities, decisions and configuration. */
module Model {
  import opened Text

  datatype Action =
    | Noop
    | RestartDeployment
    | DeleteFailedPod
    | DeleteAndRecreate
    | ScaleDeployment
    | InspectPodLogs
    | SetDeploymentImage
    | PatchProbe
    | PatchResources
    | PatchRegistry
    | MarkForManualFix
    | AskHuman
    | Unsupported(name: string)

  /** Actions an operator has to enable deliberately; they bypass the severity filter. */
  predicate IsOperatorGated(a: Action)
  {
    a.PatchProbe? || a.PatchResources? || a.PatchRegistry? || a.SetDeploymentImage?
  }

  datatype Severity = Info | Low | Medium | High | Critical

  function ParseSeverity(s: string): Severity
  {
    var low := ToLower(TrimSpace(s));
    if low == "critical" then Critical
    else if low == "high" then High
    else if low == "medium" then Medium
    else if low == "low" then Low
    else if low == "info" then Info
    else Low
  }

  function Rank(s: Severity): nat
  {
    match s
    case Info => 0
    case Low => 1
    case Medium => 2
    case High => 3
    case Critical => 4
  }

  predicate MeetsMinimum(s: Severity, min: Severity)
  {
    Rank(s) >= Rank(min)
  }

  /** The text says the severity at this place of the order from noise to emergency; an unknown word says "low". */
  predicate Rated(text: string, place: nat)
  {
    var order, word := ["info", "low", "medium", "high", "critical"], ToLower(TrimSpace(text));
    if word in order then place < |order| && order[place] == word else place == 1
  }

  lemma SeverityWordsDiffer()
    ensures "info" != "low" && "info" != "medium" && "info" != "high" && "info" != "critical"
    ensures "low" != "medium" && "low" != "high" && "low" != "critical"
    ensures "medium" != "high" && "medium" != "critical" && "high" != "critical"
  {
    assert |"info"| == 4 && |"low"| == 3 && |"medium"| == 6 && |"high"| == 4 && |"critical"| == 8;
    assert "info"[0] == 'i' && "high"[0] == 'h';
  }

  /** A severity meets the minimum exactly when its word does not stand before the minimum's word in that order. */
  lemma MinimumByWords(text: string, min: string, i: nat, j: nat)
    requires Rated(text, i) && Rated(min, j)
    ensures MeetsMinimum(ParseSeverity(text), ParseSeverity(min)) <==> i >= j
  {
    hide ToLower, TrimSpace;
    SeverityWordsDiffer();
    WordHasItsRank(text, i);
    WordHasItsRank(min, j);
  }

  lemma WordHasItsRank(text: string, place: nat)
    requires Rated(text, place)
    ensures Rank(ParseSeverity(text)) == place
  {
    hide ToLower, TrimSpace;
    SeverityWordsDiffer();
    var order, word := ["info", "low", "medium", "high", "critical"], ToLower(TrimSpace(text));
    assert order[0] in order && order[1] in order && order[2] in order && order[3] in order && order[4] in order;
  }

  /** Every text has exactly one place. */
  lemma EveryTextIsRated(text: string) returns (place: nat)
    ensures Rated(text, place) && forall other: nat :: Rated(text, other) ==> other == place
  {
    hide ToLower, TrimSpace;
    SeverityWordsDiffer();
    var order, word := ["info", "low", "medium", "high", "critical"], ToLower(TrimSpace(text));
    if word in order {
      place :| place < |order| && order[place] == word;
    } else {
      place := 1;
    }
  }

  /** Nothing stands after "critical". */
  lemma CriticalIsHighest(text: string, other: string, place: nat)
    requires Rated(other, place)
    ensures place <= 4 && (ToLower(TrimSpace(text)) == "critical" ==> Rated(text, 4))
  {
    hide ToLower, TrimSpace;
    var order := ["info", "low", "medium", "high", "critical"];
    assert order[4] in order;
  }

  /** The answer of the language model; an absent parameter map is the empty one. */
  datatype Decision = Decision(
    summary: string,
    severity: string,
    confidence: real,
    action: Action,
    namespace: string,
    resourceKind: string,
    resourceName: string,
    parameters: map<string, string>)

  /** A parameter, "" when absent, as Go reads a missing map entry. */
  function Param(params: map<string, string>, key: string): string
  {
    if key in params then params[key] else ""
  }

  datatype AgentConfig = AgentConfig(
    dryRun: bool,
    minScale: int,
    maxScale: int,
    allowImageUpdates: bool,
    imageUpdateThreshold: real,
    imageTagDiscovery: bool,
    imageFallbackTag: string,
    allowPatchProbe: bool,
    allowPatchResources: bool,
    allowPatchRegistry: bool,
    patchConfidenceThreshold: real,
    minSeverity: string,
    includeNamespaces: seq<string>,
    excludeNamespaces: seq<string>,
    maxEventsPerPoll: int,
    signalMaxAttempts: int,
    dedupeTTLSec: int,
    eventSeenTTLSec: int)
}
