/** The guards every decision passes before it is executed; each answers with the reason for a refusal. */
module Policy {
  import opened Results
  import opened Text
  import opened Model

  predicate IsUnhealthy(reason: string) { EqualFold(TrimSpace(reason), "Unhealthy") }

  predicate IsFailedScheduling(reason: string) { EqualFold(TrimSpace(reason), "FailedScheduling") }

  /** The incident context shows an out-of-memory kill. */
  predicate ShowsOOM(extra: string)
  {
    Contains(ToLower(extra), "oomkilled") || Contains(ToLower(extra), "exit=137")
  }

  /** What the guards look for: the two event reasons, in any case and padding, and the two traces of an OOM kill. */
  lemma GuardWords(reason: string, extra: string)
    ensures IsUnhealthy(reason) <==> ToLower(TrimSpace(reason)) == "unhealthy"
    ensures IsFailedScheduling(reason) <==> ToLower(TrimSpace(reason)) == "failedscheduling"
    ensures ShowsOOM(extra) <==>
      || (exists before, after :: ToLower(extra) == before + "oomkilled" + after)
      || (exists before, after :: ToLower(extra) == before + "exit=137" + after)
  {
    hide TrimSpace, Contains;
    ContainsMeaning(ToLower(extra), "oomkilled");
    ContainsMeaning(ToLower(extra), "exit=137");
    hide ToLower;
    InLowerCase();
  }

  lemma InLowerCase()
    ensures ToLower("Unhealthy") == "unhealthy" && ToLower("FailedScheduling") == "failedscheduling"
  {
    hide ToLower;
    Unhealthiness();
    Scheduling();
  }

  lemma Unhealthiness()
    ensures ToLower("Unhealthy") == "unhealthy"
  {
    hide ToLower;
    SameLetters("Unhealthy", "unhealthy");
  }

  lemma Scheduling()
    ensures ToLower("FailedScheduling") == "failedscheduling"
  {
    hide ToLower;
    SameLetters("FailedScheduling", "failedscheduling");
  }

  lemma SameLetters(s: string, t: string)
    requires |s| == |t| && forall i :: 0 <= i < |s| ==> t[i] == if 'A' <= s[i] <= 'Z' then 'a' + (s[i] - 'A') else s[i]
    ensures ToLower(s) == t
  {
    hide ToLower;
    if s != "" {
      forall i | 0 <= i < |s|
        ensures |ToLower(s)| == |s| && ToLower(s)[i] == t[i]
      {
        ToLowerAt(s, i);
      }
      ToLowerAt(s, 0);
    } else {
      LowerStays(s);
    }
  }

  function BlockRestartOnProbeFailure(d: Decision, reason: string): Option<string>
  {
    if d.action.RestartDeployment? && IsUnhealthy(reason)
    then Some("restart_deployment blocked: event reason=Unhealthy") else None
  }

  function BlockRestartOnOOMKilled(d: Decision, extra: string): Option<string>
  {
    if d.action.RestartDeployment? && ShowsOOM(extra)
    then Some("restart_deployment blocked: pod status shows OOMKilled") else None
  }

  function BlockWrongActionOnFailedScheduling(d: Decision, reason: string): Option<string>
  {
    if (d.action.ScaleDeployment? || d.action.RestartDeployment?) && IsFailedScheduling(reason)
    then Some("blocked: event reason=FailedScheduling") else None
  }

  /** `valid` stands for the check of the reference against the OCI grammar. */
  function BlockUnsafeImageUpdate(d: Decision, allow: bool, threshold: real, valid: string -> bool): Option<string>
  {
    if !d.action.SetDeploymentImage? then None
    else if !allow then Some("set_deployment_image disabled by policy")
    else if d.confidence < threshold then Some("set_deployment_image blocked: confidence below threshold")
    else if TrimSpace(Param(d.parameters, "image")) == ""
    then Some("set_deployment_image blocked: parameters.image missing")
    else if !valid(Param(d.parameters, "image")) then Some("set_deployment_image blocked: invalid OCI image reference")
    else None
  }

  /** The flag that enables a patch action. */
  predicate PatchEnabled(action: Action, cfg: AgentConfig)
  {
    match action
    case PatchProbe => cfg.allowPatchProbe
    case PatchResources => cfg.allowPatchResources
    case PatchRegistry => cfg.allowPatchRegistry
    case _ => true
  }

  predicate IsPatch(action: Action)
  {
    action.PatchProbe? || action.PatchResources? || action.PatchRegistry?
  }

  function BlockUnsafePatch(d: Decision, cfg: AgentConfig): Option<string>
  {
    if !IsPatch(d.action) then None
    else if !PatchEnabled(d.action, cfg) then Some("disabled by policy")
    else if d.confidence < cfg.patchConfidenceThreshold then Some("blocked: confidence below threshold")
    else None
  }
}
