/** The Unhealthy path: a restart turned into a relaxed probe, up to the validator and through it. */
module Probes {
  import opened Results
  import opened Text
  import opened Model
  import opened Policy
  import opened Deployments
  import opened Histories
  import opened Cluster
  import opened Naming
  import opened Execution
  import opened Dispatch
  import opened Effects

  /** A timing the escalation leaves as the model gave it: blank, or a number in range. */
  predicate Tunable(params: map<string, string>, key: string)
  {
    Timing(params, key) == "" || ParseProbeField(key, Timing(params, key)).Some?
  }

  lemma DistinctProbeKeys()
    ensures forall key :: key in PROBE_FIELDS ==> key != "deployment_name" && key != "container" && key != "probe"
    ensures "failure_threshold" != "period_seconds" && "failure_threshold" != "timeout_seconds"
    ensures "period_seconds" != "timeout_seconds"
    ensures "initial_delay_seconds" != "failure_threshold" && "initial_delay_seconds" != "period_seconds"
    ensures "initial_delay_seconds" != "timeout_seconds" && "success_threshold" != "failure_threshold"
    ensures "success_threshold" != "period_seconds" && "success_threshold" != "timeout_seconds"
    ensures "container" != "probe"
    ensures "probe" != "failure_threshold" && "probe" != "period_seconds" && "probe" != "timeout_seconds"
    ensures "container" != "failure_threshold" && "container" != "period_seconds" && "container" != "timeout_seconds"
  {
    assert |"initial_delay_seconds"| == 21 && |"period_seconds"| == 14;
    assert |"failure_threshold"| == 17 && |"success_threshold"| == 17;
    assert |"timeout_seconds"| == 15 && |"deployment_name"| == 15 && |"container"| == 9 && |"probe"| == 5;
    assert "timeout_seconds"[0] == 't' && "deployment_name"[0] == 'd';
    assert "failure_threshold"[0] == 'f' && "success_threshold"[0] == 's';
  }

  lemma FixedTimings()
    ensures TrimSpace("6") == "6" && TrimSpace("15") == "15" && TrimSpace("5") == "5"
    ensures ParseProbeField("failure_threshold", "6").Some? && ParseProbeField("period_seconds", "15").Some?
    ensures ParseProbeField("timeout_seconds", "5").Some?
  {
    TrimSpaceMeaning("6");
    TrimSpaceMeaning("15");
    TrimSpaceMeaning("5");
    DistinctProbeKeys();
    assert DigitsValue("6") == 6 && DigitsValue("5") == 5 && DigitsValue("15") == 15;
    assert Atoi("6") == Some(6) && Atoi("15") == Some(15) && Atoi("5") == Some(5);
  }

  lemma EscalatedTiming(d: Decision, cfg: AgentConfig, depName: string, name: string, probe: string)
    ensures var params := EscalatedToProbe(d, cfg, depName, name, probe).parameters;
      && Timing(params, "failure_threshold") == "6" && Timing(params, "period_seconds") == "15"
      && Timing(params, "timeout_seconds") == "5"
      && Timing(params, "initial_delay_seconds") == Timing(d.parameters, "initial_delay_seconds")
      && Timing(params, "success_threshold") == Timing(d.parameters, "success_threshold")
      && Timing(params, "container") == TrimSpace(name) && Timing(params, "probe") == TrimSpace(probe)
      && Param(params, "deployment_name") == depName
  {
    hide TrimSpace;
    DistinctProbeKeys();
    ProbeKeysLeaveTarget();
    FixedTimings();
    assert "initial_delay_seconds" == PROBE_FIELDS[0] && "success_threshold" == PROBE_FIELDS[3];
  }

  /** The escalated timings are in range exactly when the two the model may have given itself are. */
  lemma EscalatedTimingsFit(d: Decision, cfg: AgentConfig, depName: string, name: string, probe: string)
    ensures ValidFields(Timings(EscalatedToProbe(d, cfg, depName, name, probe).parameters))
       <==> Tunable(d.parameters, "initial_delay_seconds") && Tunable(d.parameters, "success_threshold")
  {
    hide TrimSpace, Timing, ParseProbeField, EscalatedToProbe;
    var params := EscalatedToProbe(d, cfg, depName, name, probe).parameters;
    EscalatedTiming(d, cfg, depName, name, probe);
    FixedTimings();
    var given := GivenTimings(params, PROBE_FIELDS);
    var delay, period, failure := PROBE_FIELDS[0], PROBE_FIELDS[1], PROBE_FIELDS[2];
    var success, timeout := PROBE_FIELDS[3], PROBE_FIELDS[4];
    assert failure in given;
    assert Timings(params) == given;
    assert forall key :: key in given ==> key in {delay, period, failure, success, timeout};
    assert delay in given <==> Timing(d.parameters, delay) != "";
    assert success in given <==> Timing(d.parameters, success) != "";
  }

  lemma ProbeKindsReadBack()
    ensures TrimSpace("readiness") == "readiness" && TrimSpace("liveness") == "liveness"
    ensures ToLower("readiness") == "readiness" && ToLower("liveness") == "liveness"
    ensures KindOf("readiness") == Some(Readiness) && KindOf("liveness") == Some(Liveness) && "readiness" != "liveness"
  {
    hide TrimSpace, ToLower;
    PlainWord("readiness");
    PlainWord("liveness");
    assert |"readiness"| == 9 && |"liveness"| == 8;
  }

  lemma PlainWord(s: string)
    requires forall c :: c in s ==> 'a' <= c <= 'z'
    ensures TrimSpace(s) == s && ToLower(s) == s
  {
    hide TrimSpace, ToLower;
    assert s != "" ==> s[0] in s && s[|s| - 1] in s;
    TrimSpaceMeaning(s);
    LowerStays(s);
  }

  /** Container names as Kubernetes issues them. */
  ghost predicate ProperNames(containers: seq<Container>)
  {
    UniqueNames(containers) && forall c :: c in containers ==> c.name != "" && Trimmed(c.name)
  }

  lemma FindByName(containers: seq<Container>, i: nat)
    requires ProperNames(containers) && i < |containers|
    ensures FindContainer(containers, containers[i].name) == Ok(i)
    ensures TrimSpace(containers[i].name) == containers[i].name
  {
    hide TrimSpace, Trimmed;
    assert containers[i] in containers;
    TrimSpaceMeaning(containers[i].name);
    var named := ByName(containers, containers[i].name);
    assert named.Some? && containers[named.value].name == containers[i].name;
  }

  /**
   The escalated probe patch passes the validator of the version it was read from exactly when the timings left over
   fit.
   */
  lemma EscalatedProbeSucceedsExactly(d: Decision, cfg: AgentConfig, dep: Dep, depName: string, seen: Option<Dep>)
    requires AllowsPatch(dep, "probe") && ChooseProbe(dep).Some? && ProperNames(dep.containers)
    ensures var (name, probe) := ChooseProbe(dep).value;
      var params := EscalatedToProbe(d, cfg, depName, name, probe).parameters;
      && MeantProbe(params, seen) == Some((name, probe))
      && (Reprobed(dep, name, probe, Timings(params)).Ok? <==>
            Tunable(d.parameters, "initial_delay_seconds") && Tunable(d.parameters, "success_threshold"))
  {
    hide TrimSpace, ToLower, Timings, Timing, Tunable, EscalatedToProbe, ValidFields, AllowsPatch, ProperNames,
         KindOf, ChooseProbe, FindContainer;
    var (name, probe) := ChooseProbe(dep).value;
    ChosenProbeMeaning(dep);
    ProbeKindsReadBack();
    EscalatedTiming(d, cfg, depName, name, probe);
    EscalatedTimingsFit(d, cfg, depName, name, probe);
    var kind := if probe == "readiness" then Readiness else Liveness;
    var i :| 0 <= i < |dep.containers| && dep.containers[i].name == name && ProbeOf(dep.containers[i], kind).Some?;
    FindByName(dep.containers, i);
  }

  /** An Unhealthy restart that has to be turned into a probe patch. */
  ghost predicate UnhealthyRestart(d: Decision, cx: Context, reason: string, w: World, key: Key, dep: Dep)
  {
    && d.action.RestartDeployment? && IsUnhealthy(reason)
    && !cx.cfg.dryRun && cx.cfg.allowPatchProbe
    && ReadsTo(d, w) == Some((key, dep)) && key.name != "" && Trimmed(key.name)
    && AllowsPatch(dep, "probe") && ChooseProbe(dep).Some? && ProperNames(dep.containers)
  }

  lemma EscalatesToProbe(d: Decision, cx: Context, reason: string, extra: string, w: World, key: Key, dep: Dep)
    requires UnhealthyRestart(d, cx, reason, w, key, dep)
    ensures var (name, probe) := ChooseProbe(dep).value;
      var e := EscalatedToProbe(d, cx.cfg, key.name, name, probe);
      EscalatesTo(d, cx, reason, extra, w) == Some(e) && ReadsTo(e, w) == Some((key, dep))
  {
    hide TrimSpace, Trimmed, OwnerOfPod, ToLower, AllowsPatch, ShowsOOM, IsUnhealthy, ChooseProbe, ProperNames, Timing;
    var (name, probe) := ChooseProbe(dep).value;
    EscalatedTiming(d, cx.cfg, key.name, name, probe);
    TrimSpaceMeaning(key.name);
  }

  /** A timing the model left over, or what it was. */
  predicate LeftOver(params: map<string, string>, key: string, before: int, after: int)
  {
    if TrimSpace(Param(params, key)) == "" then after == before else Atoi(TrimSpace(Param(params, key))) == Some(after)
  }

  /** Every fifteen seconds, five seconds to answer, six failures to give up. */
  predicate Tolerant(before: Probe, params: map<string, string>, after: Probe)
  {
    && after.period == 15 && after.timeout == 5 && after.failureThreshold == 6 && after.handler == before.handler
    && LeftOver(params, "initial_delay_seconds", before.initialDelay, after.initialDelay)
    && LeftOver(params, "success_threshold", before.successThreshold, after.successThreshold)
  }

  /** The first readiness probe, or where there is none at all the first liveness probe. */
  ghost predicate FirstProbe(containers: seq<Container>, i: nat, kind: ProbeKind)
  {
    && i < |containers|
    && if exists c :: c in containers && c.readiness.Some?
       then
         && kind == Readiness && containers[i].readiness.Some?
         && forall j :: 0 <= j < i ==> containers[j].readiness.None?
       else
         && kind == Liveness && containers[i].liveness.Some?
         && forall j :: 0 <= j < i ==> containers[j].liveness.None?
  }

  /** That one probe has become tolerant, and nothing else of the Deployment is different but the record of it. */
  predicate Relaxed(before: Dep, params: map<string, string>, after: Dep, i: nat, kind: ProbeKind)
  {
    && i < |before.containers| && |after.containers| == |before.containers|
    && after == before.(containers := before.containers[i := after.containers[i]], lastChange := after.lastChange)
    && var c, c' := before.containers[i], after.containers[i];
       if kind == Readiness
       then
         && c.readiness.Some? && c'.readiness.Some? && c' == c.(readiness := c'.readiness)
         && Tolerant(c.readiness.value, params, c'.readiness.value)
       else
         && c.liveness.Some? && c'.liveness.Some? && c' == c.(liveness := c'.liveness)
         && Tolerant(c.liveness.value, params, c'.liveness.value)
  }

  /** The timings of an escalated restart make a probe tolerant. */
  lemma TolerantTimings(d: Decision, cfg: AgentConfig, depName: string, name: string, probe: string,
                        before: Probe, after: Probe)
    requires TimedBy(before, Timings(EscalatedToProbe(d, cfg, depName, name, probe).parameters), after)
    ensures Tolerant(before, d.parameters, after)
  {
    hide TrimSpace, Timings, EscalatedToProbe, Atoi, DigitsValue;
    var params := EscalatedToProbe(d, cfg, depName, name, probe).parameters;
    EscalatedTiming(d, cfg, depName, name, probe);
    TimingsAsAsked(params);
    TolerantNumbers();
    TrimAgain(Param(d.parameters, "initial_delay_seconds"));
    TrimAgain(Param(d.parameters, "success_threshold"));
  }

  lemma TrimAgain(s: string)
    ensures TrimSpace(TrimSpace(s)) == TrimSpace(s)
  {
    hide TrimSpace;
    TrimSpaceMeaning(s);
    TrimSpaceMeaning(TrimSpace(s));
  }

  lemma TolerantNumbers()
    ensures Atoi(TrimSpace("6")) == Some(6) && Atoi(TrimSpace("15")) == Some(15) && Atoi(TrimSpace("5")) == Some(5)
  {
    hide TrimSpace;
    FixedTimings();
    assert DigitsValue("6") == 6 && DigitsValue("5") == 5 && DigitsValue("15") == 15;
  }

  /** The probe chosen by name is the first one. */
  lemma ChosenIsFirst(dep: Dep) returns (i: nat, kind: ProbeKind)
    requires ChooseProbe(dep).Some? && ProperNames(dep.containers)
    ensures var (name, probe) := ChooseProbe(dep).value;
      && FirstProbe(dep.containers, i, kind) && FindContainer(dep.containers, name) == Ok(i)
      && (kind == Readiness <==> probe == "readiness")
  {
    hide FindContainer, ProperNames;
    var (name, probe) := ChooseProbe(dep).value;
    ChosenProbeMeaning(dep);
    kind := if probe == "readiness" then Readiness else Liveness;
    i :| 0 <= i < |dep.containers| && dep.containers[i].name == name && ProbeOf(dep.containers[i], kind).Some?
      && forall j :: 0 <= j < i ==> ProbeOf(dep.containers[j], kind).None?;
    FindByName(dep.containers, i);
  }

  /** A retiming with the timings of an escalated restart relaxes the probe it means. */
  lemma RetimingRelaxes(d: Decision, cfg: AgentConfig, depName: string, dep: Dep, at: string, after: Dep, i: nat,
                        kind: ProbeKind)
    requires ChooseProbe(dep).Some?
    requires var (name, probe) := ChooseProbe(dep).value;
      && FindContainer(dep.containers, name) == Ok(i) && (kind == Readiness <==> probe == "readiness")
      && Mutated(dep, Mutation.Retime(name, probe,
                                      Timings(EscalatedToProbe(d, cfg, depName, name, probe).parameters)), at)
         == Ok(after)
    ensures Relaxed(dep, d.parameters, after, i, kind)
  {
    hide TrimSpace, ToLower, Timings, EscalatedToProbe, ChooseProbe, FindContainer, Mutated, TimedBy, Tolerant,
         TakesTiming, AllowsPatch;
    var (name, probe) := ChooseProbe(dep).value;
    var fields := Timings(EscalatedToProbe(d, cfg, depName, name, probe).parameters);
    CarriedOutByField(dep, Mutation.Retime(name, probe, fields), at, after);
    ProbeKindsReadBack();
    if kind == Readiness {
      TolerantTimings(d, cfg, depName, name, probe, dep.containers[i].readiness.value,
                      after.containers[i].readiness.value);
    } else {
      TolerantTimings(d, cfg, depName, name, probe, dep.containers[i].liveness.value,
                      after.containers[i].liveness.value);
    }
  }

  /** Undisturbed, it is carried out exactly when the timings the model left over fit. */
  lemma UnhealthyRestartIsCarriedOut(before: seq<Act>, after: seq<Act>, err: Option<string>, d: Decision, cx: Context,
                                     reason: string, extra: string,
                                     w: World, key: Key, dep: Dep)
    requires Undisturbed(before, after, err, d, cx, reason, extra, w) && UnhealthyRestart(d, cx, reason, w, key, dep)
    ensures err.None? <==> Tunable(d.parameters, "initial_delay_seconds") && Tunable(d.parameters, "success_threshold")
    ensures err.None? <==> |after| == |before| + 1
    ensures err.None? ==>
      && after[|before|].Wrote? && after[|before|].commit.key == key
      && after[|before|].commit.before == Some(dep) && after[|before|].commit.after.Some?
      && exists i, kind ::
           FirstProbe(dep.containers, i, kind)
           && Relaxed(dep, d.parameters, after[|before|].commit.after.value, i, kind)
  {
    hide ScreensTo, ReadsTo, EscalatesTo, AllowsPatch, Reprobed, Timings, Tunable, ProperNames, ChooseProbe, TargetName,
         BlockUnsafePatch, IsUnhealthy, MeantProbe, EscalatedToProbe, Trimmed, Mutated, Relaxed, FirstProbe,
         FindContainer;
    var r: Option<Decision> :| ScreensTo(d, r, cx, reason, extra, w)
      && if r.None? then err.Some? && after == before else Done(before, after, err, r.value, cx, reason, extra, w);
    var (name, probe) := ChooseProbe(dep).value;
    var e := EscalatedToProbe(d, cx.cfg, key.name, name, probe);
    EscalatesToProbe(d, cx, reason, extra, w, key, dep);
    EscalationPassesPatchGuard(d, cx.cfg, cx.text, dep, key.name, name, probe);
    ScreenedAsIs(d, e, r, cx, reason, extra, w);
    EscalatedProbeSucceedsExactly(d, cx.cfg, dep, key.name, Some(dep));
    RetimingSettles(before, after, err, e, cx, reason, extra, w, key, dep, name, probe);
    if err.None? {
      var i, kind := ChosenIsFirst(dep);
      RetimingRelaxes(d, cx.cfg, key.name, dep, cx.now, after[|before|].commit.after.value, i, kind);
    }
  }

  lemma RetimingSettles(before: seq<Act>, after: seq<Act>, err: Option<string>, e: Decision, cx: Context,
                        reason: string, extra: string,
                        w: World, key: Key, dep: Dep, name: string, probe: string)
    requires Done(before, after, err, e, cx, reason, extra, w) && e.action.PatchProbe? && !cx.cfg.dryRun
    requires ReadsTo(e, w) == Some((key, dep)) && MeantProbe(e.parameters, Some(dep)) == Some((name, probe))
    ensures err.None? <==> Reprobed(dep, name, probe, Timings(e.parameters)).Ok?
    ensures if err.None?
      then
        && |after| == |before| + 1 && after[|before|].Wrote?
        && after[|before|].commit.key == key && after[|before|].commit.before == Some(dep)
        && after[|before|].commit.after.Some?
        && Mutated(dep, Mutation.Retime(name, probe, Timings(e.parameters)), cx.now)
           == Ok(after[|before|].commit.after.value)
      else after == before
  {
    hide TargetName, MeantProbe, Timings, Reprobed;
  }

  /** Whoever else is at work: a restart that became a probe patch relaxes one probe of what it writes. */
  lemma EscalatedRestartRelaxes(act: Act, d: Decision, d': Decision, cx: Context, reason: string, extra: string,
                                history: seq<World>, since: nat)
    requires Explains(act, d, d', cx, reason, extra, history, since) && d.action.RestartDeployment?
    requires act.Wrote? && act.commit.writer.Agent? && act.commit.writer.mu.Retime?
    ensures exists i, kind :: Relaxed(act.commit.before.value, d.parameters, act.commit.after.value, i, kind)
  {
    hide TrimSpace, ToLower, Timings, EscalatedToProbe, ChooseProbe, FindContainer, Mutated, TimedBy, Tolerant,
         TakesTiming, AllowsPatch, Held, MeantProbe, FieldsAsked, ProbeAsked, DerivedFrom, LacksImage;
    var c := act.commit;
    CarriedOutByField(c.before.value, c.writer.mu, c.writer.at, c.after.value);
    var key, dep :| Held(history, since, key, dep) && TurnedInto(d, d', cx, key, dep);
    var (name, probe) := ChooseProbe(dep).value;
    var i := FindContainer(c.before.value.containers, c.writer.mu.container).value;
    var a, b := c.before.value.containers[i], c.after.value.containers[i];
    if ToLower(TrimSpace(c.writer.mu.probeType)) == "readiness" {
      TolerantTimings(d, cx.cfg, key.name, name, probe, a.readiness.value, b.readiness.value);
      assert Relaxed(c.before.value, d.parameters, c.after.value, i, Readiness);
    } else {
      TolerantTimings(d, cx.cfg, key.name, name, probe, a.liveness.value, b.liveness.value);
      assert Relaxed(c.before.value, d.parameters, c.after.value, i, Liveness);
    }
  }
}
