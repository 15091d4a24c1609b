/** Where the agent's acts on the cluster come from. */
module Origins {
  import opened Results
  import opened Text
  import opened Model
  import opened Deployments
  import opened Histories
  import opened Cluster
  import opened Naming
  import opened Oom
  import opened Chains
  import opened Execution
  import opened Dispatch
  import opened Effects
  import opened Events
  import opened Journal

  /** What stays the same over the life of an agent. */
  datatype Setup = Setup(cfg: AgentConfig, text: QuantityText, validImage: string -> bool)

  function ContextOf(setup: Setup, v: Visit): Context
  {
    Context(setup.cfg, setup.text, setup.validImage, v.tags, v.logsError, v.stamp)
  }

  // ---- what handling one event does to the cluster ------------------------------------------------

  /** The model's answer, anchored to its event, was executed with this result. */
  ghost predicate Enacted(run: Course, v: Visit, target: Target, setup: Setup, ok: bool)
  {
    && v.reply.Ok?
    && exists err: Option<string> ::
         && err.None? == ok
         && Remedies(run, Anchored(v.reply.value, v.event, target), ContextOf(setup, v), v.event.reason, v.extra, err)
  }

  /** The steps of an event and what the cluster saw of them: an execution, or nothing at all. */
  ghost predicate Effect(run: Course, v: Visit, target: Target, setup: Setup, steps: seq<Step>)
  {
    if steps != [] && steps[|steps| - 1].Ran? then Enacted(run, v, target, setup, steps[|steps| - 1].ok)
    else run.end == run.start
  }

  /** Every target rests on what the cluster showed while its event was handled. */
  ghost predicate TargetsSeen(journal: seq<Entry>, now: Ledger)
  {
    forall k :: 0 <= k < |journal| ==>
      TargetSeen(journal[k].visit.event, journal[k].target, now.history, now.taken, journal[k].since, journal[k].turn)
  }

  lemma NoOwnerLonger(e: Event, b: Ledger, c: Ledger, since: nat, turn: nat)
    requires NoOwnerSeen(e, b.history, b.taken, since, turn) && Onward(b, c)
    ensures NoOwnerSeen(e, c.history, c.taken, since, turn)
  {
    hide OwnerNotSeen, NameNotSeen, Faulted;
    if Faulted(b.taken, turn) {
      FaultedLonger(b.taken, turn, c.taken, turn);
    } else {
      OwnerNotSeenLonger(b.history, since, c.history, since, e.namespace, e.objName);
      NameNotSeenLonger(b.history, since, c.history, since, e.namespace, e.objName);
    }
  }

  lemma SeenLonger(e: Event, target: Target, b: Ledger, c: Ledger, since: nat, turn: nat)
    requires TargetSeen(e, target, b.history, b.taken, since, turn) && Onward(b, c)
    ensures TargetSeen(e, target, c.history, c.taken, since, turn)
  {
    hide LeadsTo, NameLeadsTo, NoOwnerSeen;
    if NoOwnerSeen(e, b.history, b.taken, since, turn) {
      NoOwnerLonger(e, b, c, since, turn);
    }
    if OwnerSeen(b.history, since, e.namespace, e.objName, target.name) {
      var i, j :| since <= i <= j < |b.history| && Key(e.namespace, e.objName) in b.history[i].pods
        && LeadsTo(b.history[i].pods[Key(e.namespace, e.objName)], b.history[j], e.namespace, target.name);
      assert c.history[i] == b.history[i] && c.history[j] == b.history[j];
    }
    if NameSeen(b.history, since, e.namespace, e.objName, target.name) {
      var i :| since <= i < |b.history| && NameLeadsTo(b.history[i], e.namespace, e.objName, target.name);
      assert c.history[i] == b.history[i];
    }
  }

  lemma TargetsSeenGrow(journal: seq<Entry>, b: Ledger, c: Ledger, entry: Entry)
    requires TargetsSeen(journal, b) && Onward(b, c)
    requires TargetSeen(entry.visit.event, entry.target, c.history, c.taken, entry.since, entry.turn)
    ensures TargetsSeen(journal + [entry], c)
  {
    hide TargetSeen;
    forall k | 0 <= k < |journal|
      ensures TargetSeen(journal[k].visit.event, journal[k].target, c.history, c.taken, journal[k].since,
                         journal[k].turn)
    {
      SeenLonger(journal[k].visit.event, journal[k].target, b, c, journal[k].since, journal[k].turn);
    }
  }

  // ---- where the agent's acts come from ------------------------------------------------------------

  /** The handled event an act belongs to, and the place of its execution in the run. */
  datatype Origin = Origin(entry: nat, step: nat)

  /**
   The act is legitimate for, and written out from, the answer to that event, and its execution is the event's last
   step.
   */
  ghost predicate Accounted(act: Act, o: Origin, trace: seq<Step>, journal: seq<Entry>, setup: Setup,
                            history: seq<World>)
  {
    && o.entry < |journal| && o.step < |trace|
    && var e := journal[o.entry];
       && InScope(e.visit.event, setup.cfg) && e.visit.reply.Ok?
       && e.steps != [] && e.steps[|e.steps| - 1] == trace[o.step]
       && trace[o.step].Ran? && trace[o.step].ok && trace[o.step].signal == SignalOf(e.visit.event, e.target)
       && var d := Anchored(e.visit.reply.value, e.visit.event, e.target);
          && Legitimate(act, d, setup.cfg, e.visit.event.reason, e.visit.extra)
          && HasReason(act, d, ContextOf(setup, e.visit), e.visit.event.reason, e.visit.extra, history, e.since)
  }

  /** Every act belongs to a successful execution of its own, in order; a dry run has none. */
  ghost predicate ActsAccounted(acts: seq<Act>, origins: seq<Origin>, trace: seq<Step>, journal: seq<Entry>,
                                setup: Setup, history: seq<World>)
  {
    && |acts| == |origins|
    && (setup.cfg.dryRun ==> acts == [])
    && (forall i :: 0 <= i < |acts| ==> Accounted(acts[i], origins[i], trace, journal, setup, history))
    && (forall i, j :: 0 <= i < j < |acts| ==> origins[i].step < origins[j].step)
  }

  lemma HasReasonLonger(act: Act, d: Decision, cx: Context, reason: string, extra: string,
                        earlier: seq<World>, from: nat, later: seq<World>, since: nat)
    requires HasReason(act, d, cx, reason, extra, earlier, from) && earlier <= later && since <= from
    ensures HasReason(act, d, cx, reason, extra, later, since)
  {
    hide Became, Covered, Planned;
    var d' :| Explains(act, d, d', cx, reason, extra, earlier, from);
    BecameLonger(d, d', cx, earlier, from, later, since);
    PlannedLonger(act, d', cx, reason, extra, earlier, from, later, since);
    assert Explains(act, d, d', cx, reason, extra, later, since);
  }

  /** What is written is what the model's answer says; anchoring leaves all of that alone. */
  predicate AsAnswered(mu: Mutation, d: Decision, cx: Context)
  {
    match mu
    case Restart => d.action.RestartDeployment?
    case Scale(n) => d.action.ScaleDeployment? && Atoi(Param(d.parameters, "replicas")) == Some(n)
    case SetImage(image, container) =>
      d.action.SetDeploymentImage? && container == Param(d.parameters, "container") && cx.validImage(image)
    case Retime(container, probe, fields) =>
      || (d.action.PatchProbe? && FieldsAsked(d.parameters, fields) && ProbeAsked(d.parameters, container, probe))
      || (d.action.RestartDeployment? && cx.cfg.allowPatchProbe)
    case Resize(container, _) =>
      || (d.action.PatchResources? && container == Param(d.parameters, "container"))
      || (d.action.RestartDeployment? && cx.cfg.allowPatchResources)
    case MoveRegistry(container, registry) =>
      && d.action.PatchRegistry?
      && container == Param(d.parameters, "container") && registry == Param(d.parameters, "new_registry")
  }

  lemma NotTheTargetKeys()
    ensures "replicas" != "deployment_name" && "replicas" != "deployment"
    ensures "container" != "deployment_name" && "container" != "deployment"
    ensures "probe" != "deployment_name" && "probe" != "deployment"
    ensures "new_registry" != "deployment_name" && "new_registry" != "deployment"
    ensures "initial_delay_seconds" != "deployment_name" && "initial_delay_seconds" != "deployment"
    ensures "period_seconds" != "deployment_name" && "period_seconds" != "deployment"
    ensures "failure_threshold" != "deployment_name" && "failure_threshold" != "deployment"
    ensures "success_threshold" != "deployment_name" && "success_threshold" != "deployment"
    ensures "timeout_seconds" != "deployment_name" && "timeout_seconds" != "deployment"
  {
    assert |"deployment_name"| == 15 && |"deployment"| == 10;
    assert |"replicas"| == 8 && |"container"| == 9 && |"probe"| == 5 && |"new_registry"| == 12;
    assert |"initial_delay_seconds"| == 21 && |"period_seconds"| == 14 && |"failure_threshold"| == 17;
    assert |"success_threshold"| == 17 && "timeout_seconds"[0] == 't' && "deployment_name"[0] == 'd';
  }

  /** These parameters are the same before and after anchoring. */
  lemma SameAfterAnchoring(d: Decision, e: Event, target: Target)
    ensures Anchored(d, e, target).action == d.action
    ensures Param(Anchored(d, e, target).parameters, "replicas") == Param(d.parameters, "replicas")
    ensures Param(Anchored(d, e, target).parameters, "container") == Param(d.parameters, "container")
    ensures Param(Anchored(d, e, target).parameters, "probe") == Param(d.parameters, "probe")
    ensures Param(Anchored(d, e, target).parameters, "new_registry") == Param(d.parameters, "new_registry")
    ensures Param(Anchored(d, e, target).parameters, "initial_delay_seconds") == Param(d.parameters,
                  "initial_delay_seconds")
    ensures Param(Anchored(d, e, target).parameters, "period_seconds") == Param(d.parameters, "period_seconds")
    ensures Param(Anchored(d, e, target).parameters, "failure_threshold") == Param(d.parameters, "failure_threshold")
    ensures Param(Anchored(d, e, target).parameters, "success_threshold") == Param(d.parameters, "success_threshold")
    ensures Param(Anchored(d, e, target).parameters, "timeout_seconds") == Param(d.parameters, "timeout_seconds")
  {
    hide Anchored, Param;
    NotTheTargetKeys();
    AnchorKeepsTheRest(d, e, target);
  }

  lemma SameMeaning(d: Decision, e: Event, target: Target, mu: Mutation, cx: Context)
    requires AsAnswered(mu, Anchored(d, e, target), cx)
    ensures AsAnswered(mu, d, cx)
  {
    hide Anchored, Param, TrimSpace, ToLower, Atoi;
    SameAfterAnchoring(d, e, target);
  }

  lemma WrittenAsAnswered(act: Act, d: Decision, e: Event, target: Target, cx: Context, reason: string, extra: string,
                          history: seq<World>, since: nat)
    requires HasReason(act, Anchored(d, e, target), cx, reason, extra, history, since)
    requires act.Wrote? && act.commit.writer.Agent?
    ensures AsAnswered(act.commit.writer.mu, d, cx)
  {
    hide Explains, Anchored, FieldsAsked, ProbeAsked, Atoi, Supplied, RequestOf, AsAnswered;
    var d' :| Explains(act, Anchored(d, e, target), d', cx, reason, extra, history, since);
    AskedIsAnswered(act, Anchored(d, e, target), d', cx, reason, extra, history, since);
    SameMeaning(d, e, target, act.commit.writer.mu, cx);
  }

  lemma AskedIsAnswered(act: Act, d: Decision, d': Decision, cx: Context, reason: string, extra: string,
                        history: seq<World>, since: nat)
    requires Explains(act, d, d', cx, reason, extra, history, since) && act.Wrote? && act.commit.writer.Agent?
    ensures AsAnswered(act.commit.writer.mu, d, cx)
  {
    hide Explains, FieldsAsked, ProbeAsked, Atoi, Supplied, RequestOf, DerivedFrom, LacksImage, Held;
    WrittenAsAsked(act, d, d', cx, reason, extra, history, since);
    if act.commit.writer.mu.SetImage? {
      ImageIsProposedOrDerived(act, d, d', cx, reason, extra, history, since);
    }
  }

  lemma AccountedLonger(act: Act, o: Origin, trace: seq<Step>, journal: seq<Entry>, setup: Setup, earlier: seq<World>,
                        steps: seq<Step>, entry: Entry, later: seq<World>)
    requires Accounted(act, o, trace, journal, setup, earlier) && earlier <= later
    ensures Accounted(act, o, trace + steps, journal + [entry], setup, later)
  {
    hide Legitimate, HasReason, SignalOf, Anchored, InScope, ContextOf;
    var e := journal[o.entry];
    HasReasonLonger(act, Anchored(e.visit.reply.value, e.visit.event, e.target), ContextOf(setup, e.visit),
                    e.visit.event.reason,
                    e.visit.extra, earlier, e.since, later, e.since);
  }

  lemma AccountsGrow(acts: seq<Act>, origins: seq<Origin>, trace: seq<Step>, journal: seq<Entry>, setup: Setup,
                     earlier: seq<World>,
                     steps: seq<Step>, entry: Entry, later: seq<World>)
    requires ActsAccounted(acts, origins, trace, journal, setup, earlier) && earlier <= later
    ensures ActsAccounted(acts, origins, trace + steps, journal + [entry], setup, later)
  {
    hide Accounted;
    forall i | 0 <= i < |acts|
      ensures Accounted(acts[i], origins[i], trace + steps, journal + [entry], setup, later)
    {
      AccountedLonger(acts[i], origins[i], trace, journal, setup, earlier, steps, entry, later);
    }
  }

  lemma OriginsInRange(acts: seq<Act>, origins: seq<Origin>, trace: seq<Step>, journal: seq<Entry>, setup: Setup,
                       history: seq<World>)
    requires ActsAccounted(acts, origins, trace, journal, setup, history)
    ensures forall i :: 0 <= i < |origins| ==> origins[i].step < |trace| && origins[i].entry < |journal|
  {
    hide Legitimate, HasReason, SignalOf, Anchored, InScope;
    assert forall i :: 0 <= i < |acts| ==> Accounted(acts[i], origins[i], trace, journal, setup, history);
  }

  lemma AccountsPlus(acts: seq<Act>, origins: seq<Origin>, trace: seq<Step>, journal: seq<Entry>, setup: Setup,
                     history: seq<World>,
                     act: Act, o: Origin)
    requires ActsAccounted(acts, origins, trace, journal, setup, history)
    requires Accounted(act, o, trace, journal, setup, history) && !setup.cfg.dryRun
    requires forall i :: 0 <= i < |origins| ==> origins[i].step < o.step
    ensures ActsAccounted(acts + [act], origins + [o], trace, journal, setup, history)
  {
    hide Accounted;
  }

  /** The origin of the act an event added, if it added one. */
  function OriginsAfter(acts: seq<Act>, acts': seq<Act>, origins: seq<Origin>, trace: seq<Step>, journal: seq<Entry>,
                        steps: seq<Step>): seq<Origin>
    requires acts' != acts ==> steps != []
  {
    if acts' == acts then origins else origins + [Origin(|journal|, |trace| + |steps| - 1)]
  }

  /** An execution adds at most one act, and that act is accounted for. */
  lemma EnactedIsAccounted(run: Course, trace: seq<Step>, journal: seq<Entry>, setup: Setup, entry: Entry)
    requires entry.steps != [] && var step := entry.steps[|entry.steps| - 1];
      step.Ran? && step.signal == SignalOf(entry.visit.event, entry.target)
      && Enacted(run, entry.visit, entry.target, setup, step.ok)
    requires InScope(entry.visit.event, setup.cfg) && entry.since < |run.start.history|
    ensures Onward(run.start, run.end)
    ensures run.end.acts != run.start.acts ==>
      && !setup.cfg.dryRun
      && |run.end.acts| == |run.start.acts| + 1 && run.end.acts[..|run.start.acts|] == run.start.acts
      && Accounted(run.end.acts[|run.start.acts|], Origin(|journal|, |trace| + |entry.steps| - 1), trace + entry.steps,
                   journal + [entry], setup, run.end.history)
  {
    hide Legitimate, HasReason, SignalOf, Anchored, InScope, Undisturbed, RemediedSparedly, Spares, Calm;
    var v, ok := entry.visit, entry.steps[|entry.steps| - 1].ok;
    var d, cx := Anchored(v.reply.value, v.event, entry.target), ContextOf(setup, v);
    var err: Option<string> :| err.None? == ok && Remedies(run, d, cx, v.event.reason, v.extra, err);
    if run.end.acts != run.start.acts {
      HasReasonLonger(run.end.acts[|run.start.acts|], d, cx, v.event.reason, v.extra, run.end.history,
                      |run.start.history| - 1, run.end.history, entry.since);
    }
  }

  lemma AccountsAfterEvent(before: seq<World>, run: Course, origins: seq<Origin>, trace: seq<Step>, journal: seq<Entry>,
                           setup: Setup, entry: Entry)
    requires ActsAccounted(run.start.acts, origins, trace, journal, setup, before)
    requires before <= run.start.history && entry.since < |before|
    requires InScope(entry.visit.event, setup.cfg) && Effect(run, entry.visit, entry.target, setup, entry.steps)
    requires entry.steps != [] ==> entry.steps[|entry.steps| - 1].signal == SignalOf(entry.visit.event, entry.target)
    ensures Onward(run.start, run.end)
    ensures run.end.acts != run.start.acts ==> entry.steps != []
    ensures ActsAccounted(run.end.acts,
                          OriginsAfter(run.start.acts, run.end.acts, origins, trace, journal, entry.steps),
                          trace + entry.steps, journal + [entry], setup, run.end.history)
  {
    hide Accounted, SignalOf, InScope, Enacted, ActsAccounted;
    if entry.steps != [] && entry.steps[|entry.steps| - 1].Ran? {
      EnactedIsAccounted(run, trace, journal, setup, entry);
    }
    AccountsGrow(run.start.acts, origins, trace, journal, setup, before, entry.steps, entry, run.end.history);
    if run.end.acts != run.start.acts {
      OriginsInRange(run.start.acts, origins, trace, journal, setup, before);
      var act := run.end.acts[|run.start.acts|];
      AccountsPlus(run.start.acts, origins, trace + entry.steps, journal + [entry], setup, run.end.history, act,
                   Origin(|journal|, |trace| + |entry.steps| - 1));
      assert run.end.acts == run.start.acts + [act];
    }
  }

  /** The journal accounts for the run, for the targets, and for all the agent did. */
  ghost predicate Documented(trace: seq<Step>, journal: seq<Entry>, origins: seq<Origin>, now: Ledger, setup: Setup,
                             rules: Rules)
  {
    && Explained(trace, journal, setup.cfg, rules)
    && TargetsSeen(journal, now)
    && ActsAccounted(now.acts, origins, trace, journal, setup, now.history)
  }

  lemma DocumentedAtStart(setup: Setup, now: Ledger, rules: Rules)
    requires now.acts == []
    ensures Documented([], [], [], now, setup, rules)
  {
  }

  /** First the target was resolved, by reading alone, then the event took effect. */
  ghost predicate Came(entry: Entry, run: Course, read: Ledger, setup: Setup)
  {
    && OnlyRead(run.start, read) && entry.since == |run.start.history| - 1 && entry.turn == |run.start.taken|
    && TargetSeen(entry.visit.event, entry.target, read.history, read.taken, entry.since, entry.turn)
    && (Spares(run.start.turns) ==> entry.target == TargetOf(entry.visit.event, read.world))
    && Effect(Course(read, run.end), entry.visit, entry.target, setup, entry.steps)
  }

  /** The entry tells how its event was handled; when others leave pods and ReplicaSets alone its target is exact. */
  ghost predicate Tells(entry: Entry, run: Course, setup: Setup)
  {
    exists read :: Came(entry, run, read, setup)
  }

  /** One more event, from the resolution of its target to its effect. */
  lemma DocumentedGrows(trace: seq<Step>, journal: seq<Entry>, origins: seq<Origin>, setup: Setup, rules: Rules,
                        run: Course, read: Ledger, entry: Entry)
    requires Documented(trace, journal, origins, run.start, setup, rules) && Came(entry, run, read, setup)
    requires InScope(entry.visit.event, setup.cfg)
    requires Responds(trace, entry.steps, entry.visit, setup.cfg, rules,
                      SignalOf(entry.visit.event, entry.target), entry.now)
    ensures run.end.acts != run.start.acts ==> entry.steps != []
    ensures Documented(trace + entry.steps, journal + [entry],
                       OriginsAfter(run.start.acts, run.end.acts, origins, trace, journal, entry.steps),
                       run.end, setup, rules)
  {
    hide Explained, TargetsSeen, ActsAccounted, TargetSeen, TargetOf, SignalOf, InScope, Responds, Effect, Spares,
         OnlyOthers;
    LastStepsSignal(trace, entry.steps, entry.visit, setup.cfg, rules, SignalOf(entry.visit.event, entry.target),
                    entry.now);
    ExplainedGrows(trace, journal, setup.cfg, rules, entry);
    AccountsAfterEvent(run.start.history, Course(read, run.end), origins, trace, journal, setup, entry);
    SeenLonger(entry.visit.event, entry.target, read, run.end, entry.since, entry.turn);
    TargetsSeenGrow(journal, run.start, run.end, entry);
  }

  lemma HandledEvent(trace: seq<Step>, trace': seq<Step>, journal: seq<Entry>, origins: seq<Origin>, setup: Setup,
                     rules: Rules, run: Course, read: Ledger, entry: Entry)
    requires Documented(trace, journal, origins, run.start, setup, rules) && Came(entry, run, read, setup)
    requires InScope(entry.visit.event, setup.cfg)
    requires trace <= trace' && entry.steps == trace'[|trace|..]
    requires Responds(trace, entry.steps, entry.visit, setup.cfg, rules,
                      SignalOf(entry.visit.event, entry.target), entry.now)
    ensures run.end.acts != run.start.acts ==> entry.steps != []
    ensures Documented(trace', journal + [entry],
                       OriginsAfter(run.start.acts, run.end.acts, origins, trace, journal, entry.steps),
                       run.end, setup, rules)
    ensures Tells(entry, run, setup)
    ensures Handled(journal, journal + [entry], [entry.visit], entry.now) && (journal + [entry])[|journal|] == entry
  {
    hide Documented, InScope, Responds, Came, SignalOf, Handled, OriginsAfter;
    assert trace' == trace + entry.steps;
    DocumentedGrows(trace, journal, origins, setup, rules, run, read, entry);
    OneHandled(journal, entry);
  }

  // ---- how often the agent acts -----------------------------------------------------------------------

  function SignalFor(o: Origin, journal: seq<Entry>): string
  {
    if o.entry < |journal| then SignalOf(journal[o.entry].visit.event, journal[o.entry].target) else ""
  }

  /** The acts lo to hi-1 that were done for a signal. */
  function ActsFor(origins: seq<Origin>, journal: seq<Entry>, signal: string, lo: nat, hi: nat): nat
    requires lo <= hi <= |origins|
    decreases hi - lo
  {
    if lo == hi then 0
    else ActsFor(origins, journal, signal, lo, hi - 1) + if SignalFor(origins[hi - 1], journal) == signal then 1 else 0
  }

  lemma {:induction false} ActsCounted(origins: seq<Origin>, journal: seq<Entry>, signal: string, lo: nat, hi: nat)
    requires lo <= hi <= |origins|
    ensures ActsFor(origins, journal, signal, lo, hi)
         == |set k | lo <= k < hi && SignalFor(origins[k], journal) == signal|
    decreases hi - lo
  {
    hide SignalFor;
    var places := set k | lo <= k < hi && SignalFor(origins[k], journal) == signal;
    if lo == hi {
      assert places == {};
    } else {
      ActsCounted(origins, journal, signal, lo, hi - 1);
      var before := set k | lo <= k < hi - 1 && SignalFor(origins[k], journal) == signal;
      assert places == before + if SignalFor(origins[hi - 1], journal) == signal then {hi - 1} else {};
    }
  }

  lemma {:induction false} RunsGrow(trace: seq<Step>, signal: string, lo: nat, mid: nat, hi: nat)
    requires lo <= mid <= hi <= |trace|
    ensures Runs(trace, signal, lo, mid) <= Runs(trace, signal, lo, hi)
    decreases hi
  {
    if mid < hi {
      RunsGrow(trace, signal, lo, mid, hi - 1);
    }
  }

  lemma StepOfAct(acts: seq<Act>, origins: seq<Origin>, trace: seq<Step>, journal: seq<Entry>, setup: Setup,
                  history: seq<World>, i: nat)
    requires ActsAccounted(acts, origins, trace, journal, setup, history) && i < |acts|
    ensures origins[i].step < |trace| && RunOf(trace, origins[i].step, SignalFor(origins[i], journal))
  {
    hide Legitimate, HasReason, SignalOf, Anchored, InScope;
    assert Accounted(acts[i], origins[i], trace, journal, setup, history);
  }

  /** A signal is acted on at most once per execution. */
  lemma {:induction false} ActsWithinRuns(acts: seq<Act>, origins: seq<Origin>, trace: seq<Step>, journal: seq<Entry>,
                                          setup: Setup,
                                          history: seq<World>, signal: string, lo: nat, hi: nat)
    requires ActsAccounted(acts, origins, trace, journal, setup, history) && lo < hi <= |acts|
    ensures origins[lo].step <= origins[hi - 1].step < |trace|
    ensures ActsFor(origins, journal, signal, lo, hi) <= Runs(trace, signal, origins[lo].step, origins[hi - 1].step + 1)
    decreases hi
  {
    hide Accounted, SignalFor;
    var first, last := origins[lo].step, origins[hi - 1].step;
    StepOfAct(acts, origins, trace, journal, setup, history, lo);
    StepOfAct(acts, origins, trace, journal, setup, history, hi - 1);
    if lo + 1 == hi {
      assert ActsFor(origins, journal, signal, lo, lo) == 0;
    } else {
      ActsWithinRuns(acts, origins, trace, journal, setup, history, signal, lo, hi - 1);
      RunsGrow(trace, signal, first, origins[hi - 2].step + 1, last);
    }
  }

  /** No stretch of 12 base windows ever sees more than the permitted number of cluster changes for one signal. */
  lemma ChangeRateBound(acts: seq<Act>, origins: seq<Origin>, trace: seq<Step>, journal: seq<Entry>, setup: Setup,
                        history: seq<World>,
                        rules: Rules, lo: nat, hi: nat)
    requires ActsAccounted(acts, origins, trace, journal, setup, history) && Lawful(trace, rules) && rules.max > 0
    requires lo < hi <= |acts|
    requires SignalFor(origins[lo], journal) == SignalFor(origins[hi - 1], journal)
    requires origins[lo].step < |trace| && origins[hi - 1].step < |trace|
    requires trace[origins[hi - 1].step].time <= trace[origins[lo].step].time + 12 * rules.ttl
    ensures |set k | lo <= k < hi && SignalFor(origins[k], journal) == SignalFor(origins[lo], journal)| <= rules.max
  {
    hide Accounted, SignalFor, Lawful, ActsFor;
    ActsForBounded(acts, origins, trace, journal, setup, history, rules, lo, hi);
    ActsCounted(origins, journal, SignalFor(origins[lo], journal), lo, hi);
  }

  lemma ActsForBounded(acts: seq<Act>, origins: seq<Origin>, trace: seq<Step>, journal: seq<Entry>, setup: Setup,
                       history: seq<World>, rules: Rules, lo: nat, hi: nat)
    requires ActsAccounted(acts, origins, trace, journal, setup, history) && Lawful(trace, rules) && rules.max > 0
    requires lo < hi <= |acts|
    requires SignalFor(origins[lo], journal) == SignalFor(origins[hi - 1], journal)
    requires origins[lo].step < |trace| && origins[hi - 1].step < |trace|
    requires trace[origins[hi - 1].step].time <= trace[origins[lo].step].time + 12 * rules.ttl
    ensures ActsFor(origins, journal, SignalFor(origins[lo], journal), lo, hi) <= rules.max
  {
    hide Accounted, SignalFor, Lawful, AttemptWindow, Runs, ActsFor;
    var signal := SignalFor(origins[lo], journal);
    StepOfAct(acts, origins, trace, journal, setup, history, lo);
    StepOfAct(acts, origins, trace, journal, setup, history, hi - 1);
    ActsWithinRuns(acts, origins, trace, journal, setup, history, signal, lo, hi);
    RateBound(trace, rules, origins[lo].step, origins[hi - 1].step);
  }
}
