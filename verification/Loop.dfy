/** The poll loop: an agent that walks through warning events, one poll after the other. */
module Loop {
  import opened Results
  import opened Text
  import opened Model
  import opened DedupSpec
  import opened Dedup
  import opened Decisions
  import opened Histories
  import opened Cluster
  import opened Naming
  import opened Oom
  import opened Chains
  import opened Accounting
  import opened LoopState
  import opened Execution
  import opened Dispatch
  import opened Effects
  import opened Events
  import opened Journal
  import opened Origins
  import opened Progress

  const SECOND: int := 1_000_000_000
  const HOUR: int := 3600 * SECOND

  /** One of the three phrases by which a refusal is recognized. */
  ghost predicate SaysRefused(text: string)
  {
    || (exists before, after :: text == before + "policy" + after)
    || (exists before, after :: text == before + "blocked" + after)
    || (exists before, after :: text == before + "opt in" + after)
  }

  lemma RefusalMeaning(text: string)
    ensures SaysRefused(text) <==> Contains(text, "policy") || Contains(text, "blocked") || Contains(text, "opt in")
  {
    hide Contains;
    ContainsMeaning(text, "policy");
    ContainsMeaning(text, "blocked");
    ContainsMeaning(text, "opt in");
  }

  /** How the dashboard classifies an execution: refusals show in the text of the error. */
  function OutcomeOf(err: Option<string>): (o: Outcome)
    ensures o == Outcome.Success <==> err.None?
    ensures o == Outcome.Blocked <==> err.Some? && SaysRefused(ToLower(err.value))
    ensures o != Outcome.Skipped
  {
    if err.None? then Outcome.Success
    else
      var text := ToLower(err.value);
      RefusalMeaning(text);
      if Contains(text, "policy") || Contains(text, "blocked") || Contains(text, "opt in") then Outcome.Blocked
      else Outcome.Error
  }

  function RecordOf(v: Visit, d: Decision, outcome: Outcome, text: string): DecisionRecord
  {
    DecisionRecord(v.recordedAt, v.event.namespace, v.event.kind, v.event.objName, v.event.reason,
                   d.action, d.severity, d.confidence, d.summary, outcome, text)
  }

  /** The pseudo-decision shown when the breaker trips. */
  function GiveUp(e: Event): Decision
  {
    Decision("circuit breaker: remediation attempts without resolution", "high", 0.0, MarkForManualFix,
             e.namespace, e.kind, e.objName, map[])
  }

  /** The record shows this decision about this event. */
  predicate Recounts(record: DecisionRecord, v: Visit, d: Decision)
  {
    && record.time == v.recordedAt && record.eventReason == v.event.reason
    && record.namespace == v.event.namespace && record.kind == v.event.kind && record.name == v.event.objName
    && record.action == d.action && record.severity == d.severity && record.confidence == d.confidence
    && record.summary == d.summary
  }

  /** The record of a trip asks for a human. */
  predicate AsksForHuman(record: DecisionRecord, v: Visit)
  {
    && record.time == v.recordedAt && record.eventReason == v.event.reason
    && record.namespace == v.event.namespace && record.kind == v.event.kind && record.name == v.event.objName
    && record.action.MarkForManualFix? && record.severity == "high"
    && record.outcome == Outcome.Blocked && record.outcomeError == "max remediation attempts reached"
  }

  /** Anchoring a decision does not change how it is recorded. */
  lemma AnchoredReadsTheSame(v: Visit, d: Decision, target: Target, outcome: Outcome, text: string)
    ensures Recounts(RecordOf(v, Anchored(d, v.event, target), outcome, text), v, d)
  {
  }

  /**
   What was recorded goes with the steps: giving up for a trip, the model's decision for an outcome, nothing
   otherwise.
   */
  predicate Retold(earlier: seq<DecisionRecord>, later: seq<DecisionRecord>, v: Visit, steps: seq<Step>)
  {
    if steps == [] || steps[|steps| - 1].Called? then later == earlier
    else
      && |later| == |earlier| + 1 && later[..|earlier|] == earlier
      && if steps[|steps| - 1].Tripped? then AsksForHuman(later[|earlier|], v)
         else v.reply.Ok? && Recounts(later[|earlier|], v, v.reply.value)
  }

  class Agent {
    const cfg: AgentConfig
    const rules: Rules
    const seenTTL: int
    const text: QuantityText
    const validImage: string -> bool
    const api: ApiServer
    const store: MemoryStore
    const recorder: RecentDecisionRecorder
    var counters: Counters

    ghost var trace: seq<Step>
    ghost var journal: seq<Entry>
    ghost var origins: seq<Origin>
    ghost var clock: int
    /** Events looked at so far. */
    ghost var visited: nat

    /** Holds at any time, even between an answer and its outcome. */
    ghost predicate Valid()
      reads `counters, `trace, `clock, `visited, api, store, recorder, recorder.buf
    {
      && rules == Rules(cfg.dedupeTTLSec * SECOND, cfg.signalMaxAttempts)
      && api.Valid() && recorder.Valid()
      && Coherent(trace, rules, clock, store.View(), counters, visited, recorder.recorded)
    }

    /** No answer is waiting for its outcome. */
    ghost predicate Settled()
      reads `counters, `trace, `clock, `visited, api, store, recorder, recorder.buf
    {
      Valid() && !AwaitsOutcome(trace)
    }

    /** Between two events. */
    ghost predicate Idle()
      reads this, api, store, recorder, recorder.buf
    {
      Settled() && Documented(trace, journal, origins, api.Books(), Setting(), rules)
    }

    function Setting(): Setup
    {
      Setup(cfg, text, validImage)
    }

    constructor (cfg: AgentConfig, text: QuantityText, validImage: string -> bool, api: ApiServer,
                 recorder: RecentDecisionRecorder)
      requires cfg.dedupeTTLSec > 0
      requires api.Valid() && api.acts == [] && recorder.Valid() && recorder.recorded == []
      ensures Idle() && fresh(store) && this.cfg == cfg && this.api == api && this.recorder == recorder
      ensures trace == [] && journal == [] && store.View() == EMPTY
      ensures seenTTL == if cfg.eventSeenTTLSec <= 0 then 3_600_000_000_000 else cfg.eventSeenTTLSec * 1_000_000_000
    {
      hide ApiServer.Valid, RecentDecisionRecorder.Valid, Coherent, Documented;
      this.cfg, this.text, this.validImage, this.api, this.recorder := cfg, text, validImage, api, recorder;
      rules := Rules(cfg.dedupeTTLSec * SECOND, cfg.signalMaxAttempts);
      seenTTL := if cfg.eventSeenTTLSec <= 0 then HOUR else cfg.eventSeenTTLSec * SECOND;
      store := new MemoryStore();
      counters := Counters(0, 0, 0, 0, map[]);
      trace, journal, origins, clock, visited := [], [], [], 0, 0;
      new;
      CoherentAtStart(rules);
      DocumentedAtStart(Setting(), api.Books(), rules);
    }

    /** What every run keeps, whatever the model, the registry, the dashboard and the other clients did. */
    lemma Guarantees()
      requires Idle()
      ensures rules.ttl == cfg.dedupeTTLSec * 1_000_000_000 && rules.max == cfg.signalMaxAttempts
      ensures Lawful(trace, rules) && Explained(trace, journal, cfg, rules) && Faithful(api.log)
      ensures counters.eventsProcessed == |set i | 0 <= i < |trace| && trace[i].Called?|
      ensures counters.eventsProcessed == counters.decisionErrors + Total(counters.decisionsByAction)
      ensures counters.decisionErrors == |set i | 0 <= i < |trace| && trace[i].Called? && !trace[i].answered|
      ensures counters.eventsSkipped + counters.eventsProcessed
           == visited + |set i | 0 <= i < |trace| && trace[i].Skipped?|
      ensures counters.executionErrors == |set i | 0 <= i < |trace| && trace[i].Ran? && !trace[i].ok|
      ensures |recorder.recorded|
           == Total(counters.decisionsByAction) + |set i | 0 <= i < |trace| && trace[i].Tripped?|
      ensures RecordsMatch(recorder.recorded, Recorded(trace))
    {
      hide Lawful, StoreAgrees, RecordsMatch, Total, Calls, Filtered, FailedRuns, Trips, Recorded, Unanswered, Holds,
           Faithful, Writes, ByAgent, RecentDecisionRecorder.Valid, Explained, TargetsSeen, ActsAccounted;
      CallsCounted(trace);
      UnansweredCounted(trace);
      TripsCounted(trace);
      FilteredCounted(trace);
      FailedRunsCounted(trace);
    }

    /**
     Nothing ever changes in the cluster but by the writes in the turns the others have taken, in order, and by the
     agent's acts, in order; in a dry run everything is the others' doing.
     */
    lemma EveryChangeHasItsAuthor()
      requires Idle()
      ensures Replays(api.history, api.moves) && api.history[|api.history| - 1] == api.Present()
      ensures OursOf(api.moves) == api.acts && TheirsOf(api.moves) == Foreigns(api.taken)
      ensures api.script == api.taken + api.turns
      ensures cfg.dryRun ==> forall i :: 0 <= i < |api.moves| ==> api.moves[i].Theirs?
    {
      hide Coherent, Explained, TargetsSeen, Accounted, RecentDecisionRecorder.Valid, Faithful, Holds, Writes, ByAgent,
           Replays;
      assert TheirsOf(api.moves) == Foreigns(api.taken) + [];
      if cfg.dryRun {
        NothingOfOurs(api.moves);
      }
    }

    /** A change that is not the others' is an act, and that act has its event. */
    lemma EveryOwnChangeHasItsEvent(i: nat) returns (k: nat)
      requires Idle() && i < |api.moves| && api.moves[i].Ours?
      ensures i + 1 < |api.history| && api.history[i + 1] == Stepped(api.history[i], api.moves[i])
      ensures k < |api.acts| == |origins| && api.moves[i].act == api.acts[k] && origins[k].entry < |journal|
      ensures var e := journal[origins[k].entry];
        && EqualFold(e.visit.event.typ, "Warning") && e.visit.event.namespace !in cfg.excludeNamespaces
        && (cfg.includeNamespaces == [] || e.visit.event.namespace in cfg.includeNamespaces)
        && OnTarget(api.moves[i].act, e.visit.event, e.target)
    {
      hide Idle, Stepped, OnTarget, EqualFold;
      EveryChangeHasItsAuthor();
      k := OwnMove(api.moves, i);
      EveryActHasItsEvent(k);
    }

    /**
     Where every act of every run comes from: a warning from a namespace that is watched, its own resolved target, the
     model's answer to it.
     */
    lemma EveryActHasItsEvent(i: nat)
      requires Idle() && i < |api.acts|
      ensures !cfg.dryRun && |origins| == |api.acts| && origins[i].entry < |journal| && origins[i].step < |trace|
      ensures var e := journal[origins[i].entry];
        && EqualFold(e.visit.event.typ, "Warning") && e.visit.event.namespace !in cfg.excludeNamespaces
        && (cfg.includeNamespaces == [] || e.visit.event.namespace in cfg.includeNamespaces)
        && e.visit.reply.Ok?
        && TargetSeen(e.visit.event, e.target, api.history, api.taken, e.since, e.turn)
        && OnTarget(api.acts[i], e.visit.event, e.target)
        && (api.acts[i].Wrote? && api.acts[i].commit.writer.Agent? ==>
              AsAnswered(api.acts[i].commit.writer.mu, e.visit.reply.value, ContextOf(Setting(), e.visit)))
        && var d := Anchored(e.visit.reply.value, e.visit.event, e.target);
           && Legitimate(api.acts[i], d, cfg, e.visit.event.reason, e.visit.extra)
           && HasReason(api.acts[i], d, ContextOf(Setting(), e.visit), e.visit.event.reason, e.visit.extra,
                        api.history, e.since)
      ensures RunOf(trace, origins[i].step, SignalFor(origins[i], journal)) && trace[origins[i].step].ok
      ensures forall j :: 0 <= j < i ==> origins[j].step < origins[i].step
    {
      hide Valid, Explained, Legitimate, HasReason, SignalOf, Anchored, OnTarget, ContextOf, TargetSeen, EqualFold,
           AsAnswered;
      assert Accounted(api.acts[i], origins[i], trace, journal, Setting(), api.history);
      var e := journal[origins[i].entry];
      ActsStayOnTarget(api.acts[i], e.visit.reply.value, e.visit.event, e.target, cfg, e.visit.extra);
      if api.acts[i].Wrote? && api.acts[i].commit.writer.Agent? {
        WrittenAsAnswered(api.acts[i], e.visit.reply.value, e.visit.event, e.target, ContextOf(Setting(), e.visit),
                          e.visit.event.reason, e.visit.extra, api.history, e.since);
      }
    }

    /**
     A filtered answer was rated below the minimum, and nothing the operator had to enable; any other was executed.
     */
    lemma FilteredIsMinor(k: nat, i: nat, j: nat)
      requires Idle() && k < |journal| && |journal[k].steps| == 2 && journal[k].visit.reply.Ok?
      requires Rated(journal[k].visit.reply.value.severity, i) && Rated(cfg.minSeverity, j)
      ensures var d, outcome := journal[k].visit.reply.value, journal[k].steps[1];
        && (outcome.Skipped? <==>
              && i < j && !d.action.PatchProbe? && !d.action.PatchResources? && !d.action.PatchRegistry?
              && !d.action.SetDeploymentImage?)
        && (outcome.Ran? <==> !outcome.Skipped?)
    {
      hide Explained, Rated, Valid, TargetsSeen, ActsAccounted;
      FilteredExactly(trace, journal, cfg, rules, k, i, j);
    }

    /** No stretch of 12 base windows of any run sees more changes of the cluster for one signal than the limit. */
    lemma ChangesAreBounded(lo: nat, hi: nat)
      requires Idle() && cfg.signalMaxAttempts > 0 && lo < hi <= |api.acts|
      ensures |origins| == |api.acts| && origins[lo].step < |trace| && origins[hi - 1].step < |trace|
      ensures SignalFor(origins[lo], journal) == SignalFor(origins[hi - 1], journal)
        && trace[origins[hi - 1].step].time <= trace[origins[lo].step].time + 12 * (cfg.dedupeTTLSec * 1_000_000_000)
        ==> |set k | lo <= k < hi && SignalFor(origins[k], journal) == SignalFor(origins[lo], journal)|
            <= cfg.signalMaxAttempts
    {
      hide Lawful, StoreAgrees, Balanced, Explained, TargetsSeen, Accounted, SignalFor, ActsFor, ApiServer.Valid,
           RecentDecisionRecorder.Valid;
      StepOfAct(api.acts, origins, trace, journal, Setting(), api.history, lo);
      StepOfAct(api.acts, origins, trace, journal, Setting(), api.history, hi - 1);
      if SignalFor(origins[lo], journal) == SignalFor(origins[hi - 1], journal)
        && trace[origins[hi - 1].step].time <= trace[origins[lo].step].time + 12 * rules.ttl {
        ChangeRateBound(api.acts, origins, trace, journal, Setting(), api.history, rules, lo, hi);
      }
    }

    // ---- one event -----------------------------------------------------------------------------

    /** Counts an event that leads to nothing. */
    method Miss()
      requires Settled()
      modifies `counters, `visited
      ensures Settled() && visited == old(visited) + 1
      ensures counters == old(counters).(eventsSkipped := old(counters).eventsSkipped + 1)
    {
      hide Coherent, Explained, AwaitsOutcome, ApiServer.Valid, RecentDecisionRecorder.Valid;
      counters := counters.(eventsSkipped := counters.eventsSkipped + 1);
      visited := visited + 1;
      CoherentAfterMiss(trace, rules, clock, store.View(), old(counters), old(visited), recorder.recorded, counters);
    }

    /** Finds whom an event is filed under; nothing of the agent's doing. */
    method ResolveTarget(e: Event) returns (target: Target)
      requires Settled()
      modifies api
      ensures Settled() && api.Quiet()
      ensures TargetSeen(e, target, api.history, api.taken, |old(api.history)| - 1, |old(api.taken)|)
      ensures Spares(old(api.turns)) ==> target == TargetOf(e, api.Present())
    {
      hide Coherent, AwaitsOutcome, TargetSeen, TargetOf, ApiServer.Valid, RecentDecisionRecorder.Valid;
      target := Events.ResolveTarget(api, e);
    }

    /** Parks a signal that used up its attempts and surfaces it. */
    method Trip(v: Visit, signal: string, now: int, attempts: nat)
      requires Settled() && clock == now
      requires !Fresh(store.View(), signal, now) && attempts == AttemptCount(store.View(), signal, now)
      requires 0 < rules.max <= attempts
      modifies `counters, `trace, `visited, store, recorder, recorder.buf
      ensures Settled() && visited == old(visited) + 1
      ensures trace == old(trace) + [Tripped(signal, now, attempts)] && store.seen == old(store.seen)
      ensures Retold(old(recorder.recorded), recorder.recorded, v, [Tripped(signal, now, attempts)])
    {
      hide Coherent, Explained, AttemptCount, Fresh, ApiServer.Valid, RecentDecisionRecorder.Valid;
      var parkTTL := SignalBackoffTTL(rules.ttl, attempts + 1);
      store.MarkSignal(signal, now, parkTTL);
      counters := counters.(eventsSkipped := counters.eventsSkipped + 1);
      var record := RecordOf(v, GiveUp(v.event), Outcome.Blocked, "max remediation attempts reached");
      recorder.Record(record, v.redisUp);
      ghost var step := Tripped(signal, now, attempts);
      visited := visited + 1;
      CoherentAfterTrip(trace, rules, now, old(store.View()), old(counters), old(visited), old(recorder.recorded),
                        step, record, counters);
      trace := trace + [step];
    }

    /** Asks the language model. */
    method Ask(v: Visit, signal: string, now: int) returns (d: Option<Decision>)
      requires Settled() && clock == now && !Fresh(store.View(), signal, now)
      requires rules.max > 0 ==> AttemptCount(store.View(), signal, now) < rules.max
      modifies `counters, `trace, `visited
      ensures Valid() && visited == old(visited) + 1
      ensures trace == old(trace) + [Called(signal, now, d.Some?)] && AwaitsOutcome(trace) == d.Some?
      ensures d == if v.reply.Ok? then Some(v.reply.value) else None
      ensures counters == match v.reply
        case Err(_) =>
          old(counters).(eventsProcessed := old(counters).eventsProcessed + 1,
                         decisionErrors := old(counters).decisionErrors + 1)
        case Ok(decision) =>
          var a, m := decision.action, old(counters).decisionsByAction;
          old(counters).(eventsProcessed := old(counters).eventsProcessed + 1,
                         decisionsByAction := m[a := (if a in m then m[a] else 0) + 1])
    {
      hide Coherent, Explained, AttemptCount, Fresh, ApiServer.Valid, RecentDecisionRecorder.Valid;
      counters := counters.(eventsProcessed := counters.eventsProcessed + 1);
      ghost var action := if v.reply.Ok? then Some(v.reply.value.action) else None;
      match v.reply {
        case Err(_) =>
          counters := counters.(decisionErrors := counters.decisionErrors + 1);
          d := None;
        case Ok(decision) =>
          var byAction := counters.decisionsByAction;
          var sofar := if decision.action in byAction then byAction[decision.action] else 0;
          counters := counters.(decisionsByAction := byAction[decision.action := sofar + 1]);
          d := Some(decision);
      }
      ghost var step := Called(signal, now, d.Some?);
      visited := visited + 1;
      CoherentAfterCall(trace, rules, now, store.View(), old(counters), old(visited), recorder.recorded, step, action,
                        counters);
      trace := trace + [step];
    }

    /** Drops a decision below the minimum severity; its signal rests for the base window, no attempt is counted. */
    method Filter(v: Visit, d: Decision, signal: string, now: int)
      requires Valid() && clock == now && !Fresh(store.View(), signal, now)
      requires trace != [] && trace[|trace| - 1] == Called(signal, now, true)
      modifies `counters, `trace, store, recorder, recorder.buf
      ensures Valid() && trace == old(trace) + [Step.Skipped(signal, now)] && store.seen == old(store.seen)
      ensures |recorder.recorded| == |old(recorder.recorded)| + 1
      ensures recorder.recorded[..|old(recorder.recorded)|] == old(recorder.recorded)
      ensures var record := recorder.recorded[|old(recorder.recorded)|];
        Recounts(record, v, d) && record.outcome == Outcome.Skipped && record.outcomeError == "below minSeverity"
    {
      hide Coherent, Fresh, ApiServer.Valid, RecentDecisionRecorder.Valid;
      counters := counters.(eventsSkipped := counters.eventsSkipped + 1);
      store.MarkSignal(signal, now, rules.ttl);
      var record := RecordOf(v, d, Outcome.Skipped, "below minSeverity");
      recorder.Record(record, v.redisUp);
      ghost var step := Step.Skipped(signal, now);
      CoherentAfterFilter(trace, rules, now, old(store.View()), old(counters), old(visited), old(recorder.recorded),
                          step, record, counters);
      trace := trace + [step];
    }

    /** Counts the attempt before anything is done, and closes the signal for the escalated window. */
    method CountAttempt(signal: string, now: int) returns (ghost attempt: nat)
      modifies store
      ensures store.View() == AfterAttempt(old(store.View()), signal, rules, now)
      ensures attempt == AttemptNumber(old(store.View()), signal, rules, now)
    {
      hide AttemptCount;
      var attempts := 1;
      if rules.max > 0 {
        attempts := store.IncrAttempt(signal, now, AttemptWindow(rules));
      }
      var ttl := SignalBackoffTTL(rules.ttl, attempts);
      store.MarkSignal(signal, now, ttl);
      attempt := attempts;
    }

    /** Carries the decision out, anchored to its event, and records how it ended. */
    method Execute(v: Visit, target: Target, proposed: Decision, signal: string, now: int)
      requires Valid() && clock == now && !Fresh(store.View(), signal, now)
      requires v.reply == Ok(proposed)
      requires trace != [] && trace[|trace| - 1] == Called(signal, now, true)
      modifies `counters, `trace, api, store, recorder, recorder.buf
      ensures Valid() && store.seen == old(store.seen)
      ensures |trace| == |old(trace)| + 1 && trace[..|old(trace)|] == old(trace)
      ensures var step := trace[|old(trace)|];
        step.Ran? && step == Ran(signal, now, AttemptNumber(old(store.View()), signal, rules, now), step.ok)
      ensures Enacted(CourseOf(api), v, target, Setting(), trace[|old(trace)|].ok)
      ensures |recorder.recorded| == |old(recorder.recorded)| + 1
      ensures recorder.recorded[..|old(recorder.recorded)|] == old(recorder.recorded)
      ensures Recounts(recorder.recorded[|old(recorder.recorded)|], v, proposed)
    {
      hide Coherent, Fresh, AttemptNumber, Anchored, AfterAttempt, Remedies, ApiServer.Valid,
           RecentDecisionRecorder.Valid, Contains, ToLower;
      var d := Anchored(proposed, v.event, target);
      ghost var attempt := CountAttempt(signal, now);
      assert store.seen == old(store.seen) by { SeenUntouched(old(store.View()), signal, rules, now); }
      var cx := ContextOf(Setting(), v);
      var err := ExecuteDecision(api, d, cx, v.event.reason, v.extra);
      if err.Some? {
        counters := counters.(executionErrors := counters.executionErrors + 1);
      }
      var record := RecordOf(v, d, OutcomeOf(err), if err.Some? then err.value else "");
      recorder.Record(record, v.redisUp);
      AnchoredReadsTheSame(v, proposed, target, record.outcome, record.outcomeError);
      ghost var step := Ran(signal, now, attempt, err.None?);
      CoherentAfterRun(trace, rules, now, old(store.View()), old(counters), old(visited), old(recorder.recorded),
                       step, record, counters);
      trace := trace + [step];
    }

    /** The store's answers are what the run says. */
    lemma StoreAnswers(signal: string)
      requires Valid()
      ensures Fresh(store.View(), signal, clock) <==> Closed(trace, signal, rules, clock)
      ensures rules.max > 0 ==> AttemptCount(store.View(), signal, clock) == LiveAttempts(trace, signal, rules, clock)
    {
      hide Coherent, Fresh, AttemptCount, Closed, LiveAttempts, ApiServer.Valid, RecentDecisionRecorder.Valid;
      CoherentAnswers(trace, rules, clock, store.View(), counters, visited, recorder.recorded, signal);
    }

    /** Filters the answered decision out or executes it. */
    method Conclude(v: Visit, d: Decision, target: Target, signal: string, now: int) returns (ghost step: Step)
      requires Valid() && clock == now && !Fresh(store.View(), signal, now)
      requires v.reply == Ok(d)
      requires trace != [] && trace[|trace| - 1] == Called(signal, now, true)
      modifies `counters, `trace, api, store, recorder, recorder.buf
      ensures Settled() && store.seen == old(store.seen) && trace == old(trace) + [step]
      ensures forall i, j :: Rated(d.severity, i) && Rated(cfg.minSeverity, j) ==> (
        step.Skipped? <==>
          && i < j && !d.action.PatchProbe? && !d.action.PatchResources? && !d.action.PatchRegistry?
          && !d.action.SetDeploymentImage?)
      ensures ToLower(TrimSpace(d.severity)) == "critical" ==> !step.Skipped?
      ensures if Ignored(d, cfg) then step == Step.Skipped(signal, now)
        else step.Ran? && step == Ran(signal, now, AttemptNumber(old(store.View()), signal, rules, now), step.ok)
      ensures Effect(CourseOf(api), v, target, Setting(), [step])
      ensures Retold(old(recorder.recorded), recorder.recorded, v, [step])
    {
      hide Valid, Fresh, Ignored, AttemptNumber, RecordOf, Enacted, Rated, ToLower, TrimSpace;
      if Ignored(d, cfg) {
        Filter(v, Anchored(d, v.event, target), signal, now);
      } else {
        Execute(v, target, d, signal, now);
      }
      step := trace[|old(trace)|];
      FilteredByWords(d);
    }

    lemma FilteredByWords(d: Decision)
      ensures forall i, j :: Rated(d.severity, i) && Rated(cfg.minSeverity, j) ==> (
        Ignored(d, cfg) <==>
          && i < j && !d.action.PatchProbe? && !d.action.PatchResources? && !d.action.PatchRegistry?
          && !d.action.SetDeploymentImage?)
      ensures ToLower(TrimSpace(d.severity)) == "critical" ==> !Ignored(d, cfg)
    {
      hide Ignored, Rated, ToLower, TrimSpace;
      forall i: nat, j: nat | Rated(d.severity, i) && Rated(cfg.minSeverity, j) {
        IgnoredByWords(d, cfg, i, j);
      }
      var j := EveryTextIsRated(cfg.minSeverity);
      CriticalIsHighest(d.severity, cfg.minSeverity, j);
    }

    /** Asks the model and acts on the answer. */
    method Decide(v: Visit, target: Target, signal: string, now: int)
      requires Settled() && clock == now && !Fresh(store.View(), signal, now)
      requires rules.max > 0 ==> AttemptCount(store.View(), signal, now) < rules.max
      modifies `counters, `trace, `visited, api, store, recorder, recorder.buf
      ensures Settled() && visited == old(visited) + 1 && store.seen == old(store.seen)
      ensures old(trace) <= trace
      ensures Answered(trace[|old(trace)|..], v, cfg, signal, now, AttemptNumber(old(store.View()), signal, rules, now))
      ensures Calls(trace) == Calls(old(trace)) + 1
      ensures Effect(CourseOf(api), v, target, Setting(), trace[|old(trace)|..])
      ensures Retold(old(recorder.recorded), recorder.recorded, v, trace[|old(trace)|..])
    {
      hide Valid, Fresh, AttemptCount, Calls, Ignored, AttemptNumber, AwaitsOutcome, Enacted, Recounts;
      var d := Ask(v, signal, now);
      ghost var call := Called(signal, now, d.Some?);
      OneCallMore(old(trace), call);
      if d.None? {
        return;
      }
      ghost var step := Conclude(v, d.value, target, signal, now);
      CallAndOutcome(old(trace), call, step);
    }

    /** From the signal to its outcome: dedup window, breaker, then the model. */
    method Respond(v: Visit, target: Target, signal: string, now: int) returns (called: bool)
      requires Settled() && clock == now
      requires signal == SignalOf(v.event, target)
      modifies `counters, `trace, `visited, api, store, recorder, recorder.buf
      ensures Settled() && visited == old(visited) + 1 && store.seen == old(store.seen)
      ensures old(trace) <= trace && Responds(old(trace), trace[|old(trace)|..], v, cfg, rules, signal, now)
      ensures Calls(trace) == Calls(old(trace)) + if called then 1 else 0
      ensures Effect(CourseOf(api), v, target, Setting(), trace[|old(trace)|..])
      ensures Retold(old(recorder.recorded), recorder.recorded, v, trace[|old(trace)|..])
    {
      hide Valid, Fresh, AttemptCount, Calls, Closed, LiveAttempts, SignalOf, Answered, AwaitsOutcome, Enacted,
           Recounts;
      StoreAnswers(signal);
      var live := store.IsSignalFresh(signal, now, rules.ttl);
      if live {
        Miss();
        return false;
      }
      if rules.max > 0 {
        var attempts := store.Attempts(signal, now);
        if attempts >= rules.max {
          Trip(v, signal, now, attempts);
          CountsGrow(old(trace), Tripped(signal, now, attempts));
          return false;
        }
      }
      Decide(v, target, signal, now);
      return true;
    }

    /** Everything that is done about an event that is not known yet. */
    method Handle(v: Visit, now: int) returns (called: bool)
      requires Idle() && clock == now && InScope(v.event, cfg)
      modifies `counters, `trace, `origins, `journal, `visited, api, store, recorder, recorder.buf
      ensures Idle() && visited == old(visited) + 1 && store.seen == old(store.seen)
      ensures Handled(old(journal), journal, [v], now)
      ensures Tells(journal[|old(journal)|], CourseOf(api), Setting())
      ensures Retold(old(recorder.recorded), recorder.recorded, v, journal[|old(journal)|].steps)
      ensures Calls(trace) == Calls(old(trace)) + if called then 1 else 0
    {
      hide Valid, Settled, Idle, Calls, SignalOf, InScope, Responds, Documented, TargetSeen, TargetOf, Effect, Tells,
           Retold, Handled, ApiServer.Valid, OnlyRead, Spares;
      Ready();
      var target := ResolveTarget(v.event);
      ghost var read := api.Books();
      var signal := SignalOf(v.event, target);
      called := Respond(v, target, signal, now);
      ghost var entry := Entry(v, |old(api.history)| - 1, |old(api.taken)|, now, target, trace[|old(trace)|..]);
      File(entry, old(trace), CourseOf(api), read);
    }

    lemma Ready()
      requires Idle()
      ensures Settled() && api.Valid() && api.history != [] && api.history[|api.history| - 1] == api.Present()
      ensures Documented(trace, journal, origins, api.Books(), Setting(), rules)
    {
      hide Coherent, Documented, AwaitsOutcome, RecentDecisionRecorder.Valid;
    }

    /** Enters a handled event, and the origin of what it did, into the books. */
    ghost method File(entry: Entry, before: seq<Step>, run: Course, read: Ledger)
      requires Settled() && run.end == api.Books()
      requires Documented(before, journal, origins, run.start, Setting(), rules) && Came(entry, run, read, Setting())
      requires InScope(entry.visit.event, cfg)
      requires before <= trace && entry.steps == trace[|before|..]
      requires Responds(before, entry.steps, entry.visit, cfg, rules,
                        SignalOf(entry.visit.event, entry.target), entry.now)
      modifies `journal, `origins
      ensures Idle() && Handled(old(journal), journal, [entry.visit], entry.now) && journal[|old(journal)|] == entry
      ensures Tells(entry, run, Setting())
    {
      hide Valid, Documented, InScope, Came, Responds, SignalOf, Handled, OriginsAfter, Tells;
      HandledEvent(before, trace, journal, origins, Setting(), rules, run, read, entry);
      origins := OriginsAfter(run.start.acts, run.end.acts, origins, before, journal, entry.steps);
      journal := journal + [entry];
    }

    /** Marks the event seen; what has been seen before is passed over. */
    method Consider(v: Visit, now: int) returns (called: bool)
      requires Idle() && clock == now && InScope(v.event, cfg)
      modifies `counters, `trace, `origins, `journal, `visited, api, store, recorder, recorder.buf
      ensures Idle() && visited == old(visited) + 1
      ensures store.seen == WithSeen(old(store.View()), KeyOf(v.event), now).seen
      ensures if KeyOf(v.event) in old(store.seen) then journal == old(journal)
        else Handled(old(journal), journal, [v], now)
      ensures Calls(trace) == Calls(old(trace)) + if called then 1 else 0
      ensures called ==> KeyOf(v.event) !in old(store.seen)
    {
      hide Coherent, Documented, Calls, InScope, KeyOf, ApiServer.Valid, RecentDecisionRecorder.Valid;
      CoherentAfterSeen(trace, rules, now, store.View(), counters, visited, recorder.recorded, KeyOf(v.event));
      var added := store.MarkSeen(KeyOf(v.event), now, seenTTL);
      if !added {
        Miss();
        return false;
      }
      called := Handle(v, now);
    }

    // ---- one poll ------------------------------------------------------------------------------

    /** Evicts, then walks through the listed events until the budget of the poll is used up. */
    method Poll(input: PollInput) returns (ghost stopped: nat)
      requires Idle() && (input.Listed? ==> clock <= input.now)
      modifies `counters, `trace, `origins, `journal, `clock, `visited, api, store, recorder, recorder.buf
      ensures Idle()
      ensures input.ListFailed? ==> unchanged(this, api, store, recorder, recorder.buf)
      ensures input.Listed? ==> clock == input.now
      ensures input.Listed? ==> StopsAt(input.visits, stopped, cfg, Calls(trace) - Calls(old(trace)))
      ensures input.Listed? ==>
        WalkedTo(input.visits, stopped, input.now, cfg, Evicted(old(store.View()), input.now, seenTTL).seen, store.seen,
                 old(journal), journal, Calls(trace) - Calls(old(trace)))
      ensures input.Listed? ==>
        Attended(input.visits, stopped, cfg, Evicted(old(store.View()), input.now, seenTTL).seen, store.seen,
                 |old(journal)|, journal)
      ensures input.Listed? ==> visited == old(visited) + stopped + if stopped < |input.visits| then 1 else 0
    {
      hide Coherent, Documented, Calls, InScope, KeyOf, ApiServer.Valid, RecentDecisionRecorder.Valid,
           WalkedTo, Attended, StopsAt, AwaitsOutcome;
      if input.ListFailed? {
        return 0;
      }
      var now, visits := input.now, input.visits;
      store.Evict(now, rules.ttl, seenTTL);
      CoherentAfterEvict(trace, rules, clock, old(store.View()), counters, visited, recorder.recorded, now, seenTTL);
      clock := now;
      ghost var before := store.seen;
      var processed := 0;
      StartWalk(visits, now, cfg, before, journal);
      for i := 0 to |visits|
        invariant Idle() && clock == now && visited == old(visited) + i
        invariant Calls(trace) == Calls(old(trace)) + processed
        invariant WalkedTo(visits, i, now, cfg, before, store.seen, old(journal), journal, processed)
      {
        ghost var seen, sofar, calls := store.seen, journal, processed;
        if !InScope(visits[i].event, cfg) {
          Miss();
        } else {
          if cfg.maxEventsPerPoll > 0 && processed >= cfg.maxEventsPerPoll {
            Miss();
            StopsInScope(visits, i, cfg, processed);
            WalkedInWords(visits, i, now, cfg, before, store.seen, old(journal), journal, processed);
            return i;
          }
          if !visits[i].timeLeft {
            Miss();
            StopsInScope(visits, i, cfg, processed);
            WalkedInWords(visits, i, now, cfg, before, store.seen, old(journal), journal, processed);
            return i;
          }
          var called := Consider(visits[i], now);
          processed := processed + if called then 1 else 0;
        }
        WalkOn(visits, i, now, cfg, before, seen, old(journal), sofar, calls, store.seen, journal, processed);
      }
      StopsInScope(visits, |visits|, cfg, processed);
      WalkedInWords(visits, |visits|, now, cfg, before, store.seen, old(journal), journal, processed);
      return |visits|;
    }

    // ---- many polls -----------------------------------------------------------------------------

    /**
     Any number of polls. If the same events keep being listed, `keys` are theirs, time never runs out and no
     seen key expires, then as soon as the cap times the number of polls covers them all of them are marked.
     */
    method Run(polls: seq<PollInput>, ghost keys: set<string>, ghost start: int)
      requires Idle() && InOrder(polls, clock)
      modifies `counters, `trace, `origins, `journal, `clock, `visited, api, store, recorder, recorder.buf
      ensures Idle()
      ensures
        && Steady(polls, keys, cfg, start, seenTTL)
        && (forall key :: key in old(store.seen) && key in keys ==> old(store.seen)[key] >= start)
        && (if cfg.maxEventsPerPoll > 0 then |polls| * cfg.maxEventsPerPoll >= |keys - old(store.seen).Keys|
            else |polls| > 0)
        ==> keys <= store.seen.Keys
    {
      hide Idle, InOrder, Steady, Draining, WalkedTo, Attended, StopsAt, Evicted, Calls, HandledAfter;
      ghost var before, cap := store.seen, cfg.maxEventsPerPoll;
      ghost var steady := Steady(polls, keys, cfg, start, seenTTL)
        && forall key :: key in before && key in keys ==> before[key] >= start;
      if steady {
        StartDraining(keys, before, start, cap);
      }
      for i := 0 to |polls|
        invariant Idle() && InOrder(polls[i..], clock)
        invariant steady ==> Draining(keys, before.Keys, store.seen, start, i, cap)
      {
        ghost var s, sofar, calls := store.View(), journal, Calls(trace);
        NextInOrder(polls[i..], clock);
        assert polls[i..][1..] == polls[i + 1..];
        ghost var stopped := Poll(polls[i]);
        if steady {
          assert polls[i].Listed? by { SteadyMeansListed(polls, i, keys, cfg, start, seenTTL); }
          DrainOn(polls, i, keys, cfg, start, seenTTL, before.Keys, s, stopped, store.seen, sofar, journal,
                  Calls(trace) - calls);
        }
      }
      if steady && (if cap > 0 then |polls| * cap >= |keys - before.Keys| else |polls| > 0) {
        Drained(keys, before.Keys, store.seen, start, |polls|, cap);
      }
    }
  }

  lemma SeenUntouched(s: Store, signal: string, rules: Rules, now: int)
    ensures AfterAttempt(s, signal, rules, now).seen == s.seen
  {
  }
}
