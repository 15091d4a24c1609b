/** What one event adds to a run, and how the run follows from the events handled. */
module Journal {
  import opened Text
  import opened Model
  import opened Naming
  import opened Chains
  import opened LoopState
  import opened Events

  // ---- what one event adds to the run -----------------------------------------------------------

  /** Below the minimum severity, and no action the operator had to enable. */
  predicate Ignored(d: Decision, cfg: AgentConfig)
  {
    !MeetsMinimum(ParseSeverity(d.severity), ParseSeverity(cfg.minSeverity)) && !IsOperatorGated(d.action)
  }

  /**
   The filter in the words of the configuration: less severe than the minimum, and not one of the four gated
   actions.
   */
  lemma IgnoredByWords(d: Decision, cfg: AgentConfig, i: nat, j: nat)
    requires Rated(d.severity, i) && Rated(cfg.minSeverity, j)
    ensures Ignored(d, cfg) <==>
      && i < j && !d.action.PatchProbe? && !d.action.PatchResources? && !d.action.PatchRegistry?
      && !d.action.SetDeploymentImage?
  {
    hide Rated, ParseSeverity, MeetsMinimum;
    MinimumByWords(d.severity, cfg.minSeverity, i, j);
  }

  /** What the model's answer leads to. */
  predicate Answered(steps: seq<Step>, v: Visit, cfg: AgentConfig, signal: string, now: int, attempt: nat)
  {
    if v.reply.Err? then steps == [Called(signal, now, false)]
    else if Ignored(v.reply.value, cfg) then steps == [Called(signal, now, true), Step.Skipped(signal, now)]
    else
      && |steps| == 2 && steps[0] == Called(signal, now, true)
      && steps[1].Ran? && steps[1] == Ran(signal, now, attempt, steps[1].ok)
  }

  /** The steps one event leads to after the run so far. */
  predicate Responds(sofar: seq<Step>, steps: seq<Step>, v: Visit, cfg: AgentConfig, rules: Rules, signal: string,
                     now: int)
  {
    var attempts := LiveAttempts(sofar, signal, rules, now);
    if Closed(sofar, signal, rules, now) then steps == []
    else if 0 < rules.max <= attempts then steps == [Tripped(signal, now, attempts)]
    else Answered(steps, v, cfg, signal, now, if rules.max > 0 then attempts + 1 else 1)
  }

  /**
   One handled event: since which state of the cluster and which turn of the others, when, whom it concerns, what
   came of it.
   */
  datatype Entry = Entry(visit: Visit, since: nat, turn: nat, now: int, target: Target, steps: seq<Step>)

  /** The run consists of what the handled events led to, one after the other, and of nothing else. */
  ghost predicate Explained(trace: seq<Step>, journal: seq<Entry>, cfg: AgentConfig, rules: Rules)
    decreases |journal|
  {
    if journal == [] then trace == []
    else
      var last := journal[|journal| - 1];
      && |last.steps| <= |trace|
      && var sofar := trace[..|trace| - |last.steps|];
         && trace == sofar + last.steps
         && Responds(sofar, last.steps, last.visit, cfg, rules, SignalOf(last.visit.event, last.target), last.now)
         && Explained(sofar, journal[..|journal| - 1], cfg, rules)
  }

  ghost predicate InTime(journal: seq<Entry>)
  {
    forall i, j :: 0 <= i <= j < |journal| ==> journal[i].now <= journal[j].now
  }

  lemma FrontInTime(journal: seq<Entry>)
    requires InTime(journal) && journal != []
    ensures var front := journal[..|journal| - 1];
      InTime(front) && (front != [] ==> front[|front| - 1].now <= journal[|journal| - 1].now)
  {
  }

  lemma LastEntry(trace: seq<Step>, journal: seq<Entry>, cfg: AgentConfig, rules: Rules) returns (sofar: seq<Step>)
    requires Explained(trace, journal, cfg, rules) && journal != []
    ensures Explained(sofar, journal[..|journal| - 1], cfg, rules)
    ensures var last := journal[|journal| - 1];
      trace == sofar + last.steps
      && Responds(sofar, last.steps, last.visit, cfg, rules, SignalOf(last.visit.event, last.target), last.now)
  {
    hide Responds, SignalOf;
    sofar := trace[..|trace| - |journal[|journal| - 1].steps|];
  }

  ghost predicate LawfulUpTo(trace: seq<Step>, rules: Rules, now: int)
  {
    Lawful(trace, rules) && (trace != [] ==> trace[|trace| - 1].time <= now)
  }

  lemma AnswerKeepsLaw(sofar: seq<Step>, entry: Entry, cfg: AgentConfig, rules: Rules)
    requires LawfulUpTo(sofar, rules, entry.now)
    requires Responds(sofar, entry.steps, entry.visit, cfg, rules, SignalOf(entry.visit.event, entry.target), entry.now)
    ensures LawfulUpTo(sofar + entry.steps, rules, entry.now)
  {
    hide Lawful, Responds, SignalOf;
    AnswerIsLawful(sofar, entry.steps, entry.visit, cfg, rules, SignalOf(entry.visit.event, entry.target), entry.now);
  }

  lemma {:induction false} ExplainedUpTo(trace: seq<Step>, journal: seq<Entry>, cfg: AgentConfig, rules: Rules,
                                         now: int)
    requires rules.ttl > 0 && Explained(trace, journal, cfg, rules) && InTime(journal)
    requires journal != [] ==> journal[|journal| - 1].now <= now
    ensures LawfulUpTo(trace, rules, now)
    decreases |journal|
  {
    if journal == [] {
      EmptyRunIsLawful(rules);
    } else {
      hide SignalOf, Lawful, Responds, Explained, InTime;
      var last := journal[|journal| - 1];
      FrontInTime(journal);
      var sofar := LastEntry(trace, journal, cfg, rules);
      ExplainedUpTo(sofar, journal[..|journal| - 1], cfg, rules, last.now);
      AnswerKeepsLaw(sofar, last, cfg, rules);
    }
  }

  /** Everything proved of lawful runs follows from how single events are answered. */
  lemma ExplainedRunsAreLawful(trace: seq<Step>, journal: seq<Entry>, cfg: AgentConfig, rules: Rules)
    requires rules.ttl > 0 && Explained(trace, journal, cfg, rules) && InTime(journal)
    ensures Lawful(trace, rules)
    ensures trace != [] ==> journal != [] && trace[|trace| - 1].time <= journal[|journal| - 1].now
  {
    hide Lawful, Responds, SignalOf;
    ExplainedUpTo(trace, journal, cfg, rules, if journal == [] then 0 else journal[|journal| - 1].now);
  }

  lemma EmptyRunIsLawful(rules: Rules)
    requires rules.ttl > 0
    ensures Lawful([], rules)
  {
  }

  /** The outcome of an answered call sees the window and the counter the call saw. */
  lemma OutcomeIsAllowed(sofar: seq<Step>, rules: Rules, call: Step, step: Step)
    requires Allowed(sofar, call, rules) && call == Called(step.signal, step.time, true)
    requires step.Skipped? || step.Ran?
    requires step.Ran? ==>
      step.attempt == if rules.max > 0 then LiveAttempts(sofar, step.signal, rules, step.time) + 1 else 1
    ensures Allowed(sofar + [call], step, rules)
  {
    hide WindowEnd, LastRun;
    Grown(sofar, call, step.signal, rules);
  }

  /** What one event leads to begins with a step that is allowed, and goes on with the outcome of an answered call. */
  lemma AnswerIsAllowed(sofar: seq<Step>, steps: seq<Step>, v: Visit, cfg: AgentConfig, rules: Rules, signal: string,
                        now: int)
    requires sofar != [] ==> sofar[|sofar| - 1].time <= now
    requires Responds(sofar, steps, v, cfg, rules, signal, now) && steps != []
    ensures Allowed(sofar, steps[0], rules) && steps[0].time == now && |steps| <= 2
    ensures |steps| == 2 ==>
      && steps[0] == Called(signal, now, true) && (steps[1].Skipped? || steps[1].Ran?)
      && steps[1].signal == signal && steps[1].time == now
      && (steps[1].Ran? ==>
            steps[1].attempt == if rules.max > 0 then LiveAttempts(sofar, signal, rules, now) + 1 else 1)
  {
    hide Closed, LiveAttempts, Ignored;
  }

  lemma AnswerIsLawful(sofar: seq<Step>, steps: seq<Step>, v: Visit, cfg: AgentConfig, rules: Rules, signal: string,
                       now: int)
    requires Lawful(sofar, rules) && (sofar != [] ==> sofar[|sofar| - 1].time <= now)
    requires Responds(sofar, steps, v, cfg, rules, signal, now)
    ensures Lawful(sofar + steps, rules)
    ensures steps != [] ==> steps[|steps| - 1].time == now
  {
    hide Lawful, Responds, Allowed, LiveAttempts;
    if steps == [] {
      assert sofar + steps == sofar;
    } else {
      AnswerIsAllowed(sofar, steps, v, cfg, rules, signal, now);
      LawfulExtends(sofar, rules, steps[0]);
      if |steps| == 1 {
        assert sofar + steps == sofar + [steps[0]];
      } else {
        OutcomeIsAllowed(sofar, rules, steps[0], steps[1]);
        LawfulExtends(sofar + [steps[0]], rules, steps[1]);
        assert sofar + steps == sofar + [steps[0]] + [steps[1]];
      }
    }
  }

  lemma LastStepsSignal(sofar: seq<Step>, steps: seq<Step>, v: Visit, cfg: AgentConfig, rules: Rules, signal: string,
                        now: int)
    requires Responds(sofar, steps, v, cfg, rules, signal, now)
    ensures steps != [] ==> steps[|steps| - 1].signal == signal
  {
    hide Closed, LiveAttempts, Ignored;
  }

  lemma ExplainedGrows(trace: seq<Step>, journal: seq<Entry>, cfg: AgentConfig, rules: Rules, entry: Entry)
    requires Explained(trace, journal, cfg, rules)
    requires Responds(trace, entry.steps, entry.visit, cfg, rules, SignalOf(entry.visit.event, entry.target), entry.now)
    ensures Explained(trace + entry.steps, journal + [entry], cfg, rules)
  {
    hide Responds, SignalOf;
    assert (trace + entry.steps)[..|trace|] == trace;
    assert (journal + [entry])[..|journal|] == journal;
  }

  /** Every event of a run was answered as the run up to then demands. */
  lemma {:induction false} EveryEntryResponds(trace: seq<Step>, journal: seq<Entry>, cfg: AgentConfig, rules: Rules,
                                              k: nat) returns (sofar: seq<Step>)
    requires Explained(trace, journal, cfg, rules) && k < |journal|
    ensures var e := journal[k];
      sofar + e.steps <= trace
      && Responds(sofar, e.steps, e.visit, cfg, rules, SignalOf(e.visit.event, e.target), e.now)
    decreases |journal|
  {
    hide Responds, SignalOf, Explained;
    var earlier := LastEntry(trace, journal, cfg, rules);
    if k == |journal| - 1 {
      sofar := earlier;
    } else {
      assert journal[..|journal| - 1][k] == journal[k];
      sofar := EveryEntryResponds(earlier, journal[..|journal| - 1], cfg, rules, k);
    }
  }

  /**
   An answer was filtered out exactly when it was rated below the minimum and is not one of the four gated actions.
   */
  lemma FilteredExactly(trace: seq<Step>, journal: seq<Entry>, cfg: AgentConfig, rules: Rules, k: nat, i: nat, j: nat)
    requires Explained(trace, journal, cfg, rules) && k < |journal| && |journal[k].steps| == 2
    requires journal[k].visit.reply.Ok? && Rated(journal[k].visit.reply.value.severity, i) && Rated(cfg.minSeverity, j)
    ensures var d, outcome := journal[k].visit.reply.value, journal[k].steps[1];
      && (outcome.Skipped? <==>
            && i < j && !d.action.PatchProbe? && !d.action.PatchResources? && !d.action.PatchRegistry?
            && !d.action.SetDeploymentImage?)
      && (outcome.Ran? <==> !outcome.Skipped?)
  {
    hide Explained, SignalOf, Closed, LiveAttempts, Ignored, Rated;
    var sofar := EveryEntryResponds(trace, journal, cfg, rules, k);
    IgnoredByWords(journal[k].visit.reply.value, cfg, i, j);
  }

  /** The journal goes on with these visits, handled in this order at this time. */
  ghost predicate Handled(earlier: seq<Entry>, later: seq<Entry>, visits: seq<Visit>, now: int)
  {
    && |later| == |earlier| + |visits|
    && later[..|earlier|] == earlier
    && forall k :: |earlier| <= k < |later| ==> later[k].visit == visits[k - |earlier|] && later[k].now == now
  }

  lemma OneHandled(journal: seq<Entry>, entry: Entry)
    ensures Handled(journal, journal + [entry], [entry.visit], entry.now) && (journal + [entry])[|journal|] == entry
  {
  }

  lemma HandledMore(earlier: seq<Entry>, later: seq<Entry>, visits: seq<Visit>, now: int, evenLater: seq<Entry>,
                    v: Visit)
    requires Handled(earlier, later, visits, now) && Handled(later, evenLater, [v], now)
    ensures Handled(earlier, evenLater, visits + [v], now)
  {
    forall k | 0 <= k < |later|
      ensures evenLater[k] == later[k]
    {
      assert evenLater[..|later|][k] == later[k];
    }
    assert evenLater[..|earlier|] == later[..|earlier|];
  }

  // ---- one poll ---------------------------------------------------------------------------------

  /** The first i events of a poll: exactly the new ones in scope are marked and handled, none of the others. */
  ghost predicate WalkedTo(visits: seq<Visit>, i: nat, now: int, cfg: AgentConfig, before: map<string, int>,
                           seen: map<string, int>,
                           earlier: seq<Entry>, journal: seq<Entry>, calls: int)
    requires i <= |visits|
  {
    && seen.Keys == before.Keys + KeysOf(visits[..i], cfg)
    && (forall key :: key in seen ==> seen[key] == if key in before then before[key] else now)
    && Handled(earlier, journal, NewOnes(visits[..i], before.Keys, cfg), now)
    && 0 <= calls <= |NewOnes(visits[..i], before.Keys, cfg)|
    && (forall j :: 0 <= j < i && InScope(visits[j].event, cfg) ==> visits[j].timeLeft)
    && (cfg.maxEventsPerPoll > 0 ==> calls <= cfg.maxEventsPerPoll)
  }

  lemma StartWalk(visits: seq<Visit>, now: int, cfg: AgentConfig, before: map<string, int>, journal: seq<Entry>)
    ensures WalkedTo(visits, 0, now, cfg, before, before, journal, journal, 0)
  {
    hide InScope, KeyOf;
  }

  /** Going over one more event. */
  ghost predicate WalkedOver(v: Visit, now: int, cfg: AgentConfig, seen: map<string, int>, seen': map<string, int>,
                       journal: seq<Entry>, journal': seq<Entry>, calls: int, calls': int)
  {
    if !InScope(v.event, cfg) then seen' == seen && journal' == journal && calls' == calls
    else
      && v.timeLeft && (cfg.maxEventsPerPoll > 0 ==> calls < cfg.maxEventsPerPoll)
      && (if KeyOf(v.event) in seen then seen' == seen && journal' == journal && calls' == calls
          else
            && seen' == seen[KeyOf(v.event) := now] && Handled(journal, journal', [v], now)
            && calls <= calls' <= calls + 1)
  }

  lemma WalkOn(visits: seq<Visit>, i: nat, now: int, cfg: AgentConfig, before: map<string, int>, seen: map<string, int>,
               earlier: seq<Entry>, journal: seq<Entry>, calls: int, seen': map<string, int>, journal': seq<Entry>,
               calls': int)
    requires i < |visits| && WalkedTo(visits, i, now, cfg, before, seen, earlier, journal, calls)
    requires WalkedOver(visits[i], now, cfg, seen, seen', journal, journal', calls, calls')
    ensures WalkedTo(visits, i + 1, now, cfg, before, seen', earlier, journal', calls')
  {
    hide InScope, KeyOf, KeysOf, NewOnes, Handled;
    KeysGrow(visits, i, cfg);
    NewOnesGrow(visits, i, before.Keys, cfg);
    var sofar := NewOnes(visits[..i], before.Keys, cfg);
    assert sofar + [] == sofar;
    if InScope(visits[i].event, cfg) && KeyOf(visits[i].event) !in seen {
      HandledMore(earlier, journal, NewOnes(visits[..i], before.Keys, cfg), now, journal', visits[i]);
    }
  }

  /**
   Of the events that were walked over, every warning from a namespace that is watched is marked, and handled if its key
   is new; nothing else is.
   */
  ghost predicate Attended(visits: seq<Visit>, i: nat, cfg: AgentConfig, before: map<string, int>,
                           seen: map<string, int>, from: nat, journal: seq<Entry>)
    requires i <= |visits|
  {
    && (forall k :: 0 <= k < i ==>
          var e := visits[k].event;
          var watched := e.namespace !in cfg.excludeNamespaces
            && (cfg.includeNamespaces == [] || e.namespace in cfg.includeNamespaces);
          EqualFold(e.typ, "Warning") && watched ==>
            KeyOf(e) in seen && (KeyOf(e) in before || HandledAfter(journal, from, KeyOf(e))))
    && (forall k :: from <= k < |journal| ==>
          var e := journal[k].visit.event;
          && EqualFold(e.typ, "Warning") && e.namespace !in cfg.excludeNamespaces
          && (cfg.includeNamespaces == [] || e.namespace in cfg.includeNamespaces))
    && (forall key :: key in seen && key !in before ==> HandledAfter(journal, from, key))
  }

  lemma WalkedInWords(visits: seq<Visit>, i: nat, now: int, cfg: AgentConfig, before: map<string, int>,
                      seen: map<string, int>, earlier: seq<Entry>, journal: seq<Entry>, calls: int)
    requires i <= |visits| && WalkedTo(visits, i, now, cfg, before, seen, earlier, journal, calls)
    ensures Attended(visits, i, cfg, before, seen, |earlier|, journal)
  {
    hide EqualFold, KeyOf, NewOnes;
    var handled := NewOnes(visits[..i], before.Keys, cfg);
    NewOnesAreInScope(visits[..i], before.Keys, cfg);
    forall k | 0 <= k < i && InScope(visits[k].event, cfg)
      ensures KeyOf(visits[k].event) in seen
      ensures KeyOf(visits[k].event) in before || HandledAfter(journal, |earlier|, KeyOf(visits[k].event))
    {
      assert visits[..i][k] == visits[k];
      assert KeyOf(visits[k].event) in KeysOf(visits[..i], cfg);
      if KeyOf(visits[k].event) !in before {
        var m := NewKeyIsNew(visits[..i], before.Keys, cfg, KeyOf(visits[k].event));
        assert journal[|earlier| + m].visit == handled[m];
      }
    }
    forall k | |earlier| <= k < |journal|
      ensures InScope(journal[k].visit.event, cfg)
    {
      assert journal[k].visit == handled[k - |earlier|];
    }
    forall key | key in seen && key !in before
      ensures HandledAfter(journal, |earlier|, key)
    {
      var m := NewKeyIsNew(visits[..i], before.Keys, cfg, key);
      assert journal[|earlier| + m].visit == handled[m];
    }
  }

  /** From this entry on, an event with this key was handled. */
  ghost predicate HandledAfter(journal: seq<Entry>, from: nat, key: string)
  {
    exists k :: from <= k < |journal| && KeyOf(journal[k].visit.event) == key
  }

  lemma {:induction false} NewOnesAreInScope(visits: seq<Visit>, seen: set<string>, cfg: AgentConfig)
    ensures forall k :: 0 <= k < |NewOnes(visits, seen, cfg)| ==> InScope(NewOnes(visits, seen, cfg)[k].event, cfg)
  {
    hide InScope, KeyOf, KeysOf;
    if visits != [] {
      NewOnesAreInScope(visits[..|visits| - 1], seen, cfg);
    }
  }

  lemma {:induction false} NewKeyIsNew(visits: seq<Visit>, seen: set<string>, cfg: AgentConfig, key: string)
    returns (m: nat)
    requires key in KeysOf(visits, cfg) && key !in seen
    ensures m < |NewOnes(visits, seen, cfg)| && KeyOf(NewOnes(visits, seen, cfg)[m].event) == key
  {
    hide InScope, KeyOf, KeysOf;
    if visits == [] {
      NoKeys(cfg);
      assert false;
    } else {
      var n := |visits| - 1;
      KeysGrow(visits, n, cfg);
      assert visits[..n + 1] == visits;
      if key in KeysOf(visits[..n], cfg) {
        m := NewKeyIsNew(visits[..n], seen, cfg, key);
      } else {
        m := |NewOnes(visits[..n], seen, cfg)|;
      }
    }
  }

  /** Where a poll may stop: at the end, or before an event in scope once the cap or the time is used up. */
  predicate StopsAt(visits: seq<Visit>, stopped: nat, cfg: AgentConfig, calls: int)
  {
    && stopped <= |visits|
    && (stopped < |visits| ==>
          var e := visits[stopped].event;
          && EqualFold(e.typ, "Warning") && e.namespace !in cfg.excludeNamespaces
          && (cfg.includeNamespaces == [] || e.namespace in cfg.includeNamespaces)
          && (!visits[stopped].timeLeft || (cfg.maxEventsPerPoll > 0 && calls >= cfg.maxEventsPerPoll)))
  }

  lemma StopsInScope(visits: seq<Visit>, stopped: nat, cfg: AgentConfig, calls: int)
    requires stopped <= |visits|
    requires stopped < |visits| ==>
      InScope(visits[stopped].event, cfg)
      && (!visits[stopped].timeLeft || (cfg.maxEventsPerPoll > 0 && calls >= cfg.maxEventsPerPoll))
    ensures StopsAt(visits, stopped, cfg, calls)
  {
    hide EqualFold;
  }

  /** However far a poll gets, it marks everything in scope or at least as many new keys as it made calls. */
  lemma EveryPollProgresses(visits: seq<Visit>, stopped: nat, now: int, cfg: AgentConfig, before: map<string, int>,
                            seen: map<string, int>,
                            earlier: seq<Entry>, journal: seq<Entry>, calls: int)
    requires stopped <= |visits| && WalkedTo(visits, stopped, now, cfg, before, seen, earlier, journal, calls)
    ensures stopped == |visits| ==> KeysOf(visits, cfg) <= seen.Keys
    ensures |KeysOf(visits, cfg) - seen.Keys| + calls <= |KeysOf(visits, cfg) - before.Keys|
  {
    hide InScope, KeyOf, KeysOf, NewOnes, Handled;
    NewOnesHaveNewKeys(visits[..stopped], before.Keys, cfg);
    PrefixKeys(visits, stopped, cfg);
    LessLeft(KeysOf(visits, cfg), before.Keys, KeysOf(visits[..stopped], cfg));
    assert stopped == |visits| ==> visits[..stopped] == visits;
  }

  lemma LessLeft(keys: set<string>, before: set<string>, marked: set<string>)
    requires marked <= keys
    ensures |keys - (before + marked)| + |marked - before| == |keys - before|
  {
    assert keys - (before + marked) == (keys - before) - (marked - before);
  }
}
