/** How everything the loop keeps agrees with the run so far. */
module LoopState {
  import opened Results
  import opened Model
  import opened DedupSpec
  import opened Chains
  import opened Decisions
  import opened Accounting

  // ---- the store mirrors the run --------------------------------------------------------------

  /** The stored window of a signal is the one the run opened last, or is gone because it is over. */
  predicate WindowStored(s: Store, trace: seq<Step>, signal: string, rules: Rules, clock: int)
  {
    var end := WindowEnd(trace, signal, rules);
    if signal in s.signalExpiry then end == Some(s.signalExpiry[signal]) else end.Some? ==> end.value <= clock
  }

  /** The stored counter of a signal is that of its last execution, or is gone because it has lapsed. */
  predicate CounterStored(s: Store, trace: seq<Step>, signal: string, rules: Rules, clock: int)
  {
    var last := LastRun(trace, signal);
    if signal in s.attempts then
      last.Some? && s.attempts[signal] == AttemptEntry(last.value.attempt, last.value.time + AttemptWindow(rules))
    else last.Some? ==> last.value.time + AttemptWindow(rules) < clock
  }

  ghost predicate StoreAgrees(s: Store, trace: seq<Step>, rules: Rules, clock: int)
  {
    && (forall signal: string :: WindowStored(s, trace, signal, rules, clock))
    && (rules.max > 0 ==> forall signal: string :: CounterStored(s, trace, signal, rules, clock))
  }

  lemma EvictionKeepsAgreement(s: Store, trace: seq<Step>, rules: Rules, clock: int, now: int, seenTTL: int)
    requires StoreAgrees(s, trace, rules, clock) && clock <= now
    ensures StoreAgrees(Evicted(s, now, seenTTL), trace, rules, now)
  {
    forall signal: string
      ensures WindowStored(Evicted(s, now, seenTTL), trace, signal, rules, now)
      ensures rules.max > 0 ==> CounterStored(Evicted(s, now, seenTTL), trace, signal, rules, now)
    {
      assert WindowStored(s, trace, signal, rules, clock);
      assert rules.max > 0 ==> CounterStored(s, trace, signal, rules, clock);
    }
  }

  lemma SeenKeepsAgreement(s: Store, trace: seq<Step>, rules: Rules, clock: int, key: string, now: int)
    requires StoreAgrees(s, trace, rules, clock)
    ensures StoreAgrees(WithSeen(s, key, now), trace, rules, clock)
  {
    forall signal: string
      ensures WindowStored(WithSeen(s, key, now), trace, signal, rules, clock)
      ensures rules.max > 0 ==> CounterStored(WithSeen(s, key, now), trace, signal, rules, clock)
    {
      assert WindowStored(s, trace, signal, rules, clock);
      assert rules.max > 0 ==> CounterStored(s, trace, signal, rules, clock);
    }
  }

  /** What the store answers is what the run says. */
  lemma AnswersAgree(s: Store, trace: seq<Step>, rules: Rules, now: int, signal: string)
    requires StoreAgrees(s, trace, rules, now)
    ensures Fresh(s, signal, now) <==> Closed(trace, signal, rules, now)
    ensures rules.max > 0 ==> AttemptCount(s, signal, now) == LiveAttempts(trace, signal, rules, now)
  {
    assert WindowStored(s, trace, signal, rules, now);
    assert rules.max > 0 ==> CounterStored(s, trace, signal, rules, now);
  }

  lemma CallKeepsAgreement(s: Store, trace: seq<Step>, rules: Rules, now: int, step: Step)
    requires StoreAgrees(s, trace, rules, now) && step.Called?
    ensures StoreAgrees(s, trace + [step], rules, now)
  {
    hide WindowEnd, LastRun;
    forall signal: string
      ensures WindowStored(s, trace + [step], signal, rules, now)
      ensures rules.max > 0 ==> CounterStored(s, trace + [step], signal, rules, now)
    {
      Grown(trace, step, signal, rules);
      assert WindowStored(s, trace, signal, rules, now);
      assert rules.max > 0 ==> CounterStored(s, trace, signal, rules, now);
    }
  }

  /** Marking the signal for as long as the step says, without touching counters. */
  lemma MarkKeepsAgreement(s: Store, trace: seq<Step>, rules: Rules, now: int, step: Step, ttl: int)
    requires StoreAgrees(s, trace, rules, now) && !step.Called? && Until(step, rules) == Some(now + ttl)
    requires step.Ran? ==> rules.max <= 0
    ensures StoreAgrees(WithSignal(s, step.signal, now, ttl), trace + [step], rules, now)
  {
    hide WindowEnd, LastRun, Until;
    var s' := WithSignal(s, step.signal, now, ttl);
    forall signal: string
      ensures WindowStored(s', trace + [step], signal, rules, now)
      ensures rules.max > 0 ==> CounterStored(s', trace + [step], signal, rules, now)
    {
      Grown(trace, step, signal, rules);
      assert WindowStored(s, trace, signal, rules, now);
      assert rules.max > 0 ==> CounterStored(s, trace, signal, rules, now);
    }
  }

  /** Counting the attempt and marking the signal for the escalated window. */
  lemma RunKeepsAgreement(s: Store, trace: seq<Step>, rules: Rules, step: Step)
    requires StoreAgrees(s, trace, rules, step.time) && step.Ran? && rules.max > 0
    requires step.attempt == AttemptCount(s, step.signal, step.time) + 1
    ensures StoreAgrees(
              WithSignal(WithAttempt(s, step.signal, step.time, AttemptWindow(rules)), step.signal, step.time,
                         rules.ttl * Factor(step.attempt)),
              trace + [step], rules, step.time)
  {
    hide WindowEnd, LastRun, Factor;
    var now := step.time;
    var counted := WithAttempt(s, step.signal, now, AttemptWindow(rules));
    var s' := WithSignal(counted, step.signal, now, rules.ttl * Factor(step.attempt));
    forall signal: string
      ensures WindowStored(s', trace + [step], signal, rules, now)
      ensures CounterStored(s', trace + [step], signal, rules, now)
    {
      Grown(trace, step, signal, rules);
      assert WindowStored(s, trace, signal, rules, now);
      assert CounterStored(s, trace, signal, rules, now);
    }
  }

  // ---- the loop's state as a whole ------------------------------------------------------------------

  /** Everything the loop keeps agrees with the run so far. */
  ghost predicate Coherent(trace: seq<Step>, rules: Rules, clock: int, s: Store, c: Counters, visited: nat,
                           records: seq<DecisionRecord>)
  {
    && Lawful(trace, rules)
    && (trace != [] ==> trace[|trace| - 1].time <= clock)
    && StoreAgrees(s, trace, rules, clock)
    && Balanced(c, visited, trace, records)
  }

  lemma EmptyStoreAgrees(rules: Rules)
    ensures StoreAgrees(EMPTY, [], rules, 0)
  {
    forall signal: string
      ensures WindowStored(EMPTY, [], signal, rules, 0) && CounterStored(EMPTY, [], signal, rules, 0)
    {
    }
  }

  lemma CoherentAtStart(rules: Rules)
    requires rules.ttl > 0
    ensures Coherent([], rules, 0, EMPTY, Counters(0, 0, 0, 0, map[]), 0, [])
  {
    hide StoreAgrees;
    EmptyStoreAgrees(rules);
  }

  lemma CoherentAfterEvict(trace: seq<Step>, rules: Rules, clock: int, s: Store, c: Counters, visited: nat,
                           records: seq<DecisionRecord>,
                           now: int, seenTTL: int)
    requires Coherent(trace, rules, clock, s, c, visited, records) && clock <= now
    ensures Coherent(trace, rules, now, Evicted(s, now, seenTTL), c, visited, records)
  {
    hide Lawful, StoreAgrees, Balanced;
    EvictionKeepsAgreement(s, trace, rules, clock, now, seenTTL);
  }

  lemma CoherentAfterSeen(trace: seq<Step>, rules: Rules, now: int, s: Store, c: Counters, visited: nat,
                          records: seq<DecisionRecord>, key: string)
    requires Coherent(trace, rules, now, s, c, visited, records)
    ensures Coherent(trace, rules, now, WithSeen(s, key, now), c, visited, records)
  {
    hide Lawful, StoreAgrees, Balanced;
    SeenKeepsAgreement(s, trace, rules, now, key, now);
  }

  lemma CoherentAfterMiss(trace: seq<Step>, rules: Rules, now: int, s: Store, c: Counters, visited: nat,
                          records: seq<DecisionRecord>, c': Counters)
    requires Coherent(trace, rules, now, s, c, visited, records) && c' == c.(eventsSkipped := c.eventsSkipped + 1)
    ensures Coherent(trace, rules, now, s, c', visited + 1, records)
  {
    hide Lawful, StoreAgrees, Total, Calls, Unanswered, Trips, Filtered, FailedRuns, Recorded, RecordsMatch;
  }

  lemma CoherentAnswers(trace: seq<Step>, rules: Rules, now: int, s: Store, c: Counters, visited: nat,
                        records: seq<DecisionRecord>, signal: string)
    requires Coherent(trace, rules, now, s, c, visited, records)
    ensures Fresh(s, signal, now) <==> Closed(trace, signal, rules, now)
    ensures rules.max > 0 ==> AttemptCount(s, signal, now) == LiveAttempts(trace, signal, rules, now)
  {
    hide Lawful, Balanced, StoreAgrees;
    AnswersAgree(s, trace, rules, now, signal);
  }

  /** The model was asked about a signal that is open and, with the breaker on, below its limit. */
  lemma CoherentAfterCall(trace: seq<Step>, rules: Rules, now: int, s: Store, c: Counters, visited: nat,
                          records: seq<DecisionRecord>,
                          step: Step, action: Option<Action>, c': Counters)
    requires Coherent(trace, rules, now, s, c, visited, records) && !AwaitsOutcome(trace)
    requires step == Called(step.signal, now, action.Some?) && !Fresh(s, step.signal, now)
    requires rules.max > 0 ==> AttemptCount(s, step.signal, now) < rules.max
    requires c'.eventsProcessed == c.eventsProcessed + 1 && c'.eventsSkipped == c.eventsSkipped
    requires c'.executionErrors == c.executionErrors
    requires c'.decisionErrors == c.decisionErrors + if step.answered then 0 else 1
    requires c'.decisionsByAction == if action.None? then c.decisionsByAction
      else c.decisionsByAction[
             action.value := (if action.value in c.decisionsByAction then c.decisionsByAction[action.value] else 0) + 1]
    ensures Coherent(trace + [step], rules, now, s, c', visited + 1, records)
  {
    hide Lawful, StoreAgrees, Balanced, Closed, LiveAttempts, Fresh, AttemptCount;
    AnswersAgree(s, trace, rules, now, step.signal);
    LawfulExtends(trace, rules, step);
    CallKeepsAgreement(s, trace, rules, now, step);
    BalancedAfterCall(c, visited, trace, records, step, action, c');
  }

  lemma CoherentAfterTrip(trace: seq<Step>, rules: Rules, now: int, s: Store, c: Counters, visited: nat,
                          records: seq<DecisionRecord>,
                          step: Step, record: DecisionRecord, c': Counters)
    requires Coherent(trace, rules, now, s, c, visited, records) && !AwaitsOutcome(trace)
    requires step == Tripped(step.signal, now, AttemptCount(s, step.signal, now)) && !Fresh(s, step.signal, now)
    requires 0 < rules.max <= step.attempts && Shows(record, step)
    requires c' == c.(eventsSkipped := c.eventsSkipped + 1)
    ensures Coherent(trace + [step], rules, now, WithSignal(s, step.signal, now, rules.ttl * Factor(step.attempts + 1)),
                     c', visited + 1, records + [record])
  {
    hide Lawful, StoreAgrees, Balanced, Closed, LiveAttempts, Fresh, AttemptCount, Factor;
    AnswersAgree(s, trace, rules, now, step.signal);
    LawfulExtends(trace, rules, step);
    MarkKeepsAgreement(s, trace, rules, now, step, rules.ttl * Factor(step.attempts + 1));
    BalancedAfterRecord(c, visited, trace, records, step, record, c');
  }

  /** The answer was filtered out; the signal rests for one base window. */
  lemma CoherentAfterFilter(trace: seq<Step>, rules: Rules, now: int, s: Store, c: Counters, visited: nat,
                            records: seq<DecisionRecord>,
                            step: Step, record: DecisionRecord, c': Counters)
    requires Coherent(trace, rules, now, s, c, visited, records) && !Fresh(s, step.signal, now)
    requires step == Step.Skipped(step.signal, now) && Shows(record, step)
    requires trace != [] && trace[|trace| - 1] == Called(step.signal, now, true)
    requires c' == c.(eventsSkipped := c.eventsSkipped + 1)
    ensures Coherent(trace + [step], rules, now, WithSignal(s, step.signal, now, rules.ttl), c', visited,
                     records + [record])
  {
    hide Lawful, StoreAgrees, Balanced, Closed, LiveAttempts, Fresh;
    AnswersAgree(s, trace, rules, now, step.signal);
    LawfulExtends(trace, rules, step);
    MarkKeepsAgreement(s, trace, rules, now, step, rules.ttl);
    BalancedAfterRecord(c, visited, trace, records, step, record, c');
  }

  /** The store after counting the attempt, if attempts are counted, and marking the escalated window. */
  function AfterAttempt(s: Store, signal: string, rules: Rules, now: int): Store
  {
    var counted := if rules.max > 0 then WithAttempt(s, signal, now, AttemptWindow(rules)) else s;
    WithSignal(counted, signal, now, rules.ttl * Factor(AttemptNumber(s, signal, rules, now)))
  }

  function AttemptNumber(s: Store, signal: string, rules: Rules, now: int): nat
  {
    if rules.max > 0 then AttemptCount(s, signal, now) + 1 else 1
  }

  lemma CoherentAfterRun(trace: seq<Step>, rules: Rules, now: int, s: Store, c: Counters, visited: nat,
                         records: seq<DecisionRecord>,
                         step: Step, record: DecisionRecord, c': Counters)
    requires Coherent(trace, rules, now, s, c, visited, records) && !Fresh(s, step.signal, now)
    requires step.Ran? && step == Ran(step.signal, now, AttemptNumber(s, step.signal, rules, now), step.ok)
    requires Shows(record, step)
    requires trace != [] && trace[|trace| - 1] == Called(step.signal, now, true)
    requires c' == c.(executionErrors := c.executionErrors + if step.ok then 0 else 1)
    ensures Coherent(trace + [step], rules, now, AfterAttempt(s, step.signal, rules, now), c', visited,
                     records + [record])
  {
    hide Lawful, StoreAgrees, Balanced, Closed, LiveAttempts, Fresh, AttemptCount, Factor, WithSignal, WithAttempt;
    AnswersAgree(s, trace, rules, now, step.signal);
    LawfulExtends(trace, rules, step);
    if rules.max > 0 {
      RunKeepsAgreement(s, trace, rules, step);
    } else {
      MarkKeepsAgreement(s, trace, rules, now, step, rules.ttl * Factor(1));
    }
    BalancedAfterRecord(c, visited, trace, records, step, record, c');
  }
}
