/** The counters the loop keeps, and how they account for the run and its records. */
module Accounting {
  import opened Results
  import opened Model
  import opened Chains
  import opened Decisions

  /** The counters the loop keeps. */
  datatype Counters = Counters(
    eventsProcessed: nat,
    eventsSkipped: nat,
    decisionErrors: nat,
    executionErrors: nat,
    decisionsByAction: map<Action, nat>)

  /** The sum over all actions. */
  ghost function Total(m: map<Action, nat>): nat
  {
    if m == map[] then 0
    else
      var a :| a in m;
      m[a] + Total(m - {a})
  }

  lemma PickOne(m: map<Action, nat>) returns (b: Action)
    requires m != map[]
    ensures b in m && Total(m) == m[b] + Total(m - {b})
  {
    b :| b in m && Total(m) == m[b] + Total(m - {b});
  }

  lemma RemovalsCommute(m: map<Action, nat>, a: Action, b: Action)
    ensures m - {a} - {b} == m - {b} - {a}
  {
  }

  lemma {:induction false} TotalWithout(m: map<Action, nat>, a: Action)
    requires a in m
    ensures Total(m) == m[a] + Total(m - {a})
    decreases |m|
  {
    hide Total;
    var b := PickOne(m);
    if b != a {
      TotalWithout(m - {b}, a);
      TotalWithout(m - {a}, b);
      RemovalsCommute(m, a, b);
    }
  }

  /** Counting one more decision adds one to the sum. */
  lemma TotalCounts(m: map<Action, nat>, a: Action)
    ensures Total(m[a := (if a in m then m[a] else 0) + 1]) == Total(m) + 1
  {
    var m' := m[a := (if a in m then m[a] else 0) + 1];
    TotalWithout(m', a);
    if a in m {
      TotalWithout(m, a);
      assert m' - {a} == m - {a};
    } else {
      assert m' - {a} == m;
    }
  }

  function Calls(trace: seq<Step>): nat
  {
    if trace == [] then 0 else Calls(trace[..|trace| - 1]) + if trace[|trace| - 1].Called? then 1 else 0
  }

  function Unanswered(trace: seq<Step>): nat
  {
    if trace == [] then 0
    else
      var last := trace[|trace| - 1];
      Unanswered(trace[..|trace| - 1]) + if last.Called? && !last.answered then 1 else 0
  }

  function Trips(trace: seq<Step>): nat
  {
    if trace == [] then 0 else Trips(trace[..|trace| - 1]) + if trace[|trace| - 1].Tripped? then 1 else 0
  }

  function Filtered(trace: seq<Step>): nat
  {
    if trace == [] then 0 else Filtered(trace[..|trace| - 1]) + if trace[|trace| - 1].Skipped? then 1 else 0
  }

  function FailedRuns(trace: seq<Step>): nat
  {
    if trace == [] then 0
    else
      var last := trace[|trace| - 1];
      FailedRuns(trace[..|trace| - 1]) + if last.Ran? && !last.ok then 1 else 0
  }

  /** The steps that leave a record on the dashboard, in order: everything but calls. */
  function Recorded(trace: seq<Step>): seq<Step>
  {
    if trace == [] then []
    else
      var last, front := trace[|trace| - 1], Recorded(trace[..|trace| - 1]);
      if last.Called? then front else front + [last]
  }

  /** The outcome shown for a step: success exactly for an execution without error. */
  predicate Shows(record: DecisionRecord, step: Step)
  {
    match step
    case Called(_, _, _) => false
    case Skipped(_, _) => record.outcome == Outcome.Skipped
    case Tripped(_, _, _) => record.outcome == Outcome.Blocked
    case Ran(_, _, _, ok) =>
      if ok then record.outcome == Outcome.Success else record.outcome in {Outcome.Blocked, Outcome.Error}
  }

  /** One record per step that is not a call, in the same order. */
  ghost predicate RecordsMatch(records: seq<DecisionRecord>, steps: seq<Step>)
  {
    |records| == |steps| && forall i :: 0 <= i < |records| ==> Shows(records[i], steps[i])
  }

  lemma CountsGrow(trace: seq<Step>, step: Step)
    ensures Calls(trace + [step]) == Calls(trace) + if step.Called? then 1 else 0
    ensures Unanswered(trace + [step]) == Unanswered(trace) + if step.Called? && !step.answered then 1 else 0
    ensures Trips(trace + [step]) == Trips(trace) + if step.Tripped? then 1 else 0
    ensures Filtered(trace + [step]) == Filtered(trace) + if step.Skipped? then 1 else 0
    ensures FailedRuns(trace + [step]) == FailedRuns(trace) + if step.Ran? && !step.ok then 1 else 0
    ensures Recorded(trace + [step]) == if step.Called? then Recorded(trace) else Recorded(trace) + [step]
  {
    assert (trace + [step])[..|trace|] == trace;
  }

  // ---- the counts as numbers of places ------------------------------------------------------------

  lemma {:induction false} CallsCounted(trace: seq<Step>)
    ensures Calls(trace) == |set i | 0 <= i < |trace| && trace[i].Called?|
  {
    if trace != [] {
      var n := |trace| - 1;
      var front := trace[..n];
      CallsCounted(front);
      assert (set i | 0 <= i < |trace| && trace[i].Called?)
          == (set i | 0 <= i < |front| && front[i].Called?) + if trace[n].Called? then {n} else {};
    }
  }

  lemma {:induction false} UnansweredCounted(trace: seq<Step>)
    ensures Unanswered(trace) == |set i | 0 <= i < |trace| && trace[i].Called? && !trace[i].answered|
  {
    if trace != [] {
      var n := |trace| - 1;
      var front := trace[..n];
      UnansweredCounted(front);
      assert (set i | 0 <= i < |trace| && trace[i].Called? && !trace[i].answered)
          == (set i | 0 <= i < |front| && front[i].Called? && !front[i].answered)
             + if trace[n].Called? && !trace[n].answered then {n} else {};
    }
  }

  lemma {:induction false} TripsCounted(trace: seq<Step>)
    ensures Trips(trace) == |set i | 0 <= i < |trace| && trace[i].Tripped?|
  {
    if trace != [] {
      var n := |trace| - 1;
      var front := trace[..n];
      TripsCounted(front);
      assert (set i | 0 <= i < |trace| && trace[i].Tripped?)
          == (set i | 0 <= i < |front| && front[i].Tripped?) + if trace[n].Tripped? then {n} else {};
    }
  }

  lemma {:induction false} FilteredCounted(trace: seq<Step>)
    ensures Filtered(trace) == |set i | 0 <= i < |trace| && trace[i].Skipped?|
  {
    if trace != [] {
      var n := |trace| - 1;
      var front := trace[..n];
      FilteredCounted(front);
      assert (set i | 0 <= i < |trace| && trace[i].Skipped?)
          == (set i | 0 <= i < |front| && front[i].Skipped?) + if trace[n].Skipped? then {n} else {};
    }
  }

  lemma {:induction false} FailedRunsCounted(trace: seq<Step>)
    ensures FailedRuns(trace) == |set i | 0 <= i < |trace| && trace[i].Ran? && !trace[i].ok|
  {
    if trace != [] {
      var n := |trace| - 1;
      var front := trace[..n];
      FailedRunsCounted(front);
      assert (set i | 0 <= i < |trace| && trace[i].Ran? && !trace[i].ok)
          == (set i | 0 <= i < |front| && front[i].Ran? && !front[i].ok)
             + if trace[n].Ran? && !trace[n].ok then {n} else {};
    }
  }

  lemma OneCallMore(trace: seq<Step>, call: Step)
    requires call.Called?
    ensures Calls(trace + [call]) == Calls(trace) + 1 && (trace + [call])[|trace|..] == [call]
  {
    CountsGrow(trace, call);
  }

  lemma CallAndOutcome(trace: seq<Step>, call: Step, step: Step)
    requires call.Called? && !step.Called?
    ensures Calls(trace + [call] + [step]) == Calls(trace) + 1 && (trace + [call] + [step])[|trace|..] == [call, step]
  {
    CountsGrow(trace, call);
    CountsGrow(trace + [call], step);
  }

  lemma RecordsMatchGrows(records: seq<DecisionRecord>, trace: seq<Step>, record: DecisionRecord, step: Step)
    requires RecordsMatch(records, Recorded(trace)) && Shows(record, step)
    ensures RecordsMatch(records + [record], Recorded(trace + [step]))
  {
    hide Recorded;
    CountsGrow(trace, step);
  }

  /** An answered call whose decision is not yet recorded. */
  predicate AwaitsOutcome(trace: seq<Step>)
  {
    trace != [] && trace[|trace| - 1].Called? && trace[|trace| - 1].answered
  }

  /** The books balance: events seen against events counted, events against decisions, decisions against records. */
  ghost predicate Balanced(c: Counters, visited: nat, trace: seq<Step>, records: seq<DecisionRecord>)
  {
    && c.eventsSkipped + c.eventsProcessed == visited + Filtered(trace)
    && c.executionErrors == FailedRuns(trace)
    && c.eventsProcessed == Calls(trace) == c.decisionErrors + Total(c.decisionsByAction)
    && c.decisionErrors == Unanswered(trace)
    && RecordsMatch(records, Recorded(trace))
    && |records| + (if AwaitsOutcome(trace) then 1 else 0) == Total(c.decisionsByAction) + Trips(trace)
  }

  lemma BalancedAfterCall(c: Counters, visited: nat, trace: seq<Step>, records: seq<DecisionRecord>, step: Step,
                          action: Option<Action>, c': Counters)
    requires Balanced(c, visited, trace, records) && !AwaitsOutcome(trace) && step.Called?
    requires (step.answered <==> action.Some?)
    requires c'.eventsProcessed == c.eventsProcessed + 1 && c'.eventsSkipped == c.eventsSkipped
    requires c'.executionErrors == c.executionErrors
    requires c'.decisionErrors == c.decisionErrors + if step.answered then 0 else 1
    requires c'.decisionsByAction == if action.None? then c.decisionsByAction
      else c.decisionsByAction[
             action.value := (if action.value in c.decisionsByAction then c.decisionsByAction[action.value] else 0) + 1]
    ensures Balanced(c', visited + 1, trace + [step], records)
  {
    hide Total, Calls, Unanswered, Trips, Filtered, FailedRuns, Recorded, RecordsMatch;
    CountsGrow(trace, step);
    if action.Some? {
      TotalCounts(c.decisionsByAction, action.value);
    }
  }

  lemma BalancedAfterRecord(c: Counters, visited: nat, trace: seq<Step>, records: seq<DecisionRecord>, step: Step,
                            record: DecisionRecord, c': Counters)
    requires Balanced(c, visited, trace, records) && !step.Called? && Shows(record, step)
    requires AwaitsOutcome(trace) <==> !step.Tripped?
    requires c' == c.(eventsSkipped := c.eventsSkipped + (if step.Ran? then 0 else 1),
                      executionErrors := c.executionErrors + (if step.Ran? && !step.ok then 1 else 0))
    ensures Balanced(c', visited + if step.Tripped? then 1 else 0, trace + [step], records + [record])
  {
    hide Total, Calls, Unanswered, Trips, Filtered, FailedRuns, Recorded, RecordsMatch;
    CountsGrow(trace, step);
    RecordsMatchGrows(records, trace, record, step);
  }
}
