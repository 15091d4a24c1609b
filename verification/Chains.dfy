/**
 Runs of the poll loop as sequences of steps: which steps the backoff and the
 circuit breaker let through, and what that means for whole runs.
 */
module Chains {
  import opened Results

  /** What the loop does about one event that got past the filters, at the poll's time. */
  datatype Step =
    | Called(signal: string, time: int, answered: bool)              // the language model was asked
    | Skipped(signal: string, time: int)                             // answered, but below the minimum severity
    | Tripped(signal: string, time: int, attempts: nat)              // the breaker parked the signal
    | Ran(signal: string, time: int, attempt: nat, ok: bool)         // a decision was executed

  /** The base window and the breaker's limit; a limit of 0 or less turns the breaker off. */
  datatype Rules = Rules(ttl: int, max: int)

  // ---- windows ---------------------------------------------------------------------------

  /** 1, 2, 4, then 8 from the fourth attempt on. */
  function Factor(attempts: int): (f: int)
    ensures 1 <= f <= 8
  {
    if attempts <= 1 then 1 else if attempts == 2 then 2 else if attempts == 3 then 4 else 8
  }

  method SignalBackoffTTL(base: int, attempts: int) returns (ttl: int)
    ensures ttl == base * Factor(attempts)
  {
    var factor := 1;
    var i := 1;
    while i < attempts && factor < 8
      invariant 1 <= i && (i <= attempts || i == 1)
      invariant factor == Factor(i) && (factor == 8 ==> i == 4)
      decreases attempts - i
    {
      factor := factor * 2;
      i := i + 1;
    }
    ttl := base * factor;
  }

  /** How long a counter survives without new attempts. */
  function AttemptWindow(rules: Rules): int
  {
    12 * rules.ttl
  }

  /** The end of the window a step opens for its signal. */
  function Until(step: Step, rules: Rules): (end: Option<int>)
    ensures end.Some? <==> !step.Called?
  {
    match step
    case Called(_, _, _) => None
    case Skipped(_, time) => Some(time + rules.ttl)
    case Tripped(_, time, attempts) => Some(time + rules.ttl * Factor(attempts + 1))
    case Ran(_, time, attempt, _) => Some(time + rules.ttl * Factor(attempt))
  }

  /** The end of the window opened last for a signal. */
  function WindowEnd(trace: seq<Step>, signal: string, rules: Rules): Option<int>
  {
    if trace == [] then None
    else
      var last := trace[|trace| - 1];
      if last.signal == signal && !last.Called? then Until(last, rules)
      else WindowEnd(trace[..|trace| - 1], signal, rules)
  }

  predicate Closed(trace: seq<Step>, signal: string, rules: Rules, t: int)
  {
    var end := WindowEnd(trace, signal, rules);
    end.Some? && t < end.value
  }

  /** The last execution for a signal. */
  function LastRun(trace: seq<Step>, signal: string): (r: Option<Step>)
    ensures r.Some? ==> r.value.Ran? && r.value.signal == signal && r.value in trace
  {
    if trace == [] then None
    else
      var last := trace[|trace| - 1];
      if last.Ran? && last.signal == signal then Some(last) else LastRun(trace[..|trace| - 1], signal)
  }

  /** The attempts still counted at time t. */
  function LiveAttempts(trace: seq<Step>, signal: string, rules: Rules, t: int): nat
  {
    var last := LastRun(trace, signal);
    if last.None? || t > last.value.time + AttemptWindow(rules) then 0 else last.value.attempt
  }

  /** What one more step does to the window and the last execution of a signal. */
  lemma Grown(trace: seq<Step>, step: Step, signal: string, rules: Rules)
    ensures WindowEnd(trace + [step], signal, rules)
         == if step.signal == signal && !step.Called? then Until(step, rules) else WindowEnd(trace, signal, rules)
    ensures LastRun(trace + [step], signal)
         == if step.Ran? && step.signal == signal then Some(step) else LastRun(trace, signal)
  {
    assert (trace + [step])[..|trace|] == trace;
  }

  // ---- lawful runs -------------------------------------------------------------------------

  /** The step may follow the run so far. */
  predicate Allowed(trace: seq<Step>, step: Step, rules: Rules)
  {
    && (trace != [] ==> trace[|trace| - 1].time <= step.time)
    && !Closed(trace, step.signal, rules, step.time)
    && match step
       case Called(signal, time, _) => rules.max > 0 ==> LiveAttempts(trace, signal, rules, time) < rules.max
       case Tripped(signal, time, attempts) =>
         rules.max > 0 && attempts == LiveAttempts(trace, signal, rules, time) >= rules.max
       case Skipped(signal, time) => trace != [] && trace[|trace| - 1] == Called(signal, time, true)
       case Ran(signal, time, attempt, _) =>
         && trace != [] && trace[|trace| - 1] == Called(signal, time, true)
         && attempt == if rules.max > 0 then LiveAttempts(trace, signal, rules, time) + 1 else 1
  }

  ghost predicate Lawful(trace: seq<Step>, rules: Rules)
  {
    rules.ttl > 0 && forall i :: 0 <= i < |trace| ==> Allowed(trace[..i], trace[i], rules)
  }

  lemma LawfulExtends(trace: seq<Step>, rules: Rules, step: Step)
    requires Lawful(trace, rules) && Allowed(trace, step, rules)
    ensures Lawful(trace + [step], rules)
  {
    var more := trace + [step];
    forall i | 0 <= i < |more|
      ensures Allowed(more[..i], more[i], rules)
    {
      assert more[..i] == if i < |trace| then trace[..i] else trace;
    }
  }

  lemma {:induction false} TimesIncrease(trace: seq<Step>, rules: Rules, i: nat, j: nat)
    requires Lawful(trace, rules) && i <= j < |trace|
    ensures trace[i].time <= trace[j].time
    decreases j
  {
    if i < j {
      TimesIncrease(trace, rules, i, j - 1);
      assert Allowed(trace[..j], trace[j], rules);
    }
  }

  // ---- how long a signal is silent -----------------------------------------------------------

  /**
   The last step for a signal that was not a call decides until when it is silent: one base window after a filtered
   answer; 1, 2, 4, then 8 after the first, second, third, and every later attempt; after a trip that of one attempt
   more.
   */
  lemma {:induction false} SilentExactly(trace: seq<Step>, rules: Rules, i: nat, n: nat, t: int)
    requires i < n <= |trace| && !trace[i].Called?
    requires forall k :: i < k < n && trace[k].signal == trace[i].signal ==> trace[k].Called?
    ensures var windows :=
        match trace[i]
        case Skipped(_, _) => 1
        case Ran(_, _, k, _) => if k <= 1 then 1 else if k == 2 then 2 else if k == 3 then 4 else 8
        case Tripped(_, _, k) => if k == 0 then 1 else if k == 1 then 2 else if k == 2 then 4 else 8;
      Closed(trace[..n], trace[i].signal, rules, t) <==> t < trace[i].time + rules.ttl * windows
    decreases n
  {
    assert trace[..n][..n - 1] == trace[..n - 1];
    if i < n - 1 {
      SilentExactly(trace, rules, i, n - 1, t);
    }
  }

  // ---- windows only ever move outwards -------------------------------------------------------

  lemma WindowStep(trace: seq<Step>, signal: string, rules: Rules, n: nat)
    requires 0 < n <= |trace|
    ensures WindowEnd(trace[..n], signal, rules)
         == if trace[n - 1].signal == signal && !trace[n - 1].Called? then Until(trace[n - 1], rules)
            else WindowEnd(trace[..n - 1], signal, rules)
  {
    assert trace[..n][..n - 1] == trace[..n - 1];
  }

  /** MarkSignal never shortens an unexpired window: whatever a step opened stays closed at least that long. */
  lemma {:induction false} WindowsNeverShrink(trace: seq<Step>, rules: Rules, i: nat, n: nat)
    requires Lawful(trace, rules) && i < n <= |trace| && !trace[i].Called?
    ensures WindowEnd(trace[..n], trace[i].signal, rules).Some?
    ensures WindowEnd(trace[..n], trace[i].signal, rules).value >= Until(trace[i], rules).value
    decreases n
  {
    hide LiveAttempts, LastRun, Until, WindowEnd;
    var signal, last := trace[i].signal, trace[n - 1];
    WindowStep(trace, signal, rules, n);
    if i < n - 1 {
      WindowsNeverShrink(trace, rules, i, n - 1);
      assert Allowed(trace[..n - 1], last, rules);
      if last.signal == signal && !last.Called? {
        LaterThanItself(last, rules);
      }
    }
  }

  lemma TtlMonotone(ttl: int, a: int, b: int)
    requires ttl > 0 && a <= b
    ensures ttl * a <= ttl * b
  {
  }

  lemma LaterThanItself(step: Step, rules: Rules)
    requires rules.ttl > 0 && !step.Called?
    ensures Until(step, rules).value >= step.time + rules.ttl
  {
    match step
    case Skipped(_, _) =>
    case Tripped(_, _, attempts) => TtlMonotone(rules.ttl, 1, Factor(attempts + 1));
    case Ran(_, _, attempt, _) => TtlMonotone(rules.ttl, 1, Factor(attempt));
  }

  /** After a step that opens a window, the signal is silent until the window ends. */
  lemma SilentUntil(trace: seq<Step>, rules: Rules, i: nat, j: nat)
    requires Lawful(trace, rules) && i < j < |trace|
    requires !trace[i].Called? && trace[j].signal == trace[i].signal
    ensures trace[j].time >= Until(trace[i], rules).value
  {
    WindowsNeverShrink(trace, rules, i, j);
    assert Allowed(trace[..j], trace[j], rules);
  }

  // ---- the breaker ------------------------------------------------------------------------------

  predicate RunOf(trace: seq<Step>, i: nat, signal: string)
    requires i < |trace|
  {
    trace[i].Ran? && trace[i].signal == signal
  }

  /** Where the last execution before n stands. */
  lemma {:induction false} LastRunIndex(trace: seq<Step>, signal: string, n: nat) returns (m: nat)
    requires n <= |trace| && LastRun(trace[..n], signal).Some?
    ensures m < n && trace[m] == LastRun(trace[..n], signal).value
    ensures forall k :: m < k < n ==> !RunOf(trace, k, signal)
  {
    assert trace[..n][..n - 1] == trace[..n - 1];
    if RunOf(trace, n - 1, signal) {
      m := n - 1;
    } else {
      m := LastRunIndex(trace, signal, n - 1);
    }
  }

  lemma {:induction false} LastRunIs(trace: seq<Step>, signal: string, i: nat, n: nat)
    requires i < n <= |trace| && RunOf(trace, i, signal)
    requires forall k :: i < k < n ==> !RunOf(trace, k, signal)
    ensures LastRun(trace[..n], signal) == Some(trace[i])
    decreases n
  {
    assert trace[..n][..n - 1] == trace[..n - 1] && trace[..n][n - 1] == trace[n - 1];
    if i < n - 1 {
      assert !RunOf(trace, n - 1, signal);
      LastRunIs(trace, signal, i, n - 1);
    }
  }

  /** The call before an execution saw the same counter. */
  lemma CallBeforeRun(trace: seq<Step>, rules: Rules, j: nat)
    requires Lawful(trace, rules) && j < |trace| && trace[j].Ran?
    ensures j > 0 && trace[j - 1] == Called(trace[j].signal, trace[j].time, true)
    ensures rules.max > 0 ==>
      trace[j].attempt == LiveAttempts(trace[..j - 1], trace[j].signal, rules, trace[j].time) + 1
  {
    assert Allowed(trace[..j], trace[j], rules);
    assert trace[..j][..j - 1] == trace[..j - 1];
  }

  /** No attempt counter ever exceeds the limit. */
  lemma AttemptsBounded(trace: seq<Step>, rules: Rules, j: nat)
    requires Lawful(trace, rules) && rules.max > 0 && j < |trace| && trace[j].Ran?
    ensures 1 <= trace[j].attempt <= rules.max
  {
    CallBeforeRun(trace, rules, j);
    assert Allowed(trace[..j - 1], trace[j - 1], rules);
  }

  /**
   After the last permitted attempt, no call and no execution for the signal until strictly more than 12 windows
   later.
   */
  lemma {:induction false} BreakerHolds(trace: seq<Step>, rules: Rules, i: nat, j: nat)
    requires Lawful(trace, rules) && rules.max > 0 && i < j < |trace|
    requires trace[i].Ran? && trace[i].attempt == rules.max
    requires trace[j].signal == trace[i].signal && (trace[j].Called? || trace[j].Ran?)
    ensures trace[j].time > trace[i].time + 12 * rules.ttl
    decreases j
  {
    var signal := trace[i].signal;
    if trace[j].Ran? {
      CallBeforeRun(trace, rules, j);
      BreakerHolds(trace, rules, i, j - 1);
    } else if forall k :: i < k < j ==> !RunOf(trace, k, signal) {
      LastRunIs(trace, signal, i, j);
      assert Allowed(trace[..j], trace[j], rules);
    } else {
      var k :| i < k < j && RunOf(trace, k, signal);
      BreakerHolds(trace, rules, i, k);
      TimesIncrease(trace, rules, k, j);
    }
  }

  /** After the last permitted attempt the signal trips up to 12 windows later, and is asked about from then on. */
  lemma BreakerReopensExactly(trace: seq<Step>, rules: Rules, i: nat, j: nat)
    requires Lawful(trace, rules) && rules.max > 0 && i < j < |trace|
    requires trace[i].Ran? && trace[i].attempt == rules.max && trace[j].signal == trace[i].signal
    requires forall k :: i < k < j ==> !RunOf(trace, k, trace[i].signal)
    requires trace[j].Called? || trace[j].Tripped?
    ensures trace[j].Tripped? <==> trace[j].time <= trace[i].time + 12 * rules.ttl
  {
    LastRunIs(trace, trace[i].signal, i, j);
    assert Allowed(trace[..j], trace[j], rules);
  }

  /** An open signal never gets stuck: either a call or a trip may follow, and never both. */
  lemma BreakerDecides(trace: seq<Step>, rules: Rules, signal: string, t: int, answered: bool)
    requires Lawful(trace, rules) && rules.max > 0 && LastRun(trace, signal).Some?
    requires trace[|trace| - 1].time <= t && !Closed(trace, signal, rules, t)
    ensures Lawful(trace + [Called(signal, t, answered)], rules)
       <==> !Lawful(trace + [Tripped(signal, t, LiveAttempts(trace, signal, rules, t))], rules)
  {
    hide Closed, LiveAttempts, LastRun;
    var call, trip := Called(signal, t, answered), Tripped(signal, t, LiveAttempts(trace, signal, rules, t));
    AllowedNext(trace, rules, call);
    AllowedNext(trace, rules, trip);
  }

  lemma AllowedNext(trace: seq<Step>, rules: Rules, step: Step)
    requires Lawful(trace, rules)
    ensures Lawful(trace + [step], rules) <==> Allowed(trace, step, rules)
  {
    hide Allowed;
    if Lawful(trace + [step], rules) {
      assert (trace + [step])[..|trace|] == trace;
      assert Allowed((trace + [step])[..|trace|], (trace + [step])[|trace|], rules);
    } else if Allowed(trace, step, rules) {
      LawfulExtends(trace, rules, step);
    }
  }

  /** The breaker trips at its limit, never beyond. */
  lemma TripsAtLimit(trace: seq<Step>, rules: Rules, j: nat)
    requires Lawful(trace, rules) && j < |trace| && trace[j].Tripped?
    ensures rules.max > 0 && trace[j].attempts == rules.max
  {
    assert Allowed(trace[..j], trace[j], rules);
    var m := LastRunIndex(trace, trace[j].signal, j);
    AttemptsBounded(trace, rules, m);
  }

  /** A trip parks its signal for the maximum of 8 windows exactly when the limit is at least 3. */
  lemma ParkIsMaximal(trace: seq<Step>, rules: Rules, j: nat)
    requires Lawful(trace, rules) && j < |trace| && trace[j].Tripped?
    ensures Until(trace[j], rules) == Some(trace[j].time + rules.ttl * Factor(rules.max + 1))
    ensures Until(trace[j], rules) == Some(trace[j].time + rules.ttl * 8) <==> rules.max >= 3
  {
    hide WindowEnd, LastRun, Allowed;
    TripsAtLimit(trace, rules, j);
    var f := Factor(rules.max + 1);
    if f < 8 {
      TtlStrict(rules.ttl, f, 8);
    }
  }

  lemma TtlStrict(ttl: int, a: int, b: int)
    requires ttl > 0 && a < b
    ensures ttl * a < ttl * b
  {
  }

  /**
   With a limit of 1 the park takes 2 windows; and although the incident recurred 2 windows before, the breaker
   reopens.
   */
  lemma ShortParkAndEarlyReopening(signal: string, ttl: int)
    requires ttl > 0
    ensures var rules := Rules(ttl, 1);
      var trace := [Called(signal, 0, true), Ran(signal, 0, 1, true), Tripped(signal, 12 * ttl, 1),
                    Called(signal, 14 * ttl, true)];
      Lawful(trace, rules) && Until(trace[2], rules) == Some(12 * ttl + 2 * ttl)
  {
    hide WindowEnd, LastRun, Lawful, Allowed, Until;
    var rules := Rules(ttl, 1);
    var c0, r0 := Called(signal, 0, true), Ran(signal, 0, 1, true);
    var t, c1 := Tripped(signal, 12 * ttl, 1), Called(signal, 14 * ttl, true);
    NothingBefore(signal, rules);
    FirstWindows(signal, ttl);
    var one := [] + [c0];
    Decided([], c0, rules, None, None);
    LawfulExtends([], rules, c0);
    Grown([], c0, signal, rules);
    var two := one + [r0];
    Decided(one, r0, rules, None, None);
    LawfulExtends(one, rules, r0);
    Grown(one, r0, signal, rules);
    var three := two + [t];
    Decided(two, t, rules, Some(ttl), Some(r0));
    LawfulExtends(two, rules, t);
    Grown(two, t, signal, rules);
    Decided(three, c1, rules, Some(14 * ttl), Some(r0));
    LawfulExtends(three, rules, c1);
    assert three + [c1] == [c0, r0, t, c1];
  }

  lemma FirstWindows(signal: string, ttl: int)
    ensures Until(Ran(signal, 0, 1, true), Rules(ttl, 1)) == Some(ttl)
    ensures Until(Tripped(signal, 12 * ttl, 1), Rules(ttl, 1)) == Some(14 * ttl)
  {
    assert Factor(1) == 1 && Factor(2) == 2;
  }

  /** Whether a step may follow depends on the signal's window and last execution only. */
  lemma Decided(trace: seq<Step>, step: Step, rules: Rules, end: Option<int>, last: Option<Step>)
    requires WindowEnd(trace, step.signal, rules) == end && LastRun(trace, step.signal) == last
    requires trace != [] ==> trace[|trace| - 1].time <= step.time
    requires end.Some? ==> end.value <= step.time
    ensures var live: nat :=
        if last.None? || step.time > last.value.time + 12 * rules.ttl then 0 else last.value.attempt;
      Allowed(trace, step, rules) <==>
        match step
        case Called(_, _, _) => rules.max > 0 ==> live < rules.max
        case Tripped(_, _, attempts) => rules.max > 0 && attempts == live >= rules.max
        case Skipped(signal, time) => trace != [] && trace[|trace| - 1] == Called(signal, time, true)
        case Ran(signal, time, attempt, _) =>
          && trace != [] && trace[|trace| - 1] == Called(signal, time, true)
          && attempt == if rules.max > 0 then live + 1 else 1
  {
    hide WindowEnd, LastRun;
  }

  lemma NothingBefore(signal: string, rules: Rules)
    requires rules.ttl > 0
    ensures Lawful([], rules) && WindowEnd([], signal, rules) == None && LastRun([], signal) == None
  {
  }

  // ---- spacing and chains ----------------------------------------------------------------------------

  /**
   Two successive executions of a signal: the gap has grown to the attempt's window, and the count goes on or starts
   over.
   */
  lemma SuccessiveRuns(trace: seq<Step>, rules: Rules, i: nat, j: nat)
    requires Lawful(trace, rules) && i < j < |trace| && trace[i].Ran? && RunOf(trace, j, trace[i].signal)
    requires forall k :: i < k < j ==> !RunOf(trace, k, trace[i].signal)
    ensures trace[j].time >= trace[i].time + rules.ttl * Factor(trace[i].attempt)
    ensures rules.max > 0 && trace[j].time <= trace[i].time + 12 * rules.ttl ==>
      trace[j].attempt == trace[i].attempt + 1
    ensures rules.max > 0 && trace[j].time > trace[i].time + 12 * rules.ttl ==> trace[j].attempt == 1
  {
    SilentUntil(trace, rules, i, j);
    LastRunIs(trace, trace[i].signal, i, j);
    assert Allowed(trace[..j], trace[j], rules);
  }

  /** Any two executions of a signal are at least one base window apart, so a poll executes it at most once. */
  lemma RunsAreApart(trace: seq<Step>, rules: Rules, i: nat, j: nat)
    requires Lawful(trace, rules) && i < j < |trace| && trace[i].Ran? && RunOf(trace, j, trace[i].signal)
    ensures trace[j].time >= trace[i].time + rules.ttl > trace[i].time
  {
    SilentUntil(trace, rules, i, j);
    LaterThanItself(trace[i], rules);
  }

  /** Since no window exceeds 8 of the 12, a recurrence up to 4 windows after its end always continues the chain. */
  lemma RecurrenceContinues(trace: seq<Step>, rules: Rules, i: nat, j: nat)
    requires Lawful(trace, rules) && rules.max > 0
    requires i < j < |trace| && trace[i].Ran? && RunOf(trace, j, trace[i].signal)
    requires forall k :: i < k < j ==> !RunOf(trace, k, trace[i].signal)
    requires trace[j].time <= Until(trace[i], rules).value + 4 * rules.ttl
    ensures trace[j].attempt == trace[i].attempt + 1
  {
    hide Allowed, WindowEnd, LastRun, LiveAttempts, Closed, Factor;
    SuccessiveRuns(trace, rules, i, j);
    TtlMonotone(rules.ttl, Factor(trace[i].attempt), 8);
  }

  /** The number of executions of a signal at positions lo to hi-1. */
  function Runs(trace: seq<Step>, signal: string, lo: nat, hi: nat): nat
    requires lo <= hi <= |trace|
    decreases hi - lo
  {
    if lo == hi then 0 else Runs(trace, signal, lo, hi - 1) + if RunOf(trace, hi - 1, signal) then 1 else 0
  }

  /** The windows that separate the k-th attempt of a chain from the first. */
  function Span(k: nat): nat
  {
    if k <= 1 then 0 else Span(k - 1) + Factor(k - 1)
  }

  function Pow2(n: nat): nat
  {
    if n == 0 then 1 else 2 * Pow2(n - 1)
  }

  /** 0, 1, 3, 7, 15 windows, then 8 more each time. */
  lemma {:induction false} SpanClosedForm(k: nat)
    requires k >= 1
    ensures k <= 5 ==> Span(k) == Pow2(k - 1) - 1
    ensures k >= 5 ==> Span(k) == 15 + 8 * (k - 5)
  {
    if k > 1 {
      SpanClosedForm(k - 1);
      if k <= 5 {
        assert Pow2(0) == 1 && Pow2(1) == 2 && Pow2(2) == 4 && Pow2(3) == 8 && Pow2(4) == 16;
      }
    }
  }

  /** The chain of an execution: it starts with attempt 1, counts every execution since, and took at least its span. */
  ghost predicate ChainFrom(trace: seq<Step>, rules: Rules, start: nat, j: nat)
    requires start <= j < |trace| && trace[j].Ran?
  {
    && RunOf(trace, start, trace[j].signal) && trace[start].attempt == 1
    && Runs(trace, trace[j].signal, start, j + 1) == trace[j].attempt
    && trace[j].time >= trace[start].time + rules.ttl * Span(trace[j].attempt)
  }

  /** Every execution belongs to such a chain, so executions split into chains of at most max. */
  lemma {:induction false} EveryRunHasItsChain(trace: seq<Step>, rules: Rules, j: nat)
    requires Lawful(trace, rules) && rules.max > 0 && j < |trace| && trace[j].Ran?
    ensures exists start: nat :: start <= j && ChainFrom(trace, rules, start, j)
    decreases j
  {
    hide WindowEnd, LastRun, Closed, Factor;
    var signal, k := trace[j].signal, trace[j].attempt;
    AttemptsBounded(trace, rules, j);
    if k == 1 {
      assert Runs(trace, signal, j, j) == 0;
      assert ChainFrom(trace, rules, j, j);
    } else {
      assert Allowed(trace[..j], trace[j], rules);
      var i := LastRunIndex(trace, signal, j);
      SuccessiveRuns(trace, rules, i, j);
      EveryRunHasItsChain(trace, rules, i);
      var start: nat :| start <= i && ChainFrom(trace, rules, start, i);
      ChainGrows(trace, rules, start, i, j);
    }
  }

  lemma ChainGrows(trace: seq<Step>, rules: Rules, start: nat, i: nat, j: nat)
    requires start <= i < j < |trace| && trace[i].Ran? && RunOf(trace, j, trace[i].signal)
    requires forall k :: i < k < j ==> !RunOf(trace, k, trace[i].signal)
    requires ChainFrom(trace, rules, start, i) && trace[j].attempt == trace[i].attempt + 1 >= 2
    requires trace[j].time >= trace[i].time + rules.ttl * Factor(trace[i].attempt)
    ensures ChainFrom(trace, rules, start, j)
  {
    NoRunsBetween(trace, trace[j].signal, start, i + 1, j);
    TtlAdds(rules.ttl, Span(trace[i].attempt), Factor(trace[i].attempt));
  }

  lemma TtlAdds(ttl: int, a: int, b: int)
    ensures ttl * (a + b) == ttl * a + ttl * b
  {
  }

  lemma {:induction false} NoRunsBetween(trace: seq<Step>, signal: string, lo: nat, mid: nat, hi: nat)
    requires lo <= mid <= hi <= |trace|
    requires forall k :: mid <= k < hi ==> !RunOf(trace, k, signal)
    ensures Runs(trace, signal, lo, hi) == Runs(trace, signal, lo, mid)
    decreases hi - mid
  {
    if mid < hi {
      NoRunsBetween(trace, signal, lo, mid, hi - 1);
    }
  }

  /** Within 12 windows the counter counts: executions up to that distance apart belong to one chain. */
  lemma {:induction false} CounterCounts(trace: seq<Step>, rules: Rules, i: nat, j: nat)
    requires Lawful(trace, rules) && rules.max > 0
    requires i <= j < |trace| && trace[i].Ran? && RunOf(trace, j, trace[i].signal)
    requires trace[j].time <= trace[i].time + 12 * rules.ttl
    ensures trace[j].attempt + 1 == trace[i].attempt + Runs(trace, trace[i].signal, i, j + 1)
    decreases j
  {
    hide Allowed, WindowEnd, Closed, LiveAttempts, Factor, LastRun;
    var signal := trace[i].signal;
    if i == j {
      assert Runs(trace, signal, i, i) == 0;
    } else {
      SomeRunBefore(trace, signal, i, j);
      var m := LastRunIndex(trace, signal, j);
      TimesIncrease(trace, rules, i, m);
      TimesIncrease(trace, rules, m, j);
      CounterCounts(trace, rules, i, m);
      SuccessiveRuns(trace, rules, m, j);
      NoRunsBetween(trace, signal, i, m + 1, j);
    }
  }

  lemma {:induction false} SomeRunBefore(trace: seq<Step>, signal: string, i: nat, n: nat)
    requires i < n <= |trace| && RunOf(trace, i, signal)
    ensures LastRun(trace[..n], signal).Some?
    ensures forall m: nat ::
      m < n && trace[m] == LastRun(trace[..n], signal).value && (forall k :: m < k < n ==> !RunOf(trace, k, signal))
      ==> i <= m
    decreases n
  {
    assert trace[..n][..n - 1] == trace[..n - 1];
    if i < n - 1 {
      SomeRunBefore(trace, signal, i, n - 1);
    }
  }

  /** The count of executions is the number of places where the signal was executed. */
  lemma {:induction false} RunsCounted(trace: seq<Step>, signal: string, lo: nat, hi: nat)
    requires lo <= hi <= |trace|
    ensures Runs(trace, signal, lo, hi) == |set k | lo <= k < hi && trace[k].Ran? && trace[k].signal == signal|
    decreases hi - lo
  {
    var places := set k | lo <= k < hi && trace[k].Ran? && trace[k].signal == signal;
    if lo == hi {
      assert places == {};
    } else {
      RunsCounted(trace, signal, lo, hi - 1);
      var before := set k | lo <= k < hi - 1 && trace[k].Ran? && trace[k].signal == signal;
      assert places == before + if RunOf(trace, hi - 1, signal) then {hi - 1} else {};
    }
  }

  /** No stretch of 12 windows ever holds more than max executions of a signal. */
  lemma RateBound(trace: seq<Step>, rules: Rules, i: nat, j: nat)
    requires Lawful(trace, rules) && rules.max > 0
    requires i <= j < |trace| && trace[i].Ran? && RunOf(trace, j, trace[i].signal)
    requires trace[j].time <= trace[i].time + 12 * rules.ttl
    ensures Runs(trace, trace[i].signal, i, j + 1) <= rules.max
    ensures |set k | i <= k <= j && trace[k].Ran? && trace[k].signal == trace[i].signal| <= rules.max
  {
    RunsCounted(trace, trace[i].signal, i, j + 1);
    assert (set k | i <= k <= j && trace[k].Ran? && trace[k].signal == trace[i].signal)
        == (set k | i <= k < j + 1 && trace[k].Ran? && trace[k].signal == trace[i].signal);
    AttemptsBounded(trace, rules, i);
    AttemptsBounded(trace, rules, j);
    CounterCounts(trace, rules, i, j);
  }
}
