/**
 The dedup store as a value: what each operation answers and leaves behind, and
 what whole histories of operations mean.
 */
module DedupSpec {
  import opened Results

  /** One signal's remediation attempts. */
  datatype AttemptEntry = AttemptEntry(count: nat, expires: int)

  /** The three maps; each has its own convention for when an entry is over. */
  datatype Store = Store(
    seen: map<string, int>,                 // key -> time of marking, over only once evicted
    signalExpiry: map<string, int>,         // signal -> first instant at which it is over
    attempts: map<string, AttemptEntry>)    // signal -> counter, alive up to and including `expires`

  const EMPTY := Store(map[], map[], map[])

  // ---- single operations -------------------------------------------------------

  predicate Fresh(s: Store, signal: string, now: int)
  {
    signal in s.signalExpiry && now < s.signalExpiry[signal]
  }

  function AttemptCount(s: Store, signal: string, now: int): nat
  {
    if signal !in s.attempts || now > s.attempts[signal].expires then 0 else s.attempts[signal].count
  }

  function WithSeen(s: Store, key: string, now: int): Store
  {
    if key in s.seen then s else s.(seen := s.seen[key := now])
  }

  function WithSignal(s: Store, signal: string, now: int, ttl: int): Store
  {
    s.(signalExpiry := s.signalExpiry[signal := now + ttl])
  }

  function WithAttempt(s: Store, signal: string, now: int, window: int): Store
  {
    s.(attempts := s.attempts[signal := AttemptEntry(AttemptCount(s, signal, now) + 1, now + window)])
  }

  function Evicted(s: Store, now: int, seenTTL: int): Store
  {
    Store(
      map key | key in s.seen && now - s.seen[key] < seenTTL :: s.seen[key],
      map signal | signal in s.signalExpiry && now < s.signalExpiry[signal] :: s.signalExpiry[signal],
      map signal | signal in s.attempts && now <= s.attempts[signal].expires :: s.attempts[signal])
  }

  // ---- histories -----------------------------------------------------------------

  datatype Op =
    | MarkSeen(key: string, now: int)
    | IsSignalFresh(signal: string, now: int)
    | MarkSignal(signal: string, now: int, ttl: int)
    | Attempts(signal: string, now: int)
    | IncrAttempt(signal: string, now: int, window: int)
    | Evict(now: int, seenTTL: int)

  datatype Answer = Flag(holds: bool) | Count(count: nat) | Done

  function After(s: Store, op: Op): Store
  {
    match op
    case MarkSeen(key, now) => WithSeen(s, key, now)
    case MarkSignal(signal, now, ttl) => WithSignal(s, signal, now, ttl)
    case IncrAttempt(signal, now, window) => WithAttempt(s, signal, now, window)
    case Evict(now, seenTTL) => Evicted(s, now, seenTTL)
    case IsSignalFresh(_, _) => s
    case Attempts(_, _) => s
  }

  function AnswerOf(s: Store, op: Op): Answer
  {
    match op
    case MarkSeen(key, _) => Flag(key !in s.seen)
    case IsSignalFresh(signal, now) => Flag(Fresh(s, signal, now))
    case Attempts(signal, now) => Count(AttemptCount(s, signal, now))
    case IncrAttempt(signal, now, _) => Count(AttemptCount(s, signal, now) + 1)
    case MarkSignal(_, _, _) => Done
    case Evict(_, _) => Done
  }

  /** The store after a history, oldest operation first. */
  function AfterAll(s: Store, ops: seq<Op>): Store
  {
    if ops == [] then s else After(AfterAll(s, ops[..|ops| - 1]), ops[|ops| - 1])
  }

  /** The clock never runs backwards. */
  ghost predicate Ordered(ops: seq<Op>)
  {
    forall i, j :: 0 <= i <= j < |ops| ==> ops[i].now <= ops[j].now
  }

  // ---- what the attempt counter counts -------------------------------------------

  /** The times of the increments of one signal, in order. */
  function Increments(ops: seq<Op>, signal: string): seq<int>
  {
    if ops == [] then []
    else
      var last := ops[|ops| - 1];
      var front := Increments(ops[..|ops| - 1], signal);
      if last.IncrAttempt? && last.signal == signal then front + [last.now] else front
  }

  /** The last k increments follow each other within the window, up to the reading at time t. */
  ghost predicate LiveRun(times: seq<int>, window: int, t: int, k: nat)
  {
    && k <= |times|
    && (k > 0 ==> t - times[|times| - 1] <= window)
    && forall i :: |times| - k < i < |times| ==> times[i] - times[i - 1] <= window
  }

  /** n is the length of the longest live run. */
  ghost predicate LongestLiveRun(times: seq<int>, window: int, t: int, n: nat)
  {
    LiveRun(times, window, t, n) && forall k: nat :: LiveRun(times, window, t, k) ==> k <= n
  }

  ghost predicate ConstantWindow(ops: seq<Op>, signal: string, window: int)
  {
    forall op :: op in ops && op.IncrAttempt? && op.signal == signal ==> op.window == window
  }

  /** The stored entry describes the longest run ending in the last increment, or has lapsed by `clock`. */
  ghost predicate CounterAgrees(s: Store, signal: string, times: seq<int>, window: int, clock: int)
  {
    if times == [] then signal !in s.attempts
    else
      var last := times[|times| - 1];
      if signal in s.attempts then
        s.attempts[signal].expires == last + window && LongestLiveRun(times, window, last, s.attempts[signal].count)
      else last + window < clock
  }

  /**
   Read at time t, the counter is the longest run of increments whose gaps, and the gap to t, are within the window.
   */
  lemma CounterMeaning(ops: seq<Op>, signal: string, window: int, t: int)
    requires Ordered(ops) && ConstantWindow(ops, signal, window) && window >= 0
    requires ops != [] ==> ops[|ops| - 1].now <= t
    ensures LongestLiveRun(Increments(ops, signal), window, t, AttemptCount(AfterAll(EMPTY, ops), signal, t))
  {
    var times := Increments(ops, signal);
    var s := AfterAll(EMPTY, ops);
    CounterInvariant(ops, signal, window, t);
    ReadAgreeing(s, signal, times, window, t);
  }

  lemma {:induction false} CounterInvariant(ops: seq<Op>, signal: string, window: int, clock: int)
    requires Ordered(ops) && ConstantWindow(ops, signal, window) && window >= 0
    requires ops != [] ==> ops[|ops| - 1].now <= clock
    ensures CounterAgrees(AfterAll(EMPTY, ops), signal, Increments(ops, signal), window, clock)
  {
    if ops != [] {
      var front, op := ops[..|ops| - 1], ops[|ops| - 1];
      assert front != [] ==> front[|front| - 1] == ops[|ops| - 2];
      CounterInvariant(front, signal, window, op.now);
      var s, times := AfterAll(EMPTY, front), Increments(front, signal);
      if op.IncrAttempt? && op.signal == signal {
        assert op in ops;
        ReadAgreeing(s, signal, times, window, op.now);
        RunGrows(times, window, op.now, AttemptCount(s, signal, op.now));
      }
    }
  }

  /** Reading an agreeing store gives the longest live run. */
  lemma ReadAgreeing(s: Store, signal: string, times: seq<int>, window: int, t: int)
    requires window >= 0 && CounterAgrees(s, signal, times, window, t)
    ensures LongestLiveRun(times, window, t, AttemptCount(s, signal, t))
  {
    if times != [] {
      var last := times[|times| - 1];
      if signal in s.attempts && t <= last + window {
        forall k: nat | LiveRun(times, window, t, k)
          ensures LiveRun(times, window, last, k)
        {
        }
      }
    }
  }

  /** One more increment at time t extends the run that was live at t. */
  lemma RunGrows(times: seq<int>, window: int, t: int, n: nat)
    requires window >= 0 && LongestLiveRun(times, window, t, n)
    ensures LongestLiveRun(times + [t], window, t, n + 1)
  {
    var more := times + [t];
    assert LiveRun(more, window, t, n + 1);
    forall k: nat | LiveRun(more, window, t, k)
      ensures k <= n + 1
    {
      if k > 1 {
        assert more[|more| - 1] - more[|more| - 2] <= window;
        assert forall i :: |times| - (k - 1) < i < |times| ==>
          times[i] - times[i - 1] == more[i] - more[i - 1] <= window;
        assert LiveRun(times, window, t, k - 1);
      }
    }
  }

  // ---- eviction is invisible --------------------------------------------------------

  /** From time t on the two stores cannot be told apart by signals and counters. */
  ghost predicate SameFrom(s1: Store, s2: Store, t: int)
  {
    && (forall signal: string :: LiveWindow(s1, signal, t) == LiveWindow(s2, signal, t))
    && (forall signal: string :: LiveCounter(s1, signal, t) == LiveCounter(s2, signal, t))
  }

  function LiveWindow(s: Store, signal: string, t: int): Option<int>
  {
    if Fresh(s, signal, t) then Some(s.signalExpiry[signal]) else None
  }

  function LiveCounter(s: Store, signal: string, t: int): Option<AttemptEntry>
  {
    if signal in s.attempts && t <= s.attempts[signal].expires then Some(s.attempts[signal]) else None
  }

  lemma SameLater(s1: Store, s2: Store, t: int, later: int)
    requires SameFrom(s1, s2, t) && t <= later
    ensures SameFrom(s1, s2, later)
  {
    forall signal: string
      ensures LiveWindow(s1, signal, later) == LiveWindow(s2, signal, later)
      ensures LiveCounter(s1, signal, later) == LiveCounter(s2, signal, later)
    {
      assert LiveWindow(s1, signal, t) == LiveWindow(s2, signal, t);
      assert LiveCounter(s1, signal, t) == LiveCounter(s2, signal, t);
    }
  }

  /** One operation keeps two such stores alike and is answered alike. */
  lemma SameStep(s1: Store, s2: Store, op: Op)
    requires SameFrom(s1, s2, op.now)
    ensures SameFrom(After(s1, op), After(s2, op), op.now)
    ensures !op.MarkSeen? ==> AnswerOf(s1, op) == AnswerOf(s2, op)
  {
    var t := op.now;
    if op.IsSignalFresh? || op.Attempts? || op.IncrAttempt? {
      assert LiveWindow(s1, op.signal, t) == LiveWindow(s2, op.signal, t);
      assert LiveCounter(s1, op.signal, t) == LiveCounter(s2, op.signal, t);
      assert AttemptCount(s1, op.signal, t) == AttemptCount(s2, op.signal, t);
    }
    forall signal: string
      ensures LiveWindow(After(s1, op), signal, t) == LiveWindow(After(s2, op), signal, t)
      ensures LiveCounter(After(s1, op), signal, t) == LiveCounter(After(s2, op), signal, t)
    {
      assert LiveWindow(s1, signal, t) == LiveWindow(s2, signal, t);
      assert LiveCounter(s1, signal, t) == LiveCounter(s2, signal, t);
    }
  }

  /** An eviction inserted between `past` and `future`. */
  lemma {:induction false} EvictionLeavesSame(s: Store, past: seq<Op>, evict: Op, future: seq<Op>)
    requires evict.Evict? && Ordered([evict] + future)
    ensures SameFrom(AfterAll(AfterAll(s, past), future), AfterAll(After(AfterAll(s, past), evict), future),
                     if future == [] then evict.now else future[|future| - 1].now)
  {
    var s1 := AfterAll(s, past);
    var s2 := After(s1, evict);
    if future == [] {
      forall signal: string
        ensures LiveWindow(s1, signal, evict.now) == LiveWindow(s2, signal, evict.now)
        ensures LiveCounter(s1, signal, evict.now) == LiveCounter(s2, signal, evict.now)
      {
      }
    } else {
      var front, op := future[..|future| - 1], future[|future| - 1];
      var all := [evict] + future;
      assert ([evict] + front) == all[..|future|];
      EvictionLeavesSame(s, past, evict, front);
      assert all[|all| - 1] == op && all[|all| - 2] == if front == [] then evict else front[|front| - 1];
      SameLater(AfterAll(s1, front), AfterAll(s2, front),
                if front == [] then evict.now else front[|front| - 1].now, op.now);
      SameStep(AfterAll(s1, front), AfterAll(s2, front), op);
    }
  }

  /** An Evict at any moment never changes a later answer of IsSignalFresh, Attempts or IncrAttempt. */
  lemma EvictionIsInvisible(s: Store, past: seq<Op>, evict: Op, between: seq<Op>, op: Op)
    requires evict.Evict? && Ordered([evict] + between + [op]) && !op.MarkSeen?
    ensures AnswerOf(AfterAll(AfterAll(s, past), between), op)
         == AnswerOf(AfterAll(After(AfterAll(s, past), evict), between), op)
  {
    var all := [evict] + between + [op];
    assert [evict] + between == all[..|all| - 1];
    EvictionLeavesSame(s, past, evict, between);
    assert all[|all| - 1] == op && all[|all| - 2] == if between == [] then evict else between[|between| - 1];
    var s1 := AfterAll(AfterAll(s, past), between);
    var s2 := AfterAll(After(AfterAll(s, past), evict), between);
    SameLater(s1, s2, if between == [] then evict.now else between[|between| - 1].now, op.now);
    SameStep(s1, s2, op);
  }

  // ---- seen keys against a store with native expiry ------------------------------------

  /** A Redis-like key space: a key is there until its expiry, set when it was written. */
  predicate Present(native: map<string, int>, key: string, now: int)
  {
    key in native && now < native[key]
  }

  /** SET NX EX: writes the key with an expiry unless it is present. */
  function SetNX(native: map<string, int>, key: string, now: int, ttl: int): (map<string, int>, bool)
  {
    if Present(native, key, now) then (native, false) else (native[key := now + ttl], true)
  }

  /** The keys one poll tries to mark, all at the poll's own time. */
  datatype SeenPoll = SeenPoll(now: int, keys: seq<string>)

  /** MarkSeen on every key of the list in turn: the store left behind and the answers. */
  function MarkAll(s: Store, keys: seq<string>, now: int): (Store, seq<bool>)
  {
    if keys == [] then (s, [])
    else
      var (front, answers) := MarkAll(s, keys[..|keys| - 1], now);
      var key := keys[|keys| - 1];
      (WithSeen(front, key, now), answers + [key !in front.seen])
  }

  function SetAll(native: map<string, int>, keys: seq<string>, now: int, ttl: int): (map<string, int>, seq<bool>)
  {
    if keys == [] then (native, [])
    else
      var (front, answers) := SetAll(native, keys[..|keys| - 1], now, ttl);
      var (next, added) := SetNX(front, keys[|keys| - 1], now, ttl);
      (next, answers + [added])
  }

  /** Every poll evicts first, then marks; one list of answers per poll. */
  function SeenPolls(s: Store, polls: seq<SeenPoll>, ttl: int): (Store, seq<seq<bool>>)
  {
    if polls == [] then (s, [])
    else
      var (front, answers) := SeenPolls(s, polls[..|polls| - 1], ttl);
      var poll := polls[|polls| - 1];
      var (next, marks) := MarkAll(Evicted(front, poll.now, ttl), poll.keys, poll.now);
      (next, answers + [marks])
  }

  function NativePolls(native: map<string, int>, polls: seq<SeenPoll>, ttl: int): (map<string, int>, seq<seq<bool>>)
  {
    if polls == [] then (native, [])
    else
      var (front, answers) := NativePolls(native, polls[..|polls| - 1], ttl);
      var poll := polls[|polls| - 1];
      var (next, marks) := SetAll(front, poll.keys, poll.now, ttl);
      (next, answers + [marks])
  }

  /** Every key in memory carries the native expiry, counted from its marking. */
  ghost predicate SeenRefines(s: Store, native: map<string, int>, ttl: int)
  {
    forall key: string :: key in s.seen ==> key in native && native[key] == s.seen[key] + ttl
  }

  /** Keys the native store still holds at `now` are in memory too. */
  ghost predicate NativeCovered(s: Store, native: map<string, int>, now: int)
  {
    forall key: string :: Present(native, key, now) ==> key in s.seen
  }

  lemma {:induction false} MarkAllRefines(s: Store, native: map<string, int>, keys: seq<string>, now: int, ttl: int)
    requires ttl > 0 && SeenRefines(s, native, ttl) && NativeCovered(s, native, now)
    requires forall key :: key in s.seen ==> now - s.seen[key] < ttl
    ensures MarkAll(s, keys, now).1 == SetAll(native, keys, now, ttl).1
    ensures SeenRefines(MarkAll(s, keys, now).0, SetAll(native, keys, now, ttl).0, ttl)
    ensures NativeCovered(MarkAll(s, keys, now).0, SetAll(native, keys, now, ttl).0, now)
    ensures forall key :: key in MarkAll(s, keys, now).0.seen ==> now - MarkAll(s, keys, now).0.seen[key] < ttl
  {
    if keys != [] {
      MarkAllRefines(s, native, keys[..|keys| - 1], now, ttl);
      var front := MarkAll(s, keys[..|keys| - 1], now).0;
      var nativeFront := SetAll(native, keys[..|keys| - 1], now, ttl).0;
      var key := keys[|keys| - 1];
      assert key in front.seen <==> Present(nativeFront, key, now);
    }
  }

  /** With Evict run first in every poll, MarkSeen answers exactly as SET NX EX does, although it ignores its ttl. */
  lemma {:induction false} SeenRefinesNativeExpiry(polls: seq<SeenPoll>, ttl: int)
    requires ttl > 0
    requires forall i, j :: 0 <= i <= j < |polls| ==> polls[i].now <= polls[j].now
    ensures SeenPolls(EMPTY, polls, ttl).1 == NativePolls(map[], polls, ttl).1
    ensures SeenRefines(SeenPolls(EMPTY, polls, ttl).0, NativePolls(map[], polls, ttl).0, ttl)
    ensures polls != [] ==>
              NativeCovered(SeenPolls(EMPTY, polls, ttl).0, NativePolls(map[], polls, ttl).0, polls[|polls| - 1].now)
    ensures polls == [] ==> NativePolls(map[], polls, ttl).0 == map[]
  {
    if polls != [] {
      var front, poll := polls[..|polls| - 1], polls[|polls| - 1];
      SeenRefinesNativeExpiry(front, ttl);
      var s := SeenPolls(EMPTY, front, ttl).0;
      var native := NativePolls(map[], front, ttl).0;
      assert front != [] ==> front[|front| - 1].now <= poll.now;
      MarkAllRefines(Evicted(s, poll.now, ttl), native, poll.keys, poll.now, ttl);
    }
  }

  /** Without the eviction a key counts as seen for good: the two agree about it exactly until its ttl is over. */
  lemma UnevictedKeyStaysSeen(s: Store, native: map<string, int>, key: string, marked: int, now: int, ttl: int)
    requires key !in s.seen && key !in native && marked <= now
    ensures var here, there := AnswerOf(After(s, MarkSeen(key, marked)), MarkSeen(key, now)),
                               SetNX(SetNX(native, key, marked, ttl).0, key, now, ttl).1;
      here == Flag(false) && (here == Flag(there) <==> now < marked + ttl)
  {
  }
}
