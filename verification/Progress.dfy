/** Runs of many polls: everything in scope is marked in the end. */
module Progress {
  import opened Model
  import opened DedupSpec
  import opened Events
  import opened Journal

  // ---- many polls -------------------------------------------------------------------------------

  /** Polls come in order of time. */
  ghost predicate InOrder(polls: seq<PollInput>, clock: int)
  {
    && (forall i :: 0 <= i < |polls| && polls[i].Listed? ==> clock <= polls[i].now)
    && (forall i, j :: 0 <= i < j < |polls| && polls[i].Listed? && polls[j].Listed? ==> polls[i].now <= polls[j].now)
  }

  lemma NextInOrder(polls: seq<PollInput>, clock: int)
    requires InOrder(polls, clock) && polls != []
    ensures polls[0].Listed? ==> clock <= polls[0].now
    ensures InOrder(polls[1..], if polls[0].Listed? then polls[0].now else clock)
  {
    assert forall i :: 0 <= i < |polls[1..]| ==> polls[1..][i] == polls[i + 1];
  }

  /** The same events keep being listed, time never runs out, and all polls fall into one lifetime of a seen key. */
  ghost predicate Steady(polls: seq<PollInput>, keys: set<string>, cfg: AgentConfig, start: int, seenTTL: int)
  {
    forall i :: 0 <= i < |polls| ==>
      && polls[i].Listed? && start <= polls[i].now < start + seenTTL
      && KeysOf(polls[i].visits, cfg) == keys
      && forall j :: 0 <= j < |polls[i].visits| ==> polls[i].visits[j].timeLeft
  }

  lemma SteadyMeansListed(polls: seq<PollInput>, i: nat, keys: set<string>, cfg: AgentConfig, start: int, seenTTL: int)
    requires Steady(polls, keys, cfg, start, seenTTL) && i < |polls|
    ensures polls[i].Listed?
  {
  }

  /** Everything is marked, or so many polls have marked at least a full cap each. */
  ghost predicate Draining(keys: set<string>, before: set<string>, seen: map<string, int>, start: int, polls: nat,
                           cap: int)
  {
    && (forall key :: key in seen && key in keys ==> seen[key] >= start)
    && (|| keys <= seen.Keys || (cap <= 0 && polls == 0)
        || (cap > 0 && |keys - seen.Keys| + polls * cap <= |keys - before|))
  }

  lemma StartDraining(keys: set<string>, seen: map<string, int>, start: int, cap: int)
    requires forall key :: key in seen && key in keys ==> seen[key] >= start
    ensures Draining(keys, seen.Keys, seen, start, 0, cap)
  {
  }

  lemma EvictionSparesKeys(s: Store, keys: set<string>, now: int, start: int, seenTTL: int)
    requires forall key :: key in s.seen && key in keys ==> s.seen[key] >= start
    requires now < start + seenTTL
    ensures keys - Evicted(s, now, seenTTL).seen.Keys == keys - s.seen.Keys
    ensures forall key :: key in Evicted(s, now, seenTTL).seen ==>
      key in s.seen && Evicted(s, now, seenTTL).seen[key] == s.seen[key]
  {
  }

  /** One more poll of a steady stretch. */
  lemma DrainOn(polls: seq<PollInput>, i: nat, keys: set<string>, cfg: AgentConfig, start: int, seenTTL: int,
                before: set<string>,
                s: Store, stopped: nat, seen: map<string, int>, earlier: seq<Entry>, journal: seq<Entry>, calls: int)
    requires Steady(polls, keys, cfg, start, seenTTL) && i < |polls| && polls[i].Listed?
    requires Draining(keys, before, s.seen, start, i, cfg.maxEventsPerPoll)
    requires StopsAt(polls[i].visits, stopped, cfg, calls)
    requires WalkedTo(polls[i].visits, stopped, polls[i].now, cfg, Evicted(s, polls[i].now, seenTTL).seen, seen,
                      earlier, journal, calls)
    ensures Draining(keys, before, seen, start, i + 1, cfg.maxEventsPerPoll)
  {
    hide InScope, KeyOf, KeysOf, NewOnes, Handled, Evicted;
    var now, visits := polls[i].now, polls[i].visits;
    EvictionSparesKeys(s, keys, now, start, seenTTL);
    EveryPollProgresses(visits, stopped, now, cfg, Evicted(s, now, seenTTL).seen, seen, earlier, journal, calls);
    OneMore(i, cfg.maxEventsPerPoll);
  }

  lemma Drained(keys: set<string>, before: set<string>, seen: map<string, int>, start: int, polls: nat, cap: int)
    requires Draining(keys, before, seen, start, polls, cap)
    requires if cap > 0 then polls * cap >= |keys - before| else polls > 0
    ensures keys <= seen.Keys
  {
    assert keys - seen.Keys == {};
    forall key | key in keys
      ensures key in seen
    {
      assert key in seen || key in keys - seen.Keys;
    }
  }

  lemma OneMore(n: int, c: int)
    ensures (n + 1) * c == n * c + c
  {
  }
}
