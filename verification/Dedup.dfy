/** The in-memory dedup store: three maps updated in place. */
module Dedup {
  import opened DedupSpec

  class MemoryStore {
    var seen: map<string, int>
    var signalExpiry: map<string, int>
    var attempts: map<string, AttemptEntry>

    function View(): Store
      reads this
    {
      Store(seen, signalExpiry, attempts)
    }

    constructor ()
      ensures View() == EMPTY
    {
      seen, signalExpiry, attempts := map[], map[], map[];
    }

    method MarkSeen(key: string, now: int, ttl: int) returns (added: bool)
      modifies this
      ensures View() == After(old(View()), Op.MarkSeen(key, now))
      ensures Flag(added) == AnswerOf(old(View()), Op.MarkSeen(key, now))
    {
      if key in seen {
        return false;
      }
      seen := seen[key := now];
      return true;
    }

    method IsSignalFresh(signal: string, now: int, ttl: int) returns (live: bool)
      ensures Flag(live) == AnswerOf(View(), Op.IsSignalFresh(signal, now))
    {
      live := signal in signalExpiry && now < signalExpiry[signal];
    }

    method MarkSignal(signal: string, now: int, ttl: int)
      modifies this
      ensures View() == After(old(View()), Op.MarkSignal(signal, now, ttl))
    {
      signalExpiry := signalExpiry[signal := now + ttl];
    }

    method Attempts(signal: string, now: int) returns (count: nat)
      ensures Count(count) == AnswerOf(View(), Op.Attempts(signal, now))
    {
      if signal !in attempts || now > attempts[signal].expires {
        return 0;
      }
      return attempts[signal].count;
    }

    method IncrAttempt(signal: string, now: int, window: int) returns (count: nat)
      modifies this
      ensures View() == After(old(View()), Op.IncrAttempt(signal, now, window))
      ensures Count(count) == AnswerOf(old(View()), Op.IncrAttempt(signal, now, window))
    {
      var entry := AttemptEntry(0, 0);
      if signal in attempts && now <= attempts[signal].expires {
        entry := attempts[signal];
      }
      entry := entry.(count := entry.count + 1);
      entry := entry.(expires := now + window);
      attempts := attempts[signal := entry];
      return entry.count;
    }

    /** The maps are walked in any order, deleting while walking. */
    method Evict(now: int, signalTTL: int, seenTTL: int)
      modifies this
      ensures View() == After(old(View()), Op.Evict(now, seenTTL))
    {
      EvictSignals(now);
      EvictSeen(now, seenTTL);
      EvictAttempts(now);
    }

    method EvictSignals(now: int)
      modifies this`signalExpiry
      ensures signalExpiry == Evicted(old(View()), now, 0).signalExpiry
    {
      var todo := signalExpiry.Keys;
      while todo != {}
        invariant todo <= signalExpiry.Keys <= old(signalExpiry).Keys
        invariant forall k :: k in signalExpiry ==> signalExpiry[k] == old(signalExpiry)[k]
        invariant forall k :: k in old(signalExpiry) && k !in todo ==>
          (k in signalExpiry <==> now < old(signalExpiry)[k])
        decreases todo
      {
        var k :| k in todo;
        todo := todo - {k};
        if now >= signalExpiry[k] {
          signalExpiry := signalExpiry - {k};
        }
      }
    }

    method EvictSeen(now: int, seenTTL: int)
      modifies this`seen
      ensures seen == Evicted(old(View()), now, seenTTL).seen
    {
      var todo := seen.Keys;
      while todo != {}
        invariant todo <= seen.Keys <= old(seen).Keys
        invariant forall k :: k in seen ==> seen[k] == old(seen)[k]
        invariant forall k :: k in old(seen) && k !in todo ==> (k in seen <==> now - old(seen)[k] < seenTTL)
        decreases todo
      {
        var k :| k in todo;
        todo := todo - {k};
        if now - seen[k] >= seenTTL {
          seen := seen - {k};
        }
      }
    }

    method EvictAttempts(now: int)
      modifies this`attempts
      ensures attempts == Evicted(old(View()), now, 0).attempts
    {
      var todo := attempts.Keys;
      while todo != {}
        invariant todo <= attempts.Keys <= old(attempts).Keys
        invariant forall k :: k in attempts ==> attempts[k] == old(attempts)[k]
        invariant forall k :: k in old(attempts) && k !in todo ==> (k in attempts <==> now <= old(attempts)[k].expires)
        decreases todo
      {
        var k :| k in todo;
        todo := todo - {k};
        if now > attempts[k].expires {
          attempts := attempts - {k};
        }
      }
    }
  }
}
