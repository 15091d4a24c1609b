/**
 The recent decisions shown on the dashboard: a ring buffer in memory, mirrored
 into a capped newest-first list.
 */
module Decisions {
  import opened Model

  /** How one remediation cycle ended. */
  datatype Outcome = Success | Blocked | Error | Skipped

  datatype DecisionRecord = DecisionRecord(
    time: int,
    namespace: string,
    kind: string,
    name: string,
    eventReason: string,
    action: Action,
    severity: string,
    confidence: real,
    summary: string,
    outcome: Outcome,
    outcomeError: string)

  function Min(a: nat, b: nat): nat
  {
    if a < b then a else b
  }

  /** The last `capacity` of all records, newest first. */
  function NewestFirst<T>(all: seq<T>, capacity: nat): (r: seq<T>)
    ensures |r| == Min(|all|, capacity)
    ensures forall i :: 0 <= i < |r| ==> r[i] == all[|all| - 1 - i]
  {
    seq(Min(|all|, capacity), i requires 0 <= i < |all| => all[|all| - 1 - i])
  }

  /** LPUSH followed by LTRIM 0 capacity-1. */
  function PushFront<T>(list: seq<T>, x: T, capacity: nat): seq<T>
  {
    ([x] + list)[..Min(|list| + 1, capacity)]
  }

  function PushAll<T>(all: seq<T>, capacity: nat): seq<T>
  {
    if all == [] then [] else PushFront(PushAll(all[..|all| - 1], capacity), all[|all| - 1], capacity)
  }

  /** Pushing one more record onto the newest-first view is the newest-first view of one more record. */
  lemma PushFrontIsNewestFirst<T>(all: seq<T>, x: T, capacity: nat)
    ensures PushFront(NewestFirst(all, capacity), x, capacity) == NewestFirst(all + [x], capacity)
  {
  }

  /** The push-and-truncate list always shows the last `capacity` records, newest first. */
  lemma {:induction false} CappedListMeaning<T>(all: seq<T>, capacity: nat)
    ensures PushAll(all, capacity) == NewestFirst(all, capacity)
  {
    if all != [] {
      CappedListMeaning(all[..|all| - 1], capacity);
      PushFrontIsNewestFirst(all[..|all| - 1], all[|all| - 1], capacity);
      assert all[..|all| - 1] + [all[|all| - 1]] == all;
    }
  }

  /** The slot the n-th record goes to: counting up and starting over at c. */
  function Slot(n: nat, c: nat): (s: nat)
    requires c > 0
    ensures s < c && s <= n && (n < c ==> s == n)
  {
    if n == 0 then 0
    else
      var s := Slot(n - 1, c) + 1;
      if s == c then 0 else s
  }

  lemma {:induction false} SlotWraps(n: nat, c: nat)
    requires 0 < c <= n
    ensures Slot(n, c) == Slot(n - c, c)
  {
    if n > c {
      SlotWraps(n - 1, c);
    }
  }

  /** Counting up and starting over is the remainder. */
  lemma {:induction false} SlotIsRemainder(n: nat, c: nat)
    requires c > 0
    ensures Slot(n, c) == n % c
    decreases n
  {
    if n < c {
      ModUnique(n, c, 0, n);
    } else {
      SlotIsRemainder(n - c, c);
      SlotWraps(n, c);
      var q, r := (n - c) / c, (n - c) % c;
      assert n - c == q * c + r;
      assert (q + 1) * c == q * c + c;
      ModUnique(n, c, q + 1, r);
    }
  }

  lemma {:induction false} MultipleIsLarge(k: nat, c: nat)
    requires k > 0
    ensures k * c >= c
  {
    if k > 1 {
      MultipleIsLarge(k - 1, c);
      assert k * c == (k - 1) * c + c;
    }
  }

  lemma ModUnique(n: nat, c: nat, q: nat, r: nat)
    requires c > 0 && r < c && n == q * c + r
    ensures n % c == r
  {
    var p, s := n / c, n % c;
    assert n == p * c + s;
    if p > q {
      assert p * c == (p - q) * c + q * c;
      MultipleIsLarge(p - q, c);
    } else if p < q {
      assert q * c == (q - p) * c + p * c;
      MultipleIsLarge(q - p, c);
    }
  }

  /** An index below twice the capacity, taken modulo the capacity. */
  function WrapOf(x: nat, c: nat): nat
  {
    if x < c then x else x - c
  }

  method Wrap(x: nat, c: nat) returns (r: nat)
    requires c > 0 && x < 2 * c
    ensures r == WrapOf(x, c)
  {
    r := x % c;
  }

  /** The slots of the ring hold the last records; `next` is where the oldest one, or nothing, stands. */
  ghost predicate RingAgrees<T>(slots: seq<T>, next: nat, full: bool, all: seq<T>)
  {
    var n, c := |all|, |slots|;
    && next < c && next == Slot(n, c)
    && (full <==> n >= c)
    && slots[..next] == all[n - next..]
    && (full ==> slots[next..] == all[n - c..n - next])
    && (!full ==> next == n)
  }

  lemma NextIsASlot<T>(slots: seq<T>, next: nat, full: bool, all: seq<T>)
    requires RingAgrees(slots, next, full, all)
    ensures next < |slots|
  {
  }

  lemma FrontPushed<T>(slots: seq<T>, next: nat, all: seq<T>, x: T)
    requires next < |slots| && next <= |all| && slots[..next] == all[|all| - next..]
    ensures slots[next := x][..next + 1] == (all + [x])[|all| - next..]
  {
    assert slots[next := x][..next + 1] == slots[..next] + [x];
  }

  lemma BackKept<T>(slots: seq<T>, next: nat, all: seq<T>, x: T)
    requires next < |slots| <= |all| && slots[next..] == all[|all| - |slots|..|all| - next]
    ensures slots[next := x][next + 1..] == (all + [x])[|all| + 1 - |slots|..|all| - next]
  {
    assert slots[next := x][next + 1..] == slots[next..][1..];
    assert (all + [x])[|all| + 1 - |slots|..|all| - next] == all[|all| - |slots|..|all| - next][1..];
  }

  /** The write reaches the end: the next one starts over, and from now on the ring is full. */
  lemma RingWraps<T>(slots: seq<T>, next: nat, full: bool, all: seq<T>, x: T)
    requires RingAgrees(slots, next, full, all) && next + 1 == |slots|
    ensures RingAgrees(slots[next := x], 0, true, all + [x])
  {
    FrontPushed(slots, next, all, x);
    WholeRing(slots[next := x], all + [x]);
  }

  lemma WholeRing<T>(slots: seq<T>, all: seq<T>)
    requires |slots| <= |all| && slots[..|slots|] == all[|all| - |slots|..]
    ensures slots[0..] == all[|all| - |slots|..|all|]
  {
  }

  lemma RingMoves<T>(slots: seq<T>, next: nat, full: bool, all: seq<T>, x: T)
    requires RingAgrees(slots, next, full, all) && next + 1 < |slots|
    ensures RingAgrees(slots[next := x], next + 1, full, all + [x])
  {
    FrontPushed(slots, next, all, x);
    if full {
      BackKept(slots, next, all, x);
    }
  }

  /** One write keeps the ring in agreement with the list of all records. */
  lemma RingStep<T>(slots: seq<T>, next: nat, full: bool, all: seq<T>, x: T, wrapped: nat)
    requires RingAgrees(slots, next, full, all) && wrapped == WrapOf(next + 1, |slots|)
    ensures RingAgrees(slots[next := x], wrapped, full || wrapped == 0, all + [x])
  {
    hide RingAgrees;
    NextIsASlot(slots, next, full, all);
    if next + 1 == |slots| {
      RingWraps(slots, next, full, all, x);
    } else {
      RingMoves(slots, next, full, all, x);
    }
  }

  /** The slot an index walks back to. */
  lemma RingRead<T>(slots: seq<T>, next: nat, all: seq<T>, i: nat)
    requires RingAgrees(slots, next, true, all) && i < |slots|
    ensures slots[WrapOf(next - 1 - i + |slots|, |slots|)] == all[|all| - 1 - i]
  {
    var idx := WrapOf(next - 1 - i + |slots|, |slots|);
    if idx < next {
      assert slots[idx] == slots[..next][idx];
    } else {
      assert slots[idx] == slots[next..][idx - next];
    }
  }

  class RecentDecisionRecorder {
    const capacity: nat
    const buf: array<DecisionRecord>
    var next: nat
    var full: bool
    /** Redis, when attached: the list other processes and restarts share. */
    const attached: bool
    var list: seq<DecisionRecord>

    /** Every record ever handed to Record. */
    ghost var recorded: seq<DecisionRecord>
    /** The shared list started empty and no write to it has failed. */
    ghost var inSync: bool

    ghost predicate Valid()
      reads this, buf
    {
      && buf.Length == capacity
      && (attached ==> capacity > 0)
      && (capacity > 0 ==> RingAgrees(buf[..], next, full, recorded))
      && (inSync ==> list == NewestFirst(recorded, capacity))
    }

    constructor (size: int, redis: bool, shared: seq<DecisionRecord>)
      ensures Valid() && fresh(buf) && recorded == []
      ensures capacity == if size < 0 then 0 else size
      ensures attached == (redis && size > 0) && list == shared && inSync == (shared == [])
    {
      var c := if size < 0 then 0 else size;
      capacity := c;
      buf := new DecisionRecord[c](_ => DecisionRecord(0, "", "", "", "", Noop, "", 0.0, "", Success, ""));
      next, full := 0, false;
      attached, list := redis && size > 0, shared;
      recorded, inSync := [], shared == [];
    }

    /** A recorder of capacity 0 ignores the record. */
    method Record(rec: DecisionRecord, redisUp: bool)
      requires Valid()
      modifies this, buf
      ensures Valid() && recorded == old(recorded) + [rec]
      ensures list == if attached && redisUp then PushFront(old(list), rec, capacity) else old(list)
      ensures inSync == (old(inSync) && (capacity > 0 ==> attached && redisUp))
    {
      hide RingAgrees, PushFront;
      recorded := recorded + [rec];
      if capacity == 0 {
        return;
      }
      NextIsASlot(buf[..], next, full, old(recorded));
      var wrapped := Wrap(next + 1, capacity);
      RingStep(buf[..], next, full, old(recorded), rec, wrapped);
      buf[next] := rec;
      assert buf[..] == old(buf[..])[next := rec];
      next := wrapped;
      if next == 0 {
        full := true;
      }
      Mirror(old(recorded), rec, redisUp);
    }

    /** Pushes the record onto the shared list, outside the critical section of the ring. */
    method Mirror(ghost earlier: seq<DecisionRecord>, rec: DecisionRecord, redisUp: bool)
      requires inSync ==> list == NewestFirst(earlier, capacity)
      modifies this`list, this`inSync
      ensures list == if attached && redisUp then PushFront(old(list), rec, capacity) else old(list)
      ensures inSync == (old(inSync) && attached && redisUp)
      ensures inSync ==> list == NewestFirst(earlier + [rec], capacity)
    {
      inSync := inSync && attached && redisUp;
      if attached && redisUp {
        PushFrontIsNewestFirst(earlier, rec, capacity);
        list := PushFront(list, rec, capacity);
      }
    }

    /** The shared list when it can be read and holds anything, else the ring; either way newest first. */
    method Snapshot(redisUp: bool) returns (out: seq<DecisionRecord>)
      requires Valid()
      ensures attached && redisUp && list != [] ==> out == list[..Min(|list|, capacity)]
      ensures !(attached && redisUp && list != []) ==> out == NewestFirst(recorded, capacity)
      ensures inSync ==> out == NewestFirst(recorded, capacity)
    {
      hide RingAgrees;
      if capacity == 0 {
        return [];
      }
      if attached && redisUp && list != [] {
        return list[..Min(|list|, capacity)];
      }
      if full {
        out := ReadFull();
      } else {
        out := ReadPartial();
      }
    }

    /** Walks back over the whole ring. */
    method ReadFull() returns (out: seq<DecisionRecord>)
      requires Valid() && capacity > 0 && full
      ensures out == NewestFirst(recorded, capacity)
    {
      out := [];
      for i := 0 to capacity
        invariant out == NewestFirst(recorded, i)
      {
        RingRead(buf[..], next, recorded, i);
        var idx := Wrap(next - 1 - i + capacity, capacity);
        out := out + [buf[idx]];
      }
    }

    /** Walks back to the start of a ring that never wrapped. */
    method ReadPartial() returns (out: seq<DecisionRecord>)
      requires Valid() && capacity > 0 && !full
      ensures out == NewestFirst(recorded, capacity)
    {
      out := [];
      var i := next - 1;
      while i >= 0
        invariant -1 <= i < next
        invariant out == NewestFirst(recorded, next - 1 - i)
      {
        assert buf[i] == buf[..][..next][i];
        out := out + [buf[i]];
        i := i - 1;
      }
    }
  }
}
