/** What is stored in the cluster, who writes it, and what histories of writes amount to. */
module Histories {
  import opened Results
  import opened Model
  import opened Deployments

  datatype Key = Key(ns: string, name: string)

  datatype Owner = Owner(kind: string, name: string)

  datatype Stored = Stored(version: nat, dep: Dep)

  /** A write by some other client. */
  datatype Foreign =
    | PutDeployment(key: Key, dep: Dep)
    | DropDeployment(key: Key)
    | PutPod(key: Key, owners: seq<Owner>)
    | DropPod(key: Key)
    | PutReplicaSet(key: Key, owners: seq<Owner>)
    | DropReplicaSet(key: Key)

  /** What happens right before one request of the agent is served, and whether that request then fails. */
  datatype Turn = Turn(others: seq<Foreign>, fault: Option<string>)

  datatype Writer = Other | Agent(mu: Mutation, at: string)

  /** One accepted write of a Deployment, with the state it replaced. */
  datatype Commit = Commit(writer: Writer, key: Key, before: Option<Dep>, after: Option<Dep>)

  /** Everything the agent itself changed. */
  datatype Act = Wrote(commit: Commit) | DeletedPod(key: Key, force: bool)

  // ---- histories ------------------------------------------------------------------------

  /** The Deployment under a key after a history of writes. */
  function Current(log: seq<Commit>, key: Key): Option<Dep>
  {
    if log == [] then None
    else if log[|log| - 1].key == key then log[|log| - 1].after
    else Current(log[..|log| - 1], key)
  }

  /** A write by the agent is its change applied to the state it replaced. */
  predicate IsChange(c: Commit)
  {
    c.writer.Agent? ==>
      c.before.Some? && c.after.Some? && Mutated(c.before.value, c.writer.mu, c.writer.at) == Ok(c.after.value)
  }

  /** Every write replaced exactly the version before it, and the agent's writes are its changes. */
  ghost predicate Faithful(log: seq<Commit>)
  {
    forall i :: 0 <= i < |log| ==> log[i].before == Current(log[..i], log[i].key) && IsChange(log[i])
  }

  function ByAgent(log: seq<Commit>): seq<Commit>
  {
    if log == [] then []
    else if log[|log| - 1].writer.Agent? then ByAgent(log[..|log| - 1]) + [log[|log| - 1]]
    else ByAgent(log[..|log| - 1])
  }

  function Writes(acts: seq<Act>): seq<Commit>
  {
    if acts == [] then []
    else if acts[|acts| - 1].Wrote? then Writes(acts[..|acts| - 1]) + [acts[|acts| - 1].commit]
    else Writes(acts[..|acts| - 1])
  }

  /** The second history goes on from the first with writes of other clients only. */
  ghost predicate OnlyOthers(earlier: seq<Commit>, later: seq<Commit>)
  {
    earlier <= later && forall i :: |earlier| <= i < |later| ==> later[i].writer.Other?
  }

  /** Executing the history one client at a time, each of the agent's cycles as one indivisible step. */
  function OneAtATime(log: seq<Commit>, key: Key): Option<Dep>
  {
    if log == [] then None
    else
      var c, sofar := log[|log| - 1], OneAtATime(log[..|log| - 1], key);
      if c.key != key then sofar
      else if c.writer.Other? then c.after
      else if sofar.None? then None
      else
        var changed := Mutated(sofar.value, c.writer.mu, c.writer.at);
        if changed.Ok? then Some(changed.value) else None
  }

  /** No write is lost: the register holds what the writes give when executed one at a time in commit order. */
  lemma {:induction false} NoLostUpdate(log: seq<Commit>, key: Key)
    requires Faithful(log)
    ensures OneAtATime(log, key) == Current(log, key)
  {
    if log != [] {
      var front := log[..|log| - 1];
      assert forall i :: 0 <= i < |front| ==> front[i] == log[i] && front[..i] == log[..i];
      NoLostUpdate(front, key);
      assert IsChange(log[|log| - 1]);
    }
  }

  /** The undo record of an agent write holds values of the version it replaced. */
  lemma RecordedUndoIsExact(log: seq<Commit>, i: nat)
    requires Faithful(log) && i < |log| && log[i].writer.Agent? && !log[i].writer.mu.Restart?
    requires log[i].before.Some? ==> UniqueNames(log[i].before.value.containers)
    ensures Current(log[..i], log[i].key).Some? && log[i].after.Some?
    ensures var replaced, undone := Current(log[..i], log[i].key).value, Reverted(log[i].after.value);
      undone.containers == replaced.containers && undone.templateAnnotations == replaced.templateAnnotations
      && undone.annotations == replaced.annotations
      && (undone.replicas == replaced.replicas || (replaced.replicas.None? && undone.replicas == Some(1)))
  {
    var c := log[i];
    assert IsChange(c);
    UndoRestores(c.before.value, c.writer.mu, c.writer.at, c.after.value);
  }

  /** The register holds what its history says. */
  ghost predicate Holds(deployments: map<Key, Stored>, log: seq<Commit>)
  {
    forall key: Key :: Current(log, key) == if key in deployments then Some(deployments[key].dep) else None
  }

  lemma HoldsAt(deployments: map<Key, Stored>, log: seq<Commit>, key: Key)
    requires Holds(deployments, log) && key in deployments
    ensures Current(log, key) == Some(deployments[key].dep)
  {
  }

  lemma OthersFollow(a: seq<Commit>, b: seq<Commit>, c: seq<Commit>)
    requires OnlyOthers(a, b) && OnlyOthers(b, c)
    ensures OnlyOthers(a, c)
  {
  }

  lemma HoldsAfter(before: map<Key, Stored>, log: seq<Commit>, c: Commit, after: map<Key, Stored>, version: nat)
    requires Holds(before, log)
    requires after == if c.after.Some? then before[c.key := Stored(version, c.after.value)] else before - {c.key}
    ensures Holds(after, log + [c])
  {
    forall key: Key
      ensures Current(log + [c], key) == if key in after then Some(after[key].dep) else None
    {
      Appended(log, c, key);
    }
  }

  lemma ActsAfter(acts: seq<Act>, log: seq<Commit>, c: Commit)
    requires Writes(acts) == ByAgent(log)
    ensures Writes(if c.writer.Agent? then acts + [Wrote(c)] else acts) == ByAgent(log + [c])
  {
    Appended(log, c, c.key);
    assert (acts + [Wrote(c)])[..|acts|] == acts;
  }

  lemma FaithfulExtends(log: seq<Commit>, c: Commit)
    requires Faithful(log) && c.before == Current(log, c.key) && IsChange(c)
    ensures Faithful(log + [c])
  {
    var more := log + [c];
    forall i | 0 <= i < |more|
      ensures more[i].before == Current(more[..i], more[i].key) && IsChange(more[i])
    {
      assert more[..i] == if i < |log| then log[..i] else log;
    }
  }

  lemma Appended(log: seq<Commit>, c: Commit, key: Key)
    ensures Current(log + [c], key) == if c.key == key then c.after else Current(log, key)
    ensures ByAgent(log + [c]) == if c.writer.Agent? then ByAgent(log) + [c] else ByAgent(log)
  {
    assert (log + [c])[..|log|] == log;
  }

  // ---- states and changes -------------------------------------------------------------------

  /** The contents of the cluster at one moment. */
  datatype World = World(
    revision: nat,
    deployments: map<Key, Stored>,
    pods: map<Key, seq<Owner>>,
    replicaSets: map<Key, seq<Owner>>)

  /** Everything that ever changes the cluster is a write of some other client or an act of the agent. */
  datatype Move = Theirs(write: Foreign) | Ours(act: Act)

  const EMPTY_WORLD := World(0, map[], map[], map[])

  /** Deployments are stored under the next revision. */
  function WithDeployment(w: World, key: Key, dep: Option<Dep>): World
  {
    w.(revision := w.revision + 1,
       deployments := if dep.Some? then w.deployments[key := Stored(w.revision + 1, dep.value)]
                      else w.deployments - {key})
  }

  function Stepped(w: World, move: Move): World
  {
    match move
    case Theirs(PutDeployment(key, dep)) => WithDeployment(w, key, Some(dep))
    case Theirs(DropDeployment(key)) => WithDeployment(w, key, Option.None)
    case Theirs(PutPod(key, owners)) => w.(pods := w.pods[key := owners])
    case Theirs(DropPod(key)) => w.(pods := w.pods - {key})
    case Theirs(PutReplicaSet(key, owners)) => w.(replicaSets := w.replicaSets[key := owners])
    case Theirs(DropReplicaSet(key)) => w.(replicaSets := w.replicaSets - {key})
    case Ours(Wrote(c)) => WithDeployment(w, c.key, c.after)
    case Ours(DeletedPod(key, _)) => w.(pods := w.pods - {key})
  }

  /** The states follow from the changes, one by one, starting from nothing. */
  ghost predicate Replays(history: seq<World>, moves: seq<Move>)
  {
    && |history| == |moves| + 1
    && history[0] == EMPTY_WORLD
    && forall i :: 0 <= i < |moves| ==> history[i + 1] == Stepped(history[i], moves[i])
  }

  function OursOf(moves: seq<Move>): seq<Act>
  {
    if moves == [] then []
    else
      var front, last := OursOf(moves[..|moves| - 1]), moves[|moves| - 1];
      if last.Ours? then front + [last.act] else front
  }

  function TheirsOf(moves: seq<Move>): seq<Foreign>
  {
    if moves == [] then []
    else
      var front, last := TheirsOf(moves[..|moves| - 1]), moves[|moves| - 1];
      if last.Theirs? then front + [last.write] else front
  }

  /** The writes of these turns, in order. */
  function Foreigns(turns: seq<Turn>): seq<Foreign>
  {
    if turns == [] then [] else Foreigns(turns[..|turns| - 1]) + turns[|turns| - 1].others
  }

  /**
   The present state is what the changes add up to; the agent's changes are its acts, all others are the writes of the
   turns taken so far and of the begun one.
   */
  ghost predicate Attributed(history: seq<World>, moves: seq<Move>, present: World, acts: seq<Act>, taken: seq<Turn>,
                             begun: seq<Foreign>)
  {
    && Replays(history, moves)
    && history[|history| - 1] == present
    && OursOf(moves) == acts
    && TheirsOf(moves) == Foreigns(taken) + begun
  }

  lemma ReplaysMore(history: seq<World>, moves: seq<Move>, move: Move)
    requires Replays(history, moves)
    ensures Replays(history + [Stepped(history[|history| - 1], move)], moves + [move])
  {
    hide Stepped;
    var later, more := history + [Stepped(history[|history| - 1], move)], moves + [move];
    forall i | 0 <= i < |more|
      ensures later[i + 1] == Stepped(later[i], more[i])
    {
      if i < |moves| {
        assert later[i] == history[i] && later[i + 1] == history[i + 1] && more[i] == moves[i];
      }
    }
  }

  lemma AttributedMore(moves: seq<Move>, move: Move)
    ensures OursOf(moves + [move]) == if move.Ours? then OursOf(moves) + [move.act] else OursOf(moves)
    ensures TheirsOf(moves + [move]) == if move.Theirs? then TheirsOf(moves) + [move.write] else TheirsOf(moves)
  {
    assert (moves + [move])[..|moves|] == moves;
  }

  /** One more write of the turn that has begun. */
  lemma AttributedTheirs(history: seq<World>, moves: seq<Move>, present: World, acts: seq<Act>, taken: seq<Turn>,
                       begun: seq<Foreign>, write: Foreign)
    requires Attributed(history, moves, present, acts, taken, begun)
    ensures Attributed(history + [Stepped(present, Theirs(write))], moves + [Theirs(write)],
                       Stepped(present, Theirs(write)), acts, taken,
                     begun + [write])
  {
    hide Replays, Stepped, OursOf, TheirsOf;
    ReplaysMore(history, moves, Theirs(write));
    AttributedMore(moves, Theirs(write));
    assert Foreigns(taken) + begun + [write] == Foreigns(taken) + (begun + [write]);
  }

  /** One more act of the agent, between two turns. */
  lemma AttributedOurs(history: seq<World>, moves: seq<Move>, present: World, acts: seq<Act>, taken: seq<Turn>,
                       act: Act)
    requires Attributed(history, moves, present, acts, taken, [])
    ensures Attributed(history + [Stepped(present, Ours(act))], moves + [Ours(act)], Stepped(present, Ours(act)),
                       acts + [act], taken, [])
  {
    hide Replays, Stepped, OursOf, TheirsOf;
    ReplaysMore(history, moves, Ours(act));
    AttributedMore(moves, Ours(act));
  }

  /** The turn is over. */
  lemma AttributedTurn(history: seq<World>, moves: seq<Move>, present: World, acts: seq<Act>, taken: seq<Turn>,
                       turn: Turn)
    requires Attributed(history, moves, present, acts, taken, turn.others)
    ensures Attributed(history, moves, present, acts, taken + [turn], [])
  {
    hide Replays, OursOf, TheirsOf;
    assert (taken + [turn])[..|taken|] == taken;
    assert Foreigns(taken + [turn]) + [] == Foreigns(taken) + turn.others;
  }

  /** Without acts of the agent every change is somebody else's. */
  lemma {:induction false} NothingOfOurs(moves: seq<Move>)
    requires OursOf(moves) == []
    ensures forall i :: 0 <= i < |moves| ==> moves[i].Theirs?
  {
    if moves != [] {
      NothingOfOurs(moves[..|moves| - 1]);
    }
  }

  /** When no act was added, every change that was is somebody else's. */
  lemma {:induction false} NothingAdded(earlier: seq<Move>, later: seq<Move>)
    requires earlier <= later
    ensures |OursOf(earlier)| <= |OursOf(later)|
    ensures |OursOf(earlier)| == |OursOf(later)| ==> forall i :: |earlier| <= i < |later| ==> later[i].Theirs?
  {
    if later == earlier {
    } else {
      NothingAdded(earlier, later[..|later| - 1]);
    }
  }

  /** Each change of the agent's is one of its acts. */
  lemma {:induction false} OwnMove(moves: seq<Move>, i: nat) returns (k: nat)
    requires i < |moves| && moves[i].Ours?
    ensures k < |OursOf(moves)| && OursOf(moves)[k] == moves[i].act
  {
    if i == |moves| - 1 {
      k := |OursOf(moves)| - 1;
    } else {
      k := OwnMove(moves[..|moves| - 1], i);
    }
  }

  // ---- what other clients do in their turns ---------------------------------------------------

  predicate WritesTo(write: Foreign, key: Key)
  {
    match write
    case PutDeployment(k, _) => k == key
    case DropDeployment(k) => k == key
    case _ => false
  }

  predicate LeavesAlone(writes: seq<Foreign>, key: Key)
  {
    forall i :: 0 <= i < |writes| ==> !WritesTo(writes[i], key)
  }

  predicate OnlyDeployments(writes: seq<Foreign>)
  {
    forall i :: 0 <= i < |writes| ==> writes[i].PutDeployment? || writes[i].DropDeployment?
  }

  /** Both states agree about the Deployment under this key. */
  predicate SameUnder(before: World, after: World, key: Key)
  {
    && (key in before.deployments <==> key in after.deployments)
    && (key in before.deployments ==> before.deployments[key] == after.deployments[key])
  }

  /** What these writes leave alone is as it was, and so is every Deployment whose version is not newer. */
  ghost predicate Kept(before: World, after: World, writes: seq<Foreign>)
  {
    && before.revision <= after.revision
    && (forall key: Key :: LeavesAlone(writes, key) ==> SameUnder(before, after, key))
    && (forall key: Key :: key in after.deployments && after.deployments[key].version <= before.revision
          ==> SameUnder(before, after, key))
    && (OnlyDeployments(writes) ==> after.pods == before.pods && after.replicaSets == before.replicaSets)
  }

  lemma KeptByOne(w: World, write: Foreign)
    ensures Kept(w, Stepped(w, Theirs(write)), [write])
  {
    assert [write][0] == write;
  }

  lemma BothParts(first: seq<Foreign>, second: seq<Foreign>, key: Key)
    ensures LeavesAlone(first + second, key) ==> LeavesAlone(first, key) && LeavesAlone(second, key)
    ensures OnlyDeployments(first + second) ==> OnlyDeployments(first) && OnlyDeployments(second)
  {
    hide WritesTo;
    assert forall i :: 0 <= i < |first| ==> (first + second)[i] == first[i];
    forall i | 0 <= i < |second|
      ensures (first + second)[|first| + i] == second[i]
    {
    }
  }

  lemma KeptByAll(a: World, b: World, c: World, first: seq<Foreign>, second: seq<Foreign>)
    requires Kept(a, b, first) && Kept(b, c, second)
    ensures Kept(a, c, first + second)
  {
    hide LeavesAlone, OnlyDeployments;
    forall key: Key | LeavesAlone(first + second, key)
      ensures SameUnder(a, c, key)
    {
      BothParts(first, second, key);
      assert SameUnder(a, b, key) && SameUnder(b, c, key);
    }
    forall key: Key | key in c.deployments && c.deployments[key].version <= a.revision
      ensures SameUnder(a, c, key)
    {
      assert SameUnder(b, c, key);
      assert SameUnder(a, b, key);
    }
    BothParts(first, second, Key("", ""));
  }

  /** A version tells whether what was read is still there; only a write of this very Deployment changes it. */
  lemma VersionTells(before: World, after: World, writes: seq<Foreign>, key: Key, read: Stored)
    requires Kept(before, after, writes) && read.version <= before.revision
    requires key in before.deployments && before.deployments[key].version == read.version ==>
      before.deployments[key] == read
    ensures key in after.deployments && after.deployments[key].version == read.version ==>
      after.deployments[key] == read
    ensures key in before.deployments && before.deployments[key] == read && LeavesAlone(writes, key) ==>
      key in after.deployments && after.deployments[key] == read
  {
    hide LeavesAlone, OnlyDeployments;
    if LeavesAlone(writes, key) {
      assert SameUnder(before, after, key);
    }
    if key in after.deployments && after.deployments[key].version == read.version {
      assert SameUnder(before, after, key);
    }
  }

  /** No request fails, and pods and ReplicaSets stay as they are; Deployments may be written at will. */
  predicate Spares(turns: seq<Turn>)
  {
    forall i :: 0 <= i < |turns| ==> turns[i].fault.None? && OnlyDeployments(turns[i].others)
  }

  /** A turn that is spared leaves pods and ReplicaSets as they are, and so do those after it. */
  lemma SparedTurn(turns: seq<Turn>, before: World, after: World)
    requires turns != [] && Kept(before, after, turns[0].others)
    ensures before.revision <= after.revision
    ensures Spares(turns) ==> Spares(turns[1..]) && after.pods == before.pods && after.replicaSets == before.replicaSets
  {
    hide LeavesAlone, SameUnder;
  }

  lemma NothingWritten(w: World, key: Key)
    ensures Kept(w, w, []) && LeavesAlone([], key)
  {
  }

  /** How the next request fails, if it does. */
  function NextFault(turns: seq<Turn>): Option<string>
  {
    if turns == [] then Option.None else turns[0].fault
  }

  function NextWrites(turns: seq<Turn>): seq<Foreign>
  {
    if turns == [] then [] else turns[0].others
  }

  /** One of the requests served since failed. */
  ghost predicate Faulted(taken: seq<Turn>, since: nat)
  {
    exists i :: since <= i < |taken| && taken[i].fault.Some?
  }

  lemma SparedRequest(turns: seq<Turn>)
    ensures Spares(turns) ==> NextFault(turns).None?
  {
  }

  /** A request that failed by a fault used up a turn with one. */
  lemma FaultTaken(turns: seq<Turn>, before: seq<Turn>, taken: seq<Turn>)
    requires taken == if turns == [] then before else before + [turns[0]]
    ensures NextFault(turns).Some? ==> Faulted(taken, |before|)
  {
    if turns != [] {
      assert taken[|before|] == turns[0];
    }
  }

  lemma FaultedLonger(earlier: seq<Turn>, from: nat, later: seq<Turn>, since: nat)
    requires earlier <= later && since <= from
    ensures Faulted(earlier, from) ==> Faulted(later, since)
  {
    if Faulted(earlier, from) {
      var i :| from <= i < |earlier| && earlier[i].fault.Some?;
      assert later[i] == earlier[i];
    }
  }

  /** The number of turns, from `since` on, in which somebody wrote this Deployment. */
  function Rivals(turns: seq<Turn>, since: nat, key: Key): nat
  {
    if |turns| <= since then 0
    else Rivals(turns[..|turns| - 1], since, key) + if LeavesAlone(turns[|turns| - 1].others, key) then 0 else 1
  }

  /** Somebody writes this Deployment in the turn. */
  predicate Rivaled(turn: Turn, key: Key)
  {
    exists write :: write in turn.others && WritesTo(write, key)
  }

  lemma AloneOrRivaled(turn: Turn, key: Key)
    ensures LeavesAlone(turn.others, key) <==> !Rivaled(turn, key)
  {
    hide WritesTo;
    if write :| write in turn.others && WritesTo(write, key) {
      var i :| 0 <= i < |turn.others| && turn.others[i] == write;
    }
  }

  lemma {:induction false} RivalsCounted(turns: seq<Turn>, since: nat, key: Key)
    ensures Rivals(turns, since, key) == |set i | since <= i < |turns| && Rivaled(turns[i], key)|
  {
    hide WritesTo, LeavesAlone, Rivaled;
    var places := set i | since <= i < |turns| && Rivaled(turns[i], key);
    if |turns| <= since {
      assert places == {};
    } else {
      var n := |turns| - 1;
      var front, last := turns[..n], turns[n].others;
      RivalsCounted(front, since, key);
      var before := set i | since <= i < |front| && Rivaled(front[i], key);
      AloneOrRivaled(turns[n], key);
      assert places == before + if LeavesAlone(last, key) then {} else {n};
    }
  }

  lemma {:induction false} MoreRivals(earlier: seq<Turn>, later: seq<Turn>, since: nat, key: Key)
    requires earlier <= later && since <= |earlier|
    ensures Rivals(later, since, key) == Rivals(earlier, since, key) + Rivals(later, |earlier|, key)
  {
    hide LeavesAlone;
    if later == earlier {
    } else {
      MoreRivals(earlier, later[..|later| - 1], since, key);
    }
  }

  /** At some moment from `since` on, the register held this Deployment under the key. */
  ghost predicate Held(history: seq<World>, since: nat, key: Key, dep: Dep)
  {
    exists i :: since <= i < |history| && key in history[i].deployments && history[i].deployments[key].dep == dep
  }

  lemma HeldLonger(earlier: seq<World>, from: nat, later: seq<World>, since: nat, key: Key, dep: Dep)
    requires Held(earlier, from, key, dep) && earlier <= later && since <= from
    ensures Held(later, since, key, dep)
  {
    var i :| from <= i < |earlier| && key in earlier[i].deployments && earlier[i].deployments[key].dep == dep;
    assert later[i] == earlier[i];
  }
}
