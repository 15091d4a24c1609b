/**
 The API server as the agent meets it: a register of versioned Deployments that
 other clients write between any two of the agent's requests, and the agent's
 read-modify-write cycle on it.
 */
module Cluster {
  import opened Results
  import opened Deployments
  import opened WorkingCopies
  import opened Histories

  datatype Status = Accepted | Conflict | Failed(error: string)

  /** Everything there is to know about the server at one moment. */
  datatype Ledger = Ledger(
    world: World,
    turns: seq<Turn>,
    taken: seq<Turn>,
    log: seq<Commit>,
    acts: seq<Act>,
    history: seq<World>,
    moves: seq<Move>)

  /** Time only goes on, and the others' turns are taken in order. */
  ghost predicate Onward(a: Ledger, b: Ledger)
  {
    && a.history <= b.history && a.moves <= b.moves
    && a.taken <= b.taken && a.taken + a.turns == b.taken + b.turns
  }

  /** From one moment to a later one nothing of the agent's doing happened; what others spare they go on sparing. */
  ghost predicate Calm(a: Ledger, b: Ledger)
  {
    && b.acts == a.acts && OnlyOthers(a.log, b.log) && a.world.revision <= b.world.revision
    && Onward(a, b)
    && (Spares(a.turns) ==>
          Spares(b.turns) && b.world.pods == a.world.pods && b.world.replicaSets == a.world.replicaSets)
  }

  /** The cycle succeeded by one write of the change on top of the version it replaced. */
  ghost predicate WroteChange(a: Ledger, b: Ledger, key: Key, mu: Mutation, at: string)
  {
    && |b.log| > 0 && b.acts == a.acts + [Wrote(b.log[|b.log| - 1])]
    && OnlyOthers(a.log, b.log[..|b.log| - 1])
    && b.log[|b.log| - 1].writer == Agent(mu, at) && b.log[|b.log| - 1].key == key
  }

  /** Undisturbed, a change is carried out exactly when it is possible, on the one version there is. */
  ghost predicate CarriedOut(a: Ledger, b: Ledger, key: Key, mu: Mutation, at: string, success: bool)
  {
    if key in a.world.deployments && Mutated(a.world.deployments[key].dep, mu, at).Ok? then
      var before := a.world.deployments[key].dep;
      var c := Commit(Agent(mu, at), key, Some(before), Some(Mutated(before, mu, at).value));
      success && b == Entered(a, c, Ours(Wrote(c)))
    else !success && b == a
  }

  /** How one attempt ends: a conflict means that somebody wrote the Deployment in between. */
  ghost predicate Tried(a: Ledger, b: Ledger, key: Key, mu: Mutation, at: string, status: Status)
  {
    && a.history != [] && Onward(a, b)
    && (a.turns == [] ==> CarriedOut(a, b, key, mu, at, status.Accepted?) && !status.Conflict?)
    && (status.Accepted? ==> WroteChange(a, b, key, mu, at))
    && (!status.Accepted? ==> Calm(a, b))
    && (status.Conflict? ==> Rivals(b.taken, |a.taken|, key) > 0)
    && (status.Failed? ==> Faulted(b.taken, |a.taken|) || Refused(b.history, |a.history| - 1, key, mu, at))
  }

  /** How the cycle ends: it fails only by a failed request, a change that is not possible, or five rivals. */
  ghost predicate Cycled(a: Ledger, b: Ledger, key: Key, mu: Mutation, at: string, err: Option<string>)
  {
    && a.history != [] && Onward(a, b)
    && (a.turns == [] ==> CarriedOut(a, b, key, mu, at, err.None?))
    && (err.None? ==> WroteChange(a, b, key, mu, at))
    && (err.Some? ==> Calm(a, b))
    && (err.Some? ==>
          || Faulted(b.taken, |a.taken|)
          || Refused(b.history, |a.history| - 1, key, mu, at)
          || Rivals(b.taken, |a.taken|, key) >= 5)
  }

  /** Where the cycle stands when an attempt begins. */
  ghost predicate Retrying(a: Ledger, b: Ledger, key: Key, attempt: nat)
  {
    && Calm(a, b) && (a.turns == [] ==> attempt == 0 && b == a)
    && Rivals(b.taken, |a.taken|, key) >= attempt
  }

  /** The records agree with each other and with what is stored; `begun` are the writes of a turn under way. */
  ghost predicate InAgreement(b: Ledger, begun: seq<Foreign>)
  {
    && Faithful(b.log)
    && Holds(b.world.deployments, b.log)
    && (forall key :: key in b.world.deployments ==> b.world.deployments[key].version <= b.world.revision)
    && Writes(b.acts) == ByAgent(b.log)
    && Attributed(b.history, b.moves, b.world, b.acts, b.taken, begun)
  }

  /** The change this commit amounts to. */
  predicate Amounts(move: Move, c: Commit)
  {
    match move
    case Theirs(PutDeployment(key, dep)) => c.writer.Other? && c.key == key && c.after == Some(dep)
    case Theirs(DropDeployment(key)) => c.writer.Other? && c.key == key && c.after == Option.None
    case Ours(Wrote(commit)) => c.writer.Agent? && commit == c
    case _ => false
  }

  /** The ledger after one more write of a Deployment. */
  ghost function Entered(b: Ledger, c: Commit, move: Move): Ledger
  {
    var after := WithDeployment(b.world, c.key, c.after);
    b.(world := after, log := b.log + [c], acts := if c.writer.Agent? then b.acts + [Wrote(c)] else b.acts,
       history := b.history + [after], moves := b.moves + [move])
  }

  lemma StillInAgreement(b: Ledger, begun: seq<Foreign>, c: Commit, move: Move)
    requires InAgreement(b, begun) && (c.writer.Agent? ==> begun == [])
    requires c.before == Current(b.log, c.key) && IsChange(c) && Amounts(move, c)
    ensures InAgreement(Entered(b, c, move), if c.writer.Agent? then [] else begun + [move.write])
  {
    hide Faithful, Holds, Writes, ByAgent, Current, IsChange, Attributed;
    FaithfulExtends(b.log, c);
    HoldsAfter(b.world.deployments, b.log, c, Entered(b, c, move).world.deployments, b.world.revision + 1);
    ActsAfter(b.acts, b.log, c);
    if c.writer.Agent? {
      AttributedOurs(b.history, b.moves, b.world, b.acts, b.taken, Wrote(c));
    } else {
      AttributedTheirs(b.history, b.moves, b.world, b.acts, b.taken, begun, move.write);
    }
  }

  /** One request: the others have taken their next turn, if they had one left. */
  predicate NextTurn(a: Ledger, b: Ledger)
  {
    if a.turns == [] then b.turns == [] && b.taken == a.taken
    else b.turns == a.turns[1..] && b.taken == a.taken + [a.turns[0]]
  }

  /** How sending a change of what was read ends. */
  ghost predicate Updated(a: Ledger, b: Ledger, key: Key, read: Stored, dep: Dep, writer: Writer, status: Status)
  {
    var current := key in a.world.deployments && a.world.deployments[key] == read;
    && a.world.revision <= b.world.revision && Onward(a, b) && NextTurn(a, b)
    && (current && LeavesAlone(NextWrites(a.turns), key) ==>
          if NextFault(a.turns).None? then status.Accepted? else status.Failed?)
    && (status.Failed? ==> NextFault(a.turns).Some? || key !in b.world.deployments)
    && (status.Accepted? ==>
          && |b.log| > 0 && b.acts == a.acts + [Wrote(b.log[|b.log| - 1])] && OnlyOthers(a.log, b.log[..|b.log| - 1])
          && b.log[|b.log| - 1] == Commit(writer, key, Some(read.dep), Some(dep))
          && (a.turns == [] ==> b == Entered(a, b.log[|b.log| - 1], Ours(Wrote(b.log[|b.log| - 1])))))
    && (!status.Accepted? ==> Calm(a, b))
  }

  /** The attempt ends before anything is sent: the Deployment was not read, or does not take the change. */
  lemma NothingSent(a: Ledger, b: Ledger, key: Key, mu: Mutation, at: string, err: string)
    requires OnlyRead(a, b) && NextTurn(a, b)
    requires NextFault(a.turns).Some? || NotTaken(b.world, key, mu, at)
    ensures Tried(a, b, key, mu, at, Failed(err))
  {
    hide OnlyOthers, Spares, Mutated;
    FaultTaken(a.turns, a.taken, b.taken);
  }

  /** The attempt ends with the answer to its update. */
  lemma Sent(a: Ledger, read: Ledger, b: Ledger, key: Key, mu: Mutation, at: string, dep: Dep, status: Status)
    requires OnlyRead(a, read)
    requires key in read.world.deployments && Mutated(read.world.deployments[key].dep, mu, at) == Ok(dep)
    requires Updated(read, b, key, read.world.deployments[key], dep, Agent(mu, at), status)
    requires b.history != [] && b.history[|b.history| - 1] == b.world
    ensures Tried(a, b, key, mu, at, status)
  {
    hide OnlyOthers, Spares, Mutated, LeavesAlone, Rivals;
    NothingWritten(a.world, key);
    FaultTaken(read.turns, read.taken, b.taken);
    OthersFollow(a.log, read.log, if status.Accepted? then b.log[..|b.log| - 1] else b.log);
    if status.Conflict? {
      RivalTaken(read.taken, read.turns, b.taken, |a.taken|, key);
    }
  }

  /**
   What happens in a calm stretch of time, to Deployments, pods or ReplicaSets, is the others' doing, step by step.
   */
  lemma CalmMeansOthers(a: Ledger, b: Ledger)
    requires InAgreement(a, []) && InAgreement(b, []) && Calm(a, b)
    ensures |b.history| == |b.moves| + 1 && b.history[|b.history| - 1] == b.world
    ensures |a.moves| < |b.history| && b.history[|a.moves|] == a.world
    ensures forall i :: |a.moves| <= i < |b.moves| ==>
      b.moves[i].Theirs? && b.history[i + 1] == Stepped(b.history[i], b.moves[i])
  {
    hide Faithful, Holds, Writes, ByAgent, Stepped, Spares, OnlyOthers, TheirsOf, OursOf;
    NothingAdded(a.moves, b.moves);
  }

  /** Nothing was done but reading; when nobody else has a turn left, nothing happened at all. */
  ghost predicate OnlyRead(a: Ledger, b: Ledger)
  {
    && Calm(a, b) && (a.turns == [] ==> b == a)
    && a.history != [] && a.history[|a.history| - 1] == a.world
    && b.history != [] && b.history[|b.history| - 1] == b.world
  }

  lemma NothingRead(now: Ledger)
    requires now.history != [] && now.history[|now.history| - 1] == now.world
    ensures OnlyRead(now, now)
  {
  }

  lemma OnlyReadThen(a: Ledger, b: Ledger, c: Ledger)
    requires OnlyRead(a, b) && OnlyRead(b, c)
    ensures OnlyRead(a, c)
  {
    hide Spares, OnlyOthers;
    CalmThen(a, b, c);
  }

  lemma CalmThen(a: Ledger, b: Ledger, c: Ledger)
    requires Calm(a, b) && Calm(b, c)
    ensures Calm(a, c)
  {
    hide Spares, OnlyOthers;
    OthersFollow(a.log, b.log, c.log);
  }

  /** One more attempt settles the cycle or brings it closer to the end. */
  lemma TriedAgain(a: Ledger, b: Ledger, c: Ledger, key: Key, mu: Mutation, at: string, attempt: nat, status: Status)
    requires Retrying(a, b, key, attempt) && Tried(b, c, key, mu, at, status) && a.history != []
    ensures status.Accepted? ==> Cycled(a, c, key, mu, at, Option.None)
    ensures status.Failed? ==> Cycled(a, c, key, mu, at, Some(status.error))
    ensures status.Conflict? ==> Retrying(a, c, key, attempt + 1)
  {
    hide CarriedOut, OnlyOthers, Rivals, NotTaken, Spares;
    OthersFollow(a.log, b.log, if status.Accepted? then c.log[..|c.log| - 1] else c.log);
    MoreRivals(b.taken, c.taken, |a.taken|, key);
    if !status.Accepted? {
      CalmThen(a, b, c);
    }
  }

  lemma OutOfAttempts(a: Ledger, b: Ledger, key: Key, mu: Mutation, at: string, err: string)
    requires Retrying(a, b, key, RETRIES) && a.history != []
    ensures Cycled(a, b, key, mu, at, Some(err))
  {
    hide OnlyOthers, Rivals, Spares, Refused;
  }

  class ApiServer {
    var deployments: map<Key, Stored>
    var pods: map<Key, seq<Owner>>
    var replicaSets: map<Key, seq<Owner>>
    var revision: nat
    /** What the rest of the world does, one entry per request still to come. */
    var turns: seq<Turn>

    ghost var log: seq<Commit>
    ghost var acts: seq<Act>
    /** Every state the cluster has been in, the present one last, and the changes that led from one to the next. */
    ghost var history: seq<World>
    ghost var moves: seq<Move>
    /** What the rest of the world does in all, and the part of it that is over. */
    ghost const script: seq<Turn>
    ghost var taken: seq<Turn>

    function Present(): World
      reads this
    {
      World(revision, deployments, pods, replicaSets)
    }

    /** Everything kept while a turn of the others is under way; `begun` are its writes so far. */
    ghost predicate Sound(begun: seq<Foreign>)
      reads this
    {
      InAgreement(Books(), begun)
    }

    ghost predicate Valid()
      reads this
    {
      Sound([]) && script == taken + turns
    }

    lemma LastMoment()
      requires Valid()
      ensures history != [] && history[|history| - 1] == Present()
    {
    }

    /** An empty cluster; everything in it is put there by somebody. */
    constructor (future: seq<Turn>)
      ensures Valid() && log == [] && acts == [] && turns == script == future
    {
      deployments, pods, replicaSets, revision := map[], map[], map[], 0;
      turns, script, taken, log, acts := future, future, [], [], [];
      history, moves := [EMPTY_WORLD], [];
    }

    ghost function Books(): Ledger
      reads this
    {
      Ledger(Present(), turns, taken, log, acts, history, moves)
    }

    /** Nothing of the agent's doing happened. */
    twostate predicate Quiet()
      reads this
    {
      OnlyRead(old(Books()), Books())
    }

    /** Stores or removes a Deployment under the next revision. */
    method Put(writer: Writer, key: Key, dep: Option<Dep>, ghost move: Move, ghost begun: seq<Foreign>)
      requires Sound(begun) && (writer.Agent? ==> begun == [])
      requires var c := Commit(writer, key, Current(log, key), dep); IsChange(c) && Amounts(move, c)
      modifies this`deployments, this`revision, this`log, this`acts, this`history, this`moves
      ensures Sound(if writer.Agent? then [] else begun + [move.write])
      ensures Books() == Entered(old(Books()), Commit(writer, key, Current(old(log), key), dep), move)
    {
      hide InAgreement, Current, IsChange, Amounts;
      ghost var c := Commit(writer, key, Current(log, key), dep);
      StillInAgreement(Books(), begun, c, move);
      revision := revision + 1;
      deployments := if dep.Some? then deployments[key := Stored(revision, dep.value)] else deployments - {key};
      log := log + [c];
      acts := if writer.Agent? then acts + [Wrote(c)] else acts;
      history, moves := history + [Present()], moves + [move];
    }

    method Serve(write: Foreign, ghost begun: seq<Foreign>)
      requires Sound(begun)
      modifies this`deployments, this`pods, this`replicaSets, this`revision
      modifies this`log, this`acts, this`history, this`moves
      ensures Sound(begun + [write]) && acts == old(acts) && Present() == Stepped(old(Present()), Theirs(write))
      ensures OnlyOthers(old(log), log) && old(history) <= history && old(moves) <= moves
    {
      hide Faithful, Holds, Writes, ByAgent, Current, Attributed;
      match write
      case PutDeployment(key, dep) => Put(Other, key, Some(dep), Theirs(write), begun);
      case DropDeployment(key) => Put(Other, key, None, Theirs(write), begun);
      case PutPod(key, owners) =>
        pods := pods[key := owners];
        Note(write, begun, old(Present()));
      case DropPod(key) =>
        pods := pods - {key};
        Note(write, begun, old(Present()));
      case PutReplicaSet(key, owners) =>
        replicaSets := replicaSets[key := owners];
        Note(write, begun, old(Present()));
      case DropReplicaSet(key) =>
        replicaSets := replicaSets - {key};
        Note(write, begun, old(Present()));
    }

    /** Enters a write that is not about Deployments into the records. */
    ghost method Note(write: Foreign, begun: seq<Foreign>, before: World)
      requires Attributed(history, moves, before, acts, taken, begun) && Stepped(before, Theirs(write)) == Present()
      modifies this`history, this`moves
      ensures Attributed(history, moves, Present(), acts, taken, begun + [write]) && old(history) <= history
      ensures old(moves) <= moves
    {
      hide Attributed, Stepped;
      AttributedTheirs(history, moves, before, acts, taken, begun, write);
      history, moves := history + [Present()], moves + [Theirs(write)];
    }

    /** The rest of the world takes its turn before a request of the agent. */
    method Interleave() returns (fault: Option<string>)
      requires Valid()
      modifies this
      ensures Valid() && Calm(old(Books()), Books()) && NextTurn(old(Books()), Books())
      ensures Kept(old(Present()), Present(), NextWrites(old(turns)))
      ensures fault == NextFault(old(turns))
      ensures old(turns) == [] ==> unchanged(this)
    {
      hide Faithful, Holds, Writes, ByAgent, Current, IsChange, Attributed, Stepped, Kept, OnlyDeployments;
      if turns == [] {
        NothingWritten(Present(), Key("", ""));
        return None;
      }
      var turn := turns[0];
      turns := turns[1..];
      ghost var rest := turns;
      NothingWritten(Present(), Key("", ""));
      for i := 0 to |turn.others|
        invariant Sound(turn.others[..i]) && Kept(old(Present()), Present(), turn.others[..i])
        invariant OnlyOthers(old(log), log) && old(history) <= history && old(moves) <= moves
        invariant turns == rest && taken == old(taken) && acts == old(acts)
      {
        assert turn.others[..i] + [turn.others[i]] == turn.others[..i + 1];
        ghost var w := Present();
        Serve(turn.others[i], turn.others[..i]);
        KeptByOne(w, turn.others[i]);
        KeptByAll(old(Present()), w, Present(), turn.others[..i], [turn.others[i]]);
      }
      assert turn.others[..|turn.others|] == turn.others;
      AttributedTurn(history, moves, Present(), acts, taken, turn);
      taken := taken + [turn];
      SparedTurn(old(turns), old(Present()), Present());
      return turn.fault;
    }

    method GetDeployment(key: Key) returns (r: Result<Stored>)
      requires Valid()
      modifies this
      ensures Valid() && Quiet() && NextTurn(old(Books()), Books())
      ensures Kept(old(Present()), Present(), NextWrites(old(turns)))
      ensures r.Ok? <==> NextFault(old(turns)).None? && key in deployments
      ensures Spares(old(turns)) ==> (r.Ok? <==> key in deployments)
      ensures r.Err? ==> Faulted(taken, |old(taken)|) || key !in deployments
      ensures r.Ok? ==> deployments[key] == r.value
    {
      hide InAgreement, Kept, Spares, OnlyOthers, Faulted;
      LastMoment();
      SparedRequest(turns);
      var fault := Interleave();
      LastMoment();
      FaultTaken(old(turns), old(taken), taken);
      if fault.Some? {
        return Err(fault.value);
      }
      if key !in deployments {
        return Err("deployment " + key.name + " not found");
      }
      return Ok(deployments[key]);
    }

    method GetPod(key: Key) returns (r: Result<seq<Owner>>)
      requires Valid()
      modifies this
      ensures Valid() && Quiet() && NextTurn(old(Books()), Books())
      ensures Kept(old(Present()), Present(), NextWrites(old(turns)))
      ensures r.Ok? <==> NextFault(old(turns)).None? && key in pods
      ensures Spares(old(turns)) ==> (r.Ok? <==> key in pods)
      ensures r.Err? ==> Faulted(taken, |old(taken)|) || key !in pods
      ensures r.Ok? ==> pods[key] == r.value
    {
      hide InAgreement, Kept, Spares, OnlyOthers, Faulted;
      LastMoment();
      SparedRequest(turns);
      var fault := Interleave();
      LastMoment();
      FaultTaken(old(turns), old(taken), taken);
      if fault.Some? {
        return Err(fault.value);
      }
      if key !in pods {
        return Err("pod " + key.name + " not found");
      }
      return Ok(pods[key]);
    }

    method GetReplicaSet(key: Key) returns (r: Result<seq<Owner>>)
      requires Valid()
      modifies this
      ensures Valid() && Quiet() && NextTurn(old(Books()), Books())
      ensures Kept(old(Present()), Present(), NextWrites(old(turns)))
      ensures r.Ok? <==> NextFault(old(turns)).None? && key in replicaSets
      ensures Spares(old(turns)) ==> (r.Ok? <==> key in replicaSets)
      ensures r.Err? ==> Faulted(taken, |old(taken)|) || key !in replicaSets
      ensures r.Ok? ==> replicaSets[key] == r.value
    {
      hide InAgreement, Kept, Spares, OnlyOthers, Faulted;
      LastMoment();
      SparedRequest(turns);
      var fault := Interleave();
      LastMoment();
      FaultTaken(old(turns), old(taken), taken);
      if fault.Some? {
        return Err(fault.value);
      }
      if key !in replicaSets {
        return Err("replicaset " + key.name + " not found");
      }
      return Ok(replicaSets[key]);
    }

    /** Accepted exactly when the request arrives and the version sent is still the current one. */
    method UpdateDeployment(key: Key, read: Stored, dep: Dep, writer: Writer) returns (status: Status)
      requires Valid() && writer.Agent? && Mutated(read.dep, writer.mu, writer.at) == Ok(dep)
      requires read.version <= revision
      requires key in deployments && deployments[key].version == read.version ==> deployments[key] == read
      modifies this
      ensures Valid() && Updated(old(Books()), Books(), key, read, dep, writer, status)
    {
      hide Faithful, Holds, Writes, ByAgent, Mutated, Attributed, Kept, LeavesAlone, Spares;
      var fault := Interleave();
      if fault.Some? {
        return Failed(fault.value);
      }
      VersionTells(old(Present()), Present(), NextWrites(old(turns)), key, read);
      if key !in deployments {
        return Failed("deployment " + key.name + " not found");
      }
      if deployments[key].version != read.version {
        return Conflict;
      }
      HoldsAt(deployments, log, key);
      Put(writer, key, Some(dep), Ours(Wrote(Commit(writer, key, Current(log, key), Some(dep)))), []);
      assert log[..|log| - 1] < log;
      return Accepted;
    }

    /** Deletes this pod and nothing else; a pod that is already gone counts as deleted. */
    method DeletePod(key: Key, force: bool) returns (err: Option<string>)
      requires Valid()
      modifies this
      ensures Valid() && OnlyOthers(old(log), log) && Onward(old(Books()), Books()) && NextTurn(old(Books()), Books())
      ensures err == NextFault(old(turns))
      ensures acts == old(acts) || acts == old(acts) + [DeletedPod(key, force)]
      ensures err.None? ==> key !in pods
      ensures err.Some? ==> acts == old(acts)
      ensures acts == old(acts) ==> Calm(old(Books()), Books())
      ensures old(turns) == [] ==>
        Present() == old(Present()).(pods := old(pods) - {key}) && (acts == old(acts) ==> Books() == old(Books()))
      ensures Spares(old(turns)) ==> err.None? && (key in old(pods) <==> acts != old(acts))
    {
      hide Faithful, Holds, ByAgent, Current, Attributed, Spares, OnlyOthers, Kept;
      SparedRequest(turns);
      var fault := Interleave();
      if fault.Some? {
        return fault;
      }
      if key in pods {
        AttributedOurs(history, moves, Present(), acts, taken, DeletedPod(key, force));
        pods := pods - {key};
        acts := acts + [DeletedPod(key, force)];
        history := history + [Present()];
        moves := moves + [Ours(DeletedPod(key, force))];
        assert acts[..|acts| - 1] == old(acts);
      }
      return None;
    }

    // ---- the agent's read-modify-write cycle ------------------------------------------------

    /** One attempt: read, change the copy, write it back under the version read. */
    method Attempt(key: Key, mu: Mutation, at: string) returns (status: Status)
      requires Valid()
      modifies this
      ensures Valid() && Tried(old(Books()), Books(), key, mu, at, status)
    {
      hide Faithful, Holds, Writes, ByAgent, Current, Attributed, Kept, Calm, Updated, Tried, Mutated,
           Becomes;
      LastMoment();
      var read := GetDeployment(key);
      ghost var earlier := Books();
      if read.Err? {
        NothingSent(old(Books()), Books(), key, mu, at, read.error);
        return Failed(read.error);
      }
      var dep := new Deployment(read.value.dep);
      var err := dep.Mutate(mu, at);
      if err.Some? {
        NothingSent(old(Books()), Books(), key, mu, at, err.value);
        return Failed(err.value);
      }
      status := UpdateDeployment(key, read.value, dep.Value(), Agent(mu, at));
      LastMoment();
      Sent(old(Books()), earlier, Books(), key, mu, at, Mutated(read.value.dep, mu, at).value, status);
    }

    /** Starts over on a conflict, at most RETRIES attempts in all; any other failure is final. */
    method MutateDeployment(key: Key, mu: Mutation, at: string) returns (err: Option<string>)
      requires Valid()
      modifies this
      ensures Valid() && Cycled(old(Books()), Books(), key, mu, at, err)
    {
      LastMoment();
      hide Valid, Calm, Tried, Cycled, Retrying;
      NotYetTried(Books(), key);
      for attempt := 0 to RETRIES
        invariant Valid() && Retrying(old(Books()), Books(), key, attempt)
      {
        ghost var before := Books();
        var status := Attempt(key, mu, at);
        TriedAgain(old(Books()), before, Books(), key, mu, at, attempt, status);
        if status.Accepted? {
          return None;
        }
        if status.Failed? {
          return Some(status.error);
        }
      }
      err := Some("the object has been modified; please apply your changes to the latest version");
      OutOfAttempts(old(Books()), Books(), key, mu, at, err.value);
    }
  }

  /** Attempts made by client-go's default conflict retry. */
  const RETRIES := 5

  /** At some moment since, the Deployment was not there or did not take the change. */
  ghost predicate Refused(history: seq<World>, since: nat, key: Key, mu: Mutation, at: string)
  {
    exists i :: since <= i < |history| && NotTaken(history[i], key, mu, at)
  }

  predicate NotTaken(w: World, key: Key, mu: Mutation, at: string)
  {
    key in w.deployments ==> Mutated(w.deployments[key].dep, mu, at).Err?
  }

  /** Among spared turns none fails a request. */
  lemma SparedMeansNoFault(a: Ledger, b: Ledger)
    requires Onward(a, b) && Spares(a.turns)
    ensures !Faulted(b.taken, |a.taken|)
  {
    hide OnlyDeployments;
    forall i | |a.taken| <= i < |b.taken|
      ensures b.taken[i].fault.None?
    {
      assert b.taken[i] == (b.taken + b.turns)[i] == (a.taken + a.turns)[i] == a.turns[i - |a.taken|];
    }
  }

  lemma StillRefused(history: seq<World>, from: nat, since: nat, key: Key, mu: Mutation, at: string)
    requires Refused(history, from, key, mu, at) && since <= from
    ensures Refused(history, since, key, mu, at)
  {
    hide NotTaken;
  }

  lemma NotYetTried(now: Ledger, key: Key)
    ensures Retrying(now, now, key, 0)
  {
  }

  lemma RivalTaken(before: seq<Turn>, turns: seq<Turn>, taken: seq<Turn>, since: nat, key: Key)
    requires since <= |before| && taken == if turns == [] then before else before + [turns[0]]
    requires !LeavesAlone(NextWrites(turns), key)
    ensures Rivals(taken, since, key) > 0
  {
    assert turns != [];
    hide LeavesAlone;
    assert taken[|taken| - 1] == turns[0];
  }
}
