/**
 From events to incidents: finding the Deployment behind a pod, and the signal
 under which repeated events of one incident are collapsed.
 */
module Naming {
  import opened Results
  import opened Text
  import opened Model
  import opened Histories
  import opened Cluster

  // ---- reasons and signals ----------------------------------------------------------------

  /** Event reasons that describe one failed image pull collapse into one. */
  function CanonicalReason(reason: string, message: string): string
  {
    var trimmed := TrimSpace(reason);
    var r := ToLower(trimmed);
    if r == "errimagepull" || r == "imagepullbackoff" then "ImagePullFailure"
    else if r == "failed" && Contains(ToLower(message), "pull") then "ImagePullFailure"
    else trimmed
  }

  /** All ways to fail an image pull are one reason; any other reason is itself, without blanks around it. */
  lemma CanonicalReasonMeaning(reason: string, message: string)
    ensures var word := ToLower(TrimSpace(reason));
      CanonicalReason(reason, message) ==
        if word == "errimagepull" || word == "imagepullbackoff"
           || (word == "failed" && exists before, after :: ToLower(message) == before + "pull" + after)
        then "ImagePullFailure" else TrimSpace(reason)
  {
    hide ToLower, TrimSpace;
    ContainsMeaning(ToLower(message), "pull");
  }

  function Signal(ns: string, kind: string, name: string, reason: string): string
  {
    ns + ['|'] + (kind + ['|'] + (name + ['|'] + reason))
  }

  /** A separator-free head is determined by the joined text. */
  lemma HeadAndTail(a1: string, b1: string, a2: string, b2: string)
    requires '|' !in a1 && '|' !in a2 && a1 + ['|'] + b1 == a2 + ['|'] + b2
    ensures a1 == a2 && b1 == b2
  {
    IndexOfSplit(a1, '|', b1);
    IndexOfSplit(a2, '|', b2);
    assert a1 == (a1 + ['|'] + b1)[..|a1|] && a2 == (a2 + ['|'] + b2)[..|a2|];
    assert b1 == (a1 + ['|'] + b1)[|a1| + 1..] && b2 == (a2 + ['|'] + b2)[|a2| + 1..];
  }

  /** Different targets or reasons never share a signal. */
  lemma SignalsAreDistinct(ns1: string, kind1: string, name1: string, reason1: string,
                           ns2: string, kind2: string, name2: string, reason2: string)
    requires '|' !in ns1 + kind1 + name1 && '|' !in ns2 + kind2 + name2
    ensures Signal(ns1, kind1, name1, reason1) == Signal(ns2, kind2, name2, reason2)
       <==> ns1 == ns2 && kind1 == kind2 && name1 == name2 && reason1 == reason2
  {
    assert forall c :: c in ns1 || c in kind1 || c in name1 ==> c in ns1 + kind1 + name1;
    assert forall c :: c in ns2 || c in kind2 || c in name2 ==> c in ns2 + kind2 + name2;
    if Signal(ns1, kind1, name1, reason1) == Signal(ns2, kind2, name2, reason2) {
      HeadAndTail(ns1, kind1 + ['|'] + (name1 + ['|'] + reason1), ns2, kind2 + ['|'] + (name2 + ['|'] + reason2));
      HeadAndTail(kind1, name1 + ['|'] + reason1, kind2, name2 + ['|'] + reason2);
      HeadAndTail(name1, reason1, name2, reason2);
    }
  }

  // ---- the naming convention ----------------------------------------------------------------

  /** The parts of the name without the last n, joined again. */
  function WithoutLast(podName: string, n: nat): string
    requires n <= |Split(podName, '-')|
  {
    Join(Split(podName, '-')[..|Split(podName, '-')| - n], '-')
  }

  /** A name with one more part is cut back to what it was. */
  lemma CutBack(s: string, h: string)
    requires '-' !in h
    ensures Split(s + ['-'] + h, '-') == Split(s, '-') + [h] && WithoutLast(s + ['-'] + h, 1) == s
  {
    SplitAppend(s, '-', h);
    JoinSplit(s, '-');
    assert (Split(s, '-') + [h])[..|Split(s, '-')|] == Split(s, '-');
  }

  /** deployment-hash-hash: cutting one part gives the ReplicaSet, cutting two gives the Deployment. */
  lemma NamingConvention(d: string, h1: string, h2: string)
    requires '-' !in h1 && '-' !in h2
    ensures |Split(d + ['-'] + h1 + ['-'] + h2, '-')| >= 3
    ensures WithoutLast(d + ['-'] + h1 + ['-'] + h2, 1) == d + ['-'] + h1
    ensures WithoutLast(d + ['-'] + h1 + ['-'] + h2, 2) == d
  {
    hide Split, Join;
    CutBack(d, h1);
    CutBack(d + ['-'] + h1, h2);
    JoinSplit(d, '-');
    SomePart(d);
    var parts := Split(d, '-');
    assert (parts + [h1] + [h2])[..|parts|] == parts;
  }

  lemma SomePart(s: string)
    ensures |Split(s, '-')| >= 1
  {
  }

  // ---- owners ----------------------------------------------------------------------------------

  ghost predicate FirstDeployment(owners: seq<Owner>, name: string)
  {
    exists i :: 0 <= i < |owners| && owners[i] == Owner("Deployment", name)
      && forall j :: 0 <= j < i ==> owners[j].kind != "Deployment"
  }

  lemma FirstDeploymentLater(first: Owner, rest: seq<Owner>, name: string)
    requires first.kind != "Deployment" && FirstDeployment(rest, name)
    ensures FirstDeployment([first] + rest, name)
  {
    var i :| 0 <= i < |rest| && rest[i] == Owner("Deployment", name)
      && forall j :: 0 <= j < i ==> rest[j].kind != "Deployment";
    assert ([first] + rest)[i + 1] == rest[i];
  }

  /** The first owner that is a Deployment. */
  function DeploymentOwner(owners: seq<Owner>): (r: Option<string>)
    ensures r.Some? <==> exists i :: 0 <= i < |owners| && owners[i].kind == "Deployment"
    ensures r.Some? ==> FirstDeployment(owners, r.value)
  {
    if owners == [] then None
    else if owners[0].kind == "Deployment" then Some(owners[0].name)
    else
      var r := DeploymentOwner(owners[1..]);
      assert owners == [owners[0]] + owners[1..];
      if r.Some? then
        FirstDeploymentLater(owners[0], owners[1..], r.value);
        r
      else r
  }

  /** Walks the ReplicaSet owners in order; a ReplicaSet that cannot be read ends the search. */
  function OwnerThrough(owners: seq<Owner>, replicaSets: map<Key, seq<Owner>>, ns: string): Option<string>
  {
    if owners == [] then None
    else if owners[0].kind != "ReplicaSet" then OwnerThrough(owners[1..], replicaSets, ns)
    else if Key(ns, owners[0].name) !in replicaSets then None
    else
      var found := DeploymentOwner(replicaSets[Key(ns, owners[0].name)]);
      if found.Some? then found else OwnerThrough(owners[1..], replicaSets, ns)
  }

  function OwnerOfPod(w: World, ns: string, podName: string): Option<string>
  {
    if Key(ns, podName) !in w.pods then None else OwnerThrough(w.pods[Key(ns, podName)], w.replicaSets, ns)
  }

  /**
   The owner is the one of the first ReplicaSet, in order, that has one; every ReplicaSet before it was there and
   had none.
   */
  ghost predicate OwnedThrough(owners: seq<Owner>, replicaSets: map<Key, seq<Owner>>, ns: string, d: string)
  {
    exists i :: 0 <= i < |owners| && OwnedAt(owners, replicaSets, ns, d, i)
  }

  ghost predicate OwnedAt(owners: seq<Owner>, replicaSets: map<Key, seq<Owner>>, ns: string, d: string, i: nat)
    requires i < |owners|
  {
    && owners[i].kind == "ReplicaSet" && Key(ns, owners[i].name) in replicaSets
    && FirstDeployment(replicaSets[Key(ns, owners[i].name)], d)
    && forall j :: 0 <= j < i && owners[j].kind == "ReplicaSet" ==> Unowned(replicaSets, Key(ns, owners[j].name))
  }

  predicate Unowned(replicaSets: map<Key, seq<Owner>>, key: Key)
  {
    key in replicaSets && forall o :: o in replicaSets[key] ==> o.kind != "Deployment"
  }

  lemma {:induction false} OwnerThroughMeaning(owners: seq<Owner>, replicaSets: map<Key, seq<Owner>>, ns: string,
                                               d: string)
    ensures OwnerThrough(owners, replicaSets, ns) == Some(d) <==> OwnedThrough(owners, replicaSets, ns, d)
  {
    hide FirstDeployment;
    if owners != [] {
      var key := Key(ns, owners[0].name);
      OwnerThroughMeaning(owners[1..], replicaSets, ns, d);
      OwnedLater(owners, replicaSets, ns, d);
      if key in replicaSets {
        DeploymentOwnerMeaning(replicaSets[key], d);
      }
      assert OwnedAt(owners, replicaSets, ns, d, 0) ==> OwnedThrough(owners, replicaSets, ns, d);
    }
  }

  /** Either the first owner settles it, or it is passed over. */
  lemma OwnedLater(owners: seq<Owner>, replicaSets: map<Key, seq<Owner>>, ns: string, d: string)
    requires owners != []
    ensures OwnedThrough(owners, replicaSets, ns, d) <==>
      || OwnedAt(owners, replicaSets, ns, d, 0)
      || ((owners[0].kind == "ReplicaSet" ==> Unowned(replicaSets, Key(ns, owners[0].name)))
          && OwnedThrough(owners[1..], replicaSets, ns, d))
  {
    hide FirstDeployment, Unowned;
    if i :| 0 < i < |owners| && OwnedAt(owners, replicaSets, ns, d, i) {
      assert OwnedAt(owners[1..], replicaSets, ns, d, i - 1);
    }
    if (owners[0].kind == "ReplicaSet" ==> Unowned(replicaSets, Key(ns, owners[0].name)))
      && OwnedThrough(owners[1..], replicaSets, ns, d) {
      var i :| 0 <= i < |owners[1..]| && OwnedAt(owners[1..], replicaSets, ns, d, i);
      assert forall j :: 0 < j < |owners| ==> owners[1..][j - 1] == owners[j];
      assert OwnedAt(owners, replicaSets, ns, d, i + 1);
    }
  }

  lemma DeploymentOwnerMeaning(owners: seq<Owner>, d: string)
    ensures DeploymentOwner(owners) == Some(d) <==> FirstDeployment(owners, d)
    ensures DeploymentOwner(owners).None? <==> forall o :: o in owners ==> o.kind != "Deployment"
  {
    var r := DeploymentOwner(owners);
    if r.Some? {
      var i :| 0 <= i < |owners| && owners[i] == Owner("Deployment", r.value)
        && forall j :: 0 <= j < i ==> owners[j].kind != "Deployment";
      assert owners[i] in owners;
    }
  }

  /** The guess for a pod that is gone: its ReplicaSet's owner, else a Deployment of the conventional name. */
  function InferredFromName(w: World, ns: string, podName: string): Option<string>
  {
    if |Split(podName, '-')| < 3 then None
    else
      var rs, candidate := Key(ns, WithoutLast(podName, 1)), WithoutLast(podName, 2);
      if rs in w.replicaSets then DeploymentOwner(w.replicaSets[rs])
      else if Key(ns, candidate) in w.deployments then Some(candidate)
      else None
  }

  /** The kind and name an incident is filed under. */
  datatype Target = Target(kind: string, name: string)

  function TargetOfPod(w: World, ns: string, podName: string): Option<string>
  {
    var owner := OwnerOfPod(w, ns, podName);
    if owner.Some? then owner else InferredFromName(w, ns, podName)
  }

  /** A pod of d by the naming convention; pod and ReplicaSet may be gone, but what is left still tells. */
  predicate GenerationOf(w: World, ns: string, d: string, h1: string, h2: string)
  {
    var pod, rs := Key(ns, d + ['-'] + h1 + ['-'] + h2), Key(ns, d + ['-'] + h1);
    && '-' !in h1 && '-' !in h2
    && (pod in w.pods ==> w.pods[pod] == [Owner("ReplicaSet", rs.name)])
    && (rs in w.replicaSets ==> w.replicaSets[rs] == [Owner("Deployment", d)])
    && (rs !in w.replicaSets ==> Key(ns, d) in w.deployments)
  }

  /** Every pod generation of a Deployment, hyphens in its name or not, is filed under that Deployment. */
  lemma GenerationsCollapse(w: World, ns: string, d: string, h1: string, h2: string)
    requires GenerationOf(w, ns, d, h1, h2)
    ensures TargetOfPod(w, ns, d + ['-'] + h1 + ['-'] + h2) == Some(d)
  {
    NamingConvention(d, h1, h2);
    var rs := Key(ns, d + ['-'] + h1);
    if rs in w.replicaSets {
      assert DeploymentOwner(w.replicaSets[rs]) == Some(d);
    }
  }

  // ---- what an answer rests on while others keep writing ------------------------------------------

  /** One of these ReplicaSets exists and is owned by the Deployment d. */
  predicate LeadsTo(owners: seq<Owner>, w: World, ns: string, d: string)
  {
    exists owner :: owner in owners && owner.kind == "ReplicaSet"
      && Key(ns, owner.name) in w.replicaSets && DeploymentOwner(w.replicaSets[Key(ns, owner.name)]) == Some(d)
  }

  /** The pod was there with its owners, and not earlier than that one of them belonged to d. */
  ghost predicate OwnerSeen(history: seq<World>, since: nat, ns: string, podName: string, d: string)
  {
    exists i, j :: since <= i <= j < |history| && Key(ns, podName) in history[i].pods
      && LeadsTo(history[i].pods[Key(ns, podName)], history[j], ns, d)
  }

  /** The ReplicaSet the name suggests belongs to d, or d is an existing Deployment of the conventional name. */
  predicate NameLeadsTo(w: World, ns: string, podName: string, d: string)
  {
    && |Split(podName, '-')| >= 3
    && var rs := Key(ns, WithoutLast(podName, 1));
       || (rs in w.replicaSets && DeploymentOwner(w.replicaSets[rs]) == Some(d))
       || (Key(ns, d) in w.deployments && d == WithoutLast(podName, 2))
  }

  ghost predicate NameSeen(history: seq<World>, since: nat, ns: string, podName: string, d: string)
  {
    exists i :: since <= i < |history| && NameLeadsTo(history[i], ns, podName, d)
  }

  lemma NameSeenSince(history: seq<World>, from: nat, since: nat, ns: string, podName: string, d: string)
    requires NameSeen(history, from, ns, podName, d) && since <= from
    ensures NameSeen(history, since, ns, podName, d)
  {
    hide NameLeadsTo;
  }

  /** The ReplicaSet was there and belonged to no Deployment. */
  ghost predicate LedNowhere(history: seq<World>, since: nat, owner: Owner, ns: string)
  {
    exists i :: since <= i < |history| && Key(ns, owner.name) in history[i].replicaSets
      && DeploymentOwner(history[i].replicaSets[Key(ns, owner.name)]).None?
  }

  ghost predicate Missing(history: seq<World>, since: nat, owner: Owner, ns: string)
  {
    exists i :: since <= i < |history| && Key(ns, owner.name) !in history[i].replicaSets
  }

  /** One of these ReplicaSets was missing, which ends the search, or none of them belonged to a Deployment. */
  ghost predicate Ownerless(history: seq<World>, since: nat, owners: seq<Owner>, ns: string)
  {
    || (exists owner :: owner in owners && owner.kind == "ReplicaSet" && Missing(history, since, owner, ns))
    || forall owner :: owner in owners && owner.kind == "ReplicaSet" ==> LedNowhere(history, since, owner, ns)
  }

  /** The pod was missing, or its owners led to no Deployment. */
  ghost predicate OwnerNotSeen(history: seq<World>, since: nat, ns: string, podName: string)
  {
    exists i :: since <= i < |history| && OwnerNotSeenAt(history, i, ns, podName)
  }

  ghost predicate OwnerNotSeenAt(history: seq<World>, i: nat, ns: string, podName: string)
    requires i < |history|
  {
    Key(ns, podName) in history[i].pods ==> Ownerless(history, i, history[i].pods[Key(ns, podName)], ns)
  }

  /** The name suggests nothing, or nothing that existed: neither an owned ReplicaSet nor, without one, a Deployment. */
  ghost predicate NameNotSeen(history: seq<World>, since: nat, ns: string, podName: string)
  {
    |Split(podName, '-')| >= 3 ==> exists i :: since <= i < |history| && NameNotSeenAt(history, i, ns, podName)
  }

  ghost predicate NameNotSeenAt(history: seq<World>, i: nat, ns: string, podName: string)
    requires i < |history| && |Split(podName, '-')| >= 3
  {
    var rs := Key(ns, WithoutLast(podName, 1));
    if rs in history[i].replicaSets then DeploymentOwner(history[i].replicaSets[rs]).None?
    else exists j :: i <= j < |history| && Key(ns, WithoutLast(podName, 2)) !in history[j].deployments
  }

  lemma LedNowhereLonger(earlier: seq<World>, later: seq<World>, since: nat, owner: Owner, ns: string)
    requires LedNowhere(earlier, since, owner, ns) && earlier <= later
    ensures LedNowhere(later, since, owner, ns)
  {
    var i :| since <= i < |earlier| && Key(ns, owner.name) in earlier[i].replicaSets
      && DeploymentOwner(earlier[i].replicaSets[Key(ns, owner.name)]).None?;
    assert later[i] == earlier[i];
  }

  lemma OwnerlessLonger(earlier: seq<World>, later: seq<World>, since: nat, owners: seq<Owner>, ns: string)
    requires Ownerless(earlier, since, owners, ns) && earlier <= later
    ensures Ownerless(later, since, owners, ns)
  {
    hide LedNowhere;
    if exists owner :: owner in owners && owner.kind == "ReplicaSet" && Missing(earlier, since, owner, ns) {
      var owner :| owner in owners && owner.kind == "ReplicaSet" && Missing(earlier, since, owner, ns);
      var i :| since <= i < |earlier| && Key(ns, owner.name) !in earlier[i].replicaSets;
      assert later[i] == earlier[i];
    } else {
      forall owner | owner in owners && owner.kind == "ReplicaSet"
        ensures LedNowhere(later, since, owner, ns)
      {
        LedNowhereLonger(earlier, later, since, owner, ns);
      }
    }
  }

  lemma OwnerNotSeenLonger(earlier: seq<World>, from: nat, later: seq<World>, since: nat, ns: string, podName: string)
    requires OwnerNotSeen(earlier, from, ns, podName) && earlier <= later && since <= from
    ensures OwnerNotSeen(later, since, ns, podName)
  {
    hide Ownerless;
    var i :| from <= i < |earlier| && OwnerNotSeenAt(earlier, i, ns, podName);
    assert later[i] == earlier[i];
    if Key(ns, podName) in earlier[i].pods {
      OwnerlessLonger(earlier, later, i, earlier[i].pods[Key(ns, podName)], ns);
    }
    assert OwnerNotSeenAt(later, i, ns, podName);
  }

  lemma NameNotSeenLonger(earlier: seq<World>, from: nat, later: seq<World>, since: nat, ns: string, podName: string)
    requires NameNotSeen(earlier, from, ns, podName) && earlier <= later && since <= from
    ensures NameNotSeen(later, since, ns, podName)
  {
    hide WithoutLast;
    if |Split(podName, '-')| >= 3 {
      var i :| from <= i < |earlier| && NameNotSeenAt(earlier, i, ns, podName);
      assert later[i] == earlier[i];
      if Key(ns, WithoutLast(podName, 1)) !in earlier[i].replicaSets {
        var j :| i <= j < |earlier| && Key(ns, WithoutLast(podName, 2)) !in earlier[j].deployments;
        assert later[j] == earlier[j];
      }
      assert NameNotSeenAt(later, i, ns, podName);
    }
  }

  function Latest(history: seq<World>): World
    requires history != []
  {
    history[|history| - 1]
  }

  function Known<T>(r: Result<T>): Option<T>
  {
    if r.Ok? then Some(r.value) else None
  }

  /** The pod showed these owners, and the first i of them led to no Deployment. */
  ghost predicate Searching(a: Ledger, b: Ledger, seen: nat, owners: seq<Owner>, i: nat, ns: string, podName: string)
    requires i <= |owners|
  {
    && OnlyRead(a, b) && |a.history| - 1 <= seen < |b.history|
    && Key(ns, podName) in b.history[seen].pods && b.history[seen].pods[Key(ns, podName)] == owners
    && (forall k :: 0 <= k < i && owners[k].kind == "ReplicaSet" ==> LedNowhere(b.history, seen, owners[k], ns))
    && (Spares(a.turns) ==>
          && Key(ns, podName) in b.world.pods && b.world.pods[Key(ns, podName)] == owners
          && OwnerThrough(owners, b.world.replicaSets, ns) == OwnerThrough(owners[i..], b.world.replicaSets, ns))
  }

  /** One owner has been dealt with: passed over, or asked for at the latest moment. */
  predicate PassedOver(b: Ledger, c: Ledger, owner: Owner, ns: string)
  {
    if owner.kind != "ReplicaSet" then c == b
    else Key(ns, owner.name) in c.world.replicaSets && DeploymentOwner(c.world.replicaSets[Key(ns, owner.name)]).None?
  }

  lemma SearchedOn(a: Ledger, b: Ledger, c: Ledger, seen: nat, owners: seq<Owner>, i: nat, ns: string, podName: string)
    requires i < |owners| && Searching(a, b, seen, owners, i, ns, podName) && OnlyRead(b, c)
    requires PassedOver(b, c, owners[i], ns)
    ensures Searching(a, c, seen, owners, i + 1, ns, podName)
  {
    hide LedNowhere, Spares, OnlyOthers, DeploymentOwner;
    OnlyReadThen(a, b, c);
    forall k | 0 <= k < i + 1 && owners[k].kind == "ReplicaSet"
      ensures LedNowhere(c.history, seen, owners[k], ns)
    {
      if k < i {
        LedNowhereLonger(b.history, c.history, seen, owners[k], ns);
      } else {
        NowhereNow(c.history, seen, owners[k], ns);
      }
    }
  }

  lemma NowhereNow(history: seq<World>, since: nat, owner: Owner, ns: string)
    requires since < |history| && Key(ns, owner.name) in Latest(history).replicaSets
    requires DeploymentOwner(Latest(history).replicaSets[Key(ns, owner.name)]).None?
    ensures LedNowhere(history, since, owner, ns)
  {
  }

  /** What the search comes to. */
  ghost predicate Resolved(a: Ledger, b: Ledger, ns: string, podName: string, r: Result<string>)
  {
    && OnlyRead(a, b)
    && (r.Ok? ==> OwnerSeen(b.history, |a.history| - 1, ns, podName, r.value))
    && (r.Err? ==> Faulted(b.taken, |a.taken|) || OwnerNotSeen(b.history, |a.history| - 1, ns, podName))
    && (Spares(a.turns) ==> Known(r) == OwnerOfPod(b.world, ns, podName))
  }

  lemma PodNotRead(a: Ledger, b: Ledger, ns: string, podName: string, err: string)
    requires OnlyRead(a, b)
    requires Faulted(b.taken, |a.taken|) || Key(ns, podName) !in b.world.pods
    requires Spares(a.turns) ==> Key(ns, podName) !in b.world.pods
    ensures Resolved(a, b, ns, podName, Err(err))
  {
    hide Spares, OnlyOthers, Faulted;
    if Key(ns, podName) !in b.world.pods {
      assert OwnerNotSeenAt(b.history, |b.history| - 1, ns, podName);
    }
  }

  /** The search ends at owner i: its ReplicaSet was not read, or shows the Deployment. */
  lemma SearchEnds(a: Ledger, b: Ledger, c: Ledger, seen: nat, owners: seq<Owner>, i: nat, ns: string, podName: string,
                   read: Result<seq<Owner>>, r: Result<string>)
    requires i < |owners| && Searching(a, b, seen, owners, i, ns, podName) && OnlyRead(b, c)
    requires owners[i].kind == "ReplicaSet"
    requires var key := Key(ns, owners[i].name);
      && (read.Ok? ==>
            && key in c.world.replicaSets && c.world.replicaSets[key] == read.value
            && DeploymentOwner(read.value).Some? && r == Ok(DeploymentOwner(read.value).value))
      && (read.Err? ==> r.Err? && (Faulted(c.taken, |b.taken|) || key !in c.world.replicaSets))
      && (Spares(b.turns) ==> (read.Ok? <==> key in c.world.replicaSets))
    ensures Resolved(a, c, ns, podName, r)
  {
    hide LedNowhere, Spares, OnlyOthers, Faulted;
    OnlyReadThen(a, b, c);
    FaultedLonger(c.taken, |b.taken|, c.taken, |a.taken|);
    assert owners[i] in owners;
    if read.Ok? {
      assert LeadsTo(owners, c.history[|c.history| - 1], ns, r.value);
    } else if Key(ns, owners[i].name) !in c.world.replicaSets {
      assert Missing(c.history, seen, owners[i], ns);
      assert OwnerNotSeenAt(c.history, seen, ns, podName);
    }
  }

  lemma SearchedAll(a: Ledger, b: Ledger, seen: nat, owners: seq<Owner>, ns: string, podName: string, err: string)
    requires Searching(a, b, seen, owners, |owners|, ns, podName)
    ensures Resolved(a, b, ns, podName, Err(err))
  {
    hide LedNowhere, Spares, OnlyOthers;
    assert OwnerNotSeenAt(b.history, seen, ns, podName);
  }

  method ResolveDeploymentFromPod(api: ApiServer, ns: string, podName: string) returns (r: Result<string>)
    requires api.Valid()
    modifies api
    ensures api.Valid() && Resolved(old(api.Books()), api.Books(), ns, podName, r)
  {
    hide ApiServer.Valid, Calm, OnlyRead, Spares, Kept, Faulted, Searching, Resolved, DeploymentOwner;
    api.LastMoment();
    var pod := api.GetPod(Key(ns, podName));
    if pod.Err? {
      PodNotRead(old(api.Books()), api.Books(), ns, podName, pod.error);
      return Err(pod.error);
    }
    var owners := pod.value;
    api.LastMoment();
    ghost var seen := |api.history| - 1;
    StartSearch(old(api.Books()), api.Books(), seen, owners, ns, podName);
    for i := 0 to |owners|
      invariant api.Valid() && Searching(old(api.Books()), api.Books(), seen, owners, i, ns, podName)
    {
      ghost var before := api.Books();
      api.LastMoment();
      NothingRead(before);
      if owners[i].kind == "ReplicaSet" {
        var rs := api.GetReplicaSet(Key(ns, owners[i].name));
        var found := if rs.Ok? then DeploymentOwner(rs.value) else None;
        if rs.Err? || found.Some? {
          r := if rs.Err? then Err(rs.error) else Ok(found.value);
          SearchEnds(old(api.Books()), before, api.Books(), seen, owners, i, ns, podName, rs, r);
          return;
        }
      }
      SearchedOn(old(api.Books()), before, api.Books(), seen, owners, i, ns, podName);
    }
    r := Err("deployment owner not found");
    SearchedAll(old(api.Books()), api.Books(), seen, owners, ns, podName, r.error);
  }

  lemma StartSearch(a: Ledger, b: Ledger, seen: nat, owners: seq<Owner>, ns: string, podName: string)
    requires OnlyRead(a, b) && seen == |b.history| - 1
    requires Key(ns, podName) in b.world.pods && b.world.pods[Key(ns, podName)] == owners
    ensures Searching(a, b, seen, owners, 0, ns, podName)
  {
    hide Spares, OnlyOthers;
  }

  method InferDeploymentFromPodName(api: ApiServer, ns: string, podName: string) returns (r: Option<string>)
    requires api.Valid()
    modifies api
    ensures api.Valid() && api.Quiet()
    ensures r.Some? ==> NameSeen(api.history, |old(api.history)| - 1, ns, podName, r.value)
    ensures r.None? ==>
      Faulted(api.taken, |old(api.taken)|) || NameNotSeen(api.history, |old(api.history)| - 1, ns, podName)
    ensures Spares(old(api.turns)) ==> r == InferredFromName(api.Present(), ns, podName)
  {
    hide ApiServer.Valid, OnlyOthers, Spares, Kept, Faulted;
    api.LastMoment();
    NothingRead(api.Books());
    var parts := Split(podName, '-');
    if |parts| < 3 {
      return None;
    }
    var rs := api.GetReplicaSet(Key(ns, Join(parts[..|parts| - 1], '-')));
    ghost var read, asked := api.Books(), |api.history| - 1;
    if rs.Ok? {
      r := DeploymentOwner(rs.value);
      assert r.Some? ==> NameLeadsTo(api.history[asked], ns, podName, r.value);
      assert r.None? ==> NameNotSeenAt(api.history, asked, ns, podName);
      return;
    }
    var candidate := Join(parts[..|parts| - 2], '-');
    var dep := api.GetDeployment(Key(ns, candidate));
    OnlyReadThen(old(api.Books()), read, api.Books());
    FaultedLonger(read.taken, |old(api.taken)|, api.taken, |old(api.taken)|);
    FaultedLonger(api.taken, |read.taken|, api.taken, |old(api.taken)|);
    if dep.Err? {
      assert api.history[asked] == read.world;
      assert rs.Err? && Key(ns, candidate) !in api.deployments ==>
        Faulted(api.taken, |old(api.taken)|) || NameNotSeenAt(api.history, asked, ns, podName);
      return None;
    }
    assert NameLeadsTo(api.history[|api.history| - 1], ns, podName, candidate);
    return Some(candidate);
  }

  // ---- the target of a decision -----------------------------------------------------------------

  /** The Deployment the parameters steer to, "" when they name none. */
  function SteeredName(params: map<string, string>): string
  {
    if TrimSpace(Param(params, "deployment_name")) != "" then TrimSpace(Param(params, "deployment_name"))
    else TrimSpace(Param(params, "deployment"))
  }

  /** The Deployment a decision of this aim means while nothing else touches the cluster. */
  function TargetName(ns: string, kind: string, name: string, params: map<string, string>, w: World): Option<string>
  {
    if SteeredName(params) != "" then Some(SteeredName(params))
    else if EqualFold(kind, "Deployment") then Some(name)
    else if EqualFold(kind, "Pod") then OwnerOfPod(w, ns, name)
    else None
  }

  /** The decision names no Deployment, and no owner of the pod it names was seen. */
  ghost predicate TargetNotSeen(history: seq<World>, since: nat, ns: string, kind: string, name: string,
                                params: map<string, string>)
  {
    && SteeredName(params) == "" && !EqualFold(kind, "Deployment")
    && (EqualFold(kind, "Pod") ==> OwnerNotSeen(history, since, ns, name))
  }

  /** What the target rests on: the parameters, the decision itself, or the owner a pod showed. */
  ghost predicate TargetFound(history: seq<World>, since: nat, ns: string, kind: string, name: string,
                              params: map<string, string>, found: string)
  {
    if SteeredName(params) != "" then found == SteeredName(params)
    else if EqualFold(kind, "Deployment") then found == name
    else EqualFold(kind, "Pod") && OwnerSeen(history, since, ns, name, found)
  }

  method ResolveDeploymentTarget(api: ApiServer, ns: string, kind: string, name: string, params: map<string, string>)
    returns (r: Result<string>)
    requires api.Valid()
    modifies api
    ensures api.Valid() && api.Quiet()
    ensures r.Ok? ==> TargetFound(api.history, |old(api.history)| - 1, ns, kind, name, params, r.value)
    ensures r.Err? ==>
      || (EqualFold(kind, "Pod") && Faulted(api.taken, |old(api.taken)|))
      || TargetNotSeen(api.history, |old(api.history)| - 1, ns, kind, name, params)
    ensures SteeredName(params) != "" || !EqualFold(kind, "Pod") ==> api.Books() == old(api.Books())
    ensures Spares(old(api.turns)) ==> Known(r) == TargetName(ns, kind, name, params, api.Present())
    ensures var first, second := TrimSpace(Param(params, "deployment_name")), TrimSpace(Param(params, "deployment"));
      if first != "" then r == Ok(first)
      else if second != "" then r == Ok(second)
      else if EqualFold(kind, "Deployment") then r == Ok(name)
      else r.Ok? ==> EqualFold(kind, "Pod") && OwnerSeen(api.history, |old(api.history)| - 1, ns, name, r.value)
  {
    hide OwnerSeen, OwnerNotSeen, OwnerOfPod, TrimSpace, ToLower, ApiServer.Valid, Spares, OnlyOthers, Faulted,
         OnlyRead;
    api.LastMoment();
    NothingRead(api.Books());
    var steered := SteeredName(params);
    if steered != "" {
      return Ok(steered);
    }
    if EqualFold(kind, "Deployment") {
      return Ok(name);
    }
    if EqualFold(kind, "Pod") {
      r := ResolveDeploymentFromPod(api, ns, name);
      return;
    }
    return Err("cannot resolve deployment from kind=" + kind);
  }

  lemma TargetNotSeenSince(history: seq<World>, from: nat, since: nat, ns: string, kind: string, name: string,
                           params: map<string, string>)
    requires TargetNotSeen(history, from, ns, kind, name, params) && since <= from
    ensures TargetNotSeen(history, since, ns, kind, name, params)
  {
    hide OwnerNotSeen, EqualFold, TrimSpace;
    if EqualFold(kind, "Pod") {
      OwnerNotSeenLonger(history, from, history, since, ns, name);
    }
  }

  lemma OwnerSeenLonger(earlier: seq<World>, from: nat, later: seq<World>, since: nat, ns: string, podName: string,
                        d: string)
    requires OwnerSeen(earlier, from, ns, podName, d) && earlier <= later && since <= from
    ensures OwnerSeen(later, since, ns, podName, d)
  {
    hide LeadsTo;
    var i, j :| from <= i <= j < |earlier| && Key(ns, podName) in earlier[i].pods
      && LeadsTo(earlier[i].pods[Key(ns, podName)], earlier[j], ns, d);
    assert later[i] == earlier[i] && later[j] == earlier[j];
  }

  lemma TargetFoundLonger(earlier: seq<World>, from: nat, later: seq<World>, since: nat, ns: string, kind: string,
                          name: string, params: map<string, string>, found: string)
    requires TargetFound(earlier, from, ns, kind, name, params, found) && earlier <= later && since <= from
    ensures TargetFound(later, since, ns, kind, name, params, found)
  {
    hide OwnerSeen, EqualFold, TrimSpace;
    if SteeredName(params) == "" && !EqualFold(kind, "Deployment") {
      OwnerSeenLonger(earlier, from, later, since, ns, name, found);
    }
  }

  lemma OwnerIsFixed(ns: string, podName: string, a: World, b: World)
    requires a.pods == b.pods && a.replicaSets == b.replicaSets
    ensures OwnerOfPod(a, ns, podName) == OwnerOfPod(b, ns, podName)
  {
  }

  /** Who owns a pod depends on pods and ReplicaSets alone. */
  lemma TargetIsFixed(ns: string, kind: string, name: string, params: map<string, string>, a: World, b: World)
    requires a.pods == b.pods && a.replicaSets == b.replicaSets
    ensures TargetName(ns, kind, name, params, a) == TargetName(ns, kind, name, params, b)
  {
    hide EqualFold, TrimSpace;
  }
}
