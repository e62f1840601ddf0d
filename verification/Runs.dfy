/** Whole rollouts: runs of successful Updates, whatever order the lists came in. */
module Runs {
  import opened Wrappers
  import opened Store
  import opened Desired
  import opened Service
  import opened Versions
  import opened Failover
  import opened ServerUpdate
  import opened Shape
  import opened Status
  import opened Rollout
  import opened Creation
  import opened Reconciler
  import OnlyBootVolume
  import opened Steps

  // ---------- convergence ----------

  ghost function StaleSet(cr: ServerSet, st: State): (at: set<nat>)
    ensures forall i: nat :: i in at <==> i < cr.replicas && Stale(cr, st, i)
  {
    set i: nat | i < cr.replicas && Stale(cr, st, i)
  }

  /** A successful Update renews exactly one stale replica, if there is one. */
  lemma StepShrinks(cr: ServerSet, vs: ReplicaVersions, master: int, s: State, t: State, p: Passage)
    requires AllComplete(cr, vs, s) && NoStrangers(cr, s) && Stepped(cr, master, s, t, p)
    ensures p.pick < 0 <==> StaleSet(cr, s) == {}
    ensures p.pick < 0 ==> StaleSet(cr, t) == {}
    ensures p.pick >= 0 ==> p.pick in StaleSet(cr, s) && StaleSet(cr, t) == StaleSet(cr, s) - {p.pick}
    ensures p.pick == master >= 0 ==> StaleSet(cr, s) == {master}
  {
    hide AllComplete, NoStrangers, Stale, SameReplica, VolumeKey, Stepped, NewVolume, Bump;
    StepOfCompleteSet(cr, vs, master, s, t, p);
    if p.pick >= 0 {
      StaleInSet(cr, s, p.pick);
    }
  }

  lemma StaleInSet(cr: ServerSet, s: State, i: nat)
    requires i < cr.replicas && Stale(cr, s, i)
    ensures i in StaleSet(cr, s)
  {
    hide Stale;
  }

  lemma TracksComplete(cr: ServerSet, vs: ReplicaVersions, s: State, st: State) returns (now: ReplicaVersions)
    requires Tracks(cr, vs, s, st)
    ensures AllComplete(cr, now, st) && NoStrangers(cr, st)
  {
    hide AllComplete, NoStrangers, Stale, SameReplica, VolumeKey, NewVolume, VersionsNow;
    now := VersionsNow(cr, vs, s, st);
  }

  /** One Update's effect on the stale replicas. */
  ghost predicate Shrinks(at: set<nat>, after: set<nat>, pick: int, master: int) {
    && (pick < 0 <==> at == {})
    && (if pick < 0 then after == {} else pick in at && after == at - {pick})
    && (pick == master >= 0 ==> at == {pick})
  }

  lemma RunLengths(cr: ServerSet, r: Run)
    requires IsRun(cr, r)
    ensures |r.states| == |r.passages| + 1 && |r.masters| == |r.passages|
  {
    hide Stepped;
  }

  lemma RunShrinks(cr: ServerSet, vs: ReplicaVersions, r: Run, j: nat)
    requires IsRun(cr, r) && StartsComplete(cr, vs, r.states[0]) && j < |r.passages|
    ensures Shrinks(StaleSet(cr, r.states[j]), StaleSet(cr, r.states[j + 1]), r.passages[j].pick, r.masters[j])
  {
    hide Stepped, Tracks, StartsComplete, AllComplete, NoStrangers, StaleSet;
    RunTracks(cr, vs, r, j);
    var now := TracksComplete(cr, vs, r.states[0], r.states[j]);
    StepShrinks(cr, now, r.masters[j], r.states[j], r.states[j + 1], r.passages[j]);
  }

  /** The number of stale replicas goes down by one with every successful Update until none is left:
      with `n` stale at first, the first `n` Updates recreate one each and all later ones none. */
  lemma {:induction false} Converges(cr: ServerSet, vs: ReplicaVersions, r: Run, j: nat)
    requires IsRun(cr, r) && StartsComplete(cr, vs, r.states[0]) && j < |r.states|
    ensures var n := |StaleSet(cr, r.states[0])|;
      && |StaleSet(cr, r.states[j])| == (if j <= n then n - j else 0)
      && (j < |r.passages| ==> (r.passages[j].pick >= 0 <==> j < n))
  {
    hide IsRun, StartsComplete, StaleSet, Shrinks;
    RunLengths(cr, r);
    if j > 0 {
      Converges(cr, vs, r, j - 1);
      RunShrinks(cr, vs, r, j - 1);
      ShrinksBy(StaleSet(cr, r.states[j - 1]), StaleSet(cr, r.states[j]), r.passages[j - 1].pick, r.masters[j - 1]);
    }
    if j < |r.passages| {
      RunShrinks(cr, vs, r, j);
      ShrinksBy(StaleSet(cr, r.states[j]), StaleSet(cr, r.states[j + 1]), r.passages[j].pick, r.masters[j]);
    }
  }

  lemma ShrinksBy(at: set<nat>, after: set<nat>, pick: int, master: int)
    requires Shrinks(at, after, pick, master)
    ensures pick < 0 <==> |at| == 0
    ensures |after| == if pick < 0 then 0 else |at| - 1
  {
  }

  lemma ShrinksWithout(at: set<nat>, after: set<nat>, pick: int, master: int, x: nat)
    requires Shrinks(at, after, pick, master)
    ensures x !in at ==> x !in after && pick != x
    ensures pick == x ==> x !in after
  {
  }

  /** No replica is recreated twice. */
  lemma {:induction false} OnceEach(cr: ServerSet, vs: ReplicaVersions, r: Run, q: nat, j: nat, i: nat)
    requires IsRun(cr, r) && StartsComplete(cr, vs, r.states[0]) && q < j <= |r.passages| && r.passages[q].pick == i
    ensures i !in StaleSet(cr, r.states[j])
    ensures j < |r.passages| ==> r.passages[j].pick != i
  {
    hide IsRun, StartsComplete, StaleSet, Shrinks;
    RunLengths(cr, r);
    if q < j - 1 { OnceEach(cr, vs, r, q, j - 1, i); }
    RunShrinks(cr, vs, r, j - 1);
    ShrinksWithout(StaleSet(cr, r.states[j - 1]), StaleSet(cr, r.states[j]),
                   r.passages[j - 1].pick, r.masters[j - 1], i);
    if j < |r.passages| {
      RunShrinks(cr, vs, r, j);
      ShrinksWithout(StaleSet(cr, r.states[j]), StaleSet(cr, r.states[j + 1]), r.passages[j].pick, r.masters[j], i);
    }
  }

  // ---------- the leader ----------

  /** Every Update was called with the leader of its store, all led by the same identity. */
  ghost predicate IsLed(identity: Identity, r: Run) {
    |r.masters| < |r.states| && forall j :: 0 <= j < |r.masters| ==> LeaderIs(r.states[j], identity, r.masters[j])
  }

  lemma ShapeServers(cr: ServerSet, s: State, t: State, m: int)
    requires SameShape(cr, s, t)
    ensures SameServers(s, t, m)
  {
    hide SameUpToTemplate, Owner;
    forall k: Key | k.kind.ServerKind? && Owner(k) == m && k in s.objs
      ensures k in t.objs && t.objs[k].state == s.objs[k].state && t.objs[k].reconcileError == s.objs[k].reconcileError
    {
      UpToTemplateMade(cr, k, s.objs[k], t.objs[k]);
    }
  }

  lemma OnlyServers(s: State, t: State, i: int, m: int)
    requires OnlyReplica(s, t, i) && m != i
    ensures SameServers(s, t, m)
  {
    hide Owner;
  }

  lemma ServersTransitive(s: State, t: State, u: State, m: int)
    requires SameServers(s, t, m) && SameServers(t, u, m)
    ensures SameServers(s, u, m)
  {
    hide Owner;
  }

  /** An Update that does not exchange the leader leaves the leader. */
  lemma StepKeepsLeader(cr: ServerSet, master: int, s: State, t: State, p: Passage, identity: Identity, m: nat)
    requires Stepped(cr, master, s, t, p) && LeaderIs(s, identity, m) && p.pick != m
    ensures LeaderIs(t, identity, m)
  {
    hide SameShape, SameServers, OnlyReplica, ServersTuned, ServersFit, VolumesFit, Stale, Recreated, LeaderIs;
    StepShape(cr, master, s, t, p);
    ShapeServers(cr, s, if p.pick < 0 then t else p.mid, m);
    if p.pick >= 0 {
      RecreatedOnly(cr, p.pick, p.vv, p.sv, p.mid, t);
      OnlyServers(p.mid, t, p.pick, m);
      ServersTransitive(s, p.mid, t, m);
    }
    LeaderStable(s, t, identity, m);
  }

  /** The leader stays the same replica until it is recreated itself. */
  lemma {:induction false} LeaderStays(cr: ServerSet, r: Run, identity: Identity, m: nat, j: nat)
    requires IsRun(cr, r) && IsLed(identity, r) && LeaderIs(r.states[0], identity, m) && j < |r.states|
    requires forall q :: 0 <= q < j ==> r.passages[q].pick != m
    ensures LeaderIs(r.states[j], identity, m)
    ensures j < |r.masters| ==> r.masters[j] == m
  {
    hide Stepped, LeaderIs;
    if j > 0 {
      LeaderStays(cr, r, identity, m, j - 1);
      StepKeepsLeader(cr, r.masters[j - 1], r.states[j - 1], r.states[j], r.passages[j - 1], identity, m);
    }
    if j < |r.masters| { LeaderUnique(r.states[j], identity, m, r.masters[j]); }
  }

  /** The leader goes last: when its turn comes it is still the leader, and the only stale replica. */
  lemma LeaderLast(cr: ServerSet, vs: ReplicaVersions, r: Run, identity: Identity, m: nat, j: nat)
    requires IsRun(cr, r) && StartsComplete(cr, vs, r.states[0]) && IsLed(identity, r) &&
             LeaderIs(r.states[0], identity, m)
    requires j < |r.passages| && r.passages[j].pick == m
    ensures r.masters[j] == m && StaleSet(cr, r.states[j]) == {m} && StaleSet(cr, r.states[j + 1]) == {}
    ensures j == |StaleSet(cr, r.states[0])| - 1
  {
    hide IsRun, StartsComplete, StaleSet, LeaderIs, IsLed;
    RunLengths(cr, r);
    forall q | 0 <= q < j ensures r.passages[q].pick != m {
      if r.passages[q].pick == m { OnceEach(cr, vs, r, q, j, m); }
    }
    LeaderStays(cr, r, identity, m, j);
    RunShrinks(cr, vs, r, j);
    Converges(cr, vs, r, j);
  }

  /** The server that leads is the one that the exchange is about. */
  lemma LeadingServer(cr: ServerSet, i: nat, vv: nat, sv: nat, s: State, t: State, identity: Identity, k: Key)
    requires Recreated(cr, i, vv, sv, s, t) && k in s.objs && Leads(identity, k, s.objs[k]) && Owner(k) == i
    ensures k == ServerKey(cr, i, sv)
    ensures cr.strategy.CreateAllBeforeDestroy? && identity.ByLease? ==> LeaderIs(t, identity, -1)
    ensures !(cr.strategy.CreateAllBeforeDestroy? && identity.ByLease?) ==> LeaderIs(t, identity, i)
  {
    hide Owner, VersionOf, ServerKey, VolumeKey, Complete, OnlyReplica, NewVolume, StateOf;
    if cr.strategy.CreateAllBeforeDestroy? {
      assert VersionOf(ServerKey(cr, i, sv)) == sv && VersionOf(ServerKey(cr, i, sv + 1)) == sv + 1;
      assert k !in t.objs;
      if identity.ByLease? {
        forall x | x in t.objs ensures !Leads(identity, x, t.objs[x]) {
          assert x != k;
        }
      } else {
        assert Leads(identity, ServerKey(cr, i, sv + 1), t.objs[ServerKey(cr, i, sv + 1)]);
      }
    } else {
      SameState(s.objs[k], t.objs[k]);
      assert Leads(identity, k, t.objs[k]);
    }
  }

  lemma SameState(o: Obj, p: Obj)
    requires p.state == o.state && p.reconcileError == o.reconcileError
    ensures StateOf(p) == StateOf(o)
  {
  }

  /** When the leader itself is recreated, it leads on, unless it holds a lease and is replaced by a server of
      another name: then nobody leads until the lease moves. */
  lemma StepMovesLeader(cr: ServerSet, master: int, s: State, t: State, p: Passage, identity: Identity, m: nat)
    requires Stepped(cr, master, s, t, p) && LeaderIs(s, identity, m) && p.pick == m
    ensures LeaderIs(t, identity, if cr.strategy.CreateAllBeforeDestroy? && identity.ByLease? then -1 else m)
  {
    hide SameShape, ServersTuned, ServersFit, VolumesFit, Stale, Recreated, Owner, StateOf, SameServers;
    StepShape(cr, master, s, t, p);
    ShapeServers(cr, s, p.mid, m);
    LeaderStable(s, p.mid, identity, m);
    var k :| k in p.mid.objs && Leads(identity, k, p.mid.objs[k]) && Owner(k) == m;
    LeadingServer(cr, m, p.vv, p.sv, p.mid, t, identity, k);
  }

  /** How a rollout leaves the leader that went last. */
  lemma LeaderAfterLast(cr: ServerSet, vs: ReplicaVersions, r: Run, identity: Identity, m: nat, j: nat)
    requires IsRun(cr, r) && StartsComplete(cr, vs, r.states[0]) && IsLed(identity, r) &&
             LeaderIs(r.states[0], identity, m)
    requires j < |r.passages| && r.passages[j].pick == m
    ensures LeaderIs(r.states[j + 1], identity,
                     if cr.strategy.CreateAllBeforeDestroy? && identity.ByLease? then -1 else m)
  {
    hide Stepped, StartsComplete, StaleSet, LeaderIs;
    LeaderLast(cr, vs, r, identity, m, j);
    assert LeaderIs(r.states[j], identity, m);
    StepMovesLeader(cr, r.masters[j], r.states[j], r.states[j + 1], r.passages[j], identity, m);
  }

  lemma OneServerEach(cr: ServerSet, vs: ReplicaVersions, st: State, i: int)
    requires AllComplete(cr, vs, st) && NoStrangers(cr, st)
    ensures !Several(st, i, ServerKind)
  {
    hide Complete, Owner, Sole, Several;
    if 0 <= i < cr.replicas {
      CompleteIsSole(cr, i, vs.vol[i], vs.srv[i], st);
      SoleNotJammed(cr, i, vs.vol[i], vs.srv[i], st);
      JammedIsSeveral(st, i);
    } else {
      NoServerOfStranger(cr, st, i);
    }
  }

  lemma NoServerOfStranger(cr: ServerSet, st: State, i: int)
    requires NoStrangers(cr, st) && !(0 <= i < cr.replicas)
    ensures !Several(st, i, ServerKind)
  {
    hide Owner;
  }

  /** Anywhere in a rollout, the statuses computed from any list of the servers name at most one active
      replica. */
  lemma OneActive(cr: ServerSet, vs: ReplicaVersions, r: Run, j: nat, identity: Identity, items: seq<Item>,
                  statuses: seq<ReplicaStatus>, reached: bool, a: nat, b: nat)
    requires IsRun(cr, r) && StartsComplete(cr, vs, r.states[0]) && j < |r.states|
    requires Lists(r.states[j], AllOf(ServerKind), items) && |statuses| == |items|
    requires forall q :: 0 <= q < |items| ==> Status.Describes(identity, items[q], statuses[q], reached)
    requires a < |statuses| && b < |statuses| && statuses[a].role.Active? && statuses[b].role.Active?
    ensures a == b
  {
    hide IsRun, StartsComplete, Tracks, AllComplete, NoStrangers, Lists, Status.Describes, Several;
    RunTracks(cr, vs, r, j);
    var now := TracksComplete(cr, vs, r.states[0], r.states[j]);
    forall i ensures !Several(r.states[j], i, ServerKind) { OneServerEach(cr, now, r.states[j], i); }
    AtMostOneActive(cr, r.states[j], identity, items, statuses, reached, a, b);
  }

  // ---------- list order ----------

  /** A rollout that went on until an Update found nothing stale. */
  ghost predicate Ended(cr: ServerSet, r: Run) {
    IsRun(cr, r) && r.passages != [] && r.passages[|r.passages| - 1].pick < 0
  }

  /** The versions when all that was stale at `s` is renewed. */
  ghost function Raised(cr: ServerSet, vs: ReplicaVersions, s: State): (up: ReplicaVersions)
    requires Fits(cr, vs)
    ensures Fits(cr, up)
  {
    ReplicaVersions(
      seq(|vs.vol|, i requires 0 <= i < |vs.vol| =>
        if Stale(cr, s, i) then vs.vol[i] + 1 else vs.vol[i]),
      seq(|vs.srv|, i requires 0 <= i < |vs.srv| =>
        if Stale(cr, s, i) then NextServerVersion(cr, vs.srv[i]) else vs.srv[i]))
  }

  lemma RaisedNow(cr: ServerSet, vs: ReplicaVersions, s: State, st: State)
    requires Fits(cr, vs) && StaleSet(cr, st) == {}
    ensures VersionsNow(cr, vs, s, st) == Raised(cr, vs, s)
  {
    hide Stale;
    forall i: nat | i < cr.replicas ensures !Stale(cr, st, i) {
      assert i !in StaleSet(cr, st);
    }
  }

  /** What an ended rollout leaves does not depend on the order of any list: the set is complete, fits
      the template, stale replicas are up by exactly one version with the template's volume, and the
      other replicas are as they were up to what is updated in place. */
  lemma EndOfRollout(cr: ServerSet, vs: ReplicaVersions, r: Run)
    requires Ended(cr, r) && StartsComplete(cr, vs, r.states[0])
    ensures var s, t := r.states[0], r.states[|r.states| - 1];
      && AllComplete(cr, Raised(cr, vs, s), t) && NoStrangers(cr, t) && Fitting(cr, t)
      && forall i: nat :: i < cr.replicas ==>
           if Stale(cr, s, i)
           then VolumeKey(cr, i, vs.vol[i] + 1) in t.objs
                && t.objs[VolumeKey(cr, i, vs.vol[i] + 1)].spec == NewVolume(cr, i, 0).spec
           else SameReplica(cr, s, t, i)
  {
    hide Stepped, AllComplete, NoStrangers, Fitting, Stale, VolumeKey, SameReplica, NewVolume, VersionsNow;
    hide Raised, StaleSet;
    var n := |r.passages|;
    var s, t := r.states[0], r.states[n];
    StartFits(cr, vs, s);
    RunTracks(cr, vs, r, n);
    RunShrinks(cr, vs, r, n - 1);
    RaisedNow(cr, vs, s, t);
    SettledFits(cr, r.masters[n - 1], r.states[n - 1], t, r.passages[n - 1]);
    forall i: nat | i < cr.replicas
      ensures if Stale(cr, s, i)
              then VolumeKey(cr, i, vs.vol[i] + 1) in t.objs
                   && t.objs[VolumeKey(cr, i, vs.vol[i] + 1)].spec == NewVolume(cr, i, 0).spec
              else SameReplica(cr, s, t, i)
    {
      if Stale(cr, t, i) { StaleInSet(cr, t, i); }
      assert ReplicaTracks(cr, vs, s, t, i);
    }
  }

  lemma StartFits(cr: ServerSet, vs: ReplicaVersions, s: State)
    requires StartsComplete(cr, vs, s)
    ensures Fits(cr, vs)
  {
    hide Complete, NoStrangers;
  }

  /** The keys of a complete set are those wanted at its versions. */
  lemma SameKeySets(cr: ServerSet, vs: ReplicaVersions, t: State, u: State)
    requires AllComplete(cr, vs, t) && NoStrangers(cr, t) && AllComplete(cr, vs, u) && NoStrangers(cr, u)
    ensures t.objs.Keys == u.objs.Keys
  {
    hide Complete, Owner;
    forall k | k in t.objs ensures k in u.objs { WantedBoth(cr, vs, t, u, k); }
    forall k | k in u.objs ensures k in t.objs { WantedBoth(cr, vs, u, t, k); }
  }

  lemma WantedBoth(cr: ServerSet, vs: ReplicaVersions, t: State, u: State, k: Key)
    requires AllComplete(cr, vs, t) && NoStrangers(cr, t) && AllComplete(cr, vs, u) && k in t.objs
    ensures k in u.objs
  {
    hide InDesired, Owner, Attached, Wired;
    var i := Owner(k);
    assert Complete(cr, i, vs.vol[i], vs.srv[i], t) && Complete(cr, i, vs.vol[i], vs.srv[i], u);
  }

  /** The same objects with the same parameters; ids may differ, so that servers may name their own boot
      volume by another id. */
  ghost predicate SameOutcome(t: State, u: State) {
    && t.objs.Keys == u.objs.Keys
    && (forall k :: k in t.objs && k.kind.VolumeKind? ==> t.objs[k].spec == u.objs[k].spec)
    && (forall k :: k in t.objs && k.kind.ServerKind? ==>
          && t.objs[k].spec.ServerSpec? && u.objs[k].spec.ServerSpec?
          && t.objs[k].spec.(volumeId := 0) == u.objs[k].spec.(volumeId := 0))
  }

  lemma SameServerSpecs(cr: ServerSet, vs: ReplicaVersions, t: State, u: State, k: Key)
    requires AllComplete(cr, vs, t) && NoStrangers(cr, t) && AllComplete(cr, vs, u) && Fitting(cr, t) && Fitting(cr, u)
    requires k in t.objs && k.kind.ServerKind? && k in u.objs
    ensures t.objs[k].spec.ServerSpec? && u.objs[k].spec.ServerSpec?
    ensures t.objs[k].spec.(volumeId := 0) == u.objs[k].spec.(volumeId := 0)
  {
    hide Owner, Wired, ServerKey, VolumeKey, VolumesFit, Retuned;
    var i := Owner(k);
    assert Complete(cr, i, vs.vol[i], vs.srv[i], t) && Complete(cr, i, vs.vol[i], vs.srv[i], u);
    RetunedSpec(cr, t.objs[k]);
    RetunedSpec(cr, u.objs[k]);
  }

  lemma RetunedSpec(cr: ServerSet, o: Obj)
    requires o.spec.ServerSpec?
    ensures Retuned(cr, o).spec == ServerSpec(cr.cores, cr.ram, cr.cpuFamily, cr.nicMultiQueue, o.spec.volumeId)
  {
  }

  lemma SameVolumeSpecs(cr: ServerSet, s: State, t: State, u: State, k: Key)
    requires SameReplica(cr, s, t, Owner(k)) && SameReplica(cr, s, u, Owner(k))
    requires VolumesFit(cr, t) && VolumesFit(cr, u) && k.kind.VolumeKind? && k in t.objs && k in u.objs
    ensures t.objs[k].spec == u.objs[k].spec
  {
    hide Owner, OnlyBootVolume.Differs;
    assert SameUpToTemplate(cr, k, s.objs[k], t.objs[k]) && SameUpToTemplate(cr, k, s.objs[k], u.objs[k]);
  }

  lemma VolumeOfReplica(cr: ServerSet, vs: ReplicaVersions, t: State, k: Key)
    requires AllComplete(cr, vs, t) && NoStrangers(cr, t) && k in t.objs && k.kind.VolumeKind?
    ensures 0 <= Owner(k) < cr.replicas && k == VolumeKey(cr, Owner(k), vs.vol[Owner(k)])
  {
    hide Owner, Wired, Attached, ServerKey, VolumeKey;
    var i := Owner(k);
    assert Complete(cr, i, vs.vol[i], vs.srv[i], t);
  }

  /** Two rollouts from the same store end alike, whatever order every list came in, whoever led, and
      however many Updates each took. */
  lemma ListOrderDoesNotMatter(cr: ServerSet, vs: ReplicaVersions, r: Run, r': Run)
    requires Ended(cr, r) && Ended(cr, r') && r.states[0] == r'.states[0] && StartsComplete(cr, vs, r.states[0])
    ensures SameOutcome(r.states[|r.states| - 1], r'.states[|r'.states| - 1])
  {
    hide IsRun, AllComplete, NoStrangers, Stale, VolumeKey, SameReplica, NewVolume, Raised, ServersFit;
    hide VolumesFit, StartsComplete, Owner;
    RunLengths(cr, r);
    RunLengths(cr, r');
    var s, t, u := r.states[0], r.states[|r.states| - 1], r'.states[|r'.states| - 1];
    EndOfRollout(cr, vs, r);
    EndOfRollout(cr, vs, r');
    StartFits(cr, vs, s);
    var up := Raised(cr, vs, s);
    SameKeySets(cr, up, t, u);
    forall k | k in t.objs && k.kind.ServerKind?
      ensures t.objs[k].spec.ServerSpec? && u.objs[k].spec.ServerSpec?
              && t.objs[k].spec.(volumeId := 0) == u.objs[k].spec.(volumeId := 0)
    {
      assert k in t.objs.Keys;
      SameServerSpecs(cr, up, t, u, k);
    }
    forall k | k in t.objs && k.kind.VolumeKind? ensures t.objs[k].spec == u.objs[k].spec {
      assert k in t.objs.Keys;
      VolumeOfReplica(cr, up, t, k);
      if Stale(cr, s, Owner(k)) { RaisedAt(cr, vs, s, Owner(k)); } else { SameVolumeSpecs(cr, s, t, u, k); }
    }
  }

  lemma RaisedAt(cr: ServerSet, vs: ReplicaVersions, s: State, i: nat)
    requires Fits(cr, vs) && i < cr.replicas && Stale(cr, s, i)
    ensures Raised(cr, vs, s).vol[i] == vs.vol[i] + 1 && Raised(cr, vs, s).srv[i] == NextServerVersion(cr, vs.srv[i])
  {
    hide Stale;
  }

  // ---------- the rollout itself ----------

  lemma RunNext(cr: ServerSet, r: Run, master: int, t: State, p: Passage)
    requires IsRun(cr, r) && Stepped(cr, master, r.states[|r.states| - 1], t, p)
    ensures IsRun(cr, Run(r.states + [t], r.masters + [master], r.passages + [p]))
  {
    hide Stepped;
  }

  lemma LedNext(identity: Identity, r: Run, master: int, t: State, p: Passage)
    requires IsLed(identity, r) && |r.states| == |r.masters| + 1
    requires LeaderIs(r.states[|r.states| - 1], identity, master)
    ensures IsLed(identity, Run(r.states + [t], r.masters + [master], r.passages + [p]))
  {
    hide LeaderIs;
  }

  /** With more Updates than stale replicas the run has ended. */
  lemma LongRunEnds(cr: ServerSet, vs: ReplicaVersions, r: Run)
    requires IsRun(cr, r) && StartsComplete(cr, vs, r.states[0]) && |r.passages| > |StaleSet(cr, r.states[0])|
    ensures Ended(cr, r)
  {
    hide IsRun, StartsComplete, StaleSet;
    RunLengths(cr, r);
    Converges(cr, vs, r, |r.passages| - 1);
  }

  lemma RunStands(cr: ServerSet, vs: ReplicaVersions, r: Run, j: nat)
    requires IsRun(cr, r) && StartsComplete(cr, vs, r.states[0]) && j < |r.states|
    ensures Standing(cr, r.states[j])
  {
    hide IsRun, StartsComplete, Tracks, AllComplete, NoStrangers, Standing;
    RunTracks(cr, vs, r, j);
    var now := TracksComplete(cr, vs, r.states[0], r.states[j]);
    CompleteStands(cr, now, r.states[j]);
  }

  lemma CurrentIffEmpty(cr: ServerSet, st: State)
    requires NoStrangers(cr, st)
    ensures AllCurrent(cr, st) <==> StaleSet(cr, st) == {}
  {
    hide Stale, NoStrangers;
    if !AllCurrent(cr, st) {
      var i :| Stale(cr, st, i);
      StaleOwner(cr, st, i);
      StaleInSet(cr, st, i);
    }
  }

  /** After as many Updates as there were stale replicas, and not before, none is stale. */
  lemma RunCurrent(cr: ServerSet, vs: ReplicaVersions, r: Run, j: nat)
    requires IsRun(cr, r) && StartsComplete(cr, vs, r.states[0]) && j < |r.states|
    ensures AllCurrent(cr, r.states[j]) <==> j >= |StaleSet(cr, r.states[0])|
  {
    hide IsRun, StartsComplete, Tracks, AllComplete, NoStrangers, StaleSet, AllCurrent;
    RunLengths(cr, r);
    RunTracks(cr, vs, r, j);
    var now := TracksComplete(cr, vs, r.states[0], r.states[j]);
    CurrentIffEmpty(cr, r.states[j]);
    Converges(cr, vs, r, j);
  }

  /** Nothing fails outside, and servers report in time. */
  ghost predicate Smooth(e: External) {
    e.kube.reliable && e.watch.Prompt()
  }

  /** Observe and Update in turn, `rounds` times, up to the first that fails. If none does, the run is
      a rollout; with more rounds than stale replicas it has ended. `led` says that the lease could be
      read every time. When nothing fails outside, nothing fails here, except that an Update that recreates
      a replica ends in a timeout when it waits for the server it has removed. */
  method KeepUpdating(e: External, cr: ServerSet, identity: Identity, rounds: nat, ghost vs: ReplicaVersions)
      returns (ok: bool, ghost r: Run, ghost led: bool)
    requires WellFormed(cr, e.kube.st) && RulesActive(cr) && e.named && StartsComplete(cr, vs, e.kube.st)
    modifies e`statuses, e.kube, e.watch
    ensures KeepsAll(cr, old(e.kube.st), e.kube.st)
    ensures ok ==> (
      && IsRun(cr, r) && |r.passages| == rounds && r.states[0] == old(e.kube.st) && r.states[rounds] == e.kube.st)
    ensures ok && led ==> IsLed(identity, r)
    ensures ok && rounds > |StaleSet(cr, old(e.kube.st))| ==> Ended(cr, r)
    ensures Smooth(e) && (!WaitsForRemoved(cr) || |StaleSet(cr, old(e.kube.st))| == 0) ==> ok && led
    ensures Smooth(e) && e.watch.quiet ==>
              (ok <==> !WaitsForRemoved(cr) || rounds == 0 || |StaleSet(cr, old(e.kube.st))| == 0)
  {
    hide WellFormed, RulesActive, StartsComplete, KeepsAll, AllKeep, IsRun, IsLed, Ended, StaleSet, Exact;
    hide StoreUp, Fitting;
    hide LeaderIs, Stepped, Standing, AllCurrent, Trailed, Timed, NoFailureSince, StatusesOf, ServersFit, Counted;
    hide StorePlain;
    ghost var s := e.kube.st;
    r, led, ok := Run([s], [], []), true, true;
    KeepsStart(cr, s);
    StartOfRun(cr, identity, s);
    for n := 0 to rounds
      invariant ok && IsRun(cr, r) && |r.passages| == n && |r.states| == n + 1 && |r.masters| == n
      invariant r.states[0] == s && r.states[n] == e.kube.st && KeepsAll(cr, s, e.kube.st)
      invariant led ==> IsLed(identity, r)
      invariant Smooth(e) ==> led
      invariant Smooth(e) && e.watch.quiet && WaitsForRemoved(cr) ==> n == 0 || |StaleSet(cr, s)| == 0
    {
      ghost var t := e.kube.st;
      KeepsWellFormed(cr, s, t);
      RunStands(cr, vs, r, n);
      RunCurrent(cr, vs, r, n);
      ghost var seenMap, reached, reachedAgain, master, p;
      var seen;
      seen, seenMap, reached := e.Observe(cr, identity, vs);
      if seen.None? {
        return false, r, led;
      }
      ghost var trail;
      ok, master, p, reachedAgain, trail := e.Update(cr, identity);
      KeepsTransitive(cr, s, t, e.kube.st);
      if !ok {
        return;
      }
      RunNext(cr, r, master, e.kube.st, p);
      led := led && reached;
      if led { LedNext(identity, r, master, e.kube.st, p); }
      r := Run(r.states + [e.kube.st], r.masters + [master], r.passages + [p]);
    }
    if rounds > |StaleSet(cr, s)| { LongRunEnds(cr, vs, r); }
  }

  /** The same, going on whatever is reported. When nothing fails outside, the store goes through the rollout
      under every strategy, with or without a state map, and `failed` of the Updates report a failure: none,
      or, when each waits for a server it has removed, those that recreate a replica. */
  method KeepRetrying(e: External, cr: ServerSet, identity: Identity, rounds: nat, ghost vs: ReplicaVersions)
      returns (ghost r: Run, ghost failed: nat)
    requires WellFormed(cr, e.kube.st) && RulesActive(cr) && e.named && StartsComplete(cr, vs, e.kube.st)
    modifies e`statuses, e.kube, e.watch
    ensures KeepsAll(cr, old(e.kube.st), e.kube.st)
    ensures Smooth(e) ==> (
      && IsRun(cr, r) && |r.passages| == rounds && r.states[0] == old(e.kube.st) && r.states[rounds] == e.kube.st
      && IsLed(identity, r)
      && (rounds > |StaleSet(cr, old(e.kube.st))| ==> Ended(cr, r))
      && (!WaitsForRemoved(cr) ==> failed == 0)
      && (e.watch.quiet && WaitsForRemoved(cr) ==> failed == Least(rounds, |StaleSet(cr, old(e.kube.st))|)))
  {
    hide WellFormed, RulesActive, StartsComplete, KeepsAll, AllKeep, IsRun, IsLed, Ended, StaleSet, Exact;
    hide StoreUp, Fitting;
    hide LeaderIs, Stepped, Standing, AllCurrent, Trailed, Timed, NoFailureSince, StatusesOf, ServersFit, Counted;
    hide StorePlain;
    ghost var s := e.kube.st;
    r, failed := Run([s], [], []), 0;
    KeepsStart(cr, s);
    StartOfRun(cr, identity, s);
    for n := 0 to rounds
      invariant |r.states| > 0 && KeepsAll(cr, s, e.kube.st)
      invariant Smooth(e) ==> IsRun(cr, r) && |r.passages| == n && |r.states| == n + 1 && |r.masters| == n
      invariant Smooth(e) ==> r.states[0] == s && r.states[n] == e.kube.st && IsLed(identity, r)
      invariant Smooth(e) && !WaitsForRemoved(cr) ==> failed == 0
      invariant Smooth(e) && e.watch.quiet && WaitsForRemoved(cr) ==> failed == Least(n, |StaleSet(cr, s)|)
    {
      ghost var t := e.kube.st;
      KeepsWellFormed(cr, s, t);
      if Smooth(e) {
        RunStands(cr, vs, r, n);
        RunCurrent(cr, vs, r, n);
      }
      ghost var seenMap, reached, reachedAgain, master, p;
      var seen, ok;
      seen, seenMap, reached := e.Observe(cr, identity, vs);
      ghost var trail;
      ok, master, p, reachedAgain, trail := e.Update(cr, identity);
      KeepsTransitive(cr, s, t, e.kube.st);
      if Smooth(e) {
        RunNext(cr, r, master, e.kube.st, p);
        LedNext(identity, r, master, e.kube.st, p);
      }
      r := Run(r.states + [e.kube.st], r.masters + [master], r.passages + [p]);
      if !ok {
        failed := failed + 1;
      }
    }
    if Smooth(e) && rounds > |StaleSet(cr, s)| { LongRunEnds(cr, vs, r); }
  }

  function Least(a: nat, b: nat): nat {
    if a < b then a else b
  }

  lemma StartOfRun(cr: ServerSet, identity: Identity, s: State)
    ensures IsRun(cr, Run([s], [], [])) && IsLed(identity, Run([s], [], []))
  {
  }
}
