/** Update: servers to the template, then at most one boot volume replaced, the leader's last. */
module Rollout {
  import opened Wrappers
  import opened Names
  import opened Store
  import opened Desired
  import opened Growth
  import opened Service
  import opened Versions
  import opened Failover
  import opened ServerUpdate
  import opened Shape
  import opened Status
  import OnlyBootVolume
  import CreateBeforeDestroy

  function NextServerVersion(cr: ServerSet, sv: nat): nat {
    if cr.strategy.CreateAllBeforeDestroy? then sv + 1 else sv
  }

  /** A new server is ready, a kept one is in the state it was in. */
  ghost predicate ServerAfter(cr: ServerSet, i: nat, sv: nat, s: State, t: State) {
    if cr.strategy.CreateAllBeforeDestroy?
    then ServerKey(cr, i, sv + 1) in t.objs && StateOf(t.objs[ServerKey(cr, i, sv + 1)]) == READY
    else OnlyBootVolume.SameServer(cr, i, sv, s, t)
  }

  lemma ReadyServer(st: State, k: Key)
    requires Ready(st, k) && !st.objs[k].reconcileError
    ensures k in st.objs && StateOf(st.objs[k]) == READY
  {
  }

  /** Replica `i` got its next boot volume, as the template says, and other replicas are untouched; if
      it was complete, it is complete at the next versions. */
  ghost predicate Recreated(cr: ServerSet, i: nat, vv: nat, sv: nat, s: State, t: State) {
    && Sole(cr, i, vv, sv, s) && Sole(cr, i, vv + 1, NextServerVersion(cr, sv), t)
    && OnlyReplica(s, t, i)
    && t.objs[VolumeKey(cr, i, vv + 1)].spec == NewVolume(cr, i, vv + 1).spec
    && ServerAfter(cr, i, sv, s, t) && NewFit(cr, s, t)
    && (Complete(cr, i, vv, sv, s) ==> Complete(cr, i, vv + 1, NextServerVersion(cr, sv), t))
  }

  // ---------- one replica ----------

  lemma StaleSole(cr: ServerSet, i: nat, vv: nat, sv: nat, st: State)
    requires Stale(cr, st, i) && Sole(cr, i, vv, sv, st)
    ensures OnlyBootVolume.Differs(cr, st.objs[VolumeKey(cr, i, vv)].spec)
  {
    hide Owner, ServerKey, VolumeKey;
  }

  lemma RecreatedFrom(cr: ServerSet, i: nat, vv: nat, sv: nat, s: State, t: State)
    requires Sole(cr, i, vv, sv, s) && Safe(cr, i, vv, sv, s, t)
    requires Sole(cr, i, vv + 1, NextServerVersion(cr, sv), t)
    requires t.objs[VolumeKey(cr, i, vv + 1)].spec == NewVolume(cr, i, vv + 1).spec
    requires Complete(cr, i, vv, sv, s) ==> Complete(cr, i, vv + 1, NextServerVersion(cr, sv), t)
    requires ServerAfter(cr, i, sv, s, t) && NewFit(cr, s, t)
    ensures Recreated(cr, i, vv, sv, s, t)
  {
    hide Sole, Complete, WellFormed, OnlyReplica, ServedWith, VolumeKey, NewVolume, ServerAfter, NewFit;
  }

  /** getUpdaterByStrategy, and the update itself. */
  method UpdateByStrategy(kube: Kube, cr: ServerSet, i: nat, vv: nat, sv: nat) returns (ok: bool)
    requires WellFormed(cr, kube.st) && RulesActive(cr) && Sole(cr, i, vv, sv, kube.st)
    requires OnlyBootVolume.Differs(cr, kube.st.objs[VolumeKey(cr, i, vv)].spec)
    modifies kube
    ensures kube.reliable && Complete(cr, i, vv, sv, old(kube.st)) ==> ok
    ensures Safe(cr, i, vv, sv, old(kube.st), kube.st)
    ensures old(kube.trace) <= kube.trace && AllSafe(cr, i, vv, sv, old(kube.st), kube.trace, |old(kube.trace)|)
    ensures ok ==> Recreated(cr, i, vv, sv, old(kube.st), kube.st)
  {
    hide WellFormed, Sole, Safe, AllSafe, Complete, Recreated, ServerKey, VolumeKey, NewVolume, RulesActive;
    hide OnlyBootVolume.Differs, OnlyBootVolume.SameServer, Ready, StateOf, NewFit;
    ghost var s := kube.st;
    match cr.strategy {
      case CreateAllBeforeDestroy =>
        ok := CreateBeforeDestroy.Update(kube, cr, i, vv, sv);
        if ok { ReadyServer(kube.st, ServerKey(cr, i, sv + 1)); }
      case CreateBeforeDestroyBootVolume =>
        ok := OnlyBootVolume.Update(kube, cr, i, vv, sv);
      case Unspecified =>
        ok := OnlyBootVolume.Update(kube, cr, i, vv, sv);
    }
    if ok { RecreatedFrom(cr, i, vv, sv, s, kube.st); }
  }

  ghost predicate CompleteAtSome(cr: ServerSet, i: nat, st: State) {
    exists vv: nat, sv: nat :: Complete(cr, i, vv, sv, st)
  }

  /** A complete replica has one server and one volume, at the versions at which it is complete. */
  lemma CompleteVersions(cr: ServerSet, i: nat, pair: Pair, st: State)
    requires CompleteAtSome(cr, i, st)
    requires pair.Both? ==> Sole(cr, i, pair.volume, pair.server, st)
    requires pair.NoVolume? ==> NoneOf(st, i, VolumeKind)
    requires pair.NoServer? ==> NoneOf(st, i, ServerKind)
    ensures !Several(st, i, VolumeKind) && !Several(st, i, ServerKind) && !pair.NoVolume? && !pair.NoServer?
    ensures pair.Both? ==> Complete(cr, i, pair.volume, pair.server, st)
  {
    hide Complete, Sole, Several, NoneOf;
    var vv: nat, sv: nat :| Complete(cr, i, vv, sv, st);
    CompleteIsSole(cr, i, vv, sv, st);
    SoleNotJammed(cr, i, vv, sv, st);
    JammedIsSeveral(st, i);
    SoleNotNone(cr, i, vv, sv, st);
    if pair.Both? { SoleUnique(cr, i, vv, sv, pair.volume, pair.server, st); }
  }

  lemma SoleNotNone(cr: ServerSet, i: nat, vv: nat, sv: nat, st: State)
    requires Sole(cr, i, vv, sv, st)
    ensures !NoneOf(st, i, VolumeKind) && !NoneOf(st, i, ServerKind)
  {
    hide ServerKey, VolumeKey, Owner;
  }

  lemma SoleUnique(cr: ServerSet, i: nat, vv: nat, sv: nat, vv': nat, sv': nat, st: State)
    requires Sole(cr, i, vv, sv, st) && Sole(cr, i, vv', sv', st)
    ensures vv == vv' && sv == sv'
  {
    hide ServerKey, VolumeKey, Owner, VersionOf;
    assert VersionOf(ServerKey(cr, i, sv)) == VersionOf(ServerKey(cr, i, sv'));
    assert VersionOf(VolumeKey(cr, i, vv)) == VersionOf(VolumeKey(cr, i, vv'));
  }

  method UpdateByIndex(kube: Kube, cr: ServerSet, i: nat) returns (ok: bool, ghost vv: nat, ghost sv: nat)
    requires WellFormed(cr, kube.st) && RulesActive(cr) && Stale(cr, kube.st, i)
    modifies kube
    ensures Stays(cr, i, old(kube.st), kube.st)
    ensures old(kube.trace) <= kube.trace && AllStay(cr, i, old(kube.st), kube.trace, |old(kube.trace)|)
    ensures ok ==> Recreated(cr, i, vv, sv, old(kube.st), kube.st)
    ensures kube.reliable && CompleteAtSome(cr, i, old(kube.st)) ==> ok
    ensures Jammed(old(kube.st), i) ==> !ok && kube.st == old(kube.st) && kube.trace == old(kube.trace)
  {
    hide WellFormed, Sole, Safe, AllSafe, Stays, Recreated, VolumeKey, Stale, OnlyBootVolume.Differs, RulesActive;
    hide CompleteAtSome, Complete, NoneOf, Several, Jammed;
    vv, sv := 0, 0;
    ghost var s := kube.st;
    NothingStays(cr, i, s);
    var versions := GetVersionsFromVolumeAndServer(kube, cr, i);
    if CompleteAtSome(cr, i, s) { CompleteVersions(cr, i, versions, s); }
    if !versions.Both? {
      return false, 0, 0;
    }
    vv, sv := versions.volume, versions.server;
    StaleSole(cr, i, vv, sv, s);
    SoleNotJammed(cr, i, vv, sv, s);
    ok := UpdateByStrategy(kube, cr, i, versions.volume, versions.server);
    SafeStays(cr, i, vv, sv, s, kube.st);
    AllSafeStay(cr, i, vv, sv, s, kube.trace, |old(kube.trace)|);
  }

  lemma NothingStays(cr: ServerSet, i: nat, s: State)
    requires WellFormed(cr, s)
    ensures Stays(cr, i, s, s)
  {
    hide WellFormed, InService, Jammed, ZeroWithoutVolume;
  }

  /** The server of a replica in a list, found by its index label. */
  method FindServerByReplicaIndex(cr: ServerSet, st: State, items: seq<Item>, i: int) returns (r: Option<Item>)
    requires WellFormed(cr, st) && Lists(st, AllOf(ServerKind), items)
    ensures r.Some? ==> r.value in items && Owner(r.value.key) == i
    ensures r.None? ==> forall j :: 0 <= j < |items| ==> Owner(items[j].key) != i
  {
    hide WellFormed, Lists, Owner, VersionOf, ServerKey, VolumeKey;
    for j := 0 to |items|
      invariant forall q :: 0 <= q < j ==> Owner(items[q].key) != i
    {
      ListedObject(st, AllOf(ServerKind), items, j);
      LabelsOf(cr, st, items[j].key);
      if ComputeReplicaIdx(items[j].obj.labels.replica) == i {
        return Some(items[j]);
      }
    }
    return None;
  }

  /** Before the exchange every server was seen running, and afterwards the one listed before. */
  ghost predicate Orchestrated(cr: ServerSet, seen: seq<Observation>, start: nat, items: seq<Item>, i: nat,
                               requested: nat, from: nat, upto: nat)
  {
    cr.hasStateMap ==>
      && AllSeenRunning(seen, items, start, from)
      && exists item :: item in items && Owner(item.key) == i && SawRunning(seen, item.key.name, requested, upto)
  }

  /** After the exchange the code waits for the server it had listed before: under createAllBeforeDestroy that
      server is gone by then. */
  predicate WaitsForRemoved(cr: ServerSet) {
    cr.hasStateMap && cr.strategy.CreateAllBeforeDestroy?
  }

  /** The server waited for is there exactly if the strategy keeps the server. */
  lemma WaitedServer(cr: ServerSet, i: nat, vv: nat, sv: nat, s: State, t: State, k: Key)
    requires Recreated(cr, i, vv, sv, s, t) && k.kind.ServerKind? && Owner(k) == i && k in s.objs
    ensures k in t.objs <==> !cr.strategy.CreateAllBeforeDestroy?
  {
    hide Owner, VersionOf, ServerKey, VolumeKey, Complete, OnlyReplica, NewVolume, ServerAfter, NewFit;
    assert k == ServerKey(cr, i, sv);
    assert VersionOf(ServerKey(cr, i, sv)) == sv && VersionOf(ServerKey(cr, i, sv + 1)) == sv + 1;
  }

  /** With prompt servers and nothing failing, a complete replica is recreated in any case, and the call
      succeeds unless it waits for the removed server; if removed servers have left old reports only, it then
      ends in a timeout. */
  method UpdateWithFailoverOrchestration(kube: Kube, w: Watch, cr: ServerSet, i: nat)
      returns (ok: bool, ghost vv: nat, ghost sv: nat, ghost items: seq<Item>, ghost requested: nat)
    requires WellFormed(cr, kube.st) && RulesActive(cr) && Stale(cr, kube.st, i)
    modifies kube, w`seen, w`clock
    ensures old(w.seen) <= w.seen && old(w.clock) <= w.clock
    ensures ok ==> NoFailureSince(w.seen, |old(w.seen)|) && old(w.clock) < requested <= w.clock
    ensures kube.trace != old(kube.trace) ==> Lists(old(kube.st), AllOf(ServerKind), items)
    ensures kube.trace != old(kube.trace) && cr.hasStateMap ==>
              AllSeenRunning(w.seen, items, w.startTime, |old(kube.trace)|)
    ensures Jammed(old(kube.st), i) ==> !ok && kube.st == old(kube.st) && kube.trace == old(kube.trace)
    ensures Stays(cr, i, old(kube.st), kube.st)
    ensures old(kube.trace) <= kube.trace && AllStay(cr, i, old(kube.st), kube.trace, |old(kube.trace)|)
    ensures ok ==> Recreated(cr, i, vv, sv, old(kube.st), kube.st)
    ensures ok ==> Lists(old(kube.st), AllOf(ServerKind), items)
    ensures ok ==> Orchestrated(cr, w.seen, w.startTime, items, i, requested, |old(kube.trace)|, |kube.trace|)
    ensures w.Prompt() && kube.reliable && CompleteAtSome(cr, i, old(kube.st)) ==>
              Recreated(cr, i, vv, sv, old(kube.st), kube.st) && (!WaitsForRemoved(cr) ==> ok)
    ensures w.quiet && WaitsForRemoved(cr) ==> !ok
  {
    hide WellFormed, Lists, Stays, Recreated, Stale, SawRunning, SawUpdated, Owner, RulesActive, CompleteAtSome;
    hide NoFailureSince, AllSeenRunning, Jammed;
    vv, sv, items, requested := 0, 0, [], 0;
    ghost var s := kube.st;
    NothingStays(cr, i, s);
    NoFailureYet(w.seen);
    var servers := kube.List(AllOf(ServerKind));
    if servers.None? {
      return false, 0, 0, [], 0;
    }
    items := servers.value;
    ServersThere(cr, s, items);
    if cr.hasStateMap {
      var ready := w.AreAllVMsReadyForFailover(kube, servers.value);
      if !ready {
        return false, 0, 0, items, 0;
      }
    }
    var before, seen := kube.st, w.seen;
    var requestTimestamp := w.Now();
    requested := requestTimestamp;
    ok, vv, sv := UpdateByIndex(kube, cr, i);
    if ok && cr.hasStateMap {
      if CompleteAtSome(cr, i, before) { CompleteListed(cr, i, before, servers.value); }
      var serverObj := FindServerByReplicaIndex(cr, before, servers.value, i);
      if serverObj.None? {
        return false, vv, sv, items, requested;
      }
      ListedServerThere(cr, before, servers.value, serverObj.value);
      WaitedServer(cr, i, vv, sv, before, kube.st, serverObj.value.key);
      ok := w.WaitRunning(kube, requestTimestamp, serverObj.value.key.name);
      StillSeen(seen, w.seen);
      AllStillSeen(seen, w.seen, items, w.startTime, |old(kube.trace)|);
      if ok { NoFailureJoined(seen, w.seen, |old(w.seen)|); }
    }
  }

  lemma NoFailureYet(seen: seq<Observation>)
    ensures NoFailureSince(seen, |seen|)
  {
  }

  lemma ServersThere(cr: ServerSet, st: State, items: seq<Item>)
    requires Lists(st, AllOf(ServerKind), items)
    ensures AllThere(st, items)
  {
  }

  lemma ListedServerThere(cr: ServerSet, st: State, items: seq<Item>, item: Item)
    requires Lists(st, AllOf(ServerKind), items) && item in items
    ensures item.key in st.objs && item.key.kind == ServerKind && item.key == Key(ServerKind, item.key.name)
  {
  }

  lemma CompleteListed(cr: ServerSet, i: nat, st: State, items: seq<Item>)
    requires CompleteAtSome(cr, i, st) && Lists(st, AllOf(ServerKind), items)
    ensures exists j :: 0 <= j < |items| && Owner(items[j].key) == i
  {
    hide Complete, Owner, ServerKey, VolumeKey;
    var vv: nat, sv: nat :| Complete(cr, i, vv, sv, st);
    CompleteIsSole(cr, i, vv, sv, st);
    assert Matches(AllOf(ServerKind), ServerKey(cr, i, sv), st.objs[ServerKey(cr, i, sv)]);
  }

  // ---------- the volumes ----------

  /** A volume that fits has the template's size, type, image and hot-plug flag, one by one. */
  lemma FittingVolume(cr: ServerSet, spec: Spec)
    requires spec.VolumeSpec?
    ensures spec.size == cr.size && !OnlyBootVolume.Differs(cr, spec) <==>
              && spec.size == cr.size && spec.typ == cr.typ && spec.image == cr.image
              && spec.setHotPlugsFromImage == cr.setHotPlugsFromImage
  {
  }

  /** Compares with the template and takes over what differs. */
  method UpdateOrRecreate(params: Spec, cr: ServerSet) returns (spec: Spec, update: bool, deleteAndCreate: bool)
    requires params.VolumeSpec?
    ensures update <==> params.size != cr.size
    ensures deleteAndCreate <==> OnlyBootVolume.Differs(cr, params)
    ensures spec == params.(size := cr.size, typ := cr.typ, image := cr.image,
                            setHotPlugsFromImage := cr.setHotPlugsFromImage)
  {
    spec, update, deleteAndCreate := params, false, false;
    if spec.size != cr.size {
      update := true;
      spec := spec.(size := cr.size);
    }
    if spec.typ != cr.typ {
      deleteAndCreate := true;
      spec := spec.(typ := cr.typ);
    }
    if spec.image != cr.image {
      deleteAndCreate := true;
      spec := spec.(image := cr.image);
    }
    if spec.setHotPlugsFromImage != cr.setHotPlugsFromImage {
      deleteAndCreate := true;
      spec := spec.(setHotPlugsFromImage := cr.setHotPlugsFromImage);
    }
  }

  /** The outcome of one successful round over the volumes: nothing was stale and all sizes fit, or
      exactly one stale replica was recreated, the leader only when no other was stale. */
  ghost predicate Round(cr: ServerSet, master: int, s: State, t: State, chosen: int, mid: State, vv: nat, sv: nat) {
    if chosen < 0 then
      && SameShape(cr, s, t) && VolumesFit(cr, t)
      && forall i :: !Stale(cr, s, i)
    else
      && SameShape(cr, s, mid) && Stale(cr, s, chosen) && Recreated(cr, chosen, vv, sv, mid, t)
      && (chosen == master ==> forall i :: i != master ==> !Stale(cr, s, i))
  }

  ghost predicate VolumesFit(cr: ServerSet, t: State) {
    forall k :: k in t.objs && k.kind.VolumeKind? && t.objs[k].spec.VolumeSpec? ==>
      t.objs[k].spec.size == cr.size && !OnlyBootVolume.Differs(cr, t.objs[k].spec)
  }

  /** The first `n` volumes are dealt with: not stale and of the right size, or stale and the leader's
      (`leader` says whether there was one); the others are as listed. */
  ghost predicate DealtWith(cr: ServerSet, master: int, st: State, items: seq<Item>, n: nat, leader: bool) {
    && (forall q :: 0 <= q < |items| ==>
          && items[q].key in st.objs && items[q].key.kind.VolumeKind?
          && items[q].obj.spec.VolumeSpec? && Owner(items[q].key) >= 0)
    && (forall p, q :: 0 <= p < q < |items| ==> items[p].key != items[q].key)
    && (forall q :: n <= q < |items| ==> st.objs[items[q].key] == items[q].obj)
    && (forall q :: 0 <= q < |items| && q < n ==>
          if OnlyBootVolume.Differs(cr, items[q].obj.spec) then leader && Owner(items[q].key) == master
          else st.objs[items[q].key] == Resized(cr, items[q].obj))
    && (leader ==>
          exists q :: 0 <= q < |items| && q < n && Owner(items[q].key) == master
            && OnlyBootVolume.Differs(cr, items[q].obj.spec))
  }

  lemma DealtStart(cr: ServerSet, master: int, st: State, items: seq<Item>)
    requires WellFormed(cr, st) && Lists(st, AllOf(VolumeKind), items)
    ensures DealtWith(cr, master, st, items, 0, false)
  {
    hide WellFormed, Owner;
    forall q | 0 <= q < |items|
      ensures items[q].key.kind.VolumeKind? && items[q].obj.spec.VolumeSpec? && Owner(items[q].key) >= 0
    {
      OnlyBootVolume.VolumeIsVolume(cr, st, items[q].key);
      NonNegative(cr, st, items[q].key);
    }
  }

  lemma DealtLeader(cr: ServerSet, master: int, st: State, items: seq<Item>, n: nat, leader: bool)
    requires DealtWith(cr, master, st, items, n, leader) && n < |items|
    requires Owner(items[n].key) == master && OnlyBootVolume.Differs(cr, items[n].obj.spec)
    ensures DealtWith(cr, master, st, items, n + 1, true)
  {
    hide Owner, OnlyBootVolume.Differs;
  }

  lemma DealtSize(cr: ServerSet, master: int, st: State, t: State, items: seq<Item>, n: nat, leader: bool)
    requires DealtWith(cr, master, st, items, n, leader) && n < |items|
    requires !OnlyBootVolume.Differs(cr, items[n].obj.spec) && items[n].obj.spec.VolumeSpec?
    requires t == st.(objs := st.objs[items[n].key := Resized(cr, items[n].obj)])
             || (t == st && Resized(cr, items[n].obj) == items[n].obj)
    ensures DealtWith(cr, master, t, items, n + 1, leader)
  {
    hide Owner, OnlyBootVolume.Differs, Resized;
  }

  lemma ListedNow(cr: ServerSet, master: int, st: State, items: seq<Item>, n: nat, leader: bool)
    requires DealtWith(cr, master, st, items, n, leader) && n < |items|
    ensures items[n].key in st.objs && st.objs[items[n].key] == items[n].obj
    ensures items[n].key.kind.VolumeKind? && items[n].obj.spec.VolumeSpec? && Owner(items[n].key) >= 0
  {
    hide Owner;
  }

  lemma DealtAll(cr: ServerSet, master: int, s: State, t: State, items: seq<Item>, leader: bool)
    requires Lists(s, AllOf(VolumeKind), items) && SameShape(cr, s, t)
    requires DealtWith(cr, master, t, items, |items|, leader)
    ensures forall i :: i != master ==> !Stale(cr, s, i)
    ensures Stale(cr, s, master) <==> leader
    ensures !leader ==> VolumesFit(cr, t)
  {
    hide Owner, OnlyBootVolume.Differs, SameUpToTemplate;
    forall k | k in s.objs && k.kind.VolumeKind? ensures exists q :: 0 <= q < |items| && items[q].key == k {
      assert Matches(AllOf(VolumeKind), k, s.objs[k]);
    }
    if leader {
      var q :| 0 <= q < |items| && Owner(items[q].key) == master && OnlyBootVolume.Differs(cr, items[q].obj.spec);
      assert Of(items[q].key, master, VolumeKind);
    } else {
      FitAll(cr, master, s, t, items);
    }
  }

  lemma FitAll(cr: ServerSet, master: int, s: State, t: State, items: seq<Item>)
    requires Lists(s, AllOf(VolumeKind), items) && SameShape(cr, s, t)
    requires DealtWith(cr, master, t, items, |items|, false)
    ensures VolumesFit(cr, t)
  {
    hide Owner, SameUpToTemplate;
    forall k | k in t.objs && k.kind.VolumeKind? && t.objs[k].spec.VolumeSpec?
      ensures t.objs[k].spec.size == cr.size && !OnlyBootVolume.Differs(cr, t.objs[k].spec)
    {
      assert Matches(AllOf(VolumeKind), k, s.objs[k]);
      var q :| 0 <= q < |items| && items[q].key == k;
    }
  }

  /** A stale volume that is not the leader's: its replica is recreated and the round ends. */
  lemma StaleListed(cr: ServerSet, s: State, items: seq<Item>, n: nat)
    requires Lists(s, AllOf(VolumeKind), items) && n < |items| && OnlyBootVolume.Differs(cr, items[n].obj.spec)
    ensures Stale(cr, s, Owner(items[n].key))
  {
    hide Owner, OnlyBootVolume.Differs;
    assert Of(items[n].key, Owner(items[n].key), VolumeKind);
  }

  /** Joins the part of a round before an exchange with the exchange itself. */
  lemma RoundKeeps(cr: ServerSet, i: nat, s: State, mid: State, t: State, before: seq<State>, trace: seq<State>, n: nat)
    requires WellFormed(cr, s) && SameShape(cr, s, mid) && AllShape(cr, s, before, n) && before <= trace
    requires Stays(cr, i, mid, t) && AllStay(cr, i, mid, trace, |before|)
    ensures KeepsAll(cr, s, t) && AllKeep(cr, s, trace, n)
  {
    hide WellFormed, SameShape, Stays, KeepsAll, AllShape, AllStay, AllKeep;
    ShapeKeeps(cr, s, mid);
    AllShapeKeep(cr, s, before, n);
    StaysKeeps(cr, i, mid, t);
    AllStayKeep(cr, i, mid, trace, |before|);
    KeepsTransitive(cr, s, mid, t);
    KeepJoined(cr, s, mid, before, trace, n);
  }

  /** Goes through the volumes in list order up to the first stale one that is not the leader's: `stop`
      is its replica, or -1. `leader` says whether the leader's volume was found stale on the way. Wherever
      it stops, at the volume `at` of the list, those behind it are as listed. */
  method ResizeUntilStale(kube: Kube, cr: ServerSet, items: seq<Item>, master: int, ghost s: State)
      returns (ok: bool, stop: int, leader: bool, ghost at: nat)
    requires WellFormed(cr, kube.st) && Lists(kube.st, AllOf(VolumeKind), items) && s == kube.st
    modifies kube
    ensures SameShape(cr, s, kube.st)
    ensures old(kube.trace) <= kube.trace && AllShape(cr, s, kube.trace, |old(kube.trace)|)
    ensures ok && stop >= 0 ==> stop != master && Stale(cr, s, stop)
    ensures ok && stop >= 0 ==> FirstStale(cr, master, kube.st, items, at, stop)
    ensures BehindAsListed(kube.st, items, at)
    ensures ok && stop < 0 ==> DealtWith(cr, master, kube.st, items, |items|, leader)
    ensures VolumesFit(cr, s) ==> kube.st == s && kube.trace == old(kube.trace) && stop < 0 && !leader
    ensures kube.reliable ==> ok
  {
    hide WellFormed, Lists, VolumesFit, SameShape, DealtWith, Stale, Owner, VersionOf, ServerKey, VolumeKey;
    hide OnlyBootVolume.Differs;
    hide FirstStale, BehindAsListed;
    ok, stop, leader, at := true, -1, false, 0;
    ShapeStart(cr, s);
    DealtStart(cr, master, s, items);
    for n := 0 to |items|
      invariant SameShape(cr, s, kube.st) && old(kube.trace) <= kube.trace
      invariant AllShape(cr, s, kube.trace, |old(kube.trace)|)
      invariant ok && stop == -1 && DealtWith(cr, master, kube.st, items, n, leader)
      invariant VolumesFit(cr, s) ==> kube.st == s && kube.trace == old(kube.trace) && !leader
    {
      ghost var t := kube.st;
      at := n;
      ListedNow(cr, master, t, items, n, leader);
      DealtBehind(cr, master, t, items, n, leader);
      if VolumesFit(cr, s) { ListedVolumeFits(cr, s, items[n]); }
      ShapeWellFormed(cr, s, t);
      LabelsOf(cr, t, items[n].key);
      var replicaIdx := ComputeReplicaIdx(items[n].obj.labels.replica);
      if replicaIdx != -1 {
        var spec, update, deleteAndCreate := UpdateOrRecreate(items[n].obj.spec, cr);
        if deleteAndCreate {
          if master != replicaIdx {
            StaleListed(cr, s, items, n);
            FirstFound(cr, master, t, items, n, leader, replicaIdx);
            return true, replicaIdx, leader, n;
          }
          DealtLeader(cr, master, t, items, n, leader);
          leader := true;
        } else {
          UnstaleSpec(cr, items[n].obj, spec);
          if update {
            ResizeNext(cr, s, t, items[n].key);
            ok := kube.Update(items[n].key, items[n].obj.(spec := spec));
            BehindStays(cr, master, t, kube.st, items, n, leader, items[n].obj.(spec := spec));
            if !ok {
              return;
            }
          }
          DealtSize(cr, master, t, kube.st, items, n, leader);
        }
      }
    }
    at := |items|;
    AllBehind(kube.st, items);
  }

  /** The volumes behind `at` are as listed. */
  ghost predicate BehindAsListed(st: State, items: seq<Item>, at: nat) {
    forall q :: at < q < |items| ==> items[q].key in st.objs && st.objs[items[q].key] == items[q].obj
  }

  lemma AllBehind(st: State, items: seq<Item>)
    ensures BehindAsListed(st, items, |items|)
  {
  }

  lemma DealtBehind(cr: ServerSet, master: int, st: State, items: seq<Item>, n: nat, leader: bool)
    requires DealtWith(cr, master, st, items, n, leader)
    ensures BehindAsListed(st, items, n)
  {
    hide Owner, OnlyBootVolume.Differs, Resized;
  }

  lemma BehindStays(cr: ServerSet, master: int, s: State, t: State, items: seq<Item>, n: nat, leader: bool, o: Obj)
    requires DealtWith(cr, master, s, items, n, leader) && n < |items|
    requires t == s || t == s.(objs := s.objs[items[n].key := o])
    ensures BehindAsListed(t, items, n)
  {
    hide Owner, OnlyBootVolume.Differs, Resized;
  }

  /** The volume at `at` is the first stale one of the list that is not the leader's, and those before it that
      are not stale have the template's size. */
  ghost predicate FirstStale(cr: ServerSet, master: int, st: State, items: seq<Item>, at: nat, stop: int) {
    && at < |items| && Owner(items[at].key) == stop != master && OnlyBootVolume.Differs(cr, items[at].obj.spec)
    && forall q :: 0 <= q < at ==>
         if OnlyBootVolume.Differs(cr, items[q].obj.spec) then Owner(items[q].key) == master
         else
           && items[q].obj.spec.VolumeSpec? && items[q].key in st.objs
           && st.objs[items[q].key] == Resized(cr, items[q].obj)
  }

  lemma FirstFound(cr: ServerSet, master: int, st: State, items: seq<Item>, n: nat, leader: bool, stop: int)
    requires DealtWith(cr, master, st, items, n, leader) && n < |items|
    requires Owner(items[n].key) == stop != master && OnlyBootVolume.Differs(cr, items[n].obj.spec)
    ensures FirstStale(cr, master, st, items, n, stop)
  {
    hide Owner, OnlyBootVolume.Differs, Resized;
  }

  lemma ListedVolumeFits(cr: ServerSet, s: State, item: Item)
    requires VolumesFit(cr, s) && item.key.kind.VolumeKind? && item.obj.spec.VolumeSpec?
    ensures item.key in s.objs && s.objs[item.key] == item.obj ==>
              item.obj.spec.size == cr.size && !OnlyBootVolume.Differs(cr, item.obj.spec)
  {
  }

  lemma UnstaleSpec(cr: ServerSet, o: Obj, spec: Spec)
    requires o.spec.VolumeSpec? && !OnlyBootVolume.Differs(cr, o.spec)
    requires spec == o.spec.(size := cr.size, typ := cr.typ, image := cr.image,
                             setHotPlugsFromImage := cr.setHotPlugsFromImage)
    ensures o.(spec := spec) == Resized(cr, o)
    ensures o.spec.size == cr.size ==> Resized(cr, o) == o
  {
  }

  /** Replicas whose boot volume is to be replaced are complete. */
  ghost predicate StaleAreComplete(cr: ServerSet, st: State) {
    forall i: nat :: Stale(cr, st, i) ==> CompleteAtSome(cr, i, st)
  }

  lemma StillComplete(cr: ServerSet, s: State, t: State, i: nat)
    requires StaleAreComplete(cr, s) && Stale(cr, s, i) && SameShape(cr, s, t)
    ensures CompleteAtSome(cr, i, t)
  {
    hide Complete, Stale, SameShape;
    var vv: nat, sv: nat :| Complete(cr, i, vv, sv, s);
    ShapeComplete(cr, i, vv, sv, s, t);
  }

  /** Where a call passed from updates in place to the exchange of replica `pick`: after `at` states, from `mid`,
      with these servers listed. */
  datatype Exchange = Exchange(at: nat, mid: State, pick: int, items: seq<Item>)

  /** Whatever a call reports: up to `at` the store was updated in place only, and from then on, if anything was
      written, one stale replica was exchanged, the leader only when no other was stale, and with a state map
      only after every listed server had been seen running with nothing written since. */
  ghost predicate OneExchange(cr: ServerSet, master: int, s: State, t: State, trace: seq<State>, n: nat,
                              seen: seq<Observation>, start: nat, x: Exchange)
  {
    && n <= x.at <= |trace| && SameShape(cr, s, x.mid) && OnlyReplica(x.mid, t, x.pick)
    && (forall e :: n <= e < x.at ==> SameShape(cr, s, trace[e]))
    && (forall e :: x.at <= e < |trace| ==> OnlyReplica(x.mid, trace[e], x.pick))
    && (x.at < |trace| ==> Justified(cr, master, s, seen, start, x))
  }

  ghost predicate Justified(cr: ServerSet, master: int, s: State, seen: seq<Observation>, start: nat, x: Exchange) {
    && x.pick >= 0 && Stale(cr, s, x.pick) && (x.pick == master ==> forall i :: i != master ==> !Stale(cr, s, i))
    && Lists(x.mid, AllOf(ServerKind), x.items)
    && (cr.hasStateMap ==> AllSeenRunning(seen, x.items, start, x.at))
  }

  lemma NoExchange(cr: ServerSet, master: int, s: State, t: State, trace: seq<State>, n: nat,
                   seen: seq<Observation>, start: nat)
    requires SameShape(cr, s, t) && n <= |trace| && AllShape(cr, s, trace, n)
    ensures OneExchange(cr, master, s, t, trace, n, seen, start, Exchange(|trace|, t, -1, []))
  {
    hide SameShape;
  }

  lemma MadeExchange(cr: ServerSet, master: int, s: State, t: State, before: seq<State>, trace: seq<State>, n: nat,
                     seen: seq<Observation>, start: nat, i: nat, x: Exchange)
    requires n <= |before| && before <= trace && x.at == |before| && x.pick == i
    requires SameShape(cr, s, x.mid) && AllShape(cr, s, before, n)
    requires Stays(cr, i, x.mid, t) && AllStay(cr, i, x.mid, trace, |before|)
    requires trace != before ==> Justified(cr, master, s, seen, start, x)
    ensures OneExchange(cr, master, s, t, trace, n, seen, start, x)
  {
    hide SameShape, Justified, WellFormed, InService, Jammed, ZeroWithoutVolume, Stays, OnlyReplica;
    StaysOnly(cr, i, x.mid, t);
    forall e | n <= e < x.at ensures SameShape(cr, s, trace[e]) { assert trace[e] == before[e]; }
    forall e | x.at <= e < |trace| ensures OnlyReplica(x.mid, trace[e], x.pick) { StaysOnly(cr, i, x.mid, trace[e]); }
  }

  method UpdateOrRecreateVolumes(kube: Kube, w: Watch, cr: ServerSet, items: seq<Item>, masterIndex: int)
      returns (ok: bool, ghost chosen: int, ghost mid: State, ghost vv: nat, ghost sv: nat, ghost x: Exchange,
               ghost first: nat)
    requires WellFormed(cr, kube.st) && RulesActive(cr) && Lists(kube.st, AllOf(VolumeKind), items)
    modifies kube, w`seen, w`clock
    ensures old(w.seen) <= w.seen && old(w.clock) <= w.clock
    ensures ok ==> NoFailureSince(w.seen, |old(w.seen)|)
    ensures OneExchange(cr, masterIndex, old(kube.st), kube.st, kube.trace, |old(kube.trace)|, w.seen, w.startTime, x)
    ensures x.pick >= 0 && x.pick != masterIndex ==> FirstStale(cr, masterIndex, x.mid, items, first, x.pick)
    ensures x.pick >= 0 && Jammed(x.mid, x.pick) ==> !ok && |kube.trace| == x.at
    ensures KeepsAll(cr, old(kube.st), kube.st)
    ensures old(kube.trace) <= kube.trace && AllKeep(cr, old(kube.st), kube.trace, |old(kube.trace)|)
    ensures ok ==> Round(cr, masterIndex, old(kube.st), kube.st, chosen, mid, vv, sv)
    ensures VolumesFit(cr, old(kube.st)) ==> kube.st == old(kube.st) && kube.trace == old(kube.trace)
    ensures w.Prompt() && kube.reliable && StaleAreComplete(cr, old(kube.st)) ==>
              && Round(cr, masterIndex, old(kube.st), kube.st, chosen, mid, vv, sv)
              && (chosen < 0 || !WaitsForRemoved(cr) ==> ok)
    ensures w.quiet && WaitsForRemoved(cr) && chosen >= 0 ==> !ok
  {
    hide CompleteAtSome, StaleAreComplete;
    hide WellFormed, Lists, SameShape, AllShape, DealtWith, Stale, KeepsAll, AllKeep, Recreated, Stays;
    hide AllStay, RulesActive, VolumesFit, OneExchange, Justified, AllSeenRunning, NoFailureSince, FirstStale, Jammed;
    hide BehindAsListed, OnlyReplica;
    NoFailureYet(w.seen);
    ghost var s, n := kube.st, |kube.trace|;
    var stop, recreateLeader;
    ok, stop, recreateLeader, first := ResizeUntilStale(kube, cr, items, masterIndex, s);
    chosen, mid, vv, sv := -1, kube.st, 0, 0;
    ghost var before := kube.trace;
    ShapeKeeps(cr, s, mid);
    AllShapeKeep(cr, s, before, n);
    NoExchange(cr, masterIndex, s, mid, before, n, w.seen, w.startTime);
    x := Exchange(|before|, mid, -1, []);
    if !ok {
      return;
    }
    if stop < 0 {
      DealtAll(cr, masterIndex, s, mid, items, recreateLeader);
      if masterIndex < 0 || !recreateLeader {
        NotNegative(cr, masterIndex, mid, items, recreateLeader);
        return;
      }
      stop := masterIndex;
    }
    ShapeWellFormed(cr, s, mid);
    ShapeStale(cr, s, mid, stop);
    if StaleAreComplete(cr, s) { StillComplete(cr, s, mid, stop); }
    chosen := stop;
    ghost var list, requested;
    ok, vv, sv, list, requested := UpdateWithFailoverOrchestration(kube, w, cr, stop);
    RoundKeeps(cr, stop, s, mid, kube.st, before, kube.trace, n);
    x := Exchange(|before|, mid, stop, list);
    if kube.trace != before { Justifies(cr, masterIndex, s, w.seen, w.startTime, x); }
    MadeExchange(cr, masterIndex, s, kube.st, before, kube.trace, n, w.seen, w.startTime, stop, x);
  }

  lemma Justifies(cr: ServerSet, master: int, s: State, seen: seq<Observation>, start: nat, x: Exchange)
    requires x.pick >= 0 && Stale(cr, s, x.pick) && (x.pick == master ==> forall i :: i != master ==> !Stale(cr, s, i))
    requires Lists(x.mid, AllOf(ServerKind), x.items) && (cr.hasStateMap ==> AllSeenRunning(seen, x.items, start, x.at))
    ensures Justified(cr, master, s, seen, start, x)
  {
    hide Stale, Lists, AllSeenRunning;
  }

  lemma NotNegative(cr: ServerSet, master: int, st: State, items: seq<Item>, leader: bool)
    requires DealtWith(cr, master, st, items, |items|, leader) && (master < 0 || !leader)
    ensures !leader
  {
    hide Owner, OnlyBootVolume.Differs;
  }
}
