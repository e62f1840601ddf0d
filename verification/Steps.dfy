/** What one successful Update does to a complete set, and what a run of them has done so far. */
module Steps {
  import opened Wrappers
  import opened Store
  import opened Desired
  import opened Service
  import opened Versions
  import opened ServerUpdate
  import opened Shape
  import opened Status
  import opened Rollout
  import opened Creation
  import opened Reconciler
  import OnlyBootVolume

  // ---------- one step ----------

  /** The replica's objects are the same, up to what is updated in place. */
  ghost predicate SameReplica(cr: ServerSet, s: State, t: State, i: int) {
    forall k :: Owner(k) == i ==>
      (k in s.objs <==> k in t.objs) && (k in s.objs ==> SameUpToTemplate(cr, k, s.objs[k], t.objs[k]))
  }

  /** The versions after replica `pick` was recreated. */
  ghost function Bump(cr: ServerSet, vs: ReplicaVersions, pick: int): ReplicaVersions
    requires Fits(cr, vs)
  {
    if 0 <= pick < cr.replicas then
      ReplicaVersions(vs.vol[pick := vs.vol[pick] + 1], vs.srv[pick := NextServerVersion(cr, vs.srv[pick])])
    else vs
  }

  lemma StaleOwner(cr: ServerSet, st: State, i: int)
    requires NoStrangers(cr, st) && Stale(cr, st, i)
    ensures 0 <= i < cr.replicas
  {
    hide Owner, OnlyBootVolume.Differs;
  }

  lemma ShapeStrangers(cr: ServerSet, s: State, t: State)
    requires NoStrangers(cr, s) && SameShape(cr, s, t)
    ensures NoStrangers(cr, t)
  {
    hide Owner, SameUpToTemplate;
  }

  lemma ShapeReplica(cr: ServerSet, s: State, t: State, i: int)
    requires SameShape(cr, s, t)
    ensures SameReplica(cr, s, t, i)
  {
    hide Owner, SameUpToTemplate;
  }

  /** From `s` to the store right before an exchange, or to the end without one. */
  lemma StepShape(cr: ServerSet, master: int, s: State, t: State, p: Passage)
    requires Stepped(cr, master, s, t, p)
    ensures SameShape(cr, s, p.tuned) && SameShape(cr, s, if p.pick < 0 then t else p.mid)
  {
    hide ServersTuned, ServersFit, SameShape, VolumesFit, Stale, Recreated;
    TunedIsShape(cr, s, p.tuned);
    ShapeTransitive(cr, s, p.tuned, if p.pick < 0 then t else p.mid);
  }

  lemma ShapeAllComplete(cr: ServerSet, vs: ReplicaVersions, s: State, t: State)
    requires AllComplete(cr, vs, s) && SameShape(cr, s, t)
    ensures AllComplete(cr, vs, t)
  {
    hide Complete, SameShape;
    forall i: nat | i < cr.replicas ensures Complete(cr, i, vs.vol[i], vs.srv[i], t) {
      ShapeComplete(cr, i, vs.vol[i], vs.srv[i], s, t);
    }
  }

  lemma ExchangeComplete(cr: ServerSet, vs: ReplicaVersions, mid: State, t: State, i: nat, vv: nat, sv: nat)
    requires i < cr.replicas && AllComplete(cr, vs, mid) && Recreated(cr, i, vv, sv, mid, t)
    ensures vv == vs.vol[i] && sv == vs.srv[i] && AllComplete(cr, Bump(cr, vs, i), t)
  {
    hide Complete, Sole, OnlyReplica, VolumeKey, NewVolume, ServerAfter, ServerKey, NewFit;
    CompleteIsSole(cr, i, vs.vol[i], vs.srv[i], mid);
    SoleUnique(cr, i, vv, sv, vs.vol[i], vs.srv[i], mid);
    forall j: nat | j < cr.replicas && j != i ensures Complete(cr, j, vs.vol[j], vs.srv[j], t) {
      OtherComplete(cr, i, j, vs.vol[j], vs.srv[j], mid, t);
    }
  }

  lemma ExchangeStale(cr: ServerSet, s: State, t: State, i: nat, vv: nat, sv: nat, j: int)
    requires Recreated(cr, i, vv, sv, s, t)
    ensures Stale(cr, t, j) <==> Stale(cr, s, j) && j != i
  {
    hide Owner, VersionOf, ServerKey, VolumeKey, Complete, InDesired, ServerAfter, NewFit;
  }

  lemma ExchangeReplica(cr: ServerSet, s: State, mid: State, t: State, i: int, j: int)
    requires SameShape(cr, s, mid) && OnlyReplica(mid, t, i) && j != i
    ensures SameReplica(cr, s, t, j)
  {
    hide Owner, SameUpToTemplate;
  }

  lemma RecreatedOnly(cr: ServerSet, i: nat, vv: nat, sv: nat, s: State, t: State)
    requires Recreated(cr, i, vv, sv, s, t)
    ensures OnlyReplica(s, t, i) && VolumeKey(cr, i, vv + 1) in t.objs
    ensures t.objs[VolumeKey(cr, i, vv + 1)].spec == NewVolume(cr, i, vv + 1).spec
  {
    hide OnlyReplica, VolumeKey, ServerKey, Owner, Complete, NewVolume, ServerAfter, NewFit;
  }

  /** A successful Update of a complete set: it stays complete, exactly one stale replica if there is any
      gets its next version and the template's boot volume, and all others stay as they are up to what is
      updated in place. */
  lemma StepOfCompleteSet(cr: ServerSet, vs: ReplicaVersions, master: int, s: State, t: State, p: Passage)
    requires AllComplete(cr, vs, s) && NoStrangers(cr, s) && Stepped(cr, master, s, t, p)
    ensures p.pick < cr.replicas && AllComplete(cr, Bump(cr, vs, p.pick), t) && NoStrangers(cr, t)
    ensures p.pick >= 0 ==> Stale(cr, s, p.pick)
    ensures p.pick < 0 ==> (forall i :: !Stale(cr, s, i))
    ensures p.pick == master >= 0 ==> (forall i :: i != master ==> !Stale(cr, s, i))
    ensures forall i :: Stale(cr, t, i) <==> Stale(cr, s, i) && i != p.pick
    ensures forall i :: i != p.pick || i < 0 ==> SameReplica(cr, s, t, i)
    ensures p.pick >= 0 ==> (
      var k := VolumeKey(cr, p.pick, vs.vol[p.pick] + 1);
      k in t.objs && t.objs[k].spec == NewVolume(cr, p.pick, 0).spec)
  {
    hide ServersTuned, ServersFit, SameShape, VolumesFit, Stale, Recreated, AllComplete, NoStrangers;
    hide VolumeKey, OnlyReplica;
    hide SameReplica, Bump, Fits;
    StepShape(cr, master, s, t, p);
    forall i ensures Stale(cr, s, i) <==> Stale(cr, p.tuned, i) { ShapeStale(cr, s, p.tuned, i); }
    if p.pick < 0 {
      ShapeAllComplete(cr, vs, s, t);
      ShapeStrangers(cr, s, t);
      forall i ensures (Stale(cr, s, i) <==> Stale(cr, t, i)) && SameReplica(cr, s, t, i) {
        ShapeStale(cr, s, t, i);
        ShapeReplica(cr, s, t, i);
      }
      NotPicked(cr, vs, s, p.pick);
    } else {
      StaleOwner(cr, s, p.pick);
      ShapeAllComplete(cr, vs, s, p.mid);
      ShapeStrangers(cr, s, p.mid);
      ExchangeComplete(cr, vs, p.mid, t, p.pick, p.vv, p.sv);
      RecreatedOnly(cr, p.pick, p.vv, p.sv, p.mid, t);
      StrangersKept(cr, p.mid, t, p.pick);
      forall i ensures Stale(cr, t, i) <==> Stale(cr, s, i) && i != p.pick {
        ShapeStale(cr, s, p.mid, i);
        ExchangeStale(cr, p.mid, t, p.pick, p.vv, p.sv, i);
      }
      forall i | i != p.pick ensures SameReplica(cr, s, t, i) {
        ExchangeReplica(cr, s, p.mid, t, p.pick, i);
      }
    }
  }

  lemma NotPicked(cr: ServerSet, vs: ReplicaVersions, s: State, pick: int)
    requires AllComplete(cr, vs, s) && pick < 0
    ensures Bump(cr, vs, pick) == vs
  {
    hide Complete;
  }

  // ---------- without failures ----------

  /** In a complete set Update finds all it needs. */
  lemma CompleteStands(cr: ServerSet, vs: ReplicaVersions, st: State)
    requires AllComplete(cr, vs, st) && NoStrangers(cr, st)
    ensures Standing(cr, st)
  {
    hide Complete, Owner, OneVolume, Stale;
    forall k: Key | k in st.objs && k.kind.ServerKind? ensures OneVolume(st, Owner(k)) {
      var i := Owner(k);
      OneVolumeComplete(cr, i, vs.vol[i], vs.srv[i], st);
    }
    forall i: nat | Stale(cr, st, i) ensures CompleteAtSome(cr, i, st) {
      StaleOwner(cr, st, i);
      assert Complete(cr, i, vs.vol[i], vs.srv[i], st);
    }
  }

  lemma OneVolumeComplete(cr: ServerSet, i: nat, vv: nat, sv: nat, st: State)
    requires Complete(cr, i, vv, sv, st)
    ensures OneVolume(st, i)
  {
    hide Complete, Sole, NoneOf, Several;
    CompleteIsSole(cr, i, vv, sv, st);
    SoleNotJammed(cr, i, vv, sv, st);
    JammedIsSeveral(st, i);
    SoleNotNone(cr, i, vv, sv, st);
  }

  // ---------- runs ----------

  datatype Run = Run(states: seq<State>, masters: seq<int>, passages: seq<Passage>)

  /** Each Update led from one state to the next. */
  ghost predicate IsRun(cr: ServerSet, r: Run) {
    && |r.states| == |r.passages| + 1 && |r.masters| == |r.passages|
    && forall j :: 0 <= j < |r.passages| ==> Stepped(cr, r.masters[j], r.states[j], r.states[j + 1], r.passages[j])
  }

  ghost predicate StartsComplete(cr: ServerSet, vs: ReplicaVersions, s: State) {
    AllComplete(cr, vs, s) && NoStrangers(cr, s)
  }

  /** Stale at first and no longer. */
  ghost predicate Renewed(cr: ServerSet, s: State, st: State, i: int) {
    Stale(cr, s, i) && !Stale(cr, st, i)
  }

  /** From `vs` at `s`, the versions of the renewed replicas are raised by one. */
  ghost function VersionsNow(cr: ServerSet, vs: ReplicaVersions, s: State, st: State): (now: ReplicaVersions)
    requires Fits(cr, vs)
    ensures Fits(cr, now)
  {
    ReplicaVersions(
      seq(|vs.vol|, i requires 0 <= i < |vs.vol| =>
        if Renewed(cr, s, st, i) then vs.vol[i] + 1 else vs.vol[i]),
      seq(|vs.srv|, i requires 0 <= i < |vs.srv| =>
        if Renewed(cr, s, st, i) then NextServerVersion(cr, vs.srv[i]) else vs.srv[i]))
  }

  /** The replica was renewed and boots from the template's volume, or it is as it was. */
  ghost predicate ReplicaTracks(cr: ServerSet, vs: ReplicaVersions, s: State, st: State, i: nat)
    requires Fits(cr, vs) && i < cr.replicas
  {
    if Renewed(cr, s, st, i)
    then VolumeKey(cr, i, vs.vol[i] + 1) in st.objs
         && st.objs[VolumeKey(cr, i, vs.vol[i] + 1)].spec == NewVolume(cr, i, 0).spec
    else SameReplica(cr, s, st, i)
  }

  /** How far a rollout that started complete at `s` has got. */
  ghost predicate Tracks(cr: ServerSet, vs: ReplicaVersions, s: State, st: State) {
    && Fits(cr, vs) && AllComplete(cr, VersionsNow(cr, vs, s, st), st) && NoStrangers(cr, st)
    && (forall i :: Stale(cr, st, i) ==> Stale(cr, s, i))
    && forall i: nat :: i < cr.replicas ==> ReplicaTracks(cr, vs, s, st, i)
  }

  lemma TracksStart(cr: ServerSet, vs: ReplicaVersions, s: State)
    requires StartsComplete(cr, vs, s)
    ensures Tracks(cr, vs, s, s)
  {
    hide Complete, Stale, NoStrangers, Owner, VolumeKey;
    forall i ensures SameReplica(cr, s, s, i) { }
    assert VersionsNow(cr, vs, s, s) == vs;
  }

  lemma SameReplicaTransitive(cr: ServerSet, s: State, t: State, u: State, i: int)
    requires SameReplica(cr, s, t, i) && SameReplica(cr, t, u, i)
    ensures SameReplica(cr, s, u, i)
  {
    hide Owner;
    forall k | Owner(k) == i && k in s.objs ensures SameUpToTemplate(cr, k, s.objs[k], u.objs[k]) {
      assert SameUpToTemplate(cr, k, s.objs[k], t.objs[k]) && SameUpToTemplate(cr, k, t.objs[k], u.objs[k]);
    }
  }

  /** A boot volume made from the template is not changed any more. */
  lemma NewStaysNew(cr: ServerSet, i: nat, vv: nat, t: State, u: State)
    requires SameReplica(cr, t, u, i) && VolumeKey(cr, i, vv) in t.objs
    requires t.objs[VolumeKey(cr, i, vv)].spec == NewVolume(cr, i, 0).spec
    ensures VolumeKey(cr, i, vv) in u.objs && u.objs[VolumeKey(cr, i, vv)].spec == NewVolume(cr, i, 0).spec
  {
    hide Owner, VolumeKey;
    assert SameUpToTemplate(cr, VolumeKey(cr, i, vv), t.objs[VolumeKey(cr, i, vv)], u.objs[VolumeKey(cr, i, vv)]);
  }

  lemma VersionsNext(cr: ServerSet, vs: ReplicaVersions, s: State, t: State, u: State, pick: int)
    requires Fits(cr, vs) && pick < cr.replicas
    requires forall i :: Stale(cr, t, i) ==> Stale(cr, s, i)
    requires forall i :: Stale(cr, u, i) <==> Stale(cr, t, i) && i != pick
    requires pick >= 0 ==> Stale(cr, t, pick)
    ensures VersionsNow(cr, vs, s, u) == Bump(cr, VersionsNow(cr, vs, s, t), pick)
  {
    hide Stale;
  }

  lemma TracksNext(cr: ServerSet, vs: ReplicaVersions, master: int, s: State, t: State, u: State, p: Passage)
    requires Tracks(cr, vs, s, t) && Stepped(cr, master, t, u, p)
    ensures Tracks(cr, vs, s, u)
  {
    hide AllComplete, NoStrangers, Stale, SameReplica, VolumeKey, Stepped, NewVolume, VersionsNow, Bump, ReplicaTracks;
    var now := VersionsNow(cr, vs, s, t);
    StepOfCompleteSet(cr, now, master, t, u, p);
    VersionsNext(cr, vs, s, t, u, p.pick);
    forall i: nat | i < cr.replicas ensures ReplicaTracks(cr, vs, s, u, i) {
      if i == p.pick {
        NotRenewedYet(cr, vs, s, t, i);
        PickedTracks(cr, vs, s, u, i);
      } else {
        OtherTracks(cr, vs, s, t, u, i);
      }
    }
  }

  lemma PickedTracks(cr: ServerSet, vs: ReplicaVersions, s: State, u: State, i: nat)
    requires Fits(cr, vs) && i < cr.replicas && Stale(cr, s, i) && !Stale(cr, u, i)
    requires VolumeKey(cr, i, vs.vol[i] + 1) in u.objs
    requires u.objs[VolumeKey(cr, i, vs.vol[i] + 1)].spec == NewVolume(cr, i, 0).spec
    ensures ReplicaTracks(cr, vs, s, u, i)
  {
    hide Stale, SameReplica, VolumeKey, NewVolume;
  }

  lemma OtherTracks(cr: ServerSet, vs: ReplicaVersions, s: State, t: State, u: State, i: nat)
    requires Fits(cr, vs) && i < cr.replicas && ReplicaTracks(cr, vs, s, t, i) && SameReplica(cr, t, u, i)
    requires Stale(cr, u, i) <==> Stale(cr, t, i)
    ensures ReplicaTracks(cr, vs, s, u, i)
  {
    hide Stale, SameReplica, VolumeKey, NewVolume;
    if Renewed(cr, s, t, i) {
      NewStaysNew(cr, i, vs.vol[i] + 1, t, u);
    } else {
      SameReplicaTransitive(cr, s, t, u, i);
    }
  }

  lemma NotRenewedYet(cr: ServerSet, vs: ReplicaVersions, s: State, t: State, i: nat)
    requires Fits(cr, vs) && i < cr.replicas && Stale(cr, t, i)
    ensures VersionsNow(cr, vs, s, t).vol[i] == vs.vol[i]
  {
    hide Stale;
  }

  /** At every point of a run: the set is complete, renewed replicas are one version up with the
      template's volume, and all others are as they were. */
  lemma {:induction false} RunTracks(cr: ServerSet, vs: ReplicaVersions, r: Run, j: nat)
    requires IsRun(cr, r) && StartsComplete(cr, vs, r.states[0]) && j < |r.states|
    ensures Tracks(cr, vs, r.states[0], r.states[j])
  {
    hide Stepped, Tracks, StartsComplete;
    if j == 0 {
      TracksStart(cr, vs, r.states[0]);
    } else {
      RunTracks(cr, vs, r, j - 1);
      TracksNext(cr, vs, r.masters[j - 1], r.states[0], r.states[j - 1], r.states[j], r.passages[j - 1]);
    }
  }
}
