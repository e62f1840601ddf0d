/** Create: ensures every replica from wherever an earlier call was cut off. */
module Creation {
  import opened Wrappers
  import opened Names
  import opened Store
  import opened Desired
  import opened Growth
  import opened Controllers
  import opened Service
  import opened Versions
  import opened Shape
  import NicController

  /** Complete, or a creation at version 0 that was cut off somewhere. */
  ghost predicate Begun(cr: ServerSet, i: nat, vv: nat, sv: nat, st: State) {
    && (forall k :: k in st.objs && Owner(k) == i ==> InDesired(cr, i, vv, sv, k))
    && Wired(cr, i, sv, st)
    && (Complete(cr, i, vv, sv, st) || (vv == 0 && sv == 0))
  }

  /** Exactly the wanted objects, wired, the server set to boot from whatever id its volume has. */
  ghost predicate Whole(cr: ServerSet, i: nat, vv: nat, sv: nat, st: State) {
    && (forall k :: k in st.objs && Owner(k) == i ==> InDesired(cr, i, vv, sv, k))
    && (forall k :: InDesired(cr, i, vv, sv, k) ==> k in st.objs)
    && Wired(cr, i, sv, st)
    && IdAt(st, ServerKey(cr, i, sv)) != 0 && ServerKey(cr, i, sv) in st.objs
    && st.objs[ServerKey(cr, i, sv)].spec.ServerSpec?
    && st.objs[ServerKey(cr, i, sv)].spec.volumeId == IdAt(st, VolumeKey(cr, i, vv))
  }

  /** Whole is complete exactly when the volume has an id. */
  lemma WholeIsComplete(cr: ServerSet, i: nat, vv: nat, sv: nat, st: State)
    requires Whole(cr, i, vv, sv, st)
    ensures Complete(cr, i, vv, sv, st) <==> IdAt(st, VolumeKey(cr, i, vv)) != 0
  {
    hide InDesired, Owner, ServerKey, VolumeKey, Wired;
  }

  // ---------- server, NICs and rules ----------

  /** The server with its id, and all NICs and rules, at version `sv`. */
  ghost predicate ServerDone(cr: ServerSet, i: nat, sv: nat, st: State) {
    && IdAt(st, ServerKey(cr, i, sv)) != 0
    && NicsReady(cr, i, sv, st) && RulesReady(cr, i, sv, st, |cr.nics|, 0)
  }

  ghost predicate SameVolumes(s: State, t: State) {
    forall k: Key :: k.kind.VolumeKind? ==> (k in s.objs <==> k in t.objs)
  }

  lemma SameVolumesKept(s: State, t: State, u: State)
    requires SameVolumes(s, t) && SameVolumes(t, u)
    ensures SameVolumes(s, u)
  {
  }

  lemma OtherKeptVolumes(s: State, t: State, k: Key)
    requires OthersKept(s, t, k) && !k.kind.VolumeKind?
    ensures SameVolumes(s, t)
  {
  }

  lemma NonRulesVolumes(s: State, t: State)
    requires NonRulesKept(s, t)
    ensures SameVolumes(s, t)
  {
  }

  /** What Create may meet when it turns to the server: one at this version, or none. */
  ghost predicate ServerOrNone(cr: ServerSet, i: nat, sv: nat, st: State) {
    forall k :: k in st.objs && Of(k, i, ServerKind) ==> k == ServerKey(cr, i, sv)
  }

  lemma GrownServerOrNone(g: Goal, t: State)
    requires Grown(g, t) && ServerOrNone(g.cr, g.i, g.sv, g.s0)
    ensures ServerOrNone(g.cr, g.i, g.sv, t)
  {
    hide WellFormed, Wired, ServerKey, VolumeKey, NicKey, RuleKey, Owner, VersionOf, NicOf, RuleOf;
  }

  lemma ListedServer(cr: ServerSet, i: nat, sv: nat, st: State, items: seq<Item>)
    requires WellFormed(cr, st) && Lists(st, OfReplica(ServerKind, i), items) && |items| <= 1
    requires Several(st, i, ServerKind) || ServerOrNone(cr, i, sv, st)
    ensures ServerOrNone(cr, i, sv, st)
    ensures |items| == 0 <==> ServerKey(cr, i, sv) !in st.objs
    ensures |items| == 1 ==> items[0].key == ServerKey(cr, i, sv) && st.objs[items[0].key] == items[0].obj
  {
    hide WellFormed, ServerKey, VolumeKey, Owner, VersionOf, Matches, OfReplica;
    ListedByReplica(cr, st, ServerKind, i, items);
    assert Of(ServerKey(cr, i, sv), i, ServerKind);
  }

  lemma NotSeveral(cr: ServerSet, i: nat, sv: nat, st: State)
    requires ServerOrNone(cr, i, sv, st)
    ensures !Several(st, i, ServerKind)
  {
    hide ServerKey;
  }

  lemma ListedOnce(cr: ServerSet, i: nat, sv: nat, st: State, items: seq<Item>)
    requires WellFormed(cr, st) && Lists(st, OfReplica(ServerKind, i), items) && ServerOrNone(cr, i, sv, st)
    ensures |items| <= 1
  {
    hide WellFormed, ServerKey, VolumeKey, Owner, VersionOf, Matches, OfReplica;
    ListedByReplica(cr, st, ServerKind, i, items);
    NotSeveral(cr, i, sv, st);
  }

  /** A server without an id is deleted, to be created again by the next call. */
  method EnsureServerAndNicByIndex(kube: Kube, cr: ServerSet, i: nat, version: nat, ghost g: Goal)
      returns (ok: bool)
    requires g.cr == cr && g.i == i && g.sv == version && Grown(g, kube.st) && g.s0 == kube.st
    requires Several(kube.st, i, ServerKind) || ServerOrNone(cr, i, version, kube.st)
    modifies kube
    ensures ServerOrNone(cr, i, version, old(kube.st))
            || (!ok && kube.st == old(kube.st) && kube.trace == old(kube.trace))
    ensures old(kube.trace) <= kube.trace
    ensures ok ==> Grown(g, kube.st) && ServerDone(cr, i, version, kube.st)
    ensures ok ==> SameVolumes(old(kube.st), kube.st)
    ensures CutOff(g, kube.st) && AllCutOff(g, kube.trace, |old(kube.trace)|)
    ensures kube.reliable && ServerOrNone(cr, i, version, old(kube.st)) ==>
              (Resumable(cr, i, version, old(kube.st)) ==> ok)
    ensures kube.reliable && ServerOrNone(cr, i, version, old(kube.st)) ==>
              HasIdlessServer(cr, i, version, old(kube.st)) ==>
              !ok && ServerKey(cr, i, version) !in kube.st.objs
  {
    hide Grown, ServerDone, CutOff, ServerKey, NicKey, RuleKey, Lists, ServerOrNone, Several, OfReplica, RulesReady;
    hide NicsReady, OthersKept, Resumable, NicsAndRulesUp, NicsAndRulesKept, HasIdlessServer;
    Idless(cr, i, version, kube.st);
    ghost var s := kube.st;
    if Resumable(cr, i, version, s) { ResumableParts(cr, i, version, s); }
    ghost var n := |kube.trace|;
    GrownWellFormed(g, kube.st);
    GrownCutOff(g, kube.st);
    var resSrv := kube.List(OfReplica(ServerKind, i));
    if resSrv.None? {
      return false;
    }
    if ServerOrNone(cr, i, version, s) { ListedOnce(cr, i, version, s, resSrv.value); }
    if |resSrv.value| > 1 {
      return false;
    }
    ListedServer(cr, i, version, kube.st, resSrv.value);
    NotSeveral(cr, i, version, kube.st);
    if |resSrv.value| == 0 {
      var unlisted := kube.Fails();
      if unlisted {
        return false;  // the volumes could not be listed
      }
      ok := EnsureServer(kube, cr, i, version, g);
      OtherKeptVolumes(g.s0, kube.st, ServerKey(cr, i, version));
      NoneTouched(s);
      OtherKindKept(s, s, kube.st, ServerKey(cr, i, version));
      if NicsAndRulesUp(cr, i, version, s) { KeptUp(cr, i, version, s, kube.st); }
      GrownCutOff(g, kube.st);
      AllGrownCutOff(g, kube.trace, n);
      if !ok {
        return;
      }
      resSrv := kube.List(OfReplica(ServerKind, i));
      if resSrv.None? {
        return false;
      }
      GrownServerOrNone(g, kube.st);
      GrownWellFormed(g, kube.st);
      ListedOnce(cr, i, version, kube.st, resSrv.value);
      ListedServer(cr, i, version, kube.st, resSrv.value);
    }
    ghost var t := kube.st;
    ok := EnsureNicsAndRules(kube, cr, i, version, resSrv.value[0], n, g);
    if ok { SameVolumesKept(g.s0, t, kube.st); }
  }

  /** Nothing of the replica that is there is still on its way, so that a creation can go on. */
  ghost predicate Resumable(cr: ServerSet, i: nat, sv: nat, st: State) {
    && (ServerKey(cr, i, sv) in st.objs ==> st.objs[ServerKey(cr, i, sv)].id != 0)
    && NicsAndRulesUp(cr, i, sv, st)
  }

  ghost predicate HasIdlessServer(cr: ServerSet, i: nat, sv: nat, st: State) {
    ServerKey(cr, i, sv) in st.objs && st.objs[ServerKey(cr, i, sv)].id == 0
  }

  lemma Idless(cr: ServerSet, i: nat, sv: nat, st: State)
    ensures HasIdlessServer(cr, i, sv, st) <==> ServerKey(cr, i, sv) in st.objs && st.objs[ServerKey(cr, i, sv)].id == 0
  {
    hide ServerKey;
  }

  lemma ResumableParts(cr: ServerSet, i: nat, sv: nat, st: State)
    requires Resumable(cr, i, sv, st)
    ensures ServerKey(cr, i, sv) in st.objs ==> st.objs[ServerKey(cr, i, sv)].id != 0
    ensures NicsAndRulesUp(cr, i, sv, st)
  {
    hide ServerKey, NicsAndRulesUp;
  }

  /** From `s0`, wanted objects were added, or a server without an id was removed. */
  ghost predicate CutOff(g: Goal, t: State) {
    || Grown(g, t)
    || exists m :: Grown(g, m) && Dropped(g, m, t)
  }

  ghost predicate Dropped(g: Goal, m: State, t: State) {
    && ServerKey(g.cr, g.i, g.sv) in m.objs && m.objs[ServerKey(g.cr, g.i, g.sv)].id == 0
    && t == m.(objs := m.objs - {ServerKey(g.cr, g.i, g.sv)})
  }

  ghost predicate AllCutOff(g: Goal, trace: seq<State>, n: nat) {
    forall e :: n <= e < |trace| ==> CutOff(g, trace[e])
  }

  lemma GrownCutOff(g: Goal, t: State)
    requires Grown(g, t)
    ensures CutOff(g, t)
  {
    hide Grown;
  }

  lemma AllGrownCutOff(g: Goal, trace: seq<State>, n: nat)
    requires AllGrown(g, trace, n)
    ensures AllCutOff(g, trace, n)
  {
    hide Grown, CutOff;
    forall e | n <= e < |trace| ensures CutOff(g, trace[e]) { GrownCutOff(g, trace[e]); }
  }

  lemma DroppedCutOff(g: Goal, m: State, t: State)
    requires Grown(g, m) && Dropped(g, m, t)
    ensures CutOff(g, t)
  {
    hide Grown, Dropped;
  }

  method EnsureNicsAndRules(kube: Kube, cr: ServerSet, i: nat, version: nat, server: Item, ghost n: nat, ghost g: Goal)
      returns (ok: bool)
    requires g.cr == cr && g.i == i && g.sv == version && Grown(g, kube.st) && n <= |kube.trace|
    requires server.key == ServerKey(cr, i, version) && server.key in kube.st.objs &&
             kube.st.objs[server.key] == server.obj
    requires AllCutOff(g, kube.trace, n)
    modifies kube
    ensures old(kube.trace) <= kube.trace
    ensures ok ==> Grown(g, kube.st) && ServerDone(cr, i, version, kube.st)
    ensures ok ==> SameVolumes(old(kube.st), kube.st)
    ensures CutOff(g, kube.st) && AllCutOff(g, kube.trace, n)
    ensures kube.reliable && server.obj.id != 0 && NicsAndRulesUp(cr, i, version, old(kube.st)) ==> ok
    ensures kube.reliable && server.obj.id == 0 ==> !ok && server.key !in kube.st.objs
  {
    hide Grown, ServerKey, NicKey, RuleKey, CutOff, Dropped, RulesReady, NicsAndRulesUp;
    hide NicController.PresentAvailable, RulesUp;
    ghost var m := kube.st;
    GrownCutOff(g, m);
    if NicsAndRulesUp(cr, i, version, m) { BothUp(cr, i, version, m); }
    var serverID := server.obj.id;
    if serverID == 0 {
      var _ := kube.Delete(server.key);
      DropsIdless(g, m, m.(objs := m.objs - {server.key}));
      DroppedCutOff(g, m, m.(objs := m.objs - {server.key}));
      return false;
    }
    ghost var sched;
    ok, sched := NicController.EnsureNICs(kube, cr, i, version, serverID, g);
    GrownCutOff(g, kube.st);
    AllGrownCutOff(g, kube.trace, |old(kube.trace)|);
    if !ok {
      return;
    }
    ghost var t, mid := kube.st, kube.trace;
    if RulesUp(cr, i, version, m) { RulesKeptUp(cr, i, version, m, t); }
    ok := EnsureFirewallRules(kube, cr, i, version, serverID, g);
    GrownCutOff(g, kube.st);
    AllGrownCutOff(g, kube.trace, |mid|);
    if ok {
      StillNicsReady(cr, i, version, t, kube.st);
      NonRulesVolumes(t, kube.st);
      SameVolumesKept(m, t, kube.st);
    }
  }

  lemma DropsIdless(g: Goal, m: State, t: State)
    requires ServerKey(g.cr, g.i, g.sv) in m.objs && m.objs[ServerKey(g.cr, g.i, g.sv)].id == 0
    requires t == m.(objs := m.objs - {ServerKey(g.cr, g.i, g.sv)})
    ensures Dropped(g, m, t)
  {
  }

  // ---------- the boot volume ----------

  ghost predicate VolumeOrNone(cr: ServerSet, i: nat, vv: nat, st: State) {
    forall k :: k in st.objs && Of(k, i, VolumeKind) ==> k == VolumeKey(cr, i, vv)
  }

  lemma GrownVolumeOrNone(g: Goal, t: State)
    requires Grown(g, t) && VolumeOrNone(g.cr, g.i, g.vv, g.s0)
    ensures VolumeOrNone(g.cr, g.i, g.vv, t)
  {
    hide WellFormed, Wired, ServerKey, VolumeKey, NicKey, RuleKey, Owner, VersionOf, NicOf, RuleOf;
  }

  lemma NotSeveralVolumes(cr: ServerSet, i: nat, vv: nat, st: State)
    requires VolumeOrNone(cr, i, vv, st)
    ensures !Several(st, i, VolumeKind)
  {
    hide VolumeKey;
  }

  lemma ListedVolume(cr: ServerSet, i: nat, vv: nat, st: State, items: seq<Item>)
    requires WellFormed(cr, st) && Lists(st, OfReplica(VolumeKind, i), items) && VolumeOrNone(cr, i, vv, st)
    ensures |items| > 0 <==> VolumeKey(cr, i, vv) in st.objs
    ensures |items| <= 1
  {
    hide WellFormed, ServerKey, VolumeKey, Owner, VersionOf, Matches, OfReplica;
    ListedByReplica(cr, st, VolumeKind, i, items);
    NotSeveralVolumes(cr, i, vv, st);
    if |items| > 0 { assert Of(items[0].key, i, VolumeKind); }
    assert Of(VolumeKey(cr, i, vv), i, VolumeKind);
  }

  /** A volume that is there is taken as it is, with or without an id. */
  method EnsureBootVolumeByIndex(kube: Kube, cr: ServerSet, i: nat, version: nat, ghost g: Goal) returns (ok: bool)
    requires g.cr == cr && g.i == i && g.vv == version && Grown(g, kube.st)
    requires VolumeOrNone(cr, i, version, g.s0)
    modifies kube
    ensures Grown(g, kube.st) && old(kube.trace) <= kube.trace && AllGrown(g, kube.trace, |old(kube.trace)|)
    ensures OthersKept(old(kube.st), kube.st, VolumeKey(cr, i, version))
    ensures VolumeKey(cr, i, version) in old(kube.st).objs ==> kube.st == old(kube.st)
    ensures ok ==> VolumeKey(cr, i, version) in kube.st.objs
    ensures ok && VolumeKey(cr, i, version) !in old(kube.st).objs ==> IdAt(kube.st, VolumeKey(cr, i, version)) != 0
    ensures kube.reliable ==> ok
  {
    hide Grown, VolumeKey, Lists, VolumeOrNone, OfReplica, WellFormed;
    GrownWellFormed(g, kube.st);
    GrownVolumeOrNone(g, kube.st);
    var res := kube.List(OfReplica(VolumeKind, i));
    if res.None? {
      return false;
    }
    ListedVolume(cr, i, version, kube.st, res.value);
    if |res.value| > 1 {
      return false;
    }
    if |res.value| > 0 {
      return true;
    }
    ok := EnsureVolume(kube, cr, i, version, g);
  }

  // ---------- one replica ----------

  /** From `m`, the server was set to boot from the volume of version `vv`. */
  ghost predicate Joined(cr: ServerSet, i: nat, vv: nat, sv: nat, m: State, t: State) {
    && ServerKey(cr, i, sv) in m.objs && m.objs[ServerKey(cr, i, sv)].spec.ServerSpec?
    && VolumeKey(cr, i, vv) in m.objs
    && t == m.(objs := m.objs[ServerKey(cr, i, sv) :=
               WithVolume(m.objs[ServerKey(cr, i, sv)], IdAt(m, VolumeKey(cr, i, vv)))])
  }

  method AttachBootVolume(kube: Kube, cr: ServerSet, i: nat, sv: nat, vv: nat) returns (ok: bool)
    requires WellFormed(cr, kube.st)
    modifies kube
    ensures (!ok && kube.st == old(kube.st) && kube.trace == old(kube.trace))
            || (Joined(cr, i, vv, sv, old(kube.st), kube.st) && kube.trace == old(kube.trace) + [kube.st])
    ensures kube.reliable ==>
              (VolumeKey(cr, i, vv) in old(kube.st).objs && ServerKey(cr, i, sv) in old(kube.st).objs ==> ok)
  {
    hide WellFormed, ServerKey, VolumeKey;
    var bootVolume := kube.Get(VolumeKey(cr, i, vv));
    if !bootVolume.Found? {
      return false;
    }
    var server := kube.Get(ServerKey(cr, i, sv));
    if !server.Found? {
      return false;
    }
    IsServerSpec(cr, kube.st, ServerKey(cr, i, sv));
    ok := kube.Update(ServerKey(cr, i, sv), WithVolume(server.obj, bootVolume.obj.id));
  }

  lemma IsServerSpec(cr: ServerSet, st: State, k: Key)
    requires WellFormed(cr, st) && k in st.objs && k.kind.ServerKind?
    ensures st.objs[k].spec.ServerSpec?
  {
    hide InDesired, Owner, VersionOf;
    assert Made(cr, k, st.objs[k]);
  }

  lemma GrownStays(g: Goal, t: State)
    requires Grown(g, t) && !Jammed(g.s0, g.i)
    requires ServerOrNone(g.cr, g.i, g.sv, g.s0) && VolumeOrNone(g.cr, g.i, g.vv, g.s0)
    ensures g.sv == 0 || HasVolume(g.s0, g.i) ==> Stays(g.cr, g.i, g.s0, t)
  {
    hide WellFormed, Wired, InDesired, ServerKey, VolumeKey, OnlyReplica, Jammed, Grown, ServerOrNone;
    hide VolumeOrNone, Safe;
    hide InService, HasVolume, ZeroWithoutVolume;
    GrownKeepsService(g, t);
    GrownKeepsZero(g, t);
    GrownSafe(g, g.vv, g.sv, t);
    SafeHas(g.cr, g.i, g.vv, g.sv, g.s0, t);
  }

  lemma SafeHas(cr: ServerSet, i: nat, vv: nat, sv: nat, s: State, t: State)
    requires Safe(cr, i, vv, sv, s, t)
    ensures WellFormed(cr, t) && OnlyReplica(s, t, i) && (HasVolume(s, i) ==> HasVolume(t, i))
  {
    hide WellFormed, OnlyReplica;
  }

  lemma GrownKeepsService(g: Goal, t: State)
    requires Grown(g, t)
    ensures InService(g.cr, g.i, g.s0) ==> InService(g.cr, g.i, t)
  {
    hide WellFormed, Wired, InDesired, ServerKey, VolumeKey;
    if InService(g.cr, g.i, g.s0) {
      var vv: nat, sv: nat :| ServedWith(g.cr, g.i, vv, sv, g.s0);
      assert ServedWith(g.cr, g.i, vv, sv, t);
    }
  }

  lemma GrownKeepsZero(g: Goal, t: State)
    requires Grown(g, t) && ServerOrNone(g.cr, g.i, g.sv, g.s0)
    ensures g.sv == 0 || HasVolume(g.s0, g.i) ==> ZeroWithoutVolume(t, g.i)
  {
    hide WellFormed, Wired, InDesired, ServerKey, VolumeKey, Owner, VersionOf;
    GrownServerOrNone(g, t);
    if HasVolume(g.s0, g.i) {
      var k :| k in g.s0.objs && k.kind.VolumeKind? && Owner(k) == g.i;
      assert k in t.objs;
    }
  }

  lemma DroppedStays(g: Goal, m: State, t: State)
    requires Grown(g, m) && Dropped(g, m, t) && !Jammed(g.s0, g.i) && (g.sv == 0 || HasVolume(g.s0, g.i))
    requires ServerOrNone(g.cr, g.i, g.sv, g.s0) && VolumeOrNone(g.cr, g.i, g.vv, g.s0)
    ensures Stays(g.cr, g.i, g.s0, t)
  {
    hide WellFormed, Wired, InDesired, ServerKey, VolumeKey, Jammed, Grown, ServerOrNone, VolumeOrNone, HasVolume;
    hide InService, ZeroWithoutVolume, Owner;
    GrownStays(g, m);
    DroppedNotServed(g, m);
    OnlyBootVolumeRemoved(g.cr, m, ServerKey(g.cr, g.i, g.sv));
    DroppedZero(g, m, t);
  }

  lemma OnlyBootVolumeRemoved(cr: ServerSet, u: State, k: Key)
    requires WellFormed(cr, u)
    ensures WellFormed(cr, u.(objs := u.objs - {k}))
  {
    hide Made;
  }

  /** A replica whose server has no id is not in service. */
  lemma DroppedNotServed(g: Goal, m: State)
    requires Grown(g, m) && ServerOrNone(g.cr, g.i, g.sv, g.s0)
    requires ServerKey(g.cr, g.i, g.sv) in m.objs && m.objs[ServerKey(g.cr, g.i, g.sv)].id == 0
    ensures !InService(g.cr, g.i, g.s0)
  {
    hide WellFormed, Wired, InDesired, ServerKey, VolumeKey, Owner;
    forall vv: nat, sv: nat ensures !ServedWith(g.cr, g.i, vv, sv, g.s0) {
      if ServerKey(g.cr, g.i, sv) in g.s0.objs { assert Of(ServerKey(g.cr, g.i, sv), g.i, ServerKind); }
    }
  }

  lemma DroppedZero(g: Goal, m: State, t: State)
    requires Grown(g, m) && Dropped(g, m, t) && ServerOrNone(g.cr, g.i, g.sv, g.s0)
    ensures ZeroWithoutVolume(t, g.i)
  {
    hide WellFormed, Wired, ServerKey, Owner, VersionOf, Grown;
    GrownServerOrNone(g, m);
  }

  lemma CutOffStays(g: Goal, t: State)
    requires CutOff(g, t) && !Jammed(g.s0, g.i) && (g.sv == 0 || HasVolume(g.s0, g.i))
    requires ServerOrNone(g.cr, g.i, g.sv, g.s0) && VolumeOrNone(g.cr, g.i, g.vv, g.s0)
    ensures Stays(g.cr, g.i, g.s0, t)
  {
    hide Grown, Dropped, Jammed, HasVolume, ServerOrNone, VolumeOrNone, Stays;
    if Grown(g, t) {
      GrownStays(g, t);
    } else {
      var m :| Grown(g, m) && Dropped(g, m, t);
      DroppedStays(g, m, t);
    }
  }

  lemma AllCutOffStay(g: Goal, trace: seq<State>, n: nat)
    requires AllCutOff(g, trace, n) && !Jammed(g.s0, g.i) && (g.sv == 0 || HasVolume(g.s0, g.i))
    requires ServerOrNone(g.cr, g.i, g.sv, g.s0) && VolumeOrNone(g.cr, g.i, g.vv, g.s0)
    ensures AllStay(g.cr, g.i, g.s0, trace, n)
  {
    hide CutOff, Jammed, HasVolume, ServerOrNone, VolumeOrNone, Stays;
    forall e | n <= e < |trace| ensures Stays(g.cr, g.i, g.s0, trace[e]) { CutOffStays(g, trace[e]); }
  }

  /** Attaching the volume changes nothing for a replica in service. */
  lemma JoinedStays(g: Goal, m: State, t: State)
    requires Grown(g, m) && Joined(g.cr, g.i, g.vv, g.sv, m, t) && !Jammed(g.s0, g.i)
    requires g.sv == 0 || HasVolume(g.s0, g.i)
    requires ServerOrNone(g.cr, g.i, g.sv, g.s0) && VolumeOrNone(g.cr, g.i, g.vv, g.s0)
    ensures Stays(g.cr, g.i, g.s0, t)
  {
    hide WellFormed, Wired, InDesired, ServerKey, VolumeKey, Jammed, Grown, ServerOrNone, VolumeOrNone, HasVolume;
    hide InService, ZeroWithoutVolume, Owner;
    GrownStays(g, m);
    GrownWellFormed(g, m);
    JoinedWellFormed(g.cr, g.i, g.vv, g.sv, m, t);
    if InService(g.cr, g.i, g.s0) { JoinedSame(g, m, t); }
    assert SameKeys(m, t, g.i);
    if ZeroWithoutVolume(g.s0, g.i) { SameKeysZero(m, t, g.i); }
  }

  lemma JoinedWellFormed(cr: ServerSet, i: nat, vv: nat, sv: nat, m: State, t: State)
    requires WellFormed(cr, m) && Joined(cr, i, vv, sv, m, t)
    ensures WellFormed(cr, t)
  {
    hide Made, ServerKey, VolumeKey, WellFormed;
    WithVolumeMade(cr, m, ServerKey(cr, i, sv), IdAt(m, VolumeKey(cr, i, vv)));
    TouchWellFormed(cr, m, t, ServerKey(cr, i, sv));
  }

  lemma JoinedSame(g: Goal, m: State, t: State)
    requires Grown(g, m) && Joined(g.cr, g.i, g.vv, g.sv, m, t) && InService(g.cr, g.i, g.s0)
    requires ServerOrNone(g.cr, g.i, g.sv, g.s0) && VolumeOrNone(g.cr, g.i, g.vv, g.s0)
    ensures t.objs == m.objs && t == m
  {
    hide WellFormed, Wired, InDesired, ServerKey, VolumeKey, Owner;
    var vv: nat, sv: nat :| ServedWith(g.cr, g.i, vv, sv, g.s0);
    assert Of(ServerKey(g.cr, g.i, sv), g.i, ServerKind) && Of(VolumeKey(g.cr, g.i, vv), g.i, VolumeKind);
    assert ServerKey(g.cr, g.i, sv) == ServerKey(g.cr, g.i, g.sv);
    assert VolumeKey(g.cr, g.i, vv) == VolumeKey(g.cr, g.i, g.vv);
  }

  /** What the versions read say about the replica. */
  lemma KnownVersions(cr: ServerSet, i: nat, pair: Pair, st: State)
    requires !pair.Unknown? && WellFormed(cr, st)
    requires pair.Both? ==> Sole(cr, i, pair.volume, pair.server, st)
    requires pair.NoVolume? ==> NoneOf(st, i, VolumeKind) && ZeroWithoutVolume(st, i)
    requires pair.NoServer? ==> OnlyOne(st, i, VolumeKind, VolumeKey(cr, i, pair.volume)) && NoneOf(st, i, ServerKind)
    ensures var (vv, sv) := CreateVersions(pair);
      && VolumeOrNone(cr, i, vv, st)
      && (Several(st, i, ServerKind) || ServerOrNone(cr, i, sv, st))
      && (sv == 0 || HasVolume(st, i))
      && (ServerOrNone(cr, i, sv, st) ==> !Jammed(st, i))
  {
    hide WellFormed, Owner, VersionOf, ServerKey, VolumeKey;
    forall k | k in st.objs && k.kind.ServerKind?
      ensures Owner(k) >= 0 && VersionOf(k) >= 0 && k == ServerKey(cr, Owner(k), VersionOf(k))
    {
      LabelsOf(cr, st, k);
    }
  }

  function CreateVersions(pair: Pair): (nat, nat) {
    match pair
    case Both(volume, server) => (volume, server)
    case NoServer(volume) => (volume, 0)
    case _ => (0, 0)
  }

  lemma UnchangedStays(cr: ServerSet, i: nat, s: State)
    requires WellFormed(cr, s)
    ensures Stays(cr, i, s, s)
  {
    hide WellFormed, InService, Jammed, ZeroWithoutVolume;
  }

  lemma StayJoined(cr: ServerSet, i: nat, s: State, mid: seq<State>, trace: seq<State>, n: nat)
    requires mid <= trace && AllStay(cr, i, s, mid, n) && AllStay(cr, i, s, trace, |mid|)
    ensures AllStay(cr, i, s, trace, n)
  {
    hide Stays;
    forall e | n <= e < |trace| ensures Stays(cr, i, s, trace[e]) {
      if e < |mid| { assert trace[e] == mid[e]; }
    }
  }

  /** Everything a successful pass has ensured for the replica, before the volume is attached. */
  ghost predicate Ensured(g: Goal, m: State) {
    && Grown(g, m) && ServerDone(g.cr, g.i, g.sv, m)
    && VolumeKey(g.cr, g.i, g.vv) in m.objs
    && (VolumeKey(g.cr, g.i, g.vv) !in g.s0.objs ==> IdAt(m, VolumeKey(g.cr, g.i, g.vv)) != 0)
  }

  /** The volume and the attachment, once the server is done. */
  method EnsureVolumeAndAttach(kube: Kube, cr: ServerSet, i: nat, vv: nat, sv: nat, ghost g: Goal)
      returns (ok: bool, ghost m: State)
    requires g.cr == cr && g.i == i && g.vv == vv && g.sv == sv && Grown(g, kube.st) && ServerDone(cr, i, sv, kube.st)
    requires !Jammed(g.s0, i) && (sv == 0 || HasVolume(g.s0, i))
    requires ServerOrNone(cr, i, sv, g.s0) && VolumeOrNone(cr, i, vv, g.s0) && SameVolumes(g.s0, kube.st)
    modifies kube
    ensures Stays(cr, i, g.s0, kube.st)
    ensures old(kube.trace) <= kube.trace && AllStay(cr, i, g.s0, kube.trace, |old(kube.trace)|)
    ensures ok ==> Ensured(g, m) && Joined(cr, i, vv, sv, m, kube.st)
    ensures NewFit(cr, g.s0, kube.st)
    ensures kube.reliable ==> ok
  {
    hide Grown, Stays, ServerDone, Jammed, HasVolume, ServerOrNone, VolumeOrNone, Joined, ServerKey;
    hide VolumeKey, OthersKept;
    hide CutOff, AllCutOff, WellFormed, NewFit;
    ghost var n, t := |kube.trace|, kube.st;
    ok := EnsureBootVolumeByIndex(kube, cr, i, vv, g);
    m := kube.st;
    ghost var mid := kube.trace;
    GrownFits(g, m);
    GrownStays(g, m);
    AllGrownCutOff(g, mid, n);
    AllCutOffStay(g, mid, n);
    if !ok {
      return;
    }
    DoneStill(g, t, m);
    DoneHasServer(cr, i, sv, m);
    GrownVolumeSame(g, t);
    GrownWellFormed(g, m);
    ok := AttachBootVolume(kube, cr, i, sv, vv);
    if kube.trace != mid {
      JoinedStays(g, m, kube.st);
      JoinedFits(g, m, kube.st);
    }
  }

  lemma JoinedFits(g: Goal, m: State, t: State)
    requires NewFit(g.cr, g.s0, m) && Joined(g.cr, g.i, g.vv, g.sv, m, t)
    ensures NewFit(g.cr, g.s0, t)
  {
    hide NewFit, ServerKey, VolumeKey;
    NewFitAttached(g.cr, g.s0, m, ServerKey(g.cr, g.i, g.sv), IdAt(m, VolumeKey(g.cr, g.i, g.vv)));
  }

  lemma CutOffFits(g: Goal, t: State)
    requires CutOff(g, t)
    ensures NewFit(g.cr, g.s0, t)
  {
    hide NewFit, Grown, ServerKey;
    if Grown(g, t) {
      GrownFits(g, t);
    } else {
      var m :| Grown(g, m) && Dropped(g, m, t);
      GrownFits(g, m);
      NewFitRemoved(g.cr, g.s0, m, t);
    }
  }

  lemma DoneHasServer(cr: ServerSet, i: nat, sv: nat, st: State)
    requires ServerDone(cr, i, sv, st)
    ensures ServerKey(cr, i, sv) in st.objs
  {
    hide ServerKey, NicsReady, RulesReady;
  }

  lemma GrownVolumeSame(g: Goal, t: State)
    requires Grown(g, t)
    ensures VolumeKey(g.cr, g.i, g.vv) in g.s0.objs ==> VolumeKey(g.cr, g.i, g.vv) in t.objs
  {
    hide WellFormed, Wired, InDesired, VolumeKey;
  }

  lemma DoneStill(g: Goal, s: State, t: State)
    requires ServerDone(g.cr, g.i, g.sv, s) && OthersKept(s, t, VolumeKey(g.cr, g.i, g.vv))
    ensures ServerDone(g.cr, g.i, g.sv, t)
  {
    hide ServerKey, VolumeKey, NicKey, RuleKey, Owner, VersionOf, NicOf, RuleOf;
  }

  /** One turn of Create's loop: replica `i` and nothing else, safe wherever it is cut; `vv` and `sv`
      are the versions it read. */
  method CreateReplica(kube: Kube, cr: ServerSet, i: nat)
      returns (ok: bool, ghost vv: nat, ghost sv: nat, ghost m: State)
    requires WellFormed(cr, kube.st) && ZeroWithoutVolume(kube.st, i)
    modifies kube
    ensures Stays(cr, i, old(kube.st), kube.st)
    ensures old(kube.trace) <= kube.trace && AllStay(cr, i, old(kube.st), kube.trace, |old(kube.trace)|)
    ensures ok ==> Ensured(Goal(cr, i, vv, sv, old(kube.st)), m) && Joined(cr, i, vv, sv, m, kube.st)
    ensures ok ==> VolumeOrNone(cr, i, vv, old(kube.st)) && ServerOrNone(cr, i, sv, old(kube.st))
    ensures ok ==> (vv, sv) == (0, 0) || Sole(cr, i, vv, sv, old(kube.st))
                   || (sv == 0 && VolumeKey(cr, i, vv) in old(kube.st).objs)
    ensures kube.reliable && BegunAtSome(cr, i, old(kube.st)) ==> ok
    ensures NewFit(cr, old(kube.st), kube.st)
    ensures Jammed(old(kube.st), i) ==> !ok && kube.st == old(kube.st) && kube.trace == old(kube.trace)
  {
    hide WellFormed, Grown, Stays, ServerDone, Jammed, HasVolume, ServerOrNone, VolumeOrNone, Joined;
    hide ServerKey, VolumeKey;
    hide Several, NoneOf, Sole, OnlyOne, ZeroWithoutVolume, CutOff, AllCutOff, AllStay, Ensured;
    hide BegunAtSome, Resumable, NewFit;
    vv, sv, m := 0, 0, kube.st;
    ghost var s, n := kube.st, |kube.trace|;
    UnchangedStays(cr, i, s);
    NewFitStart(cr, s);
    NoTraceStays(cr, i, s, kube.trace);
    var versions := GetVersionsFromVolumeAndServer(kube, cr, i);
    if BegunAtSome(cr, i, s) { BegunNotSeveral(cr, i, s); }
    if versions.Unknown? {
      return false, 0, 0, m;
    }
    KnownVersions(cr, i, versions, s);
    OnlyIsThere(cr, i, versions, s);
    var (volumeVersion, serverVersion) := CreateVersions(versions);
    vv, sv := volumeVersion, serverVersion;
    ghost var g := Goal(cr, i, vv, sv, s);
    StartGrown(g);
    if BegunAtSome(cr, i, s) { BegunResumes(cr, i, vv, sv, s); }
    ok := EnsureServerAndNicByIndex(kube, cr, i, serverVersion, g);
    CutOffFits(g, kube.st);
    if ServerOrNone(cr, i, sv, s) {
      CutOffStays(g, kube.st);
      AllCutOffStay(g, kube.trace, n);
    }
    if !ok {
      return;
    }
    ghost var mid := kube.trace;
    ok, m := EnsureVolumeAndAttach(kube, cr, i, volumeVersion, serverVersion, g);
    StayJoined(cr, i, s, mid, kube.trace, n);
  }

  lemma NoTraceStays(cr: ServerSet, i: nat, s: State, trace: seq<State>)
    ensures AllStay(cr, i, s, trace, |trace|)
  {
  }

  lemma OnlyIsThere(cr: ServerSet, i: nat, pair: Pair, st: State)
    requires pair.NoServer? ==> OnlyOne(st, i, VolumeKind, VolumeKey(cr, i, pair.volume))
    ensures pair.NoServer? ==> VolumeKey(cr, i, pair.volume) in st.objs
  {
    hide VolumeKey;
  }

  /** Complete or begun, at whatever versions, with nothing on its way. */
  ghost predicate BegunAtSome(cr: ServerSet, i: nat, st: State) {
    exists vv: nat, sv: nat :: Begun(cr, i, vv, sv, st) && Resumable(cr, i, sv, st)
  }

  lemma BegunNotSeveral(cr: ServerSet, i: nat, st: State)
    requires BegunAtSome(cr, i, st)
    ensures !Several(st, i, VolumeKind) && !Several(st, i, ServerKind)
  {
    hide ServerKey, VolumeKey, NicKey, RuleKey, NicOf, RuleOf, Owner, VersionOf, Wired, Complete, Resumable;
  }

  lemma BegunResumes(cr: ServerSet, i: nat, vv: nat, sv: nat, s: State)
    requires BegunAtSome(cr, i, s) && VolumeOrNone(cr, i, vv, s) && ServerOrNone(cr, i, sv, s)
    requires (vv, sv) == (0, 0) || Sole(cr, i, vv, sv, s) || (sv == 0 && VolumeKey(cr, i, vv) in s.objs)
    ensures Resumable(cr, i, sv, s)
  {
    hide Begun, VolumeOrNone, ServerOrNone, Sole, VolumeKey, Resumable;
    var vv0: nat, sv0: nat :| Begun(cr, i, vv0, sv0, s) && Resumable(cr, i, sv0, s);
    VersionsRead(cr, i, vv, sv, vv0, sv0, s);
  }

  // ---------- exactness ----------

  lemma AllWantedThere(g: Goal, m: State)
    requires RulesActive(g.cr) && Ensured(g, m)
    ensures forall k :: InDesired(g.cr, g.i, g.vv, g.sv, k) ==> k in m.objs
  {
    hide ServerKey, VolumeKey, NicKey, RuleKey, Owner, VersionOf, NicOf, RuleOf, Grown;
    forall k | InDesired(g.cr, g.i, g.vv, g.sv, k) ensures k in m.objs {
      match k.kind
      case NicKind => assert Ready(m, NicKey(g.cr, g.i, NicOf(k), g.sv));
      case RuleKind => assert Ready(m, RuleKey(g.cr, g.i, NicOf(k), RuleOf(k), g.sv));
      case _ =>
    }
  }

  /** Nothing but wanted objects, wired: as it was begun, so it is grown. */
  lemma BegunGrown(g: Goal, m: State)
    requires Begun(g.cr, g.i, g.vv, g.sv, g.s0) && Grown(g, m)
    ensures Wired(g.cr, g.i, g.sv, m)
    ensures forall k :: k in m.objs && Owner(k) == g.i ==> InDesired(g.cr, g.i, g.vv, g.sv, k)
  {
    hide WellFormed, Wired, InDesired, Owner, Complete;
  }

  lemma JoinedWired(cr: ServerSet, i: nat, vv: nat, sv: nat, m: State, t: State)
    requires Wired(cr, i, sv, m) && Joined(cr, i, vv, sv, m, t)
    ensures Wired(cr, i, sv, t)
  {
    hide Wired, ServerKey, VolumeKey;
    WithVolumeWired(cr, i, sv, m, t, ServerKey(cr, i, sv), IdAt(m, VolumeKey(cr, i, vv)));
  }

  /** A successful pass over a replica that was complete or begun leaves exactly what is wanted. */
  lemma EnsuredIsWhole(g: Goal, m: State, t: State)
    requires RulesActive(g.cr) && Begun(g.cr, g.i, g.vv, g.sv, g.s0)
    requires Ensured(g, m) && Joined(g.cr, g.i, g.vv, g.sv, m, t)
    ensures Whole(g.cr, g.i, g.vv, g.sv, t)
  {
    hide Grown, WellFormed, Wired, InDesired, Owner, ServerKey, VolumeKey, NicsReady, RulesReady, Begun, RulesActive;
    AllWantedThere(g, m);
    BegunGrown(g, m);
    JoinedWired(g.cr, g.i, g.vv, g.sv, m, t);
  }

  /** The server ends up attached to a volume with an id exactly when the volume was not there before,
      or was there with its id already. */
  lemma AttachedIffVolumeHadId(g: Goal, m: State, t: State)
    requires Ensured(g, m) && Joined(g.cr, g.i, g.vv, g.sv, m, t)
    ensures IdAt(t, VolumeKey(g.cr, g.i, g.vv)) != 0
       <==> VolumeKey(g.cr, g.i, g.vv) !in g.s0.objs || g.s0.objs[VolumeKey(g.cr, g.i, g.vv)].id != 0
  {
    hide WellFormed, Wired, InDesired, ServerDone, ServerKey, VolumeKey;
  }

  /** For a replica that a pass has been over the next pass changes nothing, whether its volume has an id or
      not. */
  lemma WholeUnchanged(g: Goal, m: State, t: State)
    requires Whole(g.cr, g.i, g.vv, g.sv, g.s0)
    requires Grown(g, m) && Joined(g.cr, g.i, g.vv, g.sv, m, t)
    ensures t.objs == g.s0.objs
  {
    hide WellFormed, Wired, InDesired, Owner, ServerKey, VolumeKey;
    assert forall k :: k in m.objs <==> k in g.s0.objs;
    assert m.objs == g.s0.objs;
  }

  /** A successful pass needed that nothing of the replica was still on its way. */
  lemma EnsuredWasResumable(g: Goal, m: State)
    requires Ensured(g, m)
    ensures Resumable(g.cr, g.i, g.sv, g.s0)
  {
    hide WellFormed, Wired, InDesired, ServerKey, VolumeKey, NicKey, RuleKey;
    assert RulesUp(g.cr, g.i, g.sv, g.s0) by { ReadyWereUp(g.cr, g.i, g.sv, g.s0, m); }
    forall n | 0 <= n < |g.cr.nics| && NicKey(g.cr, g.i, n, g.sv) in g.s0.objs
      ensures g.s0.objs[NicKey(g.cr, g.i, n, g.sv)].state.Available?
    {
      assert Ready(m, NicKey(g.cr, g.i, n, g.sv));
    }
  }

  /** The versions Create reads are those at which the replica is whole. */
  lemma WholeVersionsRead(cr: ServerSet, i: nat, vv: nat, sv: nat, vv0: nat, sv0: nat, s: State)
    requires Whole(cr, i, vv0, sv0, s) && VolumeOrNone(cr, i, vv, s) && ServerOrNone(cr, i, sv, s)
    ensures vv == vv0 && sv == sv0
  {
    hide ServerKey, VolumeKey, NicKey, RuleKey, NicOf, RuleOf, Owner, VersionOf, Wired, InDesired;
    ServerVolumeWanted(cr, i, vv0, sv0);
    assert Of(ServerKey(cr, i, sv0), i, ServerKind) && Of(VolumeKey(cr, i, vv0), i, VolumeKind);
    assert VersionOf(ServerKey(cr, i, sv0)) == VersionOf(ServerKey(cr, i, sv));
    assert VersionOf(VolumeKey(cr, i, vv0)) == VersionOf(VolumeKey(cr, i, vv));
  }

  /** The versions Create reads are the ones at which the replica was complete or begun. */
  lemma VersionsRead(cr: ServerSet, i: nat, vv: nat, sv: nat, vv0: nat, sv0: nat, s: State)
    requires Begun(cr, i, vv0, sv0, s) && VolumeOrNone(cr, i, vv, s) && ServerOrNone(cr, i, sv, s)
    requires (vv, sv) == (0, 0) || Sole(cr, i, vv, sv, s) || (sv == 0 && VolumeKey(cr, i, vv) in s.objs)
    ensures vv == vv0 && sv == sv0
  {
    hide ServerKey, VolumeKey, NicKey, RuleKey, NicOf, RuleOf, Owner, VersionOf, Wired;
    if Complete(cr, i, vv0, sv0, s) {
      ServerVolumeWanted(cr, i, vv0, sv0);
      assert Of(ServerKey(cr, i, sv0), i, ServerKind) && Of(VolumeKey(cr, i, vv0), i, VolumeKind);
      assert VersionOf(ServerKey(cr, i, sv0)) == VersionOf(ServerKey(cr, i, sv));
      assert VersionOf(VolumeKey(cr, i, vv0)) == VersionOf(VolumeKey(cr, i, vv));
    } else {
      if VolumeKey(cr, i, vv) in s.objs { DesiredOwner(cr, i, 0, 0, VolumeKey(cr, i, vv)); }
      if ServerKey(cr, i, sv) in s.objs { DesiredOwner(cr, i, 0, 0, ServerKey(cr, i, sv)); }
    }
  }

  // ---------- the whole set ----------

  datatype ReplicaVersions = ReplicaVersions(vol: seq<nat>, srv: seq<nat>)

  ghost predicate Fits(cr: ServerSet, vs: ReplicaVersions) {
    |vs.vol| == |vs.srv| == cr.replicas
  }

  /** Objects belong to replicas of the set only. */
  ghost predicate NoStrangers(cr: ServerSet, st: State) {
    forall k :: k in st.objs ==> 0 <= Owner(k) < cr.replicas
  }

  ghost predicate AllBegun(cr: ServerSet, vs: ReplicaVersions, st: State, from: nat) {
    Fits(cr, vs) && forall i: nat :: from <= i < cr.replicas ==> Begun(cr, i, vs.vol[i], vs.srv[i], st)
  }

  ghost predicate AllWhole(cr: ServerSet, vs: ReplicaVersions, st: State, upto: nat) {
    Fits(cr, vs) && upto <= cr.replicas && forall i: nat :: i < upto ==> Whole(cr, i, vs.vol[i], vs.srv[i], st)
  }

  /** Below `upto` the volumes have ids unless they were there without one. */
  ghost predicate IdsAsFound(cr: ServerSet, vs: ReplicaVersions, s: State, t: State, upto: nat) {
    Fits(cr, vs) && upto <= cr.replicas && forall i: nat :: i < upto ==>
      var k := VolumeKey(cr, i, vs.vol[i]);
      IdAt(t, k) != 0 <==> k !in s.objs || s.objs[k].id != 0
  }

  lemma OtherIdAt(s: State, t: State, i: nat, k: Key)
    requires OnlyReplica(s, t, i) && Owner(k) != i
    ensures IdAt(t, k) == IdAt(s, k) && (k in s.objs <==> k in t.objs) && (k in s.objs ==> s.objs[k] == t.objs[k])
  {
    hide Owner;
  }

  lemma OtherWired(cr: ServerSet, i: nat, j: nat, sv: nat, s: State, t: State)
    requires OnlyReplica(s, t, i) && i != j && Wired(cr, j, sv, s)
    ensures Wired(cr, j, sv, t)
  {
    hide Owner, VersionOf, NicOf, ServerKey, NicKey;
    forall k | k in t.objs && Owner(k) == j && VersionOf(k) == sv ensures SpecWired(cr, j, sv, t, k, t.objs[k].spec) {
      assert SpecWired(cr, j, sv, s, k, s.objs[k].spec);
    }
  }

  lemma OtherComplete(cr: ServerSet, i: nat, j: nat, vv: nat, sv: nat, s: State, t: State)
    requires OnlyReplica(s, t, i) && i != j && Complete(cr, j, vv, sv, s)
    ensures Complete(cr, j, vv, sv, t)
  {
    hide InDesired, Owner, Wired, ServerKey, VolumeKey;
    OtherWired(cr, i, j, sv, s, t);
    OtherIdAt(s, t, i, ServerKey(cr, j, sv));
    OtherIdAt(s, t, i, VolumeKey(cr, j, vv));
    forall k | InDesired(cr, j, vv, sv, k) ensures k in t.objs { DesiredOwner(cr, j, vv, sv, k); }
  }

  lemma OtherBegun(cr: ServerSet, i: nat, j: nat, vv: nat, sv: nat, s: State, t: State)
    requires OnlyReplica(s, t, i) && i != j && Begun(cr, j, vv, sv, s)
    ensures Begun(cr, j, vv, sv, t)
  {
    hide InDesired, Owner, Wired, Complete;
    OtherWired(cr, i, j, sv, s, t);
    if Complete(cr, j, vv, sv, s) { OtherComplete(cr, i, j, vv, sv, s, t); }
  }

  lemma OtherWhole(cr: ServerSet, i: nat, j: nat, vv: nat, sv: nat, s: State, t: State)
    requires OnlyReplica(s, t, i) && i != j && Whole(cr, j, vv, sv, s)
    ensures Whole(cr, j, vv, sv, t)
  {
    hide InDesired, Owner, Wired, ServerKey, VolumeKey;
    OtherWired(cr, i, j, sv, s, t);
    OtherIdAt(s, t, i, ServerKey(cr, j, sv));
    OtherIdAt(s, t, i, VolumeKey(cr, j, vv));
    forall k | InDesired(cr, j, vv, sv, k) ensures k in t.objs { DesiredOwner(cr, j, vv, sv, k); }
  }

  /** Progress of the loop by one replica. */
  lemma TurnDone(cr: ServerSet, vs: ReplicaVersions, s0: State, s: State, m: State, t: State, i: nat, vv: nat, sv: nat)
    requires i < cr.replicas && RulesActive(cr) && AllWhole(cr, vs, s, i) && AllBegun(cr, vs, s, i)
    requires IdsAsFound(cr, vs, s0, s, i) && SameLater(cr, s0, s, i)
    requires OnlyReplica(s, t, i)
    requires Ensured(Goal(cr, i, vv, sv, s), m) && Joined(cr, i, vv, sv, m, t)
    requires VolumeOrNone(cr, i, vv, s) && ServerOrNone(cr, i, sv, s)
    requires (vv, sv) == (0, 0) || Sole(cr, i, vv, sv, s) || (sv == 0 && VolumeKey(cr, i, vv) in s.objs)
    ensures AllWhole(cr, vs, t, i + 1) && AllBegun(cr, vs, t, i + 1)
    ensures IdsAsFound(cr, vs, s0, t, i + 1) && SameLater(cr, s0, t, i + 1)
  {
    hide Whole, Begun, Ensured, Joined, OnlyReplica, VolumeOrNone, ServerOrNone, Sole, RulesActive, VolumeKey;
    hide SameLater;
    VersionsRead(cr, i, vv, sv, vs.vol[i], vs.srv[i], s);
    EnsuredIsWhole(Goal(cr, i, vv, sv, s), m, t);
    AttachedIffVolumeHadId(Goal(cr, i, vv, sv, s), m, t);
    LaterVolume(cr, s0, s, i, VolumeKey(cr, i, vv));
    forall j: nat | j < i ensures Whole(cr, j, vs.vol[j], vs.srv[j], t)
      && IdAt(t, VolumeKey(cr, j, vs.vol[j])) == IdAt(s, VolumeKey(cr, j, vs.vol[j])) {
      OtherWhole(cr, i, j, vs.vol[j], vs.srv[j], s, t);
      OtherIdAt(s, t, i, VolumeKey(cr, j, vs.vol[j]));
    }
    forall j: nat | i + 1 <= j < cr.replicas ensures Begun(cr, j, vs.vol[j], vs.srv[j], t) {
      OtherBegun(cr, i, j, vs.vol[j], vs.srv[j], s, t);
    }
    LaterSame(cr, s0, s, t, i);
  }

  /** Replicas from `i` on are as they were at the start. */
  ghost predicate SameLater(cr: ServerSet, s0: State, s: State, i: nat) {
    forall k :: Owner(k) >= i ==> (k in s0.objs <==> k in s.objs) && (k in s0.objs ==> s0.objs[k] == s.objs[k])
  }

  lemma LaterVolume(cr: ServerSet, s0: State, s: State, i: nat, k: Key)
    requires SameLater(cr, s0, s, i) && Owner(k) == i
    ensures (k in s0.objs <==> k in s.objs) && (k in s0.objs ==> s0.objs[k] == s.objs[k])
  {
    hide Owner;
  }

  lemma LaterSame(cr: ServerSet, s0: State, s: State, t: State, i: nat)
    requires SameLater(cr, s0, s, i) && OnlyReplica(s, t, i)
    ensures SameLater(cr, s0, t, i + 1)
  {
    hide Owner;
  }

  lemma StrangersKept(cr: ServerSet, s: State, t: State, i: nat)
    requires NoStrangers(cr, s) && OnlyReplica(s, t, i) && i < cr.replicas
    ensures NoStrangers(cr, t)
  {
    hide Owner;
  }

  lemma ZeroEverywhere(cr: ServerSet, s: State, t: State)
    requires KeepsAll(cr, s, t) && forall i: nat :: ZeroWithoutVolume(s, i)
    ensures WellFormed(cr, t) && forall i: nat :: ZeroWithoutVolume(t, i)
  {
    hide WellFormed, ZeroWithoutVolume, InService, Jammed;
  }

  ghost predicate AllComplete(cr: ServerSet, vs: ReplicaVersions, st: State) {
    Fits(cr, vs) && forall i: nat :: i < cr.replicas ==> Complete(cr, i, vs.vol[i], vs.srv[i], st)
  }

  lemma SameObjsWhole(cr: ServerSet, i: nat, vv: nat, sv: nat, s: State, t: State)
    requires Whole(cr, i, vv, sv, s) && s.objs == t.objs
    ensures Whole(cr, i, vv, sv, t)
  {
    hide InDesired, Owner, VersionOf, ServerKey, VolumeKey, NicKey, NicOf;
    forall k | k in t.objs && Owner(k) == i && VersionOf(k) == sv ensures SpecWired(cr, i, sv, t, k, t.objs[k].spec) {
      assert SpecWired(cr, i, sv, s, k, s.objs[k].spec);
    }
  }

  /** A turn for a replica that is whole changes nothing. */
  lemma TurnUnchanged(cr: ServerSet, vs: ReplicaVersions, s0: State, s: State, m: State, t: State,
                      i: nat, vv: nat, sv: nat)
    requires i < cr.replicas && AllWhole(cr, vs, s0, cr.replicas) && s.objs == s0.objs
    requires Ensured(Goal(cr, i, vv, sv, s), m) && Joined(cr, i, vv, sv, m, t)
    requires VolumeOrNone(cr, i, vv, s) && ServerOrNone(cr, i, sv, s)
    ensures t.objs == s0.objs
  {
    hide Joined, VolumeOrNone, ServerOrNone, VolumeKey, Grown, ServerDone, Whole;
    SameObjsWhole(cr, i, vs.vol[i], vs.srv[i], s0, s);
    WholeVersionsRead(cr, i, vv, sv, vs.vol[i], vs.srv[i], s);
    WholeUnchanged(Goal(cr, i, vv, sv, s), m, t);
  }

  ghost predicate AllResumable(cr: ServerSet, vs: ReplicaVersions, st: State) {
    Fits(cr, vs) && forall i: nat :: i < cr.replicas ==> Resumable(cr, i, vs.srv[i], st)
  }

  lemma NextBegun(cr: ServerSet, vs: ReplicaVersions, s0: State, s: State, i: nat)
    requires i < cr.replicas && AllResumable(cr, vs, s0) && AllBegun(cr, vs, s, i) && SameLater(cr, s0, s, i)
    ensures BegunAtSome(cr, i, s)
  {
    hide Begun, Resumable, SameLater;
    LaterResumable(cr, s0, s, i, vs.srv[i]);
    assert Begun(cr, i, vs.vol[i], vs.srv[i], s);
  }

  ghost predicate ResumableUpTo(cr: ServerSet, vs: ReplicaVersions, st: State, upto: nat) {
    Fits(cr, vs) && upto <= cr.replicas && forall i: nat :: i < upto ==> Resumable(cr, i, vs.srv[i], st)
  }

  lemma TurnWasResumable(cr: ServerSet, vs: ReplicaVersions, s0: State, s: State, m: State, i: nat, vv: nat, sv: nat)
    requires i < cr.replicas && ResumableUpTo(cr, vs, s0, i) && AllBegun(cr, vs, s, i) && SameLater(cr, s0, s, i)
    requires Ensured(Goal(cr, i, vv, sv, s), m) && VolumeOrNone(cr, i, vv, s) && ServerOrNone(cr, i, sv, s)
    requires (vv, sv) == (0, 0) || Sole(cr, i, vv, sv, s) || (sv == 0 && VolumeKey(cr, i, vv) in s.objs)
    ensures ResumableUpTo(cr, vs, s0, i + 1)
  {
    hide Begun, Resumable, SameLater, Ensured, VolumeOrNone, ServerOrNone, Sole, VolumeKey;
    VersionsRead(cr, i, vv, sv, vs.vol[i], vs.srv[i], s);
    EnsuredWasResumable(Goal(cr, i, vv, sv, s), m);
    EarlierResumable(cr, s0, s, i, sv);
  }

  lemma EarlierResumable(cr: ServerSet, s0: State, s: State, i: nat, sv: nat)
    requires SameLater(cr, s0, s, i) && Resumable(cr, i, sv, s)
    ensures Resumable(cr, i, sv, s0)
  {
    hide Owner, VersionOf, NicOf, RuleOf, ServerKey, NicKey, RuleKey;
  }

  lemma AllTurnsResumable(cr: ServerSet, vs: ReplicaVersions, st: State)
    requires Fits(cr, vs)
    ensures ResumableUpTo(cr, vs, st, 0) && (ResumableUpTo(cr, vs, st, cr.replicas) ==> AllResumable(cr, vs, st))
  {
    hide Resumable;
  }

  lemma LaterResumable(cr: ServerSet, s0: State, s: State, i: nat, sv: nat)
    requires SameLater(cr, s0, s, i) && Resumable(cr, i, sv, s0)
    ensures Resumable(cr, i, sv, s)
  {
    hide Owner, VersionOf, NicOf, RuleOf, ServerKey, NicKey, RuleKey;
  }

  /** Create. Wherever it stops it keeps what KeepsAll says; when it succeeds on a set whose replicas were
      complete or begun at the versions `vs`, each has exactly its objects, and nothing of them was on its
      way before; when nothing fails outside, that is all it takes to succeed. On a set that it has been over
      it changes nothing. What it makes has the template's parameters, and replicas behind the one at which
      it stopped are as they were. */
  method Create(kube: Kube, cr: ServerSet, ghost vs: ReplicaVersions) returns (ok: bool, ghost stopped: nat)
    requires WellFormed(cr, kube.st) && RulesActive(cr) && forall i: nat :: ZeroWithoutVolume(kube.st, i)
    modifies kube
    ensures KeepsAll(cr, old(kube.st), kube.st)
    ensures old(kube.trace) <= kube.trace && AllKeep(cr, old(kube.st), kube.trace, |old(kube.trace)|)
    ensures NewFit(cr, old(kube.st), kube.st)
    ensures stopped <= cr.replicas && (ok <==> stopped == cr.replicas)
    ensures SameLater(cr, old(kube.st), kube.st, stopped + 1)
    ensures ok && NoStrangers(cr, old(kube.st)) ==> NoStrangers(cr, kube.st)
    ensures ok && AllBegun(cr, vs, old(kube.st), 0) ==> (
      && AllWhole(cr, vs, kube.st, cr.replicas)
      && IdsAsFound(cr, vs, old(kube.st), kube.st, cr.replicas))
    ensures ok && AllWhole(cr, vs, old(kube.st), cr.replicas) ==> kube.st.objs == old(kube.st).objs
    ensures ok && AllBegun(cr, vs, old(kube.st), 0) ==> AllResumable(cr, vs, old(kube.st))
    ensures kube.reliable && AllBegun(cr, vs, old(kube.st), 0) ==> (ok <==> AllResumable(cr, vs, old(kube.st)))
  {
    hide WellFormed, ZeroWithoutVolume, KeepsAll, AllKeep, Stays, AllStay, OnlyReplica, NoStrangers, Ensured;
    hide Joined, RulesActive;
    hide VolumeOrNone, ServerOrNone, Sole, VolumeKey, AllWhole, AllBegun, IdsAsFound, SameLater;
    hide AllResumable, BegunAtSome, ResumableUpTo, Fits, NewFit;
    ghost var s0, n := kube.st, |kube.trace|;
    KeepsStart(cr, s0);
    NewFitStart(cr, s0);
    LoopStart(cr, vs, s0, kube.trace);
    if AllBegun(cr, vs, s0, 0) {
      BegunFits(cr, vs, s0);
      AllTurnsResumable(cr, vs, s0);
    }
    ok, stopped := true, 0;
    for i := 0 to cr.replicas
      invariant ok && KeepsAll(cr, s0, kube.st)
      invariant old(kube.trace) <= kube.trace && AllKeep(cr, s0, kube.trace, n)
      invariant NewFit(cr, s0, kube.st)
      invariant NoStrangers(cr, s0) ==> NoStrangers(cr, kube.st)
      invariant AllWhole(cr, vs, s0, cr.replicas) ==> kube.st.objs == s0.objs
      invariant AllBegun(cr, vs, s0, 0) ==> ResumableUpTo(cr, vs, s0, i)
      invariant AllBegun(cr, vs, s0, 0) ==> (
        && AllWhole(cr, vs, kube.st, i) && AllBegun(cr, vs, kube.st, i)
        && IdsAsFound(cr, vs, s0, kube.st, i))
      invariant SameLater(cr, s0, kube.st, i)
    {
      ghost var s, mid := kube.st, kube.trace;
      stopped := i;
      ZeroEverywhere(cr, s0, s);
      if AllBegun(cr, vs, s0, 0) && AllResumable(cr, vs, s0) { NextBegun(cr, vs, s0, s, i); }
      ghost var vv, sv, m;
      ok, vv, sv, m := CreateReplica(kube, cr, i);
      NewFitTransitive(cr, s0, s, kube.st);
      StaysKeeps(cr, i, s, kube.st);
      StaysOnly(cr, i, s, kube.st);
      LaterSame(cr, s0, s, kube.st, i);
      AllStayKeep(cr, i, s, kube.trace, |mid|);
      KeepsTransitive(cr, s0, s, kube.st);
      KeepJoined(cr, s0, s, mid, kube.trace, n);
      if !ok {
        return;
      }
      if NoStrangers(cr, s) { StrangersKept(cr, s, kube.st, i); }
      if AllBegun(cr, vs, s0, 0) {
        TurnDone(cr, vs, s0, s, m, kube.st, i, vv, sv);
        TurnWasResumable(cr, vs, s0, s, m, i, vv, sv);
      }
      if AllWhole(cr, vs, s0, cr.replicas) { TurnUnchanged(cr, vs, s0, s, m, kube.st, i, vv, sv); }
    }
    stopped := cr.replicas;
    LaterStill(cr, s0, kube.st, cr.replicas);
  }

  lemma LaterStill(cr: ServerSet, s: State, t: State, i: nat)
    requires SameLater(cr, s, t, i)
    ensures SameLater(cr, s, t, i + 1)
  {
    hide Owner;
  }

  lemma BegunFits(cr: ServerSet, vs: ReplicaVersions, st: State)
    requires AllBegun(cr, vs, st, 0)
    ensures Fits(cr, vs)
  {
    hide Begun;
  }

  lemma LoopStart(cr: ServerSet, vs: ReplicaVersions, s0: State, trace: seq<State>)
    ensures AllKeep(cr, s0, trace, |trace|) && SameLater(cr, s0, s0, 0)
    ensures AllBegun(cr, vs, s0, 0) ==> AllWhole(cr, vs, s0, 0) && IdsAsFound(cr, vs, s0, s0, 0)
  {
    hide Begun, VolumeKey, Owner;
  }
}
