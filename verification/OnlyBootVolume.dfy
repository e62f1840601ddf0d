/** The default strategy: a new boot volume is swapped in under the running server. */
module OnlyBootVolume {
  import opened Store
  import opened Desired
  import opened Growth
  import opened Controllers
  import opened Service

  /** An immutable field of the boot volume differs from the template. */
  predicate Differs(cr: ServerSet, spec: Spec) {
    spec.VolumeSpec? &&
    !(spec.typ == cr.typ && spec.image == cr.image && spec.setHotPlugsFromImage == cr.setHotPlugsFromImage)
  }

  /** From `t` on, the server boots from the volume of version `vv`. */
  ghost predicate Swapped(cr: ServerSet, i: nat, vv: nat, sv: nat, t: State, u: State) {
    && ServerKey(cr, i, sv) in t.objs && t.objs[ServerKey(cr, i, sv)].spec.ServerSpec?
    && Ready(t, VolumeKey(cr, i, vv))
    && u == t.(objs := t.objs[ServerKey(cr, i, sv) :=
               WithVolume(t.objs[ServerKey(cr, i, sv)], IdAt(t, VolumeKey(cr, i, vv)))])
  }

  lemma SwappedWellFormed(cr: ServerSet, i: nat, vv: nat, sv: nat, t: State, u: State)
    requires WellFormed(cr, t) && Swapped(cr, i, vv, sv, t, u)
    ensures WellFormed(cr, u)
  {
    hide Made, ServerKey, VolumeKey, WellFormed;
    WithVolumeMade(cr, t, ServerKey(cr, i, sv), IdAt(t, VolumeKey(cr, i, vv)));
    TouchWellFormed(cr, t, u, ServerKey(cr, i, sv));
  }

  lemma SwappedServed(cr: ServerSet, i: nat, vv: nat, sv: nat, t: State, u: State)
    requires Swapped(cr, i, vv + 1, sv, t, u)
    requires forall k :: InDesired(cr, i, vv, sv, k) ==> k in t.objs
    requires IdAt(t, ServerKey(cr, i, sv)) != 0
    ensures ServedWith(cr, i, vv + 1, sv, u)
  {
    hide ServerKey, VolumeKey, InDesired;
    forall k | InDesired(cr, i, vv + 1, sv, k) ensures k in u.objs {
      OnlyVolumeDiffers(cr, i, vv, sv, k);
    }
  }

  lemma OnlyVolumeDiffers(cr: ServerSet, i: nat, vv: nat, sv: nat, k: Key)
    requires InDesired(cr, i, vv + 1, sv, k)
    ensures k == VolumeKey(cr, i, vv + 1) || (!k.kind.VolumeKind? && InDesired(cr, i, vv, sv, k))
  {
    hide ServerKey, VolumeKey, NicKey, RuleKey, NicOf, RuleOf;
  }

  lemma SwappedSafe(g: Goal, vv: nat, t: State, u: State)
    requires Grown(g, t) && g.vv == vv + 1 && Swapped(g.cr, g.i, g.vv, g.sv, t, u)
    ensures Safe(g.cr, g.i, vv, g.sv, g.s0, u)
  {
    hide WellFormed, Wired, ServerKey, VolumeKey, InDesired, Attached, Owner;
    GrownSafe(g, vv, g.sv, t);
    SwappedWellFormed(g.cr, g.i, g.vv, g.sv, t, u);
    if ServedWith(g.cr, g.i, vv, g.sv, g.s0) {
      GrownServed(g, vv, t);
      SwappedServed(g.cr, g.i, vv, g.sv, t, u);
    }
    assert VolumeKey(g.cr, g.i, g.vv) in u.objs;
  }

  /** The volume that is no longer attached is removed. */
  lemma DroppedSafe(g: Goal, vv: nat, t: State, u: State, w: State)
    requires Grown(g, t) && g.vv == vv + 1 && Swapped(g.cr, g.i, g.vv, g.sv, t, u)
    requires w == u.(objs := u.objs - {VolumeKey(g.cr, g.i, vv)})
    ensures Safe(g.cr, g.i, vv, g.sv, g.s0, w)
  {
    hide WellFormed, Wired, ServerKey, VolumeKey, InDesired, Attached, Owner, Swapped, Grown;
    SwappedSafe(g, vv, t, u);
    RemovedWellFormed(g.cr, u, VolumeKey(g.cr, g.i, vv));
    if ServedWith(g.cr, g.i, vv, g.sv, g.s0) {
      GrownServed(g, vv, t);
      SwappedServed(g.cr, g.i, vv, g.sv, t, u);
      DroppedServed(g.cr, g.i, vv, g.sv, u, w);
    }
    NewVolumeThere(g, vv, t, u, w);
  }

  lemma NewVolumeThere(g: Goal, vv: nat, t: State, u: State, w: State)
    requires g.vv == vv + 1 && Swapped(g.cr, g.i, g.vv, g.sv, t, u)
    requires w == u.(objs := u.objs - {VolumeKey(g.cr, g.i, vv)})
    ensures HasVolume(w, g.i)
  {
    hide ServerKey, VolumeKey, Owner, VersionOf;
    assert VersionOf(VolumeKey(g.cr, g.i, g.vv)) != VersionOf(VolumeKey(g.cr, g.i, vv));
    assert VolumeKey(g.cr, g.i, g.vv) in w.objs;
  }

  lemma GrownServed(g: Goal, vv: nat, t: State)
    requires Grown(g, t) && ServedWith(g.cr, g.i, vv, g.sv, g.s0)
    ensures forall k :: InDesired(g.cr, g.i, vv, g.sv, k) ==> k in t.objs
    ensures IdAt(t, ServerKey(g.cr, g.i, g.sv)) != 0
  {
    hide WellFormed, Wired, InDesired, ServerKey, VolumeKey;
  }

  lemma RemovedWellFormed(cr: ServerSet, u: State, k: Key)
    requires WellFormed(cr, u)
    ensures WellFormed(cr, u.(objs := u.objs - {k}))
  {
    hide Made;
  }

  lemma DroppedServed(cr: ServerSet, i: nat, vv: nat, sv: nat, u: State, w: State)
    requires ServedWith(cr, i, vv + 1, sv, u) && w == u.(objs := u.objs - {VolumeKey(cr, i, vv)})
    ensures ServedWith(cr, i, vv + 1, sv, w)
  {
    hide ServerKey, VolumeKey, InDesired;
    forall k | InDesired(cr, i, vv + 1, sv, k) ensures k in w.objs {
      DesiredOwner(cr, i, vv + 1, sv, k);
    }
  }

  /** The server is there as before, in the same state. */
  ghost predicate SameServer(cr: ServerSet, i: nat, sv: nat, s: State, t: State) {
    var k := ServerKey(cr, i, sv);
    && k in s.objs && k in t.objs
    && t.objs[k].state == s.objs[k].state && t.objs[k].reconcileError == s.objs[k].reconcileError
  }

  lemma DroppedSole(g: Goal, vv: nat, t: State, u: State, w: State)
    requires Grown(g, t) && g.vv == vv + 1 && Swapped(g.cr, g.i, g.vv, g.sv, t, u)
    requires Sole(g.cr, g.i, vv, g.sv, g.s0)
    requires w == u.(objs := u.objs - {VolumeKey(g.cr, g.i, vv)})
    ensures Sole(g.cr, g.i, g.vv, g.sv, w)
    ensures w.objs[VolumeKey(g.cr, g.i, g.vv)] == t.objs[VolumeKey(g.cr, g.i, g.vv)]
    ensures SameServer(g.cr, g.i, g.sv, g.s0, w)
  {
    hide WellFormed, Wired, ServerKey, VolumeKey, NicKey, RuleKey, Owner, VersionOf, NicOf, RuleOf;
    assert VersionOf(VolumeKey(g.cr, g.i, g.vv)) != VersionOf(VolumeKey(g.cr, g.i, vv));
  }

  lemma DroppedComplete(g: Goal, vv: nat, t: State, u: State, w: State)
    requires Grown(g, t) && g.vv == vv + 1 && Swapped(g.cr, g.i, g.vv, g.sv, t, u)
    requires Complete(g.cr, g.i, vv, g.sv, g.s0)
    requires w == u.(objs := u.objs - {VolumeKey(g.cr, g.i, vv)})
    ensures Complete(g.cr, g.i, g.vv, g.sv, w)
  {
    hide WellFormed, ServerKey, VolumeKey, InDesired, ServedWith, Wired, Owner;
    GrownServed(g, vv, t);
    SwappedServed(g.cr, g.i, vv, g.sv, t, u);
    DroppedServed(g.cr, g.i, vv, g.sv, u, w);
    DroppedWired(g.cr, g.i, vv, g.sv, t, u, w);
    forall k | k in w.objs && Owner(k) == g.i ensures InDesired(g.cr, g.i, g.vv, g.sv, k) {
      if k in g.s0.objs { OldIsStillWanted(g.cr, g.i, vv, g.sv, k); }
    }
  }

  lemma OldIsStillWanted(cr: ServerSet, i: nat, vv: nat, sv: nat, k: Key)
    requires InDesired(cr, i, vv, sv, k) && k != VolumeKey(cr, i, vv)
    ensures InDesired(cr, i, vv + 1, sv, k)
  {
    hide ServerKey, VolumeKey, NicKey, RuleKey, NicOf, RuleOf;
  }

  lemma DroppedWired(cr: ServerSet, i: nat, vv: nat, sv: nat, t: State, u: State, w: State)
    requires Wired(cr, i, sv, t) && Swapped(cr, i, vv + 1, sv, t, u)
    requires w == u.(objs := u.objs - {VolumeKey(cr, i, vv)})
    ensures Wired(cr, i, sv, w)
  {
    hide Owner, VersionOf, NicOf, ServerKey, NicKey, VolumeKey;
    WithVolumeWired(cr, i, sv, t, u, ServerKey(cr, i, sv), IdAt(t, VolumeKey(cr, i, vv + 1)));
    forall j | j in w.objs && Owner(j) == i && VersionOf(j) == sv
      ensures SpecWired(cr, i, sv, w, j, w.objs[j].spec)
    {
      assert SpecWired(cr, i, sv, u, j, u.objs[j].spec);
    }
  }

  /** Attaches the new volume, then removes the old one. */
  method SwapVolume(kube: Kube, cr: ServerSet, i: nat, vv: nat, sv: nat, ghost g: Goal) returns (ok: bool)
    requires g.cr == cr && g.i == i && g.vv == vv + 1 && g.sv == sv && Grown(g, kube.st)
    requires Sole(cr, i, vv, sv, g.s0) && Ready(kube.st, VolumeKey(cr, i, vv + 1))
    requires kube.st.objs[VolumeKey(cr, i, vv + 1)].spec == NewVolume(cr, i, vv + 1).spec
    modifies kube
    ensures Safe(cr, i, vv, sv, g.s0, kube.st)
    ensures old(kube.trace) <= kube.trace && AllSafe(cr, i, vv, sv, g.s0, kube.trace, |old(kube.trace)|)
    ensures NewFit(cr, g.s0, kube.st)
    ensures ok ==> Sole(cr, i, vv + 1, sv, kube.st)
    ensures ok ==> kube.st.objs[VolumeKey(cr, i, vv + 1)].spec == NewVolume(cr, i, vv + 1).spec
    ensures ok ==> SameServer(cr, i, sv, g.s0, kube.st)
    ensures ok && Complete(cr, i, vv, sv, g.s0) ==> Complete(cr, i, vv + 1, sv, kube.st)
    ensures kube.reliable ==> ok
  {
    hide WellFormed, Grown, Sole, Safe, Complete, ServerKey, VolumeKey, NewVolume, SameServer, NewFit;
    var t := kube.st;
    GrownFits(g, t);
    GrownSafe(g, vv, sv, t);
    ServerIsServer(g, t, vv);
    OldVolumeThere(g, t, vv);
    var server := kube.Get(ServerKey(cr, i, sv));
    if !server.Found? {
      return false;
    }
    var createdVolume := kube.Get(VolumeKey(cr, i, vv + 1));
    if !createdVolume.Found? {
      return false;
    }
    var o := WithVolume(server.obj, createdVolume.obj.id);
    ghost var u := t.(objs := t.objs[ServerKey(cr, i, sv) := o]);
    ghost var w := u.(objs := u.objs - {VolumeKey(cr, i, vv)});
    NewFitAttached(cr, g.s0, t, ServerKey(cr, i, sv), createdVolume.obj.id);
    NewFitRemoved(cr, g.s0, u, w);
    SwappedSafe(g, vv, t, u);
    DroppedSafe(g, vv, t, u, w);
    ok := kube.Update(ServerKey(cr, i, sv), o);
    if !ok {
      return;
    }
    ok := kube.Delete(VolumeKey(cr, i, vv));
    if ok {
      DroppedSole(g, vv, t, u, w);
      if Complete(cr, i, vv, sv, g.s0) { DroppedComplete(g, vv, t, u, w); }
    }
  }

  lemma OldVolumeThere(g: Goal, t: State, vv: nat)
    requires Grown(g, t) && Sole(g.cr, g.i, vv, g.sv, g.s0)
    ensures VolumeKey(g.cr, g.i, vv) in t.objs
  {
    hide Owner, ServerKey, VolumeKey, InDesired, Wired, WellFormed;
  }

  lemma ServerIsServer(g: Goal, t: State, vv: nat)
    requires Grown(g, t) && Sole(g.cr, g.i, vv, g.sv, g.s0)
    ensures ServerKey(g.cr, g.i, g.sv) in t.objs && t.objs[ServerKey(g.cr, g.i, g.sv)].spec.ServerSpec?
  {
    hide Owner, VersionOf, ServerKey, VolumeKey, InDesired;
  }

  lemma VolumeIsVolume(cr: ServerSet, st: State, k: Key)
    requires WellFormed(cr, st) && k in st.objs && k.kind.VolumeKind?
    ensures st.objs[k].spec.VolumeSpec?
  {
    hide InDesired;
    assert Made(cr, k, st.objs[k]);
  }

  /** Swaps the boot volume for one of the next version, unless it already fits the template. Stopped
      anywhere, it leaves other replicas untouched and a replica in service stays in service. */
  method Update(kube: Kube, cr: ServerSet, i: nat, vv: nat, sv: nat) returns (ok: bool)
    requires WellFormed(cr, kube.st) && Sole(cr, i, vv, sv, kube.st)
    modifies kube
    ensures Safe(cr, i, vv, sv, old(kube.st), kube.st)
    ensures old(kube.trace) <= kube.trace && AllSafe(cr, i, vv, sv, old(kube.st), kube.trace, |old(kube.trace)|)
    ensures NewFit(cr, old(kube.st), kube.st)
    ensures !Differs(cr, old(kube.st).objs[VolumeKey(cr, i, vv)].spec) ==> kube.st == old(kube.st)
    ensures ok && Differs(cr, old(kube.st).objs[VolumeKey(cr, i, vv)].spec) ==> (
      && Sole(cr, i, vv + 1, sv, kube.st) && SameServer(cr, i, sv, old(kube.st), kube.st)
      && kube.st.objs[VolumeKey(cr, i, vv + 1)].spec == NewVolume(cr, i, vv + 1).spec
      && (Complete(cr, i, vv, sv, old(kube.st)) ==> Complete(cr, i, vv + 1, sv, kube.st)))
    ensures kube.reliable ==> ok
  {
    hide WellFormed, Grown, Sole, Safe, Complete, ServerKey, VolumeKey, NewVolume, SameServer, NewFit;
    ghost var s0, n := kube.st, |kube.trace|;
    ghost var g := Goal(cr, i, vv + 1, sv, s0);
    SafeStart(cr, i, vv, sv, s0);
    NewFitStart(cr, s0);
    SoleHas(cr, i, vv, sv, s0);
    VolumeIsVolume(cr, s0, VolumeKey(cr, i, vv));
    var existing := kube.Get(VolumeKey(cr, i, vv));
    if !existing.Found? {
      return false;
    }
    if existing.obj.spec.typ == cr.typ && existing.obj.spec.image == cr.image
       && existing.obj.spec.setHotPlugsFromImage == cr.setHotPlugsFromImage {
      return true;
    }
    SoleIsFresh(cr, i, vv, sv, s0);
    StartGrown(g);
    ok := EnsureVolume(kube, cr, i, vv + 1, g);
    GrownSafe(g, vv, sv, kube.st);
    GrownFits(g, kube.st);
    AllGrownSafe(g, vv, sv, kube.trace, n);
    if !ok {
      return;
    }
    ghost var mid := kube.trace;
    ok := SwapVolume(kube, cr, i, vv, sv, g);
    SafeJoined(cr, i, vv, sv, s0, mid, kube.trace, n);
  }

  lemma SoleHas(cr: ServerSet, i: nat, vv: nat, sv: nat, st: State)
    requires Sole(cr, i, vv, sv, st)
    ensures ServerKey(cr, i, sv) in st.objs && VolumeKey(cr, i, vv) in st.objs
  {
  }
}
