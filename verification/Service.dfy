/** What keeps a replica in service while its objects are exchanged. */
module Service {
  import opened Store
  import opened Desired
  import opened Growth
  import opened Controllers
  import NicController

  /** One server and one boot volume carry index `i`; these are their versions. */
  ghost predicate Sole(cr: ServerSet, i: nat, vv: nat, sv: nat, st: State) {
    && ServerKey(cr, i, sv) in st.objs && VolumeKey(cr, i, vv) in st.objs
    && (forall k :: k in st.objs && Owner(k) == i && k.kind.ServerKind? ==> k == ServerKey(cr, i, sv))
    && (forall k :: k in st.objs && Owner(k) == i && k.kind.VolumeKind? ==> k == VolumeKey(cr, i, vv))
  }

  /** A state on the way of an update of replica `i` from `s0`: other replicas are untouched, and a
      replica that was in service still is. */
  ghost predicate Safe(cr: ServerSet, i: nat, vv: nat, sv: nat, s0: State, t: State) {
    && WellFormed(cr, t) && s0.nextId <= t.nextId && OnlyReplica(s0, t, i)
    && (ServedWith(cr, i, vv, sv, s0) ==> InService(cr, i, t))
    && (HasVolume(s0, i) ==> HasVolume(t, i))
  }

  ghost predicate AllSafe(cr: ServerSet, i: nat, vv: nat, sv: nat, s0: State, trace: seq<State>, n: nat) {
    forall e :: n <= e < |trace| ==> Safe(cr, i, vv, sv, s0, trace[e])
  }

  lemma SoleIsFresh(cr: ServerSet, i: nat, vv: nat, sv: nat, st: State)
    requires Sole(cr, i, vv, sv, st)
    ensures VolumeKey(cr, i, vv + 1) !in st.objs && ServerKey(cr, i, sv + 1) !in st.objs
  {
    hide ServerKey, VolumeKey, Owner, VersionOf;
    assert VersionOf(VolumeKey(cr, i, vv + 1)) != VersionOf(VolumeKey(cr, i, vv));
    assert VersionOf(ServerKey(cr, i, sv + 1)) != VersionOf(ServerKey(cr, i, sv));
  }

  lemma CompleteIsSole(cr: ServerSet, i: nat, vv: nat, sv: nat, st: State)
    requires Complete(cr, i, vv, sv, st)
    ensures Sole(cr, i, vv, sv, st)
  {
    hide ServerKey, VolumeKey, NicKey, RuleKey, Owner, VersionOf, NicOf, RuleOf, Wired;
    assert InDesired(cr, i, vv, sv, ServerKey(cr, i, sv)) && InDesired(cr, i, vv, sv, VolumeKey(cr, i, vv));
  }

  lemma StartGrown(g: Goal)
    requires WellFormed(g.cr, g.s0)
    ensures Grown(g, g.s0)
  {
  }

  lemma SafeStart(cr: ServerSet, i: nat, vv: nat, sv: nat, s0: State)
    requires WellFormed(cr, s0)
    ensures Safe(cr, i, vv, sv, s0, s0)
  {
    hide WellFormed, ServedWith;
  }

  /** Adding wanted objects leaves other replicas alone and takes nothing out of service. */
  lemma GrownSafe(g: Goal, vv: nat, sv: nat, t: State)
    requires Grown(g, t)
    ensures Safe(g.cr, g.i, vv, sv, g.s0, t)
  {
    hide WellFormed, Wired, InDesired, ServerKey, VolumeKey;
    forall k | Owner(k) != g.i
      ensures (k in g.s0.objs <==> k in t.objs) && (k in g.s0.objs ==> g.s0.objs[k] == t.objs[k])
    {
      if k in t.objs && k !in g.s0.objs { DesiredOwner(g.cr, g.i, g.vv, g.sv, k); }
    }
    if ServedWith(g.cr, g.i, vv, sv, g.s0) {
      assert ServedWith(g.cr, g.i, vv, sv, t);
    }
  }

  lemma AllGrownSafe(g: Goal, vv: nat, sv: nat, trace: seq<State>, n: nat)
    requires AllGrown(g, trace, n)
    ensures AllSafe(g.cr, g.i, vv, sv, g.s0, trace, n)
  {
    hide Grown, Safe;
    forall e | n <= e < |trace| ensures Safe(g.cr, g.i, vv, sv, g.s0, trace[e]) {
      GrownSafe(g, vv, sv, trace[e]);
    }
  }

  lemma SafeJoined(cr: ServerSet, i: nat, vv: nat, sv: nat, s0: State, mid: seq<State>, trace: seq<State>, n: nat)
    requires mid <= trace && AllSafe(cr, i, vv, sv, s0, mid, n) && AllSafe(cr, i, vv, sv, s0, trace, |mid|)
    ensures AllSafe(cr, i, vv, sv, s0, trace, n)
  {
    hide Safe;
    forall e | n <= e < |trace| ensures Safe(cr, i, vv, sv, s0, trace[e]) {
      if e < |mid| { assert trace[e] == mid[e]; }
    }
  }

  /** Attaching the new volume to the new server stays within what was added. */
  lemma AttachNewGrown(g: Goal, t: State, u: State, volumeId: nat)
    requires Grown(g, t) && ServerKey(g.cr, g.i, g.sv) in t.objs && ServerKey(g.cr, g.i, g.sv) !in g.s0.objs
    requires t.objs[ServerKey(g.cr, g.i, g.sv)].spec.ServerSpec?
    requires var k := ServerKey(g.cr, g.i, g.sv); u == t.(objs := t.objs[k := WithVolume(t.objs[k], volumeId)])
    ensures Grown(g, u)
  {
    hide Made, Wired, ServerKey, InDesired, WellFormed;
    var k := ServerKey(g.cr, g.i, g.sv);
    WithVolumeMade(g.cr, t, k, volumeId);
    TouchWellFormed(g.cr, t, u, k);
    if Wired(g.cr, g.i, g.sv, t) { WithVolumeWired(g.cr, g.i, g.sv, t, u, k, volumeId); }
  }

  function WithVolume(o: Obj, volumeId: nat): Obj
    requires o.spec.ServerSpec?
  {
    o.(spec := o.spec.(volumeId := volumeId))
  }

  lemma WithVolumeMade(cr: ServerSet, t: State, k: Key, volumeId: nat)
    requires WellFormed(cr, t) && k in t.objs && t.objs[k].spec.ServerSpec?
    ensures Made(cr, k, WithVolume(t.objs[k], volumeId))
  {
    hide InDesired, Owner, VersionOf;
    assert Made(cr, k, t.objs[k]);
  }

  lemma WithVolumeWired(cr: ServerSet, i: nat, sv: nat, t: State, u: State, k: Key, volumeId: nat)
    requires Wired(cr, i, sv, t) && k in t.objs && t.objs[k].spec.ServerSpec?
    requires u == t.(objs := t.objs[k := WithVolume(t.objs[k], volumeId)])
    ensures Wired(cr, i, sv, u)
  {
    hide Owner, VersionOf, NicOf, ServerKey, NicKey;
    forall j | j in u.objs && Owner(j) == i && VersionOf(j) == sv
      ensures SpecWired(cr, i, sv, u, j, u.objs[j].spec)
    {
      assert SpecWired(cr, i, sv, t, j, t.objs[j].spec);
    }
  }

  /** With NICs and rules ready and the volume attached, everything wanted is there. */
  lemma ReadyIsServed(cr: ServerSet, i: nat, vv: nat, sv: nat, st: State)
    requires RulesActive(cr) && Attached(cr, i, vv, sv, st)
    requires NicsReady(cr, i, sv, st) && RulesReady(cr, i, sv, st, |cr.nics|, 0)
    ensures ServedWith(cr, i, vv, sv, st)
  {
    hide ServerKey, VolumeKey, NicKey, RuleKey, Owner, VersionOf, NicOf, RuleOf;
    forall k | InDesired(cr, i, vv, sv, k) ensures k in st.objs {
      match k.kind
      case NicKind => assert Ready(st, NicKey(cr, i, NicOf(k), sv));
      case RuleKind => assert Ready(st, RuleKey(cr, i, NicOf(k), RuleOf(k), sv));
      case _ =>
    }
  }

  // ---------- taking away what is replaced ----------

  /** From `m`, only objects wanted at the old versions were removed. */
  ghost predicate Shrunk(cr: ServerSet, i: nat, vv: nat, sv: nat, m: State, u: State) {
    && u.nextId == m.nextId
    && (forall k :: k in u.objs ==> k in m.objs && u.objs[k] == m.objs[k])
    && (forall k :: k in m.objs ==> k in u.objs || InDesired(cr, i, vv, sv, k))
  }

  ghost predicate AllShrunk(cr: ServerSet, i: nat, vv: nat, sv: nat, m: State, trace: seq<State>, n: nat) {
    forall e :: n <= e < |trace| ==> Shrunk(cr, i, vv, sv, m, trace[e])
  }

  lemma ShrunkStart(cr: ServerSet, i: nat, vv: nat, sv: nat, m: State)
    ensures Shrunk(cr, i, vv, sv, m, m)
  {
  }

  lemma RemoveShrinks(cr: ServerSet, i: nat, vv: nat, sv: nat, m: State, u: State, k: Key)
    requires Shrunk(cr, i, vv, sv, m, u) && InDesired(cr, i, vv, sv, k)
    ensures Shrunk(cr, i, vv, sv, m, u.(objs := u.objs - {k}))
  {
    hide InDesired;
  }

  lemma GrownFits(g: Goal, t: State)
    requires Grown(g, t)
    ensures NewFit(g.cr, g.s0, t)
  {
    hide WellFormed, Wired, InDesired, NewFit;
  }

  lemma ShrunkFits(cr: ServerSet, i: nat, vv: nat, sv: nat, s0: State, m: State, u: State)
    requires NewFit(cr, s0, m) && Shrunk(cr, i, vv, sv, m, u)
    ensures NewFit(cr, s0, u)
  {
    hide NewFit, InDesired;
    NewFitRemoved(cr, s0, m, u);
  }

  lemma ShrunkWellFormed(cr: ServerSet, i: nat, vv: nat, sv: nat, m: State, u: State)
    requires WellFormed(cr, m) && Shrunk(cr, i, vv, sv, m, u)
    ensures WellFormed(cr, u)
  {
    hide Made, InDesired;
  }

  lemma VersionsApart(cr: ServerSet, i: nat, vv: nat, sv: nat, vv': nat, sv': nat, k: Key)
    requires InDesired(cr, i, vv, sv, k) && InDesired(cr, i, vv', sv', k)
    ensures if k.kind.VolumeKind? then vv == vv' else sv == sv'
  {
    hide InDesired, VersionOf, Owner;
    DesiredOwner(cr, i, vv, sv, k);
    DesiredOwner(cr, i, vv', sv', k);
  }

  /** Removing the old versions keeps the new ones in service. */
  lemma ShrunkServed(cr: ServerSet, i: nat, vv: nat, sv: nat, vv': nat, sv': nat, m: State, u: State)
    requires Shrunk(cr, i, vv, sv, m, u) && ServedWith(cr, i, vv', sv', m) && vv != vv' && sv != sv'
    ensures ServedWith(cr, i, vv', sv', u)
  {
    hide InDesired, ServerKey, VolumeKey;
    forall k | InDesired(cr, i, vv', sv', k) ensures k in u.objs {
      if InDesired(cr, i, vv, sv, k) { VersionsApart(cr, i, vv, sv, vv', sv', k); }
    }
    ServerVolumeWanted(cr, i, vv', sv');
  }

  lemma ServerVolumeWanted(cr: ServerSet, i: nat, vv: nat, sv: nat)
    ensures InDesired(cr, i, vv, sv, ServerKey(cr, i, sv)) && InDesired(cr, i, vv, sv, VolumeKey(cr, i, vv))
  {
    hide ServerKey, VolumeKey;
  }

  lemma ServedHasVolume(cr: ServerSet, i: nat, vv: nat, sv: nat, st: State)
    requires ServedWith(cr, i, vv, sv, st)
    ensures HasVolume(st, i)
  {
    hide ServerKey, VolumeKey, Owner;
    ServerVolumeWanted(cr, i, vv, sv);
    assert VolumeKey(cr, i, vv) in st.objs;
  }

  lemma ShrunkSafe(g: Goal, vv: nat, sv: nat, m: State, u: State)
    requires Grown(g, m) && ServedWith(g.cr, g.i, g.vv, g.sv, m) && g.vv != vv && g.sv != sv
    requires Shrunk(g.cr, g.i, vv, sv, m, u)
    ensures Safe(g.cr, g.i, vv, sv, g.s0, u)
  {
    hide WellFormed, InDesired, ServedWith, Wired;
    GrownSafe(g, vv, sv, m);
    ShrunkWellFormed(g.cr, g.i, vv, sv, m, u);
    ShrunkServed(g.cr, g.i, vv, sv, g.vv, g.sv, m, u);
    assert InService(g.cr, g.i, u);
    ServedHasVolume(g.cr, g.i, g.vv, g.sv, u);
    forall k | Owner(k) != g.i
      ensures (k in g.s0.objs <==> k in u.objs) && (k in g.s0.objs ==> g.s0.objs[k] == u.objs[k])
    {
      if InDesired(g.cr, g.i, vv, sv, k) { DesiredOwner(g.cr, g.i, vv, sv, k); }
    }
  }

  lemma AllShrunkSafe(g: Goal, vv: nat, sv: nat, m: State, trace: seq<State>, n: nat)
    requires Grown(g, m) && ServedWith(g.cr, g.i, g.vv, g.sv, m) && g.vv != vv && g.sv != sv
    requires AllShrunk(g.cr, g.i, vv, sv, m, trace, n)
    ensures AllSafe(g.cr, g.i, vv, sv, g.s0, trace, n)
  {
    hide Grown, ServedWith, Shrunk, Safe;
    forall e | n <= e < |trace| ensures Safe(g.cr, g.i, vv, sv, g.s0, trace[e]) {
      ShrunkSafe(g, vv, sv, m, trace[e]);
    }
  }

  // ---------- what a creation without failures needs ----------

  /** NICs and rules are as before. */
  ghost predicate NicsAndRulesKept(s: State, t: State) {
    forall k: Key :: k.kind.NicKind? || k.kind.RuleKind? ==>
      (k in s.objs <==> k in t.objs) && (k in s.objs ==> s.objs[k] == t.objs[k])
  }

  /** No NIC or rule of the replica that is there is still on its way. */
  ghost predicate NicsAndRulesUp(cr: ServerSet, i: nat, v: nat, st: State) {
    NicController.PresentAvailable(cr, i, v, st) && RulesUp(cr, i, v, st)
  }

  lemma KeptUp(cr: ServerSet, i: nat, v: nat, s: State, t: State)
    requires NicsAndRulesKept(s, t) && NicsAndRulesUp(cr, i, v, s)
    ensures NicsAndRulesUp(cr, i, v, t)
  {
    hide NicKey, RuleKey;
  }

  lemma RulesKeptUp(cr: ServerSet, i: nat, v: nat, s: State, t: State)
    requires forall k: Key :: !k.kind.NicKind? ==>
               (k in s.objs <==> k in t.objs) && (k in t.objs ==> s.objs[k] == t.objs[k])
    requires RulesUp(cr, i, v, s)
    ensures RulesUp(cr, i, v, t)
  {
    hide RuleKey;
  }

  lemma OtherKindKept(s: State, t: State, u: State, k: Key)
    requires NicsAndRulesKept(s, t) && OthersKept(t, u, k) && (k.kind.ServerKind? || k.kind.VolumeKind?)
    ensures NicsAndRulesKept(s, u)
  {
  }

  lemma NoneTouched(s: State)
    ensures NicsAndRulesKept(s, s)
  {
  }

  lemma BothUp(cr: ServerSet, i: nat, v: nat, st: State)
    requires NicsAndRulesUp(cr, i, v, st)
    ensures NicController.PresentAvailable(cr, i, v, st) && RulesUp(cr, i, v, st)
  {
    hide NicController.PresentAvailable, RulesUp;
  }
}
