/** The strategy that creates server, volume, NICs and rules anew before it deletes the old ones. */
module CreateBeforeDestroy {
  import opened Store
  import opened Desired
  import opened Growth
  import opened Controllers
  import opened Service
  import NicController

  // ---------- createResources ----------

  /** The new server boots from the new volume, both as the template says. */
  ghost predicate Paired(cr: ServerSet, i: nat, vv: nat, sv: nat, st: State) {
    && Attached(cr, i, vv, sv, st)
    && VolumeKey(cr, i, vv) in st.objs && st.objs[VolumeKey(cr, i, vv)].spec == NewVolume(cr, i, vv).spec
    && st.objs[ServerKey(cr, i, sv)].spec == WithVolume(NewServer(cr, i, sv), IdAt(st, VolumeKey(cr, i, vv))).spec
    && st.objs[ServerKey(cr, i, sv)].state.Available? && !st.objs[ServerKey(cr, i, sv)].reconcileError
  }

  ghost predicate Unpaired(cr: ServerSet, i: nat, vv: nat, sv: nat, st: State) {
    && Ready(st, ServerKey(cr, i, sv)) && st.objs[ServerKey(cr, i, sv)].spec == NewServer(cr, i, sv).spec
    && !st.objs[ServerKey(cr, i, sv)].reconcileError
    && Ready(st, VolumeKey(cr, i, vv)) && st.objs[VolumeKey(cr, i, vv)].spec == NewVolume(cr, i, vv).spec
  }

  lemma AttachPairs(cr: ServerSet, i: nat, vv: nat, sv: nat, t: State, u: State)
    requires Unpaired(cr, i, vv, sv, t)
    requires u == t.(objs := t.objs[ServerKey(cr, i, sv) :=
                 WithVolume(t.objs[ServerKey(cr, i, sv)], IdAt(t, VolumeKey(cr, i, vv)))])
    ensures Paired(cr, i, vv, sv, u)
  {
    hide ServerKey, VolumeKey;
  }

  lemma PairedKept(cr: ServerSet, i: nat, vv: nat, sv: nat, t: State, u: State)
    requires Paired(cr, i, vv, sv, t)
    requires forall k: Key :: k.kind.ServerKind? || k.kind.VolumeKind? ==>
               (k in t.objs ==> k in u.objs && t.objs[k] == u.objs[k])
    ensures Paired(cr, i, vv, sv, u)
  {
    hide ServerKey, VolumeKey;
  }

  lemma BothReady(cr: ServerSet, i: nat, vv: nat, sv: nat, s: State, t: State)
    requires Ready(s, ServerKey(cr, i, sv)) && s.objs[ServerKey(cr, i, sv)].spec == NewServer(cr, i, sv).spec
    requires !s.objs[ServerKey(cr, i, sv)].reconcileError
    requires OthersKept(s, t, VolumeKey(cr, i, vv))
    requires Ready(t, VolumeKey(cr, i, vv)) && t.objs[VolumeKey(cr, i, vv)].spec == NewVolume(cr, i, vv).spec
    ensures Unpaired(cr, i, vv, sv, t)
  {
    hide ServerKey, VolumeKey;
  }

  lemma StaysAbsent(cr: ServerSet, i: nat, vv: nat, sv: nat, s: State, t: State)
    requires OthersKept(s, t, ServerKey(cr, i, sv)) && VolumeKey(cr, i, vv) !in s.objs
    ensures VolumeKey(cr, i, vv) !in t.objs
  {
    hide ServerKey, VolumeKey;
  }

  /** Reads both objects and boots the server from the volume; `serverId` is the server's id as read. */
  method AttachNew(kube: Kube, cr: ServerSet, i: nat, vv: nat, sv: nat, ghost g: Goal)
      returns (ok: bool, serverId: nat)
    requires g.cr == cr && g.i == i && g.vv == vv && g.sv == sv
    requires Grown(g, kube.st) && ServerKey(cr, i, sv) !in g.s0.objs && Unpaired(cr, i, vv, sv, kube.st)
    modifies kube
    ensures Grown(g, kube.st) && old(kube.trace) <= kube.trace && AllGrown(g, kube.trace, |old(kube.trace)|)
    ensures ok ==> Paired(cr, i, vv, sv, kube.st) && serverId == IdAt(kube.st, ServerKey(cr, i, sv)) != 0
    ensures NicsAndRulesKept(old(kube.st), kube.st)
    ensures kube.reliable ==> ok
  {
    hide Grown, ServerKey, VolumeKey, Paired;
    serverId := 0;
    var bootVolume := kube.Get(VolumeKey(cr, i, vv));
    if !bootVolume.Found? {
      return false, 0;
    }
    var server := kube.Get(ServerKey(cr, i, sv));
    if !server.Found? {
      return false, 0;
    }
    ghost var t := kube.st;
    var o := WithVolume(server.obj, bootVolume.obj.id);
    AttachNewGrown(g, t, t.(objs := t.objs[ServerKey(cr, i, sv) := o]), bootVolume.obj.id);
    AttachPairs(cr, i, vv, sv, t, t.(objs := t.objs[ServerKey(cr, i, sv) := o]));
    ok := kube.Update(ServerKey(cr, i, sv), o);
    serverId := server.obj.id;
  }

  method CreateServerAndVolume(kube: Kube, cr: ServerSet, i: nat, vv: nat, sv: nat, ghost g: Goal)
      returns (ok: bool)
    requires g.cr == cr && g.i == i && g.vv == vv && g.sv == sv && Grown(g, kube.st)
    requires ServerKey(cr, i, sv) !in kube.st.objs && VolumeKey(cr, i, vv) !in kube.st.objs
    modifies kube
    ensures Grown(g, kube.st) && old(kube.trace) <= kube.trace && AllGrown(g, kube.trace, |old(kube.trace)|)
    ensures ok ==> Unpaired(cr, i, vv, sv, kube.st)
    ensures NicsAndRulesKept(old(kube.st), kube.st)
    ensures kube.reliable ==> ok
  {
    hide Grown, ServerKey, VolumeKey, OthersKept, Unpaired, NewServer, NewVolume, NicsAndRulesKept;
    ghost var s := kube.st;
    NoneTouched(s);
    ok := EnsureServer(kube, cr, i, sv, g);
    OtherKindKept(s, s, kube.st, ServerKey(cr, i, sv));
    if !ok {
      return;
    }
    StaysAbsent(cr, i, vv, sv, s, kube.st);
    ghost var t := kube.st;
    ok := EnsureVolume(kube, cr, i, vv, g);
    OtherKindKept(s, t, kube.st, VolumeKey(cr, i, vv));
    if ok {
      BothReady(cr, i, vv, sv, t, kube.st);
    }
  }

  method CreateResources(kube: Kube, cr: ServerSet, i: nat, vv: nat, sv: nat, ghost g: Goal) returns (ok: bool)
    requires g.cr == cr && g.i == i && g.vv == vv && g.sv == sv && Grown(g, kube.st) && g.s0 == kube.st
    requires ServerKey(cr, i, sv) !in kube.st.objs && VolumeKey(cr, i, vv) !in kube.st.objs
    requires RulesActive(cr)
    modifies kube
    ensures Grown(g, kube.st) && old(kube.trace) <= kube.trace && AllGrown(g, kube.trace, |old(kube.trace)|)
    ensures ok ==> Paired(cr, i, vv, sv, kube.st) && ServedWith(cr, i, vv, sv, kube.st)
    ensures ok ==> NicsReady(cr, i, sv, kube.st)
    ensures kube.reliable && NicsAndRulesUp(cr, i, sv, old(kube.st)) ==> ok
  {
    hide Grown, ServerKey, VolumeKey, NicKey, Paired, Unpaired, ServedWith, RulesReady, NicsAndRulesKept;
    hide NicsAndRulesUp;
    hide NicController.PresentAvailable, RulesUp;
    ghost var s := kube.st;
    ok := CreateServerAndVolume(kube, cr, i, vv, sv, g);
    if !ok {
      return;
    }
    if NicsAndRulesUp(cr, i, sv, s) { KeptUp(cr, i, sv, s, kube.st); }
    ghost var r := kube.st;
    var serverId;
    ok, serverId := AttachNew(kube, cr, i, vv, sv, g);
    if !ok {
      return;
    }
    ghost var t := kube.st;
    if NicsAndRulesUp(cr, i, sv, r) {
      KeptUp(cr, i, sv, r, t);
      BothUp(cr, i, sv, t);
    }
    ghost var sched;
    ok, sched := NicController.EnsureNICs(kube, cr, i, sv, serverId, g);
    if !ok {
      return;
    }
    PairedKept(cr, i, vv, sv, t, kube.st);
    ghost var u := kube.st;
    PairedServer(cr, i, vv, sv, t, u);
    if NicsAndRulesUp(cr, i, sv, t) {
      BothUp(cr, i, sv, t);
      RulesKeptUp(cr, i, sv, t, u);
    }
    ok := EnsureFirewallRules(kube, cr, i, sv, serverId, g);
    if ok {
      PairedKept(cr, i, vv, sv, u, kube.st);
      PairedAttached(cr, i, vv, sv, kube.st);
      StillNicsReady(cr, i, sv, u, kube.st);
      ReadyIsServed(cr, i, vv, sv, kube.st);
    }
  }

  lemma PairedAttached(cr: ServerSet, i: nat, vv: nat, sv: nat, t: State)
    requires Paired(cr, i, vv, sv, t)
    ensures Attached(cr, i, vv, sv, t)
  {
  }

  lemma PairedServer(cr: ServerSet, i: nat, vv: nat, sv: nat, t: State, u: State)
    requires Paired(cr, i, vv, sv, t)
    requires forall k: Key :: k.kind.ServerKind? ==> (k in t.objs ==> k in u.objs && t.objs[k] == u.objs[k])
    ensures IdAt(u, ServerKey(cr, i, sv)) == IdAt(t, ServerKey(cr, i, sv))
  {
    hide ServerKey, VolumeKey;
  }

  // ---------- cleanupCondemned ----------

  /** Server and volume are gone, the NICs below `n`, and the rules below rule `r` of NIC `n`. */
  ghost predicate Gone(cr: ServerSet, i: nat, vv: nat, sv: nat, st: State, n: nat, r: nat) {
    && ServerKey(cr, i, sv) !in st.objs && VolumeKey(cr, i, vv) !in st.objs
    && (forall m :: 0 <= m < |cr.nics| && m < n ==> NicKey(cr, i, m, sv) !in st.objs)
    && (forall m, q :: 0 <= m < |cr.nics| && 0 <= q < |cr.nics[m].rules| ==>
          (m < n || (m == n && q < r) ==> RuleKey(cr, i, m, q, sv) !in st.objs))
  }

  lemma StaysGone(cr: ServerSet, i: nat, vv: nat, sv: nat, st: State, u: State, n: nat, r: nat)
    requires Gone(cr, i, vv, sv, st, n, r) && forall k :: k in u.objs ==> k in st.objs
    ensures Gone(cr, i, vv, sv, u, n, r)
  {
    hide ServerKey, VolumeKey, NicKey, RuleKey;
  }

  lemma RuleGone(cr: ServerSet, i: nat, vv: nat, sv: nat, st: State, u: State, n: nat, r: nat)
    requires Gone(cr, i, vv, sv, st, n, r) && n < |cr.nics| && r < |cr.nics[n].rules|
    requires u == st.(objs := st.objs - {RuleKey(cr, i, n, r, sv)})
    ensures Gone(cr, i, vv, sv, u, n, r + 1)
  {
    hide ServerKey, VolumeKey, NicKey, RuleKey;
    StaysGone(cr, i, vv, sv, st, u, n, r);
  }

  lemma NicGone(cr: ServerSet, i: nat, vv: nat, sv: nat, st: State, u: State, n: nat)
    requires n < |cr.nics| && Gone(cr, i, vv, sv, st, n, |cr.nics[n].rules|)
    requires u == st.(objs := st.objs - {NicKey(cr, i, n, sv)})
    ensures Gone(cr, i, vv, sv, u, n + 1, 0)
  {
    hide ServerKey, VolumeKey, NicKey, RuleKey;
    StaysGone(cr, i, vv, sv, st, u, n, |cr.nics[n].rules|);
  }

  lemma AllGone(cr: ServerSet, i: nat, vv: nat, sv: nat, st: State)
    requires Gone(cr, i, vv, sv, st, |cr.nics|, 0)
    ensures forall k :: InDesired(cr, i, vv, sv, k) ==> k !in st.objs
  {
    hide ServerKey, VolumeKey, NicKey, RuleKey, Owner, VersionOf, NicOf, RuleOf;
  }

  lemma WantedKeys(cr: ServerSet, i: nat, vv: nat, sv: nat)
    ensures InDesired(cr, i, vv, sv, ServerKey(cr, i, sv)) && InDesired(cr, i, vv, sv, VolumeKey(cr, i, vv))
    ensures forall n :: 0 <= n < |cr.nics| ==> InDesired(cr, i, vv, sv, NicKey(cr, i, n, sv))
    ensures forall n, r :: 0 <= n < |cr.nics| && 0 <= r < |cr.nics[n].rules|
              ==> InDesired(cr, i, vv, sv, RuleKey(cr, i, n, r, sv))
  {
    hide ServerKey, VolumeKey, NicKey, RuleKey, Owner, VersionOf, NicOf, RuleOf;
  }

  /** The NICs from `n` on are still there, and so are their rules, those of NIC `n` from rule `r` on. */
  ghost predicate Remaining(cr: ServerSet, i: nat, sv: nat, st: State, n: nat, r: nat) {
    && (forall m :: 0 <= m < |cr.nics| && n <= m ==> NicKey(cr, i, m, sv) in st.objs)
    && (forall m, q :: 0 <= m < |cr.nics| && 0 <= q < |cr.nics[m].rules| ==>
          (m > n || (m == n && q >= r) ==> RuleKey(cr, i, m, q, sv) in st.objs))
  }

  lemma RemainingStart(cr: ServerSet, i: nat, vv: nat, sv: nat, st: State, u: State)
    requires forall k :: InDesired(cr, i, vv, sv, k) ==> k in st.objs
    requires u.objs == st.objs - {VolumeKey(cr, i, vv)} - {ServerKey(cr, i, sv)}
    ensures Remaining(cr, i, sv, u, 0, 0)
  {
    hide ServerKey, VolumeKey, NicKey, RuleKey, InDesired;
    WantedKeys(cr, i, vv, sv);
  }

  lemma RemainingRule(cr: ServerSet, i: nat, sv: nat, st: State, u: State, n: nat, r: nat)
    requires Remaining(cr, i, sv, st, n, r) && n < |cr.nics| && r < |cr.nics[n].rules|
    requires u == st.(objs := st.objs - {RuleKey(cr, i, n, r, sv)})
    ensures Remaining(cr, i, sv, u, n, r + 1)
  {
    hide NicKey, RuleKey, NicOf, RuleOf;
    forall m, q | 0 <= m < |cr.nics| && 0 <= q < |cr.nics[m].rules| && (m > n || (m == n && q >= r + 1))
      ensures RuleKey(cr, i, m, q, sv) in u.objs
    {
      assert NicOf(RuleKey(cr, i, m, q, sv)) == m && RuleOf(RuleKey(cr, i, m, q, sv)) == q;
      assert NicOf(RuleKey(cr, i, n, r, sv)) == n && RuleOf(RuleKey(cr, i, n, r, sv)) == r;
    }
  }

  lemma RemainingNic(cr: ServerSet, i: nat, sv: nat, st: State, u: State, n: nat)
    requires n < |cr.nics| && Remaining(cr, i, sv, st, n, |cr.nics[n].rules|)
    requires u == st.(objs := st.objs - {NicKey(cr, i, n, sv)})
    ensures Remaining(cr, i, sv, u, n + 1, 0)
  {
    hide NicKey, RuleKey, NicOf;
    forall m | n < m < |cr.nics| ensures NicKey(cr, i, m, sv) in u.objs {
      assert NicOf(NicKey(cr, i, m, sv)) == m && NicOf(NicKey(cr, i, n, sv)) == n;
    }
  }

  lemma RemainingHere(cr: ServerSet, i: nat, sv: nat, st: State, n: nat, r: nat)
    requires n < |cr.nics| && Remaining(cr, i, sv, st, n, r)
    ensures NicKey(cr, i, n, sv) in st.objs
    ensures r < |cr.nics[n].rules| ==> RuleKey(cr, i, n, r, sv) in st.objs
  {
    hide NicKey, RuleKey;
  }

  /** Deletes one condemned object. */
  method Condemn(kube: Kube, cr: ServerSet, i: nat, vv: nat, sv: nat, k: Key, ghost m: State) returns (ok: bool)
    requires Shrunk(cr, i, vv, sv, m, kube.st) && InDesired(cr, i, vv, sv, k)
    modifies kube
    ensures Shrunk(cr, i, vv, sv, m, kube.st) && old(kube.trace) <= kube.trace
    ensures AllShrunk(cr, i, vv, sv, m, kube.trace, |old(kube.trace)|)
    ensures ok ==> kube.st == old(kube.st).(objs := old(kube.st).objs - {k})
    ensures kube.reliable && k in old(kube.st).objs ==> ok
  {
    hide Shrunk, InDesired;
    RemoveShrinks(cr, i, vv, sv, m, kube.st, k);
    ok := kube.Delete(k);
  }

  method CleanupNic(kube: Kube, cr: ServerSet, i: nat, vv: nat, sv: nat, n: nat, ghost m: State) returns (ok: bool)
    requires n < |cr.nics| && Shrunk(cr, i, vv, sv, m, kube.st) && Gone(cr, i, vv, sv, kube.st, n, 0)
    modifies kube
    ensures Shrunk(cr, i, vv, sv, m, kube.st) && old(kube.trace) <= kube.trace
    ensures AllShrunk(cr, i, vv, sv, m, kube.trace, |old(kube.trace)|)
    ensures ok ==> Gone(cr, i, vv, sv, kube.st, n + 1, 0)
    ensures kube.reliable && Remaining(cr, i, sv, old(kube.st), n, 0) ==> ok && Remaining(cr, i, sv, kube.st, n + 1, 0)
  {
    hide Shrunk, InDesired, Gone, NicKey, RuleKey, Remaining;
    WantedKeys(cr, i, vv, sv);
    for r := 0 to |cr.nics[n].rules|
      invariant Shrunk(cr, i, vv, sv, m, kube.st) && old(kube.trace) <= kube.trace
      invariant AllShrunk(cr, i, vv, sv, m, kube.trace, |old(kube.trace)|)
      invariant Gone(cr, i, vv, sv, kube.st, n, r)
      invariant Remaining(cr, i, sv, old(kube.st), n, 0) ==> Remaining(cr, i, sv, kube.st, n, r)
    {
      ghost var t := kube.st;
      if Remaining(cr, i, sv, t, n, r) { RemainingHere(cr, i, sv, t, n, r); }
      ok := Condemn(kube, cr, i, vv, sv, RuleKey(cr, i, n, r, sv), m);
      if !ok {
        return;
      }
      RuleGone(cr, i, vv, sv, t, kube.st, n, r);
      if Remaining(cr, i, sv, t, n, r) { RemainingRule(cr, i, sv, t, kube.st, n, r); }
    }
    ghost var t := kube.st;
    if Remaining(cr, i, sv, t, n, |cr.nics[n].rules|) { RemainingHere(cr, i, sv, t, n, |cr.nics[n].rules|); }
    ok := Condemn(kube, cr, i, vv, sv, NicKey(cr, i, n, sv), m);
    if ok {
      NicGone(cr, i, vv, sv, t, kube.st, n);
      if Remaining(cr, i, sv, t, n, |cr.nics[n].rules|) { RemainingNic(cr, i, sv, t, kube.st, n); }
    }
  }

  ghost predicate AllThere(cr: ServerSet, i: nat, vv: nat, sv: nat, st: State) {
    forall k :: InDesired(cr, i, vv, sv, k) ==> k in st.objs
  }

  lemma ThereBoth(cr: ServerSet, i: nat, vv: nat, sv: nat, st: State)
    requires AllThere(cr, i, vv, sv, st)
    ensures VolumeKey(cr, i, vv) in st.objs && ServerKey(cr, i, sv) in st.objs
    ensures VolumeKey(cr, i, vv) != ServerKey(cr, i, sv)
  {
    hide ServerKey, VolumeKey, InDesired;
    WantedKeys(cr, i, vv, sv);
  }

  lemma AllRemaining(cr: ServerSet, i: nat, vv: nat, sv: nat, st: State, u: State)
    requires AllThere(cr, i, vv, sv, st) && u.objs == st.objs - {VolumeKey(cr, i, vv)} - {ServerKey(cr, i, sv)}
    ensures Remaining(cr, i, sv, u, 0, 0)
  {
    hide InDesired, Remaining, ServerKey, VolumeKey;
    RemainingStart(cr, i, vv, sv, st, u);
  }

  lemma GoneStart(cr: ServerSet, i: nat, vv: nat, sv: nat, st: State)
    requires ServerKey(cr, i, sv) !in st.objs && VolumeKey(cr, i, vv) !in st.objs
    ensures Gone(cr, i, vv, sv, st, 0, 0)
  {
  }

  method CleanupCondemned(kube: Kube, cr: ServerSet, i: nat, vv: nat, sv: nat, ghost m: State) returns (ok: bool)
    requires Shrunk(cr, i, vv, sv, m, kube.st)
    modifies kube
    ensures Shrunk(cr, i, vv, sv, m, kube.st) && old(kube.trace) <= kube.trace
    ensures AllShrunk(cr, i, vv, sv, m, kube.trace, |old(kube.trace)|)
    ensures ok ==> forall k :: InDesired(cr, i, vv, sv, k) ==> k !in kube.st.objs
    ensures kube.reliable && AllThere(cr, i, vv, sv, old(kube.st)) ==> ok
  {
    hide Shrunk, InDesired, Gone, ServerKey, VolumeKey, Remaining, AllThere;
    ghost var s := kube.st;
    WantedKeys(cr, i, vv, sv);
    if AllThere(cr, i, vv, sv, s) { ThereBoth(cr, i, vv, sv, s); }
    ok := Condemn(kube, cr, i, vv, sv, VolumeKey(cr, i, vv), m);
    if !ok {
      return;
    }
    ok := Condemn(kube, cr, i, vv, sv, ServerKey(cr, i, sv), m);
    if !ok {
      return;
    }
    GoneStart(cr, i, vv, sv, kube.st);
    if AllThere(cr, i, vv, sv, s) { AllRemaining(cr, i, vv, sv, s, kube.st); }
    for n := 0 to |cr.nics|
      invariant ok && Shrunk(cr, i, vv, sv, m, kube.st) && old(kube.trace) <= kube.trace
      invariant AllShrunk(cr, i, vv, sv, m, kube.trace, |old(kube.trace)|)
      invariant Gone(cr, i, vv, sv, kube.st, n, 0)
      invariant kube.reliable && AllThere(cr, i, vv, sv, s) ==> Remaining(cr, i, sv, kube.st, n, 0)
    {
      ok := CleanupNic(kube, cr, i, vv, sv, n, m);
      if !ok {
        return;
      }
    }
    AllGone(cr, i, vv, sv, kube.st);
  }

  // ---------- update ----------

  /** No NIC or rule of the next server version is there yet. */
  lemma NothingWiredYet(g: Goal, vv: nat, sv: nat)
    requires WellFormed(g.cr, g.s0) && Complete(g.cr, g.i, vv, sv, g.s0) && g.sv == sv + 1
    ensures Wired(g.cr, g.i, g.sv, g.s0)
  {
    hide SpecWired, InDesired, Owner, VersionOf, ServedWith, Made;
    forall k | k in g.s0.objs && Owner(k) == g.i && VersionOf(k) == g.sv
      ensures SpecWired(g.cr, g.i, g.sv, g.s0, k, g.s0.objs[k].spec)
    {
      DesiredOwner(g.cr, g.i, vv, sv, k);
      VolumeAlwaysWired(g.cr, g.i, g.sv, g.s0, k, g.s0.objs[k]);
    }
  }

  lemma VolumeAlwaysWired(cr: ServerSet, i: nat, sv: nat, st: State, k: Key, o: Obj)
    requires Made(cr, k, o) && k.kind.VolumeKind?
    ensures SpecWired(cr, i, sv, st, k, o.spec)
  {
    hide InDesired, Owner, VersionOf;
  }

  /** What is removed is not what the new objects refer to. */
  lemma ShrunkWired(cr: ServerSet, i: nat, vv: nat, sv: nat, m: State, u: State)
    requires Shrunk(cr, i, vv, sv, m, u) && Wired(cr, i, sv + 1, m)
    ensures Wired(cr, i, sv + 1, u)
  {
    hide InDesired, Owner, VersionOf, NicOf, ServerKey, NicKey;
    WantedKeys(cr, i, vv, sv + 1);
    forall k | k in u.objs && Owner(k) == i && VersionOf(k) == sv + 1
      ensures SpecWired(cr, i, sv + 1, u, k, u.objs[k].spec)
    {
      assert SpecWired(cr, i, sv + 1, m, k, m.objs[k].spec);
      NewVersionStays(cr, i, vv, sv, m, u, ServerKey(cr, i, sv + 1));
      if 0 <= NicOf(k) < |cr.nics| { NewVersionStays(cr, i, vv, sv, m, u, NicKey(cr, i, NicOf(k), sv + 1)); }
    }
  }

  lemma NewVersionStays(cr: ServerSet, i: nat, vv: nat, sv: nat, m: State, u: State, k: Key)
    requires Shrunk(cr, i, vv, sv, m, u) && VersionOf(k) == sv + 1 && !k.kind.VolumeKind?
    ensures IdAt(u, k) == IdAt(m, k)
  {
    hide InDesired, Owner, VersionOf;
    if InDesired(cr, i, vv, sv, k) { DesiredOwner(cr, i, vv, sv, k); }
  }

  /** A replica that was complete at the old versions is complete at the next ones. */
  lemma Replaced(g: Goal, vv: nat, sv: nat, m: State, u: State)
    requires g.vv == vv + 1 && g.sv == sv + 1 && WellFormed(g.cr, g.s0)
    requires Grown(g, m) && ServedWith(g.cr, g.i, g.vv, g.sv, m) && Complete(g.cr, g.i, vv, sv, g.s0)
    requires Shrunk(g.cr, g.i, vv, sv, m, u)
    requires forall k :: InDesired(g.cr, g.i, vv, sv, k) ==> k !in u.objs
    ensures Complete(g.cr, g.i, g.vv, g.sv, u)
  {
    hide WellFormed, InDesired, ServedWith, Wired, Owner;
    ShrunkServed(g.cr, g.i, vv, sv, g.vv, g.sv, m, u);
    NothingWiredYet(g, vv, sv);
    ShrunkWired(g.cr, g.i, vv, sv, m, u);
  }

  /** Whatever else was there: afterwards the replica has one server and one volume, the new ones. */
  lemma ReplacedSole(g: Goal, vv: nat, sv: nat, m: State, u: State)
    requires g.vv == vv + 1 && g.sv == sv + 1
    requires Sole(g.cr, g.i, vv, sv, g.s0) && Grown(g, m) && ServedWith(g.cr, g.i, g.vv, g.sv, m)
    requires Shrunk(g.cr, g.i, vv, sv, m, u)
    requires forall k :: InDesired(g.cr, g.i, vv, sv, k) ==> k !in u.objs
    ensures Sole(g.cr, g.i, g.vv, g.sv, u)
  {
    hide WellFormed, Wired, Owner, ServedWith, ServerKey, VolumeKey, NicKey, RuleKey, NicOf, RuleOf;
    ShrunkServed(g.cr, g.i, vv, sv, g.vv, g.sv, m, u);
    ServedSole(g.cr, g.i, g.vv, g.sv, u);
    ServerVolumeWanted(g.cr, g.i, vv, sv);
  }

  lemma ServedSole(cr: ServerSet, i: nat, vv: nat, sv: nat, st: State)
    requires ServedWith(cr, i, vv, sv, st)
    ensures ServerKey(cr, i, sv) in st.objs && VolumeKey(cr, i, vv) in st.objs
  {
    ServerVolumeWanted(cr, i, vv, sv);
  }

  lemma KeptServer(cr: ServerSet, i: nat, vv: nat, sv: nat, m: State, u: State)
    requires Paired(cr, i, vv + 1, sv + 1, m) && Shrunk(cr, i, vv, sv, m, u)
    ensures Ready(u, ServerKey(cr, i, sv + 1)) && !u.objs[ServerKey(cr, i, sv + 1)].reconcileError
  {
    hide InDesired, ServerKey, VolumeKey;
    if InDesired(cr, i, vv, sv, ServerKey(cr, i, sv + 1)) { DesiredOwner(cr, i, vv, sv, ServerKey(cr, i, sv + 1)); }
  }

  lemma KeptVolume(cr: ServerSet, i: nat, vv: nat, sv: nat, m: State, u: State)
    requires Paired(cr, i, vv + 1, sv + 1, m) && Shrunk(cr, i, vv, sv, m, u)
    ensures VolumeKey(cr, i, vv + 1) in u.objs
            && u.objs[VolumeKey(cr, i, vv + 1)].spec == NewVolume(cr, i, vv + 1).spec
  {
    hide InDesired, ServerKey, VolumeKey;
    if InDesired(cr, i, vv, sv, VolumeKey(cr, i, vv + 1)) { DesiredOwner(cr, i, vv, sv, VolumeKey(cr, i, vv + 1)); }
  }

  /** A complete replica has no NIC or rule of its next server version. */
  lemma NothingOnItsWay(cr: ServerSet, i: nat, vv: nat, sv: nat, st: State)
    requires Complete(cr, i, vv, sv, st)
    ensures NicsAndRulesUp(cr, i, sv + 1, st)
  {
    hide InDesired, Owner, VersionOf, ServedWith, Wired, NicKey, RuleKey;
    forall k: Key | k in st.objs && Owner(k) == i && !k.kind.VolumeKind? ensures VersionOf(k) == sv {
      DesiredOwner(cr, i, vv, sv, k);
    }
  }

  lemma OldStillThere(g: Goal, vv: nat, sv: nat, m: State)
    requires Complete(g.cr, g.i, vv, sv, g.s0) && Grown(g, m)
    ensures AllThere(g.cr, g.i, vv, sv, m)
  {
    hide InDesired, Owner, Attached, Wired, WellFormed;
  }

  /** Recreates the replica at the next versions. Stopped anywhere, it leaves other replicas untouched
      and a replica in service stays in service. */
  method Update(kube: Kube, cr: ServerSet, i: nat, vv: nat, sv: nat) returns (ok: bool)
    requires WellFormed(cr, kube.st) && Sole(cr, i, vv, sv, kube.st) && RulesActive(cr)
    modifies kube
    ensures Safe(cr, i, vv, sv, old(kube.st), kube.st)
    ensures old(kube.trace) <= kube.trace && AllSafe(cr, i, vv, sv, old(kube.st), kube.trace, |old(kube.trace)|)
    ensures NewFit(cr, old(kube.st), kube.st)
    ensures ok ==> Sole(cr, i, vv + 1, sv + 1, kube.st)
    ensures ok ==> kube.st.objs[VolumeKey(cr, i, vv + 1)].spec == NewVolume(cr, i, vv + 1).spec
    ensures ok ==> Ready(kube.st, ServerKey(cr, i, sv + 1)) && !kube.st.objs[ServerKey(cr, i, sv + 1)].reconcileError
    ensures ok && Complete(cr, i, vv, sv, old(kube.st)) ==> Complete(cr, i, vv + 1, sv + 1, kube.st)
    ensures kube.reliable && Complete(cr, i, vv, sv, old(kube.st)) ==> ok
  {
    hide WellFormed, Grown, Sole, Safe, Complete, Shrunk, ServedWith, Paired, InDesired, ServerKey, VolumeKey;
    hide NicsReady;
    hide NicsAndRulesUp, AllThere, Ready, NewFit;
    ghost var s0, n := kube.st, |kube.trace|;
    ghost var g := Goal(cr, i, vv + 1, sv + 1, s0);
    SoleIsFresh(cr, i, vv, sv, s0);
    StartGrown(g);
    if Complete(cr, i, vv, sv, s0) { NothingOnItsWay(cr, i, vv, sv, s0); }
    ok := CreateResources(kube, cr, i, vv + 1, sv + 1, g);
    GrownSafe(g, vv, sv, kube.st);
    AllGrownSafe(g, vv, sv, kube.trace, n);
    GrownFits(g, kube.st);
    if !ok {
      return;
    }
    ghost var m, mid := kube.st, kube.trace;
    ShrunkStart(cr, i, vv, sv, m);
    if Complete(cr, i, vv, sv, s0) { OldStillThere(g, vv, sv, m); }
    ok := CleanupCondemned(kube, cr, i, vv, sv, m);
    ShrunkSafe(g, vv, sv, m, kube.st);
    AllShrunkSafe(g, vv, sv, m, kube.trace, |mid|);
    SafeJoined(cr, i, vv, sv, s0, mid, kube.trace, n);
    ShrunkFits(cr, i, vv, sv, s0, m, kube.st);
    if ok {
      ReplacedSole(g, vv, sv, m, kube.st);
      KeptVolume(cr, i, vv, sv, m, kube.st);
      KeptServer(cr, i, vv, sv, m, kube.st);
      if Complete(cr, i, vv, sv, s0) { Replaced(g, vv, sv, m, kube.st); }
    }
  }
}
