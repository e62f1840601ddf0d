/** The Ensure methods of the server, boot-volume and firewall-rule controllers. */
module Controllers {
  import opened Wrappers
  import opened Names
  import opened Store
  import opened Desired
  import opened Growth

  /** Every wanted NIC of the replica exists and is available. */
  ghost predicate NicsReady(cr: ServerSet, i: nat, v: nat, st: State) {
    forall n :: 0 <= n < |cr.nics| ==> Ready(st, NicKey(cr, i, n, v))
  }

  lemma ServerIsWanted(g: Goal, st: State)
    ensures var k, o := ServerKey(g.cr, g.i, g.sv), NewServer(g.cr, g.i, g.sv);
      && InDesired(g.cr, g.i, g.vv, g.sv, k) && Made(g.cr, k, o) && SpecWired(g.cr, g.i, g.sv, st, k, o.spec)
      && SpecNew(g.cr, o.spec)
  {
    hide Owner, VersionOf;
  }

  lemma VolumeIsWanted(g: Goal, st: State)
    ensures var k, o := VolumeKey(g.cr, g.i, g.vv), NewVolume(g.cr, g.i, g.vv);
      && InDesired(g.cr, g.i, g.vv, g.sv, k) && Made(g.cr, k, o) && SpecWired(g.cr, g.i, g.sv, st, k, o.spec)
      && SpecNew(g.cr, o.spec)
  {
    hide Owner, VersionOf;
  }

  /** A non-empty list by index and version holds the object of that name; an empty one says it is absent. */
  lemma ListedByVersion(cr: ServerSet, st: State, kind: Kind, i: nat, v: nat, items: seq<Item>)
    requires WellFormed(cr, st) && (kind.ServerKind? || kind.VolumeKind?)
    requires Lists(st, Selector(kind, Some(Itoa(i)), Some(Itoa(v))), items)
    ensures var k := if kind.ServerKind? then ServerKey(cr, i, v) else VolumeKey(cr, i, v);
            |items| > 0 <==> k in st.objs
  {
    hide Made, Matches, ServerKey, VolumeKey, InDesired, Owner, VersionOf;
    var k := if kind.ServerKind? then ServerKey(cr, i, v) else VolumeKey(cr, i, v);
    if |items| > 0 {
      VersionSelects(cr, st, kind, i, v, items[0].key);
      MadeKey(cr, items[0].key, items[0].obj, i);
    }
    if k in st.objs { VersionSelects(cr, st, kind, i, v, k); }
  }

  lemma GrownWellFormed(g: Goal, t: State)
    requires Grown(g, t)
    ensures WellFormed(g.cr, t)
  {
  }

  method EnsureServer(kube: Kube, cr: ServerSet, i: nat, version: nat, ghost g: Goal) returns (ok: bool)
    requires g.cr == cr && g.i == i && g.sv == version && Grown(g, kube.st)
    modifies kube
    ensures Grown(g, kube.st) && old(kube.trace) <= kube.trace && AllGrown(g, kube.trace, |old(kube.trace)|)
    ensures OthersKept(old(kube.st), kube.st, ServerKey(cr, i, version))
    ensures ServerKey(cr, i, version) in old(kube.st).objs ==> kube.st == old(kube.st)
    ensures ok ==> ServerKey(cr, i, version) in kube.st.objs
    ensures ok && ServerKey(cr, i, version) !in old(kube.st).objs ==> (
      Ready(kube.st, ServerKey(cr, i, version))
      && kube.st.objs[ServerKey(cr, i, version)].spec == NewServer(cr, i, version).spec
      && SpecNew(cr, kube.st.objs[ServerKey(cr, i, version)].spec)
      && !kube.st.objs[ServerKey(cr, i, version)].reconcileError)
    ensures kube.reliable ==> ok
  {
    hide Grown, Made, InDesired, SpecWired, SpecNew, ServerKey, WellFormed, Lists;
    GrownWellFormed(g, kube.st);
    var res := kube.List(Selector(ServerKind, Some(Itoa(i)), Some(Itoa(version))));
    if res.None? {
      return false;
    }
    ListedByVersion(cr, kube.st, ServerKind, i, version, res.value);
    if |res.value| > 0 {
      return true;
    }
    ServerIsWanted(g, kube.st);
    MadeNew(cr, i, 0, version, 0, 0);
    ok := CreateAndWait(kube, ServerKey(cr, i, version), NewServer(cr, i, version), g);
  }

  method EnsureVolume(kube: Kube, cr: ServerSet, i: nat, version: nat, ghost g: Goal) returns (ok: bool)
    requires g.cr == cr && g.i == i && g.vv == version && Grown(g, kube.st)
    modifies kube
    ensures Grown(g, kube.st) && old(kube.trace) <= kube.trace && AllGrown(g, kube.trace, |old(kube.trace)|)
    ensures OthersKept(old(kube.st), kube.st, VolumeKey(cr, i, version))
    ensures VolumeKey(cr, i, version) in old(kube.st).objs ==> kube.st == old(kube.st)
    ensures ok ==> VolumeKey(cr, i, version) in kube.st.objs
    ensures ok && VolumeKey(cr, i, version) !in old(kube.st).objs ==> (
      Ready(kube.st, VolumeKey(cr, i, version))
      && kube.st.objs[VolumeKey(cr, i, version)].spec == NewVolume(cr, i, version).spec
      && SpecNew(cr, kube.st.objs[VolumeKey(cr, i, version)].spec))
    ensures kube.reliable ==> ok
  {
    hide Grown, Made, InDesired, SpecWired, SpecNew, VolumeKey, WellFormed, Lists;
    GrownWellFormed(g, kube.st);
    var res := kube.List(Selector(VolumeKind, Some(Itoa(i)), Some(Itoa(version))));
    if res.None? {
      return false;
    }
    ListedByVersion(cr, kube.st, VolumeKind, i, version, res.value);
    if |res.value| > 0 {
      return true;
    }
    var unpatched := kube.Fails();
    if unpatched {
      return false;  // the user data could not be patched
    }
    VolumeIsWanted(g, kube.st);
    MadeNew(cr, i, 0, version, 0, 0);
    ok := CreateAndWait(kube, VolumeKey(cr, i, version), NewVolume(cr, i, version), g);
  }

  // ---------- firewall rules ----------

  /** The rules up to (not including) rule `r` of NIC `n` exist and are available. */
  ghost predicate RulesReady(cr: ServerSet, i: nat, v: nat, st: State, n: nat, r: nat) {
    forall m, q :: 0 <= m < |cr.nics| && 0 <= q < |cr.nics[m].rules| ==>
      (cr.nics[m].firewallActive && (m < n || (m == n && q < r)) ==> Ready(st, RuleKey(cr, i, m, q, v)))
  }

  /** No rule of an active NIC of the replica that is there is still on its way. */
  ghost predicate RulesUp(cr: ServerSet, i: nat, v: nat, st: State) {
    forall m, q :: 0 <= m < |cr.nics| && 0 <= q < |cr.nics[m].rules| ==>
      (cr.nics[m].firewallActive && RuleKey(cr, i, m, q, v) in st.objs ==>
         st.objs[RuleKey(cr, i, m, q, v)].state.Available?)
  }

  /** Whatever was there is still there, unchanged. */
  ghost predicate Added(s: State, t: State) {
    forall k :: k in s.objs ==> k in t.objs && t.objs[k] == s.objs[k]
  }

  lemma AddedStart(s: State)
    ensures Added(s, s)
  {
  }

  lemma AddedNext(s: State, t: State, u: State)
    requires Added(s, t) && Added(t, u)
    ensures Added(s, u)
  {
  }

  /** Rules that are all ready now were not on their way before, if nothing was replaced. */
  lemma ReadyWereUp(cr: ServerSet, i: nat, v: nat, s: State, t: State)
    requires Added(s, t) && RulesReady(cr, i, v, t, |cr.nics|, 0)
    ensures RulesUp(cr, i, v, s)
  {
    hide RuleKey;
    forall m, q | 0 <= m < |cr.nics| && 0 <= q < |cr.nics[m].rules| && cr.nics[m].firewallActive
                  && RuleKey(cr, i, m, q, v) in s.objs
      ensures s.objs[RuleKey(cr, i, m, q, v)].state.Available?
    {
      assert Ready(t, RuleKey(cr, i, m, q, v));
    }
  }

  lemma RuleUp(cr: ServerSet, i: nat, v: nat, st: State, m: nat, q: nat)
    requires RulesUp(cr, i, v, st) && m < |cr.nics| && q < |cr.nics[m].rules| && cr.nics[m].firewallActive
    ensures RuleKey(cr, i, m, q, v) in st.objs ==> st.objs[RuleKey(cr, i, m, q, v)].state.Available?
  {
    hide RuleKey;
  }

  /** NICs without an active firewall get no rules. */
  ghost predicate InactiveKept(cr: ServerSet, i: nat, v: nat, s: State, t: State) {
    forall m, q :: 0 <= m < |cr.nics| && 0 <= q < |cr.nics[m].rules| ==>
      (!cr.nics[m].firewallActive ==> (RuleKey(cr, i, m, q, v) in s.objs <==> RuleKey(cr, i, m, q, v) in t.objs))
  }

  lemma InactiveStart(cr: ServerSet, i: nat, v: nat, s: State)
    ensures InactiveKept(cr, i, v, s, s)
  {
    hide RuleKey;
  }

  lemma InactiveTransitive(cr: ServerSet, i: nat, v: nat, s: State, t: State, u: State)
    requires InactiveKept(cr, i, v, s, t) && InactiveKept(cr, i, v, t, u)
    ensures InactiveKept(cr, i, v, s, u)
  {
    hide RuleKey;
  }

  lemma InactiveNext(cr: ServerSet, i: nat, v: nat, s: State, t: State, u: State, n: nat, r: nat)
    requires n < |cr.nics| && r < |cr.nics[n].rules| && cr.nics[n].firewallActive
    requires InactiveKept(cr, i, v, s, t) && OthersKept(t, u, RuleKey(cr, i, n, r, v))
    ensures InactiveKept(cr, i, v, s, u)
  {
    hide RuleKey, NicOf;
    forall m, q | 0 <= m < |cr.nics| && 0 <= q < |cr.nics[m].rules| && !cr.nics[m].firewallActive
      ensures RuleKey(cr, i, m, q, v) in s.objs <==> RuleKey(cr, i, m, q, v) in u.objs
    {
      assert NicOf(RuleKey(cr, i, m, q, v)) == m && NicOf(RuleKey(cr, i, n, r, v)) == n;
    }
  }

  lemma RulesStayUp(cr: ServerSet, i: nat, v: nat, s: State, t: State, k: Key)
    requires OthersKept(s, t, k) && Ready(t, k) && RulesUp(cr, i, v, s)
    ensures RulesUp(cr, i, v, t)
  {
    hide RuleKey;
  }

  /** Everything but firewall rules is as before. */
  ghost predicate NonRulesKept(s: State, t: State) {
    && s.nextId <= t.nextId
    && forall k: Key :: !k.kind.RuleKind? ==>
         (k in s.objs <==> k in t.objs) && (k in s.objs ==> s.objs[k] == t.objs[k])
  }

  lemma RuleIsWanted(g: Goal, st: State, n: nat, r: nat, serverId: nat, nicId: nat)
    requires n < |g.cr.nics| && r < |g.cr.nics[n].rules|
    requires serverId != 0 && serverId == IdAt(st, ServerKey(g.cr, g.i, g.sv))
    requires nicId != 0 && nicId == IdAt(st, NicKey(g.cr, g.i, n, g.sv))
    ensures var k, o := RuleKey(g.cr, g.i, n, r, g.sv), NewRule(serverId, nicId);
      && InDesired(g.cr, g.i, g.vv, g.sv, k) && Made(g.cr, k, o) && SpecWired(g.cr, g.i, g.sv, st, k, o.spec)
      && SpecNew(g.cr, o.spec)
  {
    hide Owner, VersionOf, NicOf, RuleOf, ServerKey, NicKey, RuleKey;
  }

  /** One rule: created when it is absent, and expected to be available. */
  method EnsureRule(kube: Kube, cr: ServerSet, i: nat, n: nat, r: nat, version: nat, serverId: nat, nicId: nat,
                    ghost g: Goal) returns (ok: bool)
    requires g.cr == cr && g.i == i && g.sv == version && Grown(g, kube.st)
    requires n < |cr.nics| && r < |cr.nics[n].rules|
    requires serverId != 0 && serverId == IdAt(kube.st, ServerKey(cr, i, version))
    requires nicId != 0 && nicId == IdAt(kube.st, NicKey(cr, i, n, version))
    modifies kube
    ensures Grown(g, kube.st) && old(kube.trace) <= kube.trace && AllGrown(g, kube.trace, |old(kube.trace)|)
    ensures OthersKept(old(kube.st), kube.st, RuleKey(cr, i, n, r, version))
    ensures ok ==> Ready(kube.st, RuleKey(cr, i, n, r, version))
    ensures Added(old(kube.st), kube.st)
    ensures kube.reliable && cr.nics[n].firewallActive && RulesUp(cr, i, version, old(kube.st)) ==> ok
  {
    hide Grown, Made, InDesired, SpecWired, SpecNew, ServerKey, NicKey, RuleKey, RulesUp;
    if cr.nics[n].firewallActive && RulesUp(cr, i, version, kube.st) { RuleUp(cr, i, version, kube.st, n, r); }
    var k := RuleKey(cr, i, n, r, version);
    var rule := kube.Get(k);
    if rule.Unreachable? {
      return false;
    }
    if rule.Found? {
      AvailableIsReady(g, kube.st, k);
      return rule.obj.state.Available?;
    }
    RuleIsWanted(g, kube.st, n, r, serverId, nicId);
    ok := CreateAndWait(kube, k, NewRule(serverId, nicId), g);
  }

  lemma AvailableIsReady(g: Goal, t: State, k: Key)
    requires Grown(g, t) && k in t.objs
    ensures t.objs[k].state.Available? ==> Ready(t, k)
  {
    hide InDesired, Wired;
  }

  lemma RuleKeptsReady(cr: ServerSet, i: nat, v: nat, s: State, t: State, n: nat, r: nat)
    requires n < |cr.nics| && r < |cr.nics[n].rules|
    requires OthersKept(s, t, RuleKey(cr, i, n, r, v)) && Ready(t, RuleKey(cr, i, n, r, v))
    requires RulesReady(cr, i, v, s, n, r)
    ensures RulesReady(cr, i, v, t, n, r + 1)
  {
    hide RuleKey;
    forall m, q | 0 <= m < |cr.nics| && 0 <= q < |cr.nics[m].rules| && cr.nics[m].firewallActive
                  && (m < n || (m == n && q < r + 1))
      ensures Ready(t, RuleKey(cr, i, m, q, v))
    {
      if (m, q) != (n, r) {
        assert NicOf(RuleKey(cr, i, m, q, v)) == m && RuleOf(RuleKey(cr, i, m, q, v)) == q;
        assert NicOf(RuleKey(cr, i, n, r, v)) == n && RuleOf(RuleKey(cr, i, n, r, v)) == r;
        assert Ready(s, RuleKey(cr, i, m, q, v));
      }
    }
  }

  lemma RuleTouchKeeps(cr: ServerSet, i: nat, v: nat, s: State, t: State, k: Key)
    requires OthersKept(s, t, k) && k.kind.RuleKind?
    ensures NonRulesKept(s, t)
    ensures NicsReady(cr, i, v, s) ==> NicsReady(cr, i, v, t)
    ensures IdAt(t, ServerKey(cr, i, v)) == IdAt(s, ServerKey(cr, i, v))
    ensures forall n :: 0 <= n < |cr.nics| ==> IdAt(t, NicKey(cr, i, n, v)) == IdAt(s, NicKey(cr, i, n, v))
  {
    hide ServerKey, NicKey;
  }

  lemma KeptTransitive(s: State, t: State, u: State)
    requires NonRulesKept(s, t) && NonRulesKept(t, u)
    ensures NonRulesKept(s, u)
  {
  }

  /** The rules of one NIC with an active firewall. */
  method EnsureRulesOfNic(kube: Kube, cr: ServerSet, i: nat, n: nat, version: nat, serverId: nat, ghost g: Goal)
      returns (ok: bool)
    requires g.cr == cr && g.i == i && g.sv == version && Grown(g, kube.st)
    requires n < |cr.nics| && NicsReady(cr, i, version, kube.st)
    requires serverId != 0 && serverId == IdAt(kube.st, ServerKey(cr, i, version))
    requires RulesReady(cr, i, version, kube.st, n, 0)
    modifies kube
    ensures Grown(g, kube.st) && old(kube.trace) <= kube.trace && AllGrown(g, kube.trace, |old(kube.trace)|)
    ensures NonRulesKept(old(kube.st), kube.st)
    ensures ok ==> RulesReady(cr, i, version, kube.st, n, |cr.nics[n].rules|)
    ensures Added(old(kube.st), kube.st)
    ensures kube.reliable && cr.nics[n].firewallActive && RulesUp(cr, i, version, old(kube.st)) ==>
              ok && RulesUp(cr, i, version, kube.st)
    ensures cr.nics[n].firewallActive ==> InactiveKept(cr, i, version, old(kube.st), kube.st)
  {
    hide Grown, RulesReady, ServerKey, NicKey, RuleKey, NonRulesKept, OthersKept, RulesUp, InactiveKept, Added;
    InactiveStart(cr, i, version, kube.st);
    AddedStart(kube.st);
    KeptReflexive(kube.st);
    assert Ready(kube.st, NicKey(cr, i, n, version));
    var nic := kube.Get(NicKey(cr, i, n, version));
    if !nic.Found? {
      return false;
    }
    ok := true;
    for r := 0 to |cr.nics[n].rules|
      invariant ok && Grown(g, kube.st) && old(kube.trace) <= kube.trace
      invariant AllGrown(g, kube.trace, |old(kube.trace)|)
      invariant NonRulesKept(old(kube.st), kube.st)
      invariant serverId == IdAt(kube.st, ServerKey(cr, i, version))
      invariant nic.obj.id != 0 && nic.obj.id == IdAt(kube.st, NicKey(cr, i, n, version))
      invariant RulesReady(cr, i, version, kube.st, n, r)
      invariant RulesUp(cr, i, version, old(kube.st)) ==> RulesUp(cr, i, version, kube.st)
      invariant Added(old(kube.st), kube.st)
      invariant cr.nics[n].firewallActive ==> InactiveKept(cr, i, version, old(kube.st), kube.st)
    {
      ghost var before := kube.st;
      ok := EnsureRule(kube, cr, i, n, r, version, serverId, nic.obj.id, g);
      RuleTouchKeeps(cr, i, version, before, kube.st, RuleKey(cr, i, n, r, version));
      KeptTransitive(old(kube.st), before, kube.st);
      AddedNext(old(kube.st), before, kube.st);
      if cr.nics[n].firewallActive { InactiveNext(cr, i, version, old(kube.st), before, kube.st, n, r); }
      if !ok {
        return;
      }
      RuleKeptsReady(cr, i, version, before, kube.st, n, r);
      if RulesUp(cr, i, version, before) {
        RulesStayUp(cr, i, version, before, kube.st, RuleKey(cr, i, n, r, version));
      }
    }
  }

  lemma KeptReflexive(s: State)
    ensures NonRulesKept(s, s)
  {
  }

  lemma NicDone(cr: ServerSet, i: nat, v: nat, st: State, n: nat)
    requires n < |cr.nics|
    requires RulesReady(cr, i, v, st, n, if cr.nics[n].firewallActive then |cr.nics[n].rules| else 0)
    ensures RulesReady(cr, i, v, st, n + 1, 0)
  {
    hide RuleKey;
  }

  lemma StillNicsReady(cr: ServerSet, i: nat, v: nat, s: State, t: State)
    requires NonRulesKept(s, t) && NicsReady(cr, i, v, s)
    ensures NicsReady(cr, i, v, t) && IdAt(t, ServerKey(cr, i, v)) == IdAt(s, ServerKey(cr, i, v))
  {
    hide ServerKey, NicKey;
  }

  method EnsureFirewallRules(kube: Kube, cr: ServerSet, i: nat, version: nat, serverId: nat, ghost g: Goal)
      returns (ok: bool)
    requires g.cr == cr && g.i == i && g.sv == version && Grown(g, kube.st)
    requires NicsReady(cr, i, version, kube.st)
    requires serverId != 0 && serverId == IdAt(kube.st, ServerKey(cr, i, version))
    modifies kube
    ensures Grown(g, kube.st) && old(kube.trace) <= kube.trace && AllGrown(g, kube.trace, |old(kube.trace)|)
    ensures NonRulesKept(old(kube.st), kube.st)
    ensures ok ==> RulesReady(cr, i, version, kube.st, |cr.nics|, 0)
    ensures ok ==> RulesUp(cr, i, version, old(kube.st))
    ensures kube.reliable ==> (ok <==> RulesUp(cr, i, version, old(kube.st)))
    ensures InactiveKept(cr, i, version, old(kube.st), kube.st)
  {
    hide Grown, RulesReady, ServerKey, NonRulesKept, NicsReady, RulesUp, InactiveKept, Added;
    AddedStart(kube.st);
    ok := true;
    KeptReflexive(kube.st);
    NoRulesYet(cr, i, version, kube.st);
    InactiveStart(cr, i, version, kube.st);
    for n := 0 to |cr.nics|
      invariant ok && Grown(g, kube.st) && old(kube.trace) <= kube.trace
      invariant AllGrown(g, kube.trace, |old(kube.trace)|)
      invariant NonRulesKept(old(kube.st), kube.st)
      invariant RulesReady(cr, i, version, kube.st, n, 0)
      invariant kube.reliable && RulesUp(cr, i, version, old(kube.st)) ==> RulesUp(cr, i, version, kube.st)
      invariant InactiveKept(cr, i, version, old(kube.st), kube.st)
      invariant Added(old(kube.st), kube.st)
    {
      if cr.nics[n].firewallActive {
        ghost var before := kube.st;
        StillNicsReady(cr, i, version, old(kube.st), before);
        ok := EnsureRulesOfNic(kube, cr, i, n, version, serverId, g);
        KeptTransitive(old(kube.st), before, kube.st);
        AddedNext(old(kube.st), before, kube.st);
        InactiveTransitive(cr, i, version, old(kube.st), before, kube.st);
        if !ok {
          return;
        }
      }
      NicDone(cr, i, version, kube.st, n);
    }
    ReadyWereUp(cr, i, version, old(kube.st), kube.st);
  }

  lemma NoRulesYet(cr: ServerSet, i: nat, v: nat, st: State)
    ensures RulesReady(cr, i, v, st, 0, 0)
  {
  }
}
