/** Updates in place: parameters change, no object comes or goes. */
module Shape {
  import opened Store
  import opened Desired
  import opened Growth
  import opened Service
  import opened Versions
  import opened OnlyBootVolume
  import opened ServerUpdate

  /** The volume with the size of the template. */
  function Resized(cr: ServerSet, o: Obj): Obj
    requires o.spec.VolumeSpec?
  {
    o.(spec := o.spec.(size := cr.size))
  }

  ghost predicate SameUpToTemplate(cr: ServerSet, k: Key, o: Obj, p: Obj) {
    || p == o
    || (k.kind.ServerKind? && o.spec.ServerSpec? && p == Retuned(cr, o))
    || (k.kind.VolumeKind? && o.spec.VolumeSpec? && p == Resized(cr, o))
  }

  /** Servers may have been retuned and volumes resized; nothing else changed. */
  ghost predicate SameShape(cr: ServerSet, s: State, t: State) {
    && t.nextId == s.nextId
    && (forall k :: k in s.objs <==> k in t.objs)
    && (forall k :: k in s.objs ==> SameUpToTemplate(cr, k, s.objs[k], t.objs[k]))
  }

  ghost predicate AllShape(cr: ServerSet, s: State, trace: seq<State>, n: nat) {
    forall e :: n <= e < |trace| ==> SameShape(cr, s, trace[e])
  }

  /** A replica's boot volume differs from the template in a field that cannot be changed in place. */
  ghost predicate Stale(cr: ServerSet, st: State, i: int) {
    exists k :: k in st.objs && Of(k, i, VolumeKind) && Differs(cr, st.objs[k].spec)
  }

  lemma ShapeStart(cr: ServerSet, s: State)
    ensures SameShape(cr, s, s)
  {
  }

  lemma ShapeTransitive(cr: ServerSet, s: State, t: State, u: State)
    requires SameShape(cr, s, t) && SameShape(cr, t, u)
    ensures SameShape(cr, s, u)
  {
    forall k | k in s.objs ensures SameUpToTemplate(cr, k, s.objs[k], u.objs[k]) {
      assert SameUpToTemplate(cr, k, s.objs[k], t.objs[k]) && SameUpToTemplate(cr, k, t.objs[k], u.objs[k]);
    }
  }

  lemma TunedIsShape(cr: ServerSet, s: State, t: State)
    requires ServersTuned(cr, s, t)
    ensures SameShape(cr, s, t)
  {
    hide Retuned;
  }

  lemma ResizeNext(cr: ServerSet, s: State, t: State, k: Key)
    requires SameShape(cr, s, t) && k in t.objs && k.kind.VolumeKind? && t.objs[k].spec.VolumeSpec?
    ensures SameShape(cr, s, t.(objs := t.objs[k := Resized(cr, t.objs[k])]))
  {
    var u := t.(objs := t.objs[k := Resized(cr, t.objs[k])]);
    forall j | j in s.objs ensures SameUpToTemplate(cr, j, s.objs[j], u.objs[j]) {
      assert SameUpToTemplate(cr, j, s.objs[j], t.objs[j]);
    }
  }

  lemma UpToTemplateMade(cr: ServerSet, k: Key, o: Obj, p: Obj)
    requires SameUpToTemplate(cr, k, o, p)
    ensures Made(cr, k, o) ==> Made(cr, k, p)
    ensures p.id == o.id && p.labels == o.labels && p.state == o.state && p.reconcileError == o.reconcileError
    ensures k.kind.VolumeKind? ==> (Differs(cr, p.spec) <==> Differs(cr, o.spec))
    ensures o.spec.ServerSpec? ==> p.spec.ServerSpec? && p.spec.volumeId == o.spec.volumeId
    ensures o.spec.NicSpec? || o.spec.RuleSpec? ==> p.spec == o.spec
    ensures o.spec.VolumeSpec? <==> p.spec.VolumeSpec?
  {
    hide InDesired, Owner, VersionOf;
  }

  lemma ShapeWellFormed(cr: ServerSet, s: State, t: State)
    requires WellFormed(cr, s) && SameShape(cr, s, t)
    ensures WellFormed(cr, t)
  {
    hide Made, SameUpToTemplate;
    forall k | k in t.objs ensures Made(cr, k, t.objs[k]) && t.objs[k].id == s.objs[k].id {
      UpToTemplateMade(cr, k, s.objs[k], t.objs[k]);
    }
  }

  lemma ShapeIds(cr: ServerSet, s: State, t: State, k: Key)
    requires SameShape(cr, s, t)
    ensures IdAt(t, k) == IdAt(s, k)
  {
    hide SameUpToTemplate;
    if k in s.objs { UpToTemplateMade(cr, k, s.objs[k], t.objs[k]); }
  }

  lemma ShapeServed(cr: ServerSet, i: nat, vv: nat, sv: nat, s: State, t: State)
    requires SameShape(cr, s, t) && ServedWith(cr, i, vv, sv, s)
    ensures ServedWith(cr, i, vv, sv, t)
  {
    hide SameUpToTemplate, InDesired, ServerKey, VolumeKey;
    ShapeIds(cr, s, t, ServerKey(cr, i, sv));
    ShapeIds(cr, s, t, VolumeKey(cr, i, vv));
    UpToTemplateMade(cr, ServerKey(cr, i, sv), s.objs[ServerKey(cr, i, sv)], t.objs[ServerKey(cr, i, sv)]);
  }

  lemma ShapeWired(cr: ServerSet, i: nat, sv: nat, s: State, t: State)
    requires SameShape(cr, s, t) && Wired(cr, i, sv, s)
    ensures Wired(cr, i, sv, t)
  {
    hide SameUpToTemplate, Owner, VersionOf, NicOf, ServerKey, NicKey;
    forall k | k in t.objs && Owner(k) == i && VersionOf(k) == sv ensures SpecWired(cr, i, sv, t, k, t.objs[k].spec) {
      assert SpecWired(cr, i, sv, s, k, s.objs[k].spec);
      UpToTemplateMade(cr, k, s.objs[k], t.objs[k]);
      ShapeIds(cr, s, t, ServerKey(cr, i, sv));
      if 0 <= NicOf(k) < |cr.nics| { ShapeIds(cr, s, t, NicKey(cr, i, NicOf(k), sv)); }
    }
  }

  lemma ShapeComplete(cr: ServerSet, i: nat, vv: nat, sv: nat, s: State, t: State)
    requires SameShape(cr, s, t) && Complete(cr, i, vv, sv, s)
    ensures Complete(cr, i, vv, sv, t)
  {
    hide SameUpToTemplate, InDesired, ServedWith, Wired, Owner;
    ShapeServed(cr, i, vv, sv, s, t);
    ShapeWired(cr, i, sv, s, t);
  }

  lemma ShapeStale(cr: ServerSet, s: State, t: State, i: int)
    requires SameShape(cr, s, t)
    ensures Stale(cr, s, i) <==> Stale(cr, t, i)
  {
    hide SameUpToTemplate, Of, Differs;
    forall k | k in s.objs
      ensures Of(k, i, VolumeKind) ==> (Differs(cr, s.objs[k].spec) <==> Differs(cr, t.objs[k].spec))
    {
      UpToTemplateMade(cr, k, s.objs[k], t.objs[k]);
      KindOf(k, i);
    }
  }

  lemma KindOf(k: Key, i: int)
    ensures Of(k, i, VolumeKind) ==> k.kind.VolumeKind?
  {
  }

  lemma ShapeKeys(cr: ServerSet, s: State, t: State, i: int)
    requires SameShape(cr, s, t)
    ensures SameKeys(s, t, i) && (Jammed(s, i) ==> Jammed(t, i))
  {
    hide SameUpToTemplate, Owner;
  }

  lemma SameKeysZero(s: State, t: State, i: int)
    requires SameKeys(s, t, i) && ZeroWithoutVolume(s, i)
    ensures ZeroWithoutVolume(t, i)
  {
    hide Owner, VersionOf;
    if HasVolume(s, i) {
      var k :| k in s.objs && k.kind.VolumeKind? && Owner(k) == i;
      assert k in t.objs;
    } else if Several(s, i, ServerKind) {
      var j, k :| j in s.objs && k in s.objs && j != k && Of(j, i, ServerKind) && Of(k, i, ServerKind);
      assert j in t.objs && k in t.objs;
    }
  }

  // ---------- what every call keeps ----------

  /** A replica without a boot volume has its only server, if any, at version 0. */
  ghost predicate ZeroWithoutVolume(st: State, i: int) {
    || HasVolume(st, i)
    || Several(st, i, ServerKind)
    || forall k :: k in st.objs && Of(k, i, ServerKind) ==> VersionOf(k) == 0
  }

  /** No replica that was in service goes out of service, a jammed replica gets and loses nothing, and a
      replica that could be created still can. */
  ghost predicate KeepsAll(cr: ServerSet, s: State, t: State) {
    && WellFormed(cr, t)
    && (forall i: nat :: InService(cr, i, s) ==> InService(cr, i, t))
    && (forall i: nat :: Jammed(s, i) ==> SameKeys(s, t, i))
    && (forall i: nat :: ZeroWithoutVolume(s, i) ==> ZeroWithoutVolume(t, i))
  }

  ghost predicate AllKeep(cr: ServerSet, s: State, trace: seq<State>, n: nat) {
    forall e :: n <= e < |trace| ==> KeepsAll(cr, s, trace[e])
  }

  lemma SameKeysJammed(s: State, t: State, i: int)
    requires Jammed(s, i) && SameKeys(s, t, i)
    ensures Jammed(t, i)
  {
    hide Owner;
    var j, k :| j in s.objs && k in s.objs && j != k && j.kind == k.kind
      && (k.kind.ServerKind? || k.kind.VolumeKind?) && Owner(j) == i && Owner(k) == i;
    assert j in t.objs && k in t.objs;
  }

  lemma KeepsTransitive(cr: ServerSet, s: State, t: State, u: State)
    requires KeepsAll(cr, s, t) && KeepsAll(cr, t, u)
    ensures KeepsAll(cr, s, u)
  {
    hide WellFormed, InService, Owner, ZeroWithoutVolume;
    forall i: nat | Jammed(s, i) ensures SameKeys(s, u, i) {
      SameKeysJammed(s, t, i);
    }
  }

  lemma ShapeKeeps(cr: ServerSet, s: State, t: State)
    requires WellFormed(cr, s) && SameShape(cr, s, t)
    ensures KeepsAll(cr, s, t)
  {
    hide WellFormed, ServedWith, SameShape, SameKeys, Jammed, ZeroWithoutVolume;
    ShapeWellFormed(cr, s, t);
    forall i: nat | InService(cr, i, s) ensures InService(cr, i, t) {
      var vv: nat, sv: nat :| ServedWith(cr, i, vv, sv, s);
      ShapeServed(cr, i, vv, sv, s, t);
    }
    forall i: nat ensures SameKeys(s, t, i) && (ZeroWithoutVolume(s, i) ==> ZeroWithoutVolume(t, i)) {
      ShapeKeys(cr, s, t, i);
      if ZeroWithoutVolume(s, i) { SameKeysZero(s, t, i); }
    }
  }

  lemma AllShapeKeep(cr: ServerSet, s: State, trace: seq<State>, n: nat)
    requires WellFormed(cr, s) && AllShape(cr, s, trace, n)
    ensures AllKeep(cr, s, trace, n)
  {
    hide WellFormed, SameShape, KeepsAll;
    forall e | n <= e < |trace| ensures KeepsAll(cr, s, trace[e]) {
      ShapeKeeps(cr, s, trace[e]);
    }
  }

  /** A step that touches replica `i` only. */
  ghost predicate Stays(cr: ServerSet, i: nat, s: State, t: State) {
    && WellFormed(cr, t) && OnlyReplica(s, t, i)
    && (InService(cr, i, s) ==> InService(cr, i, t))
    && (Jammed(s, i) ==> SameKeys(s, t, i))
    && (ZeroWithoutVolume(s, i) ==> ZeroWithoutVolume(t, i))
  }

  ghost predicate AllStay(cr: ServerSet, i: nat, s: State, trace: seq<State>, n: nat) {
    forall e :: n <= e < |trace| ==> Stays(cr, i, s, trace[e])
  }

  lemma OtherServed(cr: ServerSet, i: nat, j: nat, s: State, t: State)
    requires OnlyReplica(s, t, i) && j != i && InService(cr, j, s)
    ensures InService(cr, j, t)
  {
    hide ServerKey, VolumeKey, InDesired, Owner;
    var vv: nat, sv: nat :| ServedWith(cr, j, vv, sv, s);
    forall k | InDesired(cr, j, vv, sv, k) ensures k in t.objs {
      DesiredOwner(cr, j, vv, sv, k);
    }
    assert ServedWith(cr, j, vv, sv, t);
  }

  lemma StaysKeeps(cr: ServerSet, i: nat, s: State, t: State)
    requires Stays(cr, i, s, t)
    ensures KeepsAll(cr, s, t)
  {
    hide WellFormed, InService, Jammed, ZeroWithoutVolume, Owner;
    forall j: nat | InService(cr, j, s) ensures InService(cr, j, t) {
      if j != i { OtherServed(cr, i, j, s, t); }
    }
    forall j: nat | ZeroWithoutVolume(s, j) ensures ZeroWithoutVolume(t, j) {
      if j != i { SameKeysZero(s, t, j); }
    }
  }

  lemma StaysOnly(cr: ServerSet, i: nat, s: State, t: State)
    requires Stays(cr, i, s, t)
    ensures OnlyReplica(s, t, i) && WellFormed(cr, t)
  {
    hide WellFormed, OnlyReplica;
  }

  lemma AllStayKeep(cr: ServerSet, i: nat, s: State, trace: seq<State>, n: nat)
    requires AllStay(cr, i, s, trace, n)
    ensures AllKeep(cr, s, trace, n)
  {
    hide Stays, KeepsAll;
    forall e | n <= e < |trace| ensures KeepsAll(cr, s, trace[e]) {
      StaysKeeps(cr, i, s, trace[e]);
    }
  }

  /** A segment that keeps everything since `t`, after one that led from `s` to `t`. */
  lemma KeepJoined(cr: ServerSet, s: State, t: State, mid: seq<State>, trace: seq<State>, n: nat)
    requires KeepsAll(cr, s, t) && AllKeep(cr, s, mid, n) && mid <= trace && AllKeep(cr, t, trace, |mid|)
    ensures AllKeep(cr, s, trace, n)
  {
    hide KeepsAll;
    forall e | n <= e < |trace| ensures KeepsAll(cr, s, trace[e]) {
      if e < |mid| { assert trace[e] == mid[e]; } else { KeepsTransitive(cr, s, t, trace[e]); }
    }
  }

  lemma KeepsStart(cr: ServerSet, s: State)
    requires WellFormed(cr, s)
    ensures KeepsAll(cr, s, s)
  {
    hide WellFormed, InService, Jammed, ZeroWithoutVolume;
  }

  /** A state on the way of an update of a replica with one server and one volume. */
  lemma SafeStays(cr: ServerSet, i: nat, vv: nat, sv: nat, s: State, t: State)
    requires Sole(cr, i, vv, sv, s) && Safe(cr, i, vv, sv, s, t)
    ensures Stays(cr, i, s, t)
  {
    hide WellFormed, Sole, ServedWith, OnlyReplica, SameKeys, Jammed, HasVolume;
    SoleHasVolume(cr, i, vv, sv, s);
    SoleNotJammed(cr, i, vv, sv, s);
    if InService(cr, i, s) {
      var vv': nat, sv': nat :| ServedWith(cr, i, vv', sv', s);
      SoleServed(cr, i, vv, sv, vv', sv', s);
    }
  }

  lemma SoleHasVolume(cr: ServerSet, i: nat, vv: nat, sv: nat, s: State)
    requires Sole(cr, i, vv, sv, s)
    ensures HasVolume(s, i)
  {
    hide ServerKey, VolumeKey;
  }

  lemma SoleServed(cr: ServerSet, i: nat, vv: nat, sv: nat, vv': nat, sv': nat, s: State)
    requires Sole(cr, i, vv, sv, s) && ServedWith(cr, i, vv', sv', s)
    ensures vv == vv' && sv == sv'
  {
    hide ServerKey, VolumeKey, Owner, VersionOf, InDesired;
    ServerVolumeWanted(cr, i, vv', sv');
    assert VersionOf(ServerKey(cr, i, sv)) == VersionOf(ServerKey(cr, i, sv'));
    assert VersionOf(VolumeKey(cr, i, vv)) == VersionOf(VolumeKey(cr, i, vv'));
  }

  lemma AllSafeStay(cr: ServerSet, i: nat, vv: nat, sv: nat, s: State, trace: seq<State>, n: nat)
    requires Sole(cr, i, vv, sv, s) && AllSafe(cr, i, vv, sv, s, trace, n)
    ensures AllStay(cr, i, s, trace, n)
  {
    hide Sole, Safe, Stays;
    forall e | n <= e < |trace| ensures Stays(cr, i, s, trace[e]) {
      SafeStays(cr, i, vv, sv, s, trace[e]);
    }
  }
}
