/** Creating one replica's objects: what every intermediate state keeps. */
module Growth {
  import opened Store
  import opened Desired

  /** Replica `i` of `cr` is to get its objects at these versions, starting from `s0`. */
  datatype Goal = Goal(cr: ServerSet, i: nat, vv: nat, sv: nat, s0: State)

  /** Everything of `s0` is still there unchanged, and what was added is wanted, well made, wired and as the
      template says. */
  ghost predicate Grown(g: Goal, t: State) {
    && WellFormed(g.cr, t) && (Wired(g.cr, g.i, g.sv, g.s0) ==> Wired(g.cr, g.i, g.sv, t))
    && g.s0.nextId <= t.nextId && NewFit(g.cr, g.s0, t)
    && (forall k :: k in g.s0.objs ==> k in t.objs && t.objs[k] == g.s0.objs[k])
    && (forall k :: k in t.objs ==> k in g.s0.objs || InDesired(g.cr, g.i, g.vv, g.sv, k))
  }

  ghost predicate AllGrown(g: Goal, trace: seq<State>, n: nat) {
    forall e :: n <= e < |trace| ==> Grown(g, trace[e])
  }

  ghost predicate OthersKept(s: State, t: State, k: Key) {
    && s.nextId <= t.nextId
    && forall j :: j != k ==> (j in s.objs <==> j in t.objs) && (j in s.objs ==> s.objs[j] == t.objs[j])
  }

  /** An id that is unset or was not given out before. */
  ghost predicate NewId(s: State, t: State, id: nat) {
    id == 0 || s.nextId <= id < t.nextId
  }

  ghost predicate Ready(t: State, k: Key) {
    k in t.objs && t.objs[k].state.Available? && t.objs[k].id != 0
  }

  /** One object without an id is added, completed or removed. */
  ghost predicate Touch(g: Goal, t: State, u: State, k: Key) {
    && OthersKept(t, u, k) && IdAt(t, k) == 0
    && k !in g.s0.objs && InDesired(g.cr, g.i, g.vv, g.sv, k)
    && (k in u.objs ==>
          && Made(g.cr, k, u.objs[k]) && NewId(t, u, u.objs[k].id)
          && SpecWired(g.cr, g.i, g.sv, t, k, u.objs[k].spec) && SpecNew(g.cr, u.objs[k].spec))
  }

  lemma TouchWellFormed(cr: ServerSet, t: State, u: State, k: Key)
    requires WellFormed(cr, t) && OthersKept(t, u, k)
    requires k in u.objs ==> Made(cr, k, u.objs[k]) && (NewId(t, u, u.objs[k].id) || u.objs[k].id == IdAt(t, k))
    ensures WellFormed(cr, u)
  {
    hide Made;
  }

  lemma TouchWired(cr: ServerSet, i: nat, sv: nat, t: State, u: State, k: Key)
    requires Wired(cr, i, sv, t) && OthersKept(t, u, k) && IdAt(t, k) == 0
    requires k in u.objs ==> SpecFits(k.kind, u.objs[k].spec) && SpecWired(cr, i, sv, t, k, u.objs[k].spec)
    ensures Wired(cr, i, sv, u)
  {
    hide Owner, VersionOf, NicOf, ServerKey, NicKey;
    forall j | j in u.objs && Owner(j) == i && VersionOf(j) == sv
      ensures SpecWired(cr, i, sv, u, j, u.objs[j].spec)
    {
      assert SpecWired(cr, i, sv, t, j, u.objs[j].spec);
    }
  }

  lemma TouchGrown(g: Goal, t: State, u: State, k: Key)
    requires Grown(g, t) && Touch(g, t, u, k)
    ensures Grown(g, u)
  {
    hide Made, SpecWired, Wired, WellFormed, InDesired, SpecFits, SpecNew, NewFit;
    TouchNewFit(g, t, u, k);
    TouchWellFormed(g.cr, t, u, k);
    TouchFits(g.cr, u, k);
    if Wired(g.cr, g.i, g.sv, t) { TouchWired(g.cr, g.i, g.sv, t, u, k); }
  }

  lemma TouchNewFit(g: Goal, t: State, u: State, k: Key)
    requires NewFit(g.cr, g.s0, t) && OthersKept(t, u, k) && (k in u.objs ==> SpecNew(g.cr, u.objs[k].spec))
    ensures NewFit(g.cr, g.s0, u)
  {
    hide SpecNew;
  }

  lemma TouchFits(cr: ServerSet, u: State, k: Key)
    ensures k in u.objs && Made(cr, k, u.objs[k]) ==> SpecFits(k.kind, u.objs[k].spec)
  {
  }

  /** The common course of the four Create methods: create, wait for the provider, read again. A
      rejected object (422) is deleted again; any other trouble leaves it as far as it got. */
  method CreateAndWait(kube: Kube, k: Key, o: Obj, ghost g: Goal) returns (ok: bool)
    requires Grown(g, kube.st) && InDesired(g.cr, g.i, g.vv, g.sv, k)
    requires Made(g.cr, k, o) && o.id == 0 && SpecWired(g.cr, g.i, g.sv, kube.st, k, o.spec) && SpecNew(g.cr, o.spec)
    modifies kube
    ensures Grown(g, kube.st) && old(kube.trace) <= kube.trace
    ensures AllGrown(g, kube.trace, |old(kube.trace)|)
    ensures OthersKept(old(kube.st), kube.st, k)
    ensures ok ==> Ready(kube.st, k) && kube.st.objs[k].spec == o.spec
    ensures ok ==> kube.st.objs[k].reconcileError == o.reconcileError
    ensures kube.reliable && k !in old(kube.st).objs ==> ok
  {
    hide Made, SpecWired, Grown, InDesired, SpecNew;
    if k in kube.st.objs {
      return false;
    }
    var t0 := kube.st;
    NotInStart(g, t0, k);
    ok := kube.Commit(t0.(objs := t0.objs[k := o]));
    if k !in kube.st.objs {
      return false;
    }
    var t1 := kube.st;
    TouchGrown(g, t0, t1, k);
    if !ok {
      return;
    }
    StatusFits(g, t0, t1, k, o);
    ok := AwaitCreated(kube, k, o, g);
  }

  /** The wait after a create, and the read that follows it. */
  method AwaitCreated(kube: Kube, k: Key, o: Obj, ghost g: Goal) returns (ok: bool)
    requires Grown(g, kube.st) && InDesired(g.cr, g.i, g.vv, g.sv, k) && k !in g.s0.objs
    requires k in kube.st.objs && kube.st.objs[k] == o && o.id == 0 && SpecNew(g.cr, o.spec)
    requires kube.st.nextId > 0 && SpecWired(g.cr, g.i, g.sv, kube.st, k, o.spec)
    requires forall id: nat, state: ProviderState :: (state.Available? ==> id != 0) ==>
              Made(g.cr, k, o.(id := id, state := state))
    modifies kube
    ensures Grown(g, kube.st) && old(kube.trace) <= kube.trace
    ensures AllGrown(g, kube.trace, |old(kube.trace)|)
    ensures OthersKept(old(kube.st), kube.st, k)
    ensures ok ==> Ready(kube.st, k) && kube.st.objs[k].spec == o.spec
    ensures ok ==> kube.st.objs[k].reconcileError == o.reconcileError
    ensures kube.reliable ==> ok
  {
    hide Made, SpecWired, Grown, InDesired, SpecNew;
    var t := kube.st;
    var fails := kube.Fails();
    if !fails {
      kube.Provide(State(t.objs[k := o.(id := t.nextId, state := Available)], t.nextId + 1));
      TouchGrown(g, t, kube.st, k);
      var unread := kube.Fails();
      ok := !unread;
    } else if * {
      var _ := kube.Delete(k);
      if kube.st != t { TouchGrown(g, t, kube.st, k); }
      ok := false;
    } else {
      ok := false;
      if * {
        kube.Provide(State(t.objs[k := o.(id := t.nextId, state := Busy)], t.nextId + 1));
        TouchGrown(g, t, kube.st, k);
      }
    }
  }

  lemma NotInStart(g: Goal, t: State, k: Key)
    requires Grown(g, t) && k !in t.objs
    ensures k !in g.s0.objs && t.nextId > 0
  {
  }

  /** Giving the new object an id keeps it well made and wired. */
  lemma StatusFits(g: Goal, t0: State, t1: State, k: Key, o: Obj)
    requires Made(g.cr, k, o) && SpecWired(g.cr, g.i, g.sv, t0, k, o.spec)
    requires OthersKept(t0, t1, k) && IdAt(t0, k) == 0 && IdAt(t1, k) == 0
    ensures SpecWired(g.cr, g.i, g.sv, t1, k, o.spec)
    ensures forall id: nat, state: ProviderState :: (state.Available? ==> id != 0) ==>
              Made(g.cr, k, o.(id := id, state := state))
  {
    hide Owner, VersionOf, NicOf, ServerKey, NicKey, InDesired;
  }
}
