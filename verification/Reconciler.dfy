/** The controller's three calls, as the managed reconciler makes them, over one store. */
module Reconciler {
  import opened Wrappers
  import opened Store
  import opened Desired
  import opened Service
  import opened Versions
  import opened Failover
  import opened ServerUpdate
  import opened Shape
  import opened Status
  import opened Rollout
  import opened Creation
  import opened Readiness
  import opened Counts
  import OnlyBootVolume

  /** How a successful Update got from one store to the next: over `tuned`, where the servers fit, and
      `mid`, where also volume sizes were written, to the exchange of replica `pick` (-1 for none). */
  datatype Passage = Passage(tuned: State, mid: State, pick: int, vv: nat, sv: nat)

  ghost predicate Stepped(cr: ServerSet, master: int, s: State, t: State, p: Passage) {
    ServersTuned(cr, s, p.tuned) && ServersFit(cr, p.tuned) && Round(cr, master, p.tuned, t, p.pick, p.mid, p.vv, p.sv)
  }

  /** Update has nothing to write: servers and volumes fit the template. */
  ghost predicate Fitting(cr: ServerSet, st: State) {
    ServersFit(cr, st) && VolumesFit(cr, st)
  }

  /** Everything is available and, with a state map, reported running. */
  ghost predicate StoreUp(cr: ServerSet, parse: string -> Option<nat>, stateMap: MapRead, st: State) {
    forall k :: k in st.objs ==>
      && (k.kind.ServerKind? ==> Up(cr, parse, stateMap, Item(k, st.objs[k])))
      && (k.kind.VolumeKind? ==> st.objs[k].state.Available?)
  }

  // ---------- lists speak for the store ----------

  lemma ListedUp(cr: ServerSet, parse: string -> Option<nat>, stateMap: MapRead, st: State, servers: seq<Item>,
                 volumes: seq<Item>)
    requires Lists(st, AllOf(ServerKind), servers) && Lists(st, AllOf(VolumeKind), volumes)
    ensures EverythingUp(cr, parse, stateMap, servers, volumes) <==> StoreUp(cr, parse, stateMap, st)
  {
    hide Up;
    if EverythingUp(cr, parse, stateMap, servers, volumes) {
      forall k | k in st.objs
        ensures k.kind.ServerKind? ==> Up(cr, parse, stateMap, Item(k, st.objs[k]))
        ensures k.kind.VolumeKind? ==> st.objs[k].state.Available?
      {
        if k.kind.ServerKind? {
          assert Matches(AllOf(ServerKind), k, st.objs[k]);
          var j :| 0 <= j < |servers| && servers[j].key == k;
          assert servers[j] == Item(k, st.objs[k]);
        } else if k.kind.VolumeKind? {
          assert Matches(AllOf(VolumeKind), k, st.objs[k]);
        }
      }
    }
    if StoreUp(cr, parse, stateMap, st) {
      forall j | 0 <= j < |servers| ensures Up(cr, parse, stateMap, servers[j]) {
        assert servers[j] == Item(servers[j].key, st.objs[servers[j].key]);
      }
    }
  }

  lemma ListedSpecs(cr: ServerSet, st: State, servers: seq<Item>, volumes: seq<Item>)
    requires WellFormed(cr, st) && Lists(st, AllOf(ServerKind), servers) && Lists(st, AllOf(VolumeKind), volumes)
    ensures AllServers(servers) && AllVolumes(volumes)
  {
    hide WellFormed, Lists;
    forall j | 0 <= j < |servers| ensures servers[j].obj.spec.ServerSpec? {
      ListedObject(st, AllOf(ServerKind), servers, j);
      VolumeSpecOf(cr, st, servers[j].key);
    }
    forall j | 0 <= j < |volumes| ensures volumes[j].obj.spec.VolumeSpec? {
      ListedObject(st, AllOf(VolumeKind), volumes, j);
      VolumeSpecOf(cr, st, volumes[j].key);
    }
  }

  ghost function KeysOf(st: State, kind: Kind): set<Key> {
    set k | k in st.objs && k.kind == kind
  }

  /** The store has as many servers, volumes and NICs as the set wants. */
  ghost predicate Counted(cr: ServerSet, st: State) {
    AllCounted(cr, |KeysOf(st, ServerKind)|, |KeysOf(st, VolumeKind)|, |KeysOf(st, NicKind)|)
  }

  lemma ListedCounts(cr: ServerSet, st: State, servers: seq<Item>, volumes: seq<Item>, nics: seq<Item>)
    requires Lists(st, AllOf(ServerKind), servers) && Lists(st, AllOf(VolumeKind), volumes)
    requires Lists(st, AllOf(NicKind), nics)
    ensures AllCounted(cr, |servers|, |volumes|, |nics|) <==> Counted(cr, st)
  {
    hide Lists;
    ListedCount(st, AllOf(ServerKind), servers, KeysOf(st, ServerKind));
    ListedCount(st, AllOf(VolumeKind), volumes, KeysOf(st, VolumeKind));
    ListedCount(st, AllOf(NicKind), nics, KeysOf(st, NicKind));
  }

  /** No server and no volume shows a difference. */
  ghost predicate StorePlain(cr: ServerSet, st: State) {
    && (forall k: Key :: k in st.objs && k.kind.ServerKind? && st.objs[k].spec.ServerSpec? ==>
          ServerPlain(cr, st.objs[k]))
    && (forall k: Key :: k in st.objs && k.kind.VolumeKind? && st.objs[k].spec.VolumeSpec? ==>
          VolumeFits(cr, st.objs[k]) && st.objs[k].state.Available?)
  }

  lemma ListedPlain(cr: ServerSet, st: State, servers: seq<Item>, volumes: seq<Item>)
    requires Lists(st, AllOf(ServerKind), servers) && Lists(st, AllOf(VolumeKind), volumes)
    requires AllServers(servers) && AllVolumes(volumes)
    ensures NoDifference(cr, servers, volumes) <==> StorePlain(cr, st)
  {
    hide ServerPlain, VolumeFits;
    if NoDifference(cr, servers, volumes) {
      forall k: Key | k in st.objs && k.kind.ServerKind? && st.objs[k].spec.ServerSpec?
        ensures ServerPlain(cr, st.objs[k])
      {
        assert Matches(AllOf(ServerKind), k, st.objs[k]);
      }
      forall k: Key | k in st.objs && k.kind.VolumeKind? && st.objs[k].spec.VolumeSpec?
        ensures VolumeFits(cr, st.objs[k]) && st.objs[k].state.Available?
      {
        assert Matches(AllOf(VolumeKind), k, st.objs[k]);
      }
    }
  }

  // ---------- parts of Create ----------

  /** What has the template's parameters still fits, and what is new fits. */
  lemma NewFitFits(cr: ServerSet, s: State, t: State)
    requires NewFit(cr, s, t)
    ensures ServersFit(cr, s) ==> ServersFit(cr, t)
    ensures VolumesFit(cr, s) ==> VolumesFit(cr, t)
  {
    forall k: Key | ServersFit(cr, s) && k in t.objs && k.kind.ServerKind? && t.objs[k].spec.ServerSpec?
      ensures t.objs[k] == Retuned(cr, t.objs[k])
    {
      if !SpecNew(cr, t.objs[k].spec) { FittingServer(cr, s.objs[k]); }
      FittingServer(cr, t.objs[k]);
    }
  }

  /** From nothing, everything fits. */
  lemma EmptyFits(cr: ServerSet, st: State)
    requires st.objs == map[]
    ensures Fitting(cr, st)
  {
  }

  // ---------- parts of Update ----------

  /** What Update has done, whatever it reports: the servers it listed and wrote, whether that was finished, and
      the exchange. */
  datatype Trail = Trail(listed: seq<Item>, writes: seq<Write>, finished: bool, exchange: Exchange)

  /** First the servers, serialised; only when all of them fit and every reboot was confirmed anything else, and
      then at most one exchange. */
  ghost predicate Trailed(cr: ServerSet, master: int, s: State, t: State, trace: seq<State>, n: nat,
                          seen: seq<Observation>, start: nat, trail: Trail)
  {
    && n + |trail.writes| <= trail.exchange.at <= |trace|
    && Serialised(cr, s, trace[..n + |trail.writes|], n, seen, start, trail.listed, trail.writes,
                  if trail.finished then 0 else 1)
    && (trail.writes != [] ==> Lists(s, AllOf(ServerKind), trail.listed))
    && (if trail.finished then ServersFit(cr, trail.exchange.mid) else |trace| == n + |trail.writes|)
    && OneExchange(cr, master, s, t, trace, n, seen, start, trail.exchange)
  }

  lemma TunedShapes(cr: ServerSet, s: State, trace: seq<State>, n: nat)
    requires AllTuned(cr, s, trace, n)
    ensures AllShape(cr, s, trace, n)
  {
    hide ServersTuned, SameShape;
    forall e | n <= e < |trace| ensures SameShape(cr, s, trace[e]) { TunedIsShape(cr, s, trace[e]); }
  }

  /** An exchange after servers were brought to the template, seen from before that. */
  lemma ExchangeJoined(cr: ServerSet, master: int, s: State, tuned: State, t: State, before: seq<State>,
                       trace: seq<State>, n: nat, seen: seq<Observation>, start: nat, x: Exchange)
    requires n <= |before| && before <= trace && SameShape(cr, s, tuned) && AllShape(cr, s, before, n)
    requires OneExchange(cr, master, tuned, t, trace, |before|, seen, start, x)
    ensures OneExchange(cr, master, s, t, trace, n, seen, start, x)
  {
    hide SameShape, Stale, Lists, AllSeenRunning, OnlyReplica;
    ShapeTransitive(cr, s, tuned, x.mid);
    forall e | n <= e < x.at ensures SameShape(cr, s, trace[e]) {
      if e < |before| { assert trace[e] == before[e]; } else { ShapeTransitive(cr, s, tuned, trace[e]); }
    }
    forall i ensures Stale(cr, s, i) <==> Stale(cr, tuned, i) { ShapeStale(cr, s, tuned, i); }
  }

  lemma ExchangeMid(cr: ServerSet, master: int, s: State, t: State, trace: seq<State>, n: nat,
                    seen: seq<Observation>, start: nat, x: Exchange)
    requires OneExchange(cr, master, s, t, trace, n, seen, start, x)
    ensures SameShape(cr, s, x.mid) && n <= x.at <= |trace|
  {
    hide SameShape, Justified, OnlyReplica;
  }

  lemma NoTrail(cr: ServerSet, master: int, s: State, trace: seq<State>, seen: seq<Observation>, start: nat,
                clock: nat) returns (trail: Trail)
    ensures Trailed(cr, master, s, s, trace, |trace|, seen, start, trail) && Timed(trail.writes, clock, clock)
  {
    hide SameShape, Serialised, Lists, OneExchange;
    trail := Trail([], [], false, Exchange(|trace|, s, -1, []));
    ShapeStart(cr, s);
    NoExchange(cr, master, s, s, trace, |trace|, seen, start);
    SerialisedStart(cr, s, trace, |trace|, seen, start, []);
    SerialisedSeen(cr, s, trace, |trace|, seen, seen, start, [], []);
    assert trace[..|trace|] == trace;
  }

  lemma MakeTrail(cr: ServerSet, master: int, s: State, t: State, before: seq<State>, trace: seq<State>, n: nat,
                  early: seq<Observation>, seen: seq<Observation>, start: nat, trail: Trail)
    requires n <= |before| && before <= trace && early <= seen && |before| <= trail.exchange.at
    requires Serialised(cr, s, before, n, early, start, trail.listed, trail.writes, if trail.finished then 0 else 1)
    requires trail.writes != [] ==> Lists(s, AllOf(ServerKind), trail.listed)
    requires if trail.finished then ServersFit(cr, trail.exchange.mid) else trace == before
    requires OneExchange(cr, master, s, t, trace, n, seen, start, trail.exchange)
    ensures Trailed(cr, master, s, t, trace, n, seen, start, trail)
  {
    hide Lists, ServersFit, SameShape, OnlyReplica, Justified, Serialised;
    SerialisedLength(cr, s, before, n, early, start, trail.listed, trail.writes, if trail.finished then 0 else 1);
    SerialisedLater(cr, s, before, n, early, seen, start, trail.listed, trail.writes, if trail.finished then 0 else 1);
    assert trace[..|before|] == before;
  }

  lemma SerialisedLength(cr: ServerSet, s: State, trace: seq<State>, n: nat, seen: seq<Observation>, start: nat,
                         items: seq<Item>, writes: seq<Write>, open: nat)
    requires Serialised(cr, s, trace, n, seen, start, items, writes, open)
    ensures |trace| == n + |writes|
  {
    hide Gated, Confirmed, ServerUpdate.Describes;
  }

  /** A successful step leaves servers that fit. */
  lemma StepServersFit(cr: ServerSet, master: int, s: State, t: State, p: Passage)
    requires Stepped(cr, master, s, t, p)
    ensures ServersFit(cr, t)
  {
    hide ServersTuned, ServersFit, SameShape, VolumesFit, Stale, NewFit;
    if p.pick < 0 {
      ShapeFits(cr, p.tuned, t);
    } else {
      ShapeFits(cr, p.tuned, p.mid);
      RecreatedNew(cr, p.pick, p.vv, p.sv, p.mid, t);
      NewFitFits(cr, p.mid, t);
    }
  }

  lemma RecreatedNew(cr: ServerSet, i: nat, vv: nat, sv: nat, s: State, t: State)
    requires Recreated(cr, i, vv, sv, s, t)
    ensures NewFit(cr, s, t)
  {
    hide NewFit, Sole, OnlyReplica, Complete, ServerAfter, VolumeKey, ServerKey, NewVolume;
  }

  lemma TunedKeeps(cr: ServerSet, s: State, t: State, trace: seq<State>, n: nat)
    requires WellFormed(cr, s) && ServersTuned(cr, s, t) && AllTuned(cr, s, trace, n)
    ensures WellFormed(cr, t) && KeepsAll(cr, s, t) && AllKeep(cr, s, trace, n)
  {
    hide WellFormed, ServersTuned, KeepsAll, SameShape;
    TunedWellFormed(cr, s, t);
    TunedIsShape(cr, s, t);
    ShapeKeeps(cr, s, t);
    forall e | n <= e < |trace| ensures KeepsAll(cr, s, trace[e]) {
      TunedIsShape(cr, s, trace[e]);
      ShapeKeeps(cr, s, trace[e]);
    }
  }

  /** Servers that fit are not changed by anything that only updates in place. */
  lemma ShapeFits(cr: ServerSet, s: State, t: State)
    requires SameShape(cr, s, t) && ServersFit(cr, s)
    ensures ServersFit(cr, t)
  {
    forall k: Key | k in t.objs && k.kind.ServerKind? && t.objs[k].spec.ServerSpec?
      ensures t.objs[k] == Retuned(cr, t.objs[k])
    {
      assert SameUpToTemplate(cr, k, s.objs[k], t.objs[k]);
    }
  }

  lemma SettledFits(cr: ServerSet, master: int, s: State, t: State, p: Passage)
    requires Stepped(cr, master, s, t, p) && p.pick < 0
    ensures Fitting(cr, t)
  {
    hide ServersTuned, ServersFit, SameShape, VolumesFit, Stale;
    ShapeFits(cr, p.tuned, t);
  }

  lemma NewVolumeAppears(cr: ServerSet, i: nat, vv: nat, sv: nat, s: State, t: State)
    requires Recreated(cr, i, vv, sv, s, t)
    ensures VolumeKey(cr, i, vv + 1) !in s.objs && VolumeKey(cr, i, vv + 1) in t.objs
  {
    hide VolumeKey, ServerKey, OnlyReplica, Complete, NewVolume, ServerAfter, NewFit;
    SoleIsFresh(cr, i, vv, sv, s);
  }

  /** An Update that succeeds and leaves the store as it was had nothing to write. */
  lemma UnchangedWasFitting(cr: ServerSet, master: int, s: State, p: Passage)
    requires Stepped(cr, master, s, s, p)
    ensures Fitting(cr, s)
  {
    hide ServersFit, VolumesFit, Stale, Recreated, VolumeKey, SameUpToTemplate, Fitting;
    if p.pick < 0 {
      SettledFits(cr, master, s, s, p);
    } else {
      NewVolumeAppears(cr, p.pick, p.vv, p.sv, p.mid, s);
      assert false;
    }
  }

  /** Servers have their volumes, and replicas whose volume is stale are complete: what Update needs to go
      through when nothing fails. */
  ghost predicate Standing(cr: ServerSet, st: State) {
    VolumesForServers(st) && StaleAreComplete(cr, st)
  }

  lemma TunedStanding(cr: ServerSet, s: State, t: State)
    requires ServersTuned(cr, s, t) && StaleAreComplete(cr, s)
    ensures StaleAreComplete(cr, t)
  {
    hide ServersTuned, SameShape, CompleteAtSome, Stale, StaleAreComplete;
    TunedIsShape(cr, s, t);
    ShapeStanding(cr, s, t);
  }

  lemma ShapeStanding(cr: ServerSet, s: State, t: State)
    requires SameShape(cr, s, t) && StaleAreComplete(cr, s)
    ensures StaleAreComplete(cr, t)
  {
    hide SameShape, CompleteAtSome, Stale;
    forall i: nat | Stale(cr, t, i) ensures CompleteAtSome(cr, i, t) {
      ShapeStale(cr, s, t, i);
      StillComplete(cr, s, t, i);
    }
  }

  lemma PromptReports(cr: ServerSet, parse: string -> Option<nat>, stateMap: MapRead, servers: seq<Item>)
    requires stateMap.Read? && forall j :: 0 <= j < |servers| ==>
              ReportsRunning(parse, stateMap.data, servers[j].key.name, 0)
    ensures AllReport(cr, parse, stateMap, servers)
  {
    hide ReportsRunning;
  }

  /** The set exists in full, and nothing else of it does. */
  ghost predicate Exact(cr: ServerSet, vs: ReplicaVersions, st: State) {
    AllWhole(cr, vs, st, cr.replicas) && NoStrangers(cr, st)
  }

  // ---------- Update without the statuses ----------

  /** reconcileVolumesFromTemplate: the leader is read off the statuses. */
  method ReconcileVolumesFromTemplate(kube: Kube, w: Watch, cr: ServerSet, statuses: seq<ReplicaStatus>)
      returns (ok: bool, ghost p: Passage, ghost x: Exchange)
    requires WellFormed(cr, kube.st) && RulesActive(cr)
    modifies kube, w`seen, w`clock
    ensures old(w.seen) <= w.seen && old(w.clock) <= w.clock
    ensures ok ==> NoFailureSince(w.seen, |old(w.seen)|)
    ensures KeepsAll(cr, old(kube.st), kube.st)
    ensures old(kube.trace) <= kube.trace && AllKeep(cr, old(kube.st), kube.trace, |old(kube.trace)|)
    ensures OneExchange(cr, IdentityOf(statuses), old(kube.st), kube.st, kube.trace, |old(kube.trace)|, w.seen,
                        w.startTime, x)
    ensures p.tuned == old(kube.st)
    ensures ok ==> Round(cr, IdentityOf(statuses), p.tuned, kube.st, p.pick, p.mid, p.vv, p.sv)
    ensures VolumesFit(cr, old(kube.st)) ==> kube.st == old(kube.st) && kube.trace == old(kube.trace)
    ensures w.Prompt() && kube.reliable && StaleAreComplete(cr, old(kube.st)) ==>
              && Round(cr, IdentityOf(statuses), p.tuned, kube.st, p.pick, p.mid, p.vv, p.sv)
              && (p.pick < 0 || !WaitsForRemoved(cr) ==> ok)
    ensures w.quiet && WaitsForRemoved(cr) && p.pick >= 0 ==> !ok
  {
    hide WellFormed, RulesActive, Lists, KeepsAll, AllKeep, VolumesFit, Round, OneExchange, StaleAreComplete;
    hide NoFailureSince, FirstStale, Jammed, AllShape, SameShape;
    ghost var s := kube.st;
    p := Passage(s, s, -1, 0, 0);
    KeepsStart(cr, s);
    NoTraceKeeps(cr, s, kube.trace);
    NothingShaped(cr, s, kube.trace);
    NoExchange(cr, IdentityOf(statuses), s, s, kube.trace, |kube.trace|, w.seen, w.startTime);
    x := Exchange(|kube.trace|, s, -1, []);
    var volumes := kube.List(AllOf(VolumeKind));
    if volumes.None? {
      return false, p, x;
    }
    var masterIndex := GetIdentityFromStatus(statuses);
    ghost var pick, mid, vv, sv, first;
    ok, pick, mid, vv, sv, x, first := UpdateOrRecreateVolumes(kube, w, cr, volumes.value, masterIndex);
    p := Passage(s, mid, pick, vv, sv);
  }

  lemma NothingShaped(cr: ServerSet, s: State, trace: seq<State>)
    ensures SameShape(cr, s, s) && AllShape(cr, s, trace, |trace|)
  {
  }

  /** First the servers, then the volumes. */
  method UpdateStore(kube: Kube, w: Watch, cr: ServerSet, statuses: seq<ReplicaStatus>)
      returns (ok: bool, ghost p: Passage, ghost trail: Trail)
    requires WellFormed(cr, kube.st) && RulesActive(cr)
    modifies kube, w`seen, w`clock
    ensures Trailed(cr, IdentityOf(statuses), old(kube.st), kube.st, kube.trace, |old(kube.trace)|, w.seen, w.startTime,
                    trail)
    ensures Timed(trail.writes, old(w.clock), w.clock)
    ensures old(w.seen) <= w.seen && (ok ==> NoFailureSince(w.seen, |old(w.seen)|))
    ensures KeepsAll(cr, old(kube.st), kube.st)
    ensures old(kube.trace) <= kube.trace && AllKeep(cr, old(kube.st), kube.trace, |old(kube.trace)|)
    ensures ok ==> Stepped(cr, IdentityOf(statuses), old(kube.st), kube.st, p)
    ensures Fitting(cr, old(kube.st)) ==> kube.st == old(kube.st) && kube.trace == old(kube.trace)
    ensures ok && !Fitting(cr, old(kube.st)) ==> kube.st != old(kube.st)
    ensures kube.reliable && w.Prompt() && Standing(cr, old(kube.st)) ==>
              && Stepped(cr, IdentityOf(statuses), old(kube.st), kube.st, p)
              && (!WaitsForRemoved(cr) || AllCurrent(cr, old(kube.st)) ==> ok)
              && (w.quiet ==> (ok <==> !WaitsForRemoved(cr) || AllCurrent(cr, old(kube.st))))
  {
    hide WellFormed, RulesActive, Lists, KeepsAll, AllKeep, ServersTuned, AllTuned, ServersFit, VolumesFit;
    hide Serialised, Round, SameShape, Stepped, VolumesForServers, StaleAreComplete, AllCurrent;
    hide Trailed, OneExchange, AllShape, Timed, NoFailureSince, StoppedAt;
    ghost var s, n, master := kube.st, |kube.trace|, IdentityOf(statuses);
    p := Passage(s, s, -1, 0, 0);
    ghost var items, writes, stopped;
    ok, items, writes, stopped := UpdateServersFromTemplate(kube, w, cr);
    ghost var tuned, before, seen, clock := kube.st, kube.trace, w.seen, w.clock;
    TunedKeeps(cr, s, tuned, before, n);
    if StaleAreComplete(cr, s) { TunedStanding(cr, s, tuned); }
    trail := FirstTrail(cr, master, s, tuned, before, n, seen, w.startTime, items, writes, ok);
    if !ok {
      return;
    }
    ghost var x;
    ok, p, x := ReconcileVolumesFromTemplate(kube, w, cr, statuses);
    KeepsTransitive(cr, s, tuned, kube.st);
    KeepJoined(cr, s, tuned, before, kube.trace, n);
    trail := WholeTrail(cr, master, s, tuned, kube.st, before, kube.trace, n, seen, w.seen, w.startTime,
                        items, writes, x);
    TimedLater(writes, old(w.clock), clock, w.clock);
    if ok { NoFailureJoined(seen, w.seen, |old(w.seen)|); }
    if ok || (kube.reliable && w.Prompt() && Standing(cr, s)) {
      StepMade(cr, master, s, kube.st, p);
      PickIffStale(cr, master, s, kube.st, p);
    }
    if ok && kube.st == s { UnchangedWasFitting(cr, master, s, p); }
  }

  lemma FirstTrail(cr: ServerSet, master: int, s: State, tuned: State, before: seq<State>, n: nat,
                   seen: seq<Observation>, start: nat, items: seq<Item>, writes: seq<Write>, finished: bool)
      returns (trail: Trail)
    requires n <= |before| && ServersTuned(cr, s, tuned) && AllTuned(cr, s, before, n)
    requires Serialised(cr, s, before, n, seen, start, items, writes, if finished then 0 else 1)
    requires writes != [] ==> Lists(s, AllOf(ServerKind), items)
    requires finished ==> ServersFit(cr, tuned)
    ensures Trailed(cr, master, s, tuned, before, n, seen, start, trail) && trail.writes == writes
  {
    hide ServersTuned, AllTuned, Serialised, Lists, ServersFit, Trailed, OneExchange, AllShape, SameShape;
    TunedIsShape(cr, s, tuned);
    TunedShapes(cr, s, before, n);
    NoExchange(cr, master, s, tuned, before, n, seen, start);
    trail := Trail(items, writes, finished, Exchange(|before|, tuned, -1, []));
    MakeTrail(cr, master, s, tuned, before, before, n, seen, seen, start, trail);
  }

  lemma WholeTrail(cr: ServerSet, master: int, s: State, tuned: State, t: State, before: seq<State>, trace: seq<State>,
                   n: nat, early: seq<Observation>, seen: seq<Observation>, start: nat, items: seq<Item>,
                   writes: seq<Write>, x: Exchange) returns (trail: Trail)
    requires n <= |before| && before <= trace && early <= seen
    requires ServersTuned(cr, s, tuned) && AllTuned(cr, s, before, n) && ServersFit(cr, tuned)
    requires Serialised(cr, s, before, n, early, start, items, writes, 0)
    requires writes != [] ==> Lists(s, AllOf(ServerKind), items)
    requires OneExchange(cr, master, tuned, t, trace, |before|, seen, start, x)
    ensures Trailed(cr, master, s, t, trace, n, seen, start, trail) && trail.writes == writes
  {
    hide ServersTuned, AllTuned, Serialised, Lists, ServersFit, Trailed, OneExchange, AllShape, SameShape;
    TunedIsShape(cr, s, tuned);
    TunedShapes(cr, s, before, n);
    ExchangeMid(cr, master, tuned, t, trace, |before|, seen, start, x);
    ShapeFits(cr, tuned, x.mid);
    ExchangeJoined(cr, master, s, tuned, t, before, trace, n, seen, start, x);
    trail := Trail(items, writes, true, x);
    MakeTrail(cr, master, s, t, before, trace, n, early, seen, start, trail);
  }

  // ---------- the calls ----------

  class External {
    const kube: Kube
    const watch: Watch
    var statuses: seq<ReplicaStatus>
    /** The external name is set: an earlier Create went through. */
    var named: bool

    constructor (kube: Kube, watch: Watch)
      ensures this.kube == kube && this.watch == watch && statuses == [] && !named
    {
      this.kube, this.watch, statuses, named := kube, watch, [], false;
    }

    /** Writes nothing to the store. The lists speak for it: the set exists exactly if the counts match, as they
        do when it is there in full, at the versions `vs`; it is available exactly if everything is up and Update
        has nothing to write; with everything up it is up to date exactly if Update has nothing to write; the diff
        is empty exactly if the counts match and nothing shown differs. None is an error. */
    method Observe(cr: ServerSet, identity: Identity, ghost vs: ReplicaVersions)
        returns (r: Option<Verdict>, ghost seenMap: MapRead, ghost reached: bool)
      requires WellFormed(cr, kube.st)
      modifies this`statuses
      ensures !named ==> statuses == old(statuses) && r == Some(Verdict(false, false, false, false, ""))
      ensures named && r.Some? ==> (
        && (r.value.present <==> Counted(cr, kube.st)) && (Exact(cr, vs, kube.st) ==> r.value.present)
        && (r.value.available <==> StoreUp(cr, watch.parse, seenMap, kube.st) && Fitting(cr, kube.st))
        && (r.value.available ==> r.value.upToDate) && (!r.value.upToDate ==> !Fitting(cr, kube.st))
        && (StoreUp(cr, watch.parse, seenMap, kube.st) ==> (r.value.upToDate <==> Fitting(cr, kube.st)))
        && (r.value.diff == "" <==> Counted(cr, kube.st) && StorePlain(cr, kube.st))
        && (r.value.present && r.value.available ==> r.value.diff == ""))
      ensures named && r.Some? ==> StatusesOf(kube.st, identity, statuses, reached)
      ensures named && r.Some? && reached ==> LeaderIs(kube.st, identity, IdentityOf(statuses))
      ensures kube.reliable && watch.Prompt() ==> r.Some? && (named ==> reached)
    {
      hide WellFormed, Lists, Exact, AllServers, AllVolumes, StoreUp, EverythingUp, NothingToWrite, LeaderIs;
      hide Status.Describes;
      hide ServersFit, VolumesFit, AllReport, ServersCurrent, VolumesCurrent, ErrorFirst, NoDifference, StorePlain;
      hide AllCounted, Counted, StatusesOf;
      seenMap, reached := MapRead.Unreadable, false;
      if !named {
        return Some(Verdict(false, false, false, false, "")), seenMap, false;
      }
      var servers := kube.List(AllOf(ServerKind));
      if servers.None? {
        return None, seenMap, false;
      }
      statuses, reached := PopulateReplicasStatuses(kube, cr, identity, servers.value, statuses);
      FromList(kube.st, identity, servers.value, statuses, reached);
      if reached { IdentityIsLeader(cr, kube.st, identity, servers.value, statuses); }
      var stateMap := ReadStateMap(kube, watch, servers.value);
      if watch.Prompt() && kube.reliable { PromptReports(cr, watch.parse, stateMap, servers.value); }
      seenMap := stateMap;
      var volumes := kube.List(AllOf(VolumeKind));
      var nics := kube.List(AllOf(NicKind));
      if volumes.None? || nics.None? {
        return None, seenMap, reached;
      }
      ListedSpecs(cr, kube.st, servers.value, volumes.value);
      var v := Judge(cr, watch.parse, stateMap, servers.value, volumes.value, |nics.value|);
      if v.err {
        return None, seenMap, reached;
      }
      ListedUp(cr, watch.parse, stateMap, kube.st, servers.value, volumes.value);
      NothingToWriteInStore(cr, kube.st, servers.value, volumes.value);
      ListedCounts(cr, kube.st, servers.value, volumes.value, nics.value);
      ListedPlain(cr, kube.st, servers.value, volumes.value);
      if Exact(cr, vs, kube.st) { ExactCounts(cr, vs, kube.st, servers.value, volumes.value, nics.value); }
      return Some(v), seenMap, reached;
    }

    /** The set may be given its name only when every replica was ensured. What it makes has the template's
        parameters, whatever it reports: Update has nothing to write after a Create from the empty store. */
    method Create(cr: ServerSet, ghost vs: ReplicaVersions) returns (ok: bool)
      requires WellFormed(cr, kube.st) && RulesActive(cr) && forall i: nat :: ZeroWithoutVolume(kube.st, i)
      modifies this`named, kube
      ensures KeepsAll(cr, old(kube.st), kube.st)
      ensures old(kube.trace) <= kube.trace && AllKeep(cr, old(kube.st), kube.trace, |old(kube.trace)|)
      ensures named == (old(named) || ok)
      ensures NewFit(cr, old(kube.st), kube.st) && (Fitting(cr, old(kube.st)) ==> Fitting(cr, kube.st))
      ensures ok && AllBegun(cr, vs, old(kube.st), 0) && NoStrangers(cr, old(kube.st)) ==> (
        && Exact(cr, vs, kube.st) && IdsAsFound(cr, vs, old(kube.st), kube.st, cr.replicas))
      ensures ok && Exact(cr, vs, old(kube.st)) ==> kube.st.objs == old(kube.st).objs
      ensures ok && AllBegun(cr, vs, old(kube.st), 0) ==> AllResumable(cr, vs, old(kube.st))
      ensures kube.reliable && AllBegun(cr, vs, old(kube.st), 0) ==> (ok <==> AllResumable(cr, vs, old(kube.st)))
    {
      hide WellFormed, ZeroWithoutVolume, KeepsAll, AllKeep, AllWhole, AllBegun, AllComplete, IdsAsFound;
      hide NoStrangers, RulesActive;
      hide AllResumable, NewFit, ServersFit, VolumesFit;
      ghost var stopped;
      ok, stopped := Creation.Create(kube, cr, vs);
      NewFitFits(cr, old(kube.st), kube.st);
      if ok {
        named := true;
      }
    }

    /** `master` is the leader as the statuses had it. Whatever it reports: nothing but servers is written before
        all of them fit, their reboots do not overlap, and at most one replica is exchanged, the leader only when
        no other is stale, and only after the servers were seen running. When nothing fails outside, an Update of a complete set
        is a step of the rollout in any case, and it succeeds unless it waits for a server it has removed; if
        removed servers have left old reports only, it then fails after the replica was recreated. */
    method Update(cr: ServerSet, identity: Identity)
        returns (ok: bool, ghost master: int, ghost p: Passage, ghost reached: bool, ghost trail: Trail)
      requires WellFormed(cr, kube.st) && RulesActive(cr)
      modifies this`statuses, kube, watch
      ensures Trailed(cr, master, old(kube.st), kube.st, kube.trace, |old(kube.trace)|,
                      watch.seen, watch.startTime, trail)
      ensures Timed(trail.writes, old(watch.clock), watch.clock)
      ensures ok ==> old(watch.seen) <= watch.seen && NoFailureSince(watch.seen, |old(watch.seen)|)
      ensures ok && named ==> ServersFit(cr, kube.st) && StatusesOf(kube.st, identity, statuses, reached)
      ensures !ok ==> statuses == old(statuses)
      ensures KeepsAll(cr, old(kube.st), kube.st)
      ensures old(kube.trace) <= kube.trace && AllKeep(cr, old(kube.st), kube.trace, |old(kube.trace)|)
      ensures master == IdentityOf(old(statuses))
      ensures !named ==> ok && statuses == old(statuses)
      ensures ok && named ==> Stepped(cr, master, old(kube.st), kube.st, p)
      ensures !named || Fitting(cr, old(kube.st)) ==> kube.st == old(kube.st) && kube.trace == old(kube.trace)
      ensures ok && named && !Fitting(cr, old(kube.st)) ==> kube.st != old(kube.st)
      ensures ok && named && reached ==> LeaderIs(kube.st, identity, IdentityOf(statuses))
      ensures kube.reliable && watch.Prompt() && named && Standing(cr, old(kube.st)) ==>
                && Stepped(cr, master, old(kube.st), kube.st, p)
                && (!WaitsForRemoved(cr) || AllCurrent(cr, old(kube.st)) ==> ok && reached)
      ensures kube.reliable && watch.Prompt() && watch.quiet && named && Standing(cr, old(kube.st)) ==>
                (ok <==> !WaitsForRemoved(cr) || AllCurrent(cr, old(kube.st)))
    {
      hide WellFormed, RulesActive, Lists, KeepsAll, AllKeep, Fitting, AllCurrent, Standing, LeaderIs, Stepped;
      hide Trailed, Timed, NoFailureSince, StatusesOf, ServersFit, Status.Describes;
      ghost var s, n := kube.st, |kube.trace|;
      master, reached := IdentityOf(statuses), false;
      if !named {
        KeepsStart(cr, s);
        NoTraceKeeps(cr, s, kube.trace);
        NoFailureYet(watch.seen);
        trail := NoTrail(cr, master, s, kube.trace, watch.seen, watch.startTime, watch.clock);
        return true, master, Passage(s, s, -1, 0, 0), false, trail;
      }
      ok, p, trail := UpdateStore(kube, watch, cr, statuses);
      if !ok {
        return;
      }
      StepServersFit(cr, master, s, kube.st, p);
      KeepsWellFormed(cr, s, kube.st);
      var servers := kube.List(AllOf(ServerKind));
      if servers.None? {
        return false, master, p, false, trail;
      }
      statuses, reached := PopulateReplicasStatuses(kube, cr, identity, servers.value, statuses);
      FromList(kube.st, identity, servers.value, statuses, reached);
      if reached { IdentityIsLeader(cr, kube.st, identity, servers.value, statuses); }
    }

    /** Any sequence of calls. The set need not be complete, calls may fail anywhere, the lease may move and
        the template may be edited between them, as long as the names and the NICs stay. */
    method AnyCalls(cr: ServerSet, calls: seq<Call>)
      requires WellFormed(cr, kube.st) && RulesActive(cr) && forall i: nat :: ZeroWithoutVolume(kube.st, i)
      requires forall j :: 0 <= j < |calls| ==> SameNames(cr, calls[j].cr)
      modifies this, kube, watch
      ensures KeepsAll(cr, old(kube.st), kube.st)
      ensures old(kube.trace) <= kube.trace && AllKeep(cr, old(kube.st), kube.trace, |old(kube.trace)|)
    {
      hide WellFormed, KeepsAll, AllKeep, ZeroWithoutVolume, Exact, StoreUp, Fitting, LeaderIs, Stepped, SameNames;
      hide AllBegun, NoStrangers, IdsAsFound, RulesActive, AllResumable, Standing, AllCurrent;
      ghost var s, n := kube.st, |kube.trace|;
      KeepsStart(cr, s);
      NoTraceKeeps(cr, s, kube.trace);
      for j := 0 to |calls|
        invariant KeepsAll(cr, s, kube.st)
        invariant old(kube.trace) <= kube.trace && AllKeep(cr, s, kube.trace, n)
      {
        ghost var t, mid := kube.st, kube.trace;
        ZeroEverywhere(cr, s, t);
        SameNamesFits(cr, calls[j].cr, t);
        KeepsStart(calls[j].cr, t);
        NoTraceKeeps(calls[j].cr, t, mid);
        match calls[j] {
          case CallObserve(template, identity) => var _, _, _ := Observe(template, identity, ReplicaVersions([], []));
          case CallCreate(template) => var _ := Create(template, ReplicaVersions([], []));
          case CallUpdate(template, identity) => var _, _, _, _, _ := Update(template, identity);
        }
        SameNamesKeep(cr, calls[j].cr, t, kube.st, kube.trace, |mid|);
        KeepsTransitive(cr, s, t, kube.st);
        KeepJoined(cr, s, t, mid, kube.trace, n);
      }
    }
  }

  /** A call with the template as it is at the time. */
  datatype Call =
    | CallObserve(cr: ServerSet, identity: Identity)
    | CallCreate(cr: ServerSet)
    | CallUpdate(cr: ServerSet, identity: Identity)

  /** The templates name the same objects. */
  ghost predicate SameNames(cr: ServerSet, other: ServerSet) {
    other.serverBase == cr.serverBase && other.volumeBase == cr.volumeBase && other.nics == cr.nics
  }

  lemma SameNamesWant(cr: ServerSet, other: ServerSet)
    requires SameNames(cr, other)
    ensures forall i: nat, vv: nat, sv: nat, k :: InDesired(cr, i, vv, sv, k) <==> InDesired(other, i, vv, sv, k)
    ensures forall i: nat, v: nat :: ServerKey(cr, i, v) == ServerKey(other, i, v)
    ensures forall i: nat, v: nat :: VolumeKey(cr, i, v) == VolumeKey(other, i, v)
  {
    hide Owner, VersionOf, NicOf, RuleOf;
  }

  lemma SameNamesMade(cr: ServerSet, other: ServerSet, k: Key, o: Obj)
    requires SameNames(cr, other)
    ensures Made(cr, k, o) <==> Made(other, k, o)
  {
    hide InDesired, Owner, VersionOf, SameNames, ServerKey, VolumeKey;
    SameNamesWant(cr, other);
  }

  lemma SameNamesFits(cr: ServerSet, other: ServerSet, st: State)
    requires SameNames(cr, other)
    ensures WellFormed(cr, st) <==> WellFormed(other, st)
    ensures RulesActive(cr) <==> RulesActive(other)
  {
    hide Made;
    forall k | k in st.objs ensures Made(cr, k, st.objs[k]) <==> Made(other, k, st.objs[k]) {
      SameNamesMade(cr, other, k, st.objs[k]);
    }
  }

  lemma SameNamesServed(cr: ServerSet, other: ServerSet, i: nat, st: State)
    requires SameNames(cr, other)
    ensures InService(cr, i, st) <==> InService(other, i, st)
  {
    hide InDesired, SameNames, ServerKey, VolumeKey;
    SameNamesWant(cr, other);
    forall vv: nat, sv: nat ensures ServedWith(cr, i, vv, sv, st) <==> ServedWith(other, i, vv, sv, st) {
    }
  }

  lemma SameNamesKeep(cr: ServerSet, other: ServerSet, s: State, t: State, trace: seq<State>, n: nat)
    requires SameNames(cr, other) && KeepsAll(other, s, t) && AllKeep(other, s, trace, n)
    ensures KeepsAll(cr, s, t) && AllKeep(cr, s, trace, n)
  {
    hide KeepsAll, SameNames;
    SameNamesKeeps(cr, other, s, t);
    forall e | n <= e < |trace| ensures KeepsAll(cr, s, trace[e]) {
      SameNamesKeeps(cr, other, s, trace[e]);
    }
  }

  lemma SameNamesKeeps(cr: ServerSet, other: ServerSet, s: State, t: State)
    requires SameNames(cr, other) && KeepsAll(other, s, t)
    ensures KeepsAll(cr, s, t)
  {
    hide WellFormed, InService, Jammed, SameKeys, ZeroWithoutVolume, SameNames;
    SameNamesFits(cr, other, t);
    forall i: nat | InService(cr, i, s) ensures InService(cr, i, t) {
      SameNamesServed(cr, other, i, s);
      SameNamesServed(cr, other, i, t);
    }
  }

  /** No boot volume is stale. */
  ghost predicate AllCurrent(cr: ServerSet, st: State) {
    forall i :: !Stale(cr, st, i)
  }

  /** A step recreates a replica exactly if some boot volume was stale. */
  lemma PickIffStale(cr: ServerSet, master: int, s: State, t: State, p: Passage)
    requires Stepped(cr, master, s, t, p)
    ensures p.pick < 0 <==> AllCurrent(cr, s)
  {
    hide ServersTuned, ServersFit, SameShape, VolumesFit, Stale, Recreated;
    TunedIsShape(cr, s, p.tuned);
    forall i ensures Stale(cr, s, i) <==> Stale(cr, p.tuned, i) { ShapeStale(cr, s, p.tuned, i); }
  }

  lemma ExactCounts(cr: ServerSet, vs: ReplicaVersions, st: State, servers: seq<Item>, volumes: seq<Item>,
                    nics: seq<Item>)
    requires Exact(cr, vs, st)
    requires Lists(st, AllOf(ServerKind), servers) && Lists(st, AllOf(VolumeKind), volumes)
    requires Lists(st, AllOf(NicKind), nics)
    ensures AllCounted(cr, |servers|, |volumes|, |nics|)
  {
    hide AllWhole, NoStrangers, Lists;
    WholeCounts(cr, vs, st, servers, volumes, nics);
  }

  lemma NoTraceKeeps(cr: ServerSet, s: State, trace: seq<State>)
    ensures AllKeep(cr, s, trace, |trace|)
  {
  }

  lemma StepMade(cr: ServerSet, master: int, s: State, t: State, p: Passage)
    requires ServersTuned(cr, s, p.tuned) && ServersFit(cr, p.tuned)
    requires Round(cr, master, p.tuned, t, p.pick, p.mid, p.vv, p.sv)
    ensures Stepped(cr, master, s, t, p)
  {
  }

  lemma KeepsWellFormed(cr: ServerSet, s: State, t: State)
    requires KeepsAll(cr, s, t)
    ensures WellFormed(cr, t)
  {
    hide WellFormed;
  }
}
