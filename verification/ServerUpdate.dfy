/** Bringing the servers to the template, one reboot at a time. */
module ServerUpdate {
  import opened Wrappers
  import opened Names
  import opened Store
  import opened Desired
  import opened Service
  import opened Versions
  import opened Failover

  /** The server with the parameters of the template. */
  function Retuned(cr: ServerSet, o: Obj): Obj
    requires o.spec.ServerSpec?
  {
    o.(spec := ServerSpec(cr.cores, cr.ram, cr.cpuFamily, cr.nicMultiQueue, o.spec.volumeId))
  }

  /** A parameter that the boot volume cannot take while running would change. */
  predicate NeedsFailover(cr: ServerSet, server: Spec, volume: Spec)
    requires server.ServerSpec? && volume.VolumeSpec?
  {
    || (server.ram != cr.ram && !volume.ramHotPlug)
    || ((server.cores != cr.cores || server.cpuFamily != cr.cpuFamily) && !volume.cpuHotPlug)
    || server.nicMultiQueue != cr.nicMultiQueue
  }

  /** Compares field by field and brings each field that differs to the template. */
  method CheckServerDiff(current: Obj, cr: ServerSet, bootVolume: Obj)
      returns (server: Obj, update: bool, failover: bool)
    requires current.spec.ServerSpec? && bootVolume.spec.VolumeSpec?
    ensures server == Retuned(cr, current)
    ensures update <==> Retuned(cr, current) != current
    ensures failover <==> NeedsFailover(cr, current.spec, bootVolume.spec)
  {
    server, update, failover := current, false, false;
    if server.spec.ram != cr.ram {
      update := true;
      server := server.(spec := server.spec.(ram := cr.ram));
      if !bootVolume.spec.ramHotPlug {
        failover := true;
      }
    }
    if server.spec.cores != cr.cores {
      update := true;
      server := server.(spec := server.spec.(cores := cr.cores));
      if !bootVolume.spec.cpuHotPlug {
        failover := true;
      }
    }
    if server.spec.cpuFamily != cr.cpuFamily {
      update := true;
      server := server.(spec := server.spec.(cpuFamily := cr.cpuFamily));
      if !bootVolume.spec.cpuHotPlug {
        failover := true;
      }
    }
    if server.spec.nicMultiQueue != cr.nicMultiQueue {
      update := true;
      server := server.(spec := server.spec.(nicMultiQueue := cr.nicMultiQueue));
      failover := true;
    }
  }

  /** A change of one parameter alone: memory looks at the memory flag, cores and family at the one for the
      processor, and multi-queue always needs a failover. */
  lemma FlagsConsulted(cr: ServerSet, server: Spec, volume: Spec)
    requires server.ServerSpec? && volume.VolumeSpec?
    ensures DiffersIn(cr, server, false, false, false) ==> !NeedsFailover(cr, server, volume)
    ensures DiffersIn(cr, server, true, false, false) ==> (NeedsFailover(cr, server, volume) <==> !volume.ramHotPlug)
    ensures DiffersIn(cr, server, false, true, false) ==> (NeedsFailover(cr, server, volume) <==> !volume.cpuHotPlug)
    ensures DiffersIn(cr, server, false, false, true) ==> (NeedsFailover(cr, server, volume) <==> !volume.cpuHotPlug)
    ensures server.nicMultiQueue != cr.nicMultiQueue ==> NeedsFailover(cr, server, volume)
  {
  }

  /** Exactly these parameters differ from the template. */
  predicate DiffersIn(cr: ServerSet, server: Spec, ram: bool, cores: bool, cpuFamily: bool)
    requires server.ServerSpec?
  {
    && (server.ram != cr.ram <==> ram) && (server.cores != cr.cores <==> cores)
    && (server.cpuFamily != cr.cpuFamily <==> cpuFamily) && server.nicMultiQueue == cr.nicMultiQueue
  }

  /** The other fields of a server that fits are the template's, one by one. */
  lemma FittingServer(cr: ServerSet, o: Obj)
    requires o.spec.ServerSpec?
    ensures Retuned(cr, o) == o <==> SpecNew(cr, o.spec)
  {
  }

  // ---------- what the loop does to the store ----------

  /** Some servers were brought to the template; nothing else changed. */
  ghost predicate ServersTuned(cr: ServerSet, s: State, t: State) {
    && t.nextId == s.nextId
    && (forall k :: k in s.objs <==> k in t.objs)
    && (forall k :: k in s.objs && t.objs[k] != s.objs[k] ==>
          k.kind.ServerKind? && s.objs[k].spec.ServerSpec? && t.objs[k] == Retuned(cr, s.objs[k]))
  }

  lemma TunedStart(cr: ServerSet, s: State)
    ensures ServersTuned(cr, s, s)
  {
  }

  lemma TunedNext(cr: ServerSet, s: State, t: State, k: Key)
    requires ServersTuned(cr, s, t) && k in t.objs && k.kind.ServerKind? && t.objs[k].spec.ServerSpec?
    ensures ServersTuned(cr, s, t.(objs := t.objs[k := Retuned(cr, t.objs[k])]))
  {
  }

  lemma TunedWellFormed(cr: ServerSet, s: State, t: State)
    requires WellFormed(cr, s) && ServersTuned(cr, s, t)
    ensures WellFormed(cr, t)
  {
    hide InDesired, Owner, VersionOf;
    forall k | k in t.objs ensures Made(cr, k, t.objs[k]) && t.objs[k].id < t.nextId {
      assert Made(cr, k, s.objs[k]);
    }
  }

  // ---------- one server ----------

  /** A write of the loop: which server, its object and its boot volume before, and when it was requested. */
  datatype Write = Write(key: Key, before: Obj, volume: Obj, requested: nat)

  ghost predicate Reboots(cr: ServerSet, w: Write) {
    w.before.spec.ServerSpec? && w.volume.spec.VolumeSpec? && NeedsFailover(cr, w.before.spec, w.volume.spec)
  }

  /** Before this write every listed server was seen running, with nothing written since. */
  ghost predicate Gated(cr: ServerSet, seen: seq<Observation>, start: nat, items: seq<Item>, w: Write, at: nat) {
    Reboots(cr, w) && cr.hasStateMap ==>
      AllSeenRunning(seen, items, start, at)
  }

  /** The rebooted server was seen updated and running again after the request, before the next write. */
  ghost predicate Confirmed(cr: ServerSet, seen: seq<Observation>, w: Write, at: nat) {
    Reboots(cr, w) ==>
      && SawUpdated(seen, w.key.name, w.requested, at)
      && (cr.hasStateMap ==> SawRunning(seen, w.key.name, w.requested, at))
  }

  /** The write took the store from `s` to `t`; the volume is the only one of the server's replica. */
  ghost predicate Describes(cr: ServerSet, s: State, t: State, w: Write) {
    && w.requested > 0
    && w.key in s.objs && s.objs[w.key] == w.before && w.key.kind.ServerKind? && w.before.spec.ServerSpec?
    && t == s.(objs := s.objs[w.key := Retuned(cr, w.before)])
    && (exists k :: OnlyOne(s, Owner(w.key), VolumeKind, k) && s.objs[k] == w.volume)
  }

  lemma StillGated(cr: ServerSet, before: seq<Observation>, after: seq<Observation>, start: nat, items: seq<Item>,
                   w: Write, at: nat)
    requires before <= after
    ensures Gated(cr, before, start, items, w, at) ==> Gated(cr, after, start, items, w, at)
    ensures Confirmed(cr, before, w, at) ==> Confirmed(cr, after, w, at)
  {
    hide Reboots, SawRunning, SawUpdated;
    StillSeen(before, after);
  }

  /** The replica has exactly one boot volume. */
  ghost predicate OneVolume(st: State, i: int) {
    !NoneOf(st, i, VolumeKind) && !Several(st, i, VolumeKind)
  }

  /** Every server has the boot volume it is compared with. */
  ghost predicate VolumesForServers(st: State) {
    forall k: Key :: k in st.objs && k.kind.ServerKind? ==> OneVolume(st, Owner(k))
  }

  lemma SameKeysOneVolume(s: State, t: State, i: int)
    requires (forall k :: k in s.objs <==> k in t.objs) && OneVolume(s, i)
    ensures OneVolume(t, i)
  {
    hide Owner;
  }

  lemma TunedVolumes(cr: ServerSet, s: State, t: State)
    requires ServersTuned(cr, s, t) && VolumesForServers(s)
    ensures VolumesForServers(t)
  {
    hide Owner, OneVolume, Retuned;
    forall k: Key | k in t.objs && k.kind.ServerKind? ensures OneVolume(t, Owner(k)) {
      SameKeysOneVolume(s, t, Owner(k));
    }
  }

  lemma VolumeForServer(st: State, k: Key)
    requires VolumesForServers(st)
    ensures k in st.objs && k.kind.ServerKind? ==> OneVolume(st, Owner(k))
  {
    hide Owner, OneVolume;
  }

  /** The server's own boot volume, found through its index label. */
  method VolumeOfServer(kube: Kube, cr: ServerSet, item: Item) returns (r: Option<Obj>)
    requires WellFormed(cr, kube.st) && item.key in kube.st.objs && kube.st.objs[item.key] == item.obj
    requires item.key.kind.ServerKind?
    ensures r.Some? ==> r.value.spec.VolumeSpec?
    ensures r.Some? ==> exists k :: OnlyOne(kube.st, Owner(item.key), VolumeKind, k) && kube.st.objs[k] == r.value
    ensures kube.reliable && OneVolume(kube.st, Owner(item.key)) ==> r.Some?
  {
    hide WellFormed, OnlyOne, Owner, VersionOf, VolumeKey, ServerKey, NoneOf, Several;
    LabelsOf(cr, kube.st, item.key);
    var replicaIdx := ComputeReplicaIdx(item.obj.labels.replica);
    if replicaIdx == -1 {
      return None;
    }
    var volumeVersion := GetVersion(kube, cr, VolumeKind, replicaIdx);
    if !volumeVersion.Version? {
      return None;
    }
    OneIsThere(kube.st, replicaIdx, VolumeKind, VolumeKey(cr, replicaIdx, volumeVersion.v));
    var bootVolume := kube.Get(VolumeKey(cr, replicaIdx, volumeVersion.v));
    if !bootVolume.Found? {
      return None;
    }
    VolumeSpecOf(cr, kube.st, VolumeKey(cr, replicaIdx, volumeVersion.v));
    r := Some(bootVolume.obj);
  }

  lemma VolumeSpecOf(cr: ServerSet, st: State, k: Key)
    requires WellFormed(cr, st) && k in st.objs
    ensures k.kind.VolumeKind? ==> st.objs[k].spec.VolumeSpec?
    ensures k.kind.ServerKind? ==> st.objs[k].spec.ServerSpec?
  {
    hide InDesired, Owner, VersionOf;
    assert Made(cr, k, st.objs[k]);
  }

  /** Waits for the end of the reboot that the write has started. */
  method AwaitReboot(kube: Kube, w: Watch, cr: ServerSet, k: Key, requested: nat) returns (ok: bool)
    modifies w`seen
    ensures old(w.seen) <= w.seen
    ensures ok ==> NoFailureSince(w.seen, |old(w.seen)|)
    ensures ok ==> SawUpdated(w.seen, k.name, requested, |kube.trace|)
    ensures ok && cr.hasStateMap ==> SawRunning(w.seen, k.name, requested, |kube.trace|)
    ensures w.Prompt() && kube.reliable && k.kind.ServerKind? && k in kube.st.objs ==> ok
  {
    hide SawRunning, SawUpdated;
    ok := w.WaitUpdated(kube, requested, k);
    if !ok || !cr.hasStateMap {
      return;
    }
    ghost var before := w.seen;
    ok := w.WaitRunning(kube, requested, k.name);
    StillSeen(before, w.seen);
    if ok { NoFailureJoined(before, w.seen, |old(w.seen)|); }
  }

  method UpdateServer(kube: Kube, w: Watch, cr: ServerSet, item: Item, items: seq<Item>)
      returns (ok: bool, ghost written: Option<Write>)
    requires WellFormed(cr, kube.st) && item.key in kube.st.objs && kube.st.objs[item.key] == item.obj
    requires item.key.kind.ServerKind? && item.obj.spec.ServerSpec?
    modifies kube, w`seen, w`clock
    ensures old(w.seen) <= w.seen && old(w.clock) <= w.clock
    ensures ok ==> NoFailureSince(w.seen, |old(w.seen)|)
    ensures written.Some? ==> old(w.clock) < written.value.requested <= w.clock
    ensures written.None? ==> kube.st == old(kube.st) && kube.trace == old(kube.trace)
    ensures written.None? && ok ==> Retuned(cr, item.obj) == item.obj
    ensures Retuned(cr, item.obj) == item.obj ==> written.None?
    ensures written.Some? ==> (
      && kube.trace == old(kube.trace) + [kube.st]
      && written.value.key == item.key && Describes(cr, old(kube.st), kube.st, written.value)
      && Gated(cr, w.seen, w.startTime, items, written.value, |old(kube.trace)|)
      && (ok ==> Confirmed(cr, w.seen, written.value, |kube.trace|)))
    ensures w.Prompt() && kube.reliable && AllThere(old(kube.st), items) ==>
              (OneVolume(old(kube.st), Owner(item.key)) ==> ok)
  {
    hide WellFormed, SawRunning, SawUpdated, OnlyOne, Owner, Retuned, NeedsFailover, OneVolume;
    written := None;
    var bootVolume := VolumeOfServer(kube, cr, item);
    if bootVolume.None? {
      return false, None;
    }
    var server, update, failover := CheckServerDiff(item.obj, cr, bootVolume.value);
    if !update {
      return true, None;
    }
    if failover && cr.hasStateMap {
      var ready := w.AreAllVMsReadyForFailover(kube, items);
      if !ready {
        return false, None;
      }
    }
    ghost var seen := w.seen;
    var requestTimestamp := w.Now();
    ok := kube.Update(item.key, server);
    if kube.trace != old(kube.trace) {
      written := Some(Write(item.key, item.obj, bootVolume.value, requestTimestamp));
    }
    if ok && failover {
      ok := AwaitReboot(kube, w, cr, item.key, requestTimestamp);
      StillGated(cr, seen, w.seen, w.startTime, items, written.value, |old(kube.trace)|);
      if ok { NoFailureJoined(seen, w.seen, |old(w.seen)|); }
    }
  }

  // ---------- the loop over all servers ----------

  function Before(s: State, trace: seq<State>, n: nat, j: nat): State
    requires n + j <= |trace|
  {
    if j == 0 then s else trace[n + j - 1]
  }

  /** The writes made so far explain every state the store went through, and each reboot among them was
      gated; all but the last `open` reboots were confirmed before the next write. */
  ghost predicate Serialised(cr: ServerSet, s: State, trace: seq<State>, n: nat, seen: seq<Observation>, start: nat,
                             items: seq<Item>, writes: seq<Write>, open: nat)
  {
    && |trace| == n + |writes|
    && (forall j :: 0 <= j < |writes| ==>
          && Describes(cr, Before(s, trace, n, j), trace[n + j], writes[j])
          && Gated(cr, seen, start, items, writes[j], n + j))
    && (forall j :: 0 <= j < |writes| - open ==> Confirmed(cr, seen, writes[j], n + j + 1))
  }

  lemma SerialisedLater(cr: ServerSet, s: State, trace: seq<State>, n: nat, seen: seq<Observation>,
                        seen': seq<Observation>, start: nat, items: seq<Item>, writes: seq<Write>, open: nat)
    requires Serialised(cr, s, trace, n, seen, start, items, writes, open) && seen <= seen'
    ensures Serialised(cr, s, trace, n, seen', start, items, writes, open)
  {
    hide Describes, Gated, Confirmed;
    forall j | 0 <= j < |writes| ensures Gated(cr, seen', start, items, writes[j], n + j) {
      StillGated(cr, seen, seen', start, items, writes[j], n + j);
    }
    forall j | 0 <= j < |writes| - open ensures Confirmed(cr, seen', writes[j], n + j + 1) {
      StillGated(cr, seen, seen', start, items, writes[j], n + j + 1);
    }
  }

  lemma SerialisedSeen(cr: ServerSet, s: State, trace: seq<State>, n: nat, seen: seq<Observation>,
                       seen': seq<Observation>, start: nat, items: seq<Item>, writes: seq<Write>)
    requires Serialised(cr, s, trace, n, seen, start, items, writes, 0) && seen <= seen'
    ensures Serialised(cr, s, trace, n, seen', start, items, writes, 0)
    ensures Serialised(cr, s, trace, n, seen', start, items, writes, 1)
  {
    hide Describes, Gated, Confirmed;
    forall j | 0 <= j < |writes|
      ensures Gated(cr, seen', start, items, writes[j], n + j) && Confirmed(cr, seen', writes[j], n + j + 1)
    {
      StillGated(cr, seen, seen', start, items, writes[j], n + j);
      StillGated(cr, seen, seen', start, items, writes[j], n + j + 1);
    }
  }

  lemma SerialisedNext(cr: ServerSet, s: State, trace: seq<State>, n: nat, seen: seq<Observation>, start: nat,
                       items: seq<Item>, writes: seq<Write>, w: Write, t: State)
    requires Serialised(cr, s, trace, n, seen, start, items, writes, 0)
    requires Describes(cr, Before(s, trace, n, |writes|), t, w) && Gated(cr, seen, start, items, w, |trace|)
    ensures Serialised(cr, s, trace + [t], n, seen, start, items, writes + [w], 1)
    ensures Confirmed(cr, seen, w, |trace| + 1) ==>
              Serialised(cr, s, trace + [t], n, seen, start, items, writes + [w], 0)
  {
    hide Describes, Gated, Confirmed;
    var trace', writes' := trace + [t], writes + [w];
    forall j | 0 <= j < |writes'|
      ensures Describes(cr, Before(s, trace', n, j), trace'[n + j], writes'[j])
              && Gated(cr, seen, start, items, writes'[j], n + j)
    {
      assert Before(s, trace', n, j) == Before(s, trace, n, j);
    }
  }

  /** The writes were requested one after the other, all after `from`. */
  ghost predicate Timed(writes: seq<Write>, from: nat, upto: nat) {
    && (forall j :: 0 <= j < |writes| ==> from < writes[j].requested <= upto)
    && (forall j, k :: 0 <= j < k < |writes| ==> writes[j].requested < writes[k].requested)
  }

  lemma TimedNext(writes: seq<Write>, w: Write, from: nat, upto: nat, now: nat)
    requires Timed(writes, from, upto) && from <= upto < w.requested <= now
    ensures Timed(writes + [w], from, now)
  {
  }

  lemma TimedLater(writes: seq<Write>, from: nat, upto: nat, now: nat)
    requires Timed(writes, from, upto) && upto <= now
    ensures Timed(writes, from, now)
  {
  }

  /** The listed servers before `m` fit the template, those behind it are as listed, and the one at `m`, if it
      is not the end, is one or the other. */
  ghost predicate StoppedAt(cr: ServerSet, st: State, items: seq<Item>, m: nat) {
    && m <= |items|
    && (forall q :: 0 <= q < |items| ==> items[q].key in st.objs && items[q].obj.spec.ServerSpec?)
    && (forall q :: 0 <= q < |items| && q < m ==> st.objs[items[q].key] == Retuned(cr, items[q].obj))
    && (forall q :: m < q < |items| ==> st.objs[items[q].key] == items[q].obj)
    && (m < |items| ==> st.objs[items[m].key] == items[m].obj || st.objs[items[m].key] == Retuned(cr, items[m].obj))
  }

  lemma StopsHere(cr: ServerSet, s: State, t: State, items: seq<Item>, m: nat)
    requires TunedUpTo(cr, s, items, m) && m <= |items|
    requires t == s || (m < |items| && t == s.(objs := s.objs[items[m].key := Retuned(cr, items[m].obj)]))
    ensures StoppedAt(cr, t, items, m)
  {
    hide Retuned;
  }

  ghost predicate AllTuned(cr: ServerSet, s: State, trace: seq<State>, n: nat) {
    forall e :: n <= e < |trace| ==> ServersTuned(cr, s, trace[e])
  }

  /** The servers of the list below `j` fit the template, the others are as listed. */
  ghost predicate TunedUpTo(cr: ServerSet, st: State, items: seq<Item>, j: nat) {
    && (forall q :: 0 <= q < |items| ==>
          items[q].key in st.objs && items[q].key.kind.ServerKind? && items[q].obj.spec.ServerSpec?)
    && (forall p, q :: 0 <= p < q < |items| ==> items[p].key != items[q].key)
    && (forall q :: 0 <= q < |items| && q < j ==> st.objs[items[q].key] == Retuned(cr, items[q].obj))
    && (forall q :: j <= q < |items| ==> st.objs[items[q].key] == items[q].obj)
  }

  lemma TunedUpToStart(cr: ServerSet, st: State, items: seq<Item>)
    requires WellFormed(cr, st) && Lists(st, AllOf(ServerKind), items)
    ensures TunedUpTo(cr, st, items, 0)
  {
    hide WellFormed;
    forall q | 0 <= q < |items| ensures items[q].obj.spec.ServerSpec? && items[q].key.kind.ServerKind? {
      VolumeSpecOf(cr, st, items[q].key);
    }
  }

  lemma TunedUpToNext(cr: ServerSet, s: State, t: State, items: seq<Item>, j: nat)
    requires TunedUpTo(cr, s, items, j) && j < |items|
    requires t == s.(objs := s.objs[items[j].key := Retuned(cr, items[j].obj)])
             || (t == s && Retuned(cr, items[j].obj) == items[j].obj)
    ensures TunedUpTo(cr, t, items, j + 1)
  {
    hide Retuned;
  }

  /** Every server fits the template. */
  ghost predicate ServersFit(cr: ServerSet, st: State) {
    forall k: Key :: k in st.objs && k.kind.ServerKind? && st.objs[k].spec.ServerSpec? ==>
      st.objs[k] == Retuned(cr, st.objs[k])
  }

  lemma AllFit(cr: ServerSet, s: State, t: State, items: seq<Item>)
    requires Lists(s, AllOf(ServerKind), items) && ServersTuned(cr, s, t) && TunedUpTo(cr, t, items, |items|)
    ensures ServersFit(cr, t)
  {
    forall k: Key | k in t.objs && k.kind.ServerKind? && t.objs[k].spec.ServerSpec?
      ensures t.objs[k] == Retuned(cr, t.objs[k])
    {
      assert Matches(AllOf(ServerKind), k, s.objs[k]);
      var q :| 0 <= q < |items| && items[q].key == k;
    }
  }

  /** Updates the listed servers in list order; stops at the first that cannot be updated. */
  method UpdateListed(kube: Kube, w: Watch, cr: ServerSet, items: seq<Item>)
      returns (ok: bool, ghost writes: seq<Write>, ghost stopped: nat)
    requires WellFormed(cr, kube.st) && Lists(kube.st, AllOf(ServerKind), items)
    modifies kube, w`seen, w`clock
    ensures old(w.seen) <= w.seen && old(w.clock) <= w.clock && Timed(writes, old(w.clock), w.clock)
    ensures ok ==> NoFailureSince(w.seen, |old(w.seen)|)
    ensures StoppedAt(cr, kube.st, items, stopped) && (ok ==> stopped == |items|)
    ensures ServersTuned(cr, old(kube.st), kube.st)
    ensures old(kube.trace) <= kube.trace && AllTuned(cr, old(kube.st), kube.trace, |old(kube.trace)|)
    ensures ok ==> ServersFit(cr, kube.st)
    ensures ServersFit(cr, old(kube.st)) ==> kube.st == old(kube.st) && kube.trace == old(kube.trace)
    ensures Serialised(cr, old(kube.st), kube.trace, |old(kube.trace)|, w.seen, w.startTime, items, writes,
                       if ok then 0 else 1)
    ensures w.Prompt() && kube.reliable && VolumesForServers(old(kube.st)) ==> ok
  {
    hide WellFormed, Lists, ServersTuned, TunedUpTo, ServersFit, Serialised, Describes, Gated, Confirmed, Retuned;
    hide VolumesForServers, OneVolume, Owner, AllThere, StoppedAt, Timed, NoFailureSince;
    ghost var s, n := kube.st, |kube.trace|;
    writes, ok, stopped := [], true, 0;
    TunedStart(cr, s);
    TunedUpToStart(cr, s, items);
    SerialisedStart(cr, s, kube.trace, n, w.seen, w.startTime, items);
    SerialisedSeen(cr, s, kube.trace, n, w.seen, w.seen, w.startTime, items, writes);
    NothingTimed(w.seen, w.clock);
    for j := 0 to |items|
      invariant ok && ServersTuned(cr, s, kube.st) && TunedUpTo(cr, kube.st, items, j)
      invariant old(kube.trace) <= kube.trace && AllTuned(cr, s, kube.trace, n)
      invariant Serialised(cr, s, kube.trace, n, w.seen, w.startTime, items, writes, 0)
      invariant kube.st == if |kube.trace| > n then kube.trace[|kube.trace| - 1] else s
      invariant ServersFit(cr, s) ==> kube.st == s && kube.trace == old(kube.trace)
      invariant old(w.seen) <= w.seen && NoFailureSince(w.seen, |old(w.seen)|)
      invariant old(w.clock) <= w.clock && Timed(writes, old(w.clock), w.clock)
    {
      ghost var t, trace, seen, clock := kube.st, kube.trace, w.seen, w.clock;
      stopped := j;
      Current(cr, t, items, j);
      TunedThere(cr, t, items, j);
      if ServersFit(cr, s) { FitsAlready(cr, s, items[j]); }
      if VolumesForServers(s) {
        TunedVolumes(cr, s, t);
        VolumeForServer(t, items[j].key);
      }
      TunedWellFormed(cr, s, t);
      ghost var written;
      ok, written := UpdateServer(kube, w, cr, items[j], items);
      SerialisedSeen(cr, s, trace, n, seen, w.seen, w.startTime, items, writes);
      if written.Some? {
        BeforeIs(cr, s, trace, n, w.seen, w.startTime, items, writes, t);
        SerialisedNext(cr, s, trace, n, w.seen, w.startTime, items, writes, written.value, kube.st);
        Described(cr, t, kube.st, written.value, items[j]);
        TunedNext(cr, s, t, items[j].key);
        TimedNext(writes, written.value, old(w.clock), clock, w.clock);
        writes := writes + [written.value];
      } else {
        TimedLater(writes, old(w.clock), clock, w.clock);
      }
      StopsHere(cr, t, kube.st, items, j);
      if !ok {
        return;
      }
      NoFailureJoined(seen, w.seen, |old(w.seen)|);
      TunedUpToNext(cr, t, kube.st, items, j);
    }
    stopped := |items|;
    StopsHere(cr, kube.st, kube.st, items, |items|);
    AllFit(cr, s, kube.st, items);
  }

  lemma NothingTimed(seen: seq<Observation>, now: nat)
    ensures Timed([], now, now) && NoFailureSince(seen, |seen|)
  {
  }

  lemma SerialisedStart(cr: ServerSet, s: State, trace: seq<State>, n: nat, seen: seq<Observation>, start: nat,
                        items: seq<Item>)
    requires n == |trace|
    ensures Serialised(cr, s, trace, n, seen, start, items, [], 0)
  {
  }

  lemma BeforeIs(cr: ServerSet, s: State, trace: seq<State>, n: nat, seen: seq<Observation>, start: nat,
                 items: seq<Item>, writes: seq<Write>, t: State)
    requires Serialised(cr, s, trace, n, seen, start, items, writes, 0)
    requires t == if |trace| > n then trace[|trace| - 1] else s
    ensures n + |writes| == |trace| && Before(s, trace, n, |writes|) == t
  {
  }

  lemma Current(cr: ServerSet, t: State, items: seq<Item>, j: nat)
    requires TunedUpTo(cr, t, items, j) && j < |items|
    ensures items[j].key in t.objs && t.objs[items[j].key] == items[j].obj
    ensures items[j].key.kind.ServerKind? && items[j].obj.spec.ServerSpec?
  {
  }

  lemma TunedThere(cr: ServerSet, t: State, items: seq<Item>, j: nat)
    requires TunedUpTo(cr, t, items, j)
    ensures AllThere(t, items)
  {
  }

  lemma FitsAlready(cr: ServerSet, s: State, item: Item)
    requires ServersFit(cr, s) && item.key.kind.ServerKind? && item.obj.spec.ServerSpec?
    ensures item.key in s.objs && s.objs[item.key] == item.obj ==> Retuned(cr, item.obj) == item.obj
  {
    hide Retuned;
  }

  lemma Described(cr: ServerSet, s: State, t: State, w: Write, item: Item)
    requires Describes(cr, s, t, w) && w.key == item.key && item.key in s.objs && s.objs[item.key] == item.obj
    ensures item.obj.spec.ServerSpec? && t == s.(objs := s.objs[item.key := Retuned(cr, item.obj)])
  {
  }

  lemma NothingListed(cr: ServerSet, st: State)
    ensures StoppedAt(cr, st, [], 0)
  {
  }

  /** updateServersFromTemplate: `items` is the list it read. */
  method UpdateServersFromTemplate(kube: Kube, w: Watch, cr: ServerSet)
      returns (ok: bool, ghost items: seq<Item>, ghost writes: seq<Write>, ghost stopped: nat)
    requires WellFormed(cr, kube.st)
    modifies kube, w`seen, w`clock
    ensures old(w.seen) <= w.seen && old(w.clock) <= w.clock && Timed(writes, old(w.clock), w.clock)
    ensures ok ==> NoFailureSince(w.seen, |old(w.seen)|)
    ensures StoppedAt(cr, kube.st, items, stopped) && (ok ==> stopped == |items|)
    ensures ServersTuned(cr, old(kube.st), kube.st)
    ensures old(kube.trace) <= kube.trace && AllTuned(cr, old(kube.st), kube.trace, |old(kube.trace)|)
    ensures ok ==> ServersFit(cr, kube.st)
    ensures ServersFit(cr, old(kube.st)) ==> kube.st == old(kube.st) && kube.trace == old(kube.trace)
    ensures writes != [] ==> Lists(old(kube.st), AllOf(ServerKind), items)
    ensures Serialised(cr, old(kube.st), kube.trace, |old(kube.trace)|, w.seen, w.startTime, items, writes,
                       if ok then 0 else 1)
    ensures w.Prompt() && kube.reliable && VolumesForServers(old(kube.st)) ==> ok
  {
    hide WellFormed, Lists, ServersTuned, ServersFit, Serialised, VolumesForServers, StoppedAt, Timed, NoFailureSince;
    items, writes, stopped := [], [], 0;
    NothingTimed(w.seen, w.clock);
    NothingListed(cr, kube.st);
    TunedStart(cr, kube.st);
    SerialisedStart(cr, kube.st, kube.trace, |kube.trace|, w.seen, w.startTime, []);
    SerialisedSeen(cr, kube.st, kube.trace, |kube.trace|, w.seen, w.seen, w.startTime, [], []);
    var servers := kube.List(AllOf(ServerKind));
    if servers.None? {
      return false, [], [], 0;
    }
    ok, writes, stopped := UpdateListed(kube, w, cr, servers.value);
    items := servers.value;
  }

  /** Reboots never overlap: between a rebooting write and the next write of any server, the rebooted
      server's update was seen to have succeeded after its request and, with a state map, the server running
      with a fresh timestamp;
      and all listed servers were seen running right before each rebooting write. */
  lemma RebootsDoNotOverlap(cr: ServerSet, s: State, trace: seq<State>, n: nat, seen: seq<Observation>, start: nat,
                            items: seq<Item>, writes: seq<Write>, a: nat, b: nat)
    requires Serialised(cr, s, trace, n, seen, start, items, writes, 1)
    requires a < b < |writes| && Reboots(cr, writes[a])
    ensures SawUpdated(seen, writes[a].key.name, writes[a].requested, n + a + 1)
    ensures cr.hasStateMap ==> SawRunning(seen, writes[a].key.name, writes[a].requested, n + a + 1)
    ensures cr.hasStateMap && Reboots(cr, writes[b]) ==>
              forall j :: 0 <= j < |items| ==> SawRunning(seen, items[j].key.name, start, n + b)
  {
    hide Reboots, SawRunning, SawUpdated, Describes;
    assert Confirmed(cr, seen, writes[a], n + a + 1);
    assert Gated(cr, seen, start, items, writes[b], n + b);
  }
}
