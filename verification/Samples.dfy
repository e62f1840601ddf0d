/** Small stores: one that a rollout can start from, and one that Create leaves unattached. */
module Samples {
  import opened Wrappers
  import opened Names
  import opened Store
  import opened Desired
  import opened Growth
  import opened Controllers
  import opened Versions
  import opened Failover
  import opened Shape
  import opened Rollout
  import opened Creation
  import opened Reconciler
  import opened Steps
  import OnlyBootVolume

  /** One replica, no NICs. */
  function Single(hasStateMap: bool, strategy: Strategy): ServerSet {
    ServerSet(1, "srv", 2, 4, "INTEL", None, [], hasStateMap, "vol", 10, "SSD", "new-image", true, strategy)
  }

  function BootVolume(image: string, id: nat): Obj {
    Obj(Labels(Itoa(0), "", Itoa(0)), VolumeSpec(10, "SSD", image, true, true, true), id,
        if id == 0 then Busy else Available, false)
  }

  function ServerBootingFrom(volumeId: nat): Obj {
    Obj(Labels(Itoa(0), "", Itoa(0)), ServerSpec(2, 4, "INTEL", None, volumeId), 1, Available, false)
  }

  /** The replica's server, with id 1, beside its boot volume. */
  function Pair(cr: ServerSet, volumeId: nat, image: string, id: nat, nextId: nat): State {
    State(map[ServerKey(cr, 0, 0) := ServerBootingFrom(volumeId), VolumeKey(cr, 0, 0) := BootVolume(image, id)], nextId)
  }

  lemma WantedOfSingle(cr: ServerSet, k: Key)
    requires cr.nics == []
    ensures InDesired(cr, 0, 0, 0, k) <==> k == ServerKey(cr, 0, 0) || k == VolumeKey(cr, 0, 0)
  {
    hide ServerKey, VolumeKey, NicOf, RuleOf, Owner, VersionOf;
  }

  /** The labels and kinds of the sample objects are right. */
  lemma SamplesMade(cr: ServerSet, o: Obj, p: Obj)
    requires cr.nics == []
    requires o.labels == p.labels == Labels(Itoa(0), "", Itoa(0)) && o.spec.ServerSpec? && p.spec.VolumeSpec?
    requires (o.state.Available? ==> o.id != 0) && (p.state.Available? ==> p.id != 0)
    ensures Made(cr, ServerKey(cr, 0, 0), o) && Made(cr, VolumeKey(cr, 0, 0), p)
  {
    hide ServerKey, VolumeKey, Itoa, Owner, VersionOf, InDesired;
    WantedOfSingle(cr, ServerKey(cr, 0, 0));
    WantedOfSingle(cr, VolumeKey(cr, 0, 0));
  }

  lemma TwoWellFormed(cr: ServerSet, at: Key, on: Key, o: Obj, p: Obj, nextId: nat)
    requires at != on && Made(cr, at, o) && Made(cr, on, p) && o.id < nextId && p.id < nextId && o.id != p.id
    ensures WellFormed(cr, State(map[at := o, on := p], nextId))
  {
    hide Made;
  }

  lemma PairWellFormed(cr: ServerSet, volumeId: nat, image: string, id: nat, nextId: nat)
    requires cr.nics == [] && id != 1 && nextId > 1 && id < nextId
    ensures WellFormed(cr, Pair(cr, volumeId, image, id, nextId))
  {
    hide ServerKey, VolumeKey, Itoa, Atoi, Made, WellFormed;
    var o, p := ServerBootingFrom(volumeId), BootVolume(image, id);
    SamplesMade(cr, o, p);
    TwoWellFormed(cr, ServerKey(cr, 0, 0), VolumeKey(cr, 0, 0), o, p, nextId);
  }

  /** Both objects are there, nothing else is, and without NICs there is nothing to wire. */
  lemma PairExact(cr: ServerSet, volumeId: nat, image: string, id: nat, nextId: nat)
    requires cr.nics == []
    ensures var st := Pair(cr, volumeId, image, id, nextId);
      && Wired(cr, 0, 0, st) && (forall k :: k in st.objs <==> InDesired(cr, 0, 0, 0, k))
      && st.objs[ServerKey(cr, 0, 0)] == ServerBootingFrom(volumeId)
      && st.objs[VolumeKey(cr, 0, 0)] == BootVolume(image, id)
  {
    hide ServerKey, VolumeKey, Itoa, Atoi, InDesired, Owner, VersionOf;
    var st := Pair(cr, volumeId, image, id, nextId);
    forall k ensures k in st.objs <==> InDesired(cr, 0, 0, 0, k) { WantedOfSingle(cr, k); }
  }

  function OldImage(hasStateMap: bool, strategy: Strategy): State {
    Pair(Single(hasStateMap, strategy), 2, "old-image", 2, 3)
  }

  /** A complete set whose only replica is stale. */
  lemma OldImageIsStale(hasStateMap: bool, strategy: Strategy)
    ensures var cr, st := Single(hasStateMap, strategy), OldImage(hasStateMap, strategy);
      && WellFormed(cr, st) && RulesActive(cr)
      && StartsComplete(cr, ReplicaVersions([0], [0]), st) && Stale(cr, st, 0)
  {
    hide ServerKey, VolumeKey, Itoa, Atoi, InDesired, Owner, VersionOf, WellFormed, Wired;
    var cr := Single(hasStateMap, strategy);
    PairWellFormed(cr, 2, "old-image", 2, 3);
    PairExact(cr, 2, "old-image", 2, 3);
    assert Of(VolumeKey(cr, 0, 0), 0, VolumeKind);
    WantedOfSingle(cr, ServerKey(cr, 0, 0));
  }

  /** Where an Update times out after it has recreated the replica: createAllBeforeDestroy with a state map, in
      which the server that is removed has left a report from before the request. */
  lemma RemovedServerIsWaitedFor(parse: string -> Option<nat>, text: string, stamp: nat, asked: nat)
    requires text != "" && parse(text) == Some(stamp) && 0 < stamp < asked
    ensures var cr, st := Single(true, CreateAllBeforeDestroy), OldImage(true, CreateAllBeforeDestroy);
      && WaitsForRemoved(cr) && Standing(cr, st) && !AllCurrent(cr, st)
      && var name := ServerKey(cr, 0, 0).name;
         CheckRuntimeState(parse, Some(Reports(name, text)), name, asked) == NotYet
  {
    hide ServerKey, StartsComplete, Standing, Stale, CheckRuntimeState, Reports, WellFormed;
    var cr, st := Single(true, CreateAllBeforeDestroy), OldImage(true, CreateAllBeforeDestroy);
    OldImageIsStale(true, CreateAllBeforeDestroy);
    StartStands(cr, ReplicaVersions([0], [0]), st);
    OldReportNotYet(parse, ServerKey(cr, 0, 0).name, text, stamp, asked);
  }

  lemma StartStands(cr: ServerSet, vs: ReplicaVersions, st: State)
    requires StartsComplete(cr, vs, st)
    ensures Standing(cr, st)
  {
    hide AllComplete, NoStrangers, Standing;
    CompleteStands(cr, vs, st);
  }

  /** What a Create that was cut off while it waited for the boot volume leaves: the server, which is created
      first, and a volume without an id. */
  function CutOff(): State {
    Pair(Single(false, Unspecified), 0, "new-image", 0, 2)
  }

  /** The next Create goes through and ends with a server that boots from no volume: the volume was found
      without an id, taken as it was, and attached. */
  lemma CreateAttachesNothing()
    ensures var cr, st := Single(false, Unspecified), CutOff();
      && WellFormed(cr, st) && Begun(cr, 0, 0, 0, st) && Resumable(cr, 0, 0, st)
      && Ensured(Goal(cr, 0, 0, 0, st), st) && Joined(cr, 0, 0, 0, st, st)
      && Whole(cr, 0, 0, 0, st) && !Complete(cr, 0, 0, 0, st)
  {
    hide ServerKey, VolumeKey, Itoa, Atoi, InDesired, Owner, VersionOf, WellFormed, Wired;
    var cr := Single(false, Unspecified);
    PairWellFormed(cr, 0, "new-image", 0, 2);
    PairExact(cr, 0, "new-image", 0, 2);
    WantedOfSingle(cr, VolumeKey(cr, 0, 0));
    WantedOfSingle(cr, ServerKey(cr, 0, 0));
  }
}
