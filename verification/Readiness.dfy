/** What Observe concludes from the lists, and how it agrees with what Update would write. */
module Readiness {
  import opened Wrappers
  import opened Names
  import opened Store
  import opened Desired
  import opened Failover
  import opened ServerUpdate
  import opened Shape
  import opened Rollout
  import OnlyBootVolume

  /** The state map as it was read: not wanted or unreadable, or with its data (None is a nil map). */
  datatype MapRead = Unreadable | Read(data: Option<Data>)

  predicate AllServers(items: seq<Item>) {
    forall j :: 0 <= j < |items| ==> items[j].obj.spec.ServerSpec?
  }

  predicate AllVolumes(items: seq<Item>) {
    forall j :: 0 <= j < |items| ==> items[j].obj.spec.VolumeSpec?
  }

  /** The server is available and, with a state map, reported running at whatever time. */
  predicate Up(cr: ServerSet, parse: string -> Option<nat>, stateMap: MapRead, item: Item) {
    && item.obj.state.Available?
    && (cr.hasStateMap ==> stateMap.Read? && ReportsRunning(parse, stateMap.data, item.key.name, 0))
  }

  /** An available server whose report is an error or cannot be read. */
  predicate ReportsError(cr: ServerSet, parse: string -> Option<nat>, stateMap: MapRead, item: Item) {
    && item.obj.state.Available? && cr.hasStateMap && stateMap.Read?
    && CheckRuntimeState(parse, stateMap.data, item.key.name, 0).Error?
  }

  /** The first server that does not fit or is not up. */
  predicate FirstNotGood(cr: ServerSet, parse: string -> Option<nat>, stateMap: MapRead, servers: seq<Item>, j: nat)
    requires j < |servers| && AllServers(servers)
  {
    && !(Retuned(cr, servers[j].obj) == servers[j].obj && Up(cr, parse, stateMap, servers[j]))
    && forall q :: 0 <= q < j ==> Retuned(cr, servers[q].obj) == servers[q].obj && Up(cr, parse, stateMap, servers[q])
  }

  /** With a state map, every listed server is reported running. */
  predicate AllReport(cr: ServerSet, parse: string -> Option<nat>, stateMap: MapRead, servers: seq<Item>) {
    cr.hasStateMap ==> (
      stateMap.Read? && forall j :: 0 <= j < |servers| ==> ReportsRunning(parse, stateMap.data, servers[j].key.name, 0))
  }

  lemma KeysApart(m: string, n: string)
    ensures m + "-state" != n + "-timestamp"
  {
    var a, b := m + "-state", n + "-timestamp";
    assert a[|a| - 1] == 'e' && b[|b| - 1] == 'p';
  }

  /** A report under one name does not touch what is reported under another. */
  lemma ReportedToo(d: Data, parse: string -> Option<nat>, name: string, stamp: string, other: string)
    requires stamp != "" && parse(stamp).Some?
    ensures var next := d[name + "-state" := STATUS_VM_RUNNING][name + "-timestamp" := stamp];
      && ReportsRunning(parse, Some(next), name, 0)
      && (ReportsRunning(parse, Some(d), other, 0) ==> ReportsRunning(parse, Some(next), other, 0))
  {
    KeysApart(name, name);
    KeysApart(name, other);
    KeysApart(other, name);
  }

  /** The state map as Observe reads it: anything, or the reports of the listed servers where they are
      prompt, at whatever times. */
  method ReadStateMap(kube: Kube, w: Watch, servers: seq<Item>) returns (r: MapRead)
    ensures w.Prompt() && kube.reliable ==>
              r.Read? && forall j :: 0 <= j < |servers| ==> ReportsRunning(w.parse, r.data, servers[j].key.name, 0)
  {
    var fails := kube.Fails();
    if fails {
      return MapRead.Unreadable;
    }
    var data: Option<Data> := *;
    if w.prompt {
      var d: Data := if data.Some? then data.value else map[];
      for j := 0 to |servers|
        invariant w.Prompt() ==> forall q :: 0 <= q < j ==> ReportsRunning(w.parse, Some(d), servers[q].key.name, 0)
      {
        hide ReportsRunning;
        var name := servers[j].key.name;
        var stamp: int := *;
        var text := w.write(if stamp < 0 then 0 else stamp);
        if w.Prompt() {
          forall q | 0 <= q < j + 1
            ensures ReportsRunning(w.parse, Some(d[name + "-state" := STATUS_VM_RUNNING][name + "-timestamp" := text]),
                                   servers[q].key.name, 0)
          {
            ReportedToo(d, w.parse, name, text, servers[q].key.name);
          }
        }
        d := d[name + "-state" := STATUS_VM_RUNNING][name + "-timestamp" := text];
      }
      data := Some(d);
    }
    r := Read(data);
  }

  /** AreServersReady stops at the first server that is out of date or not up. */
  method AreServersReady(cr: ServerSet, parse: string -> Option<nat>, stateMap: MapRead, servers: seq<Item>)
      returns (upToDate: bool, available: bool, err: bool)
    requires AllServers(servers)
    ensures upToDate && available && !err
       <==> forall j :: 0 <= j < |servers| ==>
              Retuned(cr, servers[j].obj) == servers[j].obj && Up(cr, parse, stateMap, servers[j])
    ensures forall j :: 0 <= j < |servers| && FirstNotGood(cr, parse, stateMap, servers, j) ==>
              && (upToDate <==> Retuned(cr, servers[j].obj) == servers[j].obj)
              && (err <==>
                    Retuned(cr, servers[j].obj) == servers[j].obj && ReportsError(cr, parse, stateMap, servers[j]))
              && !available
    ensures !available ==> exists j :: 0 <= j < |servers| && FirstNotGood(cr, parse, stateMap, servers, j)
    ensures available ==> upToDate && !err
    ensures AllReport(cr, parse, stateMap, servers) ==> !err
  {
    for j := 0 to |servers|
      invariant forall q :: 0 <= q < j ==>
                  Retuned(cr, servers[q].obj) == servers[q].obj && Up(cr, parse, stateMap, servers[q])
    {
      assert (Retuned(cr, servers[j].obj) == servers[j].obj && Up(cr, parse, stateMap, servers[j]))
             || FirstNotGood(cr, parse, stateMap, servers, j);
      var spec := servers[j].obj.spec;
      if spec.cores != cr.cores {
        return false, false, false;
      }
      if spec.ram != cr.ram {
        return false, false, false;
      }
      if spec.nicMultiQueue != cr.nicMultiQueue {
        return false, false, false;
      }
      if spec.cpuFamily != cr.cpuFamily {
        return false, false, false;
      }
      if !servers[j].obj.state.Available? {
        return true, false, false;
      }
      if cr.hasStateMap {
        if stateMap.Unreadable? {
          return true, false, false;
        }
        var runtimeState := CheckRuntimeState(parse, stateMap.data, servers[j].key.name, 0);
        if !runtimeState.Running? {
          return true, false, runtimeState.Error?;
        }
      }
    }
    return true, true, false;
  }

  predicate VolumeFits(cr: ServerSet, o: Obj)
    requires o.spec.VolumeSpec?
  {
    o.spec.size == cr.size && !OnlyBootVolume.Differs(cr, o.spec)
  }

  /** The first volume that does not fit or is not available. */
  predicate FirstNotSettled(cr: ServerSet, volumes: seq<Item>, j: nat)
    requires j < |volumes| && AllVolumes(volumes)
  {
    && !(VolumeFits(cr, volumes[j].obj) && volumes[j].obj.state.Available?)
    && forall q :: 0 <= q < j ==> VolumeFits(cr, volumes[q].obj) && volumes[q].obj.state.Available?
  }

  method AreBootVolumesReady(cr: ServerSet, volumes: seq<Item>) returns (upToDate: bool, available: bool)
    requires AllVolumes(volumes)
    ensures upToDate && available
       <==> forall j :: 0 <= j < |volumes| ==> VolumeFits(cr, volumes[j].obj) && volumes[j].obj.state.Available?
    ensures forall j :: 0 <= j < |volumes| && FirstNotSettled(cr, volumes, j) ==>
              (upToDate <==> VolumeFits(cr, volumes[j].obj)) && !available
    ensures !available ==> exists j :: 0 <= j < |volumes| && FirstNotSettled(cr, volumes, j)
    ensures available ==> upToDate
  {
    for j := 0 to |volumes|
      invariant forall q :: 0 <= q < j ==> VolumeFits(cr, volumes[q].obj) && volumes[q].obj.state.Available?
    {
      assert (VolumeFits(cr, volumes[j].obj) && volumes[j].obj.state.Available?) || FirstNotSettled(cr, volumes, j);
      var spec := volumes[j].obj.spec;
      if spec.size != cr.size {
        return false, false;
      }
      if spec.image != cr.image {
        return false, false;
      }
      if spec.typ != cr.typ {
        return false, false;
      }
      if spec.setHotPlugsFromImage != cr.setHotPlugsFromImage {
        return false, false;
      }
      if !volumes[j].obj.state.Available? {
        return true, false;
      }
    }
    return true, true;
  }

  // ---------- the diff text ----------

  /** strings.Join with a separator that is not empty. */
  function Join(parts: seq<string>, sep: string): (s: string)
    requires sep != ""
    ensures s == "" <==> parts == [] || parts == [""]
  {
    if parts == [] then ""
    else if |parts| == 1 then parts[0]
    else parts[0] + sep + Join(parts[1..], sep)
  }

  predicate NoneEmpty(parts: seq<string>) {
    forall j :: 0 <= j < |parts| ==> parts[j] != ""
  }

  function StateText(s: ProviderState): string {
    match s case Available => "AVAILABLE" case Busy => "BUSY" case Failed => "FAILED" case Unset => ""
  }

  function BoolText(b: bool): string {
    if b then "true" else "false"
  }

  /** The multi-queue setting is compared only when both sides have one. */
  predicate ServerPlain(cr: ServerSet, o: Obj)
    requires o.spec.ServerSpec?
  {
    && o.spec.cores == cr.cores && o.spec.ram == cr.ram && o.spec.cpuFamily == cr.cpuFamily
    && (cr.nicMultiQueue.Some? && o.spec.nicMultiQueue.Some? ==> o.spec.nicMultiQueue == cr.nicMultiQueue)
    && o.state.Available?
  }

  /** One entry per field, empty when the field fits. */
  function Note(differs: bool, what: string, expected: string, actual: string): (s: string)
    requires what != ""
    ensures s == "" <==> !differs
  {
    if differs then what + " exp=" + expected + " act=" + actual else ""
  }

  function Gather(notes: seq<string>): (parts: seq<string>)
    ensures NoneEmpty(parts) && (parts == [] <==> forall j :: 0 <= j < |notes| ==> notes[j] == "")
  {
    if notes == [] then []
    else if notes[0] == "" then Gather(notes[1..])
    else [notes[0]] + Gather(notes[1..])
  }

  function ServerDiff(cr: ServerSet, o: Obj): seq<string>
    requires o.spec.ServerSpec?
  {
    Gather(ServerNotes(cr, o))
  }

  function ServerNotes(cr: ServerSet, o: Obj): seq<string>
    requires o.spec.ServerSpec?
  {
    [ Note(o.spec.cores != cr.cores, "cores", Itoa(cr.cores), Itoa(o.spec.cores)),
      Note(o.spec.ram != cr.ram, "ram", Itoa(cr.ram), Itoa(o.spec.ram)),
      Note(o.spec.cpuFamily != cr.cpuFamily, "cpuFamily", cr.cpuFamily, o.spec.cpuFamily),
      if cr.nicMultiQueue.Some? && o.spec.nicMultiQueue.Some?
      then Note(o.spec.nicMultiQueue != cr.nicMultiQueue, "nicMultiQueue",
                BoolText(cr.nicMultiQueue.value), BoolText(o.spec.nicMultiQueue.value))
      else "",
      Note(!o.state.Available?, "state", "AVAILABLE", StateText(o.state))]
  }

  lemma ServerDiffEmpty(cr: ServerSet, o: Obj)
    requires o.spec.ServerSpec?
    ensures NoneEmpty(ServerDiff(cr, o)) && (ServerDiff(cr, o) == [] <==> ServerPlain(cr, o))
  {
    hide Itoa, Atoi, Gather, Note, StateText, BoolText;
    FiveEmpty(ServerNotes(cr, o));
  }

  lemma FiveEmpty(notes: seq<string>)
    requires |notes| == 5
    ensures (forall j :: 0 <= j < |notes| ==> notes[j] == "")
       <==> notes[0] == "" && notes[1] == "" && notes[2] == "" && notes[3] == "" && notes[4] == ""
  {
  }

  function VolumeDiff(cr: ServerSet, o: Obj): seq<string>
    requires o.spec.VolumeSpec?
  {
    Gather(VolumeNotes(cr, o))
  }

  function VolumeNotes(cr: ServerSet, o: Obj): seq<string>
    requires o.spec.VolumeSpec?
  {
    [ Note(o.spec.size != cr.size, "size", Itoa(cr.size), Itoa(o.spec.size)),
      Note(o.spec.image != cr.image, "image", cr.image, o.spec.image),
      Note(o.spec.typ != cr.typ, "type", cr.typ, o.spec.typ),
      Note(o.spec.setHotPlugsFromImage != cr.setHotPlugsFromImage, "setHotPlugsFromImage",
           BoolText(cr.setHotPlugsFromImage), BoolText(o.spec.setHotPlugsFromImage)),
      Note(!o.state.Available?, "state", "AVAILABLE", StateText(o.state))]
  }

  lemma VolumeDiffEmpty(cr: ServerSet, o: Obj)
    requires o.spec.VolumeSpec?
    ensures NoneEmpty(VolumeDiff(cr, o)) && (VolumeDiff(cr, o) == [] <==> VolumeFits(cr, o) && o.state.Available?)
  {
    hide Itoa, Atoi, Gather, Note, StateText, BoolText;
    FiveEmpty(VolumeNotes(cr, o));
  }

  function CountDiff(what: string, expected: int, actual: int): (parts: seq<string>)
    ensures NoneEmpty(parts) && (parts == [] <==> expected == actual)
  {
    if actual != expected then [what + ": expected=" + Itoa(expected) + " actual=" + Itoa(actual)] else []
  }

  lemma JoinEmpty(parts: seq<string>, sep: string)
    requires NoneEmpty(parts) && sep != ""
    ensures Join(parts, sep) == "" <==> parts == []
  {
    hide Join;
    assert |parts| == 1 ==> parts[0] != "";
  }

  lemma AppendNoneEmpty(a: seq<string>, b: seq<string>)
    requires NoneEmpty(a) && NoneEmpty(b)
    ensures NoneEmpty(a + b) && (a + b == [] <==> a == [] && b == [])
  {
  }

  /** There are as many servers, volumes and NICs as the set wants. */
  predicate AllCounted(cr: ServerSet, servers: nat, volumes: nat, nics: nat) {
    servers == cr.replicas && volumes == cr.replicas && nics == |cr.nics| * cr.replicas
  }

  predicate NoDifference(cr: ServerSet, servers: seq<Item>, volumes: seq<Item>)
    requires AllServers(servers) && AllVolumes(volumes)
  {
    && (forall j :: 0 <= j < |servers| ==> ServerPlain(cr, servers[j].obj))
    && (forall j :: 0 <= j < |volumes| ==> VolumeFits(cr, volumes[j].obj) && volumes[j].obj.state.Available?)
  }

  method BuildDiff(cr: ServerSet, servers: seq<Item>, volumes: seq<Item>, nics: nat) returns (diff: string)
    requires AllServers(servers) && AllVolumes(volumes)
    ensures diff == "" <==> AllCounted(cr, |servers|, |volumes|, nics) && NoDifference(cr, servers, volumes)
  {
    hide ServerDiff, VolumeDiff, CountDiff, ServerPlain, VolumeFits, Itoa, Atoi, Join;
    var counts := CountDiff("servers", cr.replicas, |servers|) + CountDiff("bootVolumes", cr.replicas, |volumes|)
      + CountDiff("nics", |cr.nics| * cr.replicas, nics);
    var ofServers: seq<string> := [];
    for j := 0 to |servers|
      invariant NoneEmpty(ofServers)
      invariant ofServers == [] <==> forall q :: 0 <= q < j ==> ServerPlain(cr, servers[q].obj)
    {
      ServerDiffEmpty(cr, servers[j].obj);
      var srvDiff := ServerDiff(cr, servers[j].obj);
      if |srvDiff| > 0 {
        ofServers := ofServers + ["server[" + Itoa(j) + "](" + servers[j].key.name + "): " + Join(srvDiff, "; ")];
      }
    }
    var ofVolumes: seq<string> := [];
    for j := 0 to |volumes|
      invariant NoneEmpty(ofVolumes)
      invariant ofVolumes == [] <==> forall q :: 0 <= q < j ==>
                VolumeFits(cr, volumes[q].obj) && volumes[q].obj.state.Available?
    {
      VolumeDiffEmpty(cr, volumes[j].obj);
      var volDiff := VolumeDiff(cr, volumes[j].obj);
      if |volDiff| > 0 {
        ofVolumes := ofVolumes + ["volume[" + Itoa(j) + "](" + volumes[j].key.name + "): " + Join(volDiff, "; ")];
      }
    }
    AppendNoneEmpty(counts, ofServers);
    AppendNoneEmpty(counts + ofServers, ofVolumes);
    JoinEmpty(counts + ofServers + ofVolumes, " | ");
    diff := Join(counts + ofServers + ofVolumes, " | ");
  }

  // ---------- Observe against Update ----------

  /** Update finds nothing to write for these servers and volumes. */
  predicate NothingToWrite(cr: ServerSet, servers: seq<Item>, volumes: seq<Item>)
    requires AllServers(servers) && AllVolumes(volumes)
  {
    && (forall j :: 0 <= j < |servers| ==> Retuned(cr, servers[j].obj) == servers[j].obj)
    && (forall j :: 0 <= j < |volumes| ==> VolumeFits(cr, volumes[j].obj))
  }

  predicate EverythingUp(cr: ServerSet, parse: string -> Option<nat>, stateMap: MapRead, servers: seq<Item>,
                         volumes: seq<Item>) {
    && (forall j :: 0 <= j < |servers| ==> Up(cr, parse, stateMap, servers[j]))
    && (forall j :: 0 <= j < |volumes| ==> volumes[j].obj.state.Available?)
  }

  /** A server that needs no write shows no difference. */
  lemma FittingServerPlain(cr: ServerSet, o: Obj)
    requires o.spec.ServerSpec? && Retuned(cr, o) == o && o.state.Available?
    ensures ServerPlain(cr, o)
  {
  }

  /** The lists speak for the store: nothing to write for them is nothing to write at all. */
  lemma NothingToWriteInStore(cr: ServerSet, st: State, servers: seq<Item>, volumes: seq<Item>)
    requires Lists(st, AllOf(ServerKind), servers) && Lists(st, AllOf(VolumeKind), volumes)
    requires AllServers(servers) && AllVolumes(volumes)
    ensures NothingToWrite(cr, servers, volumes) <==> ServersFit(cr, st) && VolumesFit(cr, st)
  {
    hide Retuned, OnlyBootVolume.Differs;
    if NothingToWrite(cr, servers, volumes) {
      forall k: Key | k in st.objs && k.kind.ServerKind? && st.objs[k].spec.ServerSpec?
        ensures st.objs[k] == Retuned(cr, st.objs[k])
      {
        assert Matches(AllOf(ServerKind), k, st.objs[k]);
      }
      forall k | k in st.objs && k.kind.VolumeKind? && st.objs[k].spec.VolumeSpec?
        ensures st.objs[k].spec.size == cr.size && !OnlyBootVolume.Differs(cr, st.objs[k].spec) {
        assert Matches(AllOf(VolumeKind), k, st.objs[k]);
      }
    }
  }

  /** The other way round an empty diff promises nothing: a multi-queue setting that only one side has
      is not shown, although Update would write it. */
  lemma EmptyDiffMayNeedUpdate(cr: ServerSet, o: Obj)
    requires o.spec.ServerSpec? && ServerPlain(cr, o)
    ensures Retuned(cr, o) == o <==> (cr.nicMultiQueue.Some? <==> o.spec.nicMultiQueue.Some?)
  {
  }

  /** The verdict of one Observe over three lists. */
  datatype Verdict = Verdict(present: bool, upToDate: bool, available: bool, err: bool, diff: string)

  /** The first server that does not fit or is not up, if any, fits. */
  predicate ServersCurrent(cr: ServerSet, parse: string -> Option<nat>, stateMap: MapRead, servers: seq<Item>)
    requires AllServers(servers)
  {
    forall j :: 0 <= j < |servers| && FirstNotGood(cr, parse, stateMap, servers, j) ==>
      Retuned(cr, servers[j].obj) == servers[j].obj
  }

  /** The first volume that does not fit or is not available, if any, fits. */
  predicate VolumesCurrent(cr: ServerSet, volumes: seq<Item>)
    requires AllVolumes(volumes)
  {
    forall j :: 0 <= j < |volumes| && FirstNotSettled(cr, volumes, j) ==> VolumeFits(cr, volumes[j].obj)
  }

  /** The first server that is not good fits, and its report is an error. */
  predicate ErrorFirst(cr: ServerSet, parse: string -> Option<nat>, stateMap: MapRead, servers: seq<Item>)
    requires AllServers(servers)
  {
    exists j :: 0 <= j < |servers| && FirstNotGood(cr, parse, stateMap, servers, j)
      && Retuned(cr, servers[j].obj) == servers[j].obj && ReportsError(cr, parse, stateMap, servers[j])
  }

  /** With everything up, what is first not good does not fit. */
  lemma UpMeansUnfit(cr: ServerSet, parse: string -> Option<nat>, stateMap: MapRead, servers: seq<Item>,
                     volumes: seq<Item>)
    requires AllServers(servers) && AllVolumes(volumes) && EverythingUp(cr, parse, stateMap, servers, volumes)
    ensures ServersCurrent(cr, parse, stateMap, servers) && VolumesCurrent(cr, volumes)
       <==> NothingToWrite(cr, servers, volumes)
  {
    hide Up, Retuned, VolumeFits;
    if ServersCurrent(cr, parse, stateMap, servers) && VolumesCurrent(cr, volumes) {
      for j := 0 to |servers|
        invariant forall q :: 0 <= q < j ==> Retuned(cr, servers[q].obj) == servers[q].obj
      {
        assert FirstNotGood(cr, parse, stateMap, servers, j) || Retuned(cr, servers[j].obj) == servers[j].obj;
      }
      for j := 0 to |volumes|
        invariant forall q :: 0 <= q < j ==> VolumeFits(cr, volumes[q].obj)
      {
        assert FirstNotSettled(cr, volumes, j) || VolumeFits(cr, volumes[j].obj);
      }
    }
  }

  /** The verdict: available exactly when everything is up and Update would write nothing; up to date exactly
      when the first server and the first volume that are not as they should be still fit, so that with
      everything up it is exactly that Update would write nothing; not up to date only if it would write. The
      diff is empty exactly if the counts match and nothing shown differs. */
  method Judge(cr: ServerSet, parse: string -> Option<nat>, stateMap: MapRead, servers: seq<Item>,
               volumes: seq<Item>, nics: nat)
      returns (v: Verdict)
    requires AllServers(servers) && AllVolumes(volumes)
    ensures v.present <==> AllCounted(cr, |servers|, |volumes|, nics)
    ensures v.err <==> ErrorFirst(cr, parse, stateMap, servers)
    ensures v.err ==> !v.upToDate && !v.available && v.diff == ""
    ensures !v.err ==>
              (v.available <==>
                 EverythingUp(cr, parse, stateMap, servers, volumes) && NothingToWrite(cr, servers, volumes))
    ensures !v.err ==>
              (v.upToDate <==> ServersCurrent(cr, parse, stateMap, servers) && VolumesCurrent(cr, volumes))
    ensures !v.err && EverythingUp(cr, parse, stateMap, servers, volumes) ==>
              (v.upToDate <==> NothingToWrite(cr, servers, volumes))
    ensures v.available ==> v.upToDate
    ensures !v.upToDate && !v.err ==> !NothingToWrite(cr, servers, volumes)
    ensures !v.err ==>
              (v.diff == "" <==>
                 AllCounted(cr, |servers|, |volumes|, nics) && NoDifference(cr, servers, volumes))
    ensures v.present && v.available ==> v.diff == ""
    ensures AllReport(cr, parse, stateMap, servers) ==> !v.err
  {
    hide ServerPlain, VolumeFits, Up, Retuned, AllReport, ReportsError;
    var areServersUpToDate, areServersAvailable, err := AreServersReady(cr, parse, stateMap, servers);
    if err {
      return Verdict(|servers| == cr.replicas && |volumes| == cr.replicas && nics == |cr.nics| * cr.replicas,
                     false, false, true, "");
    }
    var areBootVolumesUpToDate, areBootVolumesAvailable := AreBootVolumesReady(cr, volumes);
    var diff := BuildDiff(cr, servers, volumes, nics);
    v := Verdict(|servers| == cr.replicas && |volumes| == cr.replicas && nics == |cr.nics| * cr.replicas,
                 areServersUpToDate && areBootVolumesUpToDate,
                 areServersAvailable && areBootVolumesAvailable, false, diff);
    if EverythingUp(cr, parse, stateMap, servers, volumes) { UpMeansUnfit(cr, parse, stateMap, servers, volumes); }
    if v.available {
      forall j | 0 <= j < |servers| ensures ServerPlain(cr, servers[j].obj) {
        UpAvailable(cr, parse, stateMap, servers[j]);
        FittingServerPlain(cr, servers[j].obj);
      }
    }
  }

  lemma UpAvailable(cr: ServerSet, parse: string -> Option<nat>, stateMap: MapRead, item: Item)
    requires Up(cr, parse, stateMap, item)
    ensures item.obj.state.Available?
  {
  }
}
