/** The ConfigMap in which substitution values survive a restart of the provider. */
module ConfigMap {
  import opened Wrappers
  import opened Names

  type Data = map<string, string>

  /** What a lookup of a missing key yields in Go. */
  function Lookup(d: Data, key: string): string {
    if key in d then d[key] else ""
  }

  datatype MapKey = MapKey(namespace: string, name: string)

  datatype Read = Found(data: Data) | NotFound | Unreachable

  /** The API server's ConfigMaps. A write that reports failure may still have landed. An empty `Data` is
      not stored, so it is read back as a nil map. */
  class Server {
    /** Every request is answered, and every write lands and is reported. */
    const reliable: bool
    var maps: map<MapKey, Data>

    constructor (reliable: bool)
      ensures maps == map[] && this.reliable == reliable
    {
      maps, this.reliable := map[], reliable;
    }

    method Fails() returns (fails: bool)
      ensures reliable ==> !fails
    {
      fails := *;
      fails := fails && !reliable;
    }

    method Get(k: MapKey) returns (r: Read)
      ensures r.Found? ==> k in maps && r.data == maps[k]
      ensures r.NotFound? ==> k !in maps
      ensures reliable ==> !r.Unreachable?
    {
      var fails := Fails();
      if fails {
        return Unreachable;
      }
      r := if k in maps then Found(maps[k]) else NotFound;
    }

    method Write(k: MapKey, d: Data) returns (ok: bool)
      modifies this
      ensures maps == old(maps)[k := d] || (!ok && maps == old(maps))
      ensures reliable ==> ok
    {
      var refused := Fails();
      if refused {
        return false;
      }
      maps := maps[k := d];
      var misreported := Fails();
      ok := !misreported;
    }
  }

  datatype SubstitutionConfig = SubstitutionConfig(identities: Data, name: string, namespace: string)
  {
    function Where(): MapKey { MapKey(namespace, name) }
  }

  datatype Outcome = Done | Error | NilMapPanic

  /** What storing the identities makes of the stored data. */
  function Merged(stored: Option<Data>, identities: Data): Data {
    match stored
    case None => identities
    case Some(d) => if identities != map[] && identities != d then d + identities else d
  }

  /** maps.Copy into a ConfigMap that was stored without any data writes to a nil map. */
  predicate CopiesIntoNil(stored: Option<Data>, identities: Data) {
    stored == Some(map[]) && identities != map[]
  }

  class Controller {
    const kube: Server
    var substConfigMap: map<string, SubstitutionConfig>

    constructor (kube: Server)
      ensures this.kube == kube && substConfigMap == map[]
    {
      this.kube, substConfigMap := kube, map[];
    }

    /** What a restart of the provider leaves of the memory. */
    method Restart()
      modifies this
      ensures substConfigMap == map[]
    {
      substConfigMap := map[];
    }

    /** Where a server set's values are stored: an entry in memory keeps its namespace. */
    function Place(crName: string, namespace: string): MapKey
      reads this
    {
      if crName in substConfigMap then substConfigMap[crName].Where() else MapKey(namespace, crName)
    }

    /** A server set's values, in memory and as stored; nothing is in memory without an entry. */
    ghost function Mem(crName: string, namespace: string): Memory
      reads this, kube
    {
      Memory(if crName in substConfigMap then substConfigMap[crName].identities else map[],
             if Place(crName, namespace) in kube.maps then Some(kube.maps[Place(crName, namespace)]) else None)
    }

    ghost function Stored(crName: string): Option<Data>
      requires crName in substConfigMap
      reads this, kube
    {
      var where := substConfigMap[crName].Where();
      if where in kube.maps then Some(kube.maps[where]) else None
    }

    method SetSubstitutionConfigMap(name: string, namespace: string)
      modifies this
      ensures substConfigMap == if name in old(substConfigMap) then old(substConfigMap)
                                else old(substConfigMap)[name := SubstitutionConfig(map[], name, namespace)]
    {
      if name !in substConfigMap {
        substConfigMap := substConfigMap[name := SubstitutionConfig(map[], name, namespace)];
      }
    }

    method SetIdentity(crName: string, key: string, val: string)
      requires crName in substConfigMap
      modifies this
      ensures var c := old(substConfigMap)[crName];
              substConfigMap == old(substConfigMap)[crName := c.(identities := c.identities[key := val])]
    {
      var c := substConfigMap[crName];
      substConfigMap := substConfigMap[crName := c.(identities := c.identities[key := val])];
    }

    /** The empty text stands for a value that is not stored or could not be read. */
    method FetchSubstitutionFromMap(crName: string, key: string, replicaIndex: int, version: int)
        returns (value: string, ghost reached: bool)
      requires crName in substConfigMap
      ensures value == if reached && Stored(crName).Some?
                       then Lookup(Stored(crName).value, SubstKey(replicaIndex, version, key)) else ""
      ensures kube.reliable ==> reached
    {
      var r := kube.Get(substConfigMap[crName].Where());
      reached := !r.Unreachable?;
      match r
      case Found(data) => value := Lookup(data, SubstKey(replicaIndex, version, key));
      case _ => value := "";
    }

    /** Reports success without writing when the ConfigMap cannot be read for another reason than absence.
        `landed` says that what was to be written is stored. */
    method CreateOrUpdate(crName: string) returns (r: Outcome, ghost reached: bool, ghost landed: bool)
      requires crName in substConfigMap
      modifies kube
      ensures var stored, ids := old(Stored(crName)), substConfigMap[crName].identities;
        && (!reached ==> r == Done && Stored(crName) == stored)
        && (r == NilMapPanic <==> reached && CopiesIntoNil(stored, ids))
        && (r == NilMapPanic ==> Stored(crName) == stored)
        && (reached && r == Done ==> Stored(crName) == Some(Merged(stored, ids)))
        && (r == Error ==> Stored(crName) == stored || Stored(crName) == Some(Merged(stored, ids)))
      ensures forall namespace ::
                Mem(crName, namespace) == Step(old(Mem(crName, namespace)), Flush(reached, landed))
      ensures reached && r == Done ==> landed
      ensures forall k :: k != substConfigMap[crName].Where()
                ==> (k in kube.maps <==> k in old(kube.maps)) && (k in kube.maps ==> kube.maps[k] == old(kube.maps[k]))
      ensures kube.reliable ==> reached && landed && r != Error
    {
      var c := substConfigMap[crName];
      var cfgMap := kube.Get(c.Where());
      reached, landed := !cfgMap.Unreachable?, true;
      r := Done;
      match cfgMap
      case NotFound =>
        var ok := kube.Write(c.Where(), c.identities);
        r := if ok then Done else Error;
        landed := c.Where() in kube.maps;
      case Unreachable =>
      case Found(data) =>
        if |c.identities| > 0 && c.identities != data {
          if data == map[] {
            return NilMapPanic, reached, landed;
          }
          var ok := kube.Write(c.Where(), data + c.identities);
          r := if ok then Done else Error;
          landed := kube.maps[c.Where()] == data + c.identities;
        }
    }
  }

  // ---------- runs of the controller ----------

  /** One server set's values: in memory, and as last stored. */
  datatype Memory = Memory(identities: Data, stored: Option<Data>)

  /** `Flush(reached, landed)` is a CreateOrUpdate that could read the ConfigMap and whose write took
      effect; `Restart` loses everything in memory. */
  datatype Call =
    | Set(replica: int, version: int, key: string, value: string)
    | Flush(reached: bool, landed: bool)
    | Restart

  function Step(m: Memory, c: Call): Memory {
    match c
    case Set(i, v, key, val) => m.(identities := m.identities[SubstKey(i, v, key) := val])
    case Flush(reached, landed) =>
      if reached && landed && !CopiesIntoNil(m.stored, m.identities)
      then m.(stored := Some(Merged(m.stored, m.identities))) else m
    case Restart => m.(identities := map[])
  }

  function Run(m: Memory, calls: seq<Call>): Memory {
    if calls == [] then m else Step(Run(m, calls[..|calls| - 1]), calls[|calls| - 1])
  }

  /** No call takes a stored key away: failed writes, restarts and panics included. */
  lemma {:induction false} StoredOnlyGrows(m: Memory, calls: seq<Call>, key: string)
    requires m.stored.Some? && key in m.stored.value
    ensures Run(m, calls).stored.Some? && key in Run(m, calls).stored.value
  {
    if calls != [] { StoredOnlyGrows(m, calls[..|calls| - 1], key); }
  }

  /** A flush that lands leaves every identity stored exactly when it does not copy into a nil map. */
  lemma FlushStoresIffNotNil(m: Memory)
    ensures (var s := Step(m, Flush(true, true)).stored;
             s.Some? && forall k :: k in m.identities ==> k in s.value && s.value[k] == m.identities[k])
       <==> !CopiesIntoNil(m.stored, m.identities)
  {
    if CopiesIntoNil(m.stored, m.identities) {
      var k :| k in m.identities;
    }
  }

  /** A ConfigMap first stored without values never receives any. */
  lemma {:induction false} EmptyMapStaysEmpty(identities: Data, calls: seq<Call>)
    ensures Run(Memory(identities, Some(map[])), calls).stored == Some(map[])
  {
    if calls != [] { EmptyMapStaysEmpty(identities, calls[..|calls| - 1]); }
  }

  /** The value set for a triple since the last restart, followed call by call. */
  function Pending(calls: seq<Call>, i: int, v: int, key: string): Option<string> {
    if calls == [] then None else
      var before := Pending(calls[..|calls| - 1], i, v, key);
      match calls[|calls| - 1]
      case Set(i', v', key', val) => if (i', v', key') == (i, v, key) then Some(val) else before
      case Flush(_, _) => before
      case Restart => None
  }

  /** The value of a triple that was last set and then flushed before being lost. */
  function Kept(calls: seq<Call>, i: int, v: int, key: string): Option<string> {
    if calls == [] then None else
      var before := Kept(calls[..|calls| - 1], i, v, key);
      match calls[|calls| - 1]
      case Flush(reached, landed) =>
        if reached && landed && Pending(calls, i, v, key).Some? then Pending(calls, i, v, key) else before
      case _ => before
  }

  /** Something was set since the last restart. */
  predicate SomethingPending(calls: seq<Call>) {
    calls != [] &&
    match calls[|calls| - 1]
    case Set(_, _, _, _) => true
    case Flush(_, _) => SomethingPending(calls[..|calls| - 1])
    case Restart => false
  }

  predicate Landed(calls: seq<Call>) {
    exists n :: 0 <= n < |calls| && calls[n] == Flush(true, true)
  }

  /** Something is pending at the first flush that lands. */
  predicate ValueFirst(calls: seq<Call>) {
    forall n :: 0 <= n < |calls| && calls[n] == Flush(true, true) && !Landed(calls[..n]) ==>
      SomethingPending(calls[..n])
  }

  lemma LandedNext(front: seq<Call>, last: Call)
    ensures Landed(front + [last]) <==> Landed(front) || last == Flush(true, true)
  {
    var calls := front + [last];
    assert forall n :: 0 <= n < |front| ==> calls[n] == front[n];
    assert calls[|front|] == last;
  }

  lemma ValueFirstNext(front: seq<Call>, last: Call)
    ensures ValueFirst(front + [last])
       <==> ValueFirst(front) && (last == Flush(true, true) && !Landed(front) ==> SomethingPending(front))
  {
    hide Landed, SomethingPending;
    var calls := front + [last];
    assert forall n :: 0 <= n <= |front| ==> calls[..n] == front[..n];
    assert front[..|front|] == front && calls[|front|] == last;
    assert forall n :: 0 <= n < |front| ==> calls[n] == front[n];
  }

  /** What a run has stored: nothing before a flush has landed; no values at all, for good, when nothing was
      pending at the first that did. So something is stored for good exactly if a value came first. */
  lemma {:induction false} StoredNonEmptyIffValueFirst(calls: seq<Call>)
    ensures var m := Run(Memory(map[], None), calls);
      && (m.identities != map[] <==> SomethingPending(calls))
      && (m.stored.Some? <==> Landed(calls))
      && (m.stored == Some(map[]) <==> !ValueFirst(calls))
  {
    hide Landed, ValueFirst;
    if calls == [] {
      NothingYet();
    } else {
      var front, last := calls[..|calls| - 1], calls[|calls| - 1];
      assert calls == front + [last];
      StoredNonEmptyIffValueFirst(front);
      LandedNext(front, last);
      ValueFirstNext(front, last);
      StepKinds(Run(Memory(map[], None), front), last);
    }
  }

  lemma NothingYet()
    ensures !Landed([]) && ValueFirst([])
  {
  }

  /** What one call makes of emptiness. */
  lemma StepKinds(m: Memory, c: Call)
    ensures Step(m, c).identities != map[] <==> c.Set? || (c.Flush? && m.identities != map[])
    ensures Step(m, c).stored.Some? <==> m.stored.Some? || c == Flush(true, true)
    ensures Step(m, c).stored == Some(map[])
       <==> m.stored == Some(map[]) || (m.stored == None && c == Flush(true, true) && m.identities == map[])
  {
    hide SubstKey, ReadSubstKey;
    if c.Set? { assert SubstKey(c.replica, c.version, c.key) in Step(m, c).identities; }
    if m.stored.Some? && m.stored.value != map[] { MergedStaysFull(m.stored.value, m.identities); }
  }

  lemma MergedStaysFull(d: Data, identities: Data)
    requires d != map[]
    ensures Merged(Some(d), identities) != map[]
  {
    var k :| k in d;
    assert k in Merged(Some(d), identities);
  }

  function At(d: Data, key: string): Option<string> {
    if key in d then Some(d[key]) else None
  }

  /** Merging whole maps under printed keys keeps, for each triple on its own, the value last set and
      flushed for exactly that triple. */
  lemma {:induction false} StoredIsLastFlushed(calls: seq<Call>, i: int, v: int, key: string)
    requires ValueFirst(calls)
    ensures var m := Run(Memory(map[], None), calls);
            && At(m.identities, SubstKey(i, v, key)) == Pending(calls, i, v, key)
            && (m.stored.Some? ==> At(m.stored.value, SubstKey(i, v, key)) == Kept(calls, i, v, key))
            && (m.stored.None? ==> Kept(calls, i, v, key).None?)
  {
    hide SubstKey, ReadSubstKey, Merged, At, ValueFirst, Landed, SomethingPending;
    NothingAt(SubstKey(i, v, key));
    if calls != [] {
      var front, last := calls[..|calls| - 1], calls[|calls| - 1];
      assert calls == front + [last];
      ValueFirstNext(front, last);
      StoredIsLastFlushed(front, i, v, key);
      StoredNonEmptyIffValueFirst(front);
      var m := Run(Memory(map[], None), front);
      SetAt(m.identities, last, i, v, key);
      MergedAt(m.stored, m.identities, SubstKey(i, v, key));
    }
  }

  lemma NothingAt(k: string)
    ensures At(map[], k) == None
  {
  }

  lemma SetAt(ids: Data, c: Call, i: int, v: int, key: string)
    ensures c.Set? ==> (
      At(ids[SubstKey(c.replica, c.version, c.key) := c.value], SubstKey(i, v, key))
        == if (c.replica, c.version, c.key) == (i, v, key) then Some(c.value) else At(ids, SubstKey(i, v, key)))
  {
    hide SubstKey, ReadSubstKey;
    if c.Set? {
      assert ReadSubstKey(SubstKey(c.replica, c.version, c.key)) == (c.replica, c.version, c.key);
      assert ReadSubstKey(SubstKey(i, v, key)) == (i, v, key);
    }
  }

  lemma MergedAt(stored: Option<Data>, identities: Data, k: string)
    ensures At(Merged(stored, identities), k)
         == if At(identities, k).Some? then At(identities, k) else if stored.Some? then At(stored.value, k) else None
  {
  }

  // ---------- the controller's own runs ----------

  datatype Op = DoSet(replica: int, version: int, key: string, value: string) | DoFlush | DoRestart

  /** The call that an operation turned out to be. */
  predicate Became(op: Op, c: Call) {
    match op
    case DoSet(i, v, key, value) => c == Set(i, v, key, value)
    case DoFlush => c.Flush?
    case DoRestart => c.Restart?
  }

  /** The server set's entry, if there is one, is for this namespace. */
  ghost predicate Mine(c: Controller, crName: string, namespace: string)
    reads c
  {
    crName in c.substConfigMap ==> c.substConfigMap[crName].Where() == MapKey(namespace, crName)
  }

  method Do(c: Controller, crName: string, namespace: string, op: Op) returns (ghost call: Call)
    requires Mine(c, crName, namespace)
    modifies c, c.kube
    ensures Mine(c, crName, namespace) && Became(op, call)
    ensures c.Mem(crName, namespace) == Step(old(c.Mem(crName, namespace)), call)
    ensures c.kube.reliable && call.Flush? ==> call == Flush(true, true)
  {
    hide SubstKey, ReadSubstKey, Merged;
    match op {
      case DoSet(i, v, key, value) =>
        c.SetSubstitutionConfigMap(crName, namespace);
        c.SetIdentity(crName, SubstKey(i, v, key), value);
        call := Set(i, v, key, value);
      case DoFlush =>
        c.SetSubstitutionConfigMap(crName, namespace);
        assert c.Mem(crName, namespace) == old(c.Mem(crName, namespace));
        ghost var r, reached, landed;
        r, reached, landed := c.CreateOrUpdate(crName);
        call := Flush(reached, landed);
      case DoRestart =>
        c.Restart();
        call := Restart;
    }
  }

  /** Any sequence of operations on the controller is a run of calls. */
  method DoAll(c: Controller, crName: string, namespace: string, ops: seq<Op>) returns (ghost calls: seq<Call>)
    requires Mine(c, crName, namespace)
    modifies c, c.kube
    ensures Mine(c, crName, namespace)
    ensures |calls| == |ops| && forall j :: 0 <= j < |ops| ==> Became(ops[j], calls[j])
    ensures c.Mem(crName, namespace) == Run(old(c.Mem(crName, namespace)), calls)
    ensures c.kube.reliable ==> forall j :: 0 <= j < |calls| && calls[j].Flush? ==> calls[j] == Flush(true, true)
  {
    hide Step, Became;
    calls := [];
    for n := 0 to |ops|
      invariant Mine(c, crName, namespace)
      invariant |calls| == n && forall j :: 0 <= j < n ==> Became(ops[j], calls[j])
      invariant c.Mem(crName, namespace) == Run(old(c.Mem(crName, namespace)), calls)
      invariant c.kube.reliable ==> forall j :: 0 <= j < n && calls[j].Flush? ==> calls[j] == Flush(true, true)
    {
      ghost var call;
      call := Do(c, crName, namespace, ops[n]);
      assert (calls + [call])[..n] == calls;
      calls := calls + [call];
    }
  }

  /** From a provider that never ran: whatever was done, fetching a triple gives the value last set and then
      stored for exactly that triple. */
  method FetchAfter(c: Controller, crName: string, namespace: string, ops: seq<Op>, key: string, i: int, v: int)
      returns (value: string, ghost calls: seq<Call>, ghost reached: bool)
    requires c.substConfigMap == map[] && MapKey(namespace, crName) !in c.kube.maps
    modifies c, c.kube
    ensures |calls| == |ops| && forall j :: 0 <= j < |ops| ==> Became(ops[j], calls[j])
    ensures reached && ValueFirst(calls) ==>
              value == match Kept(calls, i, v, key) case Some(last) => last case None => ""
    ensures c.kube.reliable ==> reached
  {
    hide Became, SubstKey, ReadSubstKey, ValueFirst;
    calls := DoAll(c, crName, namespace, ops);
    ghost var m := c.Mem(crName, namespace);
    c.SetSubstitutionConfigMap(crName, namespace);
    assert c.Stored(crName) == m.stored;
    value, reached := c.FetchSubstitutionFromMap(crName, key, i, v);
    if ValueFirst(calls) { StoredIsLastFlushed(calls, i, v, key); }
  }
}
