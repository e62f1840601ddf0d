/**
  Substitution values over whole runs: volumes recorded, values stored, the provider restarted, and status
  passes in between, each answered as far as the API server allows.
 */
module Restarts {
  import opened Wrappers
  import opened Names
  import opened Recovery
  import Sub = Substitution
  import CM = ConfigMap

  /** The set's substitutions and the base of its volume names. */
  datatype Template = Template(keys: seq<string>, base: string)

  /** `Record` is the creation of a boot volume with what the handlers logged for it; `Look` is one
      replica's turn in a status pass. */
  datatype Event =
    | Record(replica: nat, version: nat, log: Log)
    | Flush(reached: bool, landed: bool)
    | Restart
    | Look(replica: nat, version: nat, answered: seq<bool>)

  // ---------- what a run does ----------

  /** The first `n` values of a log, set one by one. */
  function Sets(i: nat, v: nat, keys: seq<string>, log: Log, n: nat): seq<CM.Call>
    requires n <= |keys|
  {
    if n == 0 then []
    else Sets(i, v, keys, log, n - 1) + (if n - 1 < |log| then [CM.Set(i, v, keys[n - 1], log[n - 1].value)] else [])
  }

  function CallsOf(keys: seq<string>, e: Event): seq<CM.Call> {
    match e
    case Record(i, v, log) => Sets(i, v, keys, log, |keys|)
    case Flush(reached, landed) => [CM.Flush(reached, landed)]
    case Restart => [CM.Restart]
    case Look(_, _, _) => []
  }

  /** What the run does to the ConfigMap controller. */
  function Calls(keys: seq<string>, events: seq<Event>): seq<CM.Call> {
    if events == [] then [] else Calls(keys, events[..|events| - 1]) + CallsOf(keys, events[|events| - 1])
  }

  /** The values in memory and as stored after a run of a provider that never ran before. */
  function MemoryAfter(keys: seq<string>, events: seq<Event>): CM.Memory {
    CM.Run(CM.Memory(map[], None), Calls(keys, events))
  }

  function StoredData(m: CM.Memory): CM.Data {
    match m.stored case Some(d) => d case None => map[]
  }

  /** One event's effect on the in-memory logs, with `d` stored. */
  function LogsStep(t: Template, logs: Sub.Logs, d: CM.Data, e: Event): Sub.Logs {
    match e
    case Record(i, v, log) => logs[GetNameFrom(t.base, i, v) := log]
    case Flush(_, _) => logs
    case Restart => map[]
    case Look(i, v, answered) =>
      var id := GetNameFrom(t.base, i, v);
      if |answered| == |t.keys|
      then logs[id := Restored(t.keys, d, i, v, Sub.LogOf(logs, id), answered, |t.keys|)] else logs
  }

  function LogsAfter(t: Template, events: seq<Event>): Sub.Logs {
    if events == [] then map[] else
      var front := events[..|events| - 1];
      LogsStep(t, LogsAfter(t, front), StoredData(MemoryAfter(t.keys, front)), events[|events| - 1])
  }

  function LogAfter(t: Template, events: seq<Event>, i: nat, v: nat): Log {
    Sub.LogOf(LogsAfter(t, events), GetNameFrom(t.base, i, v))
  }

  // ---------- what should come back ----------

  /** The log recorded for a volume since the last restart. */
  function Pending(events: seq<Event>, i: nat, v: nat): Option<Log> {
    if events == [] then None else
      var before := Pending(events[..|events| - 1], i, v);
      match events[|events| - 1]
      case Record(i', v', log) => if (i', v') == (i, v) then Some(log) else before
      case Restart => None
      case _ => before
  }

  /** The log that was last recorded for a volume and then stored before being lost. */
  function Kept(events: seq<Event>, i: nat, v: nat): Option<Log> {
    if events == [] then None else
      var before := Kept(events[..|events| - 1], i, v);
      match events[|events| - 1]
      case Flush(reached, landed) =>
        var pending := Pending(events[..|events| - 1], i, v);
        if reached && landed && pending.Some? then pending else before
      case _ => before
  }

  /** Handlers log one value per substitution in order, none empty. */
  predicate Proper(keys: seq<string>, events: seq<Event>) {
    && Distinct(keys)
    && forall n :: 0 <= n < |events| ==>
         match events[n]
         case Record(_, _, log) => Aligned(keys, log) && NoneEmpty(log)
         case Look(_, _, answered) => |answered| == |keys|
         case _ => true
  }

  /** In every turn of a status pass, reads fail from some point on, if at all. */
  predicate LooksInOrder(events: seq<Event>) {
    forall n :: 0 <= n < |events| && events[n].Look? ==> InOrder(events[n].answered)
  }

  // ---------- set by set, triple by triple ----------

  lemma {:induction false} RecordedIsSets(m: CM.Memory, calls: seq<CM.Call>, i: nat, v: nat, keys: seq<string>,
                                          log: Log, n: nat)
    requires n <= |keys|
    ensures var before, after := CM.Run(m, calls), CM.Run(m, calls + Sets(i, v, keys, log, n));
      after.stored == before.stored && after.identities == Recorded(before.identities, keys, log, i, v, n)
  {
    hide SubstKey, ReadSubstKey, CM.Merged;
    if n == 0 {
      RecordedNone(CM.Run(m, calls).identities, keys, log, i, v);
      assert calls + [] == calls;
    } else {
      RecordedIsSets(m, calls, i, v, keys, log, n - 1);
      RecordedNext(CM.Run(m, calls).identities, keys, log, i, v, n - 1);
      var front := calls + Sets(i, v, keys, log, n - 1);
      if n - 1 < |log| {
        var last := CM.Set(i, v, keys[n - 1], log[n - 1].value);
        assert calls + Sets(i, v, keys, log, n) == front + [last];
        assert (front + [last])[..|front|] == front;
      } else {
        assert calls + Sets(i, v, keys, log, n) == front;
      }
    }
  }

  lemma PendingSet(calls: seq<CM.Call>, i: nat, v: nat, key: string, value: string, i': nat, v': nat, key': string)
    ensures var after := calls + [CM.Set(i, v, key, value)];
      && CM.Pending(after, i', v', key')
           == (if (i, v, key) == (i', v', key') then Some(value) else CM.Pending(calls, i', v', key'))
      && CM.Kept(after, i', v', key') == CM.Kept(calls, i', v', key')
      && CM.SomethingPending(after)
  {
    assert (calls + [CM.Set(i, v, key, value)])[..|calls|] == calls;
  }

  lemma SetsNext(calls: seq<CM.Call>, i: nat, v: nat, keys: seq<string>, log: Log, n: nat)
    requires n < |keys| && n < |log|
    ensures calls + Sets(i, v, keys, log, n + 1)
         == calls + Sets(i, v, keys, log, n) + [CM.Set(i, v, keys[n], log[n].value)]
  {
  }

  lemma {:induction false} PendingSets(calls: seq<CM.Call>, i: nat, v: nat, keys: seq<string>, log: Log, n: nat,
                                       i': nat, v': nat, j: nat)
    requires n <= |keys| == |log| && j < |keys| && Distinct(keys)
    ensures var after := calls + Sets(i, v, keys, log, n);
      && CM.Pending(after, i', v', keys[j])
           == (if (i, v) == (i', v') && j < n then Some(log[j].value) else CM.Pending(calls, i', v', keys[j]))
      && CM.Kept(after, i', v', keys[j]) == CM.Kept(calls, i', v', keys[j])
  {
    hide CM.Pending, CM.Kept, Sets;
    if n == 0 {
      NoSets(calls, i, v, keys, log);
    } else {
      PendingSets(calls, i, v, keys, log, n - 1, i', v', j);
      SetsNext(calls, i, v, keys, log, n - 1);
      PendingSet(calls + Sets(i, v, keys, log, n - 1), i, v, keys[n - 1], log[n - 1].value, i', v', keys[j]);
    }
  }

  lemma NoSets(calls: seq<CM.Call>, i: nat, v: nat, keys: seq<string>, log: Log)
    ensures calls + Sets(i, v, keys, log, 0) == calls
  {
  }

  function ValueAt(log: Option<Log>, j: nat): Option<string> {
    match log case Some(l) => if j < |l| then Some(l[j].value) else None case None => None
  }

  lemma ProperFront(keys: seq<string>, events: seq<Event>)
    requires Proper(keys, events) && events != []
    ensures Proper(keys, events[..|events| - 1])
  {
  }

  lemma ProperLast(keys: seq<string>, events: seq<Event>)
    requires Proper(keys, events) && events != []
    ensures var last := events[|events| - 1];
      && Distinct(keys)
      && (last.Record? ==> Aligned(keys, last.log) && NoneEmpty(last.log))
      && (last.Look? ==> |last.answered| == |keys|)
  {
  }

  /** Volume by volume is triple by triple. */
  lemma {:induction false} TripleByTriple(keys: seq<string>, events: seq<Event>, i: nat, v: nat, j: nat)
    requires Proper(keys, events) && j < |keys|
    ensures CM.Pending(Calls(keys, events), i, v, keys[j]) == ValueAt(Pending(events, i, v), j)
    ensures CM.Kept(Calls(keys, events), i, v, keys[j]) == ValueAt(Kept(events, i, v), j)
  {
    hide Proper;
    if events != [] {
      var front, last := events[..|events| - 1], events[|events| - 1];
      ProperFront(keys, events);
      ProperLast(keys, events);
      TripleByTriple(keys, front, i, v, j);
      var calls := Calls(keys, front);
      match last {
        case Record(i', v', log) => PendingSets(calls, i', v', keys, log, |keys|, i, v, j);
        case Flush(reached, landed) =>
          assert (calls + [CM.Flush(reached, landed)])[..|calls|] == calls;
          PendingAligned(keys, front, i, v);
        case Restart => assert (calls + [CM.Restart])[..|calls|] == calls;
        case Look(_, _, _) => assert calls + [] == calls;
      }
    }
  }

  lemma {:induction false} PendingAligned(keys: seq<string>, events: seq<Event>, i: nat, v: nat)
    requires Proper(keys, events)
    ensures match Pending(events, i, v) case Some(log) => Aligned(keys, log) && NoneEmpty(log) case None => true
    ensures match Kept(events, i, v) case Some(log) => Aligned(keys, log) && NoneEmpty(log) case None => true
  {
    hide Proper, Aligned, NoneEmpty;
    if events != [] {
      ProperFront(keys, events);
      ProperLast(keys, events);
      PendingAligned(keys, events[..|events| - 1], i, v);
    }
  }

  // ---------- the run ----------

  lemma {:induction false} ValueFirstPrefix(calls: seq<CM.Call>, more: seq<CM.Call>)
    requires CM.ValueFirst(calls + more)
    ensures CM.ValueFirst(calls)
  {
    forall n | 0 <= n < |calls| && calls[n] == CM.Flush(true, true) && !CM.Landed(calls[..n])
      ensures CM.SomethingPending(calls[..n])
    {
      assert (calls + more)[n] == calls[n] && (calls + more)[..n] == calls[..n];
    }
  }

  /** What is stored for a volume is the log that was kept, or nothing. */
  lemma StoredIsKept(keys: seq<string>, events: seq<Event>, i: nat, v: nat)
    requires Proper(keys, events) && CM.ValueFirst(Calls(keys, events))
    ensures var d, kept := StoredData(MemoryAfter(keys, events)), Kept(events, i, v);
      match kept
      case Some(log) => Aligned(keys, log) && NoneEmpty(log) && Holds(d, keys, log, i, v)
      case None => HoldsNone(d, keys, i, v)
  {
    hide Proper, CM.ValueFirst, SubstKey, ReadSubstKey, CM.Run, CM.Kept, CM.Pending, Pending, Kept, CM.At;
    PendingAligned(keys, events, i, v);
    var calls := Calls(keys, events);
    forall j | 0 <= j < |keys|
      ensures CM.At(StoredData(MemoryAfter(keys, events)), SubstKey(i, v, keys[j])) == ValueAt(Kept(events, i, v), j)
    {
      TripleByTriple(keys, events, i, v, j);
      CM.StoredIsLastFlushed(calls, i, v, keys[j]);
      CM.NothingAt(SubstKey(i, v, keys[j]));
    }
  }

  /** The in-memory log of a volume: what was recorded since the last restart, or as much of what was kept
      as the passes since then have read. */
  ghost predicate LogFits(log: Log, pending: Option<Log>, kept: Option<Log>) {
    match pending
    case Some(recorded) => log == recorded
    case None => match kept case Some(stored) => log <= stored case None => log == []
  }

  /** A turn of a status pass for the volume itself. */
  lemma LookFits(keys: seq<string>, d: CM.Data, i: nat, v: nat, log: Log, answered: seq<bool>,
                 pending: Option<Log>, kept: Option<Log>)
    requires Distinct(keys) && |answered| == |keys| && InOrder(answered) && LogFits(log, pending, kept)
    requires pending.Some? ==> Aligned(keys, pending.value)
    requires match kept
             case Some(stored) => Aligned(keys, stored) && NoneEmpty(stored) && Holds(d, keys, stored, i, v)
             case None => HoldsNone(d, keys, i, v)
    ensures var after := Restored(keys, d, i, v, log, answered, |keys|);
      && LogFits(after, pending, kept)
      && (AllAnswered(answered) && pending.None? && kept.Some? ==> after == kept.value)
  {
    hide Restored, SubstKey, ReadSubstKey, CM.At, Aligned, NoneEmpty, Holds, HoldsNone, InOrder;
    if pending.Some? {
      PassOverAllKeys(keys, d, i, v, log, answered, |keys|);
    } else if kept.Some? {
      assert log == kept.value[..|log|];
      PassExtends(keys, d, i, v, kept.value, |log|, answered, |keys|);
      WholeLog(keys, kept.value, answered);
    } else {
      PassFindsNothing(keys, d, i, v, log, answered, |keys|);
    }
  }

  lemma WholeLog(keys: seq<string>, log: Log, answered: seq<bool>)
    requires Aligned(keys, log) && |answered| == |keys|
    ensures AllAnswered(answered) ==> Streak(answered, |keys|) == |keys|
    ensures |log| == |keys| && log[..|keys|] == log
  {
  }

  lemma NamesApart(base: string, i: nat, v: nat, i': nat, v': nat)
    requires (i, v) != (i', v')
    ensures GetNameFrom(base, i, v) != GetNameFrom(base, i', v')
  {
    if GetNameFrom(base, i, v) == GetNameFrom(base, i', v') { NameInjective(base, i, v, base, i', v'); }
  }

  /** Over every run, whatever is stored when and however often the provider restarts, each volume's log is
      what was recorded for it, or the first part of what was kept of it. */
  lemma {:induction false} EveryLogFits(t: Template, events: seq<Event>, i: nat, v: nat)
    requires Proper(t.keys, events) && CM.ValueFirst(Calls(t.keys, events)) && LooksInOrder(events)
    ensures LogFits(LogAfter(t, events, i, v), Pending(events, i, v), Kept(events, i, v))
  {
    hide Proper, CM.ValueFirst, GetNameFrom, Restored, CM.Run, LogFits, Holds, HoldsNone, Aligned, NoneEmpty;
    if events == [] {
      NothingFits(t, i, v);
    } else {
      var front, last := events[..|events| - 1], events[|events| - 1];
      ProperFront(t.keys, events);
      ProperLast(t.keys, events);
      ValueFirstPrefix(Calls(t.keys, front), CallsOf(t.keys, last));
      EveryLogFits(t, front, i, v);
      StoredIsKept(t.keys, front, i, v);
      PendingAligned(t.keys, front, i, v);
      StepFits(t, LogsAfter(t, front), StoredData(MemoryAfter(t.keys, front)), last, i, v,
               Pending(front, i, v), Kept(front, i, v));
    }
  }

  lemma NothingFits(t: Template, i: nat, v: nat)
    ensures LogFits(LogAfter(t, [], i, v), Pending([], i, v), Kept([], i, v))
  {
    hide GetNameFrom;
  }

  function NextPending(pending: Option<Log>, e: Event, i: nat, v: nat): Option<Log> {
    match e
    case Record(i', v', log) => if (i', v') == (i, v) then Some(log) else pending
    case Restart => None
    case _ => pending
  }

  function NextKept(pending: Option<Log>, kept: Option<Log>, e: Event): Option<Log> {
    if e == Flush(true, true) && pending.Some? then pending else kept
  }

  lemma StepFits(t: Template, logs: Sub.Logs, d: CM.Data, e: Event, i: nat, v: nat,
                 pending: Option<Log>, kept: Option<Log>)
    requires LogFits(Sub.LogOf(logs, GetNameFrom(t.base, i, v)), pending, kept) && Distinct(t.keys)
    requires e.Look? ==> |e.answered| == |t.keys| && InOrder(e.answered)
    requires pending.Some? ==> Aligned(t.keys, pending.value)
    requires match kept
             case Some(stored) => Aligned(t.keys, stored) && NoneEmpty(stored) && Holds(d, t.keys, stored, i, v)
             case None => HoldsNone(d, t.keys, i, v)
    ensures LogFits(Sub.LogOf(LogsStep(t, logs, d, e), GetNameFrom(t.base, i, v)), NextPending(pending, e, i, v),
                    NextKept(pending, kept, e))
  {
    hide GetNameFrom, Restored, Holds, HoldsNone, Aligned, NoneEmpty, InOrder, Distinct;
    match e
    case Record(i', v', log) => if (i', v') != (i, v) { NamesApart(t.base, i, v, i', v'); }
    case Look(i', v', answered) =>
      if (i', v') != (i, v) {
        NamesApart(t.base, i, v, i', v');
      } else {
        LookFits(t.keys, d, i, v, Sub.LogOf(logs, GetNameFrom(t.base, i, v)), answered, pending, kept);
      }
    case _ =>
  }

  // ---------- after a crash ----------

  /** After a restart one answered turn rebuilds exactly what was kept of the volume's log, and nothing if
      nothing was; further turns add nothing. */
  lemma RestartRebuilds(t: Template, events: seq<Event>, i: nat, v: nat, logs: Sub.Logs, answered: seq<bool>)
    requires Proper(t.keys, events) && CM.ValueFirst(Calls(t.keys, events))
    requires |answered| == |t.keys| && AllAnswered(answered)
    requires var log, kept := Sub.LogOf(logs, GetNameFrom(t.base, i, v)), Kept(events, i, v);
      log == [] || Some(log) == kept
    ensures var d := StoredData(MemoryAfter(t.keys, events));
      Restored(t.keys, d, i, v, Sub.LogOf(logs, GetNameFrom(t.base, i, v)), answered, |t.keys|)
        == match Kept(events, i, v) case Some(log) => log case None => []
  {
    hide Proper, CM.ValueFirst, GetNameFrom, Restored, CM.Run, Holds, HoldsNone, Aligned, NoneEmpty, Kept, CM.At;
    var d, log := StoredData(MemoryAfter(t.keys, events)), Sub.LogOf(logs, GetNameFrom(t.base, i, v));
    StoredIsKept(t.keys, events, i, v);
    DistinctKeys(t.keys, events);
    AllInOrder(answered);
    LookFits(t.keys, d, i, v, log, answered, None, Kept(events, i, v));
  }

  lemma DistinctKeys(keys: seq<string>, events: seq<Event>)
    requires Proper(keys, events)
    ensures Distinct(keys)
  {
  }

  lemma AllInOrder(answered: seq<bool>)
    requires AllAnswered(answered)
    ensures InOrder(answered)
  {
  }

  // ---------- the real objects ----------

  /** Controller and logs are as the events make them. */
  ghost predicate World(c: CM.Controller, gs: Sub.GlobalState, crName: string, namespace: string, t: Template,
                        events: seq<Event>)
    reads c, c.kube, gs
  {
    && CM.Mine(c, crName, namespace)
    && c.Mem(crName, namespace) == MemoryAfter(t.keys, events)
    && forall id :: Sub.LogOf(gs.logs, id) == Sub.LogOf(LogsAfter(t, events), id)
  }

  lemma EventNext(t: Template, events: seq<Event>, e: Event)
    ensures Calls(t.keys, events + [e]) == Calls(t.keys, events) + CallsOf(t.keys, e)
    ensures LogsAfter(t, events + [e]) == LogsStep(t, LogsAfter(t, events), StoredData(MemoryAfter(t.keys, events)), e)
    ensures forall i, v :: Pending(events + [e], i, v) == NextPending(Pending(events, i, v), e, i, v)
    ensures forall i, v :: Kept(events + [e], i, v) == NextKept(Pending(events, i, v), Kept(events, i, v), e)
  {
    assert (events + [e])[..|events|] == events;
  }

  /** One replica's turn in a status pass. */
  method LookAt(c: CM.Controller, gs: Sub.GlobalState, crName: string, namespace: string, t: Template,
                i: nat, v: nat, ghost events: seq<Event>) returns (ghost look: Event)
    requires World(c, gs, crName, namespace, t, events)
    modifies c, gs
    ensures World(c, gs, crName, namespace, t, events + [look])
    ensures look.Look? && look.replica == i && look.version == v && |look.answered| == |t.keys|
    ensures c.kube.reliable ==> AllAnswered(look.answered)
    ensures c.kube.maps == old(c.kube.maps)
  {
    hide GetNameFrom, Restored, CM.Run, Calls, Sub.LogOf, ShowsStored, LogsAfter;
    ghost var shown, answered;
    ghost var d := DataOf(c, crName, namespace);
    shown, answered := SetSubstitutions(c, gs, crName, namespace, t.keys, GetNameFrom(t.base, i, v), i, v);
    look := Look(i, v, answered);
    EventNext(t, events, look);
    assert Calls(t.keys, events) + [] == Calls(t.keys, events);
    LogsStepSame(t, LogsAfter(t, events), old(gs.logs), d, i, v, answered, gs.logs);
  }

  lemma LogsStepSame(t: Template, logs: Sub.Logs, was: Sub.Logs, d: CM.Data, i: nat, v: nat, answered: seq<bool>,
                     now: Sub.Logs)
    requires forall id :: Sub.LogOf(logs, id) == Sub.LogOf(was, id)
    requires |answered| == |t.keys|
    requires var id := GetNameFrom(t.base, i, v);
      && Sub.LogOf(now, id) == Restored(t.keys, d, i, v, Sub.LogOf(was, id), answered, |t.keys|)
      && forall other :: other != id ==> Sub.LogOf(now, other) == Sub.LogOf(was, other)
    ensures forall id :: Sub.LogOf(now, id) == Sub.LogOf(LogsStep(t, logs, d, Look(i, v, answered)), id)
  {
    hide GetNameFrom, Restored;
    forall id ensures Sub.LogOf(now, id) == Sub.LogOf(LogsStep(t, logs, d, Look(i, v, answered)), id) {
      assert Sub.LogOf(logs, id) == Sub.LogOf(was, id);
    }
  }

  datatype Current = Current(replica: nat, version: nat)

  /** The turns of one pass over the replicas, in list order. */
  ghost predicate Turns(keys: seq<string>, replicas: seq<Current>, looks: seq<Event>) {
    |looks| == |replicas| && forall r :: 0 <= r < |looks| ==>
      && looks[r].Look? && looks[r].replica == replicas[r].replica && looks[r].version == replicas[r].version
      && |looks[r].answered| == |keys|
  }

  ghost predicate FullyAnswered(looks: seq<Event>) {
    forall r :: 0 <= r < |looks| && looks[r].Look? ==> AllAnswered(looks[r].answered)
  }

  /** The substitution part of a status pass over all replicas. */
  method StatusPass(c: CM.Controller, gs: Sub.GlobalState, crName: string, namespace: string, t: Template,
                    replicas: seq<Current>, ghost events: seq<Event>) returns (ghost looks: seq<Event>)
    requires World(c, gs, crName, namespace, t, events)
    modifies c, gs
    ensures World(c, gs, crName, namespace, t, events + looks) && Turns(t.keys, replicas, looks)
    ensures c.kube.reliable ==> FullyAnswered(looks)
    ensures c.kube.maps == old(c.kube.maps)
  {
    hide World, AllAnswered;
    looks := [];
    assert events + [] == events;
    for r := 0 to |replicas|
      invariant World(c, gs, crName, namespace, t, events + looks) && Turns(t.keys, replicas[..r], looks)
      invariant c.kube.reliable ==> FullyAnswered(looks)
      invariant c.kube.maps == old(c.kube.maps)
    {
      ghost var look;
      look := LookAt(c, gs, crName, namespace, t, replicas[r].replica, replicas[r].version, events + looks);
      assert events + looks + [look] == events + (looks + [look]);
      looks := looks + [look];
    }
    assert replicas[..|replicas|] == replicas;
  }

  /** The handlers log the values, by their contract, and these are recorded. */
  method RecordVolume(c: CM.Controller, gs: Sub.GlobalState, crName: string, namespace: string, t: Template,
                      i: nat, v: nat, log: Log, ghost events: seq<Event>)
    requires World(c, gs, crName, namespace, t, events)
    modifies c, gs
    ensures World(c, gs, crName, namespace, t, events + [Record(i, v, log)])
    ensures crName in c.substConfigMap
  {
    hide GetNameFrom, CM.Run, Recorded, Calls, LogsAfter;
    var id := GetNameFrom(t.base, i, v);
    gs.logs := gs.logs[id := log];
    c.SetSubstitutionConfigMap(crName, namespace);
    RecordSubstitutions(c, gs, crName, t.keys, id, i, v);
    EventNext(t, events, Record(i, v, log));
    RecordedIsSets(CM.Memory(map[], None), Calls(t.keys, events), i, v, t.keys, log, |t.keys|);
    assert CM.Mine(c, crName, namespace);
    assert c.Mem(crName, namespace) == MemoryAfter(t.keys, events + [Record(i, v, log)]);
    forall other
      ensures Sub.LogOf(gs.logs, other) == Sub.LogOf(LogsAfter(t, events + [Record(i, v, log)]), other)
    {
      assert Sub.LogOf(old(gs.logs), other) == Sub.LogOf(LogsAfter(t, events), other);
    }
  }

  method Store(c: CM.Controller, gs: Sub.GlobalState, crName: string, namespace: string, t: Template,
               ghost events: seq<Event>) returns (ghost flush: Event)
    requires World(c, gs, crName, namespace, t, events) && crName in c.substConfigMap
    modifies c.kube
    ensures World(c, gs, crName, namespace, t, events + [flush])
    ensures flush.Flush? && (c.kube.reliable ==> flush == Flush(true, true))
  {
    hide CM.Run, CM.Merged, Calls, LogsAfter, Sub.LogOf;
    ghost var r, reached, landed;
    r, reached, landed := c.CreateOrUpdate(crName);
    flush := Flush(reached, landed);
    EventNext(t, events, flush);
    RunNext(CM.Memory(map[], None), Calls(t.keys, events), CM.Flush(reached, landed));
  }

  /** setPatcher: a failure to store is logged only. */
  method SetPatcher(c: CM.Controller, gs: Sub.GlobalState, crName: string, namespace: string, t: Template,
                    i: nat, v: nat, log: Log, ghost events: seq<Event>) returns (ghost flush: Event)
    requires World(c, gs, crName, namespace, t, events)
    modifies c, c.kube, gs
    ensures World(c, gs, crName, namespace, t, events + [Record(i, v, log)] + [flush])
    ensures flush.Flush? && (c.kube.reliable ==> flush == Flush(true, true))
  {
    hide World;
    RecordVolume(c, gs, crName, namespace, t, i, v, log, events);
    flush := Store(c, gs, crName, namespace, t, events + [Record(i, v, log)]);
  }

  lemma RunNext(m: CM.Memory, calls: seq<CM.Call>, call: CM.Call)
    ensures CM.Run(m, calls + [call]) == CM.Step(CM.Run(m, calls), call)
  {
    assert (calls + [call])[..|calls|] == calls;
  }

  // ---------- any sequence of operations ----------

  datatype Op = CreateVolume(replica: nat, version: nat, log: Log) | Crash | Pass(replicas: seq<Current>)

  /** The set has substitutions, and handlers keep their contract. */
  predicate OpsProper(keys: seq<string>, ops: seq<Op>) {
    && keys != [] && Distinct(keys)
    && forall n :: 0 <= n < |ops| && ops[n].CreateVolume? ==> Aligned(keys, ops[n].log) && NoneEmpty(ops[n].log)
  }

  function LastCreated(ops: seq<Op>, i: nat, v: nat): Option<Log> {
    if ops == [] then None else
      var before := LastCreated(ops[..|ops| - 1], i, v);
      match ops[|ops| - 1]
      case CreateVolume(i', v', log) => if (i', v') == (i, v) then Some(log) else before
      case _ => before
  }

  /** What makes a run one whose values can come back. */
  ghost predicate Sound(keys: seq<string>, events: seq<Event>) {
    Proper(keys, events) && CM.ValueFirst(Calls(keys, events))
  }

  ghost predicate AreLooks(keys: seq<string>, looks: seq<Event>) {
    forall r :: 0 <= r < |looks| ==> looks[r].Look? && |looks[r].answered| == |keys|
  }

  /** Turns of a status pass store nothing. */
  lemma {:induction false} LooksKeep(t: Template, events: seq<Event>, looks: seq<Event>)
    requires AreLooks(t.keys, looks)
    ensures Sound(t.keys, events) ==> Sound(t.keys, events + looks)
    ensures MemoryAfter(t.keys, events + looks) == MemoryAfter(t.keys, events)
    ensures forall i, v :: Pending(events + looks, i, v) == Pending(events, i, v)
    ensures forall i, v :: Kept(events + looks, i, v) == Kept(events, i, v)
  {
    hide CM.ValueFirst, CM.Run, Sound;
    if looks == [] {
      assert events + looks == events;
    } else {
      var front, last := looks[..|looks| - 1], looks[|looks| - 1];
      LooksKeep(t, events, front);
      assert events + looks == events + front + [last];
      EventNext(t, events + front, last);
      assert Calls(t.keys, events + front) + [] == Calls(t.keys, events + front);
      SoundNext(t, events + front, last);
    }
  }

  /** An event that is proper and no first empty flush keeps a run sound. */
  lemma SoundNext(t: Template, events: seq<Event>, e: Event)
    requires e.Look? ==> |e.answered| == |t.keys|
    requires e.Record? ==> t.keys != [] && Aligned(t.keys, e.log) && NoneEmpty(e.log)
    requires e.Flush? ==> CM.SomethingPending(Calls(t.keys, events))
    ensures Sound(t.keys, events) ==> Sound(t.keys, events + [e])
    ensures e.Record? ==> CM.SomethingPending(Calls(t.keys, events + [e]))
  {
    hide CM.Landed, CM.SomethingPending, CM.ValueFirst, Sets, Aligned, NoneEmpty, Distinct;
    EventNext(t, events, e);
    var calls := Calls(t.keys, events);
    match e {
      case Record(i, v, log) => SetsValueFirst(calls, i, v, t.keys, log, |t.keys|);
      case Flush(reached, landed) => CM.ValueFirstNext(calls, CM.Flush(reached, landed));
      case Restart => CM.ValueFirstNext(calls, CM.Restart);
      case Look(_, _, _) => assert calls + [] == calls;
    }
    ProperNext(t.keys, events, e);
  }

  lemma ProperNext(keys: seq<string>, events: seq<Event>, e: Event)
    requires e.Look? ==> |e.answered| == |keys|
    requires e.Record? ==> Aligned(keys, e.log) && NoneEmpty(e.log)
    ensures Proper(keys, events) ==> Proper(keys, events + [e])
  {
    hide Aligned, NoneEmpty, Distinct;
  }

  lemma {:induction false} SetsValueFirst(calls: seq<CM.Call>, i: nat, v: nat, keys: seq<string>, log: Log, n: nat)
    requires n <= |keys| && Aligned(keys, log)
    ensures CM.ValueFirst(calls) ==> CM.ValueFirst(calls + Sets(i, v, keys, log, n))
    ensures n > 0 ==> CM.SomethingPending(calls + Sets(i, v, keys, log, n))
  {
    hide CM.Landed, CM.SomethingPending, CM.ValueFirst, Sets;
    if n == 0 {
      NoSets(calls, i, v, keys, log);
    } else {
      SetsValueFirst(calls, i, v, keys, log, n - 1);
      SetsNext(calls, i, v, keys, log, n - 1);
      var front, key, value := calls + Sets(i, v, keys, log, n - 1), keys[n - 1], log[n - 1].value;
      CM.ValueFirstNext(front, CM.Set(i, v, key, value));
      PendingSet(front, i, v, key, value, i, v, key);
    }
  }

  /** Everything pending is stored. */
  ghost predicate Synced(events: seq<Event>) {
    forall i, v :: Pending(events, i, v).Some? ==> Pending(events, i, v) == Kept(events, i, v)
  }

  /** Any operations on a provider that never ran before make a sound run, and when nothing fails outside
      the last log of every volume is kept. */
  method DoOps(c: CM.Controller, gs: Sub.GlobalState, crName: string, namespace: string, t: Template, ops: seq<Op>)
      returns (ghost events: seq<Event>)
    requires World(c, gs, crName, namespace, t, []) && OpsProper(t.keys, ops)
    modifies c, c.kube, gs
    ensures World(c, gs, crName, namespace, t, events) && Sound(t.keys, events)
    ensures c.kube.reliable ==> forall i, v :: Kept(events, i, v) == LastCreated(ops, i, v)
  {
    hide World, Sound, Synced, OpsProper, Pending, Kept, Aligned, NoneEmpty, Distinct, LastCreated;
    events := [];
    SoundStart(t, ops);
    for n := 0 to |ops|
      invariant World(c, gs, crName, namespace, t, events) && Sound(t.keys, events)
      invariant c.kube.reliable ==> Synced(events)
      invariant c.kube.reliable ==> forall i, v :: Kept(events, i, v) == LastCreated(ops[..n], i, v)
    {
      ghost var before := events;
      OpProper(t.keys, ops, n);
      match ops[n] {
        case CreateVolume(i, v, log) =>
          ghost var flush;
          flush := SetPatcher(c, gs, crName, namespace, t, i, v, log, events);
          SoundNext(t, events, Record(i, v, log));
          SoundNext(t, events + [Record(i, v, log)], flush);
          events := events + [Record(i, v, log)] + [flush];
          if c.kube.reliable { CreateSyncs(before, i, v, log); }
        case Crash =>
          Lose(c, gs, crName, namespace, t, events);
          SoundNext(t, events, Restart);
          if c.kube.reliable { RestartSyncs(t, before); }
          events := events + [Restart];
        case Pass(replicas) =>
          ghost var looks;
          looks := StatusPass(c, gs, crName, namespace, t, replicas, events);
          LooksKeep(t, events, looks);
          if c.kube.reliable { SameSyncs(before, events + looks); }
          events := events + looks;
      }
      LastCreatedNext(ops, n);
    }
    assert ops[..|ops|] == ops;
  }

  lemma SoundStart(t: Template, ops: seq<Op>)
    requires OpsProper(t.keys, ops)
    ensures Sound(t.keys, []) && Synced([])
    ensures forall i, v :: Kept([], i, v) == LastCreated(ops[..0], i, v)
  {
    CM.NothingYet();
  }

  lemma OpProper(keys: seq<string>, ops: seq<Op>, n: nat)
    requires OpsProper(keys, ops) && n < |ops|
    ensures keys != [] && (ops[n].CreateVolume? ==> Aligned(keys, ops[n].log) && NoneEmpty(ops[n].log))
  {
    hide Aligned, NoneEmpty, Distinct;
  }

  lemma LastCreatedNext(ops: seq<Op>, n: nat)
    requires n < |ops|
    ensures forall i: nat, v: nat :: LastCreated(ops[..n + 1], i, v)
              == if ops[n].CreateVolume? && (ops[n].replica, ops[n].version) == (i, v) then Some(ops[n].log)
                 else LastCreated(ops[..n], i, v)
  {
    assert ops[..n + 1][..n] == ops[..n];
  }

  lemma PairNext(events: seq<Event>, e: Event, i: nat, v: nat)
    ensures Pending(events + [e], i, v) == NextPending(Pending(events, i, v), e, i, v)
    ensures Kept(events + [e], i, v) == NextKept(Pending(events, i, v), Kept(events, i, v), e)
  {
    assert (events + [e])[..|events|] == events;
  }

  lemma CreateSyncs(events: seq<Event>, i: nat, v: nat, log: Log)
    requires Synced(events)
    ensures var after := events + [Record(i, v, log)] + [Flush(true, true)];
      && Synced(after)
      && forall i': nat, v': nat ::
           Kept(after, i', v') == if (i', v') == (i, v) then Some(log) else Kept(events, i', v')
  {
    var recorded, after := events + [Record(i, v, log)], events + [Record(i, v, log)] + [Flush(true, true)];
    forall i': nat, v': nat
      ensures Pending(after, i', v').Some? ==> Pending(after, i', v') == Kept(after, i', v')
      ensures Kept(after, i', v') == if (i', v') == (i, v) then Some(log) else Kept(events, i', v')
    {
      hide Pending, Kept;
      PairNext(events, Record(i, v, log), i', v');
      PairNext(recorded, Flush(true, true), i', v');
    }
  }

  lemma RestartSyncs(t: Template, events: seq<Event>)
    requires Synced(events)
    ensures Synced(events + [Restart]) && forall i, v :: Kept(events + [Restart], i, v) == Kept(events, i, v)
  {
    hide Pending, Kept;
    EventNext(t, events, Restart);
  }

  lemma SameSyncs(events: seq<Event>, after: seq<Event>)
    requires Synced(events)
    requires forall i, v :: Pending(after, i, v) == Pending(events, i, v)
    requires forall i, v :: Kept(after, i, v) == Kept(events, i, v)
    ensures Synced(after)
  {
    hide Pending, Kept;
  }

  /** The provider restarts. */
  method Lose(c: CM.Controller, gs: Sub.GlobalState, crName: string, namespace: string, t: Template,
                ghost events: seq<Event>)
    requires World(c, gs, crName, namespace, t, events)
    modifies c, gs
    ensures World(c, gs, crName, namespace, t, events + [Restart])
    ensures c.substConfigMap == map[] && gs.logs == map[]
  {
    hide CM.Run, Calls, LogsAfter;
    c.Restart();
    gs.logs := map[];
    EventNext(t, events, Restart);
    RunNext(CM.Memory(map[], None), Calls(t.keys, events), CM.Restart);
  }

  function OrNothing(kept: Option<Log>): Log {
    match kept case Some(log) => log case None => []
  }

  lemma OtherTurn(t: Template, events: seq<Event>, look: Event, i: nat, v: nat)
    requires look.Look? && (look.replica, look.version) != (i, v)
    ensures LogAfter(t, events + [look], i, v) == LogAfter(t, events, i, v)
  {
    hide GetNameFrom, LogsAfter, Restored, CM.Run, Kept, Pending, Calls;
    EventNext(t, events, look);
    NamesApart(t.base, i, v, look.replica, look.version);
  }

  ghost predicate HasTurn(looks: seq<Event>, i: nat, v: nat) {
    exists r :: 0 <= r < |looks| && looks[r].Look? && looks[r].replica == i && looks[r].version == v
  }

  lemma HasTurnNext(front: seq<Event>, last: Event, i: nat, v: nat)
    ensures HasTurn(front + [last], i, v)
       <==> HasTurn(front, i, v) || (last.Look? && last.replica == i && last.version == v)
  {
    var looks := front + [last];
    assert looks[|front|] == last && forall r :: 0 <= r < |front| ==> looks[r] == front[r];
  }

  lemma TurnsSplit(keys: seq<string>, looks: seq<Event>)
    requires AreLooks(keys, looks) && FullyAnswered(looks) && looks != []
    ensures var front, last := looks[..|looks| - 1], looks[|looks| - 1];
      && looks == front + [last] && AreLooks(keys, front) && FullyAnswered(front)
      && last.Look? && |last.answered| == |keys| && AllAnswered(last.answered)
  {
    hide AllAnswered;
  }

  /** Fully answered turns over a volume that has nothing or all of its kept log in memory. */
  lemma {:induction false} TurnsRebuild(t: Template, events: seq<Event>, looks: seq<Event>, i: nat, v: nat)
    requires Sound(t.keys, events) && AreLooks(t.keys, looks) && FullyAnswered(looks)
    requires LogAfter(t, events, i, v) == [] || LogAfter(t, events, i, v) == OrNothing(Kept(events, i, v))
    ensures var after := LogAfter(t, events + looks, i, v);
      && (after == [] || after == OrNothing(Kept(events, i, v)))
      && (HasTurn(looks, i, v) || LogAfter(t, events, i, v) == OrNothing(Kept(events, i, v))
          ==> after == OrNothing(Kept(events, i, v)))
  {
    hide Sound, GetNameFrom, AllAnswered, Kept, LogAfter, OrNothing, HasTurn, AreLooks, FullyAnswered;
    if looks == [] {
      assert events + looks == events;
      NoTurn(i, v);
    } else {
      var front, last := looks[..|looks| - 1], looks[|looks| - 1];
      TurnsSplit(t.keys, looks);
      TurnsRebuild(t, events, front, i, v);
      LooksKeep(t, events, front);
      HasTurnNext(front, last, i, v);
      assert events + looks == events + front + [last];
      if (last.replica, last.version) == (i, v) {
        assert last == Look(i, v, last.answered);
        OneTurn(t, events + front, i, v, last.answered);
      } else {
        OtherTurn(t, events + front, last, i, v);
      }
    }
  }

  lemma NoTurn(i: nat, v: nat)
    ensures !HasTurn([], i, v)
  {
  }

  lemma OneTurn(t: Template, events: seq<Event>, i: nat, v: nat, answered: seq<bool>)
    requires Sound(t.keys, events) && |answered| == |t.keys| && AllAnswered(answered)
    requires LogAfter(t, events, i, v) == [] || LogAfter(t, events, i, v) == OrNothing(Kept(events, i, v))
    ensures LogAfter(t, events + [Look(i, v, answered)], i, v) == OrNothing(Kept(events, i, v))
  {
    hide GetNameFrom, AllAnswered, Kept, LogsAfter, CM.Run, Restored, Proper, CM.ValueFirst;
    EventNext(t, events, Look(i, v, answered));
    RestartRebuilds(t, events, i, v, LogsAfter(t, events), answered);
  }

  /** Crash recovery. Whatever volumes were created, however often values could not be stored, the provider
      was restarted and passes were answered in part: after a restart, from empty memory, one pass that is
      answered gives every current volume exactly the log that was last recorded and stored for it, and a
      second pass adds nothing. When nothing fails outside that is the last log recorded. */
  method CrashRecovery(c: CM.Controller, gs: Sub.GlobalState, crName: string, namespace: string, t: Template,
                       ops: seq<Op>, replicas: seq<Current>)
      returns (ghost events: seq<Event>, ghost once: Sub.Logs, ghost answered: bool)
    requires c.substConfigMap == map[] && gs.logs == map[] && CM.MapKey(namespace, crName) !in c.kube.maps
    requires OpsProper(t.keys, ops)
    modifies c, c.kube, gs
    ensures Sound(t.keys, events)
    ensures answered ==> forall r :: 0 <= r < |replicas| ==>
              var id := GetNameFrom(t.base, replicas[r].replica, replicas[r].version);
              var log := OrNothing(Kept(events, replicas[r].replica, replicas[r].version));
              Sub.LogOf(once, id) == log && Sub.LogOf(gs.logs, id) == log
    ensures c.kube.reliable ==> answered && forall i, v :: Kept(events, i, v) == LastCreated(ops, i, v)
  {
    hide GetNameFrom, OpsProper, Sound, Kept, LastCreated, LogsAfter, CM.Run, Calls, AllAnswered, Sub.LogOf;
    FreshWorld(c, gs, crName, namespace, t);
    events := DoOps(c, gs, crName, namespace, t, ops);
    Lose(c, gs, crName, namespace, t, events);
    ghost var start, first, second := events + [Restart], [], [];
    SoundNext(t, events, Restart);
    EventNext(t, events, Restart);
    first := StatusPass(c, gs, crName, namespace, t, replicas, start);
    once := gs.logs;
    LooksKeep(t, start, first);
    second := StatusPass(c, gs, crName, namespace, t, replicas, start + first);
    answered := FullyAnswered(first) && FullyAnswered(second);
    if answered {
      forall r | 0 <= r < |replicas|
        ensures var id := GetNameFrom(t.base, replicas[r].replica, replicas[r].version);
                var log := OrNothing(Kept(events, replicas[r].replica, replicas[r].version));
                Sub.LogOf(once, id) == log && Sub.LogOf(gs.logs, id) == log
      {
        var i, v := replicas[r].replica, replicas[r].version;
        NothingLeft(t, events, i, v);
        TurnOf(t.keys, replicas, first, r);
        TurnsRebuild(t, start, first, i, v);
        TurnsRebuild(t, start + first, second, i, v);
      }
    }
  }

  lemma TurnOf(keys: seq<string>, replicas: seq<Current>, looks: seq<Event>, r: nat)
    requires Turns(keys, replicas, looks) && r < |replicas|
    ensures HasTurn(looks, replicas[r].replica, replicas[r].version)
  {
    assert looks[r].Look?;
  }

  lemma FreshWorld(c: CM.Controller, gs: Sub.GlobalState, crName: string, namespace: string, t: Template)
    requires c.substConfigMap == map[] && gs.logs == map[] && CM.MapKey(namespace, crName) !in c.kube.maps
    ensures World(c, gs, crName, namespace, t, [])
  {
  }

  lemma NothingLeft(t: Template, events: seq<Event>, i: nat, v: nat)
    ensures LogAfter(t, events + [Restart], i, v) == []
  {
    hide GetNameFrom, LogsAfter, Kept;
    EventNext(t, events, Restart);
  }
}
