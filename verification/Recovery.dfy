/**
  Substitution values of the boot volumes across a restart: recorded in the ConfigMap when a volume is
  created, read back into the in-memory log by the status pass.
 */
module Recovery {
  import opened Wrappers
  import opened Names
  import Sub = Substitution
  import CM = ConfigMap

  type Log = seq<Sub.State>

  /** One entry per substitution, in the order of the template: what the handlers write. */
  predicate Aligned(keys: seq<string>, log: Log) {
    |log| == |keys| && forall j :: 0 <= j < |keys| ==> log[j].key == keys[j]
  }

  predicate Distinct(keys: seq<string>) {
    forall i, j :: 0 <= i < j < |keys| ==> keys[i] != keys[j]
  }

  // ---------- recording (setPatcher) ----------

  /** The identities after the first `n` substitutions were paired with log entries by position. */
  function Recorded(ids: CM.Data, keys: seq<string>, log: Log, i: int, v: int, n: nat): CM.Data
    requires n <= |keys|
  {
    if n == 0 then ids else
      var before := Recorded(ids, keys, log, i, v, n - 1);
      if n - 1 < |log| then before[SubstKey(i, v, keys[n - 1]) := log[n - 1].value] else before
  }

  lemma RecordedNone(ids: CM.Data, keys: seq<string>, log: Log, i: int, v: int)
    ensures Recorded(ids, keys, log, i, v, 0) == ids
  {
  }

  lemma RecordedNext(ids: CM.Data, keys: seq<string>, log: Log, i: int, v: int, n: nat)
    requires n < |keys|
    ensures Recorded(ids, keys, log, i, v, n + 1)
         == if n < |log| then Recorded(ids, keys, log, i, v, n)[SubstKey(i, v, keys[n]) := log[n].value]
            else Recorded(ids, keys, log, i, v, n)
  {
  }

  method RecordSubstitutions(c: CM.Controller, gs: Sub.GlobalState, crName: string, keys: seq<string>,
                             identifier: string, replicaIndex: int, version: int)
    requires crName in c.substConfigMap
    modifies c, gs
    ensures forall id :: Sub.LogOf(gs.logs, id) == Sub.LogOf(old(gs.logs), id)
    ensures var entry := old(c.substConfigMap)[crName];
            c.substConfigMap == old(c.substConfigMap)[crName := entry.(identities :=
              Recorded(entry.identities, keys, Sub.LogOf(old(gs.logs), identifier), replicaIndex, version, |keys|))]
  {
    hide Recorded, SubstKey, ReadSubstKey;
    ghost var log := Sub.LogOf(gs.logs, identifier);
    ghost var was := c.substConfigMap[crName];
    RecordedNone(was.identities, keys, log, replicaIndex, version);
    for substIndex := 0 to |keys|
      invariant forall id :: Sub.LogOf(gs.logs, id) == Sub.LogOf(old(gs.logs), id)
      invariant crName in c.substConfigMap
      invariant c.substConfigMap == old(c.substConfigMap)[crName := was.(identities :=
                  Recorded(was.identities, keys, log, replicaIndex, version, substIndex))]
    {
      RecordedNext(was.identities, keys, log, replicaIndex, version, substIndex);
      var stateSlice := gs.GetByIdentifier(identifier);
      assert stateSlice == log;
      if |stateSlice| > 0 && substIndex <= |stateSlice| - 1 {
        var val := stateSlice[substIndex].value;
        c.SetIdentity(crName, SubstKey(replicaIndex, version, keys[substIndex]), val);
      }
    }
  }

  lemma AtUpdate(d: CM.Data, keys: seq<string>, log: Log, i: int, v: int, n: nat, k: string)
    requires n < |keys| && n < |log|
    ensures CM.At(d[SubstKey(i, v, keys[n]) := log[n].value], k)
         == if k == SubstKey(i, v, keys[n]) then Some(log[n].value) else CM.At(d, k)
  {
  }

  /** By position only: a log that skipped its first substitution is recorded under the wrong key. */
  lemma MisalignedIsMisrecorded()
    ensures Recorded(map[], ["$a", "$b"], [Sub.State("$b", "x")], 0, 0, 2)
         == map[SubstKey(0, 0, "$a") := "x"]
  {
    var ids := map[SubstKey(0, 0, "$a") := "x"];
    assert Recorded(map[], ["$a", "$b"], [Sub.State("$b", "x")], 0, 0, 1) == ids;
  }

  // ---------- reading back (setSubstitutions) ----------

  /** The log after the first `n` substitutions were looked up in the stored data; `answered` says which
      reads of the ConfigMap were answered. */
  function Restored(keys: seq<string>, d: CM.Data, i: int, v: int, log: Log, answered: seq<bool>, n: nat): Log
    requires n <= |keys| == |answered|
  {
    if n == 0 then log else
      var before := Restored(keys, d, i, v, log, answered, n - 1);
      var value := CM.Lookup(d, SubstKey(i, v, keys[n - 1]));
      if answered[n - 1] && value != "" && !Sub.Logged(before, keys[n - 1])
      then before + [Sub.State(keys[n - 1], value)] else before
  }

  predicate AllAnswered(answered: seq<bool>) {
    forall j :: 0 <= j < |answered| ==> answered[j]
  }

  /** What is stored for the server set, nothing when there is no ConfigMap. */
  ghost function DataOf(c: CM.Controller, crName: string, namespace: string): CM.Data
    reads c, c.kube
  {
    match c.Mem(crName, namespace).stored case Some(d) => d case None => map[]
  }

  /** The status shows the stored values of the first `n` keys that are not empty, and nothing else. */
  ghost predicate ShowsStored(shown: CM.Data, keys: seq<string>, d: CM.Data, i: int, v: int, n: nat)
    requires n <= |keys|
  {
    forall k :: CM.At(shown, k) ==
      if k in keys[..n] && CM.Lookup(d, SubstKey(i, v, k)) != "" then Some(CM.Lookup(d, SubstKey(i, v, k))) else None
  }

  lemma ShowsNothing(keys: seq<string>, d: CM.Data, i: int, v: int)
    ensures ShowsStored(map[], keys, d, i, v, 0)
  {
    hide SubstKey, ReadSubstKey, CM.Lookup;
  }

  lemma ShowsNext(shown: CM.Data, keys: seq<string>, d: CM.Data, i: int, v: int, n: nat)
    requires n < |keys|
    ensures var value := CM.Lookup(d, SubstKey(i, v, keys[n]));
      ShowsStored(shown, keys, d, i, v, n) ==>
        ShowsStored(if value != "" then shown[keys[n] := value] else shown, keys, d, i, v, n + 1)
  {
    hide SubstKey, ReadSubstKey, CM.Lookup;
    assert keys[..n + 1] == keys[..n] + [keys[n]];
  }

  /** The entry that a lookup leaves in memory, made for this namespace if there was none. */
  function Entered(entries: map<string, CM.SubstitutionConfig>, crName: string, namespace: string)
      : map<string, CM.SubstitutionConfig>
  {
    if crName in entries then entries else entries[crName := CM.SubstitutionConfig(map[], crName, namespace)]
  }

  /** One replica of a status pass, also the first one after a restart, when nothing is in memory. */
  method SetSubstitutions(c: CM.Controller, gs: Sub.GlobalState, crName: string, namespace: string,
                          keys: seq<string>, identifier: string, replicaIndex: int, version: int)
      returns (shown: CM.Data, ghost answered: seq<bool>)
    modifies gs, c
    ensures c.substConfigMap ==
              if keys == [] then old(c.substConfigMap) else Entered(old(c.substConfigMap), crName, namespace)
    ensures c.Mem(crName, namespace) == old(c.Mem(crName, namespace))
    ensures forall id :: id != identifier ==> Sub.LogOf(gs.logs, id) == Sub.LogOf(old(gs.logs), id)
    ensures |answered| == |keys|
    ensures var d, log := old(DataOf(c, crName, namespace)), Sub.LogOf(old(gs.logs), identifier);
      && Sub.LogOf(gs.logs, identifier) == Restored(keys, d, replicaIndex, version, log, answered, |keys|)
      && (AllAnswered(answered) ==> ShowsStored(shown, keys, d, replicaIndex, version, |keys|))
    ensures c.kube.reliable ==> AllAnswered(answered)
  {
    hide Restored, SubstKey, ReadSubstKey, Sub.Logged, ShowsStored;
    ghost var m := c.Mem(crName, namespace);
    ghost var d := DataOf(c, crName, namespace);
    ghost var log := Sub.LogOf(gs.logs, identifier);
    ghost var all := seq(|keys|, j => false);
    shown, answered := map[], [];
    RestoredNone(keys, d, replicaIndex, version, log, all);
    ShowsNothing(keys, d, replicaIndex, version);
    for n := 0 to |keys|
      invariant c.substConfigMap ==
                  if n == 0 then old(c.substConfigMap) else Entered(old(c.substConfigMap), crName, namespace)
      invariant c.Mem(crName, namespace) == m
      invariant forall id :: id != identifier ==> Sub.LogOf(gs.logs, id) == Sub.LogOf(old(gs.logs), id)
      invariant |answered| == n && |all| == |keys| && answered == all[..n]
      invariant Sub.LogOf(gs.logs, identifier) == Restored(keys, d, replicaIndex, version, log, all, n)
      invariant AllAnswered(answered) ==> ShowsStored(shown, keys, d, replicaIndex, version, n)
      invariant c.kube.reliable ==> AllAnswered(answered)
    {
      ShowsNext(shown, keys, d, replicaIndex, version, n);
      c.SetSubstitutionConfigMap(crName, namespace);
      var value, reached := c.FetchSubstitutionFromMap(crName, keys[n], replicaIndex, version);
      RestoredAnswered(keys, d, replicaIndex, version, log, all, n, reached);
      all := all[n := reached];
      RestoredNext(keys, d, replicaIndex, version, log, all, n);
      answered := answered + [reached];
      NextAnswered(all, n, reached);
      if value != "" {
        shown := shown[keys[n] := value];
        var logged := gs.Exists(identifier, keys[n]);
        if !logged {
          gs.Set(identifier, keys[n], value);
        }
      }
    }
    assert all[..|keys|] == all;
  }

  lemma NextAnswered(all: seq<bool>, n: nat, reached: bool)
    requires n < |all| && all[n] == reached
    ensures all[..n] + [reached] == all[..n + 1]
    ensures AllAnswered(all[..n + 1]) <==> AllAnswered(all[..n]) && reached
  {
    assert all[..n + 1] == all[..n] + [reached];
    assert AllAnswered(all[..n] + [reached]) ==> (forall j :: 0 <= j < n ==> (all[..n] + [reached])[j]);
  }

  /** An answer that is not looked at yet does not matter. */
  lemma {:induction false} RestoredAnswered(keys: seq<string>, d: CM.Data, i: int, v: int, log: Log,
                                            answered: seq<bool>, n: nat, reached: bool)
    requires n < |keys| == |answered|
    ensures Restored(keys, d, i, v, log, answered[n := reached], n) == Restored(keys, d, i, v, log, answered, n)
  {
    RestoredSame(keys, d, i, v, log, answered, answered[n := reached], n);
  }

  lemma {:induction false} RestoredSame(keys: seq<string>, d: CM.Data, i: int, v: int, log: Log, answered: seq<bool>,
                                        answers: seq<bool>, n: nat)
    requires n <= |keys| == |answered| == |answers| && answered[..n] == answers[..n]
    ensures Restored(keys, d, i, v, log, answered, n) == Restored(keys, d, i, v, log, answers, n)
  {
    hide SubstKey, ReadSubstKey, Sub.Logged, CM.Lookup;
    if n > 0 {
      assert answered[..n - 1] == answered[..n][..n - 1] == answers[..n][..n - 1] == answers[..n - 1];
      assert answered[n - 1] == answered[..n][n - 1] == answers[..n][n - 1] == answers[n - 1];
      RestoredSame(keys, d, i, v, log, answered, answers, n - 1);
    }
  }

  lemma RestoredNext(keys: seq<string>, d: CM.Data, i: int, v: int, log: Log, answered: seq<bool>, n: nat)
    requires n < |keys| == |answered|
    ensures
      var before, value := Restored(keys, d, i, v, log, answered, n), CM.Lookup(d, SubstKey(i, v, keys[n]));
      Restored(keys, d, i, v, log, answered, n + 1)
        == if answered[n] && value != "" && !Sub.Logged(before, keys[n])
           then before + [Sub.State(keys[n], value)] else before
  {
  }

  lemma RestoredNone(keys: seq<string>, d: CM.Data, i: int, v: int, log: Log, answered: seq<bool>)
    requires |answered| == |keys|
    ensures Restored(keys, d, i, v, log, answered, 0) == log
  {
  }

  // ---------- exactly when a log comes back ----------

  /** What positions alone make of a log: its values under the keys of the template. */
  function Positional(keys: seq<string>, log: Log, n: nat): (r: Log)
    requires n <= |keys| && n <= |log|
    ensures |r| == n && forall j :: 0 <= j < n ==> r[j] == Sub.State(keys[j], log[j].value)
  {
    seq(n, j requires 0 <= j < n => Sub.State(keys[j], log[j].value))
  }

  function Least(a: nat, b: nat): nat {
    if a < b then a else b
  }

  /** Recording pairs by position, whatever keys the log has. */
  lemma {:induction false} RecordedAt(ids: CM.Data, keys: seq<string>, log: Log, i: int, v: int, n: nat, j: nat)
    requires n <= |keys| && j < |keys| && Distinct(keys)
    ensures CM.At(Recorded(ids, keys, log, i, v, n), SubstKey(i, v, keys[j]))
         == if j < n && j < |log| then Some(log[j].value) else CM.At(ids, SubstKey(i, v, keys[j]))
  {
    hide Recorded, SubstKey, ReadSubstKey, CM.At;
    if n == 0 {
      RecordedNone(ids, keys, log, i, v);
    } else {
      RecordedAt(ids, keys, log, i, v, n - 1, j);
      RecordedNext(ids, keys, log, i, v, n - 1);
      if n - 1 < |log| {
        AtUpdate(Recorded(ids, keys, log, i, v, n - 1), keys, log, i, v, n - 1, SubstKey(i, v, keys[j]));
        assert ReadSubstKey(SubstKey(i, v, keys[j])) == (i, v, keys[j]);
        assert ReadSubstKey(SubstKey(i, v, keys[n - 1])) == (i, v, keys[n - 1]);
      }
    }
  }

  lemma LookupAt(d: CM.Data, k: string)
    ensures CM.Lookup(d, k) == match CM.At(d, k) case Some(value) => value case None => ""
  {
  }

  lemma PositionalNext(keys: seq<string>, log: Log, n: nat)
    requires n < |keys| && Distinct(keys)
    ensures !Sub.Logged(Positional(keys, log, Least(n, |log|)), keys[n])
    ensures n < |log| ==> Positional(keys, log, n + 1) == Positional(keys, log, n) + [Sub.State(keys[n], log[n].value)]
  {
  }

  lemma {:induction false} RestoredIsPositional(keys: seq<string>, d: CM.Data, i: int, v: int, log: Log,
                                                answered: seq<bool>, n: nat)
    requires n <= |keys| == |answered| && AllAnswered(answered)
    requires Distinct(keys) && forall j :: 0 <= j < |log| ==> log[j].value != ""
    requires forall j :: 0 <= j < |keys| ==>
               CM.At(d, SubstKey(i, v, keys[j])) == if j < |log| then Some(log[j].value) else None
    ensures Restored(keys, d, i, v, [], answered, n) == Positional(keys, log, Least(n, |log|))
  {
    hide Restored, SubstKey, ReadSubstKey, CM.At, CM.Lookup, Sub.Logged;
    if n == 0 {
      RestoredNone(keys, d, i, v, [], answered);
    } else {
      RestoredIsPositional(keys, d, i, v, log, answered, n - 1);
      RestoredNext(keys, d, i, v, [], answered, n - 1);
      PositionalNext(keys, log, n - 1);
      LookupAt(d, SubstKey(i, v, keys[n - 1]));
    }
  }

  /** A log of non-empty values comes back from what was recorded of it exactly when it follows the
      template: its j-th entry is for the j-th substitution. */
  lemma RestoredIffInOrder(ids: CM.Data, keys: seq<string>, log: Log, i: int, v: int, answered: seq<bool>)
    requires Distinct(keys) && forall j :: 0 <= j < |log| ==> log[j].value != ""
    requires |answered| == |keys| && AllAnswered(answered)
    requires forall j :: 0 <= j < |keys| ==> CM.At(ids, SubstKey(i, v, keys[j])) == None
    ensures Restored(keys, Recorded(ids, keys, log, i, v, |keys|), i, v, [], answered, |keys|) == log
       <==> |log| <= |keys| && forall j :: 0 <= j < |log| ==> log[j].key == keys[j]
  {
    hide Restored, Recorded, SubstKey, ReadSubstKey, CM.At;
    var d := Recorded(ids, keys, log, i, v, |keys|);
    forall j | 0 <= j < |keys|
      ensures CM.At(d, SubstKey(i, v, keys[j])) == if j < |log| then Some(log[j].value) else None
    {
      RecordedAt(ids, keys, log, i, v, |keys|, j);
    }
    RestoredIsPositional(keys, d, i, v, log, answered, |keys|);
    var back := Positional(keys, log, Least(|keys|, |log|));
    if |log| <= |keys| && forall j :: 0 <= j < |log| ==> log[j].key == keys[j] {
      assert forall j :: 0 <= j < |log| ==> back[j] == log[j];
    }
    if back == log {
      assert forall j :: 0 <= j < |log| ==> back[j].key == keys[j];
    }
  }

  // ---------- passes that are answered in part ----------

  /** The data hold every value of an aligned log under its own key. */
  ghost predicate Holds(d: CM.Data, keys: seq<string>, log: Log, i: int, v: int)
    requires Aligned(keys, log)
  {
    forall j :: 0 <= j < |keys| ==> CM.At(d, SubstKey(i, v, keys[j])) == Some(log[j].value)
  }

  /** The data hold nothing for this replica and version. */
  ghost predicate HoldsNone(d: CM.Data, keys: seq<string>, i: int, v: int) {
    forall j :: 0 <= j < |keys| ==> CM.At(d, SubstKey(i, v, keys[j])) == None
  }

  predicate NoneEmpty(log: Log) {
    forall j :: 0 <= j < |log| ==> log[j].value != ""
  }

  /** No read was answered after one that was not. */
  predicate InOrder(answered: seq<bool>) {
    forall j, k :: 0 <= j < k < |answered| && answered[k] ==> answered[j]
  }

  /** How many of the first `n` reads were answered before one was not. */
  function Streak(answered: seq<bool>, n: nat): (q: nat)
    requires n <= |answered|
    ensures q <= n && forall j :: 0 <= j < q ==> answered[j]
    ensures q < n ==> !answered[q]
  {
    if n == 0 then 0
    else
      var q := Streak(answered, n - 1);
      if q == n - 1 && answered[n - 1] then n else q
  }

  lemma LoggedPrefix(keys: seq<string>, log: Log, p: nat, n: nat)
    requires Aligned(keys, log) && Distinct(keys) && n < |keys| && p <= |log|
    ensures Sub.Logged(log[..p], keys[n]) <==> n < p
    ensures p == n ==> log[..p] + [Sub.State(keys[n], log[n].value)] == log[..n + 1]
  {
    if n < p { assert log[..p][n].key == keys[n]; }
    if p == n { assert log[n] == Sub.State(keys[n], log[n].value); }
  }

  function Most(a: nat, b: nat): nat {
    if a < b then b else a
  }

  /** A pass whose reads are answered in order goes on with a log where it stands. */
  lemma {:induction false} PassExtends(keys: seq<string>, d: CM.Data, i: int, v: int, log: Log, p: nat,
                                       answered: seq<bool>, n: nat)
    requires Aligned(keys, log) && Distinct(keys) && NoneEmpty(log) && Holds(d, keys, log, i, v)
    requires p <= |log| && n <= |keys| == |answered| && InOrder(answered)
    ensures Restored(keys, d, i, v, log[..p], answered, n) == log[..Most(p, Streak(answered, n))]
  {
    hide Restored, SubstKey, ReadSubstKey, CM.At, CM.Lookup, Sub.Logged;
    if n == 0 {
      RestoredNone(keys, d, i, v, log[..p], answered);
    } else {
      PassExtends(keys, d, i, v, log, p, answered, n - 1);
      RestoredNext(keys, d, i, v, log[..p], answered, n - 1);
      LookupAt(d, SubstKey(i, v, keys[n - 1]));
      LoggedPrefix(keys, log, Most(p, Streak(answered, n - 1)), n - 1);
    }
  }

  /** A pass over data that hold nothing of the volume adds nothing. */
  lemma {:induction false} PassFindsNothing(keys: seq<string>, d: CM.Data, i: int, v: int, log: Log,
                                            answered: seq<bool>, n: nat)
    requires n <= |keys| == |answered| && HoldsNone(d, keys, i, v)
    ensures Restored(keys, d, i, v, log, answered, n) == log
  {
    hide Restored, SubstKey, ReadSubstKey, CM.At, CM.Lookup, Sub.Logged;
    if n == 0 {
      RestoredNone(keys, d, i, v, log, answered);
    } else {
      PassFindsNothing(keys, d, i, v, log, answered, n - 1);
      RestoredNext(keys, d, i, v, log, answered, n - 1);
      LookupAt(d, SubstKey(i, v, keys[n - 1]));
    }
  }

  /** A pass over a log that has all keys adds nothing, whatever is stored. */
  lemma {:induction false} PassOverAllKeys(keys: seq<string>, d: CM.Data, i: int, v: int, log: Log,
                                           answered: seq<bool>, n: nat)
    requires n <= |keys| == |answered| && Aligned(keys, log)
    ensures Restored(keys, d, i, v, log, answered, n) == log
  {
    hide Restored, SubstKey, ReadSubstKey, CM.Lookup;
    if n == 0 {
      RestoredNone(keys, d, i, v, log, answered);
    } else {
      PassOverAllKeys(keys, d, i, v, log, answered, n - 1);
      RestoredNext(keys, d, i, v, log, answered, n - 1);
      assert log[n - 1].key == keys[n - 1];
    }
  }

  /** What a pass over held data logs: what was logged before, first, and the keys that were answered. */
  lemma {:induction false} PassLogs(keys: seq<string>, d: CM.Data, i: int, v: int, log: Log, start: Log,
                                    answered: seq<bool>, n: nat, m: nat)
    requires Aligned(keys, log) && Distinct(keys) && NoneEmpty(log) && Holds(d, keys, log, i, v)
    requires n <= |keys| == |answered| && m < |keys|
    ensures var after := Restored(keys, d, i, v, start, answered, n);
      && start <= after
      && (Sub.Logged(after, keys[m]) <==> Sub.Logged(start, keys[m]) || (m < n && answered[m]))
  {
    hide Restored, SubstKey, ReadSubstKey, CM.At, CM.Lookup;
    if n == 0 {
      RestoredNone(keys, d, i, v, start, answered);
    } else {
      PassLogs(keys, d, i, v, log, start, answered, n - 1, m);
      RestoredNext(keys, d, i, v, start, answered, n - 1);
      LookupAt(d, SubstKey(i, v, keys[n - 1]));
      LoggedSnoc(Restored(keys, d, i, v, start, answered, n - 1), keys[n - 1], log[n - 1].value, keys[m]);
    }
  }

  lemma LoggedSnoc(log: Log, key: string, value: string, k: string)
    ensures Sub.Logged(log + [Sub.State(key, value)], k) <==> Sub.Logged(log, k) || k == key
  {
    var next := log + [Sub.State(key, value)];
    assert next[|log|].key == key;
    assert forall j :: 0 <= j < |log| ==> next[j] == log[j];
  }

  /** The first pass after a restart answered in part, the second one fully: the log is rebuilt exactly if
      the first was answered in order. Otherwise a later substitution stands before an earlier one. */
  lemma RebuiltIffAnsweredInOrder(keys: seq<string>, d: CM.Data, i: int, v: int, log: Log, first: seq<bool>,
                                  second: seq<bool>)
    requires Aligned(keys, log) && Distinct(keys) && NoneEmpty(log) && Holds(d, keys, log, i, v)
    requires |first| == |second| == |keys| && AllAnswered(second)
    ensures var half := Restored(keys, d, i, v, [], first, |keys|);
            Restored(keys, d, i, v, half, second, |keys|) == log <==> InOrder(first)
  {
    hide Restored, SubstKey, ReadSubstKey, CM.At, CM.Lookup, Sub.Logged;
    var half := Restored(keys, d, i, v, [], first, |keys|);
    var full := Restored(keys, d, i, v, half, second, |keys|);
    if InOrder(first) {
      assert log[..0] == [];
      PassExtends(keys, d, i, v, log, 0, first, |keys|);
      PassExtends(keys, d, i, v, log, Streak(first, |keys|), second, |keys|);
      assert log[..|keys|] == log;
    }
    if !InOrder(first) && full == log {
      var j, k :| 0 <= j < k < |first| && first[k] && !first[j];
      NothingLogged(keys[j]);
      PassLogs(keys, d, i, v, log, [], first, |keys|, j);
      PassLogs(keys, d, i, v, log, [], first, |keys|, k);
      PassLogs(keys, d, i, v, log, half, second, |keys|, j);
      assert half == log[..|half|];
      LoggedPrefix(keys, log, |half|, j);
      LoggedPrefix(keys, log, |half|, k);
    }
  }

  lemma NothingLogged(key: string)
    ensures !Sub.Logged([], key)
  {
  }
}
