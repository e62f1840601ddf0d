/**
  The objects of one server set as the API server holds them, and the client the controllers use.

  Every write is one step that may be refused, may take effect and be reported as failed, or may
  succeed; lists come back in any order. `trace` records every state the store has passed through, so
  that contracts can speak about a run that stops anywhere.
 */
module Store {
  import opened Wrappers
  import opened Names

  datatype Kind = ServerKind | VolumeKind | NicKind | RuleKind

  datatype Key = Key(kind: Kind, name: string)

  datatype ProviderState = Unset | Busy | Available | Failed

  /** Values of the index, nic-index and version labels; "" when an object does not carry one. */
  datatype Labels = Labels(replica: string, nic: string, version: string)

  /** The fields the controllers read or write. An id of 0 is the empty id. */
  datatype Spec =
    | ServerSpec(cores: int, ram: int, cpuFamily: string, nicMultiQueue: Option<bool>, volumeId: nat)
    | VolumeSpec(size: int, typ: string, image: string, setHotPlugsFromImage: bool,
                 cpuHotPlug: bool, ramHotPlug: bool)
    | NicSpec(serverId: nat)
    | RuleSpec(serverId: nat, nicId: nat)

  datatype Obj = Obj(labels: Labels, spec: Spec, id: nat, state: ProviderState, reconcileError: bool)

  /** `nextId` bounds the ids the provider has given out. */
  datatype State = State(objs: map<Key, Obj>, nextId: nat)

  // ---------- selecting by label ----------

  datatype Selector = Selector(kind: Kind, replica: Option<string>, version: Option<string>)

  predicate Matches(sel: Selector, k: Key, o: Obj) {
    && k.kind == sel.kind
    && (sel.replica.Some? ==> o.labels.replica == sel.replica.value)
    && (sel.version.Some? ==> o.labels.version == sel.version.value)
  }

  function AllOf(kind: Kind): Selector {
    Selector(kind, None, None)
  }

  function OfReplica(kind: Kind, i: int): Selector {
    Selector(kind, Some(Itoa(i)), None)
  }

  datatype Item = Item(key: Key, obj: Obj)

  /** `items` are the selected objects, each once, in some order. */
  ghost predicate Lists(st: State, sel: Selector, items: seq<Item>) {
    && (forall j :: 0 <= j < |items| ==>
          items[j].key in st.objs && st.objs[items[j].key] == items[j].obj && Matches(sel, items[j].key, items[j].obj))
    && (forall k :: k in st.objs && Matches(sel, k, st.objs[k]) ==> exists j :: 0 <= j < |items| && items[j].key == k)
    && (forall i, j :: 0 <= i < j < |items| ==> items[i].key != items[j].key)
  }

  datatype Lookup = Found(obj: Obj) | NotFound | Unreachable

  // ---------- the client ----------

  class Kube {
    /** Nothing fails: every request is answered, every write lands and is reported, and every object that
        is created becomes available in time. */
    const reliable: bool
    var st: State
    ghost var trace: seq<State>

    constructor (st: State, reliable: bool)
      ensures this.st == st && trace == [] && this.reliable == reliable
    {
      this.st, trace, this.reliable := st, [], reliable;
    }

    /** Whether something goes wrong at this point. */
    method Fails() returns (fails: bool)
      ensures reliable ==> !fails
    {
      fails := *;
      fails := fails && !reliable;
    }

    method Get(k: Key) returns (r: Lookup)
      ensures r.Found? ==> k in st.objs && r.obj == st.objs[k]
      ensures r.NotFound? ==> k !in st.objs
      ensures reliable ==> !r.Unreachable?
    {
      var fails := Fails();
      if fails {
        return Unreachable;
      }
      r := if k in st.objs then Found(st.objs[k]) else NotFound;
    }

    method List(sel: Selector) returns (r: Option<seq<Item>>)
      ensures r.Some? ==> Lists(st, sel, r.value)
      ensures reliable ==> r.Some?
    {
      var fails := Fails();
      if fails {
        return None;
      }
      var items: seq<Item> := [];
      var todo := st.objs.Keys;
      while todo != {}
        invariant todo <= st.objs.Keys
        invariant forall j :: 0 <= j < |items| ==>
                    && items[j].key in st.objs && items[j].key !in todo
                    && st.objs[items[j].key] == items[j].obj && Matches(sel, items[j].key, items[j].obj)
        invariant forall k :: k in st.objs && k !in todo && Matches(sel, k, st.objs[k])
                    ==> exists j :: 0 <= j < |items| && items[j].key == k
        invariant forall i, j :: 0 <= i < j < |items| ==> items[i].key != items[j].key
      {
        var k :| k in todo;
        todo := todo - {k};
        ghost var before := items;
        if Matches(sel, k, st.objs[k]) {
          items := items + [Item(k, st.objs[k])];
          assert items[|before|].key == k;
        }
        assert forall j :: 0 <= j < |before| ==> items[j] == before[j];
      }
      r := Some(items);
    }

    /** One write: refused, landed but reported as failed, or landed. */
    method Commit(next: State) returns (ok: bool)
      modifies this
      ensures (!ok && st == old(st) && trace == old(trace)) || (st == next && trace == old(trace) + [next])
      ensures reliable ==> ok
    {
      var refused := Fails();
      if refused {
        return false;
      }
      st, trace := next, trace + [next];
      var misreported := Fails();
      ok := !misreported;
    }

    /** Replaces an existing object. */
    method Update(k: Key, o: Obj) returns (ok: bool)
      modifies this
      ensures var next := old(st).(objs := old(st).objs[k := o]);
        || (!ok && st == old(st) && trace == old(trace))
        || (k in old(st).objs && st == next && trace == old(trace) + [next])
      ensures reliable && k in old(st).objs ==> ok
    {
      if k !in st.objs {
        return false;
      }
      ok := Commit(st.(objs := st.objs[k := o]));
    }

    /** Delete, and wait until the object is gone. */
    method Delete(k: Key) returns (ok: bool)
      modifies this
      ensures var next := old(st).(objs := old(st).objs - {k});
        || (!ok && st == old(st) && trace == old(trace))
        || (k in old(st).objs && st == next && trace == old(trace) + [next])
      ensures reliable && k in old(st).objs ==> ok
    {
      var condemned := Get(k);
      if !condemned.Found? {
        return false;
      }
      ok := Commit(st.(objs := st.objs - {k}));
      var stuck := Fails();
      if stuck {
        ok := false;
      }
    }

    /** What the provider does by itself. */
    method Provide(next: State)
      modifies this
      ensures st == next && trace == old(trace) + [next]
    {
      st, trace := next, trace + [next];
    }
  }

  /** The number of objects a list returns. */
  lemma {:induction false} ListedCount(st: State, sel: Selector, items: seq<Item>, keys: set<Key>)
    requires Lists(st, sel, items)
    requires forall k :: k in keys <==> k in st.objs && Matches(sel, k, st.objs[k])
    ensures |items| == |keys|
  {
    ItemKeysCount(items);
    assert keys == set it | it in items :: it.key by {
      forall k | k in keys ensures k in set it | it in items :: it.key {
        var j :| 0 <= j < |items| && items[j].key == k;
        assert items[j] in items;
      }
    }
  }

  lemma KeysSnoc(front: seq<Item>, last: Item)
    ensures (set it | it in front + [last] :: it.key) == (set it | it in front :: it.key) + {last.key}
  {
    assert forall it :: it in front + [last] <==> it in front || it == last;
  }

  lemma LastIsNew(front: seq<Item>, last: Item)
    requires forall i, j :: 0 <= i < j < |front + [last]| ==> (front + [last])[i].key != (front + [last])[j].key
    ensures last.key !in set it | it in front :: it.key
    ensures forall i, j :: 0 <= i < j < |front| ==> front[i].key != front[j].key
  {
    var items := front + [last];
    assert items[|front|] == last && forall i :: 0 <= i < |front| ==> items[i] == front[i];
  }

  lemma {:induction false} ItemKeysCount(items: seq<Item>)
    requires forall i, j :: 0 <= i < j < |items| ==> items[i].key != items[j].key
    ensures |set it | it in items :: it.key| == |items|
  {
    if items != [] {
      var front, last := items[..|items| - 1], items[|items| - 1];
      assert items == front + [last];
      LastIsNew(front, last);
      ItemKeysCount(front);
      KeysSnoc(front, last);
    }
  }
}
