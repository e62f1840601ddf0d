/** The replica statuses, and the leader that is read off them. */
module Status {
  import opened Wrappers
  import opened Names
  import opened Store
  import opened Desired
  import opened Versions

  datatype Role = Active | Passive

  datatype ReplicaState = READY | ERROR | BUSY | UNKNOWN

  datatype ReplicaStatus = ReplicaStatus(role: Role, name: string, replicaIndex: int, status: ReplicaState)

  /** Where the leader is read from: nowhere, so that replica 0 leads, or a ConfigMap that holds the
      leading server's name. */
  datatype Identity = ByIndex | ByLease(holder: string)

  function ComputeStatus(state: ProviderState): (status: ReplicaState)
    ensures status == READY <==> state == Available
    ensures status == ERROR <==> state == Failed
    ensures status == BUSY <==> state == Busy
  {
    match state
    case Available => READY
    case Failed => ERROR
    case Busy => BUSY
    case Unset => UNKNOWN
  }

  function StateOf(o: Obj): (status: ReplicaState)
    ensures status == READY <==> o.state.Available? && !o.reconcileError
    ensures status == ERROR <==> o.state.Failed? || o.reconcileError
  {
    if o.reconcileError then ERROR else ComputeStatus(o.state)
  }

  /** The server that is ready and named by the identity. */
  ghost predicate Leads(identity: Identity, k: Key, o: Obj) {
    && k.kind.ServerKind? && StateOf(o) == READY
    && match identity
       case ByIndex => Owner(k) == 0
       case ByLease(holder) => k.name == holder
  }

  /** `lease` is the ConfigMap's entry as it was read, None when it could not be: the role is then Passive. */
  method FetchRole(identity: Identity, lease: Option<string>, replicaIndex: int, name: string, status: ReplicaState)
      returns (role: Role)
    ensures role.Active? ==> status == READY
    ensures status == READY ==>
              (role.Active? <==>
                 match identity case ByIndex => replicaIndex == 0 case ByLease(_) => lease == Some(name))
  {
    role := Passive;
    if status != READY {
      return;
    }
    match identity {
      case ByIndex =>
        if replicaIndex == 0 {
          role := Active;
        }
      case ByLease(_) =>
        if lease == Some(name) {
          role := Active;
        }
    }
  }

  /** What one status says about its server. */
  ghost predicate Describes(identity: Identity, item: Item, s: ReplicaStatus, reached: bool) {
    && s.name == item.key.name && s.replicaIndex == Owner(item.key) && s.status == StateOf(item.obj)
    && (s.role.Active? ==> Leads(identity, item.key, item.obj))
    && (reached && Leads(identity, item.key, item.obj) ==> s.role.Active?)
  }

  /** One status per listed server, in list order; `reached` says that the lease could be read each time. */
  method PopulateReplicasStatuses(kube: Kube, cr: ServerSet, identity: Identity, items: seq<Item>,
                                  previous: seq<ReplicaStatus>)
      returns (statuses: seq<ReplicaStatus>, ghost reached: bool)
    requires WellFormed(cr, kube.st) && Lists(kube.st, AllOf(ServerKind), items)
    ensures |statuses| == |items|
    ensures forall j :: 0 <= j < |items| ==> Describes(identity, items[j], statuses[j], reached)
    ensures kube.reliable || identity.ByIndex? ==> reached
  {
    hide WellFormed, Lists, Owner, VersionOf, ServerKey, VolumeKey;
    statuses, reached := previous, true;
    if |previous| != |items| {
      statuses := seq(|items|, j => ReplicaStatus(Passive, "", 0, UNKNOWN));
    }
    for j := 0 to |items|
      invariant |statuses| == |items| && (kube.reliable || identity.ByIndex? ==> reached)
      invariant forall q :: 0 <= q < j ==> Describes(identity, items[q], statuses[q], reached)
    {
      ListedObject(kube.st, AllOf(ServerKind), items, j);
      LabelsOf(cr, kube.st, items[j].key);
      var replicaStatus := ComputeStatus(items[j].obj.state);
      if items[j].obj.reconcileError {
        replicaStatus := ERROR;
      }
      var replicaIdx := ComputeReplicaIdx(items[j].obj.labels.replica);
      var unreadable := kube.Fails();
      var lease := if identity.ByLease? && !unreadable then Some(identity.holder) else None;
      reached := reached && (identity.ByIndex? || lease.Some?);
      var role := FetchRole(identity, lease, replicaIdx, items[j].key.name, replicaStatus);
      statuses := statuses[j := ReplicaStatus(role, items[j].key.name, replicaIdx, replicaStatus)];
    }
  }

  /** The statuses were computed from a list of the store's servers. */
  ghost predicate StatusesOf(st: State, identity: Identity, statuses: seq<ReplicaStatus>, reached: bool) {
    exists items :: Lists(st, AllOf(ServerKind), items) && DescribeAll(identity, items, statuses, reached)
  }

  ghost predicate DescribeAll(identity: Identity, items: seq<Item>, statuses: seq<ReplicaStatus>, reached: bool) {
    |statuses| == |items| && forall j :: 0 <= j < |items| ==> Describes(identity, items[j], statuses[j], reached)
  }

  lemma FromList(st: State, identity: Identity, items: seq<Item>, statuses: seq<ReplicaStatus>, reached: bool)
    requires Lists(st, AllOf(ServerKind), items) && DescribeAll(identity, items, statuses, reached)
    ensures StatusesOf(st, identity, statuses, reached)
  {
    hide Lists, DescribeAll;
  }

  /** The replica index carried by the first active status, -1 without one. */
  method GetIdentityFromStatus(statuses: seq<ReplicaStatus>) returns (m: int)
    ensures m == IdentityOf(statuses)
  {
    for j := 0 to |statuses|
      invariant forall q :: 0 <= q < j ==> statuses[q].role != Active
    {
      if statuses[j].role == Active {
        FirstActive(statuses, j);
        return statuses[j].replicaIndex;
      }
    }
    NoneActive(statuses);
    return -1;
  }

  function IdentityOf(statuses: seq<ReplicaStatus>): int {
    if statuses == [] then -1
    else if statuses[0].role == Active then statuses[0].replicaIndex
    else IdentityOf(statuses[1..])
  }

  lemma {:induction false} FirstActive(statuses: seq<ReplicaStatus>, j: nat)
    requires j < |statuses| && statuses[j].role == Active && forall q :: 0 <= q < j ==> statuses[q].role != Active
    ensures IdentityOf(statuses) == statuses[j].replicaIndex
  {
    if j > 0 { FirstActive(statuses[1..], j - 1); }
  }

  lemma {:induction false} NoneActive(statuses: seq<ReplicaStatus>)
    requires forall q :: 0 <= q < |statuses| ==> statuses[q].role != Active
    ensures IdentityOf(statuses) == -1
  {
    if statuses != [] { NoneActive(statuses[1..]); }
  }

  /** The leader of a store: the replica of a leading server, -1 when none leads. */
  ghost predicate LeaderIs(st: State, identity: Identity, m: int) {
    if m == -1 then forall k :: k in st.objs ==> !Leads(identity, k, st.objs[k])
    else exists k :: k in st.objs && Leads(identity, k, st.objs[k]) && Owner(k) == m
  }

  /** A store has one leader: it does not depend on any list order. */
  lemma LeaderUnique(st: State, identity: Identity, m: int, m': int)
    requires LeaderIs(st, identity, m) && LeaderIs(st, identity, m')
    ensures m == m'
  {
    hide Owner;
    if m != -1 && m' != -1 {
      var k :| k in st.objs && Leads(identity, k, st.objs[k]) && Owner(k) == m;
      var k' :| k' in st.objs && Leads(identity, k', st.objs[k']) && Owner(k') == m';
      if identity.ByLease? { assert k == k'; }
    }
  }

  /** Statuses of any list order give the store's leader, if the lease could be read. */
  lemma IdentityIsLeader(cr: ServerSet, st: State, identity: Identity, items: seq<Item>, statuses: seq<ReplicaStatus>)
    requires WellFormed(cr, st) && Lists(st, AllOf(ServerKind), items) && |statuses| == |items|
    requires forall j :: 0 <= j < |items| ==> Describes(identity, items[j], statuses[j], true)
    ensures LeaderIs(st, identity, IdentityOf(statuses))
  {
    hide WellFormed, Owner;
    if j :| 0 <= j < |statuses| && statuses[j].role == Active {
      var f := First(statuses, j);
      FirstActive(statuses, f);
      assert items[f].key in st.objs && Leads(identity, items[f].key, st.objs[items[f].key]);
      NonNegative(cr, st, items[f].key);
    } else {
      NoneActive(statuses);
      forall k | k in st.objs ensures !Leads(identity, k, st.objs[k]) {
        if k.kind.ServerKind? {
          assert Matches(AllOf(ServerKind), k, st.objs[k]);
          var q :| 0 <= q < |items| && items[q].key == k;
          assert Describes(identity, items[q], statuses[q], true);
        }
      }
    }
  }

  lemma NonNegative(cr: ServerSet, st: State, k: Key)
    requires WellFormed(cr, st) && k in st.objs
    ensures Owner(k) >= 0
  {
    hide InDesired, Owner, VersionOf;
    assert Made(cr, k, st.objs[k]);
  }

  lemma {:induction false} First(statuses: seq<ReplicaStatus>, j: nat) returns (f: nat)
    requires j < |statuses| && statuses[j].role == Active
    ensures f <= j && statuses[f].role == Active && forall q :: 0 <= q < f ==> statuses[q].role != Active
  {
    f := 0;
    while statuses[f].role != Active
      invariant f <= j && forall q :: 0 <= q < f ==> statuses[q].role != Active
      decreases j - f
    {
      f := f + 1;
    }
  }

  /** With one server per replica, at most one status is active. */
  lemma AtMostOneActive(cr: ServerSet, st: State, identity: Identity, items: seq<Item>, statuses: seq<ReplicaStatus>,
                        reached: bool, a: nat, b: nat)
    requires Lists(st, AllOf(ServerKind), items) && |statuses| == |items|
    requires forall j :: 0 <= j < |items| ==> Describes(identity, items[j], statuses[j], reached)
    requires forall i :: !Several(st, i, ServerKind)
    requires a < |statuses| && b < |statuses| && statuses[a].role.Active? && statuses[b].role.Active?
    ensures a == b
  {
    hide Owner;
    var j, k := items[a].key, items[b].key;
    assert Leads(identity, j, items[a].obj) && Leads(identity, k, items[b].obj);
    if identity.ByIndex? {
      assert Of(j, 0, ServerKind) && Of(k, 0, ServerKind);
      assert !Several(st, 0, ServerKind);
    }
    assert j == k;
  }

  /** Servers of replica `m` are there as before, in the same state. */
  ghost predicate SameServers(s: State, t: State, m: int) {
    forall k: Key :: k.kind.ServerKind? && Owner(k) == m && k in s.objs ==>
      k in t.objs && t.objs[k].state == s.objs[k].state && t.objs[k].reconcileError == s.objs[k].reconcileError
  }

  /** The leader stays the leader as long as its own server is not exchanged. */
  lemma LeaderStable(s: State, t: State, identity: Identity, m: int)
    requires m != -1 && LeaderIs(s, identity, m) && SameServers(s, t, m)
    ensures LeaderIs(t, identity, m)
  {
    hide Owner;
  }
}
