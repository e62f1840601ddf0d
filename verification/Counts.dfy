/** How many objects a whole set has: what Observe compares with the wanted numbers. */
module Counts {
  import opened Store
  import opened Desired
  import opened Service
  import opened Creation

  ghost predicate DistinctKeys(at: seq<Key>) {
    forall p, q :: 0 <= p < q < |at| ==> at[p] != at[q]
  }

  lemma {:induction false} DistinctCount(at: seq<Key>)
    requires DistinctKeys(at)
    ensures |set k | k in at| == |at|
  {
    if at != [] {
      var front, last := at[..|at| - 1], at[|at| - 1];
      DistinctCount(front);
      assert last !in front;
      assert (set k | k in at) == (set k | k in front) + {last} by {
        assert at == front + [last];
      }
    }
  }

  /** A list has as many items as there are keys that are exactly the selected ones. */
  lemma CountBy(st: State, kind: Kind, items: seq<Item>, at: seq<Key>)
    requires Lists(st, AllOf(kind), items) && DistinctKeys(at)
    requires forall k :: k in at ==> k in st.objs && k.kind == kind
    requires forall k :: k in st.objs && k.kind == kind ==> k in at
    ensures |items| == |at|
  {
    DistinctCount(at);
    ListedCount(st, AllOf(kind), items, set k | k in at);
  }

  function ServersOf(cr: ServerSet, vs: ReplicaVersions): (at: seq<Key>)
    ensures |at| == |vs.srv| && forall i :: 0 <= i < |at| ==> at[i] == ServerKey(cr, i, vs.srv[i])
  {
    seq(|vs.srv|, i requires 0 <= i < |vs.srv| => ServerKey(cr, i, vs.srv[i]))
  }

  function VolumesOf(cr: ServerSet, vs: ReplicaVersions): (at: seq<Key>)
    ensures |at| == |vs.vol| && forall i :: 0 <= i < |at| ==> at[i] == VolumeKey(cr, i, vs.vol[i])
  {
    seq(|vs.vol|, i requires 0 <= i < |vs.vol| => VolumeKey(cr, i, vs.vol[i]))
  }

  function NicsOf(cr: ServerSet, i: nat, v: nat): (at: seq<Key>)
    ensures |at| == |cr.nics| && forall n :: 0 <= n < |at| ==> at[n] == NicKey(cr, i, n, v)
  {
    seq(|cr.nics|, n requires 0 <= n < |cr.nics| => NicKey(cr, i, n, v))
  }

  function AllNics(cr: ServerSet, vs: ReplicaVersions, r: nat): seq<Key>
    requires r <= |vs.srv|
  {
    if r == 0 then [] else AllNics(cr, vs, r - 1) + NicsOf(cr, r - 1, vs.srv[r - 1])
  }

  lemma NicsOfDistinct(cr: ServerSet, i: nat, v: nat)
    ensures DistinctKeys(NicsOf(cr, i, v))
  {
    hide NicKey, NicOf, Owner, VersionOf;
    var at := NicsOf(cr, i, v);
    forall p, q | 0 <= p < q < |at| ensures at[p] != at[q] {
      assert NicOf(at[p]) == p && NicOf(at[q]) == q;
    }
  }

  /** All NICs, replica by replica: as many as replicas times NICs, none twice. */
  lemma {:induction false} AllNicsDistinct(cr: ServerSet, vs: ReplicaVersions, r: nat)
    requires r <= |vs.srv|
    ensures |AllNics(cr, vs, r)| == r * |cr.nics| && DistinctKeys(AllNics(cr, vs, r))
    ensures forall p :: 0 <= p < |AllNics(cr, vs, r)| ==> 0 <= Owner(AllNics(cr, vs, r)[p]) < r
  {
    hide NicKey, NicOf, Owner, VersionOf;
    if r > 0 {
      var front, last := AllNics(cr, vs, r - 1), NicsOf(cr, r - 1, vs.srv[r - 1]);
      AllNicsDistinct(cr, vs, r - 1);
      NicsOfDistinct(cr, r - 1, vs.srv[r - 1]);
      assert forall n :: 0 <= n < |last| ==> Owner(last[n]) == r - 1;
      Distribute(r, |cr.nics|);
      JoinDistinct(front, last, r - 1);
    }
  }

  lemma JoinDistinct(front: seq<Key>, last: seq<Key>, i: nat)
    requires DistinctKeys(front) && DistinctKeys(last)
    requires forall p :: 0 <= p < |front| ==> 0 <= Owner(front[p]) < i
    requires forall n :: 0 <= n < |last| ==> Owner(last[n]) == i
    ensures DistinctKeys(front + last)
    ensures forall p :: 0 <= p < |front + last| ==> 0 <= Owner((front + last)[p]) < i + 1
  {
    hide Owner;
  }

  lemma Distribute(r: nat, n: nat)
    requires r > 0
    ensures r * n == (r - 1) * n + n
  {
  }

  lemma {:induction false} NicAmongAll(cr: ServerSet, vs: ReplicaVersions, r: nat, i: nat, n: nat)
    requires i < r <= |vs.srv| && n < |cr.nics|
    ensures NicKey(cr, i, n, vs.srv[i]) in AllNics(cr, vs, r)
  {
    hide NicKey;
    if i < r - 1 {
      NicAmongAll(cr, vs, r - 1, i, n);
    } else {
      assert NicsOf(cr, i, vs.srv[i])[n] in AllNics(cr, vs, r);
    }
  }

  lemma {:induction false} AllNicsThere(cr: ServerSet, vs: ReplicaVersions, st: State, r: nat, k: Key)
    requires r <= cr.replicas && AllWhole(cr, vs, st, cr.replicas) && k in AllNics(cr, vs, r)
    ensures k in st.objs && k.kind == NicKind
  {
    hide NicKey, Whole, NicOf, Owner, VersionOf;
    if k in AllNics(cr, vs, r - 1) {
      AllNicsThere(cr, vs, st, r - 1, k);
    } else {
      var n :| 0 <= n < |cr.nics| && NicsOf(cr, r - 1, vs.srv[r - 1])[n] == k;
      WholeHas(cr, r - 1, vs.vol[r - 1], vs.srv[r - 1], st, k);
      WantedNic(cr, r - 1, vs.vol[r - 1], vs.srv[r - 1], n);
    }
  }

  lemma WantedNic(cr: ServerSet, i: nat, vv: nat, sv: nat, n: nat)
    requires n < |cr.nics|
    ensures InDesired(cr, i, vv, sv, NicKey(cr, i, n, sv))
  {
    hide NicKey, NicOf, Owner, VersionOf;
  }

  lemma WholeHas(cr: ServerSet, i: nat, vv: nat, sv: nat, st: State, k: Key)
    requires Whole(cr, i, vv, sv, st)
    ensures InDesired(cr, i, vv, sv, k) ==> k in st.objs
    ensures k in st.objs && Owner(k) == i ==> InDesired(cr, i, vv, sv, k)
  {
    hide InDesired, Owner, Wired, ServerKey, VolumeKey;
  }

  /** Each object of a whole set is the one its replica wants. */
  lemma WholeKind(cr: ServerSet, vs: ReplicaVersions, st: State, k: Key)
    requires AllWhole(cr, vs, st, cr.replicas) && NoStrangers(cr, st) && k in st.objs
    ensures 0 <= Owner(k) < cr.replicas
    ensures k.kind.ServerKind? ==> k == ServerKey(cr, Owner(k), vs.srv[Owner(k)])
    ensures k.kind.VolumeKind? ==> k == VolumeKey(cr, Owner(k), vs.vol[Owner(k)])
    ensures k.kind.NicKind? ==> 0 <= NicOf(k) < |cr.nics| && k == NicKey(cr, Owner(k), NicOf(k), vs.srv[Owner(k)])
  {
    hide Whole, Owner, VersionOf, NicOf, RuleOf, ServerKey, VolumeKey, NicKey, RuleKey;
    WholeHas(cr, Owner(k), vs.vol[Owner(k)], vs.srv[Owner(k)], st, k);
  }

  lemma WholeCountServers(cr: ServerSet, vs: ReplicaVersions, st: State, items: seq<Item>)
    requires AllWhole(cr, vs, st, cr.replicas) && NoStrangers(cr, st) && Lists(st, AllOf(ServerKind), items)
    ensures |items| == cr.replicas
  {
    hide Whole, NoStrangers, Lists, Owner, VersionOf, ServerKey, VolumeKey, InDesired;
    var at := ServersOf(cr, vs);
    assert DistinctKeys(at) by {
      forall p, q | 0 <= p < q < |at| ensures at[p] != at[q] { assert Owner(at[p]) == p && Owner(at[q]) == q; }
    }
    forall k | k in at ensures k in st.objs && k.kind == ServerKind {
      var i :| 0 <= i < |at| && at[i] == k;
      WholeHas(cr, i, vs.vol[i], vs.srv[i], st, k);
      ServerVolumeWanted(cr, i, vs.vol[i], vs.srv[i]);
    }
    forall k | k in st.objs && k.kind == ServerKind ensures k in at {
      WholeKind(cr, vs, st, k);
      assert at[Owner(k)] == k;
    }
    CountBy(st, ServerKind, items, at);
  }

  lemma WholeCountVolumes(cr: ServerSet, vs: ReplicaVersions, st: State, items: seq<Item>)
    requires AllWhole(cr, vs, st, cr.replicas) && NoStrangers(cr, st) && Lists(st, AllOf(VolumeKind), items)
    ensures |items| == cr.replicas
  {
    hide Whole, NoStrangers, Lists, Owner, VersionOf, ServerKey, VolumeKey, InDesired;
    var at := VolumesOf(cr, vs);
    assert DistinctKeys(at) by {
      forall p, q | 0 <= p < q < |at| ensures at[p] != at[q] { assert Owner(at[p]) == p && Owner(at[q]) == q; }
    }
    forall k | k in at ensures k in st.objs && k.kind == VolumeKind {
      var i :| 0 <= i < |at| && at[i] == k;
      WholeHas(cr, i, vs.vol[i], vs.srv[i], st, k);
      ServerVolumeWanted(cr, i, vs.vol[i], vs.srv[i]);
    }
    forall k | k in st.objs && k.kind == VolumeKind ensures k in at {
      WholeKind(cr, vs, st, k);
      assert at[Owner(k)] == k;
    }
    CountBy(st, VolumeKind, items, at);
  }

  lemma WholeCountNics(cr: ServerSet, vs: ReplicaVersions, st: State, items: seq<Item>)
    requires AllWhole(cr, vs, st, cr.replicas) && NoStrangers(cr, st) && Lists(st, AllOf(NicKind), items)
    ensures |items| == cr.replicas * |cr.nics|
  {
    hide Whole, NoStrangers, Lists, Owner, VersionOf, NicKey, NicOf, AllNics, ServerKey, VolumeKey;
    var at := AllNics(cr, vs, cr.replicas);
    AllNicsDistinct(cr, vs, cr.replicas);
    forall k | k in at ensures k in st.objs && k.kind == NicKind {
      AllNicsThere(cr, vs, st, cr.replicas, k);
    }
    forall k | k in st.objs && k.kind == NicKind ensures k in at {
      WholeKind(cr, vs, st, k);
      NicAmongAll(cr, vs, cr.replicas, Owner(k), NicOf(k));
    }
    CountBy(st, NicKind, items, at);
  }

  /** Lists of a whole set: one server and one volume per replica, and all NICs for each. */
  lemma WholeCounts(cr: ServerSet, vs: ReplicaVersions, st: State, servers: seq<Item>, volumes: seq<Item>,
                    nics: seq<Item>)
    requires AllWhole(cr, vs, st, cr.replicas) && NoStrangers(cr, st)
    requires Lists(st, AllOf(ServerKind), servers) && Lists(st, AllOf(VolumeKind), volumes)
    requires Lists(st, AllOf(NicKind), nics)
    ensures |servers| == cr.replicas && |volumes| == cr.replicas && |nics| == cr.replicas * |cr.nics|
  {
    hide AllWhole, NoStrangers, Lists;
    WholeCountServers(cr, vs, st, servers);
    WholeCountVolumes(cr, vs, st, volumes);
    WholeCountNics(cr, vs, st, nics);
  }
}
