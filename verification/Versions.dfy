/** Reading a replica's versions off the labels of its only server and its only boot volume. */
module Versions {
  import opened Wrappers
  import opened Names
  import opened Store
  import opened Desired
  import opened Service

  ghost predicate Of(k: Key, i: int, kind: Kind) {
    k.kind == kind && Owner(k) == i
  }

  ghost predicate NoneOf(st: State, i: int, kind: Kind) {
    forall k :: k in st.objs ==> !Of(k, i, kind)
  }

  ghost predicate OnlyOne(st: State, i: int, kind: Kind, k: Key) {
    k in st.objs && Of(k, i, kind) && forall j :: j in st.objs && Of(j, i, kind) ==> j == k
  }

  ghost predicate Several(st: State, i: int, kind: Kind) {
    exists j, k :: j in st.objs && k in st.objs && j != k && Of(j, i, kind) && Of(k, i, kind)
  }

  lemma JammedIsSeveral(st: State, i: int)
    ensures Jammed(st, i) <==> Several(st, i, ServerKind) || Several(st, i, VolumeKind)
  {
    hide Owner;
    if Jammed(st, i) {
      var j, k :| j in st.objs && k in st.objs && j != k && j.kind == k.kind
        && (k.kind.ServerKind? || k.kind.VolumeKind?) && Owner(j) == i && Owner(k) == i;
      assert Of(j, i, k.kind) && Of(k, i, k.kind);
    }
  }

  datatype Found = Version(v: int) | TooMany | NoneFound | Unreadable

  /** How many objects a list by replica index returned says how many there are. */
  lemma ListedByReplica(cr: ServerSet, st: State, kind: Kind, i: nat, items: seq<Item>)
    requires WellFormed(cr, st) && !kind.RuleKind? && Lists(st, OfReplica(kind, i), items)
    ensures |items| == 0 ==> NoneOf(st, i, kind)
    ensures |items| == 1 ==> OnlyOne(st, i, kind, items[0].key)
    ensures |items| > 1 ==> Several(st, i, kind)
    ensures forall j :: 0 <= j < |items| ==> Of(items[j].key, i, kind)
  {
    hide Owner, Matches, WellFormed, OfReplica;
    forall k | k in st.objs && Of(k, i, kind) ensures exists j :: 0 <= j < |items| && items[j].key == k {
      ReplicaSelects(cr, st, kind, i, k);
    }
    forall j | 0 <= j < |items| ensures Of(items[j].key, i, kind) {
      ReplicaSelects(cr, st, kind, i, items[j].key);
    }
    if |items| > 1 { assert items[0].key != items[1].key; }
  }

  lemma LabelsOf(cr: ServerSet, st: State, k: Key)
    requires WellFormed(cr, st) && k in st.objs && !k.kind.RuleKind?
    ensures ComputeReplicaIdx(st.objs[k].labels.replica) == Owner(k) >= 0
    ensures Atoi(st.objs[k].labels.version) == Some(VersionOf(k)) && VersionOf(k) >= 0
    ensures k.kind.ServerKind? ==> k == ServerKey(cr, Owner(k), VersionOf(k))
    ensures k.kind.VolumeKind? ==> k == VolumeKey(cr, Owner(k), VersionOf(k))
  {
    hide Owner, VersionOf, Itoa, Atoi, InDesired, ServerKey, VolumeKey;
    assert Made(cr, k, st.objs[k]);
    MadeKey(cr, k, st.objs[k], Owner(k));
  }

  method GetVersion(kube: Kube, ghost cr: ServerSet, kind: Kind, i: nat) returns (r: Found)
    requires WellFormed(cr, kube.st) && (kind.ServerKind? || kind.VolumeKind?)
    ensures r.TooMany? ==> Several(kube.st, i, kind)
    ensures r.NoneFound? ==> NoneOf(kube.st, i, kind)
    ensures r.Version? ==> r.v >= 0 && OnlyOne(kube.st, i, kind,
                             if kind.ServerKind? then ServerKey(cr, i, r.v) else VolumeKey(cr, i, r.v))
    ensures kube.reliable ==> !r.Unreadable?
  {
    hide WellFormed, OnlyOne, NoneOf, Several, ServerKey, VolumeKey, Owner, VersionOf, Lists, OfReplica;
    var res := kube.List(OfReplica(kind, i));
    if res.None? {
      return Unreadable;
    }
    ListedByReplica(cr, kube.st, kind, i, res.value);
    if |res.value| > 1 {
      return TooMany;
    }
    if |res.value| == 0 {
      return NoneFound;
    }
    OneIsThere(kube.st, i, kind, res.value[0].key);
    ListedObject(kube.st, OfReplica(kind, i), res.value, 0);
    LabelsOf(cr, kube.st, res.value[0].key);
    match Atoi(res.value[0].obj.labels.version)
    case Some(v) => r := Version(v);
    case None => r := Unreadable;
  }

  lemma OneIsThere(st: State, i: int, kind: Kind, k: Key)
    requires OnlyOne(st, i, kind, k)
    ensures k in st.objs && Owner(k) == i && k.kind == kind
  {
  }

  lemma ListedObject(st: State, sel: Selector, items: seq<Item>, j: nat)
    requires Lists(st, sel, items) && j < |items|
    ensures items[j].key in st.objs && st.objs[items[j].key] == items[j].obj && items[j].key.kind == sel.kind
  {
  }

  /** Without a volume both versions are read as 0; without a server only the server's is. */
  datatype Pair = Both(volume: nat, server: nat) | NoVolume | NoServer(volume: nat) | Unknown

  /** Versions of the replica's only volume and only server. */
  method GetVersionsFromVolumeAndServer(kube: Kube, cr: ServerSet, i: nat) returns (r: Pair)
    requires WellFormed(cr, kube.st)
    ensures r.Both? ==> Sole(cr, i, r.volume, r.server, kube.st)
    ensures r.NoVolume? ==> NoneOf(kube.st, i, VolumeKind)
    ensures r.NoServer? ==> OnlyOne(kube.st, i, VolumeKind, VolumeKey(cr, i, r.volume))
    ensures r.NoServer? ==> NoneOf(kube.st, i, ServerKind)
    ensures kube.reliable && r.Unknown? ==> Several(kube.st, i, VolumeKind) || Several(kube.st, i, ServerKind)
  {
    hide WellFormed, OnlyOne, NoneOf, Several, ServerKey, VolumeKey, Sole;
    var volume := GetVersion(kube, cr, VolumeKind, i);
    if volume.NoneFound? {
      return NoVolume;
    }
    if !volume.Version? {
      return Unknown;
    }
    var server := GetVersion(kube, cr, ServerKind, i);
    match server
    case Version(sv) =>
      SoleFromOnly(cr, i, volume.v, sv, kube.st);
      r := Both(volume.v, sv);
    case NoneFound => r := NoServer(volume.v);
    case _ => r := Unknown;
  }

  lemma SoleFromOnly(cr: ServerSet, i: nat, vv: nat, sv: nat, st: State)
    requires OnlyOne(st, i, VolumeKind, VolumeKey(cr, i, vv)) && OnlyOne(st, i, ServerKind, ServerKey(cr, i, sv))
    ensures Sole(cr, i, vv, sv, st)
  {
    hide Owner, ServerKey, VolumeKey;
  }

  lemma SoleNotJammed(cr: ServerSet, i: nat, vv: nat, sv: nat, st: State)
    requires Sole(cr, i, vv, sv, st)
    ensures !Jammed(st, i)
  {
    hide Owner, ServerKey, VolumeKey;
  }
}
