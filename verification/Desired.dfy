/** The server set, the objects it wants for each replica, and what a store made of them looks like. */
module Desired {
  import opened Wrappers
  import opened Names
  import opened Store

  datatype NicTemplate = NicTemplate(name: string, firewallActive: bool, rules: seq<string>)

  datatype Strategy = CreateAllBeforeDestroy | CreateBeforeDestroyBootVolume | Unspecified

  datatype ServerSet = ServerSet(
    replicas: nat,
    serverBase: string, cores: int, ram: int, cpuFamily: string, nicMultiQueue: Option<bool>,
    nics: seq<NicTemplate>, hasStateMap: bool,
    volumeBase: string, size: int, typ: string, image: string, setHotPlugsFromImage: bool,
    strategy: Strategy)

  /** Rules are created for NICs with an active firewall only, but deleted for all: declared rules are
      expected on active NICs. */
  predicate RulesActive(cr: ServerSet) {
    forall n :: 0 <= n < |cr.nics| && cr.nics[n].rules != [] ==> cr.nics[n].firewallActive
  }

  // ---------- keys ----------

  /** The numbers printed at the end of an object's name. */
  ghost function Numbers(k: Key): seq<int> {
    Peel(k.name, match k.kind case NicKind => 3 case RuleKind => 4 case _ => 2).1
  }

  ghost function Owner(k: Key): int {
    if |Numbers(k)| > 0 then Numbers(k)[0] else -1
  }

  ghost function VersionOf(k: Key): int {
    if |Numbers(k)| > 0 then Numbers(k)[|Numbers(k)| - 1] else -1
  }

  ghost function NicOf(k: Key): int {
    if |Numbers(k)| > 2 then Numbers(k)[1] else -1
  }

  ghost function RuleOf(k: Key): int {
    if |Numbers(k)| > 3 then Numbers(k)[2] else -1
  }

  function ServerKey(cr: ServerSet, i: nat, v: nat): (k: Key)
    ensures k.kind == ServerKind && Owner(k) == i && VersionOf(k) == v
  {
    Key(ServerKind, GetNameFrom(cr.serverBase, i, v))
  }

  function VolumeKey(cr: ServerSet, i: nat, v: nat): (k: Key)
    ensures k.kind == VolumeKind && Owner(k) == i && VersionOf(k) == v
  {
    Key(VolumeKind, GetNameFrom(cr.volumeBase, i, v))
  }

  function NicKey(cr: ServerSet, i: nat, n: nat, v: nat): (k: Key)
    requires n < |cr.nics|
    ensures k.kind == NicKind && Owner(k) == i && NicOf(k) == n && VersionOf(k) == v
  {
    Key(NicKind, GetNicName(cr.nics[n].name, i, n, v))
  }

  function RuleKey(cr: ServerSet, i: nat, n: nat, r: nat, v: nat): (k: Key)
    requires n < |cr.nics| && r < |cr.nics[n].rules|
    ensures k.kind == RuleKind && Owner(k) == i && NicOf(k) == n && RuleOf(k) == r && VersionOf(k) == v
  {
    Key(RuleKind, GetFirewallRuleName(cr.nics[n].rules[r], i, n, r, v))
  }

  /** Replica `i` at volume version `vv` and server version `sv` wants an object under this key. */
  ghost predicate InDesired(cr: ServerSet, i: nat, vv: nat, sv: nat, k: Key) {
    match k.kind
    case ServerKind => k == ServerKey(cr, i, sv)
    case VolumeKind => k == VolumeKey(cr, i, vv)
    case NicKind => 0 <= NicOf(k) < |cr.nics| && k == NicKey(cr, i, NicOf(k), sv)
    case RuleKind =>
      && 0 <= NicOf(k) < |cr.nics| && 0 <= RuleOf(k) < |cr.nics[NicOf(k)].rules|
      && k == RuleKey(cr, i, NicOf(k), RuleOf(k), sv)
  }

  // ---------- objects ----------

  function NewServer(cr: ServerSet, i: nat, v: nat): Obj {
    Obj(Labels(Itoa(i), "", Itoa(v)), ServerSpec(cr.cores, cr.ram, cr.cpuFamily, cr.nicMultiQueue, 0),
        0, Unset, false)
  }

  function NewVolume(cr: ServerSet, i: nat, v: nat): Obj {
    Obj(Labels(Itoa(i), "", Itoa(v)),
        VolumeSpec(cr.size, cr.typ, cr.image, cr.setHotPlugsFromImage,
                   !cr.setHotPlugsFromImage, !cr.setHotPlugsFromImage),
        0, Unset, false)
  }

  function NewNic(cr: ServerSet, i: nat, n: nat, v: nat, serverId: nat): Obj {
    Obj(Labels(Itoa(i), Itoa(n), Itoa(v)), NicSpec(serverId), 0, Unset, false)
  }

  /** Firewall rules carry no index or version label. */
  function NewRule(serverId: nat, nicId: nat): Obj {
    Obj(Labels("", "", ""), RuleSpec(serverId, nicId), 0, Unset, false)
  }

  /** The parameters are the template's, field by field; a volume takes processors and memory while running
      unless its image says which it takes. */
  predicate SpecNew(cr: ServerSet, spec: Spec) {
    match spec
    case ServerSpec(cores, ram, cpuFamily, nicMultiQueue, _) =>
      cores == cr.cores && ram == cr.ram && cpuFamily == cr.cpuFamily && nicMultiQueue == cr.nicMultiQueue
    case VolumeSpec(size, typ, image, setHotPlugsFromImage, cpuHotPlug, ramHotPlug) =>
      && size == cr.size && typ == cr.typ && image == cr.image && setHotPlugsFromImage == cr.setHotPlugsFromImage
      && (cpuHotPlug <==> !cr.setHotPlugsFromImage) && (ramHotPlug <==> !cr.setHotPlugsFromImage)
    case _ => true
  }

  predicate SameButVolume(spec: Spec, other: Spec) {
    spec == other || (spec.ServerSpec? && other.ServerSpec? && other == spec.(volumeId := other.volumeId))
  }

  /** From `s` to `t`: what is there has the template's parameters, or those it had; servers may have been set to
      boot from another volume. */
  ghost predicate NewFit(cr: ServerSet, s: State, t: State) {
    forall k :: k in t.objs ==>
      SpecNew(cr, t.objs[k].spec) || (k in s.objs && SameButVolume(s.objs[k].spec, t.objs[k].spec))
  }

  lemma NewFitStart(cr: ServerSet, s: State)
    ensures NewFit(cr, s, s)
  {
  }

  lemma NewFitTransitive(cr: ServerSet, s: State, t: State, u: State)
    requires NewFit(cr, s, t) && NewFit(cr, t, u)
    ensures NewFit(cr, s, u)
  {
  }

  lemma NewFitRemoved(cr: ServerSet, s: State, t: State, u: State)
    requires NewFit(cr, s, t) && forall k :: k in u.objs ==> k in t.objs && u.objs[k] == t.objs[k]
    ensures NewFit(cr, s, u)
  {
    hide SpecNew, SameButVolume;
  }

  lemma NewFitAttached(cr: ServerSet, s: State, t: State, k: Key, volumeId: nat)
    requires NewFit(cr, s, t) && k in t.objs && t.objs[k].spec.ServerSpec?
    ensures var o := t.objs[k]; NewFit(cr, s, t.(objs := t.objs[k := o.(spec := o.spec.(volumeId := volumeId))]))
  {
  }

  /** What the controllers make has the template's parameters. */
  lemma MadeNew(cr: ServerSet, i: nat, n: nat, v: nat, serverId: nat, nicId: nat)
    ensures SpecNew(cr, NewServer(cr, i, v).spec) && SpecNew(cr, NewVolume(cr, i, v).spec)
    ensures SpecNew(cr, NewNic(cr, i, n, v, serverId).spec) && SpecNew(cr, NewRule(serverId, nicId).spec)
  {
    hide Itoa, Atoi;
  }

  ghost predicate SpecFits(kind: Kind, spec: Spec) {
    match kind
    case ServerKind => spec.ServerSpec?
    case VolumeKind => spec.VolumeSpec?
    case NicKind => spec.NicSpec?
    case RuleKind => spec.RuleSpec?
  }

  /** The object under a key is one the controllers made for it: name, labels and kind agree, and what
      is available has an id. */
  ghost predicate Made(cr: ServerSet, k: Key, o: Obj) {
    && Owner(k) >= 0 && VersionOf(k) >= 0
    && InDesired(cr, Owner(k), VersionOf(k), VersionOf(k), k)
    && SpecFits(k.kind, o.spec)
    && (!k.kind.RuleKind? ==> o.labels.replica == Itoa(Owner(k)) && o.labels.version == Itoa(VersionOf(k)))
    && (k.kind.NicKind? ==> o.labels.nic == Itoa(NicOf(k)))
    && (o.state.Available? ==> o.id != 0)
  }

  ghost predicate WellFormed(cr: ServerSet, st: State) {
    && st.nextId > 0
    && (forall k :: k in st.objs ==> Made(cr, k, st.objs[k]) && st.objs[k].id < st.nextId)
    && (forall j, k :: j in st.objs && k in st.objs && st.objs[j].id == st.objs[k].id != 0 ==> j == k)
  }

  function IdAt(st: State, k: Key): nat {
    if k in st.objs then st.objs[k].id else 0
  }

  /** A NIC or rule under `k` names the ids of its own replica's server and NIC. */
  ghost predicate SpecWired(cr: ServerSet, i: nat, sv: nat, st: State, k: Key, spec: Spec) {
    match spec
    case NicSpec(serverId) => serverId != 0 && serverId == IdAt(st, ServerKey(cr, i, sv))
    case RuleSpec(serverId, nicId) =>
      && serverId != 0 && serverId == IdAt(st, ServerKey(cr, i, sv))
      && 0 <= NicOf(k) < |cr.nics| && nicId != 0 && nicId == IdAt(st, NicKey(cr, i, NicOf(k), sv))
    case _ => true
  }

  ghost predicate Wired(cr: ServerSet, i: nat, sv: nat, st: State) {
    forall k :: k in st.objs && Owner(k) == i && VersionOf(k) == sv ==> SpecWired(cr, i, sv, st, k, st.objs[k].spec)
  }

  // ---------- a replica ----------

  /** The replica's server exists at the provider and boots from the replica's volume. */
  ghost predicate Attached(cr: ServerSet, i: nat, vv: nat, sv: nat, st: State) {
    && ServerKey(cr, i, sv) in st.objs && st.objs[ServerKey(cr, i, sv)].spec.ServerSpec?
    && IdAt(st, ServerKey(cr, i, sv)) != 0
    && st.objs[ServerKey(cr, i, sv)].spec.volumeId == IdAt(st, VolumeKey(cr, i, vv)) != 0
  }

  /** A server whose attached boot volume exists, with all NICs and rules of the server's version. */
  ghost predicate ServedWith(cr: ServerSet, i: nat, vv: nat, sv: nat, st: State) {
    Attached(cr, i, vv, sv, st) && forall k :: InDesired(cr, i, vv, sv, k) ==> k in st.objs
  }

  ghost predicate InService(cr: ServerSet, i: nat, st: State) {
    exists vv: nat, sv: nat :: ServedWith(cr, i, vv, sv, st)
  }

  /** Exactly the objects wanted at these versions, connected with each other. */
  ghost predicate Complete(cr: ServerSet, i: nat, vv: nat, sv: nat, st: State) {
    && ServedWith(cr, i, vv, sv, st)
    && (forall k :: k in st.objs && Owner(k) == i ==> InDesired(cr, i, vv, sv, k))
    && Wired(cr, i, sv, st)
  }

  /** Objects of other replicas are as before. */
  ghost predicate OnlyReplica(s: State, t: State, i: int) {
    forall k :: Owner(k) != i ==>
      (k in s.objs <==> k in t.objs) && (k in s.objs ==> s.objs[k] == t.objs[k])
  }

  ghost predicate HasVolume(st: State, i: int) {
    exists k :: k in st.objs && k.kind.VolumeKind? && Owner(k) == i
  }

  /** Two servers, or two boot volumes, carry the same replica index. */
  ghost predicate Jammed(st: State, i: int) {
    exists j, k :: j in st.objs && k in st.objs && j != k && j.kind == k.kind
      && (k.kind.ServerKind? || k.kind.VolumeKind?) && Owner(j) == i && Owner(k) == i
  }

  ghost predicate SameKeys(s: State, t: State, i: int) {
    forall k :: Owner(k) == i ==> (k in s.objs <==> k in t.objs)
  }

  // ---------- basic facts ----------

  lemma DesiredOwner(cr: ServerSet, i: nat, vv: nat, sv: nat, k: Key)
    requires InDesired(cr, i, vv, sv, k)
    ensures Owner(k) == i && VersionOf(k) == if k.kind.VolumeKind? then vv else sv
  {
    hide ServerKey, VolumeKey, NicKey, RuleKey, Owner, VersionOf, NicOf, RuleOf;
  }

  /** An object of replica i is the one its version says. */
  lemma MadeKey(cr: ServerSet, k: Key, o: Obj, i: nat)
    requires Made(cr, k, o) && Owner(k) == i
    ensures InDesired(cr, i, VersionOf(k), VersionOf(k), k)
    ensures k.kind.ServerKind? ==> k == ServerKey(cr, i, VersionOf(k))
    ensures k.kind.VolumeKind? ==> k == VolumeKey(cr, i, VersionOf(k))
  {
    hide ServerKey, VolumeKey, NicKey, RuleKey, Owner, VersionOf, NicOf, RuleOf;
  }

  /** Listing by a printed replica index finds exactly that replica's objects. */
  lemma ReplicaSelects(cr: ServerSet, st: State, kind: Kind, i: nat, k: Key)
    requires WellFormed(cr, st) && !kind.RuleKind? && k in st.objs
    ensures Matches(OfReplica(kind, i), k, st.objs[k]) <==> k.kind == kind && Owner(k) == i
  {
    hide Itoa, Atoi, InDesired, Owner, VersionOf;
    assert Made(cr, k, st.objs[k]);
    assert Atoi(Itoa(i)) == Some(i as int) && Atoi(Itoa(Owner(k))) == Some(Owner(k));
  }

  lemma VersionSelects(cr: ServerSet, st: State, kind: Kind, i: nat, v: nat, k: Key)
    requires WellFormed(cr, st) && !kind.RuleKind? && k in st.objs
    ensures Matches(Selector(kind, Some(Itoa(i)), Some(Itoa(v))), k, st.objs[k])
       <==> k.kind == kind && Owner(k) == i && VersionOf(k) == v
  {
    hide Itoa, Atoi, InDesired, Owner, VersionOf;
    assert Made(cr, k, st.objs[k]);
    assert Atoi(Itoa(i)) == Some(i as int) && Atoi(Itoa(Owner(k))) == Some(Owner(k));
    assert Atoi(Itoa(v)) == Some(v as int) && Atoi(Itoa(VersionOf(k))) == Some(VersionOf(k));
  }
}
