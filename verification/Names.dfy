/**
  Printed names and label values.

  The controller finds its resources only through what it printed: an object name
  `base-replica-version` (longer for NICs and firewall rules) and decimal label values. Each printer
  below carries its own inverse as a postcondition, so that equal names give equal arguments wherever
  a name is mentioned.
 */
module Names {
  import opened Wrappers

  // ---------- decimal numbers (strconv.Itoa, strconv.Atoi) ----------

  predicate IsDigit(c: char) {
    '0' <= c <= '9'
  }

  predicate AllDigits(s: string) {
    forall k :: 0 <= k < |s| ==> IsDigit(s[k])
  }

  function ReadDigits(s: string): nat
    requires AllDigits(s)
  {
    if s == "" then 0 else 10 * ReadDigits(s[..|s| - 1]) + (s[|s| - 1] as int - '0' as int)
  }

  function PrintNat(n: nat): (s: string)
    ensures s != "" && AllDigits(s) && ReadDigits(s) == n
  {
    var last := [('0' as int + n % 10) as char];
    if n < 10 then last else
      var front := PrintNat(n / 10);
      assert (front + last)[..|front + last| - 1] == front;
      front + last
  }

  /** Decimal text of an integer, as strconv.Itoa and the %d verb print it. */
  function Itoa(n: int): (s: string)
    ensures Atoi(s) == Some(n)
    ensures '.' !in s
    ensures n >= 0 ==> '-' !in s
  {
    if n >= 0 then PrintNat(n) else
      var digits := PrintNat(-n);
      assert ("-" + digits)[1..] == digits;
      "-" + digits
  }

  /** Integer held by a text: an optional sign, then at least one digit; anything else is an error. */
  function Atoi(s: string): Option<int> {
    if s != "" && s[0] in "+-" then
      if |s| > 1 && AllDigits(s[1..]) then
        Some(if s[0] == '-' then 0 - ReadDigits(s[1..]) else ReadDigits(s[1..]) as int)
      else None
    else if s != "" && AllDigits(s) then Some(ReadDigits(s))
    else None
  }

  /** The index a label value stands for; -1 when the label is missing or no number. */
  function ComputeReplicaIdx(text: string): int {
    match Atoi(text)
    case Some(n) => n
    case None => -1
  }

  // ---------- dashed names ----------

  /** Position of the last dash, -1 when there is none. */
  function LastDash(s: string): (d: int)
    ensures -1 <= d < |s|
    ensures d >= 0 ==> s[d] == '-'
    ensures forall k :: d < k < |s| ==> s[k] != '-'
  {
    if s == "" then -1
    else if s[|s| - 1] == '-' then |s| - 1
    else LastDash(s[..|s| - 1])
  }

  /** Cuts `n` trailing "-number" groups off a name: what is left, and the numbers in printed order. */
  function Peel(s: string, n: nat): (string, seq<int>) {
    if n == 0 then (s, []) else
      var d := LastDash(s);
      if d < 0 then (s, []) else
        var (base, nums) := Peel(s[..d], n - 1);
        (base, nums + [ComputeReplicaIdx(s[d + 1..])])
  }

  lemma PeelOne(front: string, i: int, n: nat, base: string, nums: seq<int>)
    requires i >= 0 && Peel(front, n) == (base, nums)
    ensures Peel(front + "-" + Itoa(i), n + 1) == (base, nums + [i])
  {
    var s := front + "-" + Itoa(i);
    assert s[|front|] == '-';
    assert forall k :: |front| < k < |s| ==> s[k] == Itoa(i)[k - |front| - 1];
    assert LastDash(s) == |front|;
    assert s[..|front|] == front && s[|front| + 1..] == Itoa(i);
  }

  /** Name of a server or boot volume: base-replica-version. */
  function GetNameFrom(base: string, idx: int, version: int): (s: string)
    ensures idx >= 0 && version >= 0 ==> Peel(s, 2) == (base, [idx, version])
  {
    PeelName(base, idx, version);
    base + "-" + Itoa(idx) + "-" + Itoa(version)
  }

  lemma PeelName(base: string, idx: int, version: int)
    ensures idx >= 0 && version >= 0
            ==> Peel(base + "-" + Itoa(idx) + "-" + Itoa(version), 2) == (base, [idx, version])
  {
    if idx >= 0 && version >= 0 {
      PeelOne(base, idx, 0, base, []);
      PeelOne(base + "-" + Itoa(idx), version, 1, base, [] + [idx]);
      assert [] + [idx] + [version] == [idx, version];
    }
  }

  /** Name of a NIC: base-replica-nic-version. */
  function GetNicName(base: string, idx: int, nic: int, version: int): (s: string)
    ensures idx >= 0 && nic >= 0 && version >= 0 ==> Peel(s, 3) == (base, [idx, nic, version])
  {
    PeelNicName(base, idx, nic, version);
    base + "-" + Itoa(idx) + "-" + Itoa(nic) + "-" + Itoa(version)
  }

  lemma PeelNicName(base: string, idx: int, nic: int, version: int)
    ensures idx >= 0 && nic >= 0 && version >= 0
            ==> Peel(base + "-" + Itoa(idx) + "-" + Itoa(nic) + "-" + Itoa(version), 3)
                == (base, [idx, nic, version])
  {
    if idx >= 0 && nic >= 0 && version >= 0 {
      PeelName(base, idx, nic);
      PeelOne(base + "-" + Itoa(idx) + "-" + Itoa(nic), version, 2, base, [idx, nic]);
      assert [idx, nic] + [version] == [idx, nic, version];
    }
  }

  /** Name of a firewall rule: base-replica-nic-rule-version. */
  function GetFirewallRuleName(base: string, idx: int, nic: int, rule: int, version: int): (s: string)
    ensures idx >= 0 && nic >= 0 && rule >= 0 && version >= 0
            ==> Peel(s, 4) == (base, [idx, nic, rule, version])
  {
    PeelRuleName(base, idx, nic, rule, version);
    base + "-" + Itoa(idx) + "-" + Itoa(nic) + "-" + Itoa(rule) + "-" + Itoa(version)
  }

  lemma PeelRuleName(base: string, idx: int, nic: int, rule: int, version: int)
    ensures idx >= 0 && nic >= 0 && rule >= 0 && version >= 0
            ==> Peel(base + "-" + Itoa(idx) + "-" + Itoa(nic) + "-" + Itoa(rule) + "-" + Itoa(version), 4)
                == (base, [idx, nic, rule, version])
  {
    if idx >= 0 && nic >= 0 && rule >= 0 && version >= 0 {
      PeelNicName(base, idx, nic, rule);
      PeelOne(base + "-" + Itoa(idx) + "-" + Itoa(nic) + "-" + Itoa(rule), version, 3, base, [idx, nic, rule]);
      assert [idx, nic, rule] + [version] == [idx, nic, rule, version];
    }
  }

  /** Equal server or volume names come from the same base, replica and version. */
  lemma NameInjective(b: string, i: nat, v: nat, b': string, i': nat, v': nat)
    requires GetNameFrom(b, i, v) == GetNameFrom(b', i', v')
    ensures b == b' && i == i' && v == v'
  {
    assert [i, v][0] == [i', v'][0] && [i, v][1] == [i', v'][1];
  }

  lemma NicNameInjective(b: string, i: nat, n: nat, v: nat, b': string, i': nat, n': nat, v': nat)
    requires GetNicName(b, i, n, v) == GetNicName(b', i', n', v')
    ensures b == b' && i == i' && n == n' && v == v'
  {
    assert forall k :: 0 <= k < 3 ==> [i, n, v][k] == [i', n', v'][k];
  }

  lemma RuleNameInjective(b: string, i: nat, n: nat, r: nat, v: nat,
                          b': string, i': nat, n': nat, r': nat, v': nat)
    requires GetFirewallRuleName(b, i, n, r, v) == GetFirewallRuleName(b', i', n', r', v')
    ensures b == b' && i == i' && n == n' && r == r' && v == v'
  {
    assert forall k :: 0 <= k < 4 ==> [i, n, r, v][k] == [i', n', r', v'][k];
  }

  lemma PrintedNumbers()
    ensures Itoa(0) == "0" && Itoa(1) == "1" && Itoa(2) == "2" && Itoa(3) == "3"
    ensures Itoa(10) == "10" && Itoa(-7) == "-7"
  {
    hide Atoi;
    assert PrintNat(1) == "1" && PrintNat(10) == PrintNat(1) + "0";
  }

  /** Names as they are printed. */
  lemma PrintedNames()
    ensures GetNameFrom("server", 1, 0) == "server-1-0"
    ensures GetNicName("nic", 1, 0, 2) == "nic-1-0-2"
    ensures GetFirewallRuleName("rule", 1, 0, 3, 2) == "rule-1-0-3-2"
  {
    hide Peel, Itoa, Atoi;
    PrintedNumbers();
    assert "server" + "-" + "1" + "-" + "0" == "server-1-0";
    assert "nic" + "-" + "1" + "-" + "0" + "-" + "2" == "nic-1-0-2";
    assert "rule" + "-" + "1" + "-" + "0" + "-" + "3" + "-" + "2" == "rule-1-0-3-2";
  }

  /** Non-negative indices are needed: a negative one can be read as part of another base. */
  lemma NegativeIndexCollides()
    ensures GetNameFrom("a", -1, 0) == GetNameFrom("a-", 1, 0)
  {
    assert Itoa(-1) == "-" + Itoa(1);
  }

  // ---------- keys of the substitution ConfigMap ----------

  function FirstDot(s: string): (d: nat)
    ensures d <= |s| && (d < |s| ==> s[d] == '.')
    ensures forall k :: 0 <= k < d ==> s[k] != '.'
  {
    if s == "" || s[0] == '.' then 0 else 1 + FirstDot(s[1..])
  }

  /** Cuts the text before the first dot off and reads it as a number. */
  function CutNumber(s: string): (int, string) {
    var d := FirstDot(s);
    (ComputeReplicaIdx(s[..d]), if d < |s| then s[d + 1..] else "")
  }

  lemma CutPrinted(n: int, rest: string)
    ensures CutNumber(Itoa(n) + "." + rest) == (n, rest)
  {
    hide Itoa, Atoi;
    var s := Itoa(n) + "." + rest;
    assert s[|Itoa(n)|] == '.';
    assert forall k :: 0 <= k < |Itoa(n)| ==> s[k] == Itoa(n)[k];
    assert FirstDot(s) == |Itoa(n)|;
    assert s[..|Itoa(n)|] == Itoa(n) && s[|Itoa(n)| + 1..] == rest;
  }

  function ReadSubstKey(s: string): (int, int, string) {
    var (i, rest) := CutNumber(s);
    var (v, key) := CutNumber(rest);
    (i, v, key)
  }

  lemma ReadPrintedKey(replica: int, version: int, key: string)
    ensures ReadSubstKey(Itoa(replica) + "." + (Itoa(version) + "." + key)) == (replica, version, key)
  {
    hide Itoa, FirstDot, ComputeReplicaIdx, CutNumber;
    CutPrinted(replica, Itoa(version) + "." + key);
    CutPrinted(version, key);
  }

  /** Key of one substitution value: replica.version.key. */
  function SubstKey(replica: int, version: int, key: string): (s: string)
    ensures ReadSubstKey(s) == (replica, version, key)
  {
    ReadPrintedKey(replica, version, key);
    Itoa(replica) + "." + (Itoa(version) + "." + key)
  }

  lemma PrintedKey()
    ensures SubstKey(1, 0, "$ip") == "1.0.$ip"
  {
    hide ReadSubstKey, Itoa, Atoi;
    PrintedNumbers();
    assert "1" + "." + ("0" + "." + "$ip") == "1.0.$ip";
  }

  /** A ConfigMap key names exactly one (replica, version, key) triple, whatever the key text holds. */
  lemma SubstKeyInjective(i: int, v: int, key: string, i': int, v': int, key': string)
    requires SubstKey(i, v, key) == SubstKey(i', v', key')
    ensures i == i' && v == v' && key == key'
  {
    assert ReadSubstKey(SubstKey(i, v, key)) == ReadSubstKey(SubstKey(i', v', key'));
  }
}
