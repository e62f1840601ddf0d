/** The runtime state the servers report, and the waits that a reboot is serialised by. */
module Failover {
  import opened Wrappers
  import opened Store

  const STATUS_VM_RUNNING := "VM-RUNNING"
  const STATUS_VM_ERROR := "VM-ERROR"

  type Data = map<string, string>

  /** The text under a key; "" when it is missing. */
  function TextAt(d: Data, key: string): string {
    if key in d then d[key] else ""
  }

  /** Timestamps are numbers, 0 the zero time: a zero timestamp, or no request time, is always recent. */
  predicate Fresh(stamp: nat, asked: nat) {
    asked == 0 || stamp == 0 || asked <= stamp
  }

  datatype Check = Running | NotYet | Error

  /** The map says that the server runs, with a readable and recent timestamp. */
  predicate ReportsRunning(parse: string -> Option<nat>, data: Option<Data>, name: string, asked: nat) {
    && data.Some?
    && TextAt(data.value, name + "-state") == STATUS_VM_RUNNING
    && TextAt(data.value, name + "-timestamp") != ""
    && parse(TextAt(data.value, name + "-timestamp")).Some?
    && Fresh(parse(TextAt(data.value, name + "-timestamp")).value, asked)
  }

  /** The map holds a state and a timestamp that is no timestamp, or a recent error. */
  predicate ReportsFailure(parse: string -> Option<nat>, data: Option<Data>, name: string, asked: nat) {
    && data.Some?
    && TextAt(data.value, name + "-state") != "" && TextAt(data.value, name + "-timestamp") != ""
    && match parse(TextAt(data.value, name + "-timestamp"))
       case None => true
       case Some(stamp) => Fresh(stamp, asked) && TextAt(data.value, name + "-state") == STATUS_VM_ERROR
  }

  /** `parse` reads a timestamp; a nil map is None. */
  function CheckRuntimeState(parse: string -> Option<nat>, data: Option<Data>, name: string, asked: nat): (r: Check)
    ensures r.Running? <==> ReportsRunning(parse, data, name, asked)
    ensures r.Error? <==> ReportsFailure(parse, data, name, asked)
  {
    if data.None? then NotYet else
      var state := TextAt(data.value, name + "-state");
      var stampText := TextAt(data.value, name + "-timestamp");
      if state == "" || stampText == "" then NotYet else
        match parse(stampText)
        case None => Error
        case Some(stamp) =>
          if asked != 0 && stamp != 0 && asked > stamp then NotYet
          else if state == STATUS_VM_ERROR then Error
          else if state == STATUS_VM_RUNNING then Running
          else NotYet
  }

  /** A state map in which one server runs. */
  function Reports(name: string, stamp: string): (d: Data)
    ensures TextAt(d, name + "-state") == STATUS_VM_RUNNING && TextAt(d, name + "-timestamp") == stamp
  {
    assert |name + "-state"| != |name + "-timestamp"|;
    map[name + "-state" := STATUS_VM_RUNNING, name + "-timestamp" := stamp]
  }

  /** What was seen when the store had passed through `at` states: nothing was written in between. */
  datatype Observation =
    | SeenRunning(name: string, stamp: nat, asked: nat, at: nat)
    | SeenError(name: string, asked: nat, at: nat)
    | SeenCondition(name: string, when: nat, succeeded: bool, requested: nat, at: nat)

  ghost predicate SawRunning(seen: seq<Observation>, name: string, asked: nat, at: nat) {
    exists stamp :: SeenRunning(name, stamp, asked, at) in seen && Fresh(stamp, asked)
  }

  /** The update condition was read as true and newer than the request. */
  ghost predicate SawUpdated(seen: seq<Observation>, name: string, requested: nat, at: nat) {
    exists when: nat :: SeenCondition(name, when, true, requested, at) in seen && when > requested
  }

  /** A look that says that something went wrong: an error report, or an update that was processed and failed. */
  predicate IsFailure(o: Observation) {
    o.SeenError? || (o.SeenCondition? && o.when > o.requested && !o.succeeded)
  }

  /** Every listed server was seen running when the store had passed through `at` states. */
  ghost predicate AllSeenRunning(seen: seq<Observation>, items: seq<Item>, asked: nat, at: nat) {
    forall j :: 0 <= j < |items| ==> SawRunning(seen, items[j].key.name, asked, at)
  }

  /** Nothing seen since the first `n` looks says that something went wrong. */
  ghost predicate NoFailureSince(seen: seq<Observation>, n: nat) {
    forall j :: n <= j < |seen| ==> !IsFailure(seen[j])
  }

  /** The outside the controller looks at while it waits. */
  class Watch {
    const parse: string -> Option<nat>
    const startTime: nat
    /** Servers that exist report that they run, with a recent timestamp, whenever the map is looked at, and
        their updates are processed. */
    const prompt: bool
    /** What a removed server has left in the map is from before any request made later. */
    const quiet: bool
    /** How timestamps are written. */
    const write: nat -> string
    ghost var seen: seq<Observation>
    /** The time last asked for. */
    var clock: nat

    constructor (parse: string -> Option<nat>, startTime: nat, prompt: bool, quiet: bool, write: nat -> string)
      ensures this.parse == parse && this.startTime == startTime && seen == []
      ensures this.prompt == prompt && this.quiet == quiet && this.write == write
    {
      this.parse, this.startTime, this.prompt := parse, startTime, prompt;
      this.quiet, this.write, seen := quiet, write, [];
    }

    /** time.Now: later than any time asked for before. */
    method Now() returns (t: nat)
      modifies this`clock
      ensures t == clock > old(clock)
    {
      var passed: int := *;
      clock := clock + if passed < 1 then 1 else passed;
      t := clock;
    }

    /** Servers that exist are prompt, and a timestamp reads back as it was written. */
    ghost predicate Prompt() {
      prompt && forall t: nat :: write(t) != "" && parse(write(t)) == Some(t)
    }

    /** The map as it is at the moment, as far as one server is concerned: what an existing, prompt server
        reports is zero or not before the time asked for. */
    method ReadMap(kube: Kube, asked: nat, name: string) returns (data: Option<Data>)
      ensures Prompt() && Key(ServerKind, name) in kube.st.objs ==> ReportsRunning(parse, data, name, asked)
      ensures quiet && Key(ServerKind, name) !in kube.st.objs && asked > 0 ==> !ReportsRunning(parse, data, name, asked)
    {
      data := *;
      if Key(ServerKind, name) in kube.st.objs {
        if prompt {
          var stamp: int := *;
          if stamp < 0 || !Fresh(stamp, asked) {
            stamp := asked;
          }
          data := Some(Reports(name, write(stamp)));
        }
      } else if quiet && data.Some? && ReportsRunning(parse, data, name, asked) {
        TimestampRemoved(data.value, name);
        data := Some(data.value - {name + "-timestamp"});
      }
    }

    /** One look at the state map. */
    method IsVMSoftwareRunning(kube: Kube, asked: nat, name: string) returns (r: Check)
      modifies this`seen
      ensures old(seen) <= seen
      ensures r.Error? <==> !NoFailureSince(seen, |old(seen)|)
      ensures r.Running? ==> SawRunning(seen, name, asked, |kube.trace|)
      ensures Prompt() && kube.reliable && Key(ServerKind, name) in kube.st.objs ==> r.Running?
      ensures quiet && Key(ServerKind, name) !in kube.st.objs && asked > 0 ==> !r.Running?
    {
      var fails := kube.Fails();
      if fails {
        return NotYet;  // the map could not be read
      }
      var data := ReadMap(kube, asked, name);
      r := CheckRuntimeState(parse, data, name, asked);
      if r.Running? {
        ghost var stamp := parse(TextAt(data.value, name + "-timestamp")).value;
        seen := seen + [SeenRunning(name, stamp, asked, |kube.trace|)];
        assert SeenRunning(name, stamp, asked, |kube.trace|) in seen;
      }
      if r.Error? {
        seen := seen + [SeenError(name, asked, |kube.trace|)];
        assert IsFailure(seen[|old(seen)|]);
      }
    }

    /** Reads the server's update condition: when it changed last, and whether it is true. */
    method ReadCondition(kube: Kube, requested: nat, k: Key) returns (r: Option<(nat, bool)>)
      modifies this`seen
      ensures r.None? ==> seen == old(seen)
      ensures r.Some? ==> seen == old(seen) + [SeenCondition(k.name, r.value.0, r.value.1, requested, |kube.trace|)]
      ensures prompt && kube.reliable && k in kube.st.objs ==> r.Some? && r.value.0 > requested && r.value.1
    {
      var server := kube.Get(k);
      if !server.Found? {
        return None;
      }
      var when: int, succeeded: bool := *, *;
      if prompt {
        when, succeeded := requested + 1, true;
      } else if when < 0 {
        when := 0;
      }
      seen := seen + [SeenCondition(k.name, when, succeeded, requested, |kube.trace|)];
      r := Some((when, succeeded));
    }

    method AreAllVMsReadyForFailover(kube: Kube, items: seq<Item>) returns (ok: bool)
      modifies this`seen
      ensures ok ==> NoFailureSince(seen, |old(seen)|)
      ensures old(seen) <= seen
      ensures ok ==> AllSeenRunning(seen, items, startTime, |kube.trace|)
      ensures Prompt() && kube.reliable && AllThere(kube.st, items) ==> ok
    {
      for j := 0 to |items|
        invariant old(seen) <= seen && NoFailureSince(seen, |old(seen)|)
        invariant forall q :: 0 <= q < j ==> SawRunning(seen, items[q].key.name, startTime, |kube.trace|)
      {
        ghost var before := seen;
        var r := IsVMSoftwareRunning(kube, startTime, items[j].key.name);
        StillSeen(before, seen);
        if !r.Running? {
          return false;
        }
      }
      return true;
    }

    /** Polls until the server runs again; an error or the timeout ends the wait. */
    method WaitRunning(kube: Kube, asked: nat, name: string) returns (ok: bool)
      modifies this`seen
      ensures old(seen) <= seen
      ensures ok ==> SawRunning(seen, name, asked, |kube.trace|) && NoFailureSince(seen, |old(seen)|)
      ensures Prompt() && kube.reliable && Key(ServerKind, name) in kube.st.objs ==> ok
      ensures quiet && Key(ServerKind, name) !in kube.st.objs && asked > 0 ==> !ok
    {
      var polls: int := *;
      if prompt && polls < 1 {
        polls := 1;
      }
      while polls > 0
        invariant old(seen) <= seen && NoFailureSince(seen, |old(seen)|)
        invariant Prompt() && kube.reliable && Key(ServerKind, name) in kube.st.objs ==> polls > 0
      {
        var r := IsVMSoftwareRunning(kube, asked, name);
        if !r.NotYet? {
          return r.Running?;
        }
        polls := polls - 1;
      }
      return false;
    }

    /** Polls the update condition of the server until it was processed after the request; an update that was
        processed and failed ends the wait. */
    method WaitUpdated(kube: Kube, requested: nat, k: Key) returns (ok: bool)
      modifies this`seen
      ensures old(seen) <= seen
      ensures ok ==> SawUpdated(seen, k.name, requested, |kube.trace|) && NoFailureSince(seen, |old(seen)|)
      ensures Prompt() && kube.reliable && k in kube.st.objs ==> ok
    {
      var polls: int := *;
      if prompt && polls < 1 {
        polls := 1;
      }
      while polls > 0
        invariant old(seen) <= seen && NoFailureSince(seen, |old(seen)|)
        invariant prompt && kube.reliable && k in kube.st.objs ==> polls > 0
      {
        var condition := ReadCondition(kube, requested, k);
        if condition.None? {
          return false;
        }
        var (lastTransition, wasSuccessful) := condition.value;
        var wasProcessed := lastTransition > requested;
        if wasProcessed && !wasSuccessful {
          return false;
        }
        if wasProcessed {
          assert seen[|seen| - 1] == SeenCondition(k.name, lastTransition, true, requested, |kube.trace|);
          return true;
        }
        polls := polls - 1;
      }
      return false;
    }
  }

  /** A report from before the request, unless it is of the zero time, is not taken for running again. */
  lemma OldReportNotYet(parse: string -> Option<nat>, name: string, text: string, stamp: nat, asked: nat)
    requires text != "" && parse(text) == Some(stamp) && 0 < stamp < asked
    ensures CheckRuntimeState(parse, Some(Reports(name, text)), name, asked) == NotYet
  {
  }

  /** A state map as a server of that name fills it. */
  lemma StateMapRead(parse: string -> Option<nat>, text: string)
    requires text != "" && parse(text).Some?
    ensures var running := map["server-1-0-state" := "VM-RUNNING", "server-1-0-timestamp" := text];
            CheckRuntimeState(parse, Some(running), "server-1-0", 0) == Running
    ensures var failed := map["server-1-0-state" := "VM-ERROR", "server-1-0-timestamp" := text];
            CheckRuntimeState(parse, Some(failed), "server-1-0", 0) == Error
  {
    assert "server-1-0" + "-state" == "server-1-0-state" && "server-1-0" + "-timestamp" == "server-1-0-timestamp";
    assert |"server-1-0-state"| != |"server-1-0-timestamp"|;
    assert "VM-RUNNING"[3] != "VM-ERROR"[3];
  }

  lemma TimestampRemoved(d: Data, name: string)
    ensures TextAt(d - {name + "-timestamp"}, name + "-timestamp") == ""
  {
  }

  /** Every listed server still exists. */
  ghost predicate AllThere(st: State, items: seq<Item>) {
    forall j :: 0 <= j < |items| ==> items[j].key.kind.ServerKind? && items[j].key in st.objs
  }

  lemma AllStillSeen(before: seq<Observation>, after: seq<Observation>, items: seq<Item>, asked: nat, at: nat)
    requires before <= after && AllSeenRunning(before, items, asked, at)
    ensures AllSeenRunning(after, items, asked, at)
  {
    hide SawRunning, SawUpdated;
    StillSeen(before, after);
  }

  lemma NoFailureJoined(seen: seq<Observation>, later: seq<Observation>, n: nat)
    requires n <= |seen| && seen <= later && NoFailureSince(seen, n) && NoFailureSince(later, |seen|)
    ensures NoFailureSince(later, n)
  {
    assert forall j :: n <= j < |seen| ==> later[j] == seen[j];
  }

  /** What was seen stays seen. */
  lemma StillSeen(before: seq<Observation>, after: seq<Observation>)
    requires before <= after
    ensures forall name, asked, at :: SawRunning(before, name, asked, at) ==> SawRunning(after, name, asked, at)
    ensures forall name, requested, at :: SawUpdated(before, name, requested, at) ==>
              SawUpdated(after, name, requested, at)
  {
    assert forall o :: o in before ==> o in after;
    forall name, asked, at | SawRunning(before, name, asked, at) ensures SawRunning(after, name, asked, at) {
      var stamp :| SeenRunning(name, stamp, asked, at) in before && Fresh(stamp, asked);
      assert SeenRunning(name, stamp, asked, at) in after;
    }
    forall name, requested, at | SawUpdated(before, name, requested, at)
      ensures SawUpdated(after, name, requested, at)
    {
      var when: nat :| SeenCondition(name, when, true, requested, at) in before && when > requested;
      assert SeenCondition(name, when, true, requested, at) in after;
    }
  }
}
