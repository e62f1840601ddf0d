/**
  EnsureNICs: one task per NIC of the template, run concurrently. Every interleaving of the tasks is a
  schedule: a sequence of (task, what happened) choices.
 */
module NicController {
  import opened Store
  import opened Desired
  import opened Growth

  /** Where a task stands: before its first Get, before Create, waiting for the provider, before the
      final Get, or finished. */
  datatype Pc = Start | Absent | Waiting | Created | Done | GaveUp

  /** What the outside does to one step of a task. A cancelled context refuses the step. */
  datatype Outcome = Fine | Refused | LandedButFailed | Rejected | Stuck

  datatype Config = Config(st: State, pcs: seq<Pc>)

  datatype Choice = Choice(task: nat, outcome: Outcome)

  function PutNew(st: State, k: Key, o: Obj): State {
    st.(objs := st.objs[k := o])
  }

  function Provided(st: State, k: Key, s: ProviderState): State
    requires k in st.objs
  {
    State(st.objs[k := st.objs[k].(id := st.nextId, state := s)], st.nextId + 1)
  }

  /** One step of the task for NIC `n`. */
  function Step(cr: ServerSet, i: nat, v: nat, serverId: nat, c: Config, ch: Choice): Config
    requires |c.pcs| == |cr.nics|
  {
    if ch.task >= |cr.nics| then c else
      var k := NicKey(cr, i, ch.task, v);
      var (st', pc') := Advance(c.st, k, NewNic(cr, i, ch.task, v, serverId), c.pcs[ch.task], ch.outcome);
      Config(st', c.pcs[ch.task := pc'])
  }

  function Advance(st: State, k: Key, o: Obj, pc: Pc, outcome: Outcome): (State, Pc) {
    match pc
    case Start =>
      if !outcome.Fine? then (st, GaveUp)
      else if k !in st.objs then (st, Absent)
      else (st, if st.objs[k].state.Available? then Done else GaveUp)
    case Absent =>
      if outcome.Fine? && k !in st.objs then (PutNew(st, k, o), Waiting)
      else if outcome.LandedButFailed? && k !in st.objs then (PutNew(st, k, o), GaveUp)
      else (st, GaveUp)
    case Waiting =>
      if k !in st.objs then (st, GaveUp)
      else if outcome.Fine? then (Provided(st, k, Available), Created)
      else if outcome.Rejected? then (st.(objs := st.objs - {k}), GaveUp)
      else if outcome.Stuck? then (Provided(st, k, Busy), GaveUp)
      else (st, GaveUp)
    case Created =>
      (st, if outcome.Fine? && k in st.objs && st.objs[k].state.Available? then Done else GaveUp)
    case _ => (st, pc)
  }

  function RunNics(cr: ServerSet, i: nat, v: nat, serverId: nat, c: Config, sched: seq<Choice>): (r: Config)
    requires |c.pcs| == |cr.nics|
    ensures |r.pcs| == |cr.nics|
  {
    if sched == [] then c
    else Step(cr, i, v, serverId, RunNics(cr, i, v, serverId, c, sched[..|sched| - 1]), sched[|sched| - 1])
  }

  function Begin(cr: ServerSet, st: State): Config {
    Config(st, seq(|cr.nics|, n => Start))
  }

  /** What each task knows about its NIC. */
  ghost predicate PcHolds(g: Goal, serverId: nat, st: State, pc: Pc, n: nat)
    requires n < |g.cr.nics|
  {
    var k := NicKey(g.cr, g.i, n, g.sv);
    match pc
    case Absent => k !in st.objs
    case Waiting => k !in g.s0.objs && k in st.objs && st.objs[k] == NewNic(g.cr, g.i, n, g.sv, serverId)
    case Created => Ready(st, k)
    case Done => Ready(st, k)
    case _ => true
  }

  /** What every interleaving keeps: no object outside the wanted NICs is touched, none that was there
      is changed, and every task's view of its own NIC is right. */
  ghost predicate Inv(g: Goal, serverId: nat, start: State, c: Config)
  {
    && |c.pcs| == |g.cr.nics|
    && Grown(g, c.st)
    && start.nextId <= c.st.nextId
    && (forall k: Key :: !k.kind.NicKind? ==>
          (k in start.objs <==> k in c.st.objs) && (k in start.objs ==> start.objs[k] == c.st.objs[k]))
    && (forall n :: 0 <= n < |c.pcs| ==> PcHolds(g, serverId, c.st, c.pcs[n], n))
  }

  ghost predicate ServerHasId(g: Goal, serverId: nat, st: State) {
    serverId != 0 && serverId == IdAt(st, ServerKey(g.cr, g.i, g.sv))
  }

  lemma NicIsWanted(g: Goal, serverId: nat, n: nat, st: State, id: nat, s: ProviderState)
    requires n < |g.cr.nics| && ServerHasId(g, serverId, st) && (s.Available? ==> id != 0)
    ensures var k, o := NicKey(g.cr, g.i, n, g.sv), NewNic(g.cr, g.i, n, g.sv, serverId);
      && InDesired(g.cr, g.i, g.vv, g.sv, k)
      && SpecWired(g.cr, g.i, g.sv, st, k, o.spec) && SpecNew(g.cr, o.spec)
      && Made(g.cr, k, o.(id := id, state := s))
  {
    hide ServerKey, NicKey, Owner, VersionOf, NicOf;
  }

  lemma AdvanceCases(st: State, k: Key, o: Obj, pc: Pc, outcome: Outcome)
    ensures var st' := Advance(st, k, o, pc, outcome).0;
      || st' == st
      || (pc == Absent && k !in st.objs && st' == PutNew(st, k, o))
      || (pc == Waiting && k in st.objs && st' == st.(objs := st.objs - {k}))
      || (pc == Waiting && k in st.objs && (st' == Provided(st, k, Available) || st' == Provided(st, k, Busy)))
  {
  }

  lemma OnlyOneKept(st: State, k: Key, o: Obj)
    ensures OthersKept(st, PutNew(st, k, o), k) && OthersKept(st, st.(objs := st.objs - {k}), k)
    ensures k in st.objs ==> forall s :: OthersKept(st, Provided(st, k, s), k)
  {
  }

  /** A step of one task touches only that task's NIC. */
  lemma AdvanceTouches(g: Goal, serverId: nat, st: State, pc: Pc, n: nat, outcome: Outcome)
    requires n < |g.cr.nics| && ServerHasId(g, serverId, st) && PcHolds(g, serverId, st, pc, n)
    requires st.nextId > 0 && (NicKey(g.cr, g.i, n, g.sv) !in st.objs ==> NicKey(g.cr, g.i, n, g.sv) !in g.s0.objs)
    ensures var k := NicKey(g.cr, g.i, n, g.sv);
            var st' := Advance(st, k, NewNic(g.cr, g.i, n, g.sv, serverId), pc, outcome).0;
            OthersKept(st, st', k) && (st' == st || Touch(g, st, st', k))
  {
    hide InDesired, Made, SpecWired, ServerHasId, NicKey, SpecFits, Advance, OthersKept;
    var k, o := NicKey(g.cr, g.i, n, g.sv), NewNic(g.cr, g.i, n, g.sv, serverId);
    AdvanceCases(st, k, o, pc, outcome);
    OnlyOneKept(st, k, o);
    NothingMoved(st, k);
    NicIsWanted(g, serverId, n, st, 0, Unset);
    NicIsWanted(g, serverId, n, st, st.nextId, Available);
    NicIsWanted(g, serverId, n, st, st.nextId, Busy);
  }

  lemma NothingMoved(st: State, k: Key)
    ensures OthersKept(st, st, k)
  {
  }

  /** The task's view of its NIC stays right. */
  lemma AdvanceHolds(g: Goal, serverId: nat, st: State, pc: Pc, n: nat, outcome: Outcome)
    requires n < |g.cr.nics| && PcHolds(g, serverId, st, pc, n)
    requires var k := NicKey(g.cr, g.i, n, g.sv);
      && st.nextId > 0 && (k !in st.objs ==> k !in g.s0.objs)
      && (k in st.objs && st.objs[k].state.Available? ==> Ready(st, k))
    ensures var k := NicKey(g.cr, g.i, n, g.sv);
            var (st', pc') := Advance(st, k, NewNic(g.cr, g.i, n, g.sv, serverId), pc, outcome);
            PcHolds(g, serverId, st', pc', n)
  {
    hide NicKey, NewNic;
  }

  lemma AdvanceGrown(g: Goal, serverId: nat, st: State, pc: Pc, n: nat, outcome: Outcome)
    requires n < |g.cr.nics| && Grown(g, st) && ServerHasId(g, serverId, st) && PcHolds(g, serverId, st, pc, n)
    ensures var k := NicKey(g.cr, g.i, n, g.sv);
            var (st', pc') := Advance(st, k, NewNic(g.cr, g.i, n, g.sv, serverId), pc, outcome);
            Grown(g, st') && OthersKept(st, st', k) && PcHolds(g, serverId, st', pc', n)
  {
    hide Grown, ServerHasId, NicKey, Advance, PcHolds, Touch, OthersKept;
    var k := NicKey(g.cr, g.i, n, g.sv);
    var st' := Advance(st, k, NewNic(g.cr, g.i, n, g.sv, serverId), pc, outcome).0;
    FreshIsNonzero(g, st, k);
    ReadyWhenAvailable(g, st, k);
    AdvanceHolds(g, serverId, st, pc, n, outcome);
    AdvanceTouches(g, serverId, st, pc, n, outcome);
    if st' != st { TouchGrown(g, st, st', k); }
  }

  lemma FreshIsNonzero(g: Goal, st: State, k: Key)
    requires Grown(g, st)
    ensures st.nextId > 0 && (k !in st.objs ==> k !in g.s0.objs)
  {
  }

  lemma ReadyWhenAvailable(g: Goal, st: State, k: Key)
    requires Grown(g, st)
    ensures k in st.objs && st.objs[k].state.Available? ==> Ready(st, k)
  {
    hide InDesired, Wired;
  }

  /** Another task's view does not depend on this task's NIC. */
  lemma OtherTaskHolds(g: Goal, serverId: nat, s: State, t: State, pc: Pc, n: nat, m: nat)
    requires n < |g.cr.nics| && m < |g.cr.nics| && n != m
    requires PcHolds(g, serverId, s, pc, m) && OthersKept(s, t, NicKey(g.cr, g.i, n, g.sv))
    ensures PcHolds(g, serverId, t, pc, m)
  {
    hide NicKey, NewNic, NicOf;
    assert NicOf(NicKey(g.cr, g.i, n, g.sv)) != NicOf(NicKey(g.cr, g.i, m, g.sv));
  }

  lemma StepKeepsInv(g: Goal, serverId: nat, start: State, c: Config, ch: Choice)
    requires Inv(g, serverId, start, c) && ServerHasId(g, serverId, start)
    ensures Inv(g, serverId, start, Step(g.cr, g.i, g.sv, serverId, c, ch))
  {
    hide Grown, Step, Advance, PcHolds, NicKey, NewNic, ServerKey;
    var d := Step(g.cr, g.i, g.sv, serverId, c, ch);
    if ch.task < |g.cr.nics| {
      StepIs(g.cr, g.i, g.sv, serverId, c, ch);
      AdvanceGrown(g, serverId, c.st, c.pcs[ch.task], ch.task, ch.outcome);
      forall n | 0 <= n < |c.pcs| ensures PcHolds(g, serverId, d.st, d.pcs[n], n) {
        if n != ch.task { OtherTaskHolds(g, serverId, c.st, d.st, c.pcs[n], ch.task, n); }
      }
    } else {
      StepIdle(g.cr, g.i, g.sv, serverId, c, ch);
    }
  }

  lemma StepIdle(cr: ServerSet, i: nat, v: nat, serverId: nat, c: Config, ch: Choice)
    requires |c.pcs| == |cr.nics| <= ch.task
    ensures Step(cr, i, v, serverId, c, ch) == c
  {
  }

  /** Under every schedule and every set of failures: the NICs created are wanted ones, everything that
      was there stays, and a finished task's NIC exists and is available. */
  lemma {:induction false} EveryScheduleSafe(g: Goal, serverId: nat, start: State, sched: seq<Choice>)
    requires Grown(g, start) && ServerHasId(g, serverId, start)
    ensures Inv(g, serverId, start, RunNics(g.cr, g.i, g.sv, serverId, Begin(g.cr, start), sched))
  {
    hide Inv, Grown, Step, ServerHasId;
    if sched == [] {
      BeginInv(g, serverId, start);
    } else {
      EveryScheduleSafe(g, serverId, start, sched[..|sched| - 1]);
      StepKeepsInv(g, serverId, start,
        RunNics(g.cr, g.i, g.sv, serverId, Begin(g.cr, start), sched[..|sched| - 1]), sched[|sched| - 1]);
    }
  }

  lemma BeginInv(g: Goal, serverId: nat, start: State)
    requires Grown(g, start)
    ensures Inv(g, serverId, start, Begin(g.cr, start))
  {
    hide Grown;
  }

  /** Four undisturbed steps of each task, one task after the other. */
  function Undisturbed(tasks: nat): (sched: seq<Choice>)
  {
    if tasks == 0 then []
    else Undisturbed(tasks - 1) + [Choice(tasks - 1, Fine), Choice(tasks - 1, Fine), Choice(tasks - 1, Fine),
                                   Choice(tasks - 1, Fine)]
  }

  function Repeat(cr: ServerSet, i: nat, v: nat, serverId: nat, c: Config, ch: Choice): (r: Config)
    requires |c.pcs| == |cr.nics|
    ensures |r.pcs| == |cr.nics|
  {
    var a := Step(cr, i, v, serverId, c, ch);
    var b := Step(cr, i, v, serverId, a, ch);
    Step(cr, i, v, serverId, Step(cr, i, v, serverId, b, ch), ch)
  }

  lemma RunSnoc(cr: ServerSet, i: nat, v: nat, serverId: nat, c: Config, sched: seq<Choice>, ch: Choice)
    requires |c.pcs| == |cr.nics|
    ensures RunNics(cr, i, v, serverId, c, sched + [ch])
         == Step(cr, i, v, serverId, RunNics(cr, i, v, serverId, c, sched), ch)
  {
    assert (sched + [ch])[..|sched|] == sched;
  }

  lemma RunFour(cr: ServerSet, i: nat, v: nat, serverId: nat, c: Config, sched: seq<Choice>, ch: Choice)
    requires |c.pcs| == |cr.nics|
    ensures RunNics(cr, i, v, serverId, c, sched + [ch, ch, ch, ch])
         == Repeat(cr, i, v, serverId, RunNics(cr, i, v, serverId, c, sched), ch)
  {
    hide RunNics, Step;
    assert sched + [ch, ch, ch, ch] == sched + [ch] + [ch] + [ch] + [ch];
    RunSnoc(cr, i, v, serverId, c, sched, ch);
    RunSnoc(cr, i, v, serverId, c, sched + [ch], ch);
    RunSnoc(cr, i, v, serverId, c, sched + [ch] + [ch], ch);
    RunSnoc(cr, i, v, serverId, c, sched + [ch] + [ch] + [ch], ch);
  }

  ghost predicate PresentAvailable(cr: ServerSet, i: nat, v: nat, st: State) {
    forall n :: 0 <= n < |cr.nics| && NicKey(cr, i, n, v) in st.objs ==> st.objs[NicKey(cr, i, n, v)].state.Available?
  }

  /** Whatever subset of the NICs an earlier run left available, four undisturbed steps of each task finish
      with every NIC. */
  lemma {:induction false} UndisturbedFinishes(cr: ServerSet, i: nat, v: nat, serverId: nat, start: State, tasks: nat)
    requires tasks <= |cr.nics| && PresentAvailable(cr, i, v, start)
    ensures var c := RunNics(cr, i, v, serverId, Begin(cr, start), Undisturbed(tasks));
            && PresentAvailable(cr, i, v, c.st)
            && (forall n :: 0 <= n < tasks ==> c.pcs[n] == Done)
            && (forall n :: tasks <= n < |cr.nics| ==> c.pcs[n] == Start)
  {
    hide RunNics, Repeat, PresentAvailable;
    if tasks == 0 {
      RunNone(cr, i, v, serverId, Begin(cr, start));
    } else {
      UndisturbedFinishes(cr, i, v, serverId, start, tasks - 1);
      var c := RunNics(cr, i, v, serverId, Begin(cr, start), Undisturbed(tasks - 1));
      RunFour(cr, i, v, serverId, Begin(cr, start), Undisturbed(tasks - 1), Choice(tasks - 1, Fine));
      OneTaskCompletes(cr, i, v, serverId, c, tasks - 1);
    }
  }

  lemma RunNone(cr: ServerSet, i: nat, v: nat, serverId: nat, c: Config)
    requires |c.pcs| == |cr.nics|
    ensures RunNics(cr, i, v, serverId, c, []) == c
  {
  }

  /** Four undisturbed steps of a task, seen at its NIC only. */
  function AdvanceFour(st: State, k: Key, o: Obj): (State, Pc) {
    var (s1, p1) := Advance(st, k, o, Start, Fine);
    var (s2, p2) := Advance(s1, k, o, p1, Fine);
    var (s3, p3) := Advance(s2, k, o, p2, Fine);
    Advance(s3, k, o, p3, Fine)
  }

  lemma RepeatIs(cr: ServerSet, i: nat, v: nat, serverId: nat, c: Config, n: nat)
    requires |c.pcs| == |cr.nics| && n < |cr.nics| && c.pcs[n] == Start
    ensures var (st', pc') := AdvanceFour(c.st, NicKey(cr, i, n, v), NewNic(cr, i, n, v, serverId));
            Repeat(cr, i, v, serverId, c, Choice(n, Fine)) == Config(st', c.pcs[n := pc'])
  {
    hide Advance, Step, NicKey, NewNic;
    var ch := Choice(n, Fine);
    var c1 := Step(cr, i, v, serverId, c, ch);
    StepIs(cr, i, v, serverId, c, ch);
    var c2 := Step(cr, i, v, serverId, c1, ch);
    StepIs(cr, i, v, serverId, c1, ch);
    var c3 := Step(cr, i, v, serverId, c2, ch);
    StepIs(cr, i, v, serverId, c2, ch);
    StepIs(cr, i, v, serverId, c3, ch);
    assert c3.pcs == c.pcs[n := c3.pcs[n]];
  }

  lemma AdvanceFourDone(st: State, k: Key, o: Obj)
    requires k in st.objs ==> st.objs[k].state.Available?
    ensures var (st', pc') := AdvanceFour(st, k, o);
      && pc' == Done
      && (st' == st || (k in st'.objs && st'.objs == st.objs[k := st'.objs[k]] && st'.objs[k].state.Available?))
  {
  }

  lemma OneTaskCompletes(cr: ServerSet, i: nat, v: nat, serverId: nat, c: Config, n: nat)
    requires |c.pcs| == |cr.nics| && n < |cr.nics| && c.pcs[n] == Start && PresentAvailable(cr, i, v, c.st)
    ensures var d := Repeat(cr, i, v, serverId, c, Choice(n, Fine));
            d.pcs == c.pcs[n := Done] && PresentAvailable(cr, i, v, d.st)
  {
    hide NicKey, PresentAvailable, Repeat, AdvanceFour;
    var d := Repeat(cr, i, v, serverId, c, Choice(n, Fine));
    PresentHere(cr, i, v, c.st, n);
    RepeatIs(cr, i, v, serverId, c, n);
    AdvanceFourDone(c.st, NicKey(cr, i, n, v), NewNic(cr, i, n, v, serverId));
    if d.st != c.st { StillAvailable(cr, i, v, c.st, d.st, n); }
  }

  lemma PresentHere(cr: ServerSet, i: nat, v: nat, st: State, n: nat)
    requires n < |cr.nics| && PresentAvailable(cr, i, v, st)
    ensures NicKey(cr, i, n, v) in st.objs ==> st.objs[NicKey(cr, i, n, v)].state.Available?
  {
  }

  lemma StillAvailable(cr: ServerSet, i: nat, v: nat, s: State, t: State, n: nat)
    requires n < |cr.nics| && PresentAvailable(cr, i, v, s)
    requires NicKey(cr, i, n, v) in t.objs && t.objs[NicKey(cr, i, n, v)].state.Available?
    requires t.objs == s.objs[NicKey(cr, i, n, v) := t.objs[NicKey(cr, i, n, v)]]
    ensures PresentAvailable(cr, i, v, t)
  {
    hide NicKey;
  }

  // ---------- without failures ----------

  /** No task has failed, and those that have not looked yet will not meet a NIC on its way. */
  ghost predicate NoneFailed(cr: ServerSet, i: nat, v: nat, c: Config) {
    && |c.pcs| == |cr.nics|
    && forall n :: 0 <= n < |c.pcs| ==>
         && !c.pcs[n].GaveUp?
         && (c.pcs[n].Start? && NicKey(cr, i, n, v) in c.st.objs ==> c.st.objs[NicKey(cr, i, n, v)].state.Available?)
  }

  lemma NoneFailedYet(cr: ServerSet, i: nat, v: nat, start: State)
    requires PresentAvailable(cr, i, v, start)
    ensures NoneFailed(cr, i, v, Begin(cr, start))
  {
    hide NicKey;
  }

  lemma FinishedDone(cr: ServerSet, i: nat, v: nat, c: Config)
    requires NoneFailed(cr, i, v, c) && Finished(c.pcs)
    ensures forall n :: 0 <= n < |c.pcs| ==> c.pcs[n].Done?
  {
    hide NicKey;
  }

  lemma FineAdvances(g: Goal, serverId: nat, st: State, pc: Pc, n: nat)
    requires n < |g.cr.nics| && PcHolds(g, serverId, st, pc, n) && !pc.GaveUp?
    requires var k := NicKey(g.cr, g.i, n, g.sv); pc.Start? && k in st.objs ==> st.objs[k].state.Available?
    ensures var (_, pc') := Advance(st, NicKey(g.cr, g.i, n, g.sv), NewNic(g.cr, g.i, n, g.sv, serverId), pc, Fine);
            !pc'.GaveUp? && !pc'.Start?
  {
    hide NicKey, NewNic;
  }

  lemma OtherNicSame(g: Goal, s: State, t: State, n: nat, m: nat)
    requires n < |g.cr.nics| && m < |g.cr.nics| && n != m && OthersKept(s, t, NicKey(g.cr, g.i, n, g.sv))
    ensures var k := NicKey(g.cr, g.i, m, g.sv);
            (k in s.objs <==> k in t.objs) && (k in s.objs ==> s.objs[k] == t.objs[k])
  {
    hide NicKey, NicOf;
    assert NicOf(NicKey(g.cr, g.i, n, g.sv)) != NicOf(NicKey(g.cr, g.i, m, g.sv));
  }

  /** A step nothing interferes with fails no task. */
  lemma StillNoneFailed(g: Goal, serverId: nat, start: State, c: Config, ch: Choice)
    requires Inv(g, serverId, start, c) && ServerHasId(g, serverId, start) && NoneFailed(g.cr, g.i, g.sv, c)
    requires ch.outcome.Fine?
    ensures NoneFailed(g.cr, g.i, g.sv, Step(g.cr, g.i, g.sv, serverId, c, ch))
  {
    hide Grown, Step, Advance, PcHolds, NicKey, NewNic, ServerKey;
    var d := Step(g.cr, g.i, g.sv, serverId, c, ch);
    if ch.task < |g.cr.nics| {
      StepIs(g.cr, g.i, g.sv, serverId, c, ch);
      AdvanceGrown(g, serverId, c.st, c.pcs[ch.task], ch.task, ch.outcome);
      FineAdvances(g, serverId, c.st, c.pcs[ch.task], ch.task);
      forall n | 0 <= n < |d.pcs|
        ensures !d.pcs[n].GaveUp?
        ensures d.pcs[n].Start? && NicKey(g.cr, g.i, n, g.sv) in d.st.objs ==>
                  d.st.objs[NicKey(g.cr, g.i, n, g.sv)].state.Available?
      {
        if n != ch.task { OtherNicSame(g, c.st, d.st, ch.task, n); }
      }
    } else {
      StepIdle(g.cr, g.i, g.sv, serverId, c, ch);
    }
  }

  lemma {:induction false} NoneFailedInRun(g: Goal, serverId: nat, start: State, sched: seq<Choice>)
    requires Grown(g, start) && ServerHasId(g, serverId, start) && AllFine(sched)
    requires PresentAvailable(g.cr, g.i, g.sv, start)
    ensures NoneFailed(g.cr, g.i, g.sv, RunNics(g.cr, g.i, g.sv, serverId, Begin(g.cr, start), sched))
  {
    hide Inv, Grown, Step, ServerHasId, NoneFailed, PresentAvailable;
    if sched == [] {
      NoneFailedYet(g.cr, g.i, g.sv, start);
    } else {
      var front := sched[..|sched| - 1];
      NoneFailedInRun(g, serverId, start, front);
      EveryScheduleSafe(g, serverId, start, front);
      var c := RunNics(g.cr, g.i, g.sv, serverId, Begin(g.cr, start), front);
      StillNoneFailed(g, serverId, start, c, sched[|sched| - 1]);
    }
  }

  predicate AllFine(sched: seq<Choice>) {
    forall j :: 0 <= j < |sched| ==> sched[j].outcome.Fine?
  }

  // ---------- exactly when a rerun completes ----------

  lemma AdvanceOnly(st: State, k: Key, o: Obj, pc: Pc, outcome: Outcome)
    ensures var t := Advance(st, k, o, pc, outcome).0;
      forall j :: j != k && j in st.objs ==> j in t.objs && t.objs[j] == st.objs[j]
  {
  }

  /** A NIC that is there and not available is in its task's way. */
  ghost predicate Blocked(cr: ServerSet, i: nat, v: nat, n: nat, start: State, c: Config)
    requires n < |cr.nics| && NicKey(cr, i, n, v) in start.objs
  {
    var k := NicKey(cr, i, n, v);
    && k in c.st.objs && c.st.objs[k] == start.objs[k]
    && |c.pcs| == |cr.nics| && (c.pcs[n].Start? || c.pcs[n].GaveUp?)
  }

  lemma StepStaysBlocked(cr: ServerSet, i: nat, v: nat, serverId: nat, n: nat, start: State, c: Config, ch: Choice)
    requires n < |cr.nics| && NicKey(cr, i, n, v) in start.objs
    requires !start.objs[NicKey(cr, i, n, v)].state.Available? && Blocked(cr, i, v, n, start, c)
    ensures Blocked(cr, i, v, n, start, Step(cr, i, v, serverId, c, ch))
  {
    hide NicKey, NewNic, NicOf, Step;
    if ch.task < |cr.nics| {
      StepIs(cr, i, v, serverId, c, ch);
      AdvanceOnly(c.st, NicKey(cr, i, ch.task, v), NewNic(cr, i, ch.task, v, serverId), c.pcs[ch.task], ch.outcome);
      assert NicOf(NicKey(cr, i, n, v)) == n && NicOf(NicKey(cr, i, ch.task, v)) == ch.task;
    } else {
      StepIdle(cr, i, v, serverId, c, ch);
    }
  }

  /** Under every schedule and whatever happens, a task never gets past a NIC left on its way. */
  lemma {:induction false} BusyBlocks(cr: ServerSet, i: nat, v: nat, serverId: nat, start: State, sched: seq<Choice>,
                                      n: nat)
    requires n < |cr.nics| && NicKey(cr, i, n, v) in start.objs && !start.objs[NicKey(cr, i, n, v)].state.Available?
    ensures Blocked(cr, i, v, n, start, RunNics(cr, i, v, serverId, Begin(cr, start), sched))
  {
    hide Step, NicKey;
    if sched != [] {
      var front := sched[..|sched| - 1];
      BusyBlocks(cr, i, v, serverId, start, front, n);
      var c := RunNics(cr, i, v, serverId, Begin(cr, start), front);
      StepStaysBlocked(cr, i, v, serverId, n, start, c, sched[|sched| - 1]);
    }
  }

  /** So success, under any schedule, needs that no wanted NIC is left on its way. */
  lemma DoneNeedsAvailable(cr: ServerSet, i: nat, v: nat, serverId: nat, start: State, sched: seq<Choice>)
    requires forall n :: 0 <= n < |cr.nics| ==> RunNics(cr, i, v, serverId, Begin(cr, start), sched).pcs[n].Done?
    ensures PresentAvailable(cr, i, v, start)
  {
    hide NicKey, RunNics;
    forall n | 0 <= n < |cr.nics| && NicKey(cr, i, n, v) in start.objs
      ensures start.objs[NicKey(cr, i, n, v)].state.Available?
    {
      if !start.objs[NicKey(cr, i, n, v)].state.Available? { BusyBlocks(cr, i, v, serverId, start, sched, n); }
    }
  }

  /** A rerun in which nothing fails, under any schedule that finishes, completes the NICs exactly if none
      of them is there and not available. */
  lemma RerunCompletes(g: Goal, serverId: nat, start: State, sched: seq<Choice>)
    requires Grown(g, start) && ServerHasId(g, serverId, start) && AllFine(sched)
    requires Finished(RunNics(g.cr, g.i, g.sv, serverId, Begin(g.cr, start), sched).pcs)
    ensures (forall n :: 0 <= n < |g.cr.nics| ==>
               RunNics(g.cr, g.i, g.sv, serverId, Begin(g.cr, start), sched).pcs[n].Done?)
       <==> PresentAvailable(g.cr, g.i, g.sv, start)
  {
    hide Grown, ServerHasId, RunNics, Finished, NoneFailed, PresentAvailable, AllFine;
    var c := RunNics(g.cr, g.i, g.sv, serverId, Begin(g.cr, start), sched);
    if PresentAvailable(g.cr, g.i, g.sv, start) {
      NoneFailedInRun(g, serverId, start, sched);
      FinishedDone(g.cr, g.i, g.sv, c);
    }
    if forall n :: 0 <= n < |g.cr.nics| ==> c.pcs[n].Done? {
      DoneNeedsAvailable(g.cr, g.i, g.sv, serverId, start, sched);
    }
  }

  /** The NIC was created, but the wait for it timed out, or the create itself was reported as failed. */
  function TimedOut(n: nat): seq<Choice> {
    [Choice(n, Fine), Choice(n, Fine), Choice(n, Stuck)]
  }

  function Misreported(n: nat): seq<Choice> {
    [Choice(n, Fine), Choice(n, LandedButFailed)]
  }

  /** One more step of a task whose steps so far are known. */
  lemma RunThen(cr: ServerSet, i: nat, v: nat, serverId: nat, start: State, n: nat, sched: seq<Choice>,
                outcome: Outcome, c: Config)
    requires n < |cr.nics| && c == RunNics(cr, i, v, serverId, Begin(cr, start), sched)
    ensures var (st, pc) := Advance(c.st, NicKey(cr, i, n, v), NewNic(cr, i, n, v, serverId), c.pcs[n], outcome);
      RunNics(cr, i, v, serverId, Begin(cr, start), sched + [Choice(n, outcome)]) == Config(st, c.pcs[n := pc])
  {
    hide NicKey, RunNics, Step, Advance, NewNic;
    RunSnoc(cr, i, v, serverId, Begin(cr, start), sched, Choice(n, outcome));
    StepIs(cr, i, v, serverId, c, Choice(n, outcome));
  }

  /** What a cut run leaves. */
  lemma CutOffLeaves(cr: ServerSet, i: nat, v: nat, serverId: nat, start: State, n: nat, cut: seq<Choice>)
    requires n < |cr.nics| && NicKey(cr, i, n, v) !in start.objs && (cut == TimedOut(n) || cut == Misreported(n))
    ensures var left := RunNics(cr, i, v, serverId, Begin(cr, start), cut).st;
            NicKey(cr, i, n, v) in left.objs && !left.objs[NicKey(cr, i, n, v)].state.Available?
  {
    hide NicKey, RunNics, Step, Advance, NewNic;
    var c0 := Begin(cr, start);
    RunNone(cr, i, v, serverId, c0);
    IsUnset(cr, i, n, v, serverId);
    StartsAbsent(start, NicKey(cr, i, n, v), NewNic(cr, i, n, v, serverId));
    RunThen(cr, i, v, serverId, start, n, [], Fine, c0);
    var c1 := Config(start, c0.pcs[n := Absent]);
    assert [] + [Choice(n, Fine)] == [Choice(n, Fine)];
    if cut == Misreported(n) {
      RunThen(cr, i, v, serverId, start, n, [Choice(n, Fine)], LandedButFailed, c1);
      assert cut == [Choice(n, Fine)] + [Choice(n, LandedButFailed)];
    } else {
      RunThen(cr, i, v, serverId, start, n, [Choice(n, Fine)], Fine, c1);
      var c2 := RunNics(cr, i, v, serverId, c0, [Choice(n, Fine)] + [Choice(n, Fine)]);
      RunThen(cr, i, v, serverId, start, n, [Choice(n, Fine)] + [Choice(n, Fine)], Stuck, c2);
      assert cut == [Choice(n, Fine)] + [Choice(n, Fine)] + [Choice(n, Stuck)];
    }
  }

  /** A NIC that the provider rejects is taken away again: the store is as it was, so that nothing stands in
      the way of a later run. */
  lemma RejectedIsGone(cr: ServerSet, i: nat, v: nat, serverId: nat, start: State, n: nat)
    requires n < |cr.nics| && NicKey(cr, i, n, v) !in start.objs
    ensures var cut := [Choice(n, Fine), Choice(n, Fine), Choice(n, Rejected)];
            RunNics(cr, i, v, serverId, Begin(cr, start), cut).st.objs == start.objs
  {
    hide NicKey, RunNics, Step, Advance, NewNic;
    var c0 := Begin(cr, start);
    RunNone(cr, i, v, serverId, c0);
    IsUnset(cr, i, n, v, serverId);
    StartsAbsent(start, NicKey(cr, i, n, v), NewNic(cr, i, n, v, serverId));
    RunThen(cr, i, v, serverId, start, n, [], Fine, c0);
    assert [] + [Choice(n, Fine)] == [Choice(n, Fine)];
    RunThen(cr, i, v, serverId, start, n, [Choice(n, Fine)], Fine, Config(start, c0.pcs[n := Absent]));
    var c2 := RunNics(cr, i, v, serverId, c0, [Choice(n, Fine)] + [Choice(n, Fine)]);
    RunThen(cr, i, v, serverId, start, n, [Choice(n, Fine)] + [Choice(n, Fine)], Rejected, c2);
    assert [Choice(n, Fine), Choice(n, Fine), Choice(n, Rejected)]
        == [Choice(n, Fine)] + [Choice(n, Fine)] + [Choice(n, Rejected)];
  }

  lemma IsUnset(cr: ServerSet, i: nat, n: nat, v: nat, serverId: nat)
    ensures NewNic(cr, i, n, v, serverId).state.Unset?
  {
  }

  /** What such a run leaves, no later run completes by itself, whatever its schedule. */
  lemma CutOffForGood(cr: ServerSet, i: nat, v: nat, serverId: nat, start: State, n: nat, cut: seq<Choice>,
                      rerun: seq<Choice>)
    requires n < |cr.nics| && NicKey(cr, i, n, v) !in start.objs && (cut == TimedOut(n) || cut == Misreported(n))
    ensures var left := RunNics(cr, i, v, serverId, Begin(cr, start), cut).st;
      && NicKey(cr, i, n, v) in left.objs && !left.objs[NicKey(cr, i, n, v)].state.Available?
      && !RunNics(cr, i, v, serverId, Begin(cr, left), rerun).pcs[n].Done?
  {
    hide NicKey, RunNics;
    CutOffLeaves(cr, i, v, serverId, start, n, cut);
    BusyBlocks(cr, i, v, serverId, RunNics(cr, i, v, serverId, Begin(cr, start), cut).st, rerun, n);
  }

  /** The steps of a create that is cut off. */
  lemma StartsAbsent(st: State, k: Key, o: Obj)
    requires k !in st.objs && o.state.Unset?
    ensures Advance(st, k, o, Start, Fine) == (st, Absent)
    ensures Advance(st, k, o, Absent, Fine) == (PutNew(st, k, o), Waiting)
    ensures Advance(st, k, o, Absent, LandedButFailed) == (PutNew(st, k, o), GaveUp)
    ensures var t := Advance(PutNew(st, k, o), k, o, Waiting, Stuck).0; k in t.objs && t.objs[k].state.Busy?
    ensures Advance(PutNew(st, k, o), k, o, Waiting, Rejected).0.objs == st.objs
  {
  }

  // ---------- the concurrent run ----------

  function Rank(pc: Pc): nat {
    match pc case Start => 4 case Absent => 3 case Waiting => 2 case Created => 1 case _ => 0
  }

  function TotalRank(pcs: seq<Pc>): nat {
    if pcs == [] then 0 else TotalRank(pcs[..|pcs| - 1]) + Rank(pcs[|pcs| - 1])
  }

  lemma {:induction false} RankDrops(pcs: seq<Pc>, n: nat, pc: Pc)
    requires n < |pcs| && Rank(pc) < Rank(pcs[n])
    ensures TotalRank(pcs[n := pc]) < TotalRank(pcs)
  {
    if n < |pcs| - 1 {
      RankDrops(pcs[..|pcs| - 1], n, pc);
      assert pcs[n := pc][..|pcs| - 1] == pcs[..|pcs| - 1][n := pc];
    } else {
      assert pcs[n := pc][..|pcs| - 1] == pcs[..|pcs| - 1];
    }
  }

  lemma AdvanceRank(st: State, k: Key, o: Obj, pc: Pc, outcome: Outcome)
    requires Rank(pc) > 0
    ensures Rank(Advance(st, k, o, pc, outcome).1) < Rank(pc)
  {
  }

  predicate Finished(pcs: seq<Pc>) {
    forall n :: 0 <= n < |pcs| ==> Rank(pcs[n]) == 0
  }

  /** One step of task `n`, whatever the outside does to it. */
  method TaskStep(kube: Kube, cr: ServerSet, i: nat, version: nat, serverId: nat, pcs: seq<Pc>, n: nat,
                  ghost g: Goal, ghost start: State) returns (next: seq<Pc>, ghost ch: Choice)
    requires g.cr == cr && g.i == i && g.sv == version && |pcs| == |cr.nics|
    requires n < |pcs| && Rank(pcs[n]) > 0
    requires Inv(g, serverId, start, Config(kube.st, pcs)) && ServerHasId(g, serverId, start)
    modifies kube
    ensures Config(kube.st, next) == Step(cr, i, version, serverId, Config(old(kube.st), pcs), ch)
    ensures Inv(g, serverId, start, Config(kube.st, next))
    ensures |next| == |pcs| && TotalRank(next) < TotalRank(pcs)
    ensures kube.reliable ==> ch.outcome.Fine?
    ensures old(kube.trace) <= kube.trace && AllGrown(g, kube.trace, |old(kube.trace)|)
  {
    hide Inv, Grown, ServerHasId, Step, Advance, NicKey, NewNic, Rank, TotalRank;
    var outcome: Outcome := *;
    var fails := kube.Fails();
    if !fails {
      outcome := Fine;
    }
    var k, o := NicKey(cr, i, n, version), NewNic(cr, i, n, version, serverId);
    var (st', pc) := Advance(kube.st, k, o, pcs[n], outcome);
    next, ch := pcs[n := pc], Choice(n, outcome);
    AdvanceRank(kube.st, k, o, pcs[n], outcome);
    RankDrops(pcs, n, pc);
    StepIs(cr, i, version, serverId, Config(kube.st, pcs), ch);
    StepKeepsInv(g, serverId, start, Config(kube.st, pcs), ch);
    InvGrown(g, serverId, start, Config(st', next));
    if st' != kube.st {
      kube.Provide(st');
    }
  }

  /** Runs the tasks in an order of the scheduler's choice until all have finished; `sched` is the
      schedule that was taken. Succeeds when no task failed. */
  method EnsureNICs(kube: Kube, cr: ServerSet, i: nat, version: nat, serverId: nat, ghost g: Goal)
      returns (ok: bool, ghost sched: seq<Choice>)
    requires g.cr == cr && g.i == i && g.sv == version
    requires Grown(g, kube.st) && ServerHasId(g, serverId, kube.st)
    modifies kube
    ensures kube.st == RunNics(cr, i, version, serverId, Begin(cr, old(kube.st)), sched).st
    ensures old(kube.trace) <= kube.trace && AllGrown(g, kube.trace, |old(kube.trace)|)
    ensures Grown(g, kube.st) && old(kube.st).nextId <= kube.st.nextId
    ensures forall k: Key :: !k.kind.NicKind? ==>
              && (k in old(kube.st).objs <==> k in kube.st.objs)
              && (k in kube.st.objs ==> old(kube.st).objs[k] == kube.st.objs[k])
    ensures ok ==> forall n :: 0 <= n < |cr.nics| ==> Ready(kube.st, NicKey(cr, i, n, version))
    ensures ok ==> PresentAvailable(cr, i, version, old(kube.st))
    ensures kube.reliable ==> (ok <==> PresentAvailable(cr, i, version, old(kube.st)))
  {
    hide Inv, Grown, ServerHasId, Step, RunNics, Finished, PresentAvailable, NoneFailed;
    ghost var start := kube.st;
    sched := [];
    RunNone(cr, i, version, serverId, Begin(cr, start));
    var pcs := seq(|cr.nics|, n => Start);
    BeginInv(g, serverId, start);
    if PresentAvailable(cr, i, version, start) { NoneFailedYet(cr, i, version, start); }
    while !Finished(pcs)
      invariant |pcs| == |cr.nics|
      invariant Config(kube.st, pcs) == RunNics(cr, i, version, serverId, Begin(cr, start), sched)
      invariant Inv(g, serverId, start, Config(kube.st, pcs))
      invariant old(kube.trace) <= kube.trace && AllGrown(g, kube.trace, |old(kube.trace)|)
      invariant kube.reliable && PresentAvailable(cr, i, version, start) ==>
                NoneFailed(cr, i, version, Config(kube.st, pcs))
      decreases TotalRank(pcs)
    {
      var n := PickLive(pcs);
      ghost var ch, c := Choice(0, Fine), Config(kube.st, pcs);
      pcs, ch := TaskStep(kube, cr, i, version, serverId, pcs, n, g, start);
      RunSnoc(cr, i, version, serverId, Begin(cr, start), sched, ch);
      sched := sched + [ch];
      if kube.reliable && PresentAvailable(cr, i, version, start) { StillNoneFailed(g, serverId, start, c, ch); }
    }
    ok := forall n :: 0 <= n < |pcs| ==> pcs[n].Done?;
    if kube.reliable && PresentAvailable(cr, i, version, start) { FinishedDone(cr, i, version, Config(kube.st, pcs)); }
    InvMeans(g, serverId, start, Config(kube.st, pcs));
    if ok { DoneNeedsAvailable(cr, i, version, serverId, start, sched); }
  }

  method PickLive(pcs: seq<Pc>) returns (n: nat)
    requires !Finished(pcs)
    ensures n < |pcs| && Rank(pcs[n]) > 0
  {
    n :| n < |pcs| && Rank(pcs[n]) > 0;
  }

  lemma InvMeans(g: Goal, serverId: nat, start: State, c: Config)
    requires Inv(g, serverId, start, c)
    ensures Grown(g, c.st) && start.nextId <= c.st.nextId && |c.pcs| == |g.cr.nics|
    ensures forall k: Key :: !k.kind.NicKind? ==>
              (k in start.objs <==> k in c.st.objs) && (k in c.st.objs ==> start.objs[k] == c.st.objs[k])
    ensures forall n :: 0 <= n < |c.pcs| && c.pcs[n].Done? ==> Ready(c.st, NicKey(g.cr, g.i, n, g.sv))
  {
    hide Grown, NicKey;
    forall n | 0 <= n < |c.pcs| && c.pcs[n].Done? ensures Ready(c.st, NicKey(g.cr, g.i, n, g.sv)) {
      assert PcHolds(g, serverId, c.st, c.pcs[n], n);
    }
  }

  lemma StepIs(cr: ServerSet, i: nat, v: nat, serverId: nat, c: Config, ch: Choice)
    requires |c.pcs| == |cr.nics| && ch.task < |cr.nics|
    ensures var (st', pc') := Advance(c.st, NicKey(cr, i, ch.task, v), NewNic(cr, i, ch.task, v, serverId),
                                      c.pcs[ch.task], ch.outcome);
            Step(cr, i, v, serverId, c, ch) == Config(st', c.pcs[ch.task := pc'])
  {
  }

  lemma InvGrown(g: Goal, serverId: nat, start: State, c: Config)
    requires Inv(g, serverId, start, c)
    ensures Grown(g, c.st)
  {
  }
}
