// The desktop worker's ticks: timer callbacks that interleave at their awaits, gated by one busy flag, and
// the two places where they queue a parent for synthesis.
module DurableWorker {
  import opened Common
  import opened ExpertTeam

  /** What a tick looks at before it starts. */
  datatype Gate = Gate(desktop: bool, setupNeeded: bool, chatPending: bool, queuedLocal: nat, credentialReady: bool)

  predicate ShouldRun(gate: Gate, busy: bool) {
    gate.desktop && !gate.setupNeeded && !busy && !gate.chatPending && gate.queuedLocal == 0 && gate.credentialReady
  }

  /** The await a tick has reached. `runs` is the list it read. */
  datatype Stage =
    | Listing
    | AskingRetries(runs: seq<Record>)
    | QueueingParents(runs: seq<Record>)
    | RunningExperts(runs: seq<Record>)
    | Relisting
    | SettlingParents(runs: seq<Record>, asking: seq<nat>)
    | RunningQueued
    | Closing
    | Finished

  datatype Call = Call(parent: nat, runs: seq<Record>)

  /** `strays` are parents whose own chain of awaits goes on although their tick has ended: one of several
      promises awaited together failed first. */
  datatype Desktop = Desktop(
    busy: bool, ticks: map<nat, Stage>, unmounted: set<nat>, records: seq<Record>, calls: seq<Call>, strays: seq<Call>)

  datatype Event =
    | Tick(t: nat, mount: nat, gate: Gate)
    | Unmount(mount: nat)
    | StoreChange(records: seq<Record>)
    | Listed(t: nat)
    | Retried(t: nat, retries: nat)
    | ParentsQueued(t: nat)
    | ExpertsDone(t: nat)
    | Relisted(t: nat)
    | ParentAnswered(t: nat, at: nat, retries: nat)
    | ParentsSettled(t: nat)
    | QueuedDone(t: nat)
    | Throw(t: nat)
    | Finish(t: nat)
    | StrayAnswered(at: nat, retries: nat)

  predicate At(d: Desktop, t: nat) {
    t in d.ticks && d.ticks[t] != Finished
  }

  predicate Enabled(d: Desktop, e: Event) {
    match e
    case Tick(t, _, _) => t !in d.ticks
    case Unmount(_) => true
    case StoreChange(_) => true
    case Listed(t) => At(d, t) && d.ticks[t] == Listing
    case Retried(t, _) => At(d, t) && d.ticks[t].AskingRetries?
    case ParentsQueued(t) => At(d, t) && d.ticks[t].QueueingParents?
    case ExpertsDone(t) => At(d, t) && d.ticks[t].RunningExperts?
    case Relisted(t) => At(d, t) && d.ticks[t] == Relisting
    case ParentAnswered(t, at, _) => At(d, t) && d.ticks[t].SettlingParents? && at < |d.ticks[t].asking|
    case ParentsSettled(t) => At(d, t) && d.ticks[t].SettlingParents? && d.ticks[t].asking == []
    case QueuedDone(t) => At(d, t) && d.ticks[t] == RunningQueued
    case Throw(t) => At(d, t)
    case Finish(t) => At(d, t) && d.ticks[t] == Closing
    case StrayAnswered(at, _) => at < |d.strays|
  }

  function Ids(parents: seq<Record>): seq<nat> {
    seq(|parents|, i requires 0 <= i < |parents| => parents[i].id)
  }

  /** The calls of the first path: recoverable parents whose team may be synthesized. */
  function FirstPathCalls(parents: seq<Record>, runs: seq<Record>): seq<Call> {
    if parents == [] then []
    else (if CanSynthesize(runs, parents[0].id) then [Call(parents[0].id, runs)] else []) + FirstPathCalls(parents[1..], runs)
  }

  function SecondPathCall(parent: nat, runs: seq<Record>, retries: nat): seq<Call> {
    if retries == 0 && CanSynthesize(runs, parent) then [Call(parent, runs)] else []
  }

  /** After the parents are dealt with: the ready experts, or else one queued run. */
  function Onward(runs: seq<Record>): Stage {
    if ReadyAttempts(runs, 3) != [] then RunningExperts(runs) else RunningQueued
  }

  function Move(d: Desktop, t: nat, stage: Stage): Desktop {
    d.(ticks := d.ticks[t := stage])
  }

  /** The `finally` block. */
  function Leave(d: Desktop, t: nat): Desktop {
    Move(d, t, Finished).(busy := false)
  }

  function Left(stage: Stage): seq<Call> {
    if stage.SettlingParents? then seq(|stage.asking|, i requires 0 <= i < |stage.asking| => Call(stage.asking[i], stage.runs))
    else []
  }

  function Without<T>(s: seq<T>, at: nat): seq<T>
    requires at < |s|
  {
    s[..at] + s[at + 1..]
  }

  function Next(d: Desktop, e: Event): Desktop
    requires Enabled(d, e)
  {
    match e
    case Tick(t, mount, gate) =>
      if mount !in d.unmounted && ShouldRun(gate, d.busy) then Move(d, t, Listing).(busy := true)
      else Move(d, t, Finished)
    case Unmount(mount) => d.(unmounted := d.unmounted + {mount})
    case StoreChange(records) => d.(records := records)
    case Listed(t) =>
      Move(d, t, if BlockedParents(d.records, d.records) != [] then AskingRetries(d.records) else Onward(d.records))
    case Retried(t, retries) =>
      var runs := d.ticks[t].runs;
      if retries > 0 then Move(d, t, Closing)
      else Move(d, t, QueueingParents(runs)).(calls := d.calls + FirstPathCalls(BlockedParents(runs, runs), runs))
    case ParentsQueued(t) =>
      var runs := d.ticks[t].runs;
      Move(d, t, if FirstPathCalls(BlockedParents(runs, runs), runs) != [] then Closing else Onward(runs))
    case ExpertsDone(t) => Move(d, t, Relisting)
    case Relisted(t) => Move(d, t, SettlingParents(d.records, Ids(BlockedParents(d.records, d.records))))
    case ParentAnswered(t, at, retries) =>
      var stage := d.ticks[t];
      Move(d, t, SettlingParents(stage.runs, Without(stage.asking, at))).(
        calls := d.calls + SecondPathCall(stage.asking[at], stage.runs, retries))
    case ParentsSettled(t) => Move(d, t, Closing)
    case QueuedDone(t) => Move(d, t, Closing)
    case Throw(t) => Leave(d, t).(strays := d.strays + Left(d.ticks[t]))
    case Finish(t) => Leave(d, t)
    case StrayAnswered(at, retries) =>
      d.(strays := Without(d.strays, at), calls := d.calls + SecondPathCall(d.strays[at].parent, d.strays[at].runs, retries))
  }

  function Start(records: seq<Record>): Desktop {
    Desktop(false, map[], {}, records, [], [])
  }

  ghost predicate Legal(d: Desktop, run: seq<Event>)
    decreases |run|
  {
    run == [] || (Enabled(d, run[0]) && Legal(Next(d, run[0]), run[1..]))
  }

  function Run(d: Desktop, run: seq<Event>): Desktop
    requires Legal(d, run)
    decreases |run|
  {
    if run == [] then d else Run(Next(d, run[0]), run[1..])
  }

  // ----- One tick at a time -----

  /** The flag is set exactly while one tick is between setting and clearing it. */
  ghost predicate OneInside(d: Desktop) {
    && (d.busy <==> exists t :: At(d, t))
    && (forall t, u :: At(d, t) && At(d, u) ==> t == u)
  }

  // ----- Guarded synthesis -----

  /** In the list used, the parent waits, has children, all of them terminal, and its team may be synthesized. */
  ghost predicate Waiting(parent: nat, runs: seq<Record>) {
    exists p :: p in runs && p.id == parent && WaitsForSynthesis(p, runs)
  }

  ghost predicate Guarded(call: Call) {
    Waiting(call.parent, call.runs) && CanSynthesize(call.runs, call.parent)
  }

  ghost predicate StageOk(stage: Stage) {
    stage.SettlingParents? ==> forall p :: p in stage.asking ==> Waiting(p, stage.runs)
  }

  ghost predicate Inv(d: Desktop) {
    && OneInside(d)
    && (forall t :: t in d.ticks ==> StageOk(d.ticks[t]))
    && (forall c :: c in d.strays ==> Waiting(c.parent, c.runs))
    && (forall c :: c in d.calls ==> Guarded(c))
  }

  lemma {:induction false} FirstPathGuarded(parents: seq<Record>, runs: seq<Record>)
    requires forall p :: p in parents ==> p in runs && WaitsForSynthesis(p, runs)
    ensures forall c :: c in FirstPathCalls(parents, runs) ==> Guarded(c)
  {
    if parents != [] {
      FirstPathGuarded(parents[1..], runs);
      assert Waiting(parents[0].id, runs);
    }
  }

  lemma BlockedAreWaiting(runs: seq<Record>)
    ensures forall p :: p in Ids(BlockedParents(runs, runs)) ==> Waiting(p, runs)
  {
    var parents := BlockedParents(runs, runs);
    forall p | p in Ids(parents)
      ensures Waiting(p, runs)
    {
      var i :| 0 <= i < |Ids(parents)| && Ids(parents)[i] == p;
      assert parents[i] in parents;
    }
  }

  /** A tick that enters is alone; one that goes on stays; one that leaves takes the flag with it. */
  lemma InsideAfter(d: Desktop, e: Event, u: nat)
    requires OneInside(d) && Enabled(d, e)
    ensures var after := Next(d, e);
      At(after, u) <==>
        if e.Tick? && u == e.t then after.busy && !d.busy
        else At(d, u) && !((e.Throw? || e.Finish?) && e.t == u)
  {
  }

  lemma OneInsideStep(d: Desktop, e: Event)
    requires OneInside(d) && Enabled(d, e)
    ensures OneInside(Next(d, e))
  {
    var after := Next(d, e);
    forall u
      ensures At(after, u) <==>
        if e.Tick? && u == e.t then after.busy && !d.busy
        else At(d, u) && !((e.Throw? || e.Finish?) && e.t == u)
    {
      InsideAfter(d, e, u);
    }
    if after.busy && !d.busy {
      assert At(after, e.t);
    } else if after.busy {
      var t :| At(d, t);
      assert At(after, t);
    }
  }

  lemma GuardStep(d: Desktop, e: Event)
    requires Inv(d) && Enabled(d, e)
    ensures forall c :: c in Next(d, e).calls ==> Guarded(c)
    ensures forall t :: t in Next(d, e).ticks ==> StageOk(Next(d, e).ticks[t])
    ensures forall c :: c in Next(d, e).strays ==> Waiting(c.parent, c.runs)
  {
    match e
    case Retried(t, retries) =>
      var runs := d.ticks[t].runs;
      FirstPathGuarded(BlockedParents(runs, runs), runs);
    case Relisted(t) => BlockedAreWaiting(d.records);
    case ParentAnswered(t, at, retries) =>
      assert StageOk(d.ticks[t]) && d.ticks[t].asking[at] in d.ticks[t].asking;
    case Throw(t) => assert StageOk(d.ticks[t]);
    case StrayAnswered(at, retries) => assert d.strays[at] in d.strays;
    case _ =>
  }

  lemma {:induction false} InvRun(d: Desktop, run: seq<Event>)
    requires Inv(d) && Legal(d, run)
    ensures Inv(Run(d, run))
    decreases |run|
  {
    if run != [] {
      OneInsideStep(d, run[0]);
      GuardStep(d, run[0]);
      InvRun(Next(d, run[0]), run[1..]);
    }
  }

  /** Through any ticks, mounts and interleaved awaits, at most one tick is between setting and clearing the
      flag, and the flag is never left set without one. */
  lemma OneTickInside(records: seq<Record>, run: seq<Event>)
    requires Legal(Start(records), run)
    ensures var d := Run(Start(records), run);
      (d.busy <==> exists t :: At(d, t)) && forall t, u :: At(d, t) && At(d, u) ==> t == u
  {
    InvRun(Start(records), run);
  }

  /** On both paths a parent is queued for synthesis only under the guard, in the list that was used. */
  lemma SynthesisIsGuarded(records: seq<Record>, run: seq<Event>)
    requires Legal(Start(records), run)
    ensures forall c :: c in Run(Start(records), run).calls ==> Guarded(c)
  {
    InvRun(Start(records), run);
  }

  // ----- What a tick leaves behind -----

  ghost predicate Reaches(d: Desktop, after: Desktop) {
    exists run :: Legal(d, run) && Run(d, run) == after
  }

  lemma {:induction false} StepOn(d: Desktop, run: seq<Event>, e: Event)
    requires Legal(d, run) && Enabled(Run(d, run), e)
    ensures Legal(d, run + [e]) && Run(d, run + [e]) == Next(Run(d, run), e)
    decreases |run|
  {
    if run == [] {
      assert [e][1..] == [];
    } else {
      assert (run + [e])[1..] == run[1..] + [e];
      StepOn(Next(d, run[0]), run[1..], e);
    }
  }

  lemma ReachesOn(d: Desktop, middle: Desktop, e: Event)
    requires Reaches(d, middle) && Enabled(middle, e)
    ensures Reaches(d, Next(middle, e))
  {
    var run :| Legal(d, run) && Run(d, run) == middle;
    StepOn(d, run, e);
  }

  lemma ReachesItself(d: Desktop)
    ensures Reaches(d, d)
  {
    assert Legal(d, []) && Run(d, []) == d;
  }

  const QUEUED_RUN := Record(5, Subagent, Some(9), Queued, 0, 0, None, None, false)
  const BLOCKED_PARENT := Record(1, ParentRole, None, Blocked, 0, 0, None, None, true)
  const ENDED_CHILD := Record(2, Subagent, Some(1), Failed, 0, 0, None, None, true)

  lemma StrayLists()
    ensures BlockedParents([QUEUED_RUN], [QUEUED_RUN]) == [] && ReadyAttempts([QUEUED_RUN], 3) == [QUEUED_RUN]
    ensures var runs := [BLOCKED_PARENT, ENDED_CHILD];
      BlockedParents(runs, runs) == [BLOCKED_PARENT] && CanSynthesize(runs, 1)
  {
    assert [QUEUED_RUN][1..] == [];
    assert ReadyOnes([QUEUED_RUN], [QUEUED_RUN]) == [QUEUED_RUN];
    var runs := [BLOCKED_PARENT, ENDED_CHILD];
    assert runs[1] == ENDED_CHILD && ChildOf(ENDED_CHILD, 1);
    assert runs[1..] == [ENDED_CHILD] && [ENDED_CHILD][1..] == [];
    assert BlockedParents([ENDED_CHILD], runs) == [];
    assert WaitsForSynthesis(BLOCKED_PARENT, runs);
  }

  lemma ReachesRelisting()
    ensures Reaches(Start([QUEUED_RUN]), Desktop(true, map[0 := Relisting], {}, [QUEUED_RUN], [], []))
  {
    var start := Start([QUEUED_RUN]);
    var d1 := Desktop(true, map[0 := Listing], {}, [QUEUED_RUN], [], []);
    var d2 := d1.(ticks := map[0 := RunningExperts([QUEUED_RUN])]);
    StrayLists();
    ReachesItself(start);
    ReachesOn(start, start, Tick(0, 0, Gate(true, false, false, 0, true)));
    assert Next(start, Tick(0, 0, Gate(true, false, false, 0, true))) == d1;
    ReachesOn(start, d1, Listed(0));
    assert Next(d1, Listed(0)) == d2;
    ReachesOn(start, d2, ExpertsDone(0));
    assert Next(d2, ExpertsDone(0)) == d2.(ticks := map[0 := Relisting]);
  }

  lemma ReachesSettling()
    ensures Reaches(Start([QUEUED_RUN]),
      Desktop(true, map[0 := SettlingParents([BLOCKED_PARENT, ENDED_CHILD], [1])], {}, [BLOCKED_PARENT, ENDED_CHILD], [], []))
  {
    var runs := [BLOCKED_PARENT, ENDED_CHILD];
    var start := Start([QUEUED_RUN]);
    var d3 := Desktop(true, map[0 := Relisting], {}, [QUEUED_RUN], [], []);
    var d4 := d3.(records := runs);
    ReachesRelisting();
    StrayLists();
    ReachesOn(start, d3, StoreChange(runs));
    ReachesOn(start, d4, Relisted(0));
    assert Ids([BLOCKED_PARENT]) == [1];
    assert Next(d4, Relisted(0)) == d4.(ticks := map[0 := SettlingParents(runs, [1])]);
  }

  lemma ReachesStray()
    ensures Reaches(Start([QUEUED_RUN]),
      Desktop(false, map[0 := Finished], {}, [BLOCKED_PARENT, ENDED_CHILD], [], [Call(1, [BLOCKED_PARENT, ENDED_CHILD])]))
  {
    var runs := [BLOCKED_PARENT, ENDED_CHILD];
    var start := Start([QUEUED_RUN]);
    var d5 := Desktop(true, map[0 := SettlingParents(runs, [1])], {}, runs, [], []);
    ReachesSettling();
    ReachesOn(start, d5, Throw(0));
    assert Left(d5.ticks[0]) == [Call(1, runs)];
    assert Next(d5, Throw(0)) == Desktop(false, map[0 := Finished], {}, runs, [], [Call(1, runs)]);
  }

  /** The flag does not cover everything a tick started: after one of several awaited parents fails, another
      still queues its synthesis, from the old list, while the next tick is inside. */
  lemma StrayQueuesUnderNextTick()
    ensures exists records, d :: (
      && Reaches(Start(records), d) && d.busy && d.calls == [] && |d.strays| == 1
      && d.strays[0].runs != d.records && Next(d, StrayAnswered(0, 0)).calls == d.strays)
  {
    var runs := [BLOCKED_PARENT, ENDED_CHILD];
    var start := Start([QUEUED_RUN]);
    var d6 := Desktop(false, map[0 := Finished], {}, runs, [], [Call(1, runs)]);
    var d7 := d6.(records := []);
    var d8 := Desktop(true, map[0 := Finished, 1 := Listing], {}, [], [], [Call(1, runs)]);
    StrayLists();
    ReachesStray();
    ReachesOn(start, d6, StoreChange([]));
    ReachesOn(start, d7, Tick(1, 0, Gate(true, false, false, 0, true)));
    assert Next(d7, Tick(1, 0, Gate(true, false, false, 0, true))) == d8;
    assert Next(d8, StrayAnswered(0, 0)).calls == [] + SecondPathCall(1, runs, 0);
  }
}
