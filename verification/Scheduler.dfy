/**
 The worker's two consumers.

 Pipeline jobs and fine-tune jobs run as tasks under separate semaphores, and share one
 mutex per run. The machine's steps are the points at which the event loop may switch tasks.
 Proved over every run: at most one task is in the critical section of a run, no semaphore
 is exceeded, every task attempts exactly one acknowledgement, and, with at least one permit
 for pipelines, unfinished work can always go on and comes to an end.
 */
module Scheduler {
  import opened Wrappers

  datatype Kind = Pipeline | Finetune

  // The points of `_process`, in order. `Failed` is the pipeline's attempt to emit an error event.
  datatype Phase = Waiting | Parsing | WantsLock | Critical | Failed | Acking | Done

  // `run` is None for an entry whose fields do not parse.
  datatype Task = Task(kind: Kind, run: Option<nat>, phase: Phase, acks: nat, errorEvents: nat)

  datatype Permits = Permits(pipeline: nat, finetune: nat) {
    function Of(k: Kind): nat {
      if k == Pipeline then pipeline else finetune
    }

    function With(k: Kind, n: nat): Permits {
      if k == Pipeline then this.(pipeline := n) else this.(finetune := n)
    }
  }

  // `locks` maps a run to the task that holds its mutex; an absent or None entry is free.
  datatype State = State(tasks: seq<Task>, permits: Permits, locks: map<nat, Option<nat>>, stopping: bool)

  datatype Step =
    | Spawn(kind: Kind, run: Option<nat>)
    | Stop
    | Acquire(t: nat)
    | Parse(t: nat)
    | Lock(t: nat)
    | Finish(t: nat, ok: bool)
    | EmitError(t: nat)
    | Ack(t: nat)

  function Init(pipelines: nat, finetunes: nat): State {
    State([], Permits(pipelines, finetunes), map[], false)
  }

  /** The worker gives fine-tunes at least one permit, pipelines as many as configured. */
  function Start(concurrency: nat): State {
    Init(concurrency, if concurrency >= 1 then concurrency else 1)
  }

  function Holder(s: State, run: nat): Option<nat> {
    if run in s.locks then s.locks[run] else None
  }

  predicate At(s: State, t: nat, p: Phase) {
    t < |s.tasks| && s.tasks[t].phase == p
  }

  predicate Enabled(s: State, st: Step) {
    match st
    case Spawn(_, _) => !s.stopping
    case Stop => true
    case Acquire(t) => At(s, t, Waiting) && s.permits.Of(s.tasks[t].kind) > 0
    case Parse(t) => At(s, t, Parsing)
    case Lock(t) => At(s, t, WantsLock) && s.tasks[t].run.Some? && Holder(s, s.tasks[t].run.value) == None
    case Finish(t, _) => At(s, t, Critical) && s.tasks[t].run.Some?
    case EmitError(t) => At(s, t, Failed)
    case Ack(t) => At(s, t, Acking)
  }

  function Move(s: State, t: nat, p: Phase): State
    requires t < |s.tasks|
  {
    s.(tasks := s.tasks[t := s.tasks[t].(phase := p)])
  }

  // Where an exception leads: a pipeline task that knows its run emits an error event first.
  function Fail(task: Task): Phase {
    if task.kind == Pipeline && task.run.Some? then Failed else Acking
  }

  function Do(s: State, st: Step): State
    requires Enabled(s, st)
  {
    match st
    case Spawn(kind, run) => s.(tasks := s.tasks + [Task(kind, run, Waiting, 0, 0)])
    case Stop => s.(stopping := true)
    case Acquire(t) =>
      var k := s.tasks[t].kind;
      Move(s, t, Parsing).(permits := s.permits.With(k, s.permits.Of(k) - 1))
    case Parse(t) =>
      // `setdefault` creates the mutex of a run the first time the run is named.
      var run := s.tasks[t].run;
      if run.None? then Move(s, t, Fail(s.tasks[t]))
      else Move(s, t, WantsLock).(locks := if run.value in s.locks then s.locks else s.locks[run.value := None])
    case Lock(t) => Move(s, t, Critical).(locks := s.locks[s.tasks[t].run.value := Some(t)])
    case Finish(t, ok) =>
      Move(s, t, if ok then Acking else Fail(s.tasks[t])).(locks := s.locks[s.tasks[t].run.value := None])
    case EmitError(t) =>
      s.(tasks := s.tasks[t := s.tasks[t].(phase := Acking, errorEvents := s.tasks[t].errorEvents + 1)])
    case Ack(t) =>
      // The acknowledgement is attempted whether or not Redis accepts it; then the permit returns.
      var task := s.tasks[t];
      s.(tasks := s.tasks[t := task.(phase := Done, acks := task.acks + 1)],
         permits := s.permits.With(task.kind, s.permits.Of(task.kind) + 1))
  }

  function Exec(s: State, steps: seq<Step>): Option<State>
    decreases |steps|
  {
    if steps == [] then Some(s)
    else if Enabled(s, steps[0]) then Exec(Do(s, steps[0]), steps[1..]) else None
  }

  /******* Counting *******/

  predicate Holds(task: Task, k: Kind) {
    task.kind == k && task.phase != Waiting && task.phase != Done
  }

  function Holding(tasks: seq<Task>, k: Kind): nat {
    if tasks == [] then 0
    else (if Holds(tasks[|tasks| - 1], k) then 1 else 0) + Holding(tasks[..|tasks| - 1], k)
  }

  lemma {:induction false} HoldingUpdate(tasks: seq<Task>, t: nat, task: Task, k: Kind)
    requires t < |tasks|
    ensures Holding(tasks[t := task], k) ==
            Holding(tasks, k) + (if Holds(task, k) then 1 else 0) - (if Holds(tasks[t], k) then 1 else 0)
  {
    var n := |tasks| - 1;
    var after := tasks[t := task];
    if t == n {
      assert after[..n] == tasks[..n];
    } else {
      assert after[..n] == tasks[..n][t := task];
      HoldingUpdate(tasks[..n], t, task, k);
    }
  }

  lemma {:induction false} NoneHolding(tasks: seq<Task>, k: Kind)
    requires forall i :: 0 <= i < |tasks| ==> !Holds(tasks[i], k)
    ensures Holding(tasks, k) == 0
  {
    if tasks != [] { NoneHolding(tasks[..|tasks| - 1], k); }
  }

  /******* Invariant *******/

  ghost predicate PermitsInv(s: State, size: Permits) {
    forall k: Kind :: s.permits.Of(k) + Holding(s.tasks, k) == size.Of(k)
  }

  ghost predicate LocksInv(s: State) {
    && (forall t :: 0 <= t < |s.tasks| && s.tasks[t].phase == Critical ==>
          s.tasks[t].run.Some? && Holder(s, s.tasks[t].run.value) == Some(t))
    && (forall r :: r in s.locks && s.locks[r].Some? ==>
          At(s, s.locks[r].value, Critical) && s.tasks[s.locks[r].value].run == Some(r))
    && (forall t :: 0 <= t < |s.tasks| && s.tasks[t].phase in {WantsLock, Failed} ==> s.tasks[t].run.Some?)
  }

  predicate TaskOk(task: Task) {
    && task.acks == (if task.phase == Done then 1 else 0)
    && task.errorEvents <= 1
    && (task.phase !in {Acking, Done} ==> task.errorEvents == 0)
    && (task.phase == Failed || task.errorEvents == 1 ==> task.kind == Pipeline && task.run.Some?)
  }

  predicate TasksInv(s: State) {
    forall t :: 0 <= t < |s.tasks| ==> TaskOk(s.tasks[t])
  }

  ghost predicate Inv(s: State, size: Permits) {
    PermitsInv(s, size) && LocksInv(s) && TasksInv(s)
  }

  predicate IsTaskStep(st: Step) {
    !st.Spawn? && !st.Stop?
  }

  // A task step changes one task, and no other.
  lemma OneTaskMoves(s: State, st: Step)
    requires IsTaskStep(st) && Enabled(s, st)
    ensures st.t < |s.tasks| && Do(s, st).tasks == s.tasks[st.t := Do(s, st).tasks[st.t]]
    ensures Do(s, st).tasks[st.t].kind == s.tasks[st.t].kind && Do(s, st).tasks[st.t].run == s.tasks[st.t].run
  {
  }

  // The permit a task takes or returns is the one its holding accounts for.
  lemma PermitMatchesHolding(s: State, st: Step, k: Kind)
    requires IsTaskStep(st) && Enabled(s, st)
    ensures var s' := Do(s, st);
      s'.permits.Of(k) + (if Holds(s'.tasks[st.t], k) then 1 else 0) ==
      s.permits.Of(k) + (if Holds(s.tasks[st.t], k) then 1 else 0)
  {
  }

  lemma PermitsKept(s: State, size: Permits, st: Step)
    requires PermitsInv(s, size) && Enabled(s, st)
    ensures PermitsInv(Do(s, st), size)
  {
    var s' := Do(s, st);
    forall k: Kind ensures s'.permits.Of(k) + Holding(s'.tasks, k) == size.Of(k) {
      assert s.permits.Of(k) + Holding(s.tasks, k) == size.Of(k);
      if IsTaskStep(st) {
        OneTaskMoves(s, st);
        HoldingUpdate(s.tasks, st.t, s'.tasks[st.t], k);
        PermitMatchesHolding(s, st, k);
      } else if st.Spawn? {
        assert s'.tasks[..|s.tasks|] == s.tasks;
      }
    }
  }

  lemma LocksKeptLock(s: State, t: nat)
    requires LocksInv(s) && Enabled(s, Lock(t))
    ensures LocksInv(Do(s, Lock(t)))
  {
    var s', run := Do(s, Lock(t)), s.tasks[t].run.value;
    forall u | 0 <= u < |s'.tasks| && s'.tasks[u].phase == Critical
      ensures s'.tasks[u].run.Some? && Holder(s', s'.tasks[u].run.value) == Some(u)
    {
      if u != t { assert s'.tasks[u] == s.tasks[u] && s.tasks[u].run.value != run; }
    }
  }

  lemma LocksKeptFinish(s: State, t: nat, ok: bool)
    requires LocksInv(s) && Enabled(s, Finish(t, ok))
    ensures LocksInv(Do(s, Finish(t, ok)))
  {
    var s', run := Do(s, Finish(t, ok)), s.tasks[t].run.value;
    forall u | 0 <= u < |s'.tasks| && s'.tasks[u].phase == Critical
      ensures s'.tasks[u].run.Some? && Holder(s', s'.tasks[u].run.value) == Some(u)
    {
      assert u != t && s'.tasks[u] == s.tasks[u] && s.tasks[u].run.value != run;
    }
  }

  // The other task steps hand no mutex over, and start or end at no Critical task.
  lemma LocksKeptElsewhere(s: State, st: Step)
    requires LocksInv(s) && IsTaskStep(st) && Enabled(s, st) && !st.Lock? && !st.Finish?
    ensures LocksInv(Do(s, st))
  {
    var s', t := Do(s, st), st.t;
    OneTaskMoves(s, st);
    assert s.tasks[t].phase != Critical && s'.tasks[t].phase != Critical;
    assert forall r :: Holder(s', r) == Holder(s, r);
    forall r | r in s'.locks && s'.locks[r].Some?
      ensures At(s', s'.locks[r].value, Critical) && s'.tasks[s'.locks[r].value].run == Some(r)
    {
      assert Holder(s', r) == Holder(s, r) && s.locks[r].value != t;
    }
  }

  lemma LocksKept(s: State, st: Step)
    requires LocksInv(s) && Enabled(s, st)
    ensures LocksInv(Do(s, st))
  {
    match st
    case Lock(t) => LocksKeptLock(s, t);
    case Finish(t, ok) => LocksKeptFinish(s, t, ok);
    case Spawn(_, _) =>
    case Stop =>
    case _ => LocksKeptElsewhere(s, st);
  }

  lemma TasksKept(s: State, st: Step)
    requires TasksInv(s) && Enabled(s, st)
    ensures TasksInv(Do(s, st))
  {
    if IsTaskStep(st) {
      OneTaskMoves(s, st);
      assert TaskOk(s.tasks[st.t]);
      assert TaskOk(Do(s, st).tasks[st.t]);
    }
  }

  lemma InvKept(s: State, size: Permits, st: Step)
    requires Inv(s, size) && Enabled(s, st)
    ensures Inv(Do(s, st), size)
  {
    PermitsKept(s, size, st);
    LocksKept(s, st);
    TasksKept(s, st);
  }

  lemma {:induction false} InvAlways(s: State, size: Permits, steps: seq<Step>)
    requires Inv(s, size) && Exec(s, steps).Some?
    ensures Inv(Exec(s, steps).value, size)
    decreases |steps|
  {
    if steps != [] {
      InvKept(s, size, steps[0]);
      InvAlways(Do(s, steps[0]), size, steps[1..]);
    }
  }

  lemma StartInv(concurrency: nat)
    ensures Inv(Start(concurrency), Start(concurrency).permits)
  {
  }

  /******* Theorems *******/

  /** At most one job of either kind is in the critical section of a run, and no semaphore is
      exceeded. */
  lemma MutualExclusion(concurrency: nat, steps: seq<Step>)
    requires Exec(Start(concurrency), steps).Some?
    ensures var s := Exec(Start(concurrency), steps).value;
      && (forall i, j :: 0 <= i < j < |s.tasks| && s.tasks[i].phase == Critical && s.tasks[j].phase == Critical ==>
            s.tasks[i].run != s.tasks[j].run)
      && Holding(s.tasks, Pipeline) <= concurrency
      && Holding(s.tasks, Finetune) <= (if concurrency >= 1 then concurrency else 1)
  {
    StartInv(concurrency);
    InvAlways(Start(concurrency), Start(concurrency).permits, steps);
  }

  /** A finished task attempted its acknowledgement exactly once, an unfinished one not yet. */
  lemma OneAckPerTask(concurrency: nat, steps: seq<Step>, t: nat)
    requires Exec(Start(concurrency), steps).Some? && t < |Exec(Start(concurrency), steps).value.tasks|
    ensures var task := Exec(Start(concurrency), steps).value.tasks[t];
      && task.acks == (if task.phase == Done then 1 else 0)
      && task.errorEvents <= 1 && (task.errorEvents == 1 ==> task.kind == Pipeline && task.run.Some?)
  {
    StartInv(concurrency);
    InvAlways(Start(concurrency), Start(concurrency).permits, steps);
  }

  // The error events task t has emitted or is about to; a task yet to be spawned owes none.
  function Due(s: State, t: nat): nat {
    if t >= |s.tasks| then 0
    else s.tasks[t].errorEvents + (if s.tasks[t].phase == Failed then 1 else 0)
  }

  predicate IsPipelineJob(task: Task) {
    task.kind == Pipeline && task.run.Some?
  }

  lemma StepDue(s: State, st: Step, t: nat)
    requires Enabled(s, st)
    ensures Due(Do(s, st), t) == Due(s, t) + (if st == Finish(t, false) && IsPipelineJob(s.tasks[t]) then 1 else 0)
    ensures t < |s.tasks| ==>
      t < |Do(s, st).tasks| && Do(s, st).tasks[t].kind == s.tasks[t].kind && Do(s, st).tasks[t].run == s.tasks[t].run
  {
  }

  predicate PastCritical(s: State, t: nat) {
    t < |s.tasks| && s.tasks[t].phase in {Failed, Acking, Done}
  }

  lemma {:induction false} FinishesOnce(s: State, steps: seq<Step>, t: nat)
    requires PastCritical(s, t) && Exec(s, steps).Some?
    ensures Finish(t, false) !in steps
    decreases |steps|
  {
    if steps != [] {
      assert steps == [steps[0]] + steps[1..];
      FinishesOnce(Do(s, steps[0]), steps[1..], t);
    }
  }

  lemma {:induction false} DueAfter(s: State, steps: seq<Step>, t: nat)
    requires Exec(s, steps).Some? && t < |Exec(s, steps).value.tasks|
    ensures var s' := Exec(s, steps).value;
      Due(s', t) == Due(s, t) + (if Finish(t, false) in steps && IsPipelineJob(s'.tasks[t]) then 1 else 0)
    ensures t < |s.tasks| ==> IsPipelineJob(Exec(s, steps).value.tasks[t]) == IsPipelineJob(s.tasks[t])
    decreases |steps|
  {
    if steps != [] {
      var st, rest := steps[0], steps[1..];
      assert steps == [st] + rest;
      StepDue(s, st, t);
      DueAfter(Do(s, st), rest, t);
      if st == Finish(t, false) { FinishesOnce(Do(s, st), rest, t); }
    }
  }

  /** A finished task has emitted one error event if it was a pipeline job that knew its run and whose pipeline
      raised, and none otherwise. */
  lemma ErrorEventIffRaised(concurrency: nat, steps: seq<Step>, t: nat)
    requires Exec(Start(concurrency), steps).Some? && t < |Exec(Start(concurrency), steps).value.tasks|
    requires Exec(Start(concurrency), steps).value.tasks[t].phase == Done
    ensures var task := Exec(Start(concurrency), steps).value.tasks[t];
      task.errorEvents == if task.kind == Pipeline && task.run.Some? && Finish(t, false) in steps then 1 else 0
  {
    DueAfter(Start(concurrency), steps, t);
  }

  predicate Before(s: State, t: nat, phases: set<Phase>) {
    t < |s.tasks| ==> s.tasks[t].phase in phases
  }

  lemma {:induction false} RunKept(s: State, steps: seq<Step>, t: nat)
    requires Exec(s, steps).Some? && t < |s.tasks|
    ensures t < |Exec(s, steps).value.tasks| && Exec(s, steps).value.tasks[t].run == s.tasks[t].run
    decreases |steps|
  {
    if steps != [] {
      StepDue(s, steps[0], t);
      RunKept(Do(s, steps[0]), steps[1..], t);
    }
  }

  lemma {:induction false} PastMeansFinished(s: State, steps: seq<Step>, t: nat)
    requires Exec(s, steps).Some? && Before(s, t, {Waiting, Parsing, WantsLock, Critical})
    requires PastCritical(Exec(s, steps).value, t) && Exec(s, steps).value.tasks[t].run.Some?
    ensures Finish(t, true) in steps || Finish(t, false) in steps
    decreases |steps|
  {
    if steps != [] {
      var st, rest := steps[0], steps[1..];
      assert steps == [st] + rest;
      if t < |Do(s, st).tasks| { RunKept(Do(s, st), rest, t); }
      if !st.Finish? || st.t != t { PastMeansFinished(Do(s, st), rest, t); }
    }
  }

  lemma {:induction false} PastMeansLocked(s: State, steps: seq<Step>, t: nat)
    requires Exec(s, steps).Some? && Before(s, t, {Waiting, Parsing, WantsLock})
    requires PastCritical(Exec(s, steps).value, t) && Exec(s, steps).value.tasks[t].run.Some?
    ensures Lock(t) in steps
    decreases |steps|
  {
    if steps != [] {
      var st, rest := steps[0], steps[1..];
      assert steps == [st] + rest;
      if t < |Do(s, st).tasks| { RunKept(Do(s, st), rest, t); }
      if st != Lock(t) { PastMeansLocked(Do(s, st), rest, t); }
    }
  }

  /** No job is acknowledged without having been run: a finished task that knew its run held the run's mutex and
      went through the critical section, to its end or to an exception. */
  lemma DoneMeansRun(concurrency: nat, steps: seq<Step>, t: nat)
    requires Exec(Start(concurrency), steps).Some? && t < |Exec(Start(concurrency), steps).value.tasks|
    requires var task := Exec(Start(concurrency), steps).value.tasks[t]; task.phase == Done && task.run.Some?
    ensures Lock(t) in steps && (Finish(t, true) in steps || Finish(t, false) in steps)
  {
    PastMeansLocked(Start(concurrency), steps, t);
    PastMeansFinished(Start(concurrency), steps, t);
  }

  predicate Unfinished(s: State, t: nat) {
    t < |s.tasks| && s.tasks[t].phase != Done
  }

  ghost predicate CanStep(s: State) {
    exists st :: IsTaskStep(st) && Enabled(s, st)
  }

  // A task that waits neither for a permit nor for a mutex can go on.
  lemma RunnableCanStep(s: State, t: nat)
    requires LocksInv(s) && Unfinished(s, t) && s.tasks[t].phase !in {Waiting, WantsLock}
    ensures CanStep(s)
  {
    var st := match s.tasks[t].phase
      case Parsing => Parse(t)
      case Critical => Finish(t, true)
      case Failed => EmitError(t)
      case _ => Ack(t);
    assert IsTaskStep(st) && Enabled(s, st);
  }

  /** No deadlock: when every semaphore has a permit to give, unfinished work can go on. */
  lemma Progress(s: State, size: Permits, t: nat)
    requires Inv(s, size) && Unfinished(s, t)
    requires size.pipeline >= 1 && size.finetune >= 1
    ensures CanStep(s)
  {
    if u: nat :| Unfinished(s, u) && s.tasks[u].phase !in {Waiting, WantsLock} {
      RunnableCanStep(s, u);
    } else if u: nat :| Unfinished(s, u) && s.tasks[u].phase == WantsLock {
      assert Enabled(s, Lock(u));
    } else {
      var k := s.tasks[t].kind;
      NoneHolding(s.tasks, k);
      assert Enabled(s, Acquire(t));
    }
  }

  function Rank(p: Phase): nat {
    match p
    case Waiting => 6
    case Parsing => 5
    case WantsLock => 4
    case Critical => 3
    case Failed => 2
    case Acking => 1
    case Done => 0
  }

  /** The work left: how many points the tasks still have to pass, at most. */
  function Work(tasks: seq<Task>): nat {
    if tasks == [] then 0 else Rank(tasks[|tasks| - 1].phase) + Work(tasks[..|tasks| - 1])
  }

  lemma {:induction false} WorkUpdate(tasks: seq<Task>, t: nat, task: Task)
    requires t < |tasks|
    ensures Work(tasks[t := task]) == Work(tasks) + Rank(task.phase) - Rank(tasks[t].phase)
  {
    var n := |tasks| - 1;
    var after := tasks[t := task];
    if t == n {
      assert after[..n] == tasks[..n];
    } else {
      assert after[..n] == tasks[..n][t := task];
      WorkUpdate(tasks[..n], t, task);
    }
  }

  lemma StepsDoWork(s: State, st: Step)
    requires IsTaskStep(st) && Enabled(s, st)
    ensures Work(Do(s, st).tasks) < Work(s.tasks) && |Do(s, st).tasks| == |s.tasks|
  {
    OneTaskMoves(s, st);
    WorkUpdate(s.tasks, st.t, Do(s, st).tasks[st.t]);
  }

  lemma StuckMeansDone(s: State, size: Permits)
    requires Inv(s, size) && size.pipeline >= 1 && size.finetune >= 1 && !CanStep(s)
    ensures forall t :: 0 <= t < |s.tasks| ==> s.tasks[t].phase == Done && s.tasks[t].acks == 1
  {
    forall t | 0 <= t < |s.tasks| ensures s.tasks[t].phase == Done {
      if Unfinished(s, t) { Progress(s, size, t); }
    }
  }

  lemma {:induction false} StepsBounded(s: State, steps: seq<Step>)
    requires Exec(s, steps).Some? && forall st :: st in steps ==> IsTaskStep(st)
    ensures |steps| + Work(Exec(s, steps).value.tasks) <= Work(s.tasks)
    ensures |Exec(s, steps).value.tasks| == |s.tasks|
    decreases |steps|
  {
    if steps != [] {
      StepsDoWork(s, steps[0]);
      StepsBounded(Do(s, steps[0]), steps[1..]);
    }
  }

  /** Draining ends: the tasks present take at most `Work` steps, and when none of them can
      step any more, every one has finished, with exactly one acknowledgement attempt. */
  lemma Drains(s: State, size: Permits, steps: seq<Step>)
    requires Inv(s, size) && size.pipeline >= 1 && size.finetune >= 1
    requires Exec(s, steps).Some? && forall st :: st in steps ==> IsTaskStep(st)
    ensures var s' := Exec(s, steps).value;
      && |steps| <= Work(s.tasks)
      && |s'.tasks| == |s.tasks|
      && (!CanStep(s') ==> forall t :: 0 <= t < |s'.tasks| ==> s'.tasks[t].phase == Done && s'.tasks[t].acks == 1)
  {
    StepsBounded(s, steps);
    InvAlways(s, size, steps);
    if !CanStep(Exec(s, steps).value) {
      StuckMeansDone(Exec(s, steps).value, size);
    }
  }

  ghost predicate NeverStuck(concurrency: nat) {
    forall steps, t :: Exec(Start(concurrency), steps).Some? && Unfinished(Exec(Start(concurrency), steps).value, t) ==>
      CanStep(Exec(Start(concurrency), steps).value)
  }

  /** The worker never gets stuck exactly when it is configured with at least one permit: the
      pipeline semaphore, unlike the fine-tune one, has no lower bound of its own. */
  lemma NeverStuckIffPermit(concurrency: nat)
    ensures NeverStuck(concurrency) <==> concurrency >= 1
  {
    var s0 := Start(concurrency);
    StartInv(concurrency);
    if concurrency >= 1 {
      forall steps, t: nat | Exec(s0, steps).Some? && Unfinished(Exec(s0, steps).value, t)
        ensures CanStep(Exec(s0, steps).value)
      {
        InvAlways(s0, s0.permits, steps);
        Progress(Exec(s0, steps).value, s0.permits, t);
      }
    } else {
      var st := Spawn(Pipeline, Some(0));
      var s := Do(s0, st);
      assert [st][1..] == [];
      assert Exec(s, []) == Some(s) && Exec(s0, [st]) == Some(s);
      assert Unfinished(s, 0) && !CanStep(s);
    }
  }
}
