/**
 The life of one runner over any run, with no assumption on the schedule: who may hold a pending
 entry, which way a runner moves between the dictionaries, and what one add ends in.
 */
module ClusterLifecycle {
  import opened Common
  import opened ClusterSteps
  import opened ClusterInvariant

  ghost predicate InPend(s: State, r: RunnerId) {
    r < |s.runners| && s.runners[r].modelId in s.pend && s.pend[s.runners[r].modelId] == r
  }

  ghost predicate InRun(s: State, r: RunnerId) {
    r < |s.runners| && s.runners[r].modelId in s.run && s.run[s.runners[r].modelId] == r
  }

  // ----- What an event leaves alone -----

  /** Settings an object keeps for life, and flags that only ever go up. */
  predicate SameObject(a: Runner, b: Runner) {
    && b.deploymentId == a.deploymentId && b.modelId == a.modelId && b.ip == a.ip && b.port == a.port
      && b.owner == a.owner
    && (a.closed ==> b.closed) && (a.removed ==> b.removed)
  }

  predicate Forward(a: Stage, b: Stage) {
    a == b || (a == Created && b == Registered) || (a == Registered && b.Settled?)
  }

  /** The loop of an event writes settings of runners and appends runners and tasks, nothing else. */
  lemma {:induction false} HandleEntriesFrame(s: State, data: seq<ModelUpdate>)
    ensures var s' := HandleEntries(s, data);
      && s' == s.(runners := s'.runners, tasks := s'.tasks)
      && |s'.runners| >= |s.runners| && |s'.tasks| >= |s.tasks|
      && (forall t | 0 <= t < |s.tasks| :: s'.tasks[t] == s.tasks[t])
      && (forall r | 0 <= r < |s.runners| ::
            s'.runners[r] == s.runners[r].(infos := s'.runners[r].infos, modelName := s'.runners[r].modelName))
      && (forall r | |s.runners| <= r < |s'.runners| :: s'.runners[r].stage == Created && !s'.runners[r].closed)
    decreases |data|
  {
    if data != [] {
      HandleEntriesFrame(HandleEntry(s, data[0]), data[1..]);
    }
  }

  // ----- One step, one runner -----

  /** One step takes a runner forward, and files it only by the stage change made for it. */
  ghost predicate Progress(s: State, s': State, r: RunnerId)
    requires r < |s.runners|
  {
    && r < |s'.runners| && SameObject(s.runners[r], s'.runners[r])
    && Forward(s.runners[r].stage, s'.runners[r].stage)
    && (!InPend(s, r) && InPend(s', r) ==> s.runners[r].stage == Created && s'.runners[r].stage == Registered)
    && (!InRun(s, r) && InRun(s', r) ==> s.runners[r].stage == Registered && s'.runners[r].stage == Settled(Ready))
  }

  lemma RegisterProgress(s: State, t: TaskId, q: RunnerId, r: RunnerId)
    requires t < |s.tasks| && q < |s.runners| && s.runners[q].stage == Created && r < |s.runners|
    ensures Progress(s, RegisterPending(s, t, q), r)
  {}

  lemma EndInitProgress(s: State, t: TaskId, q: RunnerId, o: InitOutcome, r: RunnerId)
    requires t < |s.tasks| && q < |s.runners| && s.runners[q].stage == Registered && r < |s.runners|
    ensures Progress(s, EndInit(s, t, q, o), r)
  {
    var s' := EndInit(s, t, q, o);
    assert s'.runners == s.runners[q := s.runners[q].(stage := Settled(o))];
    assert s'.pend == Without(s.pend, s.runners[q].modelId, q);
    assert s'.run == if o == Ready then s.run[s.runners[q].modelId := q] else s.run;
  }

  lemma EndRemoveProgress(s: State, t: TaskId, x: RunnerId, next: Next, r: RunnerId)
    requires Inv(s) && t < |s.tasks| && s.tasks[t].pc == Removing(x, true, next) && x < |s.runners| && r < |s.runners|
    ensures next == Register ==> s.tasks[t].subject.Some? && s.tasks[t].subject.value < |s.runners|
    ensures Progress(s, EndRemove(s, t, x, next), r)
  {
    assert WfTask(s, s.tasks[t]);
    var s1 := Delete(s, x);
    assert Progress(s, s1, r);
    if next == Register { RegisterProgress(s1, t, s.tasks[t].subject.value, r); }
  }

  lemma BeginAddProgress(s: State, t: TaskId, r: RunnerId)
    requires Inv(s) && t < |s.tasks| && s.tasks[t].pc == Adding && r < |s.runners|
    ensures AdvanceEnabled(s, t) && Progress(s, AdvanceTask(s, t), r)
  {
    assert WfTask(s, s.tasks[t]);
    RegisterProgress(s, t, s.tasks[t].subject.value, r);
  }

  lemma AdvanceProgress(s: State, t: TaskId, r: RunnerId)
    requires Inv(s) && AdvanceEnabled(s, t) && r < |s.runners|
    ensures Progress(s, AdvanceTask(s, t), r)
  {
    match s.tasks[t].pc
    case Adding => BeginAddProgress(s, t, r);
    case Removing(x, closing, next) =>
      assert WfTask(s, s.tasks[t]);
      if closing { EndRemoveProgress(s, t, x, next, r); }
    case _ => OtherProgress(s, t, r);
  }

  lemma OtherProgress(s: State, t: TaskId, r: RunnerId)
    requires Wf(s) && AdvanceEnabled(s, t) && r < |s.runners| && !s.tasks[t].pc.Adding? && !s.tasks[t].pc.Removing?
    ensures Progress(s, AdvanceTask(s, t), r)
  {
    assert WfTask(s, s.tasks[t]);
  }

  lemma ResyncProgress(s: State, t: TaskId, order: seq<ModelId>, r: RunnerId)
    requires Wf(s) && ResyncEnabled(s, t, order) && r < |s.runners|
    ensures Progress(s, Apply(s, Resync(t, order)), r)
  {
    ResyncKeepsMaps(s, t, order);
  }

  lemma DeliverProgress(s: State, l: Label, r: RunnerId)
    requires Enabled(s, l) && l.Deliver? && r < |s.runners|
    ensures Progress(s, Apply(s, l), r)
  {
    HandleEntriesFrame(s, l.data);
  }

  lemma StepProgress(s: State, l: Label, r: RunnerId)
    requires Inv(s) && r < |s.runners|
    ensures Progress(s, Apply(s, l), r)
  {
    if Enabled(s, l) {
      match l
      case Deliver(_, _) => DeliverProgress(s, l, r);
      case Resync(t, order) => ResyncProgress(s, t, order, r);
      case Advance(t) => AdvanceProgress(s, t, r);
      case InitReturns(t, o) => assert WfTask(s, s.tasks[t]); EndInitProgress(s, t, s.tasks[t].subject.value, o, r);
      case _ =>
    }
  }

  /**
   A runner leaves `models_run` exactly when its own removal completes or another runner of its model
   is published.
   */
  lemma LeavesRunExactlyWhen(s: State, l: Label, r: RunnerId)
    requires Inv(s) && Enabled(s, l) && InRun(s, r)
    ensures !InRun(Apply(s, l), r) <==>
      || (l.Advance? && s.tasks[l.task].pc.Removing? && s.tasks[l.task].pc.closing && s.tasks[l.task].pc.target == r)
      || (l.InitReturns? && l.outcome == Ready
          && s.runners[s.tasks[l.task].subject.value].modelId == s.runners[r].modelId)
  {
    match l
    case Deliver(_, data) => HandleEntriesFrame(s, data);
    case Resync(t, order) => ResyncKeepsMaps(s, t, order);
    case Advance(t) => AdvanceLeavesRun(s, t, r);
    case InitReturns(t, o) => EndInitLeavesRun(s, t, o, r);
    case _ =>
  }

  lemma AdvanceLeavesRun(s: State, t: TaskId, r: RunnerId)
    requires Wf(s) && AdvanceEnabled(s, t) && InRun(s, r)
    ensures !InRun(AdvanceTask(s, t), r) <==>
      s.tasks[t].pc.Removing? && s.tasks[t].pc.closing && s.tasks[t].pc.target == r
  {
    assert WfTask(s, s.tasks[t]);
    match s.tasks[t].pc
    case Removing(x, closing, next) => if closing { assert InRun(Delete(s, x), r) <==> x != r; }
    case _ =>
  }

  lemma EndInitLeavesRun(s: State, t: TaskId, o: InitOutcome, r: RunnerId)
    requires Inv(s) && Enabled(s, InitReturns(t, o)) && InRun(s, r)
    ensures !InRun(Apply(s, InitReturns(t, o)), r) <==>
      o == Ready && s.runners[s.tasks[t].subject.value].modelId == s.runners[r].modelId
  {
    assert WfTask(s, s.tasks[t]);
    var q := s.tasks[t].subject.value;
    assert q != r;
    assert EndInit(s, t, q, o).run == if o == Ready then s.run[s.runners[q].modelId := q] else s.run;
  }

  /**
   A runner leaves `pending_model_runs` exactly when its own init ends, its own removal completes,
   or another add that waited for a removal registers a runner of the same model over it.
   */
  lemma LeavesPendExactlyWhen(s: State, l: Label, r: RunnerId)
    requires Inv(s) && Enabled(s, l) && InPend(s, r)
    ensures !InPend(Apply(s, l), r) <==>
      || (l.InitReturns? && l.task == s.runners[r].owner)
      || (l.Advance? && s.tasks[l.task].pc.Removing? && s.tasks[l.task].pc.closing
          && (s.tasks[l.task].pc.target == r
              || (s.tasks[l.task].pc.next == Register
                  && s.runners[s.tasks[l.task].subject.value].modelId == s.runners[r].modelId)))
  {
    match l
    case Deliver(_, data) => HandleEntriesFrame(s, data);
    case Resync(t, order) => ResyncKeepsMaps(s, t, order);
    case Advance(t) => AdvanceLeavesPend(s, t, r);
    case InitReturns(t, o) => EndInitLeavesPend(s, t, o, r);
    case _ =>
  }

  lemma ResyncKeepsMaps(s: State, t: TaskId, order: seq<ModelId>)
    requires Wf(s) && ResyncEnabled(s, t, order)
    ensures var s' := Apply(s, Resync(t, order));
      s' == s.(tasks := s'.tasks) && |s'.tasks| == |s.tasks| + |order|
      && (forall u | 0 <= u < |s.tasks| && u != t :: s'.tasks[u] == s.tasks[u])
      && s'.tasks[t] == s.tasks[t].(pc := Gathering(|s.tasks|, |s.tasks| + |order|, None))
      && (forall i | 0 <= i < |order| ::
            order[i] in s.run && s'.tasks[|s.tasks| + i] == Task(None, false, Removing(s.run[order[i]], false, Return)))
      && (forall u | |s.tasks| <= u < |s'.tasks| ::
            s'.tasks[u].subject == None && s'.tasks[u].pc.Removing? && s'.tasks[u].pc.next == Return
              && !s'.tasks[u].pc.closing)
  {
    ResyncNames(s, t, order);
    SpawnRemovesTasks(s, order);
    var s' := Apply(s, Resync(t, order));
    forall u | |s.tasks| <= u < |s'.tasks|
      ensures s'.tasks[u].subject == None && s'.tasks[u].pc.Removing? && s'.tasks[u].pc.next == Return
          && !s'.tasks[u].pc.closing
    {
      assert s'.tasks[|s.tasks| + (u - |s.tasks|)]
          == Task(None, false, Removing(s.run[order[u - |s.tasks|]], false, Return));
    }
  }

  lemma EndInitLeavesPend(s: State, t: TaskId, o: InitOutcome, r: RunnerId)
    requires Inv(s) && Enabled(s, InitReturns(t, o)) && InPend(s, r)
    ensures !InPend(Apply(s, InitReturns(t, o)), r) <==> t == s.runners[r].owner
  {
    assert WfTask(s, s.tasks[t]);
    var q := s.tasks[t].subject.value;
    assert s.runners[q].owner == t && (s.runners[r].owner == t ==> q == r);
    CleanUp(s, t, q, o, r);
  }

  /** The clean-up after an init takes out the runner that was initialised, and no other. */
  lemma CleanUp(s: State, t: TaskId, q: RunnerId, o: InitOutcome, r: RunnerId)
    requires t < |s.tasks| && q < |s.runners| && InPend(s, r)
    ensures !InPend(EndInit(s, t, q, o), r) <==> q == r
  {
    EndInitShape(s, t, q, o);
  }

  /** An ended removal takes the pending place of its runner, or a waiting add takes it. */
  lemma EndRemoveLeavesPend(s: State, t: TaskId, x: RunnerId, next: Next, r: RunnerId)
    requires WfMap(s, s.pend) && t < |s.tasks| && x < |s.runners| && InPend(s, r)
    requires next == Register ==>
      s.tasks[t].subject.Some? && s.tasks[t].subject.value < |s.runners| && s.tasks[t].subject.value != r
    ensures !InPend(EndRemove(s, t, x, next), r) <==>
      x == r || (next == Register && s.runners[s.tasks[t].subject.value].modelId == s.runners[r].modelId)
  {
    var s1 := Delete(s, x);
    assert InPend(s1, r) <==> x != r;
    if next == Register {
      var q := s.tasks[t].subject.value;
      assert EndRemove(s, t, x, next).pend == s1.pend[s.runners[q].modelId := q];
    }
  }

  /** A waiting add is not yet pending itself. */
  lemma WaiterIsNotPending(s: State, t: TaskId, r: RunnerId)
    requires Inv(s) && InPend(s, r) && t < |s.tasks| && s.tasks[t].pc.Removing? && s.tasks[t].pc.next == Register
    ensures WfTask(s, s.tasks[t]) && s.tasks[t].subject.value != r
  {
    assert WfTask(s, s.tasks[t]);
    assert s.runners[s.tasks[t].subject.value].owner == t;
  }

  lemma AdvanceLeavesPend(s: State, t: TaskId, r: RunnerId)
    requires Inv(s) && AdvanceEnabled(s, t) && InPend(s, r)
    ensures !InPend(AdvanceTask(s, t), r) <==>
      s.tasks[t].pc.Removing? && s.tasks[t].pc.closing
      && (s.tasks[t].pc.target == r
          || (s.tasks[t].pc.next == Register && s.runners[s.tasks[t].subject.value].modelId == s.runners[r].modelId))
  {
    assert WfTask(s, s.tasks[t]);
    match s.tasks[t].pc
    case Removing(x, closing, next) =>
      if closing {
        if next == Register { WaiterIsNotPending(s, t, r); }
        EndRemoveLeavesPend(s, t, x, next, r);
      }
    case Adding => BeginAddLeavesPend(s, t, r);
    case _ =>
  }

  lemma BeginAddLeavesPend(s: State, t: TaskId, r: RunnerId)
    requires Wf(s) && AdvanceEnabled(s, t) && s.tasks[t].pc == Adding && InPend(s, r)
    ensures InPend(AdvanceTask(s, t), r)
  {
    assert WfTask(s, s.tasks[t]);
  }

  // ----- Whole runs -----

  /** Every pending entry belongs to an add task that is inside `init` of that very runner. */
  lemma PendingIsOwned(start: State, ls: seq<Label>, k: ModelId)
    requires Initial(start)
    ensures var s := After(start, ls); k in s.pend ==>
      && s.pend[k] < |s.runners| && s.runners[s.pend[k]].owner < |s.tasks|
      && var th := s.tasks[s.runners[s.pend[k]].owner];
      th.pc == Initializing && th.subject == Some(s.pend[k])
  {
    RunKeeps(start, ls);
  }

  /** With no task inside `init` nothing is pending, however the inits ended. */
  lemma NoInitNoPending(start: State, ls: seq<Label>)
    requires Initial(start)
    requires forall t | 0 <= t < |After(start, ls).tasks| :: After(start, ls).tasks[t].pc != Initializing
    ensures After(start, ls).pend == EMPTY
  {
    var s := After(start, ls);
    forall k ensures k !in s.pend { PendingIsOwned(start, ls, k); }
  }

  /** How often a run files runner r in `pending_model_runs`. */
  ghost function PendEntries(s: State, ls: seq<Label>, r: RunnerId): nat
    decreases |ls|
  {
    if ls == [] then 0
    else (if !InPend(s, r) && InPend(Apply(s, ls[0]), r) then 1 else 0) + PendEntries(Apply(s, ls[0]), ls[1..], r)
  }

  /** How often a run files runner r in `models_run`. */
  ghost function RunEntries(s: State, ls: seq<Label>, r: RunnerId): nat
    decreases |ls|
  {
    if ls == [] then 0
    else (if !InRun(s, r) && InRun(Apply(s, ls[0]), r) then 1 else 0) + RunEntries(Apply(s, ls[0]), ls[1..], r)
  }

  predicate Unregistered(s: State, r: RunnerId) {
    r < |s.runners| ==> s.runners[r].stage == Created
  }

  predicate Unsettled(s: State, r: RunnerId) {
    r < |s.runners| ==> !s.runners[r].stage.Settled?
  }

  lemma AdvanceBirth(s: State, t: TaskId, r: RunnerId)
    requires Wf(s) && AdvanceEnabled(s, t) && |s.runners| <= r < |AdvanceTask(s, t).runners|
    ensures AdvanceTask(s, t).runners[r].stage == Created
  {
    assert WfTask(s, s.tasks[t]);
    match s.tasks[t].pc
    case Removing(x, closing, next) =>
      if closing && next == Recreate { assert Delete(s, x).tasks == s.tasks; }
    case _ =>
  }

  lemma StepUnregistered(s: State, l: Label, r: RunnerId)
    requires Wf(s) && r >= |s.runners|
    ensures Unregistered(Apply(s, l), r)
  {
    if Enabled(s, l) {
      match l
      case Deliver(_, data) => HandleEntriesFrame(s, data);
      case Resync(t, order) => ResyncKeepsMaps(s, t, order);
      case Advance(t) => if r < |AdvanceTask(s, t).runners| { AdvanceBirth(s, t, r); }
      case InitReturns(t, o) => assert WfTask(s, s.tasks[t]);
      case _ =>
    }
  }

  /** A runner object that a step creates is in neither dictionary yet. */
  lemma StepBirth(s: State, l: Label, r: RunnerId)
    requires Inv(s) && r >= |s.runners|
    ensures Unregistered(Apply(s, l), r) && !InPend(Apply(s, l), r) && !InRun(Apply(s, l), r)
  {
    StepKeeps(s, l);
    StepUnregistered(s, l, r);
  }

  lemma {:induction false} EntersAtMostOnce(s: State, ls: seq<Label>, r: RunnerId)
    requires Inv(s)
    ensures PendEntries(s, ls, r) <= if Unregistered(s, r) then 1 else 0
    ensures RunEntries(s, ls, r) <= if Unsettled(s, r) then 1 else 0
    decreases |ls|
  {
    if ls != [] {
      var s' := Apply(s, ls[0]);
      StepKeeps(s, ls[0]);
      EntersAtMostOnce(s', ls[1..], r);
      if r < |s.runners| {
        StepProgress(s, ls[0], r);
      } else {
        StepBirth(s, ls[0], r);
      }
    }
  }

  /** A registered runner outside `pending_model_runs`, or a settled one outside `models_run`, stays outside. */
  lemma {:induction false} StaysOut(s: State, ls: seq<Label>, r: RunnerId)
    requires Inv(s) && r < |s.runners|
    ensures s.runners[r].stage != Created && !InPend(s, r) ==> !InPend(After(s, ls), r)
    ensures s.runners[r].stage.Settled? && !InRun(s, r) ==> !InRun(After(s, ls), r)
    ensures r < |After(s, ls).runners| && (s.runners[r].stage.Settled? ==> After(s, ls).runners[r].stage.Settled?)
    ensures s.runners[r].stage != Created ==> After(s, ls).runners[r].stage != Created
    decreases |ls|
  {
    if ls != [] {
      StepKeeps(s, ls[0]);
      StepProgress(s, ls[0], r);
      StaysOut(Apply(s, ls[0]), ls[1..], r);
    }
  }

  /**
   One-way lifecycle. Over every run each runner enters each dictionary at most once, is never in
   both, once published is never pending again, and once it has left one it never comes back.
   */
  lemma OneWay(start: State, before: seq<Label>, between: seq<Label>, after: seq<Label>, r: RunnerId)
    requires Initial(start)
    ensures PendEntries(start, before + between + after, r) <= 1
    ensures RunEntries(start, before + between + after, r) <= 1
    ensures var s0 := After(start, before);
      var s1 := After(s0, between);
      var s2 := After(s1, after);
      && !(InPend(s0, r) && InRun(s0, r))
      && (InRun(s0, r) ==> !InPend(s1, r))
      && (InPend(s0, r) && !InPend(s1, r) ==> !InPend(s2, r))
      && (InRun(s0, r) && !InRun(s1, r) ==> !InRun(s2, r))
  {
    EntersAtMostOnce(start, before + between + after, r);
    var s0 := After(start, before);
    RunKeeps(start, before);
    RunKeeps(s0, between);
    if r < |s0.runners| {
      StaysOut(s0, between, r);
      StaysOut(After(s0, between), after, r);
    }
  }

  // ----- One verdict per add -----

  function ReportsBy(reports: seq<Report>, t: TaskId): seq<Report> {
    if reports == [] then []
    else
      var n := |reports| - 1;
      ReportsBy(reports[..n], t) + (if reports[n].sender == t then [reports[n]] else [])
  }

  /** The code an add must report for a verdict, if any. */
  function Verdict(o: InitOutcome): Option<FailureCode> {
    match o
    case Ready => None
    case Raised => None
    case Refused(error) => CodeFor(error)
  }

  function Expected(s: State, t: TaskId, r: RunnerId, code: FailureCode): seq<Report>
    requires r < |s.runners|
  {
    if s.reportFailure then [Report(t, s.runners[r].modelId, code, None, s.runners[r].ip)] else []
  }

  /** What task t has reported so far fits the verdict on the runner it adds. */
  ghost predicate Accounted(s: State, t: TaskId)
    requires t < |s.tasks|
  {
    var th := s.tasks[t];
    var mine := ReportsBy(s.submitted, t);
    match th.subject
    case None => th.pc.Removing? && th.pc.next == Recreate ==> mine == []
    case Some(r) =>
      && r < |s.runners|
      && if !s.runners[r].stage.Settled? then mine == []
         else
           var o := s.runners[r].stage.outcome;
           match Verdict(o)
           case None => mine == [] && th.pc == Finished(o == Raised && !th.catches)
           case Some(code) =>
             if th.pc.Failing? then mine == [] && th.pc == Failing(r, code, None)
             else
               && mine == Expected(s, t, r, code)
               && (th.pc.Sending? ==> th.pc.culprit == r) && (th.pc.Removing? ==> th.pc.target == r)
               && (th.pc.Finished? ==> !th.pc.raised && (s.reportFailure ==> s.runners[r].removed))
  }

  ghost predicate AllAccounted(s: State) {
    && (forall i | 0 <= i < |s.submitted| :: s.submitted[i].sender < |s.tasks|)
    && (forall t | 0 <= t < |s.tasks| :: Accounted(s, t))
  }

  lemma {:induction false} NoReportsYet(reports: seq<Report>, t: TaskId)
    requires forall i | 0 <= i < |reports| :: reports[i].sender < t
    ensures ReportsBy(reports, t) == []
  {
    if reports != [] { NoReportsYet(reports[..|reports| - 1], t); }
  }

  lemma ReportsAppend(reports: seq<Report>, rep: Report, t: TaskId)
    ensures ReportsBy(reports + [rep], t) == ReportsBy(reports, t) + (if rep.sender == t then [rep] else [])
  {
    assert (reports + [rep])[..|reports|] == reports;
  }

  /** Being accounted for depends on the task, the settings and verdict of its runner, and its own reports. */
  lemma AccountedFrame(s: State, s': State, t: TaskId)
    requires t < |s.tasks| && t < |s'.tasks| && Accounted(s, t)
    requires s'.tasks[t] == s.tasks[t] && s'.reportFailure == s.reportFailure
    requires ReportsBy(s'.submitted, t) == ReportsBy(s.submitted, t)
    requires s.tasks[t].subject.Some? ==>
      var r := s.tasks[t].subject.value;
      r < |s'.runners| && SameObject(s.runners[r], s'.runners[r])
      && (s'.runners[r].stage == s.runners[r].stage || !s'.runners[r].stage.Settled?)
      && (s.runners[r].stage.Settled? ==> s'.runners[r].stage.Settled?)
    ensures Accounted(s', t)
  {}

  /** What a step leaves to a task that does not take it. */
  ghost predicate Untouched(s: State, s': State, t: TaskId)
    requires t < |s.tasks|
  {
    && t < |s'.tasks| && s'.tasks[t] == s.tasks[t] && s'.reportFailure == s.reportFailure
    && (s.tasks[t].subject.Some? ==>
          var r := s.tasks[t].subject.value;
          r < |s.runners| && r < |s'.runners| && SameObject(s.runners[r], s'.runners[r])
          && s'.runners[r].stage == s.runners[r].stage)
  }

  lemma RegisterOther(s: State, u: TaskId, q: RunnerId, t: TaskId)
    requires u < |s.tasks| && q < |s.runners| && t < |s.tasks| && t != u && WfTask(s, s.tasks[t])
    requires s.tasks[t].subject != Some(q)
    ensures Untouched(s, RegisterPending(s, u, q), t)
  {}

  lemma EndRemoveOther(s: State, u: TaskId, x: RunnerId, next: Next, t: TaskId)
    requires Inv(s) && u < |s.tasks| && s.tasks[u].pc == Removing(x, true, next) && x < |s.runners| && t < |s.tasks|
        && t != u
    ensures next == Register ==> s.tasks[u].subject.Some? && s.tasks[u].subject.value < |s.runners|
    ensures Untouched(s, EndRemove(s, u, x, next), t)
  {
    assert WfTask(s, s.tasks[u]) && WfTask(s, s.tasks[t]);
    var s1 := Delete(s, x);
    assert Untouched(s, s1, t);
    if next == Register { RegisterOther(s1, u, s.tasks[u].subject.value, t); }
  }

  /** A step of task u leaves the runner of another task where it is. */
  lemma AdvanceOther(s: State, u: TaskId, t: TaskId)
    requires Inv(s) && AdvanceEnabled(s, u) && t < |s.tasks| && t != u
    ensures Untouched(s, AdvanceTask(s, u), t)
  {
    assert WfTask(s, s.tasks[u]) && WfTask(s, s.tasks[t]);
    match s.tasks[u].pc
    case Adding => RegisterOther(s, u, s.tasks[u].subject.value, t);
    case Removing(x, closing, next) => if closing { EndRemoveOther(s, u, x, next, t); }
    case _ =>
  }

  lemma AdvanceSubmitted(s: State, u: TaskId, t: TaskId)
    requires Inv(s) && AdvanceEnabled(s, u)
    ensures var s' := AdvanceTask(s, u);
      && (s'.submitted == s.submitted
          || (|s'.submitted| == |s.submitted| + 1 && s'.submitted[..|s.submitted|] == s.submitted
            && s'.submitted[|s.submitted|].sender == u))
      && (t != u ==> ReportsBy(s'.submitted, t) == ReportsBy(s.submitted, t))
      && (s.tasks[u].pc.Failing? || s'.submitted == s.submitted)
  {
    assert WfTask(s, s.tasks[u]);
    match s.tasks[u].pc
    case Failing(x, code, reason) =>
      ReportsAppend(s.submitted, Report(u, s.runners[x].modelId, code, reason, s.runners[x].ip), t);
    case _ =>
  }

  lemma RegisterSelf(s: State, u: TaskId, r: RunnerId)
    requires u < |s.tasks| && r < |s.runners| && s.tasks[u].subject == Some(r) && ReportsBy(s.submitted, u) == []
    ensures Accounted(RegisterPending(s, u, r), u)
  {}

  lemma EndRemoveSelf(s: State, u: TaskId, x: RunnerId, next: Next)
    requires Inv(s) && u < |s.tasks| && Accounted(s, u) && s.tasks[u].pc == Removing(x, true, next) && x < |s.runners|
    ensures next == Register ==> s.tasks[u].subject.Some? && s.tasks[u].subject.value < |s.runners|
    ensures Accounted(EndRemove(s, u, x, next), u)
  {
    assert WfTask(s, s.tasks[u]);
    var s1 := Delete(s, x);
    match next
    case Register => RegisterSelf(s1, u, s.tasks[u].subject.value);
    case _ =>
  }

  lemma BeginRemoveSelf(s: State, u: TaskId, x: RunnerId, next: Next)
    requires Inv(s) && u < |s.tasks| && Accounted(s, u) && s.tasks[u].pc == Removing(x, false, next) && x < |s.runners|
    ensures Accounted(BeginRemove(s, u, x, next), u)
  {
    assert WfTask(s, s.tasks[u]);
  }

  lemma BeginFailureSelf(s: State, u: TaskId, x: RunnerId, code: FailureCode, reason: Option<string>)
    requires Inv(s) && u < |s.tasks| && Accounted(s, u) && s.tasks[u].pc == Failing(x, code, reason) && x < |s.runners|
    ensures Accounted(BeginFailure(s, u, x, code, reason), u)
  {
    ReportsAppend(s.submitted, Report(u, s.runners[x].modelId, code, reason, s.runners[x].ip), u);
  }

  lemma AdvanceSelf(s: State, u: TaskId)
    requires Inv(s) && AdvanceEnabled(s, u) && Accounted(s, u)
    ensures Accounted(AdvanceTask(s, u), u)
  {
    assert WfTask(s, s.tasks[u]);
    match s.tasks[u].pc
    case Failing(x, code, reason) => BeginFailureSelf(s, u, x, code, reason);
    case Adding => RegisterSelf(s, u, s.tasks[u].subject.value);
    case Removing(x, closing, next) =>
      if closing { EndRemoveSelf(s, u, x, next); } else { BeginRemoveSelf(s, u, x, next); }
    case _ =>
  }

  lemma EndInitOther(s: State, u: TaskId, o: InitOutcome, t: TaskId)
    requires Inv(s) && Enabled(s, InitReturns(u, o)) && t < |s.tasks| && t != u
    ensures Untouched(s, Apply(s, InitReturns(u, o)), t)
    ensures Apply(s, InitReturns(u, o)).submitted == s.submitted
  {
    assert WfTask(s, s.tasks[u]) && WfTask(s, s.tasks[t]);
    var r := s.tasks[u].subject.value;
    assert EndInit(s, u, r, o).runners == s.runners[r := s.runners[r].(stage := Settled(o))];
    assert EndInit(s, u, r, o).tasks[t] == s.tasks[t];
  }

  lemma EndInitSelf(s: State, u: TaskId, o: InitOutcome)
    requires Inv(s) && Enabled(s, InitReturns(u, o)) && Accounted(s, u)
    ensures Accounted(Apply(s, InitReturns(u, o)), u)
  {
    assert WfTask(s, s.tasks[u]);
    var r := s.tasks[u].subject.value;
    assert EndInit(s, u, r, o).runners == s.runners[r := s.runners[r].(stage := Settled(o))];
    assert EndInit(s, u, r, o).submitted == s.submitted;
  }

  lemma AdvanceSenders(s: State, u: TaskId)
    requires Inv(s) && AdvanceEnabled(s, u) && (forall i | 0 <= i < |s.submitted| :: s.submitted[i].sender < |s.tasks|)
    ensures var s' := AdvanceTask(s, u); forall i | 0 <= i < |s'.submitted| :: s'.submitted[i].sender < |s'.tasks|
  {
    AdvanceSubmitted(s, u, u);
    StepProgressTasks(s, u);
    var old1, new1 := s.submitted, AdvanceTask(s, u).submitted;
    forall i | 0 <= i < |old1| ensures new1[i] == old1[i] {
      assert new1 != old1 ==> new1[..|old1|][i] == old1[i];
    }
  }

  lemma StepSenders(s: State, l: Label)
    requires Inv(s) && (forall i | 0 <= i < |s.submitted| :: s.submitted[i].sender < |s.tasks|)
    ensures var s' := Apply(s, l); forall i | 0 <= i < |s'.submitted| :: s'.submitted[i].sender < |s'.tasks|
  {
    if Enabled(s, l) {
      match l
      case Deliver(_, data) => HandleEntriesFrame(s, data);
      case Resync(u, order) => ResyncKeepsMaps(s, u, order);
      case Advance(u) => AdvanceSenders(s, u);
      case InitReturns(u, o) => EndInitSenders(s, u, o);
      case _ =>
    }
  }

  lemma EndInitSenders(s: State, u: TaskId, o: InitOutcome)
    requires Enabled(s, InitReturns(u, o))
    ensures |Apply(s, InitReturns(u, o)).tasks| == |s.tasks| && Apply(s, InitReturns(u, o)).submitted == s.submitted
  {
    assert WfTask(s, s.tasks[u]);
    EndInitShape(s, u, s.tasks[u].subject.value, o);
  }

  lemma StepAccounts(s: State, l: Label)
    requires Inv(s) && AllAccounted(s)
    ensures AllAccounted(Apply(s, l))
  {
    StepSenders(s, l);
    if Enabled(s, l) {
      var s' := Apply(s, l);
      forall t | 0 <= t < |s'.tasks| ensures Accounted(s', t) {
        if t < |s.tasks| {
          StepAccountsOld(s, l, t);
        } else {
          NoReportsYet(s.submitted, t);
          StepAccountsNew(s, l, t);
        }
      }
    }
  }

  lemma StepProgressTasks(s: State, u: TaskId)
    requires Wf(s) && AdvanceEnabled(s, u)
    ensures |AdvanceTask(s, u).tasks| == |s.tasks|
  {
    assert WfTask(s, s.tasks[u]);
  }

  lemma StepAccountsOld(s: State, l: Label, t: TaskId)
    requires Inv(s) && Enabled(s, l) && t < |s.tasks| && Accounted(s, t)
    ensures t < |Apply(s, l).tasks| && Accounted(Apply(s, l), t)
  {
    var s' := Apply(s, l);
    match l
    case Deliver(_, data) => HandleEntriesFrame(s, data); AccountedFrame(s, s', t);
    case Resync(u, order) => ResyncAccounts(s, u, order, t);
    case Advance(u) => AdvanceAccounts(s, u, t);
    case InitReturns(u, o) => EndInitAccounts(s, u, o, t);
    case _ => AccountedFrame(s, s', t);
  }

  lemma AdvanceAccounts(s: State, u: TaskId, t: TaskId)
    requires Inv(s) && AdvanceEnabled(s, u) && t < |s.tasks| && Accounted(s, t)
    ensures t < |AdvanceTask(s, u).tasks| && Accounted(AdvanceTask(s, u), t)
  {
    StepProgressTasks(s, u);
    if t == u { AdvanceSelf(s, u); } else {
      AdvanceOther(s, u, t);
      AdvanceSubmitted(s, u, t);
      AccountedFrame(s, AdvanceTask(s, u), t);
    }
  }

  lemma EndInitAccounts(s: State, u: TaskId, o: InitOutcome, t: TaskId)
    requires Inv(s) && Enabled(s, InitReturns(u, o)) && t < |s.tasks| && Accounted(s, t)
    ensures t < |Apply(s, InitReturns(u, o)).tasks| && Accounted(Apply(s, InitReturns(u, o)), t)
  {
    EndInitTasks(s, u, o);
    if t == u { EndInitSelf(s, u, o); } else {
      EndInitOther(s, u, o, t);
      AccountedFrame(s, Apply(s, InitReturns(u, o)), t);
    }
  }

  lemma ResyncAccounts(s: State, u: TaskId, order: seq<ModelId>, t: TaskId)
    requires Inv(s) && ResyncEnabled(s, u, order) && t < |s.tasks| && Accounted(s, t)
    ensures t < |Apply(s, Resync(u, order)).tasks| && Accounted(Apply(s, Resync(u, order)), t)
  {
    ResyncKeepsMaps(s, u, order);
    assert WfTask(s, s.tasks[u]);
    if t != u { AccountedFrame(s, Apply(s, Resync(u, order)), t); }
  }

  /** A task that a step creates has reported nothing. */
  lemma StepAccountsNew(s: State, l: Label, t: TaskId)
    requires Inv(s) && Enabled(s, l) && |s.tasks| <= t < |Apply(s, l).tasks| && ReportsBy(s.submitted, t) == []
    ensures Accounted(Apply(s, l), t)
  {
    match l
    case Deliver(_, data) => DeliverAccountsNew(s, l, t);
    case Resync(u, order) =>
      ResyncKeepsMaps(s, u, order);
    case Advance(u) => StepProgressTasks(s, u);
    case InitReturns(u, o) => EndInitTasks(s, u, o);
    case _ =>
  }

  lemma EndInitTasks(s: State, u: TaskId, o: InitOutcome)
    requires Enabled(s, InitReturns(u, o))
    ensures |Apply(s, InitReturns(u, o)).tasks| == |s.tasks|
  {
    assert WfTask(s, s.tasks[u]);
  }

  lemma DeliverAccountsNew(s: State, l: Label, t: TaskId)
    requires Inv(s) && Enabled(s, l) && l.Deliver?
    requires |s.tasks| <= t < |Apply(s, l).tasks| && ReportsBy(s.submitted, t) == []
    ensures Accounted(Apply(s, l), t)
  {
    StepKeeps(s, l);
    HandleEntriesFrame(s, l.data);
    HandleEntriesTasks(s, l.data);
    var s' := Apply(s, l);
    assert s'.submitted == s.submitted;
    if s'.tasks[t].subject.Some? {
      var r := s'.tasks[t].subject.value;
      assert s'.runners[r].owner == t;
      if r < |s.runners| { assert false; }
    }
  }

  /** The tasks an event builds add a runner or remove one. */
  lemma {:induction false} HandleEntriesTasks(s: State, data: seq<ModelUpdate>)
    ensures var s' := HandleEntries(s, data);
      forall t | |s.tasks| <= t < |s'.tasks| ::
        !s'.tasks[t].catches
        && ((s'.tasks[t].pc == Adding && s'.tasks[t].subject.Some?)
            || (s'.tasks[t].pc.Removing? && s'.tasks[t].pc.next == Return && !s'.tasks[t].pc.closing
              && s'.tasks[t].subject.None?))
    decreases |data|
  {
    if data != [] {
      var s1 := HandleEntry(s, data[0]);
      HandleEntriesTasks(s1, data[1..]);
      HandleEntriesFrame(s1, data[1..]);
      HandleEntriesFrame(s, [data[0]]);
    }
  }

  lemma {:induction false} RunAccounts(s: State, ls: seq<Label>)
    requires Inv(s) && AllAccounted(s)
    ensures AllAccounted(After(s, ls))
    decreases |ls|
  {
    if ls != [] {
      StepKeeps(s, ls[0]);
      StepAccounts(s, ls[0]);
      RunAccounts(Apply(s, ls[0]), ls[1..]);
    }
  }

  /** Task t has submitted exactly one report, for runner r with this code, and has removed r. */
  ghost predicate ReportedOnce(s: State, t: TaskId, r: RunnerId, code: FailureCode) {
    && r < |s.runners| && s.runners[r].closed && s.runners[r].removed
    && ReportsBy(s.submitted, t) == [Report(t, s.runners[r].modelId, code, None, s.runners[r].ip)]
  }

  /**
   One verdict per add. When a task that adds runner r has ended, in any run: r has one verdict; a raised
   init is the only way the task raises; a ready, raised or aborted init is reported nowhere; any other
   one is reported by this task exactly once, with the code for its error, and r is removed; with
   reporting off nothing is reported.
   */
  lemma OneVerdictPerAdd(start: State, ls: seq<Label>, t: TaskId, r: RunnerId)
    requires Initial(start)
    requires t < |After(start, ls).tasks|
    requires After(start, ls).tasks[t].subject == Some(r) && After(start, ls).tasks[t].pc.Finished?
    ensures var s := After(start, ls);
      && r < |s.runners| && s.runners[r].stage.Settled?
      && var o := s.runners[r].stage.outcome;
      && (s.tasks[t].pc.raised <==> o == Raised && !s.tasks[t].catches)
      && (!s.reportFailure || o == Ready || o == Raised || o == Refused(Aborted) ==> ReportsBy(s.submitted, t) == [])
      && (s.reportFailure && o == Refused(BadImplementation) ==> ReportedOnce(s, t, r, CodeBadImplementation))
      && (s.reportFailure && o == Refused(GrpcConnectionFailed) ==> ReportedOnce(s, t, r, CodeConnectionFailed))
      && (s.reportFailure && o == Refused(AuthError) ==> ReportedOnce(s, t, r, CodeConnectionFailed))
      && (s.reportFailure && o == Refused(Failed) ==> ReportedOnce(s, t, r, CodeMultipleFailed))
  {
    RunKeeps(start, ls);
    RunAccounts(start, ls);
    EndedIsSettled(After(start, ls), t, r);
    VerdictReports(After(start, ls), t, r);
  }

  lemma EndedIsSettled(s: State, t: TaskId, r: RunnerId)
    requires Inv(s) && t < |s.tasks| && s.tasks[t].subject == Some(r) && s.tasks[t].pc.Finished?
    ensures r < |s.runners| && s.runners[r].stage.Settled? && (s.runners[r].removed ==> s.runners[r].closed)
  {
    assert s.runners[r].owner == t;
  }

  lemma VerdictReports(s: State, t: TaskId, r: RunnerId)
    requires t < |s.tasks| && s.tasks[t].subject == Some(r) && s.tasks[t].pc.Finished? && Accounted(s, t)
    requires r < |s.runners| && s.runners[r].stage.Settled? && (s.runners[r].removed ==> s.runners[r].closed)
    ensures var o := s.runners[r].stage.outcome;
      && (s.tasks[t].pc.raised <==> o == Raised && !s.tasks[t].catches)
      && (!s.reportFailure || o == Ready || o == Raised || o == Refused(Aborted) ==> ReportsBy(s.submitted, t) == [])
      && (s.reportFailure && o == Refused(BadImplementation) ==> ReportedOnce(s, t, r, CodeBadImplementation))
      && (s.reportFailure && o == Refused(GrpcConnectionFailed) ==> ReportedOnce(s, t, r, CodeConnectionFailed))
      && (s.reportFailure && o == Refused(AuthError) ==> ReportedOnce(s, t, r, CodeConnectionFailed))
      && (s.reportFailure && o == Refused(Failed) ==> ReportedOnce(s, t, r, CodeMultipleFailed))
  {}

  // ----- One report per failure task -----

  /** Task t runs `process_failure` for runner x, and has reported what fits its progress. */
  ghost predicate ReportsFailure(s: State, t: TaskId, x: RunnerId, code: FailureCode, reason: Option<string>) {
    && t < |s.tasks| && x < |s.runners| && s.tasks[t].subject == None
    && var mine := ReportsBy(s.submitted, t);
    var due := [Report(t, s.runners[x].modelId, code, reason, s.runners[x].ip)];
    match s.tasks[t].pc
    case Failing(y, c, r) => y == x && c == code && r == reason && mine == []
    case Sending(y) => y == x && s.reportFailure && mine == due
    case Removing(y, _, next) => y == x && next == Return && s.reportFailure && mine == due
    case Finished(raised) => !raised && (if s.reportFailure then mine == due && s.runners[x].removed else mine == [])
    case _ => false
  }

  lemma FailureFrame(s: State, s': State, t: TaskId, x: RunnerId, code: FailureCode, reason: Option<string>)
    requires ReportsFailure(s, t, x, code, reason)
    requires t < |s'.tasks| && s'.tasks[t] == s.tasks[t] && s'.reportFailure == s.reportFailure
    requires x < |s'.runners| && SameObject(s.runners[x], s'.runners[x])
    requires ReportsBy(s'.submitted, t) == ReportsBy(s.submitted, t)
    ensures ReportsFailure(s', t, x, code, reason)
  {}

  /** The failure task itself goes on. */
  lemma FailureMoves(s: State, t: TaskId, x: RunnerId, code: FailureCode, reason: Option<string>)
    requires Wf(s) && ReportsFailure(s, t, x, code, reason) && AdvanceEnabled(s, t)
    ensures ReportsFailure(AdvanceTask(s, t), t, x, code, reason)
  {
    match s.tasks[t].pc
    case Failing(_, _, _) =>
      ReportsAppend(s.submitted, Report(t, s.runners[x].modelId, code, reason, s.runners[x].ip), t);
    case _ =>
  }

  lemma AdvanceReportsFailure(s: State, u: TaskId, t: TaskId, x: RunnerId, code: FailureCode, reason: Option<string>)
    requires Inv(s) && ReportsFailure(s, t, x, code, reason) && AdvanceEnabled(s, u)
    ensures ReportsFailure(AdvanceTask(s, u), t, x, code, reason)
  {
    if u == t {
      FailureMoves(s, t, x, code, reason);
    } else {
      AdvanceOther(s, u, t);
      AdvanceSubmitted(s, u, t);
      AdvanceProgress(s, u, x);
      FailureFrame(s, AdvanceTask(s, u), t, x, code, reason);
    }
  }

  lemma StepReportsFailure(s: State, l: Label, t: TaskId, x: RunnerId, code: FailureCode, reason: Option<string>)
    requires Inv(s) && ReportsFailure(s, t, x, code, reason)
    ensures ReportsFailure(Apply(s, l), t, x, code, reason)
  {
    if Enabled(s, l) {
      match l
      case Advance(u) => AdvanceReportsFailure(s, u, t, x, code, reason);
      case _ =>
        StepProgress(s, l, x);
        StepLeaves(s, l, t);
        FailureFrame(s, Apply(s, l), t, x, code, reason);
    }
  }

  /** Steps other than Advance leave alone a task that is neither in an init nor waiting for others. */
  lemma StepLeaves(s: State, l: Label, t: TaskId)
    requires Inv(s) && Enabled(s, l) && !l.Advance? && t < |s.tasks|
    requires s.tasks[t].pc != Initializing && !s.tasks[t].pc.Gathering?
    ensures var s' := Apply(s, l);
      t < |s'.tasks| && s'.tasks[t] == s.tasks[t] && s'.reportFailure == s.reportFailure && s'.submitted == s.submitted
  {
    match l
    case Deliver(_, data) => HandleEntriesFrame(s, data);
    case Resync(u, order) => ResyncKeepsMaps(s, u, order);
    case InitReturns(u, o) => EndInitTasks(s, u, o); EndInitOther(s, u, o, t);
    case _ =>
  }

  lemma {:induction false} RunReportsFailure(s: State, ls: seq<Label>, t: TaskId, x: RunnerId, code: FailureCode,
                                             reason: Option<string>)
    requires Inv(s) && ReportsFailure(s, t, x, code, reason)
    ensures ReportsFailure(After(s, ls), t, x, code, reason)
    decreases |ls|
  {
    if ls != [] {
      StepKeeps(s, ls[0]);
      StepReportsFailure(s, ls[0], t, x, code, reason);
      RunReportsFailure(Apply(s, ls[0]), ls[1..], t, x, code, reason);
    }
  }

  /**
   One report per failure task, in any run. A failure task that has ended has not raised; with reporting
   on it has submitted exactly one report, with the model and address of its runner and the code and
   reason it was started with, and the removal of the runner has completed; with reporting off it has
   submitted none.
   */
  lemma OneReportPerFailure(start: State, before: seq<Label>, x: RunnerId, code: FailureCode, reason: Option<string>,
                            after: seq<Label>)
    requires Initial(start) && x < |After(start, before).runners|
    ensures var t := |After(start, before).tasks|;
      var s := After(Apply(After(start, before), SpawnFailure(x, code, reason)), after);
      && t < |s.tasks| && x < |s.runners|
      && (s.tasks[t].pc.Finished? ==>
            && !s.tasks[t].pc.raised
            && ReportsBy(s.submitted, t) == (
                 if s.reportFailure
                 then [Report(t, s.runners[x].modelId, code, reason, s.runners[x].ip)] else [])
            && (s.reportFailure ==> s.runners[x].closed && s.runners[x].removed))
  {
    var s0 := After(start, before);
    var s1 := Apply(s0, SpawnFailure(x, code, reason));
    RunKeeps(start, before);
    RunAccounts(start, before);
    NoReportsYet(s0.submitted, |s0.tasks|);
    StepKeeps(s0, SpawnFailure(x, code, reason));
    assert ReportsFailure(s1, |s0.tasks|, x, code, reason);
    RunReportsFailure(s1, after, |s0.tasks|, x, code, reason);
    RunKeeps(s1, after);
  }

  // ----- A reconnect keeps its exceptions to itself -----

  ghost predicate Swallows(s: State, t: TaskId) {
    t < |s.tasks| && s.tasks[t].catches && s.tasks[t].pc != Finished(true) && !s.tasks[t].pc.Gathering?
  }

  lemma AdvanceSwallows(s: State, u: TaskId, t: TaskId)
    requires Inv(s) && Swallows(s, t) && AdvanceEnabled(s, u)
    ensures Swallows(AdvanceTask(s, u), t)
  {
    if u == t {
      assert WfTask(s, s.tasks[t]);
      match s.tasks[t].pc
      case Removing(x, closing, next) => if closing { assert Delete(s, x).tasks == s.tasks; }
      case _ =>
    } else {
      AdvanceOther(s, u, t);
    }
  }

  lemma EndInitSwallows(s: State, u: TaskId, o: InitOutcome, t: TaskId)
    requires Enabled(s, InitReturns(u, o)) && Swallows(s, t)
    ensures Swallows(Apply(s, InitReturns(u, o)), t)
  {
    assert WfTask(s, s.tasks[u]);
    EndInitShape(s, u, s.tasks[u].subject.value, o);
  }

  lemma StepSwallows(s: State, l: Label, t: TaskId)
    requires Inv(s) && Swallows(s, t)
    ensures Swallows(Apply(s, l), t)
  {
    if Enabled(s, l) {
      match l
      case Deliver(_, data) => HandleEntriesFrame(s, data);
      case Resync(u, order) => ResyncKeepsMaps(s, u, order);
      case Advance(u) => AdvanceSwallows(s, u, t);
      case InitReturns(u, o) => EndInitSwallows(s, u, o, t);
      case _ =>
    }
  }

  lemma {:induction false} RunSwallows(s: State, ls: seq<Label>, t: TaskId)
    requires Inv(s) && Swallows(s, t)
    ensures Swallows(After(s, ls), t)
    decreases |ls|
  {
    if ls != [] {
      StepKeeps(s, ls[0]);
      StepSwallows(s, ls[0], t);
      RunSwallows(Apply(s, ls[0]), ls[1..], t);
    }
  }

  /** In any run a reconnect does not raise, whatever the init of its new runner does. */
  lemma ReconnectNeverRaises(start: State, before: seq<Label>, x: RunnerId, after: seq<Label>)
    requires Initial(start) && x < |After(start, before).runners|
    ensures var t := |After(start, before).tasks|;
      var s := After(Apply(After(start, before), SpawnReconnect(x)), after);
      t < |s.tasks| && s.tasks[t].pc != Finished(true)
  {
    var s0 := After(start, before);
    RunKeeps(start, before);
    StepKeeps(s0, SpawnReconnect(x));
    assert Swallows(Apply(s0, SpawnReconnect(x)), |s0.tasks|);
    RunSwallows(Apply(s0, SpawnReconnect(x)), after, |s0.tasks|);
  }
}
