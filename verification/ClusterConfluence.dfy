/**
 What one event leaves behind when nothing else is running: a plain fold over its entries, whatever
 the order in which its tasks are scheduled.

 The proof reads off every state the table it is heading for (its promise) and shows that no step
 of any task changes that promise.
 */
module ClusterConfluence {
  import opened Common
  import opened ClusterSteps
  import opened ClusterInvariant
  import opened ClusterLifecycle
  import opened ClusterSafety
  import opened ClusterRuns

  /** How the init of each runner ends, fixed in advance. */
  type Outcomes = RunnerId -> InitOutcome

  /** Steps of running tasks, with the given init outcomes; no new event and no background task. */
  ghost predicate Internal(s: State, l: Label, out: Outcomes) {
    match l
    case Advance(_) => true
    case Resync(_, _) => true
    case InitReturns(t, o) => Enabled(s, l) ==> WfTask(s, s.tasks[t]) && o == out(s.tasks[t].subject.value)
    case _ => false
  }

  ghost predicate Settling(s: State, ls: seq<Label>, out: Outcomes)
    decreases |ls|
  {
    ls != [] ==> Internal(s, ls[0], out) && Settling(Apply(s, ls[0]), ls[1..], out)
  }

  // ----- The promise of a state -----

  /** Some task is going to remove x. */
  ghost predicate Doomed(s: State, x: RunnerId) {
    exists t: TaskId :: t < |s.tasks| && s.tasks[t].pc.Removing? && s.tasks[t].pc.target == x
  }

  /** Task c has raised, or will once its init ends. */
  ghost predicate WillRaise(s: State, out: Outcomes, c: TaskId) {
    c < |s.tasks| && (s.tasks[c].pc == Finished(true) || (!s.tasks[c].catches && Adds(s, s.tasks[c].subject, out)))
  }

  /** The init of this runner is still to come, and is going to raise. */
  predicate Adds(s: State, subject: Option<RunnerId>, out: Outcomes) {
    && subject.Some? && subject.value < |s.runners| && !s.runners[subject.value].stage.Settled?
    && out(subject.value) == Raised
  }

  ghost predicate SomeWillRaise(s: State, out: Outcomes, lo: TaskId, hi: TaskId) {
    exists c: TaskId :: lo <= c < hi && WillRaise(s, out, c)
  }

  /** An init event is going to remove whatever model k runs. */
  ghost predicate Dropped(s: State, out: Outcomes, k: ModelId) {
    exists t: TaskId :: Drops(s, out, t, k)
  }

  /** Task t handles an init event that does not name k, and the tasks it gathers are going to return. */
  ghost predicate Drops(s: State, out: Outcomes, t: TaskId, k: ModelId) {
    t < |s.tasks| && WillDrop(s.tasks[t].pc, k) && !SomeWillRaise(s, out, s.tasks[t].pc.lo, s.tasks[t].pc.hi)
  }

  predicate WillDrop(pc: Pc, k: ModelId) {
    pc.Gathering? && pc.resync.Some? && k !in pc.resync.value
  }

  /** Runner r is being added to model k. */
  predicate AddedTo(s: State, r: RunnerId, k: ModelId) {
    r < |s.runners| && !s.runners[r].stage.Settled? && s.runners[r].modelId == k
  }

  /** The entry v of model k that the running tasks will leave behind. */
  ghost predicate Promises(s: State, out: Outcomes, k: ModelId, v: Option<RunnerId>) {
    && (forall r | 0 <= r < |s.runners| && AddedTo(s, r, k) :: v == if out(r) == Ready then Some(r) else None)
    && ((forall r | 0 <= r < |s.runners| :: !AddedTo(s, r, k)) ==>
          v == if k in s.run && !Doomed(s, s.run[k]) && !Dropped(s, out, k) then Some(s.run[k]) else None)
  }

  ghost predicate PromisesAll(s: State, out: Outcomes, plan: map<ModelId, RunnerId>) {
    forall k: ModelId :: Promises(s, out, k, Lookup(plan, k))
  }

  /** Only one runner per model is being added, and no task aims at it; nothing recreates runners. */
  ghost predicate Orderly(s: State) {
    && Exclusive(s)
    && OneAdding(s)
    && (forall r | 0 <= r < |s.runners| && s.runners[r].removed :: s.runners[r].stage.Settled?)
    && (forall t | 0 <= t < |s.tasks| :: OrderlyTask(s, s.tasks[t].pc))
  }

  ghost predicate OneAdding(s: State) {
    forall r, q | 0 <= r < |s.runners| && 0 <= q < |s.runners| && !s.runners[r].stage.Settled?
        && !s.runners[q].stage.Settled?
      && s.runners[r].modelId == s.runners[q].modelId :: r == q
  }

  ghost predicate OrderlyTask(s: State, pc: Pc) {
    match pc
    case Removing(x, _, next) => x < |s.runners| && s.runners[x].stage.Settled? && next != Recreate
    case Failing(x, _, _) => x < |s.runners| && FailedInit(s.runners[x].stage)
    case Sending(x) => x < |s.runners| && FailedInit(s.runners[x].stage)
    case Gathering(lo, hi, resync) =>
      resync.Some? ==>
        && (forall r | 0 <= r < |s.runners| && !s.runners[r].stage.Settled? :: s.runners[r].modelId in resync.value)
        && Flat(s, lo, hi)
    case _ => true
  }

  /** None of these tasks gathers others. */
  ghost predicate Flat(s: State, lo: TaskId, hi: TaskId) {
    hi <= |s.tasks| && forall c | lo <= c < hi :: !s.tasks[c].pc.Gathering?
  }

  predicate FailedInit(stage: Stage) {
    stage.Settled? && stage.outcome != Ready
  }

  // ----- No step changes the promise -----

  /** In an orderly state the assumptions H1 and H2 hold of every step of a task. */
  lemma OrderlyDisciplined(s: State, out: Outcomes, l: Label)
    requires Orderly(s) && Internal(s, l, out)
    ensures OneAddAtATime(s, l) && NoInitAfterRemoval(s, l)
  {
    if Enabled(s, l) {
      match l
      case Advance(t) =>
        if s.tasks[t].pc == Adding {
          assert WfTask(s, s.tasks[t]);
          forall u | 0 <= u < |s.tasks| && InWindow(s, u)
            ensures WfTask(s, s.tasks[u]) && ModelOf(s, u) != ModelOf(s, t)
          {
            assert WfTask(s, s.tasks[u]);
          }
        }
      case InitReturns(t, o) => assert WfTask(s, s.tasks[t]);
      case _ =>
    }
  }

  /** A state that differs in nothing the promise of model k depends on. */
  lemma SamePromise(s: State, s': State, out: Outcomes, k: ModelId, v: Option<RunnerId>)
    requires Promises(s, out, k, v) && |s'.runners| == |s.runners|
    requires forall r | 0 <= r < |s.runners| :: AddedTo(s, r, k) <==> AddedTo(s', r, k)
    requires Lookup(s'.run, k) == Lookup(s.run, k)
    requires k in s.run ==> (Doomed(s, s.run[k]) <==> Doomed(s', s.run[k]))
    requires Dropped(s, out, k) <==> Dropped(s', out, k)
    ensures Promises(s', out, k, v)
  {
    assert k in s.run <==> k in s'.run;
    if k in s.run { assert s.run[k] == s'.run[k]; }
  }

  /** While a runner is being added to k, the promise of k depends on that runner alone. */
  lemma AddedPromise(s: State, s': State, out: Outcomes, k: ModelId, v: Option<RunnerId>, r: RunnerId)
    requires Promises(s, out, k, v) && |s'.runners| == |s.runners| && AddedTo(s, r, k)
    requires forall q | 0 <= q < |s.runners| :: AddedTo(s, q, k) <==> AddedTo(s', q, k)
    ensures Promises(s', out, k, v)
  {}

  /** Moving one task changes who is doomed only through that task. */
  lemma MovedTask(s: State, s': State, t: TaskId, x: RunnerId)
    requires t < |s.tasks| && |s'.tasks| == |s.tasks|
    requires forall u | 0 <= u < |s.tasks| && u != t :: s'.tasks[u] == s.tasks[u]
    requires s.tasks[t].pc.Removing? && s.tasks[t].pc.target == x
      <==> s'.tasks[t].pc.Removing? && s'.tasks[t].pc.target == x
    ensures Doomed(s, x) <==> Doomed(s', x)
  {
    if Doomed(s, x) {
      var u: TaskId :| u < |s.tasks| && s.tasks[u].pc.Removing? && s.tasks[u].pc.target == x;
      assert u != t ==> s'.tasks[u] == s.tasks[u];
    }
    if Doomed(s', x) {
      var u: TaskId :| u < |s'.tasks| && s'.tasks[u].pc.Removing? && s'.tasks[u].pc.target == x;
      assert u != t ==> s'.tasks[u] == s.tasks[u];
    }
  }

  // ----- Who is going to raise -----

  /** The step leaves open, and leaves decided, whether any task but a gathering one raises. */
  ghost predicate KeepsRaises(s: State, s': State, out: Outcomes) {
    && |s'.tasks| >= |s.tasks|
    && forall c: TaskId | c < |s.tasks| && !s.tasks[c].pc.Gathering? :: WillRaise(s, out, c) <==> WillRaise(s', out, c)
  }

  lemma SameRaises(s: State, s': State, out: Outcomes, lo: TaskId, hi: TaskId)
    requires KeepsRaises(s, s', out) && Flat(s, lo, hi)
    ensures SomeWillRaise(s, out, lo, hi) <==> SomeWillRaise(s', out, lo, hi)
  {
    if SomeWillRaise(s, out, lo, hi) {
      var c: TaskId :| lo <= c < hi && WillRaise(s, out, c);
      assert WillRaise(s', out, c);
    }
    if SomeWillRaise(s', out, lo, hi) {
      var c: TaskId :| lo <= c < hi && WillRaise(s', out, c);
      assert WillRaise(s, out, c);
    }
  }

  /** A task that did not move drops what it dropped. */
  lemma SameDrops(s: State, s': State, out: Outcomes, u: TaskId, k: ModelId)
    requires KeepsRaises(s, s', out) && u < |s.tasks| && OrderlyTask(s, s.tasks[u].pc) && s'.tasks[u] == s.tasks[u]
    ensures Drops(s, out, u, k) <==> Drops(s', out, u, k)
  {
    if WillDrop(s.tasks[u].pc, k) { SameRaises(s, s', out, s.tasks[u].pc.lo, s.tasks[u].pc.hi); }
  }

  /** Moving a task that drops nothing. */
  lemma MovedDrops(s: State, s': State, out: Outcomes, t: TaskId, k: ModelId)
    requires t < |s.tasks| && |s'.tasks| == |s.tasks| && KeepsRaises(s, s', out)
    requires forall u | 0 <= u < |s.tasks| :: OrderlyTask(s, s.tasks[u].pc) && (u != t ==> s'.tasks[u] == s.tasks[u])
    requires !Drops(s, out, t, k) && !s'.tasks[t].pc.Gathering?
    ensures Dropped(s, out, k) <==> Dropped(s', out, k)
  {
    if u: TaskId :| Drops(s, out, u, k) { SameDrops(s, s', out, u, k); }
    if u: TaskId :| Drops(s', out, u, k) { SameDrops(s, s', out, u, k); }
  }

  /** A task moves and settles no runner. */
  lemma MovedRaises(s: State, s': State, out: Outcomes, t: TaskId)
    requires t < |s.tasks| && |s'.tasks| == |s.tasks| && s'.tasks == s.tasks[t := s.tasks[t].(pc := s'.tasks[t].pc)]
    requires |s'.runners| == |s.runners|
    requires forall q | 0 <= q < |s.runners| :: s'.runners[q].stage.Settled? <==> s.runners[q].stage.Settled?
    requires s.tasks[t].pc.Gathering? || (s.tasks[t].pc != Finished(true) && s'.tasks[t].pc != Finished(true))
    ensures KeepsRaises(s, s', out)
  {}

  lemma EndRemoveMoves(s: State, t: TaskId, x: RunnerId, next: Next)
    requires t < |s.tasks| && x < |s.runners| && next != Recreate
    requires next == Register ==>
      && s.tasks[t].subject.Some? && s.tasks[t].subject.value < |s.runners|
      && s.runners[s.tasks[t].subject.value].stage == Created
    ensures var s' := EndRemove(s, t, x, next);
      && s'.tasks == s.tasks[t := s.tasks[t].(pc := if next == Return then Finished(false) else Initializing)]
      && |s'.runners| == |s.runners|
      && forall q | 0 <= q < |s.runners| :: s'.runners[q].stage.Settled? <==> s.runners[q].stage.Settled?
  {
    assert Delete(s, x).tasks == s.tasks;
  }

  /** Task t has still to register the runner it adds. */
  predicate ToRegister(s: State, t: TaskId) {
    t < |s.tasks| && (s.tasks[t].pc.Adding? || (s.tasks[t].pc.Removing? && s.tasks[t].pc.next == Register))
  }

  lemma ToRegisterIsCreated(s: State, t: TaskId)
    requires Inv(s) && t < |s.tasks|
    ensures WfTask(s, s.tasks[t])
    ensures ToRegister(s, t) ==> s.runners[s.tasks[t].subject.value].stage == Created
  {
    assert WfTask(s, s.tasks[t]);
    if ToRegister(s, t) { assert s.runners[s.tasks[t].subject.value].owner == t; }
  }

  predicate Recreates(pc: Pc) {
    pc.Removing? && pc.next == Recreate
  }

  /** Advancing moves one task, which does not gather afterwards, and settles nobody. */
  lemma AdvanceShape(s: State, t: TaskId)
    requires Wf(s) && AdvanceEnabled(s, t) && WfTask(s, s.tasks[t]) && !Recreates(s.tasks[t].pc)
    requires ToRegister(s, t) ==> s.runners[s.tasks[t].subject.value].stage == Created
    ensures var s' := AdvanceTask(s, t);
      && |s'.tasks| == |s.tasks| && s'.tasks == s.tasks[t := s.tasks[t].(pc := s'.tasks[t].pc)]
      && |s'.runners| == |s.runners|
      && (forall q | 0 <= q < |s.runners| :: s'.runners[q].stage.Settled? <==> s.runners[q].stage.Settled?)
      && !s'.tasks[t].pc.Gathering? && !Recreates(s'.tasks[t].pc)
      && (s.tasks[t].pc.Gathering? || s'.tasks[t].pc != Finished(true))
  {
    match s.tasks[t].pc
    case Removing(x, closing, next) => if closing { EndRemoveMoves(s, t, x, next); }
    case _ =>
  }

  lemma AdvanceRaises(s: State, out: Outcomes, t: TaskId)
    requires Inv(s) && AdvanceEnabled(s, t) && !Recreates(s.tasks[t].pc)
    ensures KeepsRaises(s, AdvanceTask(s, t), out)
    ensures |AdvanceTask(s, t).tasks| == |s.tasks| && |AdvanceTask(s, t).runners| == |s.runners|
    ensures !AdvanceTask(s, t).tasks[t].pc.Gathering? && !Recreates(AdvanceTask(s, t).tasks[t].pc)
    ensures forall u | 0 <= u < |s.tasks| && u != t :: AdvanceTask(s, t).tasks[u] == s.tasks[u]
  {
    ToRegisterIsCreated(s, t);
    AdvanceShape(s, t);
    MovedRaises(s, AdvanceTask(s, t), out, t);
  }

  /** A handler that goes on without its resync does so because a gathered task raised. */
  lemma RaisedDropsNothing(s: State, out: Outcomes, t: TaskId, k: ModelId)
    requires Wf(s) && AdvanceEnabled(s, t)
    ensures !Drops(s, out, t, k)
  {
    if WillDrop(s.tasks[t].pc, k) {
      var c :| s.tasks[t].pc.lo <= c < s.tasks[t].pc.hi && c < |s.tasks| && s.tasks[c].pc == Finished(true);
      assert WillRaise(s, out, c);
    }
  }

  lemma AdvanceDrops(s: State, out: Outcomes, t: TaskId, k: ModelId)
    requires Inv(s) && AdvanceEnabled(s, t) && forall u | 0 <= u < |s.tasks| :: OrderlyTask(s, s.tasks[u].pc)
    ensures Dropped(s, out, k) <==> Dropped(AdvanceTask(s, t), out, k)
  {
    assert OrderlyTask(s, s.tasks[t].pc);
    AdvanceRaises(s, out, t);
    RaisedDropsNothing(s, out, t, k);
    MovedDrops(s, AdvanceTask(s, t), out, t, k);
  }

  lemma EndInitRaises(s: State, out: Outcomes, t: TaskId, r: RunnerId, s': State)
    requires Inv(s) && t < |s.tasks| && s.tasks[t].pc == Initializing && s.tasks[t].subject == Some(r)
        && r < |s.runners|
    requires s' == EndInit(s, t, r, out(r))
    ensures KeepsRaises(s, s', out)
  {
    EndInitShape(s, t, r, out(r));
    assert s.runners[r].stage == Registered;
    forall c: TaskId | c < |s.tasks| && !s.tasks[c].pc.Gathering?
      ensures WillRaise(s, out, c) <==> WillRaise(s', out, c)
    {
      assert c != t ==> s'.tasks[c] == s.tasks[c] && s.tasks[c].subject != Some(r);
    }
  }

  lemma EndInitDrops(s: State, out: Outcomes, t: TaskId, r: RunnerId, s': State, k: ModelId)
    requires Inv(s) && t < |s.tasks| && s.tasks[t].pc == Initializing && s.tasks[t].subject == Some(r)
        && r < |s.runners|
    requires s' == EndInit(s, t, r, out(r)) && forall u | 0 <= u < |s.tasks| :: OrderlyTask(s, s.tasks[u].pc)
    ensures Dropped(s, out, k) <==> Dropped(s', out, k)
  {
    EndInitRaises(s, out, t, r, s');
    EndInitSummary(s, t, r, out(r));
    MovedDrops(s, s', out, t, k);
  }

  // ----- No step changes the promise, task by task -----

  /** An add task on its way to registering: its model is promised to its runner all along. */
  lemma AddStepPromise(s: State, out: Outcomes, t: TaskId, r: RunnerId, s': State, k: ModelId, v: Option<RunnerId>)
    requires WfMap(s, s.run) && Promises(s, out, k, v)
    requires t < |s.tasks| && s.tasks[t].subject == Some(r) && r < |s.runners| && !s.runners[r].stage.Settled?
    requires |s'.tasks| == |s.tasks| && s'.tasks == s.tasks[t := s'.tasks[t]] && |s'.runners| == |s.runners|
    requires forall q | 0 <= q < |s.runners| ::
               s'.runners[q].modelId == s.runners[q].modelId
                 && (s'.runners[q].stage.Settled? <==> s.runners[q].stage.Settled?)
    requires forall j | j != s.runners[r].modelId :: Lookup(s'.run, j) == Lookup(s.run, j)
    requires Dropped(s, out, k) <==> Dropped(s', out, k)
    requires s.tasks[t].pc.Removing? ==>
        s.tasks[t].pc.target < |s.runners| && s.runners[s.tasks[t].pc.target].modelId == s.runners[r].modelId
    requires s'.tasks[t].pc.Removing? ==>
        s'.tasks[t].pc.target < |s.runners| && s.runners[s'.tasks[t].pc.target].modelId == s.runners[r].modelId
    ensures Promises(s', out, k, v)
  {
    forall q | 0 <= q < |s.runners| ensures AddedTo(s, q, k) <==> AddedTo(s', q, k) {}
    if k == s.runners[r].modelId {
      AddedPromise(s, s', out, k, v, r);
    } else {
      if k in s.run { MovedTask(s, s', t, s.run[k]); }
      SamePromise(s, s', out, k, v);
    }
  }

  /** A task that is neither adding a runner nor about to settle one, and keeps its aim. */
  lemma NeutralStepPromise(s: State, out: Outcomes, t: TaskId, s': State, k: ModelId, v: Option<RunnerId>)
    requires Promises(s, out, k, v) && t < |s.tasks| && |s'.tasks| == |s.tasks| && |s'.runners| == |s.runners|
    requires forall u | 0 <= u < |s.tasks| && u != t :: s'.tasks[u] == s.tasks[u]
    requires forall q | 0 <= q < |s.runners| ::
               s'.runners[q].modelId == s.runners[q].modelId
                 && (s'.runners[q].stage.Settled? <==> s.runners[q].stage.Settled?)
    requires Lookup(s'.run, k) == Lookup(s.run, k)
    requires k in s.run ==>
      (s.tasks[t].pc.Removing? && s.tasks[t].pc.target == s.run[k]
       <==> s'.tasks[t].pc.Removing? && s'.tasks[t].pc.target == s.run[k])
    requires Dropped(s, out, k) <==> Dropped(s', out, k)
    ensures Promises(s', out, k, v)
  {
    forall q | 0 <= q < |s.runners| ensures AddedTo(s, q, k) <==> AddedTo(s', q, k) {}
    if k in s.run { MovedTask(s, s', t, s.run[k]); }
    SamePromise(s, s', out, k, v);
  }

  lemma EndRemoveSummary(s: State, t: TaskId, x: RunnerId)
    requires t < |s.tasks| && x < |s.runners|
    ensures var s' := EndRemove(s, t, x, Return);
      && s'.run == Without(s.run, s.runners[x].modelId, x)
      && s'.runners == s.runners[x := s.runners[x].(removed := true)]
      && s'.tasks == s.tasks[t := s.tasks[t].(pc := Finished(false))]
  {}

  lemma EndRemovePromise(s: State, out: Outcomes, t: TaskId, x: RunnerId, k: ModelId, v: Option<RunnerId>)
    requires WfMap(s, s.run) && Promises(s, out, k, v)
    requires t < |s.tasks| && s.tasks[t].pc == Removing(x, true, Return) && x < |s.runners|
    requires Dropped(s, out, k) <==> Dropped(EndRemove(s, t, x, Return), out, k)
    ensures Promises(EndRemove(s, t, x, Return), out, k, v)
  {
    var s' := EndRemove(s, t, x, Return);
    EndRemoveSummary(s, t, x);
    if k in s.run && s.run[k] == x {
      assert Doomed(s, x);
      assert k == s.runners[x].modelId;
      Vacated(s, s', out, k, v);
    } else {
      assert Lookup(s'.run, k) == Lookup(s.run, k);
      NeutralStepPromise(s, out, t, s', k, v);
    }
  }

  /** The entry of a doomed runner is gone. */
  lemma Vacated(s: State, s': State, out: Outcomes, k: ModelId, v: Option<RunnerId>)
    requires Promises(s, out, k, v) && k in s.run && Doomed(s, s.run[k]) && k !in s'.run
    requires |s'.runners| == |s.runners|
    requires forall q | 0 <= q < |s.runners| ::
               s'.runners[q].modelId == s.runners[q].modelId && s'.runners[q].stage == s.runners[q].stage
    ensures Promises(s', out, k, v)
  {
    forall q | 0 <= q < |s.runners| ensures AddedTo(s, q, k) <==> AddedTo(s', q, k) {}
  }

  lemma SendingPromise(s: State, out: Outcomes, t: TaskId, x: RunnerId, k: ModelId, v: Option<RunnerId>)
    requires Orderly(s) && Promises(s, out, k, v)
    requires t < |s.tasks| && s.tasks[t].pc == Sending(x)
    requires Dropped(s, out, k) <==> Dropped(SetPc(s, t, Removing(x, false, Return)), out, k)
    ensures Promises(SetPc(s, t, Removing(x, false, Return)), out, k, v)
  {
    assert OrderlyTask(s, s.tasks[t].pc);
    NeutralStepPromise(s, out, t, SetPc(s, t, Removing(x, false, Return)), k, v);
  }

  lemma RemovingPromise(s: State, out: Outcomes, t: TaskId, x: RunnerId, closing: bool, next: Next, k: ModelId,
                        v: Option<RunnerId>)
    requires Wf(s) && Promises(s, out, k, v) && AdvanceEnabled(s, t) && s.tasks[t].pc == Removing(x, closing, next)
    requires WfTask(s, s.tasks[t]) && OrderlyTask(s, s.tasks[t].pc)
    requires ToRegister(s, t) ==> s.runners[s.tasks[t].subject.value].stage == Created
    requires Dropped(s, out, k) <==> Dropped(AdvanceTask(s, t), out, k)
    ensures Promises(AdvanceTask(s, t), out, k, v)
  {
    if !closing {
      NeutralStepPromise(s, out, t, BeginRemove(s, t, x, next), k, v);
    } else if next == Return {
      EndRemovePromise(s, out, t, x, k, v);
    } else {
      WaitPromise(s, out, t, x, s.tasks[t].subject.value, k, v);
    }
  }

  lemma GatheringPromise(s: State, out: Outcomes, t: TaskId, k: ModelId, v: Option<RunnerId>)
    requires Orderly(s) && Promises(s, out, k, v) && AdvanceEnabled(s, t) && s.tasks[t].pc.Gathering?
    requires Dropped(s, out, k) <==> Dropped(AdvanceTask(s, t), out, k)
    ensures Promises(AdvanceTask(s, t), out, k, v)
  {
    assert OrderlyTask(s, s.tasks[t].pc);
    NeutralStepPromise(s, out, t, AdvanceTask(s, t), k, v);
  }

  lemma FailingPromise(s: State, out: Outcomes, t: TaskId, k: ModelId, v: Option<RunnerId>)
    requires Orderly(s) && Promises(s, out, k, v) && AdvanceEnabled(s, t) && s.tasks[t].pc.Failing?
    requires Dropped(s, out, k) <==> Dropped(AdvanceTask(s, t), out, k)
    ensures Promises(AdvanceTask(s, t), out, k, v)
  {
    assert WfTask(s, s.tasks[t]);
    NeutralStepPromise(s, out, t, AdvanceTask(s, t), k, v);
  }

  lemma AdvancePromise(s: State, out: Outcomes, t: TaskId, k: ModelId, v: Option<RunnerId>)
    requires Orderly(s) && Promises(s, out, k, v) && AdvanceEnabled(s, t)
    ensures Promises(AdvanceTask(s, t), out, k, v)
  {
    assert WfTask(s, s.tasks[t]);
    AdvanceDrops(s, out, t, k);
    match s.tasks[t].pc
    case Adding => BeginAddPromise(s, out, t, s.tasks[t].subject.value, k, v);
    case Removing(x, closing, next) =>
      ToRegisterIsCreated(s, t);
      assert OrderlyTask(s, s.tasks[t].pc);
      RemovingPromise(s, out, t, x, closing, next, k, v);
    case Failing(_, _, _) => FailingPromise(s, out, t, k, v);
    case Sending(x) => SendingPromise(s, out, t, x, k, v);
    case Gathering(_, _, _) => GatheringPromise(s, out, t, k, v);
  }

  lemma BeginAddPromise(s: State, out: Outcomes, t: TaskId, r: RunnerId, k: ModelId, v: Option<RunnerId>)
    requires Orderly(s) && Promises(s, out, k, v)
    requires t < |s.tasks| && s.tasks[t].pc == Adding && s.tasks[t].subject == Some(r) && r < |s.runners|
    requires Dropped(s, out, k) <==> Dropped(BeginAdd(s, t, r), out, k)
    ensures Promises(BeginAdd(s, t, r), out, k, v)
  {
    assert s.runners[r].owner == t && s.runners[r].stage == Created;
    match Current(s, s.runners[r].modelId)
    case None => AddStepPromise(s, out, t, r, RegisterPending(s, t, r), k, v);
    case Some(x) =>
      assert x < |s.runners| && s.runners[x].modelId == s.runners[r].modelId;
      AddStepPromise(s, out, t, r, SetPc(s, t, Removing(x, false, Register)), k, v);
  }

  lemma WaitPromise(s: State, out: Outcomes, t: TaskId, x: RunnerId, r: RunnerId, k: ModelId, v: Option<RunnerId>)
    requires WfMap(s, s.run) && Promises(s, out, k, v) && t < |s.tasks| && s.tasks[t].pc == Removing(x, true, Register)
        && x < |s.runners|
    requires s.tasks[t].subject == Some(r) && r < |s.runners| && s.runners[x].modelId == s.runners[r].modelId
    requires s.runners[r].stage == Created
    requires Dropped(s, out, k) <==> Dropped(EndRemove(s, t, x, Register), out, k)
    ensures Promises(EndRemove(s, t, x, Register), out, k, v)
  {
    WaitSummary(s, t, x, r);
    AddStepPromise(s, out, t, r, EndRemove(s, t, x, Register), k, v);
  }

  lemma WaitSummary(s: State, t: TaskId, x: RunnerId, r: RunnerId)
    requires t < |s.tasks| && x < |s.runners| && s.tasks[t].subject == Some(r) && r < |s.runners|
        && s.runners[r].stage == Created
    ensures var s' := EndRemove(s, t, x, Register);
      && s'.run == Without(s.run, s.runners[x].modelId, x)
      && s'.tasks == s.tasks[t := s.tasks[t].(pc := Initializing)] && |s'.runners| == |s.runners|
      && forall q | 0 <= q < |s.runners| ::
           s'.runners[q].modelId == s.runners[q].modelId
             && (s'.runners[q].stage.Settled? <==> s.runners[q].stage.Settled?)
  {}

  lemma EndInitPromise(s: State, out: Outcomes, t: TaskId, o: InitOutcome, k: ModelId, v: Option<RunnerId>)
    requires Orderly(s) && Promises(s, out, k, v)
    requires Enabled(s, InitReturns(t, o)) && Internal(s, InitReturns(t, o), out)
    ensures Promises(Apply(s, InitReturns(t, o)), out, k, v)
  {
    assert WfTask(s, s.tasks[t]);
    var r := s.tasks[t].subject.value;
    var s' := EndInit(s, t, r, o);
    EndInitSummary(s, t, r, o);
    InitIsHeld(s, t, r);
    EndInitDrops(s, out, t, r, s', k);
    if k != s.runners[r].modelId {
      SettledElsewhere(s, s', out, t, r, o, k, v);
    } else {
      NobodyAimsAt(s, t, r, s');
      NotDropped(s, out, r, k);
      SettledHere(s, s', out, t, r, o, k, v);
    }
  }

  /**
   The runner inside init is the pending one of its model, nothing of that model is published, and no
   other is added.
   */
  lemma InitIsHeld(s: State, t: TaskId, r: RunnerId)
    requires Orderly(s) && t < |s.tasks| && s.tasks[t].pc == Initializing && s.tasks[t].subject == Some(r)
        && r < |s.runners|
    ensures s.runners[r].stage == Registered && InPend(s, r) && s.runners[r].modelId !in s.run
    ensures forall q | 0 <= q < |s.runners| && q != r :: !AddedTo(s, q, s.runners[r].modelId)
  {
    assert s.runners[r].owner == t;
  }

  lemma SettledElsewhere(s: State, s': State, out: Outcomes, t: TaskId, r: RunnerId, o: InitOutcome, k: ModelId,
                         v: Option<RunnerId>)
    requires Promises(s, out, k, v) && t < |s.tasks| && r < |s.runners| && k != s.runners[r].modelId
    requires s'.runners == s.runners[r := s.runners[r].(stage := Settled(o))] && Lookup(s'.run, k) == Lookup(s.run, k)
    requires |s'.tasks| == |s.tasks| && forall u | 0 <= u < |s.tasks| && u != t :: s'.tasks[u] == s.tasks[u]
    requires s.tasks[t].pc == Initializing && !s'.tasks[t].pc.Removing?
    requires Dropped(s, out, k) <==> Dropped(s', out, k)
    ensures Promises(s', out, k, v)
  {
    forall q | 0 <= q < |s.runners| ensures AddedTo(s, q, k) <==> AddedTo(s', q, k) {}
    if k in s.run { MovedTask(s, s', t, s.run[k]); }
    SamePromise(s, s', out, k, v);
  }

  lemma SettledHere(s: State, s': State, out: Outcomes, t: TaskId, r: RunnerId, o: InitOutcome, k: ModelId,
                    v: Option<RunnerId>)
    requires Promises(s, out, k, v) && t < |s.tasks| && AddedTo(s, r, k) && k !in s.run && o == out(r)
    requires s'.runners == s.runners[r := s.runners[r].(stage := Settled(o))]
    requires s'.run == if o == Ready then s.run[k := r] else s.run
    requires forall q | 0 <= q < |s.runners| && q != r :: !AddedTo(s, q, k)
    requires !Doomed(s', r) && !Dropped(s', out, k)
    ensures Promises(s', out, k, v)
  {
    forall q | 0 <= q < |s'.runners| ensures !AddedTo(s', q, k) {
      assert q != r ==> !AddedTo(s, q, k);
    }
  }

  /** No task aims at a runner whose init has not ended, and the one that ends it aims elsewhere. */
  lemma NobodyAimsAt(s: State, t: TaskId, r: RunnerId, s': State)
    requires Orderly(s) && t < |s.tasks| && r < |s.runners| && !s.runners[r].stage.Settled?
    requires |s'.tasks| == |s.tasks| && !s'.tasks[t].pc.Removing?
    requires forall u | 0 <= u < |s.tasks| && u != t :: s'.tasks[u] == s.tasks[u]
    ensures !Doomed(s', r)
  {
    forall u: TaskId | u < |s'.tasks| ensures !(s'.tasks[u].pc.Removing? && s'.tasks[u].pc.target == r) {
      assert OrderlyTask(s, s.tasks[u].pc);
    }
  }

  lemma NotDropped(s: State, out: Outcomes, r: RunnerId, k: ModelId)
    requires Orderly(s) && AddedTo(s, r, k)
    ensures !Dropped(s, out, k)
  {
    forall u: TaskId ensures !Drops(s, out, u, k) {
      if u < |s.tasks| { assert OrderlyTask(s, s.tasks[u].pc); }
    }
  }

  /** The removals of an init event doom exactly the models it does not name. */
  lemma ResyncPromise(s: State, out: Outcomes, t: TaskId, order: seq<ModelId>, k: ModelId, v: Option<RunnerId>)
    requires Orderly(s) && Promises(s, out, k, v) && ResyncEnabled(s, t, order)
    ensures Promises(Apply(s, Resync(t, order)), out, k, v)
  {
    var s' := Apply(s, Resync(t, order));
    ResyncKeepsMaps(s, t, order);
    if r: RunnerId :| AddedTo(s, r, k) {
      AddedPromise(s, s', out, k, v, r);
    } else {
      assert forall r | 0 <= r < |s'.runners| :: !AddedTo(s', r, k) by {
        forall r | 0 <= r < |s'.runners| ensures !AddedTo(s', r, k) { assert !AddedTo(s, r, k); }
      }
      if k in s.run { ResyncDooms(s, out, t, order, k); }
    }
  }

  lemma ResyncDooms(s: State, out: Outcomes, t: TaskId, order: seq<ModelId>, k: ModelId)
    requires Orderly(s) && ResyncEnabled(s, t, order) && k in s.run
    ensures var s' := Apply(s, Resync(t, order));
      k in s'.run && s'.run[k] == s.run[k]
      && (Doomed(s', s.run[k]) || Dropped(s', out, k) <==> Doomed(s, s.run[k]) || Dropped(s, out, k))
  {
    ResyncKeepsMaps(s, t, order);
    ResyncNames(s, t, order);
    ResyncRaises(s, out, t, order);
    var s' := Apply(s, Resync(t, order));
    if Doomed(s', s.run[k]) { NewlyDoomed(s, s', out, t, order, k); }
    if u: TaskId :| Drops(s', out, u, k) {
      assert u < |s.tasks| && u != t && OrderlyTask(s, s.tasks[u].pc);
      SameDrops(s, s', out, u, k);
    }
    if Doomed(s, s.run[k]) {
      var u: TaskId :| u < |s.tasks| && s.tasks[u].pc.Removing? && s.tasks[u].pc.target == s.run[k];
      assert s'.tasks[u] == s.tasks[u];
    }
    if Dropped(s, out, k) { NowDoomed(s, s', out, t, order, k); }
  }

  lemma ReturnedRaiseNothing(s: State, out: Outcomes, lo: TaskId, hi: TaskId)
    requires Inv(s) && AllReturned(s, lo, hi)
    ensures !SomeWillRaise(s, out, lo, hi)
  {
    forall c: TaskId | lo <= c < hi ensures !WillRaise(s, out, c) {
      if c < |s.tasks| {
        assert s.tasks[c].pc == Finished(false);
        if s.tasks[c].subject.Some? { assert s.runners[s.tasks[c].subject.value].owner == c; }
      }
    }
  }

  lemma ResyncRaises(s: State, out: Outcomes, t: TaskId, order: seq<ModelId>)
    requires Inv(s) && ResyncEnabled(s, t, order)
    ensures KeepsRaises(s, Apply(s, Resync(t, order)), out)
    ensures !SomeWillRaise(s, out, s.tasks[t].pc.lo, s.tasks[t].pc.hi)
  {
    ResyncKeepsMaps(s, t, order);
    ReturnedRaiseNothing(s, out, s.tasks[t].pc.lo, s.tasks[t].pc.hi);
  }

  /** Whoever the new removals doom was going to be dropped. */
  lemma NewlyDoomed(s: State, s': State, out: Outcomes, t: TaskId, order: seq<ModelId>, k: ModelId)
    requires WfMap(s, s.run) && ResyncEnabled(s, t, order) && k in s.run && Doomed(s', s.run[k])
    requires !SomeWillRaise(s, out, s.tasks[t].pc.lo, s.tasks[t].pc.hi)
    requires |s'.tasks| == |s.tasks| + |order| && !s'.tasks[t].pc.Removing?
    requires forall u | 0 <= u < |s.tasks| && u != t :: s'.tasks[u] == s.tasks[u]
    requires forall i | 0 <= i < |order| ::
               order[i] in s.run && order[i] !in s.tasks[t].pc.resync.value
               && s'.tasks[|s.tasks| + i] == Task(None, false, Removing(s.run[order[i]], false, Return))
    ensures Doomed(s, s.run[k]) || Dropped(s, out, k)
  {
    var u: TaskId :| u < |s'.tasks| && s'.tasks[u].pc.Removing? && s'.tasks[u].pc.target == s.run[k];
    if u >= |s.tasks| {
      var j := order[u - |s.tasks|];
      assert s'.tasks[|s.tasks| + (u - |s.tasks|)] == Task(None, false, Removing(s.run[j], false, Return));
      assert j == s.runners[s.run[j]].modelId == k;
      assert Drops(s, out, t, k);
    } else {
      assert s.tasks[u].pc.Removing?;
    }
  }

  /** Whoever was going to be dropped is now doomed, or still going to be dropped. */
  lemma NowDoomed(s: State, s': State, out: Outcomes, t: TaskId, order: seq<ModelId>, k: ModelId)
    requires ResyncEnabled(s, t, order) && k in s.run && Dropped(s, out, k) && KeepsRaises(s, s', out)
    requires |s'.tasks| == |s.tasks| + |order|
    requires forall u | 0 <= u < |s.tasks| :: OrderlyTask(s, s.tasks[u].pc) && (u != t ==> s'.tasks[u] == s.tasks[u])
    requires forall i | 0 <= i < |order| ::
               order[i] in s.run && s'.tasks[|s.tasks| + i]
                 == Task(None, false, Removing(s.run[order[i]], false, Return))
    ensures Doomed(s', s.run[k]) || Dropped(s', out, k)
  {
    var u: TaskId :| Drops(s, out, u, k);
    if u == t {
      assert k in Named(order);
      var i :| 0 <= i < |order| && order[i] == k;
      assert s'.tasks[|s.tasks| + i].pc.target == s.run[k];
    } else {
      SameDrops(s, s', out, u, k);
    }
  }

  // ----- Every step keeps the order -----

  /** A task that did not move is orderly still. */
  lemma OrderlyTaskFrame(s: State, s': State, pc: Pc)
    requires OrderlyTask(s, pc) && |s'.runners| == |s.runners| && |s'.tasks| >= |s.tasks|
    requires forall q | 0 <= q < |s.runners| ::
               s'.runners[q].modelId == s.runners[q].modelId
                 && (s.runners[q].stage.Settled? ==> s'.runners[q].stage == s.runners[q].stage)
    requires forall u | 0 <= u < |s.tasks| && s'.tasks[u].pc.Gathering? :: s.tasks[u].pc.Gathering?
    ensures OrderlyTask(s', pc)
  {}

  /** What an internal step does, as far as order is concerned. */
  ghost predicate Tidy(s: State, s': State) {
    && |s'.runners| == |s.runners| && |s'.tasks| >= |s.tasks|
    && (forall q | 0 <= q < |s.runners| ::
          s'.runners[q].modelId == s.runners[q].modelId
          && (s.runners[q].stage.Settled? ==> s'.runners[q].stage == s.runners[q].stage)
          && (s'.runners[q].removed && !s.runners[q].removed ==> s.runners[q].stage.Settled?))
    && (forall u | 0 <= u < |s.tasks| ::
          s'.tasks[u].pc == s.tasks[u].pc
          || (OrderlyTask(s', s'.tasks[u].pc) && (s'.tasks[u].pc.Gathering? ==> s.tasks[u].pc.Gathering?)))
    && (forall u | |s.tasks| <= u < |s'.tasks| :: OrderlyTask(s', s'.tasks[u].pc))
  }

  lemma TidyKeepsOrder(s: State, s': State)
    requires Orderly(s) && Exclusive(s') && Tidy(s, s')
    ensures Orderly(s')
  {
    forall u | 0 <= u < |s'.tasks| ensures OrderlyTask(s', s'.tasks[u].pc) {
      if u < |s.tasks| && s'.tasks[u].pc == s.tasks[u].pc {
        assert OrderlyTask(s, s.tasks[u].pc);
        OrderlyTaskFrame(s, s', s.tasks[u].pc);
      }
    }
  }

  /** The move of one task. */
  lemma TidyMove(s: State, s': State, t: TaskId)
    requires t < |s.tasks| && |s'.tasks| == |s.tasks| && s'.tasks == s.tasks[t := s'.tasks[t]]
        && |s'.runners| == |s.runners|
    requires forall q | 0 <= q < |s.runners| ::
               s'.runners[q].modelId == s.runners[q].modelId
               && (s.runners[q].stage.Settled? ==> s'.runners[q].stage == s.runners[q].stage)
               && (s'.runners[q].removed && !s.runners[q].removed ==> s.runners[q].stage.Settled?)
    requires OrderlyTask(s', s'.tasks[t].pc) && !s'.tasks[t].pc.Gathering?
    ensures Tidy(s, s')
  {}

  lemma RegisterTidy(s: State, t: TaskId, r: RunnerId)
    requires t < |s.tasks| && r < |s.runners| && s.runners[r].stage == Created
    ensures Tidy(s, RegisterPending(s, t, r))
  {
    TidyMove(s, RegisterPending(s, t, r), t);
  }

  lemma WaitTidy(s: State, t: TaskId, x: RunnerId, r: RunnerId)
    requires t < |s.tasks| && r < |s.runners| && x < |s.runners|
    requires s.runners[r].stage == Created && s.runners[x].stage.Settled?
    ensures Tidy(s, RegisterPending(Delete(s, x), t, r))
  {
    TidyMove(s, RegisterPending(Delete(s, x), t, r), t);
  }

  /** The runner an add waits for has settled: two unsettled runners of one model would be one. */
  lemma CurrentIsSettled(s: State, r: RunnerId, x: RunnerId)
    requires Orderly(s) && r < |s.runners| && s.runners[r].stage == Created
        && Current(s, s.runners[r].modelId) == Some(x)
    ensures x < |s.runners| && s.runners[x].stage.Settled? && s.runners[x].modelId == s.runners[r].modelId
  {}

  lemma AddingTidy(s: State, t: TaskId, r: RunnerId)
    requires Orderly(s) && t < |s.tasks| && s.tasks[t].pc == Adding && s.tasks[t].subject == Some(r) && r < |s.runners|
    ensures Tidy(s, BeginAdd(s, t, r))
  {
    assert s.runners[r].owner == t && s.runners[r].stage == Created;
    match Current(s, s.runners[r].modelId)
    case None => RegisterTidy(s, t, r);
    case Some(x) =>
      CurrentIsSettled(s, r, x);
      TidyMove(s, SetPc(s, t, Removing(x, false, Register)), t);
  }

  lemma RemovingTidy(s: State, t: TaskId, x: RunnerId, closing: bool, next: Next)
    requires Inv(s) && AdvanceEnabled(s, t) && OrderlyTask(s, s.tasks[t].pc)
        && s.tasks[t].pc == Removing(x, closing, next)
    ensures Tidy(s, AdvanceTask(s, t))
  {
    assert WfTask(s, s.tasks[t]) && OrderlyTask(s, s.tasks[t].pc);
    if !closing {
      TidyMove(s, BeginRemove(s, t, x, next), t);
    } else if next == Return {
      EndRemoveSummary(s, t, x);
      TidyMove(s, EndRemove(s, t, x, Return), t);
    } else {
      var r := s.tasks[t].subject.value;
      assert s.runners[r].owner == t && s.runners[r].stage == Created;
      WaitTidy(s, t, x, r);
    }
  }

  lemma OtherTidy(s: State, t: TaskId)
    requires Wf(s) && AdvanceEnabled(s, t) && !s.tasks[t].pc.Adding? && !s.tasks[t].pc.Removing?
    requires OrderlyTask(s, s.tasks[t].pc)
    ensures Tidy(s, AdvanceTask(s, t))
  {
    assert WfTask(s, s.tasks[t]);
    TidyMove(s, AdvanceTask(s, t), t);
  }

  lemma SettleTidy(s: State, s': State, t: TaskId, r: RunnerId, o: InitOutcome)
    requires t < |s.tasks| && |s'.tasks| == |s.tasks| && s'.tasks == s.tasks[t := s'.tasks[t]]
    requires r < |s.runners| && !s.runners[r].stage.Settled?
        && s'.runners == s.runners[r := s.runners[r].(stage := Settled(o))]
    requires s'.tasks[t].pc.Finished? || (s'.tasks[t].pc.Failing? && s'.tasks[t].pc.culprit == r && o != Ready)
    ensures Tidy(s, s')
  {
    assert OrderlyTask(s', s'.tasks[t].pc);
  }

  lemma EndInitTidy(s: State, out: Outcomes, t: TaskId, o: InitOutcome)
    requires Inv(s) && Enabled(s, InitReturns(t, o)) && Internal(s, InitReturns(t, o), out)
    ensures Tidy(s, Apply(s, InitReturns(t, o)))
  {
    assert WfTask(s, s.tasks[t]);
    var r := s.tasks[t].subject.value;
    EndInitSummary(s, t, r, o);
    var s' := EndInit(s, t, r, o);
    assert s.runners[r].stage == Registered;
    assert s'.tasks == s.tasks[t := s'.tasks[t]];
    SettleTidy(s, s', t, r, o);
  }

  lemma ResyncTidy(s: State, t: TaskId, order: seq<ModelId>)
    requires Orderly(s) && ResyncEnabled(s, t, order)
    ensures Tidy(s, Apply(s, Resync(t, order)))
  {
    var s' := Apply(s, Resync(t, order));
    ResyncKeepsMaps(s, t, order);
    forall u | |s.tasks| <= u < |s'.tasks| ensures OrderlyTask(s', s'.tasks[u].pc) {
      assert s'.tasks[|s.tasks| + (u - |s.tasks|)]
          == Task(None, false, Removing(s.run[order[u - |s.tasks|]], false, Return));
    }
  }

  lemma StepTidy(s: State, l: Label, out: Outcomes)
    requires Orderly(s) && Internal(s, l, out) && Enabled(s, l)
    ensures Tidy(s, Apply(s, l))
  {
    match l
    case Advance(t) => AdvanceTidy(s, t);
    case InitReturns(t, o) => EndInitTidy(s, out, t, o);
    case Resync(t, order) => ResyncTidy(s, t, order);
  }

  lemma StepKeepsOrder(s: State, l: Label, out: Outcomes)
    requires Orderly(s) && Internal(s, l, out)
    ensures Orderly(Apply(s, l)) && |Apply(s, l).runners| == |s.runners|
  {
    if Enabled(s, l) {
      OrderlyDisciplined(s, out, l);
      StepExclusive(s, l);
      StepTidy(s, l, out);
      TidyKeepsOrder(s, Apply(s, l));
    }
  }

  /** A step of a task keeps the order and every promise. */
  lemma StepKeepsPromises(s: State, l: Label, out: Outcomes, plan: map<ModelId, RunnerId>)
    requires Orderly(s) && PromisesAll(s, out, plan) && Internal(s, l, out)
    ensures Orderly(Apply(s, l)) && PromisesAll(Apply(s, l), out, plan)
    ensures |Apply(s, l).runners| == |s.runners|
  {
    StepKeepsOrder(s, l, out);
    if Enabled(s, l) {
      var s' := Apply(s, l);
      forall k: ModelId ensures Promises(s', out, k, Lookup(plan, k)) {
        StepKeepsPromise(s, l, out, k, Lookup(plan, k));
      }
    }
  }

  lemma AdvanceTidy(s: State, t: TaskId)
    requires Orderly(s) && AdvanceEnabled(s, t)
    ensures Tidy(s, AdvanceTask(s, t))
  {
    assert WfTask(s, s.tasks[t]);
    match s.tasks[t].pc
    case Adding => AddingTidy(s, t, s.tasks[t].subject.value);
    case Removing(x, closing, next) => assert OrderlyTask(s, s.tasks[t].pc); RemovingTidy(s, t, x, closing, next);
    case _ => assert OrderlyTask(s, s.tasks[t].pc); OtherTidy(s, t);
  }

  lemma StepKeepsPromise(s: State, l: Label, out: Outcomes, k: ModelId, v: Option<RunnerId>)
    requires Orderly(s) && Promises(s, out, k, v) && Internal(s, l, out) && Enabled(s, l)
    ensures Promises(Apply(s, l), out, k, v)
  {
    match l
    case Advance(t) => AdvancePromise(s, out, t, k, v);
    case InitReturns(t, o) => EndInitPromise(s, out, t, o, k, v);
    case Resync(t, order) => ResyncPromise(s, out, t, order, k, v);
  }

  lemma {:induction false} RunKeepsPromises(s: State, ls: seq<Label>, out: Outcomes, plan: map<ModelId, RunnerId>)
    requires Orderly(s) && PromisesAll(s, out, plan) && Settling(s, ls, out)
    ensures Orderly(After(s, ls)) && PromisesAll(After(s, ls), out, plan)
    ensures |After(s, ls).runners| == |s.runners|
    decreases |ls|
  {
    if ls != [] {
      StepKeepsPromises(s, ls[0], out, plan);
      RunKeepsPromises(Apply(s, ls[0]), ls[1..], out, plan);
    }
  }

  /** The promise of one model. */
  lemma {:induction false} RunKeepsPromise(s: State, ls: seq<Label>, out: Outcomes, k: ModelId, v: Option<RunnerId>)
    requires Orderly(s) && Promises(s, out, k, v) && Settling(s, ls, out)
    ensures Orderly(After(s, ls)) && Promises(After(s, ls), out, k, v)
    decreases |ls|
  {
    if ls != [] {
      StepKeepsOrder(s, ls[0], out);
      if Enabled(s, ls[0]) { StepKeepsPromise(s, ls[0], out, k, v); }
      RunKeepsPromise(Apply(s, ls[0]), ls[1..], out, k, v);
    }
  }

  // ----- The planned runners stay open -----

  lemma PlannedIsSafe(s: State, out: Outcomes, k: ModelId, x: RunnerId)
    requires Orderly(s) && Promises(s, out, k, Some(x))
    ensures x < |s.runners| && !Doomed(s, x)
  {
    if r: RunnerId :| r < |s.runners| && AddedTo(s, r, k) {
      forall u: TaskId | u < |s.tasks| ensures !(s.tasks[u].pc.Removing? && s.tasks[u].pc.target == r) {
        assert OrderlyTask(s, s.tasks[u].pc);
      }
    }
  }

  lemma AdvanceKeepsOpen(s: State, t: TaskId, x: RunnerId)
    requires Wf(s) && AdvanceEnabled(s, t) && OrderlyTask(s, s.tasks[t].pc) && x < |s.runners| && !Doomed(s, x)
    ensures x < |AdvanceTask(s, t).runners| && AdvanceTask(s, t).runners[x].closed == s.runners[x].closed
  {
    assert WfTask(s, s.tasks[t]);
    match s.tasks[t].pc
    case Removing(y, closing, next) => if closing { assert Delete(s, y).runners[x].closed == s.runners[x].closed; }
    case _ =>
  }

  /** Only a task that aims at a runner closes it. */
  lemma StepKeepsOpen(s: State, l: Label, out: Outcomes, x: RunnerId)
    requires Orderly(s) && Internal(s, l, out) && x < |s.runners| && !Doomed(s, x)
    ensures x < |Apply(s, l).runners| && Apply(s, l).runners[x].closed == s.runners[x].closed
  {
    if Enabled(s, l) {
      match l
      case Advance(t) => assert OrderlyTask(s, s.tasks[t].pc); AdvanceKeepsOpen(s, t, x);
      case InitReturns(t, o) => assert WfTask(s, s.tasks[t]); EndInitSummary(s, t, s.tasks[t].subject.value, o);
      case Resync(t, order) => ResyncKeepsMaps(s, t, order);
    }
  }

  lemma {:induction false} RunKeepsOpen(s: State, ls: seq<Label>, out: Outcomes, plan: map<ModelId, RunnerId>,
                                        k: ModelId)
    requires Orderly(s) && PromisesAll(s, out, plan) && Settling(s, ls, out) && k in plan
    ensures plan[k] < |s.runners| == |After(s, ls).runners|
    ensures After(s, ls).runners[plan[k]].closed == s.runners[plan[k]].closed
    decreases |ls|
  {
    assert Promises(s, out, k, Lookup(plan, k));
    PlannedIsSafe(s, out, k, plan[k]);
    if ls != [] {
      StepKeepsPromises(s, ls[0], out, plan);
      StepKeepsOpen(s, ls[0], out, plan[k]);
      RunKeepsOpen(Apply(s, ls[0]), ls[1..], out, plan, k);
    }
  }

  /** At rest the promise is the table itself. */
  lemma RestKeepsPromise(s: State, out: Outcomes, plan: map<ModelId, RunnerId>)
    requires Orderly(s) && PromisesAll(s, out, plan) && Quiet(s)
    ensures s.run == plan && s.pend == EMPTY
  {
    RestIsExclusive(s);
    forall k: ModelId ensures Lookup(plan, k) == Lookup(s.run, k) {
      RestLookup(s, out, k, Lookup(plan, k));
    }
    assert forall k :: k in s.run <==> k in plan by {
      forall k ensures k in s.run <==> k in plan { assert Lookup(plan, k) == Lookup(s.run, k); }
    }
    forall k | k in plan ensures s.run[k] == plan[k] { assert Lookup(plan, k) == Lookup(s.run, k); }
  }

  lemma RestLookup(s: State, out: Outcomes, k: ModelId, v: Option<RunnerId>)
    requires Quiet(s) && Promises(s, out, k, v) && forall r | 0 <= r < |s.runners| :: s.runners[r].stage.Settled?
    ensures v == Lookup(s.run, k)
  {
    forall r | 0 <= r < |s.runners| ensures !AddedTo(s, r, k) {}
    assert !Dropped(s, out, k);
    if k in s.run { assert !Doomed(s, s.run[k]); }
  }
}
