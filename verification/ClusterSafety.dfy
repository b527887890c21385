/**
 No orphan connection: a live runner is the one `models_run` names. First the exact condition under
 which a run keeps this, then two assumptions on the schedule that imply it.
 */
module ClusterSafety {
  import opened Common
  import opened ClusterSteps
  import opened ClusterInvariant
  import opened ClusterLifecycle

  /** The init of r succeeded and nobody has started to close it. */
  ghost predicate Live(s: State, r: RunnerId) {
    r < |s.runners| && s.runners[r].stage == Settled(Ready) && !s.runners[r].closed
  }

  ghost predicate NoOrphan(s: State) {
    forall r | 0 <= r < |s.runners| :: Live(s, r) ==> InRun(s, r)
  }

  // ----- The exact condition -----

  /** A publication (line `models_run[model_id] = model_runner`) over an entry that is still open. */
  ghost predicate OverwritesOpen(s: State, l: Label) {
    Enabled(s, l) && l.InitReturns? && l.outcome == Ready && (
      assert WfTask(s, s.tasks[l.task]);
      var k := s.runners[s.tasks[l.task].subject.value].modelId;
      k in s.run && !s.runners[s.run[k]].closed)
  }

  lemma AdvanceOrphans(s: State, t: TaskId)
    requires Inv(s) && NoOrphan(s) && AdvanceEnabled(s, t)
    ensures NoOrphan(AdvanceTask(s, t))
  {
    var s' := AdvanceTask(s, t);
    assert WfTask(s, s.tasks[t]);
    forall r | 0 <= r < |s'.runners| && Live(s', r) ensures InRun(s', r) {
      if r < |s.runners| {
        AdvanceProgress(s, t, r);
        AdvanceSettles(s, t, r);
        assert InRun(s, r);
        LeavesRunExactlyWhen(s, Advance(t), r);
      } else {
        AdvanceBirth(s, t, r);
      }
    }
  }

  lemma EndRemoveSettles(s: State, t: TaskId, x: RunnerId, next: Next, r: RunnerId)
    requires t < |s.tasks| && x < |s.runners| && r < |s.runners|
    requires next == Register ==> s.tasks[t].subject.Some? && s.tasks[t].subject.value < |s.runners|
    ensures r < |EndRemove(s, t, x, next).runners|
    ensures var stage := EndRemove(s, t, x, next).runners[r].stage; stage == s.runners[r].stage || stage == Registered
  {
    assert Delete(s, x).tasks == s.tasks && Delete(s, x).runners[r].stage == s.runners[r].stage;
  }

  /** Only `InitReturns` settles a runner. */
  lemma AdvanceSettles(s: State, t: TaskId, r: RunnerId)
    requires Wf(s) && AdvanceEnabled(s, t) && r < |s.runners|
    ensures r < |AdvanceTask(s, t).runners|
    ensures AdvanceTask(s, t).runners[r].stage == s.runners[r].stage || AdvanceTask(s, t).runners[r].stage == Registered
  {
    assert WfTask(s, s.tasks[t]);
    match s.tasks[t].pc
    case Removing(x, closing, next) => if closing { EndRemoveSettles(s, t, x, next, r); }
    case _ =>
  }

  lemma EndInitOrphans(s: State, t: TaskId, o: InitOutcome)
    requires Inv(s) && NoOrphan(s) && Enabled(s, InitReturns(t, o))
    ensures NoOrphan(Apply(s, InitReturns(t, o))) <==> !OverwritesOpen(s, InitReturns(t, o))
  {
    var l := InitReturns(t, o);
    var s' := Apply(s, l);
    assert WfTask(s, s.tasks[t]);
    var q := s.tasks[t].subject.value;
    var k := s.runners[q].modelId;
    EndInitSummary(s, t, q, o);
    if OverwritesOpen(s, l) {
      var r := s.run[k];
      assert Live(s', r) && !InRun(s', r);
    } else {
      forall r | 0 <= r < |s'.runners| && Live(s', r) ensures InRun(s', r) {
        if r != q { assert Live(s, r); }
      }
    }
  }

  lemma EndInitSummary(s: State, t: TaskId, q: RunnerId, o: InitOutcome)
    requires t < |s.tasks| && q < |s.runners|
    ensures var s' := EndInit(s, t, q, o);
      && s'.runners == s.runners[q := s.runners[q].(stage := Settled(o))]
      && s'.run == (if o == Ready then s.run[s.runners[q].modelId := q] else s.run)
      && s'.pend == Without(s.pend, s.runners[q].modelId, q)
      && |s'.tasks| == |s.tasks| && s'.tasks[t] == s.tasks[t].(pc := s'.tasks[t].pc)
      && (s'.tasks[t].pc.Finished? || s'.tasks[t].pc.Failing?)
      && forall u | 0 <= u < |s.tasks| && u != t :: s'.tasks[u] == s.tasks[u]
  {}

  /** A step files r in `models_run` exactly when it settles r as ready. */
  lemma StepPublishes(s: State, l: Label, r: RunnerId)
    requires Inv(s) && r < |s.runners|
    ensures r < |Apply(s, l).runners|
    ensures !InRun(s, r) && InRun(Apply(s, l), r)
      <==> !s.runners[r].stage.Settled? && Apply(s, l).runners[r].stage == Settled(Ready)
  {
    StepProgress(s, l, r);
    if Enabled(s, l) {
      match l
      case Deliver(_, data) => HandleEntriesFrame(s, data);
      case Resync(t, order) => ResyncKeepsMaps(s, t, order);
      case Advance(t) => AdvanceSettles(s, t, r);
      case InitReturns(t, o) => assert WfTask(s, s.tasks[t]); EndInitSummary(s, t, s.tasks[t].subject.value, o);
      case _ =>
    }
  }

  function IsReady(s: State, r: RunnerId): nat {
    if r < |s.runners| && s.runners[r].stage == Settled(Ready) then 1 else 0
  }

  lemma {:induction false} CountPublications(s: State, ls: seq<Label>, r: RunnerId)
    requires Inv(s)
    ensures RunEntries(s, ls, r) + IsReady(s, r) == IsReady(After(s, ls), r)
    decreases |ls|
  {
    if ls != [] {
      StepKeeps(s, ls[0]);
      CountPublications(Apply(s, ls[0]), ls[1..], r);
      if r < |s.runners| {
        StepPublishes(s, ls[0], r);
        StepProgress(s, ls[0], r);
      } else {
        StepBirth(s, ls[0], r);
      }
    }
  }

  /** Over any run from the start, a runner was published exactly once if its init succeeded, and never otherwise. */
  lemma PublishedOnceIfReady(start: State, ls: seq<Label>, r: RunnerId)
    requires Initial(start)
    ensures RunEntries(start, ls, r)
         == if r < |After(start, ls).runners| && After(start, ls).runners[r].stage == Settled(Ready) then 1 else 0
  {
    CountPublications(start, ls, r);
  }

  /** One step creates an orphan exactly when it publishes over an open entry. */
  lemma StepOrphansExactlyWhen(s: State, l: Label)
    requires Inv(s) && NoOrphan(s)
    ensures NoOrphan(Apply(s, l)) <==> !OverwritesOpen(s, l)
  {
    if Enabled(s, l) {
      match l
      case Deliver(_, data) => DeliverOrphans(s, l);
      case Resync(t, order) => ResyncKeepsMaps(s, t, order); SameOrphans(s, Apply(s, l));
      case Advance(t) => AdvanceOrphans(s, t);
      case InitReturns(t, o) => EndInitOrphans(s, t, o);
      case _ => SameOrphans(s, Apply(s, l));
    }
  }

  lemma SameOrphans(s: State, s': State)
    requires NoOrphan(s) && s'.runners == s.runners && s'.run == s.run
    ensures NoOrphan(s')
  {
    forall r | 0 <= r < |s'.runners| && Live(s', r) ensures InRun(s', r) { assert Live(s, r); }
  }

  lemma DeliverOrphans(s: State, l: Label)
    requires Inv(s) && NoOrphan(s) && l.Deliver?
    ensures NoOrphan(Apply(s, l))
  {
    HandleEntriesFrame(s, l.data);
    var s' := Apply(s, l);
    forall r | 0 <= r < |s'.runners| && Live(s', r) ensures InRun(s', r) {
      assert r < |s.runners| && Live(s, r);
    }
  }

  ghost predicate AlwaysNoOrphan(s: State, ls: seq<Label>)
    decreases |ls|
  {
    NoOrphan(s) && (ls != [] ==> AlwaysNoOrphan(Apply(s, ls[0]), ls[1..]))
  }

  ghost predicate NeverOverwritesOpen(s: State, ls: seq<Label>)
    decreases |ls|
  {
    ls != [] ==> !OverwritesOpen(s, ls[0]) && NeverOverwritesOpen(Apply(s, ls[0]), ls[1..])
  }

  /** A run never has an orphan exactly when none of its publications overwrites an open entry. */
  lemma {:induction false} NoOrphanExactlyWhen(s: State, ls: seq<Label>)
    requires Inv(s) && NoOrphan(s)
    ensures AlwaysNoOrphan(s, ls) <==> NeverOverwritesOpen(s, ls)
    decreases |ls|
  {
    if ls != [] {
      StepKeeps(s, ls[0]);
      StepOrphansExactlyWhen(s, ls[0]);
      if NoOrphan(Apply(s, ls[0])) { NoOrphanExactlyWhen(Apply(s, ls[0]), ls[1..]); }
    }
  }

  // ----- Two assumptions on the schedule -----

  /** Task t is an add that has read the current runner and not yet registered its own. */
  ghost predicate InWindow(s: State, t: TaskId) {
    t < |s.tasks| && s.tasks[t].pc.Removing? && s.tasks[t].pc.next == Register
  }

  /** The model an add task works on. */
  ghost function ModelOf(s: State, t: TaskId): ModelId
    requires t < |s.tasks| && s.tasks[t].subject.Some? && s.tasks[t].subject.value < |s.runners|
  {
    s.runners[s.tasks[t].subject.value].modelId
  }

  /** H1: no add reads the current runner while another add for its model is between reading and registering. */
  ghost predicate OneAddAtATime(s: State, l: Label) {
    Enabled(s, l) && l.Advance? && s.tasks[l.task].pc == Adding ==>
      forall u | 0 <= u < |s.tasks| && InWindow(s, u) ::
        WfTask(s, s.tasks[u]) && WfTask(s, s.tasks[l.task]) && ModelOf(s, u) != ModelOf(s, l.task)
  }

  /** H2: the init of a runner does not succeed once a removal of that runner has completed. */
  ghost predicate NoInitAfterRemoval(s: State, l: Label) {
    Enabled(s, l) && l.InitReturns? && l.outcome == Ready ==>
      WfTask(s, s.tasks[l.task]) && !s.runners[s.tasks[l.task].subject.value].removed
  }

  ghost predicate Disciplined(s: State, ls: seq<Label>)
    decreases |ls|
  {
    ls != [] ==> OneAddAtATime(s, ls[0]) && NoInitAfterRemoval(s, ls[0]) && Disciplined(Apply(s, ls[0]), ls[1..])
  }

  ghost predicate Disjoint(s: State) {
    forall k | k in s.run :: k !in s.pend
  }

  /** A registered runner that was not removed is the pending one of its model. */
  ghost predicate Held(s: State) {
    forall r | 0 <= r < |s.runners| && s.runners[r].stage == Registered && !s.runners[r].removed :: InPend(s, r)
  }

  /** While an add waits for a removal, its model has no runner but the one being removed. */
  ghost predicate Guarded(s: State)
    requires Wf(s)
  {
    && (forall t | 0 <= t < |s.tasks| && InWindow(s, t) ::
          WfTask(s, s.tasks[t]) && GuardedBy(s, s.tasks[t].pc.target))
    && (forall t, u | 0 <= t < |s.tasks| && 0 <= u < |s.tasks| && InWindow(s, t) && InWindow(s, u) && t != u ::
          WfTask(s, s.tasks[t]) && WfTask(s, s.tasks[u]) && ModelOf(s, t) != ModelOf(s, u))
  }

  ghost predicate GuardedBy(s: State, x: RunnerId)
    requires x < |s.runners|
  {
    var k := s.runners[x].modelId;
    (k in s.run ==> s.run[k] == x) && (k in s.pend ==> s.pend[k] == x)
  }

  ghost predicate Exclusive(s: State) {
    Inv(s) && Disjoint(s) && Held(s) && Guarded(s)
  }

  /** The windows other than task t are guarded, and none of them is on model k. */
  ghost predicate GuardedElsewhere(s: State, t: TaskId, k: ModelId)
    requires Wf(s)
  {
    && (forall u | 0 <= u < |s.tasks| && u != t && InWindow(s, u) ::
          WfTask(s, s.tasks[u]) && GuardedBy(s, s.tasks[u].pc.target) && ModelOf(s, u) != k)
    && (forall u, v | 0 <= u < |s.tasks| && 0 <= v < |s.tasks| && u != t && v != t && InWindow(s, u) && InWindow(s, v)
      && u != v ::
          WfTask(s, s.tasks[u]) && WfTask(s, s.tasks[v]) && ModelOf(s, u) != ModelOf(s, v))
  }

  lemma RegisterHeld(s: State, t: TaskId, r: RunnerId)
    requires Inv(s) && Disjoint(s) && Held(s)
    requires t < |s.tasks| && r < |s.runners| && s.tasks[t].subject == Some(r) && s.runners[r].stage == Created
    requires s.runners[r].modelId !in s.run && s.runners[r].modelId !in s.pend
    requires Wf(RegisterPending(s, t, r))
    ensures Disjoint(RegisterPending(s, t, r)) && Held(RegisterPending(s, t, r))
  {
    var s' := RegisterPending(s, t, r);
    forall q | 0 <= q < |s'.runners| && s'.runners[q].stage == Registered && !s'.runners[q].removed
      ensures InPend(s', q)
    {
      assert q != r ==> InPend(s, q);
    }
  }

  lemma RegisterGuarded(s: State, t: TaskId, r: RunnerId)
    requires Inv(s) && t < |s.tasks| && r < |s.runners| && s.tasks[t].subject == Some(r)
    requires GuardedElsewhere(s, t, s.runners[r].modelId)
    requires Wf(RegisterPending(s, t, r))
    ensures Guarded(RegisterPending(s, t, r))
  {
    var s' := RegisterPending(s, t, r);
    forall u | 0 <= u < |s'.tasks| && InWindow(s', u)
      ensures WfTask(s', s'.tasks[u]) && GuardedBy(s', s'.tasks[u].pc.target)
    {
      assert u != t && InWindow(s, u) && WfTask(s, s.tasks[u]);
    }
    forall u, v | 0 <= u < |s'.tasks| && 0 <= v < |s'.tasks| && InWindow(s', u) && InWindow(s', v) && u != v
      ensures WfTask(s', s'.tasks[u]) && WfTask(s', s'.tasks[v]) && ModelOf(s', u) != ModelOf(s', v)
    {
      assert u != t && v != t && InWindow(s, u) && InWindow(s, v);
    }
  }

  /** Registering into an empty place keeps the places exclusive. */
  lemma RegisterExclusive(s: State, t: TaskId, r: RunnerId)
    requires Inv(s) && Disjoint(s) && Held(s)
    requires t < |s.tasks| && r < |s.runners| && s.tasks[t].subject == Some(r) && s.runners[r].stage == Created
    requires s.runners[r].modelId !in s.run && s.runners[r].modelId !in s.pend
    requires GuardedElsewhere(s, t, s.runners[r].modelId)
    ensures Exclusive(RegisterPending(s, t, r))
  {
    RegisterKeeps(s, t, r);
    RegisterHeld(s, t, r);
    RegisterGuarded(s, t, r);
  }

  lemma OpenWindow(s: State, t: TaskId, r: RunnerId, x: RunnerId)
    requires Exclusive(s) && t < |s.tasks| && s.tasks[t] == Task(Some(r), s.tasks[t].catches, Adding)
    requires r < |s.runners| && Current(s, s.runners[r].modelId) == Some(x)
    requires GuardedElsewhere(s, t, s.runners[r].modelId)
    requires Inv(SetPc(s, t, Removing(x, false, Register)))
    ensures Exclusive(SetPc(s, t, Removing(x, false, Register)))
  {
    var s' := SetPc(s, t, Removing(x, false, Register));
    forall u | 0 <= u < |s'.tasks| && InWindow(s', u)
      ensures WfTask(s', s'.tasks[u]) && GuardedBy(s', s'.tasks[u].pc.target)
    {
      if u != t { assert InWindow(s, u); }
    }
    forall u, v | 0 <= u < |s'.tasks| && 0 <= v < |s'.tasks| && InWindow(s', u) && InWindow(s', v) && u != v
      ensures WfTask(s', s'.tasks[u]) && WfTask(s', s'.tasks[v]) && ModelOf(s', u) != ModelOf(s', v)
    {
      if u != t { assert InWindow(s, u); }
      if v != t { assert InWindow(s, v); }
    }
  }

  lemma BeginAddExclusive(s: State, t: TaskId)
    requires Exclusive(s) && AdvanceEnabled(s, t) && s.tasks[t].pc == Adding && OneAddAtATime(s, Advance(t))
    ensures Exclusive(AdvanceTask(s, t))
  {
    assert WfTask(s, s.tasks[t]);
    var r := s.tasks[t].subject.value;
    assert GuardedElsewhere(s, t, s.runners[r].modelId);
    match Current(s, s.runners[r].modelId)
    case None => RegisterExclusive(s, t, r);
    case Some(x) => AdvanceKeeps(s, t); OpenWindow(s, t, r, x);
  }

  /** Taking a runner out of the dictionaries: the entries only become fewer. */
  lemma ShrinkGuarded(s: State, s': State)
    requires Inv(s) && Guarded(s) && Inv(s') && s'.tasks == s.tasks && |s'.runners| == |s.runners|
    requires forall r | 0 <= r < |s.runners| :: s'.runners[r].modelId == s.runners[r].modelId
    requires forall k | k in s'.run :: k in s.run && s'.run[k] == s.run[k]
    requires forall k | k in s'.pend :: k in s.pend && s'.pend[k] == s.pend[k]
    ensures Guarded(s')
  {
    forall u | 0 <= u < |s'.tasks| && InWindow(s', u)
      ensures WfTask(s', s'.tasks[u]) && GuardedBy(s', s'.tasks[u].pc.target)
    {
      assert InWindow(s, u);
    }
    forall t, u | 0 <= t < |s'.tasks| && 0 <= u < |s'.tasks| && InWindow(s', t) && InWindow(s', u) && t != u
      ensures WfTask(s', s'.tasks[t]) && WfTask(s', s'.tasks[u]) && ModelOf(s', t) != ModelOf(s', u)
    {
      assert InWindow(s, t) && InWindow(s, u);
    }
  }

  lemma DeleteHeld(s: State, x: RunnerId)
    requires Wf(s) && Disjoint(s) && Held(s) && x < |s.runners| && Wf(Delete(s, x))
    ensures Disjoint(Delete(s, x)) && Held(Delete(s, x))
  {
    var s' := Delete(s, x);
    forall q | 0 <= q < |s'.runners| && s'.runners[q].stage == Registered && !s'.runners[q].removed
      ensures InPend(s', q)
    {
      assert q != x && InPend(s, q);
    }
  }

  lemma DeleteExclusive(s: State, x: RunnerId)
    requires Exclusive(s) && x < |s.runners| && s.runners[x].closed
    ensures Exclusive(Delete(s, x))
  {
    DeleteKeeps(s, x);
    DeleteHeld(s, x);
    ShrinkGuarded(s, Delete(s, x));
  }

  /** The new state has the same runners as far as places are concerned, and perhaps newly created ones. */
  ghost predicate SameRunners(s: State, s': State) {
    && |s'.runners| >= |s.runners|
    && (forall r | 0 <= r < |s.runners| ::
          s'.runners[r].modelId == s.runners[r].modelId && s'.runners[r].stage == s.runners[r].stage
          && s'.runners[r].removed == s.runners[r].removed)
    && (forall r | |s.runners| <= r < |s'.runners| :: s'.runners[r].stage == Created)
  }

  /** No task has entered a window; those inside stay as they are. */
  ghost predicate SameWindows(s: State, s': State) {
    forall u | 0 <= u < |s'.tasks| && InWindow(s', u) ::
      u < |s.tasks| && InWindow(s, u) && s'.tasks[u].pc.target == s.tasks[u].pc.target
        && s'.tasks[u].subject == s.tasks[u].subject
  }

  lemma MoveHeld(s: State, s': State)
    requires Wf(s) && Disjoint(s) && Held(s) && Wf(s') && s'.run == s.run && s'.pend == s.pend && SameRunners(s, s')
    ensures Disjoint(s') && Held(s')
  {
    forall q | 0 <= q < |s'.runners| && s'.runners[q].stage == Registered && !s'.runners[q].removed
      ensures InPend(s', q)
    {
      assert InPend(s, q);
    }
  }

  lemma MoveGuarded(s: State, s': State)
    requires Wf(s) && Guarded(s) && Wf(s') && s'.run == s.run && s'.pend == s.pend && SameRunners(s, s')
        && SameWindows(s, s')
    ensures Guarded(s')
  {
    forall u | 0 <= u < |s'.tasks| && InWindow(s', u)
      ensures WfTask(s', s'.tasks[u]) && GuardedBy(s', s'.tasks[u].pc.target)
    {
      assert WfTask(s, s.tasks[u]);
    }
    forall u, v | 0 <= u < |s'.tasks| && 0 <= v < |s'.tasks| && InWindow(s', u) && InWindow(s', v) && u != v
      ensures WfTask(s', s'.tasks[u]) && WfTask(s', s'.tasks[v]) && ModelOf(s', u) != ModelOf(s', v)
    {
      assert WfTask(s, s.tasks[u]) && WfTask(s, s.tasks[v]);
    }
  }

  /** A change of program counters that opens no window. */
  lemma MoveExclusive(s: State, s': State)
    requires Exclusive(s) && Inv(s') && s'.run == s.run && s'.pend == s.pend && SameRunners(s, s') && SameWindows(s, s')
    ensures Exclusive(s')
  {
    MoveHeld(s, s');
    MoveGuarded(s, s');
  }

  lemma WaitThenRegister(s: State, t: TaskId, x: RunnerId, r: RunnerId)
    requires Exclusive(s) && t < |s.tasks| && s.tasks[t].pc == Removing(x, true, Register) && x < |s.runners|
    requires s.tasks[t].subject == Some(r) && r < |s.runners| && s.runners[x].modelId == s.runners[r].modelId
    requires s.runners[x].closed
    ensures Exclusive(RegisterPending(Delete(s, x), t, r))
  {
    var s1 := Delete(s, x);
    DeleteExclusive(s, x);
    assert InWindow(s, t) && GuardedBy(s, x);
    DeleteVacates(s, x);
    assert s1.tasks == s.tasks && InWindow(s1, t) && s1.runners[r].stage == s.runners[r].stage;
    assert s.runners[r].owner == t && s.runners[r].stage == Created;
    OtherWindows(s1, t);
    RegisterExclusive(s1, t, r);
  }

  /** Once the runner that guards a place is deleted, the place is empty. */
  lemma DeleteVacates(s: State, x: RunnerId)
    requires x < |s.runners| && GuardedBy(s, x)
    ensures s.runners[x].modelId !in Delete(s, x).run && s.runners[x].modelId !in Delete(s, x).pend
  {}

  lemma OtherWindows(s: State, t: TaskId)
    requires Wf(s) && Guarded(s) && InWindow(s, t) && WfTask(s, s.tasks[t])
    ensures GuardedElsewhere(s, t, ModelOf(s, t))
  {}

  lemma EndRemoveExclusive(s: State, t: TaskId, x: RunnerId, next: Next)
    requires Exclusive(s) && t < |s.tasks| && s.tasks[t].pc == Removing(x, true, next) && x < |s.runners|
    ensures WfTask(s, s.tasks[t]) && Exclusive(EndRemove(s, t, x, next))
  {
    assert WfTask(s, s.tasks[t]);
    if next == Register {
      WaitThenRegister(s, t, x, s.tasks[t].subject.value);
    } else {
      EndRemoveKeeps(s, t, x, next);
      DeleteExclusive(s, x);
      DeletedPlaces(s, t, x, next);
      MoveExclusive(Delete(s, x), EndRemove(s, t, x, next));
    }
  }

  lemma DeletedPlaces(s: State, t: TaskId, x: RunnerId, next: Next)
    requires t < |s.tasks| && x < |s.runners| && next != Register
    ensures var s1, s' := Delete(s, x), EndRemove(s, t, x, next);
      s'.run == s1.run && s'.pend == s1.pend && SameRunners(s1, s') && SameWindows(s1, s')
  {}

  lemma EndInitHeld(s: State, t: TaskId, q: RunnerId, o: InitOutcome, s': State)
    requires Inv(s) && Disjoint(s) && Held(s) && t < |s.tasks| && q < |s.runners| && s' == EndInit(s, t, q, o) && Wf(s')
    requires s.runners[q].stage == Registered && (o == Ready ==> !s.runners[q].removed)
    ensures Disjoint(s') && Held(s')
  {
    EndInitSummary(s, t, q, o);
    assert o == Ready ==> InPend(s, q);
    forall r | 0 <= r < |s'.runners| && s'.runners[r].stage == Registered && !s'.runners[r].removed
      ensures InPend(s', r)
    {
      assert r != q && InPend(s, r);
    }
  }

  lemma EndInitGuarded(s: State, t: TaskId, q: RunnerId, o: InitOutcome, s': State)
    requires Inv(s) && Held(s) && Guarded(s) && t < |s.tasks| && q < |s.runners| && s' == EndInit(s, t, q, o) && Wf(s')
    requires s.runners[q].stage == Registered && (o == Ready ==> !s.runners[q].removed)
    ensures Guarded(s')
  {
    EndInitSummary(s, t, q, o);
    forall u | 0 <= u < |s'.tasks| && InWindow(s', u)
      ensures WfTask(s', s'.tasks[u]) && GuardedBy(s', s'.tasks[u].pc.target)
    {
      assert InWindow(s, u) && WfTask(s, s.tasks[u]) && WfTask(s', s'.tasks[u]);
      EndInitGuardedBy(s, t, q, o, s', s.tasks[u].pc.target);
    }
    EndInitApart(s, t, q, o, s');
  }

  /** A publication puts into a guarded place only the runner that was pending there. */
  lemma EndInitGuardedBy(s: State, t: TaskId, q: RunnerId, o: InitOutcome, s': State, x: RunnerId)
    requires Wf(s) && Held(s) && t < |s.tasks| && q < |s.runners| && s' == EndInit(s, t, q, o)
    requires s.runners[q].stage == Registered && (o == Ready ==> !s.runners[q].removed)
    requires x < |s.runners| && GuardedBy(s, x)
    ensures x < |s'.runners| && GuardedBy(s', x)
  {
    EndInitSummary(s, t, q, o);
    assert o == Ready ==> InPend(s, q);
  }

  /** The end of an init neither opens a window nor changes one. */
  lemma EndInitWindow(s: State, t: TaskId, q: RunnerId, o: InitOutcome, s': State, u: TaskId)
    requires Wf(s) && t < |s.tasks| && q < |s.runners| && s' == EndInit(s, t, q, o) && Wf(s') && InWindow(s', u)
    ensures InWindow(s, u) && WfTask(s, s.tasks[u]) && WfTask(s', s'.tasks[u]) && ModelOf(s', u) == ModelOf(s, u)
  {
    EndInitSummary(s, t, q, o);
    assert WfTask(s, s.tasks[u]) && WfTask(s', s'.tasks[u]);
  }

  lemma EndInitApart(s: State, t: TaskId, q: RunnerId, o: InitOutcome, s': State)
    requires Wf(s) && Guarded(s) && t < |s.tasks| && q < |s.runners| && s' == EndInit(s, t, q, o) && Wf(s')
    ensures forall a, b | 0 <= a < |s'.tasks| && 0 <= b < |s'.tasks| && InWindow(s', a) && InWindow(s', b) && a != b ::
              WfTask(s', s'.tasks[a]) && WfTask(s', s'.tasks[b]) && ModelOf(s', a) != ModelOf(s', b)
  {
    forall a, b | 0 <= a < |s'.tasks| && 0 <= b < |s'.tasks| && InWindow(s', a) && InWindow(s', b) && a != b
      ensures WfTask(s', s'.tasks[a]) && WfTask(s', s'.tasks[b]) && ModelOf(s', a) != ModelOf(s', b)
    {
      EndInitWindow(s, t, q, o, s', a);
      EndInitWindow(s, t, q, o, s', b);
    }
  }

  lemma EndInitExclusive(s: State, t: TaskId, o: InitOutcome)
    requires Exclusive(s) && Enabled(s, InitReturns(t, o)) && NoInitAfterRemoval(s, InitReturns(t, o))
    ensures Exclusive(Apply(s, InitReturns(t, o)))
    ensures !OverwritesOpen(s, InitReturns(t, o))
  {
    assert WfTask(s, s.tasks[t]);
    var q := s.tasks[t].subject.value;
    EndInitKeeps(s, t, q, o);
    EndInitHeld(s, t, q, o, EndInit(s, t, q, o));
    EndInitGuarded(s, t, q, o, EndInit(s, t, q, o));
    assert o == Ready ==> InPend(s, q);
  }

  lemma MovesExclusive(s: State, t: TaskId)
    requires Exclusive(s) && AdvanceEnabled(s, t)
    requires s.tasks[t].pc.Failing? || s.tasks[t].pc.Sending? || s.tasks[t].pc.Gathering?
        || (s.tasks[t].pc.Removing? && !s.tasks[t].pc.closing)
    ensures Exclusive(AdvanceTask(s, t))
  {
    AdvanceKeeps(s, t);
    assert WfTask(s, s.tasks[t]);
    MoveExclusive(s, AdvanceTask(s, t));
  }

  lemma AdvanceExclusive(s: State, t: TaskId)
    requires Exclusive(s) && AdvanceEnabled(s, t) && OneAddAtATime(s, Advance(t))
    ensures Exclusive(AdvanceTask(s, t))
  {
    assert WfTask(s, s.tasks[t]);
    match s.tasks[t].pc
    case Adding => BeginAddExclusive(s, t);
    case Removing(x, closing, next) => if closing { EndRemoveExclusive(s, t, x, next); } else { MovesExclusive(s, t); }
    case _ => MovesExclusive(s, t);
  }

  lemma StepExclusive(s: State, l: Label)
    requires Exclusive(s) && OneAddAtATime(s, l) && NoInitAfterRemoval(s, l)
    ensures Exclusive(Apply(s, l)) && !OverwritesOpen(s, l)
  {
    if Enabled(s, l) {
      StepKeeps(s, l);
      match l
      case Deliver(_, data) =>
        DeliverPlaces(s, l);
        MoveExclusive(s, Apply(s, l));
      case Resync(t, order) => ResyncExclusive(s, t, order);
      case Advance(t) => AdvanceExclusive(s, t);
      case InitReturns(t, o) => EndInitExclusive(s, t, o);
      case _ => MoveExclusive(s, Apply(s, l));
    }
  }

  lemma DeliverPlaces(s: State, l: Label)
    requires Enabled(s, l) && l.Deliver?
    ensures var s' := Apply(s, l); s'.run == s.run && s'.pend == s.pend && SameRunners(s, s') && SameWindows(s, s')
  {
    HandleEntriesFrame(s, l.data);
    HandleEntriesTasks(s, l.data);
  }

  lemma ResyncExclusive(s: State, t: TaskId, order: seq<ModelId>)
    requires Exclusive(s) && Enabled(s, Resync(t, order))
    ensures Exclusive(Apply(s, Resync(t, order)))
  {
    var s' := Apply(s, Resync(t, order));
    StepKeeps(s, Resync(t, order));
    ResyncKeepsMaps(s, t, order);
    MoveExclusive(s, s');
  }

  lemma {:induction false} RunExclusive(s: State, ls: seq<Label>)
    requires Exclusive(s) && Disciplined(s, ls)
    ensures Exclusive(After(s, ls)) && NeverOverwritesOpen(s, ls)
    decreases |ls|
  {
    if ls != [] {
      StepExclusive(s, ls[0]);
      RunExclusive(Apply(s, ls[0]), ls[1..]);
    }
  }

  // ----- Removed runners are not published -----

  ghost predicate Unremoved(s: State) {
    forall k | k in s.run :: s.run[k] < |s.runners| && !s.runners[s.run[k]].removed
  }

  lemma DeleteUnremoved(s: State, x: RunnerId)
    requires WfMap(s, s.run) && Unremoved(s) && x < |s.runners|
    ensures Unremoved(Delete(s, x))
  {
    var s' := Delete(s, x);
    forall k | k in s'.run ensures s'.run[k] < |s'.runners| && !s'.runners[s'.run[k]].removed {
      assert s.runners[s.run[k]].modelId == k;
    }
  }

  lemma EndRemoveUnremoved(s: State, t: TaskId, x: RunnerId, next: Next)
    requires WfMap(s, s.run) && Unremoved(s) && t < |s.tasks| && x < |s.runners|
    requires next == Register ==> s.tasks[t].subject.Some? && s.tasks[t].subject.value < |s.runners|
    ensures Unremoved(EndRemove(s, t, x, next))
  {
    DeleteUnremoved(s, x);
  }

  lemma AdvanceUnremoved(s: State, t: TaskId)
    requires Wf(s) && Unremoved(s) && AdvanceEnabled(s, t)
    ensures Unremoved(AdvanceTask(s, t))
  {
    assert WfTask(s, s.tasks[t]);
    match s.tasks[t].pc
    case Removing(x, closing, next) => if closing { EndRemoveUnremoved(s, t, x, next); }
    case _ =>
  }

  /** Only a step that breaks H2 publishes a removed runner. */
  lemma StepUnremoved(s: State, l: Label)
    requires Inv(s) && Unremoved(s) && NoInitAfterRemoval(s, l)
    ensures Unremoved(Apply(s, l))
  {
    if Enabled(s, l) {
      match l
      case Deliver(_, data) => HandleEntriesFrame(s, data);
      case Resync(t, order) => ResyncKeepsMaps(s, t, order);
      case Advance(t) => AdvanceUnremoved(s, t);
      case InitReturns(t, o) => assert WfTask(s, s.tasks[t]); EndInitSummary(s, t, s.tasks[t].subject.value, o);
      case _ =>
    }
  }

  lemma {:induction false} RunUnremoved(s: State, ls: seq<Label>)
    requires Inv(s) && Unremoved(s) && Disciplined(s, ls)
    ensures Unremoved(After(s, ls))
    decreases |ls|
  {
    if ls != [] {
      StepKeeps(s, ls[0]);
      StepUnremoved(s, ls[0]);
      RunUnremoved(Apply(s, ls[0]), ls[1..]);
    }
  }

  lemma {:induction false} LastOfAlways(s: State, ls: seq<Label>)
    requires AlwaysNoOrphan(s, ls)
    ensures NoOrphan(After(s, ls))
    decreases |ls|
  {
    if ls != [] { LastOfAlways(Apply(s, ls[0]), ls[1..]); }
  }

  /**
   No orphan connection. In every run whose steps satisfy H1 and H2, at every moment: no model id is
   in both dictionaries, every live runner is the published one of its model, and so a model has at
   most one live runner.
   */
  lemma NoOrphanConnection(start: State, ls: seq<Label>)
    requires Initial(start) && Disciplined(start, ls)
    ensures AlwaysNoOrphan(start, ls)
    ensures var s := After(start, ls);
      && s.run.Keys !! s.pend.Keys
      && (forall r | 0 <= r < |s.runners| && Live(s, r) ::
        s.runners[r].modelId in s.run && s.run[s.runners[r].modelId] == r)
      && (forall r, q | 0 <= r < |s.runners| && 0 <= q < |s.runners| && Live(s, r) && Live(s, q)
        && s.runners[r].modelId == s.runners[q].modelId :: r == q)
  {
    RunExclusive(start, ls);
    NoOrphanExactlyWhen(start, ls);
    LastOfAlways(start, ls);
    var s := After(start, ls);
    forall r | 0 <= r < |s.runners| && Live(s, r)
      ensures s.runners[r].modelId in s.run && s.run[s.runners[r].modelId] == r
    {
      assert InRun(s, r);
    }
  }
}
