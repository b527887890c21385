/** The end states of runs: what holds when every task has ended. */
module ClusterRuns {
  import opened ClusterSteps
  import opened ClusterInvariant
  import opened ClusterLifecycle
  import opened ClusterSafety

  // ----- When nothing is running any more -----

  ghost predicate Quiet(s: State) {
    forall t | 0 <= t < |s.tasks| :: s.tasks[t].pc.Finished?
  }

  ghost predicate IsClosing(s: State, t: TaskId, r: RunnerId) {
    t < |s.tasks| && s.tasks[t].pc.Removing? && s.tasks[t].pc.closing && s.tasks[t].pc.target == r
  }

  /** Somebody is inside the close of every runner that is closed but not yet removed. */
  ghost predicate Attended(s: State) {
    forall r | 0 <= r < |s.runners| && s.runners[r].closed && !s.runners[r].removed ::
      exists t: TaskId :: IsClosing(s, t, r)
  }

  lemma EndRemoveFlags(s: State, u: TaskId, x: RunnerId, next: Next, r: RunnerId)
    requires u < |s.tasks| && x < |s.runners| && r < |s.runners|
    requires next == Register ==> s.tasks[u].subject.Some? && s.tasks[u].subject.value < |s.runners|
    ensures var s' := EndRemove(s, u, x, next);
      && r < |s'.runners| && |s'.tasks| == |s.tasks|
      && (s.runners[r].removed || r == x ==> s'.runners[r].removed)
      && (s'.runners[r].closed ==> s.runners[r].closed)
      && (forall t | 0 <= t < |s.tasks| && t != u :: s'.tasks[t] == s.tasks[t])
  {
    assert Delete(s, x).tasks == s.tasks;
    assert Delete(s, x).runners == s.runners[x := s.runners[x].(removed := true)];
  }

  lemma AdvanceFlags(s: State, u: TaskId, r: RunnerId)
    requires Wf(s) && AdvanceEnabled(s, u) && r < |s.runners|
    ensures var s' := AdvanceTask(s, u);
      && r < |s'.runners|
      && (s.runners[r].removed ==> s'.runners[r].removed)
      && (s'.runners[r].closed ==> s.runners[r].closed || IsClosing(s', u, r))
      && (IsClosing(s, u, r) ==> s'.runners[r].removed)
      && (forall t | 0 <= t < |s.tasks| && t != u :: t < |s'.tasks| && s'.tasks[t] == s.tasks[t])
  {
    assert WfTask(s, s.tasks[u]);
    match s.tasks[u].pc
    case Removing(x, closing, next) => if closing { EndRemoveFlags(s, u, x, next, r); }
    case _ =>
  }

  lemma AdvanceAttended(s: State, u: TaskId, r: RunnerId)
    requires Inv(s) && Attended(s) && AdvanceEnabled(s, u)
    requires r < |AdvanceTask(s, u).runners| && AdvanceTask(s, u).runners[r].closed
        && !AdvanceTask(s, u).runners[r].removed
    ensures exists t: TaskId :: IsClosing(AdvanceTask(s, u), t, r)
  {
    var s' := AdvanceTask(s, u);
    if r >= |s.runners| {
      AdvanceBirthOpen(s, u, r);
    } else {
      AdvanceFlags(s, u, r);
      if !IsClosing(s', u, r) {
        var t: TaskId :| IsClosing(s, t, r);
        assert IsClosing(s', t, r);
      }
    }
  }

  lemma AdvanceBirthOpen(s: State, t: TaskId, r: RunnerId)
    requires Wf(s) && AdvanceEnabled(s, t) && |s.runners| <= r < |AdvanceTask(s, t).runners|
    ensures !AdvanceTask(s, t).runners[r].closed
  {
    assert WfTask(s, s.tasks[t]);
    match s.tasks[t].pc
    case Removing(x, closing, next) =>
      if closing && next == Recreate { assert Delete(s, x).tasks == s.tasks; }
    case _ =>
  }

  /** Steps that close nobody and end no close. */
  lemma SameAttended(s: State, s': State)
    requires Attended(s) && |s'.runners| >= |s.runners| && |s'.tasks| >= |s.tasks|
    requires forall r | 0 <= r < |s.runners| ::
        s'.runners[r].closed == s.runners[r].closed && s'.runners[r].removed == s.runners[r].removed
    requires forall r | |s.runners| <= r < |s'.runners| :: !s'.runners[r].closed
    requires forall t | 0 <= t < |s.tasks| && s.tasks[t].pc.Removing? :: s'.tasks[t] == s.tasks[t]
    ensures Attended(s')
  {
    forall r | 0 <= r < |s'.runners| && s'.runners[r].closed && !s'.runners[r].removed
      ensures exists t: TaskId :: IsClosing(s', t, r)
    {
      var t: TaskId :| IsClosing(s, t, r);
      assert IsClosing(s', t, r);
    }
  }

  lemma StepAttended(s: State, l: Label)
    requires Inv(s) && Attended(s)
    ensures Attended(Apply(s, l))
  {
    if Enabled(s, l) {
      match l
      case Deliver(_, data) => HandleEntriesFrame(s, data); SameAttended(s, Apply(s, l));
      case Resync(t, order) => ResyncKeepsMaps(s, t, order); SameAttended(s, Apply(s, l));
      case Advance(u) =>
        var s' := Apply(s, l);
        forall r | 0 <= r < |s'.runners| && s'.runners[r].closed && !s'.runners[r].removed
          ensures exists t: TaskId :: IsClosing(s', t, r)
        {
          AdvanceAttended(s, u, r);
        }
      case InitReturns(t, o) =>
        assert WfTask(s, s.tasks[t]);
        EndInitSummary(s, t, s.tasks[t].subject.value, o);
        SameAttended(s, Apply(s, l));
      case _ => SameAttended(s, Apply(s, l));
    }
  }

  lemma {:induction false} RunAttended(s: State, ls: seq<Label>)
    requires Inv(s) && Attended(s)
    ensures Attended(After(s, ls))
    decreases |ls|
  {
    if ls != [] {
      StepKeeps(s, ls[0]);
      StepAttended(s, ls[0]);
      RunAttended(Apply(s, ls[0]), ls[1..]);
    }
  }

  /** When a disciplined run has come to rest, `models_run` names exactly the live runners. */
  lemma RestIsExact(start: State, ls: seq<Label>, r: RunnerId)
    requires Initial(start) && Disciplined(start, ls) && Quiet(After(start, ls))
    ensures Live(After(start, ls), r) <==> InRun(After(start, ls), r)
  {
    var s := After(start, ls);
    NoOrphanConnection(start, ls);
    RunKeeps(start, ls);
    RunUnremoved(start, ls);
    RunAttended(start, ls);
    forall t: TaskId ensures !IsClosing(s, t, r) {}
  }

  /** A reachable state at rest has no waiting add and nothing pending, whatever happened before. */
  lemma RestIsExclusive(s: State)
    requires Inv(s) && Quiet(s)
    ensures Exclusive(s) && s.pend == EMPTY && forall r | 0 <= r < |s.runners| :: s.runners[r].stage.Settled?
  {
    forall r | 0 <= r < |s.runners| ensures s.runners[r].stage.Settled? {
      assert s.tasks[s.runners[r].owner].pc.Finished?;
    }
    forall k ensures k !in s.pend {}
  }
}
