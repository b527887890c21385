/** When the handler of an event has ended without raising, every task of the event has ended. */
module ClusterHandler {
  import opened Common
  import opened ClusterSteps
  import opened ClusterInvariant
  import opened ClusterLifecycle
  import opened ClusterSafety
  import opened ClusterRuns
  import opened ClusterConfluence
  import opened ClusterTable

  /** The task of the handler that Deliver starts in s. */
  function HandlerOf(s: State, data: seq<ModelUpdate>): TaskId {
    |HandleEntries(s, data).tasks|
  }

  /** Advancing moves one task, which does not gather afterwards. */
  lemma AdvanceMovesOne(s: State, t: TaskId)
    requires Wf(s) && AdvanceEnabled(s, t)
    ensures var s' := AdvanceTask(s, t);
      |s'.tasks| == |s.tasks| && s'.tasks == s.tasks[t := s'.tasks[t]] && !s'.tasks[t].pc.Gathering?
    ensures s.tasks[t].pc.Gathering? ==>
      AdvanceTask(s, t).tasks[t].pc == Finished(SomeRaised(s, s.tasks[t].pc.lo, s.tasks[t].pc.hi))
  {
    assert WfTask(s, s.tasks[t]);
    match s.tasks[t].pc
    case Removing(x, closing, next) => if closing { assert Delete(s, x).tasks == s.tasks; }
    case _ =>
  }

  /**
   A `gather` ends exactly when a gathered task has raised, whatever the others do, or all have returned
   and no resync is due; the handler raises exactly in the first case.
   */
  lemma GatherEndsExactlyWhen(s: State, t: TaskId, lo: TaskId, hi: TaskId, resync: Option<set<ModelId>>)
    requires Wf(s) && t < |s.tasks| && s.tasks[t].pc == Gathering(lo, hi, resync)
    ensures hi <= |s.tasks|
    ensures var s' := Apply(s, Advance(t));
      var raised := exists c: TaskId :: lo <= c < hi && s.tasks[c].pc == Finished(true);
      var returned := forall c: TaskId | lo <= c < hi :: s.tasks[c].pc == Finished(false);
      s' == if raised || (returned && resync == None)
            then s.(tasks := s.tasks[t := s.tasks[t].(pc := Finished(raised))]) else s
  {
    assert WfTask(s, s.tasks[t]);
    assert SomeRaised(s, lo, hi) <==> exists c: TaskId :: lo <= c < hi && s.tasks[c].pc == Finished(true);
  }

  /**
   A resync starts only when all gathered tasks have returned; it then starts one removal for each
   published model that the event does not name, and none for the others.
   */
  lemma ResyncRemovesUnnamed(s: State, t: TaskId, lo: TaskId, hi: TaskId, named: set<ModelId>, order: seq<ModelId>)
    requires Wf(s) && t < |s.tasks| && s.tasks[t].pc == Gathering(lo, hi, Some(named))
    requires Distinct(order) && forall k :: k in order <==> k in s.run && k !in named
    ensures hi <= |s.tasks|
    ensures var s' := Apply(s, Resync(t, order));
      if forall c: TaskId | lo <= c < hi :: s.tasks[c].pc == Finished(false) then
        && s'.run == s.run && s'.pend == s.pend && s'.runners == s.runners && s'.submitted == s.submitted
        && |s'.tasks| == |s.tasks| + |order|
        && s'.tasks[..|s.tasks|] == s.tasks[t := s.tasks[t].(pc := Gathering(|s.tasks|, |s'.tasks|, None))]
        && forall i | 0 <= i < |order| ::
             s'.tasks[|s.tasks| + i] == Task(None, false, Removing(s.run[order[i]], false, Return))
      else s' == s
  {
    assert WfTask(s, s.tasks[t]);
    assert Named(order) == s.run.Keys - named;
    if ResyncEnabled(s, t, order) { ResyncKeepsMaps(s, t, order); }
  }

  /** The tasks from lo on are those of handler h, which waits for them, has raised, or has seen all of them end. */
  ghost predicate Tended(s: State, lo: TaskId, h: TaskId) {
    && lo <= h < |s.tasks|
    && (forall t | 0 <= t < |s.tasks| && t != h :: !s.tasks[t].pc.Gathering?)
    && (forall t | 0 <= t < lo :: s.tasks[t].pc.Finished?)
    && match s.tasks[h].pc
       case Gathering(a, b, resync) =>
         || (a == lo && b == h && |s.tasks| == h + 1)
         || (a == h + 1 && b == |s.tasks| && resync == None && forall t | lo <= t < h :: s.tasks[t].pc.Finished?)
       case Finished(raised) => raised || Quiet(s)
       case _ => false
  }

  lemma DeliverTended(s: State, isInit: bool, data: seq<ModelUpdate>)
    requires Quiet(s) && Wf(s)
    ensures Tended(Apply(s, Deliver(isInit, data)), |s.tasks|, HandlerOf(s, data))
  {
    HandleEntriesFrame(s, data);
    HandleEntriesTasks(s, data);
  }

  lemma AdvanceTended(s: State, t: TaskId, lo: TaskId, h: TaskId)
    requires Wf(s) && AdvanceEnabled(s, t) && Tended(s, lo, h)
    ensures Tended(AdvanceTask(s, t), lo, h)
  {
    AdvanceMovesOne(s, t);
  }

  lemma EndInitTended(s: State, t: TaskId, o: InitOutcome, lo: TaskId, h: TaskId)
    requires Enabled(s, InitReturns(t, o)) && Tended(s, lo, h)
    ensures Tended(Apply(s, InitReturns(t, o)), lo, h)
  {
    assert WfTask(s, s.tasks[t]);
    EndInitSummary(s, t, s.tasks[t].subject.value, o);
  }

  lemma ResyncTended(s: State, t: TaskId, order: seq<ModelId>, lo: TaskId, h: TaskId)
    requires Wf(s) && ResyncEnabled(s, t, order) && Tended(s, lo, h)
    ensures Tended(Apply(s, Resync(t, order)), lo, h)
  {
    ResyncKeepsMaps(s, t, order);
  }

  lemma StepTended(s: State, l: Label, out: Outcomes, lo: TaskId, h: TaskId)
    requires Tended(s, lo, h) && Internal(s, l, out)
    ensures Tended(Apply(s, l), lo, h)
  {
    if Enabled(s, l) {
      match l
      case Advance(t) => AdvanceTended(s, t, lo, h);
      case InitReturns(t, o) => EndInitTended(s, t, o, lo, h);
      case Resync(t, order) => ResyncTended(s, t, order, lo, h);
    }
  }

  lemma {:induction false} RunTended(s: State, ls: seq<Label>, out: Outcomes, lo: TaskId, h: TaskId)
    requires Tended(s, lo, h) && Settling(s, ls, out)
    ensures Tended(After(s, ls), lo, h)
    decreases |ls|
  {
    if ls != [] {
      StepTended(s, ls[0], out, lo, h);
      RunTended(Apply(s, ls[0]), ls[1..], out, lo, h);
    }
  }

  /**
   An event delivered at rest: once its handler has returned, nothing is running, because each of its
   `gather` calls waited for every task. A handler that raised may leave tasks behind.
   */
  lemma HandlerReturnsAtRest(s: State, isInit: bool, data: seq<ModelUpdate>, out: Outcomes, ls: seq<Label>)
    requires Inv(s) && Quiet(s) && Settling(Apply(s, Deliver(isInit, data)), ls, out)
    ensures var s2 := After(Apply(s, Deliver(isInit, data)), ls);
      && HandlerOf(s, data) < |s2.tasks|
      && (s2.tasks[HandlerOf(s, data)].pc == Finished(false) ==> Quiet(s2))
  {
    DeliverTended(s, isInit, data);
    RunTended(Apply(s, Deliver(isInit, data)), ls, out, |s.tasks|, HandlerOf(s, data));
  }

  // ----- When the handler raises -----

  /** A task of the event is going to raise exactly when the init of a runner built for it is. */
  lemma EventRaises(s: State, s1: State, data: seq<ModelUpdate>, out: Outcomes)
    requires Inv(s) && Inv(s1) && s1 == HandleEntries(s, data)
    ensures SomeWillRaise(s1, out, |s.tasks|, |s1.tasks|) <==> SomeRaise(out, |s.runners|, |s1.runners|)
  {
    HandleEntriesFrame(s, data);
    HandleEntriesTasks(s, data);
    if c: TaskId :| |s.tasks| <= c < |s1.tasks| && WillRaise(s1, out, c) {
      TasksAddNewRunners(s, s1, c);
      assert out(s1.tasks[c].subject.value) == Raised;
    }
    if r: RunnerId :| |s.runners| <= r < |s1.runners| && out(r) == Raised {
      NewRunnersHaveTasks(s, s1, r);
      assert WillRaise(s1, out, s1.runners[r].owner);
    }
  }

  lemma TasksAddNewRunners(s: State, s1: State, c: TaskId)
    requires Owned(s) && Owned(s1) && |s.tasks| <= c < |s1.tasks| && s1.tasks[c].subject.Some?
    requires |s1.runners| >= |s.runners| && forall r | 0 <= r < |s.runners| :: s1.runners[r].owner == s.runners[r].owner
    ensures |s.runners| <= s1.tasks[c].subject.value < |s1.runners|
  {}

  lemma NewRunnersHaveTasks(s: State, s1: State, r: RunnerId)
    requires Owned(s) && Owned(s1) && |s.runners| <= r < |s1.runners| && |s1.tasks| >= |s.tasks|
    requires forall t | 0 <= t < |s.tasks| :: s1.tasks[t] == s.tasks[t]
    ensures |s.tasks| <= s1.runners[r].owner < |s1.tasks| && s1.tasks[s1.runners[r].owner].subject == Some(r)
  {}

  /** The handler as before, and: it has raised if a task of the event is going to (if raises), and else not. */
  ghost predicate Awaits(s: State, out: Outcomes, lo: TaskId, h: TaskId, raises: bool) {
    && Inv(s) && Tended(s, lo, h) && (SomeWillRaise(s, out, lo, h) <==> raises)
    && (forall t | 0 <= t < |s.tasks| :: !Recreates(s.tasks[t].pc))
    && (s.tasks[h].pc.Finished? ==> (s.tasks[h].pc.raised <==> raises))
    && (s.tasks[h].pc.Gathering? && s.tasks[h].pc.lo == h + 1 ==> !raises && !SomeWillRaise(s, out, h + 1, |s.tasks|))
  }

  lemma DeliverAwaits(s: State, isInit: bool, data: seq<ModelUpdate>, out: Outcomes)
    requires Inv(s) && Quiet(s)
    ensures var s1 := HandleEntries(s, data);
      Awaits(Apply(s, Deliver(isInit, data)), out, |s.tasks|, |s1.tasks|, SomeRaise(out, |s.runners|, |s1.runners|))
  {
    var s1 := HandleEntries(s, data);
    var s2 := Apply(s, Deliver(isInit, data));
    DeliverTended(s, isInit, data);
    StepKeeps(s, Deliver(isInit, data));
    HandleEntriesKeeps(s, data);
    EventRaises(s, s1, data, out);
    HandleEntriesFrame(s, data);
    HandleEntriesTasks(s, data);
    HandlerAppended(s1, s2, out, |s.tasks|);
  }

  lemma HandlerAppended(s: State, s': State, out: Outcomes, lo: TaskId)
    requires |s'.tasks| == |s.tasks| + 1 && s'.tasks[..|s.tasks|] == s.tasks && s'.runners == s.runners
    ensures SomeWillRaise(s', out, lo, |s.tasks|) <==> SomeWillRaise(s, out, lo, |s.tasks|)
  {
    forall c: TaskId | c < |s.tasks| ensures WillRaise(s, out, c) <==> WillRaise(s', out, c) {
      assert s'.tasks[..|s.tasks|][c] == s.tasks[c];
    }
    if c: TaskId :| lo <= c < |s.tasks| && WillRaise(s, out, c) { assert WillRaise(s', out, c); }
    if c: TaskId :| lo <= c < |s.tasks| && WillRaise(s', out, c) { assert WillRaise(s, out, c); }
  }

  lemma TaskAwaits(s: State, s': State, out: Outcomes, lo: TaskId, h: TaskId, raises: bool)
    requires Awaits(s, out, lo, h, raises) && KeepsRaises(s, s', out) && Inv(s') && Tended(s', lo, h)
    requires |s'.tasks| == |s.tasks| && s'.tasks[h] == s.tasks[h]
    requires forall t | 0 <= t < |s'.tasks| :: !Recreates(s'.tasks[t].pc)
    ensures Awaits(s', out, lo, h, raises)
  {
    SameRaises(s, s', out, lo, h);
    SameRaises(s, s', out, h + 1, |s.tasks|);
  }

  /** What the handler makes of the tasks it has waited for. */
  lemma HandlerEnds(s: State, out: Outcomes, lo: TaskId, h: TaskId, raises: bool)
    requires Awaits(s, out, lo, h, raises) && AdvanceEnabled(s, h) && s.tasks[h].pc.Gathering?
    ensures SomeRaised(s, s.tasks[h].pc.lo, s.tasks[h].pc.hi) <==> raises
  {
    var pc := s.tasks[h].pc;
    if SomeRaised(s, pc.lo, pc.hi) {
      var c :| pc.lo <= c < pc.hi && c < |s.tasks| && s.tasks[c].pc == Finished(true);
      assert WillRaise(s, out, c);
    } else {
      ReturnedRaiseNothing(s, out, pc.lo, pc.hi);
    }
  }

  lemma AdvanceAwaits(s: State, t: TaskId, out: Outcomes, lo: TaskId, h: TaskId, raises: bool)
    requires Awaits(s, out, lo, h, raises) && AdvanceEnabled(s, t)
    ensures Awaits(AdvanceTask(s, t), out, lo, h, raises)
  {
    var s' := AdvanceTask(s, t);
    AdvanceKeeps(s, t);
    AdvanceTended(s, t, lo, h);
    AdvanceRaises(s, out, t);
    if t == h {
      AdvanceMovesOne(s, h);
      HandlerEnds(s, out, lo, h, raises);
      SameRaises(s, s', out, lo, h);
    } else {
      TaskAwaits(s, s', out, lo, h, raises);
    }
  }

  lemma EndInitAwaits(s: State, t: TaskId, o: InitOutcome, out: Outcomes, lo: TaskId, h: TaskId, raises: bool)
    requires Awaits(s, out, lo, h, raises) && Enabled(s, InitReturns(t, o)) && Internal(s, InitReturns(t, o), out)
    ensures Awaits(Apply(s, InitReturns(t, o)), out, lo, h, raises)
  {
    var s' := Apply(s, InitReturns(t, o));
    assert WfTask(s, s.tasks[t]);
    var r := s.tasks[t].subject.value;
    StepKeeps(s, InitReturns(t, o));
    EndInitTended(s, t, o, lo, h);
    EndInitSummary(s, t, r, o);
    EndInitRaises(s, out, t, r, s');
    TaskAwaits(s, s', out, lo, h, raises);
  }

  lemma ResyncAwaits(s: State, t: TaskId, order: seq<ModelId>, out: Outcomes, lo: TaskId, h: TaskId, raises: bool)
    requires Awaits(s, out, lo, h, raises) && ResyncEnabled(s, t, order)
    ensures Awaits(Apply(s, Resync(t, order)), out, lo, h, raises)
  {
    var s' := Apply(s, Resync(t, order));
    StepKeeps(s, Resync(t, order));
    ResyncTended(s, t, order, lo, h);
    ResyncRaises(s, out, t, order);
    ResyncKeepsMaps(s, t, order);
    SameRaises(s, s', out, lo, h);
    forall c: TaskId | h + 1 <= c < |s'.tasks| ensures !WillRaise(s', out, c) {}
  }

  lemma StepAwaits(s: State, l: Label, out: Outcomes, lo: TaskId, h: TaskId, raises: bool)
    requires Awaits(s, out, lo, h, raises) && Internal(s, l, out)
    ensures Awaits(Apply(s, l), out, lo, h, raises)
  {
    if Enabled(s, l) {
      match l
      case Advance(t) => AdvanceAwaits(s, t, out, lo, h, raises);
      case InitReturns(t, o) => EndInitAwaits(s, t, o, out, lo, h, raises);
      case Resync(t, order) => ResyncAwaits(s, t, order, out, lo, h, raises);
    }
  }

  lemma {:induction false} RunAwaits(s: State, ls: seq<Label>, out: Outcomes, lo: TaskId, h: TaskId, raises: bool)
    requires Awaits(s, out, lo, h, raises) && Settling(s, ls, out)
    ensures Awaits(After(s, ls), out, lo, h, raises)
    decreases |ls|
  {
    if ls != [] {
      StepAwaits(s, ls[0], out, lo, h, raises);
      RunAwaits(Apply(s, ls[0]), ls[1..], out, lo, h, raises);
    }
  }

  /**
   An event delivered at rest, with any entries: its handler, once it has ended, has raised if and only
   if the init of a runner built for the event raises.
   */
  lemma HandlerRaisesExactlyWhen(s: State, isInit: bool, data: seq<ModelUpdate>, out: Outcomes, ls: seq<Label>)
    requires Inv(s) && Quiet(s) && Settling(Apply(s, Deliver(isInit, data)), ls, out)
    ensures var s2 := After(Apply(s, Deliver(isInit, data)), ls);
      && HandlerOf(s, data) < |s2.tasks|
      && (s2.tasks[HandlerOf(s, data)].pc.Finished? ==>
            (s2.tasks[HandlerOf(s, data)].pc.raised
             <==> SomeRaise(out, |s.runners|, |HandleEntries(s, data).runners|)))
  {
    DeliverAwaits(s, isInit, data, out);
    RunAwaits(Apply(s, Deliver(isInit, data)), ls, out, |s.tasks|, HandlerOf(s, data),
              SomeRaise(out, |s.runners|, |HandleEntries(s, data).runners|));
  }
}
