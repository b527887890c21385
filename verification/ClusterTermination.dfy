/** Every event comes to rest: its tasks never wait for each other in a circle and never run for ever. */
module ClusterTermination {
  import opened Common
  import opened ClusterSteps
  import opened ClusterInvariant
  import opened ClusterLifecycle
  import opened ClusterSafety
  import opened ClusterRuns
  import opened ClusterConfluence
  import opened ClusterHandler
  import opened ClusterRefinement
  import opened ClusterTable

  // ----- A measure -----

  /** An upper bound on the steps a task has left, other than the removals a resync starts. */
  function Rank(pc: Pc): nat {
    match pc
    case Finished(_) => 0
    case Gathering(_, _, _) => 1
    case Removing(_, closing, next) =>
      (if closing then 1 else 2) + (match next case Return => 0 case Register => 5 case Recreate => 8)
    case Sending(_) => 3
    case Failing(_, _, _) => 4
    case Initializing => 5
    case Adding => 8
  }

  function ResyncRank(pc: Pc): nat {
    if pc.Gathering? && pc.resync.Some? then 1 else 0
  }

  function Sum(tasks: seq<Task>, w: Pc -> nat): nat {
    if tasks == [] then 0 else Sum(tasks[..|tasks| - 1], w) + w(tasks[|tasks| - 1].pc)
  }

  lemma {:induction false} SumUpdate(tasks: seq<Task>, t: nat, th: Task, w: Pc -> nat)
    requires t < |tasks|
    ensures Sum(tasks[t := th], w) + w(tasks[t].pc) == Sum(tasks, w) + w(th.pc)
    decreases |tasks|
  {
    var n := |tasks| - 1;
    if t == n {
      assert tasks[t := th][..n] == tasks[..n];
    } else {
      assert tasks[t := th][..n] == tasks[..n][t := th];
      SumUpdate(tasks[..n], t, th, w);
    }
  }

  lemma {:induction false} SumZero(tasks: seq<Task>, w: Pc -> nat)
    requires forall t | 0 <= t < |tasks| :: w(tasks[t].pc) == 0
    ensures Sum(tasks, w) == 0
    decreases |tasks|
  {
    if tasks != [] { SumZero(tasks[..|tasks| - 1], w); }
  }

  lemma {:induction false} SumExtend(tasks: seq<Task>, more: seq<Task>, w: Pc -> nat)
    requires forall t | 0 <= t < |more| :: w(more[t].pc) == 0
    ensures Sum(tasks + more, w) == Sum(tasks, w)
    decreases |more|
  {
    if more == [] {
      assert tasks + more == tasks;
    } else {
      var n := |more| - 1;
      assert (tasks + more)[..|tasks + more| - 1] == tasks + more[..n];
      SumExtend(tasks, more[..n], w);
    }
  }

  ghost function Resyncs(s: State): nat { Sum(s.tasks, ResyncRank) }
  ghost function Work(s: State): nat { Sum(s.tasks, Rank) }

  /** A step of one task lowers its rank. */
  lemma AdvanceMoves(s: State, t: TaskId)
    requires Wf(s) && AdvanceEnabled(s, t)
    ensures var s' := AdvanceTask(s, t);
      && |s'.tasks| == |s.tasks| && s'.tasks == s.tasks[t := s'.tasks[t]]
      && Rank(s'.tasks[t].pc) < Rank(s.tasks[t].pc) && ResyncRank(s'.tasks[t].pc) <= ResyncRank(s.tasks[t].pc)
  {
    assert WfTask(s, s.tasks[t]);
    match s.tasks[t].pc
    case Removing(x, closing, next) => if closing { assert Delete(s, x).tasks == s.tasks; }
    case _ =>
  }

  ghost predicate Less(s': State, s: State) {
    Resyncs(s') < Resyncs(s) || (Resyncs(s') == Resyncs(s) && Work(s') < Work(s))
  }

  lemma MoveDecreases(s: State, s': State, t: TaskId)
    requires t < |s.tasks| && |s'.tasks| == |s.tasks| && s'.tasks == s.tasks[t := s'.tasks[t]]
    requires Rank(s'.tasks[t].pc) < Rank(s.tasks[t].pc) && ResyncRank(s'.tasks[t].pc) <= ResyncRank(s.tasks[t].pc)
    ensures Less(s', s)
  {
    SumUpdate(s.tasks, t, s'.tasks[t], Rank);
    SumUpdate(s.tasks, t, s'.tasks[t], ResyncRank);
  }

  lemma EndInitDecreases(s: State, t: TaskId, o: InitOutcome)
    requires Enabled(s, InitReturns(t, o))
    ensures Less(Apply(s, InitReturns(t, o)), s)
  {
    assert WfTask(s, s.tasks[t]);
    EndInitSummary(s, t, s.tasks[t].subject.value, o);
    MoveDecreases(s, Apply(s, InitReturns(t, o)), t);
  }

  lemma ResyncDecreases(s: State, t: TaskId, order: seq<ModelId>)
    requires Wf(s) && ResyncEnabled(s, t, order)
    ensures Less(Apply(s, Resync(t, order)), s)
  {
    var s' := Apply(s, Resync(t, order));
    ResyncKeepsMaps(s, t, order);
    var more := s'.tasks[|s.tasks|..];
    assert s'.tasks == s.tasks[t := s'.tasks[t]] + more;
    SumExtend(s.tasks[t := s'.tasks[t]], more, ResyncRank);
    SumUpdate(s.tasks, t, s'.tasks[t], ResyncRank);
  }

  /** Every step of a task lowers the pair (resyncs to come, work), so no interleaving goes on for ever. */
  lemma StepDecreases(s: State, l: Label, out: Outcomes)
    requires Inv(s) && Enabled(s, l) && Internal(s, l, out)
    ensures Resyncs(Apply(s, l)) < Resyncs(s) || (Resyncs(Apply(s, l)) == Resyncs(s) && Work(Apply(s, l)) < Work(s))
  {
    match l
    case Advance(t) => AdvanceMoves(s, t); MoveDecreases(s, Apply(s, l), t);
    case InitReturns(t, o) => EndInitDecreases(s, t, o);
    case Resync(t, order) => ResyncDecreases(s, t, order);
  }

  // ----- No deadlock -----

  /** No handler waits for another handler. */
  ghost predicate Acyclic(s: State) {
    forall t | 0 <= t < |s.tasks| && s.tasks[t].pc.Gathering? ::
      s.tasks[t].pc.hi <= |s.tasks| && forall c | s.tasks[t].pc.lo <= c < s.tasks[t].pc.hi :: !s.tasks[c].pc.Gathering?
  }

  lemma StepAcyclic(s: State, l: Label)
    requires Inv(s) && Acyclic(s)
    ensures Acyclic(Apply(s, l))
  {
    if Enabled(s, l) {
      match l
      case Deliver(_, data) => DeliverAcyclic(s, l);
      case Resync(t, order) => ResyncAcyclic(s, t, order);
      case Advance(t) => AdvanceMovesOne(s, t);
      case InitReturns(t, o) => assert WfTask(s, s.tasks[t]); EndInitSummary(s, t, s.tasks[t].subject.value, o);
      case _ =>
    }
  }

  lemma DeliverAcyclic(s: State, l: Label)
    requires Acyclic(s) && Enabled(s, l) && l.Deliver?
    ensures Acyclic(Apply(s, l))
  {
    HandleEntriesFrame(s, l.data);
    HandleEntriesTasks(s, l.data);
  }

  lemma ResyncAcyclic(s: State, t: TaskId, order: seq<ModelId>)
    requires Acyclic(s) && Wf(s) && ResyncEnabled(s, t, order)
    ensures Acyclic(Apply(s, Resync(t, order)))
  {
    ResyncKeepsMaps(s, t, order);
  }

  lemma {:induction false} RunAcyclic(s: State, ls: seq<Label>)
    requires Inv(s) && Acyclic(s)
    ensures Acyclic(After(s, ls))
    decreases |ls|
  {
    if ls != [] {
      StepKeeps(s, ls[0]);
      StepAcyclic(s, ls[0]);
      RunAcyclic(Apply(s, ls[0]), ls[1..]);
    }
  }

  lemma {:induction false} Enumerate(names: set<ModelId>) returns (order: seq<ModelId>)
    ensures Distinct(order) && Named(order) == names
  {
    if names == {} {
      order := [];
    } else {
      var k :| k in names;
      var rest := Enumerate(names - {k});
      order := [k] + rest;
      forall j | j in rest ensures j != k { assert j in Named(rest); }
      forall j ensures j in Named(order) <==> j in names {
        assert j in names - {k} <==> j in Named(rest);
      }
    }
  }

  /** The step a task can take that is not waiting for other tasks. */
  function NextStep(s: State, t: TaskId, out: Outcomes): Label
    requires t < |s.tasks|
  {
    if s.tasks[t].pc == Initializing && s.tasks[t].subject.Some?
    then InitReturns(t, out(s.tasks[t].subject.value)) else Advance(t)
  }

  /** While a task has not ended, some task can go on. */
  lemma NoDeadlock(s: State, out: Outcomes) returns (l: Label)
    requires Inv(s) && Acyclic(s) && !Quiet(s)
    ensures Enabled(s, l) && Internal(s, l, out)
  {
    if t: TaskId :| t < |s.tasks| && !s.tasks[t].pc.Finished? && !s.tasks[t].pc.Gathering? {
      assert WfTask(s, s.tasks[t]);
      l := NextStep(s, t, out);
    } else {
      var t: TaskId :| t < |s.tasks| && !s.tasks[t].pc.Finished?;
      var pc := s.tasks[t].pc;
      assert WfTask(s, s.tasks[t]) && pc.Gathering?;
      if SomeRaised(s, pc.lo, pc.hi) || pc.resync == None {
        l := Advance(t);
      } else {
        var order := Enumerate(s.run.Keys - pc.resync.value);
        l := Resync(t, order);
      }
    }
  }

  /** From every reachable state the tasks can be scheduled until all have ended, whatever their inits do. */
  lemma {:induction false} ComesToRest(s: State, out: Outcomes) returns (ls: seq<Label>)
    requires Inv(s) && Acyclic(s)
    ensures Settling(s, ls, out) && Quiet(After(s, ls))
    decreases Resyncs(s), Work(s)
  {
    if Quiet(s) {
      ls := [];
    } else {
      var l := NoDeadlock(s, out);
      StepDecreases(s, l, out);
      StepKeeps(s, l);
      StepAcyclic(s, l);
      var rest := ComesToRest(Apply(s, l), out);
      ls := [l] + rest;
      assert ls[1..] == rest;
    }
  }

  /** So every event delivered at rest comes to rest: the refinement theorems are about runs that exist. */
  lemma EventComesToRest(s: State, isInit: bool, data: seq<ModelUpdate>, out: Outcomes) returns (ls: seq<Label>)
    requires Inv(s) && Quiet(s)
    ensures Settling(Apply(s, Deliver(isInit, data)), ls, out) && Quiet(After(Apply(s, Deliver(isInit, data)), ls))
  {
    StepKeeps(s, Deliver(isInit, data));
    StepAcyclic(s, Deliver(isInit, data));
    ls := ComesToRest(Apply(s, Deliver(isInit, data)), out);
  }

  // ----- An init event that does not resync -----

  function RunningModel(id: ModelId): ModelUpdate {
    ModelUpdate("d", id, map[], Running, "ip", 1)
  }

  /** The events of the witness: a model comes up, then an init event names another model only. */
  function UpThenInit(): seq<(bool, seq<ModelUpdate>)> {
    [(false, [RunningModel("old")]), (true, [RunningModel("new")])]
  }

  lemma FoldUpThenInit(out: Outcomes)
    requires out(0) == Ready && out(1) == Raised
    ensures FoldEvents(Ledger(map[], 0), UpThenInit(), out).table.Keys == {"old"}
    ensures OneBuildEvents(Ledger(map[], 0), UpThenInit(), out)
  {
    var g0 := Ledger(map[], 0);
    var old1, new1 := RunningModel("old"), RunningModel("new");
    var g1 := Build(g0, old1, out);
    assert FoldBatch(g0, g0, [old1], out) == FoldBatch(g0, g1, [], out) == g1;
    assert g1.table.Keys == {"old"} && g1.built == 1;
    var g2 := Build(g1, new1, out);
    assert FoldBatch(g1, g1, [new1], out) == FoldBatch(g1, g2, [], out) == g2;
    assert g2.table.Keys == {"old"} && g2.built == 2;
    assert SomeRaise(out, 1, 2);
    assert FoldEvent(g0, false, [old1], out) == g1 && FoldEvent(g1, true, [new1], out) == g2;
    assert UpThenInit()[1..] == [(true, [new1])] && [(true, [new1])][1..] == [];
    assert FoldEvents(g1, [(true, [new1])], out) == FoldEvents(g2, [], out) == g2;
    assert OneBuildEvents(g1, [(true, [new1])], out);
  }

  lemma SessionCons(s: State, isInit: bool, data: seq<ModelUpdate>, rest: seq<(bool, seq<ModelUpdate>)>, out: Outcomes,
                    ls: seq<Label>, s': State)
    requires Clear(s, isInit, data) && Settling(Apply(s, Deliver(isInit, data)), ls, out)
    requires Session(After(Apply(s, Deliver(isInit, data)), ls), rest, out, s')
    ensures Session(s, [(isInit, data)] + rest, out, s')
  {
    var events := [(isInit, data)] + rest;
    assert events[0] == (isInit, data) && events[1..] == rest;
    assert Continues(s, events[0].0, events[0].1, out, ls);
  }

  /** From rest, any events can be handled one after the other. */
  lemma {:induction false} SessionExists(s: State, events: seq<(bool, seq<ModelUpdate>)>, out: Outcomes)
      returns (s': State)
    requires Inv(s) && Quiet(s)
    ensures Session(s, events, out, s') && Inv(s')
    decreases |events|
  {
    if events == [] {
      s' := s;
      assert Settling(s, [], out) && After(s, []) == s;
    } else {
      var isInit, data := events[0].0, events[0].1;
      var ls := EventComesToRest(s, isInit, data, out);
      var s1 := Apply(s, Deliver(isInit, data));
      StepKeeps(s, Deliver(isInit, data));
      RunKeeps(s1, ls);
      RestIsClear(s, isInit, data);
      s' := SessionExists(After(s1, ls), events[1..], out);
      SessionCons(s, isInit, data, events[1..], out, ls, s');
      assert events == [(isInit, data)] + events[1..];
    }
  }

  /** A raised init leaves a model in `models_run` that the init event did not name. */
  lemma RaisedInitKeepsUnnamed(start: State) returns (out: Outcomes, s': State)
    requires Initial(start)
    ensures Session(start, UpThenInit(), out, s') && s'.run.Keys == {"old"}
  {
    out := r => if r == 0 then Ready else Raised;
    s' := SessionExists(start, UpThenInit(), out);
    FoldUpThenInit(out);
    TableFromStart(start, UpThenInit(), out, s');
    SameKeys(s');
  }

  lemma SameKeys(s: State)
    requires Wf(s)
    ensures LedgerOf(s).table.Keys == s.run.Keys
  {}
}
