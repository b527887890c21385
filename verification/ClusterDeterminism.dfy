/**
 When the result of an event does not depend on the schedule of its tasks: exactly when the event builds
 at most one runner for each model. If it builds two, whichever add is held back until the others have
 ended decides.
 */
module ClusterDeterminism {
  import opened Common
  import opened ClusterSteps
  import opened ClusterInvariant
  import opened ClusterLifecycle
  import opened ClusterSafety
  import opened ClusterRuns
  import opened ClusterConfluence
  import opened ClusterTable
  import opened ClusterHandler
  import opened ClusterRefinement
  import opened ClusterTermination

  // ----- Which runners an event builds -----

  /** The models of the entries that build a runner, in order. */
  function BuiltModels(found: Ledger, data: seq<ModelUpdate>): seq<ModelId>
    decreases |data|
  {
    if data == [] then []
    else (if Builds(found, data[0]) then [data[0].modelId] else []) + BuiltModels(found, data[1..])
  }

  lemma {:induction false} BuiltMember(found: Ledger, data: seq<ModelUpdate>, k: ModelId)
    ensures k in BuiltModels(found, data) <==> exists e :: e in data && Builds(found, e) && e.modelId == k
    decreases |data|
  {
    if data != [] {
      BuiltMember(found, data[1..], k);
      if e :| e in data && Builds(found, e) && e.modelId == k {
        assert e == data[0] || e in data[1..];
      }
      if e :| e in data[1..] && Builds(found, e) && e.modelId == k { assert e in data; }
      if k in BuiltModels(found, data) && k !in BuiltModels(found, data[1..]) { assert data[0] in data; }
    }
  }

  /** The condition on the entries says that the models of the built runners are distinct. */
  lemma {:induction false} BuildsOnceIsDistinct(found: Ledger, data: seq<ModelUpdate>)
    ensures OneBuildEach(found, data) <==> Distinct(BuiltModels(found, data))
    decreases |data|
  {
    if data != [] {
      var e, rest := data[0], BuiltModels(found, data[1..]);
      BuildsOnceIsDistinct(found, data[1..]);
      BuiltMember(found, data[1..], e.modelId);
      BuildsOnceSplit(found, data);
      if Builds(found, e) { DistinctSplit(e.modelId, rest); } else { assert BuiltModels(found, data) == rest; }
    }
  }

  lemma DistinctSplit(x: ModelId, rest: seq<ModelId>)
    ensures Distinct([x] + rest) <==> x !in rest && Distinct(rest)
  {
    var xs := [x] + rest;
    assert forall i | 0 <= i < |rest| :: xs[i + 1] == rest[i];
    if Distinct(xs) {
      forall i | 0 <= i < |rest| ensures rest[i] != x { assert xs[0] != xs[i + 1]; }
      forall i, j | 0 <= i < j < |rest| ensures rest[i] != rest[j] { assert xs[i + 1] != xs[j + 1]; }
    }
  }

  lemma BuildsOnceSplit(found: Ledger, data: seq<ModelUpdate>)
    requires data != []
    ensures OneBuildEach(found, data) <==>
      && OneBuildEach(found, data[1..])
      && (Builds(found, data[0]) ==>
            forall f | f in data[1..] && Builds(found, f) :: f.modelId != data[0].modelId)
  {
    var rest := data[1..];
    assert forall i | 0 <= i < |rest| :: data[i + 1] == rest[i];
    if OneBuildEach(found, data) {
      forall i, j | 0 <= i < j < |rest| && Builds(found, rest[i]) && Builds(found, rest[j])
        ensures rest[i].modelId != rest[j].modelId
      {
        assert data[i + 1].modelId != data[j + 1].modelId;
      }
      forall f | f in rest && Builds(found, f) && Builds(found, data[0]) ensures f.modelId != data[0].modelId {
        var i :| 0 <= i < |rest| && rest[i] == f;
        assert data[0].modelId != data[i + 1].modelId;
      }
    }
    if OneBuildEach(found, rest)
      && (Builds(found, data[0]) ==> forall f | f in rest && Builds(found, f) :: f.modelId != data[0].modelId) {
      forall i, j | 0 <= i < j < |data| && Builds(found, data[i]) && Builds(found, data[j])
        ensures data[i].modelId != data[j].modelId
      {
        assert data[j] == rest[j - 1];
        if i > 0 { assert data[i] == rest[i - 1]; }
      }
    }
  }

  ghost predicate AllFound(found: Ledger, s: State) {
    forall k: ModelId :: Found(found, s, k)
  }

  /** The runners from lo on have these models, in order. */
  predicate HaveModels(runners: seq<Runner>, lo: RunnerId, models: seq<ModelId>) {
    |runners| == lo + |models| && forall i | 0 <= i < |models| :: runners[lo + i].modelId == models[i]
  }

  lemma EntryAllFound(found: Ledger, s: State, e: ModelUpdate)
    requires AllFound(found, s)
    ensures AllFound(found, HandleEntry(s, e))
  {
    forall k: ModelId ensures Found(found, HandleEntry(s, e), k) { EntryFound(found, s, e, k); }
  }

  /** The loop builds one runner for each of these models, in order. */
  lemma {:induction false} LoopBuilds(found: Ledger, s: State, data: seq<ModelUpdate>)
    requires Inv(s) && AllFound(found, s)
    ensures HaveModels(HandleEntries(s, data).runners, |s.runners|, BuiltModels(found, data))
    decreases |data|
  {
    if data != [] {
      HandleEntryKeeps(s, data[0]);
      EntryAllFound(found, s, data[0]);
      LoopBuilds(found, HandleEntry(s, data[0]), data[1..]);
      LoopMore(found, s, data);
    }
  }

  lemma LoopMore(found: Ledger, s: State, data: seq<ModelUpdate>)
    requires Wf(s) && data != [] && Found(found, s, data[0].modelId)
    requires var s' := HandleEntry(s, data[0]);
      HaveModels(HandleEntries(s', data[1..]).runners, |s'.runners|, BuiltModels(found, data[1..]))
    ensures HaveModels(HandleEntries(s, data).runners, |s.runners|, BuiltModels(found, data))
  {
    var s' := HandleEntry(s, data[0]);
    EntryBuilds(found, s, data[0]);
    LoopModels(s', data[1..]);
    PrependBuilt(s.runners, s'.runners, HandleEntries(s', data[1..]).runners,
                 if Builds(found, data[0]) then [data[0].modelId] else [], BuiltModels(found, data[1..]));
  }

  lemma PrependBuilt(a: seq<Runner>, b: seq<Runner>, c: seq<Runner>, head: seq<ModelId>, rest: seq<ModelId>)
    requires |head| <= 1 && |b| == |a| + |head| && (head != [] ==> b[|a|].modelId == head[0])
    requires HaveModels(c, |b|, rest) && forall r | 0 <= r < |b| :: c[r].modelId == b[r].modelId
    ensures HaveModels(c, |a|, head + rest)
  {
    forall i | 0 <= i < |head + rest| ensures c[|a| + i].modelId == (head + rest)[i] {
      if i >= |head| { assert c[|b| + (i - |head|)].modelId == rest[i - |head|]; }
    }
  }

  lemma EntryBuilds(found: Ledger, s: State, e: ModelUpdate)
    requires Wf(s) && Found(found, s, e.modelId)
    ensures var s' := HandleEntry(s, e);
      if Builds(found, e)
      then |s'.runners| == |s.runners| + 1 && s'.runners[|s.runners|].modelId == e.modelId
      else |s'.runners| == |s.runners|
  {
    EntryShape(s, e);
    SameKnowledge(found, s, s.run, e);
  }

  // ----- An add that is held back -----

  predicate Aims(pc: Pc, w: RunnerId) {
    match pc
    case Removing(x, _, _) => x == w
    case Failing(x, _, _) => x == w
    case Sending(x) => x == w
    case _ => false
  }

  /** Task t of the event has not begun to add its runner w, nobody aims at w, and handler h is still waiting. */
  ghost predicate HeldBack(s: State, t: TaskId, w: RunnerId, lo: TaskId, h: TaskId, resync: Option<set<ModelId>>) {
    && Inv(s) && Tended(s, lo, h) && lo <= t < h
    && s.tasks[t].pc == Adding && s.tasks[t].subject == Some(w) && w < |s.runners| && !s.runners[w].removed
    && s.tasks[h].pc == Gathering(lo, h, resync)
    && (resync.Some? ==> s.runners[w].modelId in resync.value)
    && forall u | 0 <= u < |s.tasks| :: !Aims(s.tasks[u].pc, w) && !Recreates(s.tasks[u].pc)
  }

  lemma HeldIsCreated(s: State, t: TaskId, w: RunnerId)
    requires Inv(s) && t < |s.tasks| && s.tasks[t].pc == Adding && s.tasks[t].subject == Some(w) && w < |s.runners|
    ensures s.runners[w].owner == t && s.runners[w].stage == Created
    ensures forall k | k in s.run :: s.run[k] != w
    ensures forall k | k in s.pend :: s.pend[k] != w
  {}

  lemma BeginAddAims(s: State, u: TaskId, w: RunnerId)
    requires Inv(s) && u < |s.tasks| && s.tasks[u].pc == Adding && w < |s.runners| && s.runners[w].stage == Created
    ensures AdvanceEnabled(s, u) && u < |AdvanceTask(s, u).tasks| && !Aims(AdvanceTask(s, u).tasks[u].pc, w)
    ensures w < |AdvanceTask(s, u).runners| && AdvanceTask(s, u).runners[w].modelId == s.runners[w].modelId
    ensures AdvanceTask(s, u).runners[w].removed == s.runners[w].removed
  {
    assert WfTask(s, s.tasks[u]);
  }

  lemma EndRemoveAims(s: State, u: TaskId, x: RunnerId, next: Next, w: RunnerId)
    requires u < |s.tasks| && x < |s.runners| && w < |s.runners| && x != w && next != Recreate
    requires next == Register ==> s.tasks[u].subject.Some? && s.tasks[u].subject.value < |s.runners|
    ensures var s' := EndRemove(s, u, x, next);
      && u < |s'.tasks| && !Aims(s'.tasks[u].pc, w) && w < |s'.runners|
      && s'.runners[w].modelId == s.runners[w].modelId && s'.runners[w].removed == s.runners[w].removed
  {
    assert Delete(s, x).tasks == s.tasks;
  }

  lemma AdvanceAims(s: State, u: TaskId, w: RunnerId)
    requires Inv(s) && AdvanceEnabled(s, u) && w < |s.runners| && s.runners[w].stage == Created
    requires !Aims(s.tasks[u].pc, w) && !Recreates(s.tasks[u].pc)
    ensures u < |AdvanceTask(s, u).tasks| && !Aims(AdvanceTask(s, u).tasks[u].pc, w)
    ensures w < |AdvanceTask(s, u).runners| && AdvanceTask(s, u).runners[w].modelId == s.runners[w].modelId
    ensures AdvanceTask(s, u).runners[w].removed == s.runners[w].removed
  {
    match s.tasks[u].pc
    case Adding => BeginAddAims(s, u, w);
    case Removing(x, closing, next) =>
      assert WfTask(s, s.tasks[u]);
      if closing { EndRemoveAims(s, u, x, next, w); }
    case _ => OtherAims(s, u, w);
  }

  lemma OtherAims(s: State, u: TaskId, w: RunnerId)
    requires Wf(s) && AdvanceEnabled(s, u) && w < |s.runners| && !Aims(s.tasks[u].pc, w)
    requires !s.tasks[u].pc.Adding? && !s.tasks[u].pc.Removing?
    ensures u < |AdvanceTask(s, u).tasks| && !Aims(AdvanceTask(s, u).tasks[u].pc, w)
    ensures AdvanceTask(s, u).runners == s.runners
  {
    assert WfTask(s, s.tasks[u]);
  }

  lemma EndInitAims(s: State, u: TaskId, o: InitOutcome, w: RunnerId)
    requires Inv(s) && Enabled(s, InitReturns(u, o)) && w < |s.runners| && s.runners[w].stage == Created
    ensures var s' := Apply(s, InitReturns(u, o));
      && u < |s'.tasks| && !Aims(s'.tasks[u].pc, w) && !Recreates(s'.tasks[u].pc) && w < |s'.runners|
      && s'.runners[w].modelId == s.runners[w].modelId && s'.runners[w].removed == s.runners[w].removed
      && |s'.tasks| == |s.tasks| && forall v | 0 <= v < |s.tasks| && v != u :: s'.tasks[v] == s.tasks[v]
  {
    assert WfTask(s, s.tasks[u]);
    var r := s.tasks[u].subject.value;
    assert s.runners[r].owner == u && s.runners[r].stage == Registered;
    EndInitShape(s, u, r, o);
  }

  /** Another task moves. */
  lemma HeldMove(s: State, s': State, u: TaskId, t: TaskId, w: RunnerId, lo: TaskId,
                 h: TaskId, resync: Option<set<ModelId>>)
    requires HeldBack(s, t, w, lo, h, resync) && u < |s.tasks| && u != t && u != h
    requires Inv(s') && Tended(s', lo, h) && |s'.tasks| == |s.tasks|
    requires forall v | 0 <= v < |s.tasks| && v != u :: s'.tasks[v] == s.tasks[v]
    requires !Aims(s'.tasks[u].pc, w) && !Recreates(s'.tasks[u].pc) && w < |s'.runners|
    requires s'.runners[w].modelId == s.runners[w].modelId && s'.runners[w].removed == s.runners[w].removed
    ensures HeldBack(s', t, w, lo, h, resync)
  {}

  lemma StepHolds(s: State, u: TaskId, out: Outcomes, t: TaskId, w: RunnerId, lo: TaskId, h: TaskId,
                  resync: Option<set<ModelId>>)
    requires HeldBack(s, t, w, lo, h, resync) && u < |s.tasks| && u != t && u != h && !s.tasks[u].pc.Finished?
    ensures Enabled(s, NextStep(s, u, out)) && Internal(s, NextStep(s, u, out), out)
    ensures HeldBack(Apply(s, NextStep(s, u, out)), t, w, lo, h, resync)
  {
    var l := NextStep(s, u, out);
    var s' := Apply(s, l);
    assert WfTask(s, s.tasks[u]);
    HeldIsCreated(s, t, w);
    StepKeeps(s, l);
    StepTended(s, l, out, lo, h);
    match l
    case Advance(_) => AdvanceAims(s, u, w); AdvanceRaises(s, out, u);
    case InitReturns(_, o) => EndInitAims(s, u, o, w);
    HeldMove(s, s', u, t, w, lo, h, resync);
  }

  /** Every other task of the event can be run to its end first. */
  lemma {:induction false} HoldBack(s: State, out: Outcomes, t: TaskId, w: RunnerId, lo: TaskId, h: TaskId,
                                    resync: Option<set<ModelId>>)
      returns (ls: seq<Label>)
    requires HeldBack(s, t, w, lo, h, resync)
    ensures Settling(s, ls, out) && HeldBack(After(s, ls), t, w, lo, h, resync)
    ensures After(s, ls).runners[w].modelId == s.runners[w].modelId
    ensures forall u | 0 <= u < |After(s, ls).tasks| && u != t && u != h :: After(s, ls).tasks[u].pc.Finished?
    decreases Resyncs(s), Work(s)
  {
    if u: TaskId :| u < |s.tasks| && u != t && u != h && !s.tasks[u].pc.Finished? {
      var l := NextStep(s, u, out);
      StepHolds(s, u, out, t, w, lo, h, resync);
      StepDecreases(s, l, out);
      StepProgress(s, l, w);
      var rest := HoldBack(Apply(s, l), out, t, w, lo, h, resync);
      ls := [l] + rest;
      assert ls[1..] == rest;
    } else {
      ls := [];
    }
  }

  /** When only the held add and the handler are left, the model is promised to the held runner. */
  lemma HeldIsPromised(s: State, out: Outcomes, t: TaskId, w: RunnerId, lo: TaskId,
                       h: TaskId, resync: Option<set<ModelId>>)
    requires HeldBack(s, t, w, lo, h, resync)
    requires forall u | 0 <= u < |s.tasks| && u != t && u != h :: s.tasks[u].pc.Finished?
    ensures Orderly(s) && Acyclic(s)
    ensures Promises(s, out, s.runners[w].modelId, if out(w) == Ready then Some(w) else None)
  {
    OnlyHeldIsUnsettled(s, t, w, h);
    HeldIsExclusive(s, t, w, h);
    assert AddedTo(s, w, s.runners[w].modelId);
    forall u | 0 <= u < |s.tasks| ensures OrderlyTask(s, s.tasks[u].pc) {}
  }

  lemma OnlyHeldIsUnsettled(s: State, t: TaskId, w: RunnerId, h: TaskId)
    requires Inv(s) && t < |s.tasks| && s.tasks[t].pc == Adding && s.tasks[t].subject == Some(w) && w < |s.runners|
    requires h < |s.tasks| && s.tasks[h].pc.Gathering?
    requires forall u | 0 <= u < |s.tasks| && u != t && u != h :: s.tasks[u].pc.Finished?
    ensures forall r | 0 <= r < |s.runners| && !s.runners[r].stage.Settled? :: r == w
    ensures s.runners[w].stage == Created
  {
    HeldIsCreated(s, t, w);
    forall r | 0 <= r < |s.runners| && !s.runners[r].stage.Settled? ensures r == w {
      var u := s.runners[r].owner;
      assert Agrees(s.runners[r].stage, s.tasks[u].pc);
      assert u == t;
    }
  }

  lemma HeldIsExclusive(s: State, t: TaskId, w: RunnerId, h: TaskId)
    requires Inv(s) && t < |s.tasks| && s.tasks[t].pc == Adding && h < |s.tasks| && s.tasks[h].pc.Gathering?
    requires w < |s.runners| && s.runners[w].stage == Created
    requires forall u | 0 <= u < |s.tasks| && u != t && u != h :: s.tasks[u].pc.Finished?
    requires forall r | 0 <= r < |s.runners| && !s.runners[r].stage.Settled? :: r == w
    ensures Exclusive(s)
  {
    forall k ensures k !in s.pend {}
    forall u | 0 <= u < |s.tasks| ensures !InWindow(s, u) {}
  }

  lemma {:induction false} SettlingSplit(s: State, xs: seq<Label>, ys: seq<Label>, out: Outcomes)
    requires Settling(s, xs, out) && Settling(After(s, xs), ys, out)
    ensures Settling(s, xs + ys, out)
    decreases |xs|
  {
    if xs == [] {
      assert xs + ys == ys;
    } else {
      assert (xs + ys)[1..] == xs[1..] + ys;
      SettlingSplit(Apply(s, xs[0]), xs[1..], ys, out);
    }
  }

  /** The held add then decides. */
  lemma HeldDecides(s: State, out: Outcomes, t: TaskId, w: RunnerId, lo: TaskId,
                    h: TaskId, resync: Option<set<ModelId>>)
      returns (ls: seq<Label>)
    requires HeldBack(s, t, w, lo, h, resync)
    ensures Settling(s, ls, out) && Quiet(After(s, ls))
    ensures Lookup(After(s, ls).run, s.runners[w].modelId) == if out(w) == Ready then Some(w) else None
  {
    var first := HoldBack(s, out, t, w, lo, h, resync);
    var s1 := After(s, first);
    HeldIsPromised(s1, out, t, w, lo, h, resync);
    var later := ComesToRest(s1, out);
    var v := if out(w) == Ready then Some(w) else None;
    RunKeepsPromise(s1, later, out, s.runners[w].modelId, v);
    RestIsExclusive(After(s1, later));
    RestLookup(After(s1, later), out, s.runners[w].modelId, v);
    ls := first + later;
    SettlingSplit(s, first, later, out);
    AfterSplit(s, first, later);
  }

  lemma DeliverHolds(s: State, isInit: bool, data: seq<ModelUpdate>, w: RunnerId)
    requires Inv(s) && Quiet(s) && |s.runners| <= w < |HandleEntries(s, data).runners|
    ensures var s1 := HandleEntries(s, data);
      var s2 := Apply(s, Deliver(isInit, data));
      && s2.runners == s1.runners
      && HeldBack(s2, s1.runners[w].owner, w, |s.tasks|, |s1.tasks|, if isInit then Some(Ids(data)) else None)
  {
    var s1 := HandleEntries(s, data);
    var s2 := Apply(s, Deliver(isInit, data));
    StepKeeps(s, Deliver(isInit, data));
    HandleEntriesKeeps(s, data);
    DeliverTended(s, isInit, data);
    HandleEntriesFrame(s, data);
    HandleEntriesTasks(s, data);
    NewRunnersHaveTasks(s, s1, w);
    LoopModels(s, data);
    LoopBuildsFresh(s, data);
    LoopAims(s, data, w);
  }

  lemma {:induction false} LoopBuildsFresh(s: State, data: seq<ModelUpdate>)
    ensures forall r | |s.runners| <= r < |HandleEntries(s, data).runners| :: !HandleEntries(s, data).runners[r].removed
    decreases |data|
  {
    if data != [] {
      EntryFrame(s, data[0]);
      LoopBuildsFresh(HandleEntry(s, data[0]), data[1..]);
      HandleEntriesFrame(HandleEntry(s, data[0]), data[1..]);
    }
  }

  /** The removals an event starts aim at runners of before. */
  lemma {:induction false} LoopAims(s: State, data: seq<ModelUpdate>, w: RunnerId)
    requires Inv(s) && forall k | k in s.run :: s.run[k] != w
    requires forall k | k in s.pend :: s.pend[k] != w
    ensures forall t | |s.tasks| <= t < |HandleEntries(s, data).tasks| :: !Aims(HandleEntries(s, data).tasks[t].pc, w)
    decreases |data|
  {
    if data != [] {
      var s' := HandleEntry(s, data[0]);
      EntryFrame(s, data[0]);
      HandleEntryKeeps(s, data[0]);
      LoopAims(s', data[1..], w);
      HandleEntriesFrame(s', data[1..]);
    }
  }

  // ----- The exact condition -----

  ghost predicate RestsWith(s: State, isInit: bool, data: seq<ModelUpdate>, out: Outcomes, ls: seq<Label>) {
    Settling(Apply(s, Deliver(isInit, data)), ls, out) && Quiet(After(Apply(s, Deliver(isInit, data)), ls))
  }

  ghost function Result(s: State, isInit: bool, data: seq<ModelUpdate>, ls: seq<Label>): map<ModelId, RunnerId> {
    After(Apply(s, Deliver(isInit, data)), ls).run
  }

  /**
   Each runner that an event builds can be the one that decides: some schedule ends with it in
   `models_run` if its init succeeds, and with nothing for its model otherwise.
   */
  lemma AnyBuiltCanDecide(s: State, isInit: bool, data: seq<ModelUpdate>, out: Outcomes, w: RunnerId)
      returns (ls: seq<Label>)
    requires Inv(s) && Quiet(s) && |s.runners| <= w < |HandleEntries(s, data).runners|
    ensures RestsWith(s, isInit, data, out, ls)
    ensures Lookup(Result(s, isInit, data, ls), HandleEntries(s, data).runners[w].modelId)
         == if out(w) == Ready then Some(w) else None
  {
    var s1 := HandleEntries(s, data);
    DeliverHolds(s, isInit, data, w);
    ls := HeldDecides(Apply(s, Deliver(isInit, data)), out, s1.runners[w].owner, w, |s.tasks|, |s1.tasks|,
                      if isInit then Some(Ids(data)) else None);
  }

  /** Whatever the inits do, all schedules of the event end with the same `models_run`. */
  ghost predicate Determined(s: State, isInit: bool, data: seq<ModelUpdate>) {
    forall out: Outcomes, ls: seq<Label>, ms: seq<Label> ::
      RestsWith(s, isInit, data, out, ls) && RestsWith(s, isInit, data, out, ms)
      ==> Result(s, isInit, data, ls) == Result(s, isInit, data, ms)
  }

  lemma TwoBuiltDiffer(s: State, isInit: bool, data: seq<ModelUpdate>, r: RunnerId, q: RunnerId)
    requires Inv(s) && Quiet(s) && |s.runners| <= r < q < |HandleEntries(s, data).runners|
    requires HandleEntries(s, data).runners[r].modelId == HandleEntries(s, data).runners[q].modelId
    ensures !Determined(s, isInit, data)
  {
    var out: Outcomes := _ => Ready;
    var ls := AnyBuiltCanDecide(s, isInit, data, out, r);
    var ms := AnyBuiltCanDecide(s, isInit, data, out, q);
    assert Result(s, isInit, data, ls) != Result(s, isInit, data, ms);
  }

  lemma OneBuiltAgree(s: State, isInit: bool, data: seq<ModelUpdate>, out: Outcomes, ls: seq<Label>, ms: seq<Label>)
    requires Inv(s) && Quiet(s) && OneBuildEach(LedgerOf(s), data)
    requires RestsWith(s, isInit, data, out, ls) && RestsWith(s, isInit, data, out, ms)
    ensures Result(s, isInit, data, ls) == Result(s, isInit, data, ms)
  {
    EventRefinesFold(s, isInit, data, out, ls);
    EventRefinesFold(s, isInit, data, out, ms);
    ViewDetermines(After(Apply(s, Deliver(isInit, data)), ls), After(Apply(s, Deliver(isInit, data)), ms));
  }

  /**
   The result of an event delivered at rest does not depend on the schedule, whatever its inits do, if
   and only if no two of its entries build a runner for the same model. A RUNNING entry builds one when
   the table does not list its model with its deployment and address.
   */
  lemma DeterminedExactlyWhen(s: State, isInit: bool, data: seq<ModelUpdate>)
    requires Inv(s) && Quiet(s)
    ensures Determined(s, isInit, data) <==> OneBuildEach(LedgerOf(s), data)
  {
    if OneBuildEach(LedgerOf(s), data) {
      forall out: Outcomes, ls: seq<Label>, ms: seq<Label> |
        RestsWith(s, isInit, data, out, ls) && RestsWith(s, isInit, data, out, ms)
        ensures Result(s, isInit, data, ls) == Result(s, isInit, data, ms)
      {
        OneBuiltAgree(s, isInit, data, out, ls, ms);
      }
    } else {
      var r, q := TwoBuilt(s, data);
      TwoBuiltDiffer(s, isInit, data, r, q);
    }
  }

  lemma TwoBuilt(s: State, data: seq<ModelUpdate>) returns (r: RunnerId, q: RunnerId)
    requires Inv(s) && Quiet(s) && !OneBuildEach(LedgerOf(s), data)
    ensures |s.runners| <= r < q < |HandleEntries(s, data).runners|
    ensures HandleEntries(s, data).runners[r].modelId == HandleEntries(s, data).runners[q].modelId
  {
    var found := LedgerOf(s);
    var out: Outcomes := _ => Ready;
    RestIsPlanned(s, out);
    forall k: ModelId ensures Found(found, s, k) { RestIsIdle(s, out, k); IdleIsFound(s, out, s.run, k); }
    assert AllFound(found, s);
    LoopBuilds(found, s, data);
    BuildsOnceIsDistinct(found, data);
    var models := BuiltModels(found, data);
    var i, j :| 0 <= i < j < |models| && models[i] == models[j];
    r, q := |s.runners| + i, |s.runners| + j;
  }

  /** A witness: one model listed twice as RUNNING, in the first event; either entry can win. */
  lemma ListedTwice(start: State, winner: RunnerId) returns (ls: seq<Label>)
    requires Initial(start) && winner < 2
    ensures var data := [RunningModel("m"), RunningModel("m")];
      && RestsWith(start, false, data, _ => Ready, ls)
      && Lookup(Result(start, false, data, ls), "m") == Some(winner)
  {
    var data := [RunningModel("m"), RunningModel("m")];
    var found := LedgerOf(start);
    LoopBuilds(found, start, data);
    assert data[1..] == [RunningModel("m")] && data[1..][1..] == [];
    assert BuiltModels(found, data[1..]) == ["m"] + BuiltModels(found, []);
    assert BuiltModels(found, data) == ["m", "m"];
    assert HandleEntries(start, data).runners[0 + winner].modelId == "m";
    ls := AnyBuiltCanDecide(start, false, data, _ => Ready, winner);
  }

  /**
   Repeated models alone do no harm: when an event moves a model and also has a later entry that stops
   it, the stop concerns the runner of before, and the runner of the move is kept under every schedule.
   */
  lemma MoveAndStop(s: State, move: ModelUpdate, stop: ModelUpdate, out: Outcomes, ls: seq<Label>)
    requires Inv(s) && Quiet(s) && Builds(LedgerOf(s), move) && stop.modelId == move.modelId && stop.state == Stopped
    requires RestsWith(s, false, [move, stop], out, ls)
    ensures Lookup(Result(s, false, [move, stop], ls), move.modelId)
         == if out(|s.runners|) == Ready then Some(|s.runners|) else None
  {
    EventRefinesFold(s, false, [move, stop], out, ls);
    FoldMoveAndStop(LedgerOf(s), move, stop, out);
    BuiltLookup(s, After(Apply(s, Deliver(false, [move, stop])), ls), move, out);
  }

  lemma BuiltLookup(s: State, s2: State, e: ModelUpdate, out: Outcomes)
    requires Wf(s2) && LedgerOf(s2) == Build(LedgerOf(s), e, out)
    ensures Lookup(s2.run, e.modelId) == if out(|s.runners|) == Ready then Some(|s.runners|) else None
  {
    assert e.modelId in s2.run <==> e.modelId in LedgerOf(s2).table;
    if e.modelId in s2.run { assert LedgerOf(s2).table[e.modelId].runner == s2.run[e.modelId]; }
  }

  lemma FoldMoveAndStop(g: Ledger, move: ModelUpdate, stop: ModelUpdate, out: Outcomes)
    requires Builds(g, move) && stop.modelId == move.modelId && stop.state == Stopped
    requires move.modelId in g.table ==> g.table[move.modelId].runner < g.built
    ensures FoldEvent(g, false, [move, stop], out) == Build(g, move, out)
  {
    var g1 := Build(g, move, out);
    assert [move, stop][1..] == [stop] && [stop][1..] == [];
    assert FoldBatch(g, g, [move, stop], out) == FoldBatch(g, g1, [stop], out) == FoldBatch(g, g1, [], out) == g1;
  }
}
