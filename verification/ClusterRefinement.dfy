/**
 Between events `models_run` is a plain table: every event, however its tasks interleave, changes it
 by a fold over the entries of the event.
 */
module ClusterRefinement {
  import opened Common
  import opened ClusterSteps
  import opened ClusterInvariant
  import opened ClusterLifecycle
  import opened ClusterSafety
  import opened ClusterRuns
  import opened ClusterConfluence
  import opened ClusterHandler
  import opened ClusterTable

  // ----- The table of a state -----

  function RowOf(r: RunnerId, runner: Runner): Row {
    Row(r, runner.deploymentId, runner.modelName, runner.ip, runner.port, runner.infos)
  }

  function ViewOf(m: map<ModelId, RunnerId>, runners: seq<Runner>): Table {
    map k | k in m && m[k] < |runners| :: RowOf(m[k], runners[m[k]])
  }

  function LedgerOf(s: State): Ledger {
    Ledger(ViewOf(s.run, s.runners), |s.runners|)
  }

  /** The table that a state is heading for. */
  function PlanLedger(s: State, plan: map<ModelId, RunnerId>): Ledger {
    Ledger(ViewOf(plan, s.runners), |s.runners|)
  }

  // ----- One entry of the loop -----

  /** No runner is being added to model k. */
  ghost predicate Free(s: State, k: ModelId) {
    forall r | 0 <= r < |s.runners| :: !AddedTo(s, r, k)
  }

  /** Nothing is going on for model k. */
  ghost predicate Idle(s: State, k: ModelId) {
    k !in s.pend && Free(s, k) && (k in s.run ==> !Doomed(s, s.run[k]))
  }

  ghost predicate NoHandler(s: State) {
    forall t | 0 <= t < |s.tasks| :: !s.tasks[t].pc.Gathering?
  }

  /** The state is heading for this plan: whom each model will run. */
  ghost predicate Heading(s: State, out: Outcomes, plan: map<ModelId, RunnerId>) {
    Orderly(s) && PromisesAll(s, out, plan) && WfMap(s, plan)
  }

  ghost predicate Planned(s: State, out: Outcomes, plan: map<ModelId, RunnerId>) {
    Heading(s, out, plan) && NoHandler(s)
  }

  lemma IdlePlan(s: State, out: Outcomes, plan: map<ModelId, RunnerId>, k: ModelId)
    requires Planned(s, out, plan) && Idle(s, k)
    ensures Lookup(plan, k) == Lookup(s.run, k)
  {
    assert Promises(s, out, k, Lookup(plan, k));
    assert !Dropped(s, out, k);
  }

  /** The dictionaries still have for model k what the event found. */
  predicate Found(found: Ledger, s: State, k: ModelId) {
    && k !in s.pend
    && (k in found.table <==> k in s.run)
    && (k in s.run ==>
          && s.run[k] < |s.runners|
          && found.table[k].runner == s.run[k]
          && found.table[k].deploymentId == s.runners[s.run[k]].deploymentId
          && found.table[k].ip == s.runners[s.run[k]].ip && found.table[k].port == s.runners[s.run[k]].port)
  }

  /** What one iteration of the loop may do to the state. */
  ghost predicate EntryEffect(s: State, s': State, e: ModelUpdate) {
    && s'.run == s.run && s'.pend == s.pend && |s'.tasks| >= |s.tasks| && |s.runners| <= |s'.runners| <= |s.runners| + 1
    && (forall t | 0 <= t < |s.tasks| :: s'.tasks[t] == s.tasks[t])
    && (forall r | 0 <= r < |s.runners| ::
          s'.runners[r] == s.runners[r].(infos := s'.runners[r].infos, modelName := s'.runners[r].modelName))
    && (|s'.runners| == |s.runners| + 1 ==> s'.runners[|s.runners|] == NewRunner(e, |s.tasks|))
    && (forall t | |s.tasks| <= t < |s'.tasks| ::
          s'.tasks[t].pc == Adding
          || (Current(s, e.modelId).Some? && Current(s, e.modelId).value < |s.runners|
              && s'.tasks[t].pc == Removing(Current(s, e.modelId).value, false, Return)))
  }

  lemma EntryFrame(s: State, e: ModelUpdate)
    ensures EntryEffect(s, HandleEntry(s, e), e)
  {
    assert EntryEffect(s, SpawnAdd(s, e), e);
    assert EntryEffect(s, RemoveMatching(s, e), e);
  }

  lemma EntryOrderly(s: State, e: ModelUpdate)
    requires Orderly(s) && NoHandler(s) && e.modelId !in s.pend
    requires |HandleEntry(s, e).runners| > |s.runners| ==> Free(s, e.modelId)
    ensures Orderly(HandleEntry(s, e)) && NoHandler(HandleEntry(s, e))
  {
    EntryFrame(s, e);
    HandleEntryKeeps(s, e);
    EntryExclusive(s, HandleEntry(s, e), e);
    EffectOrderly(s, HandleEntry(s, e), e);
  }

  lemma EntryExclusive(s: State, s': State, e: ModelUpdate)
    requires Exclusive(s) && Inv(s') && EntryEffect(s, s', e)
    ensures Exclusive(s')
  {
    EntryPlaces(s, s', e);
    MoveExclusive(s, s');
  }

  lemma EntryPlaces(s: State, s': State, e: ModelUpdate)
    requires EntryEffect(s, s', e)
    ensures SameRunners(s, s') && SameWindows(s, s')
  {}

  lemma EffectUnique(s: State, s': State, e: ModelUpdate)
    requires EntryEffect(s, s', e) && OneAdding(s) && (|s'.runners| > |s.runners| ==> Free(s, e.modelId))
    ensures OneAdding(s')
  {
    forall r, q |
      && 0 <= r < |s'.runners| && 0 <= q < |s'.runners|
      && !s'.runners[r].stage.Settled? && !s'.runners[q].stage.Settled?
      && s'.runners[r].modelId == s'.runners[q].modelId
      ensures r == q
    {
      if |s'.runners| > |s.runners| {
        assert r < |s.runners| ==> !AddedTo(s, r, e.modelId);
        assert q < |s.runners| ==> !AddedTo(s, q, e.modelId);
      }
    }
  }

  lemma EffectTasks(s: State, s': State, e: ModelUpdate)
    requires Inv(s) && NoHandler(s) && e.modelId !in s.pend && EntryEffect(s, s', e)
    requires forall t | 0 <= t < |s.tasks| :: OrderlyTask(s, s.tasks[t].pc)
    ensures NoHandler(s') && forall t | 0 <= t < |s'.tasks| :: OrderlyTask(s', s'.tasks[t].pc)
  {
    CurrentIsRunning(s, e.modelId);
    forall t | 0 <= t < |s'.tasks| ensures OrderlyTask(s', s'.tasks[t].pc) {
      if t < |s.tasks| { assert OrderlyTask(s, s.tasks[t].pc); }
    }
  }

  lemma EffectOrderly(s: State, s': State, e: ModelUpdate)
    requires Orderly(s) && NoHandler(s) && e.modelId !in s.pend && Exclusive(s') && EntryEffect(s, s', e)
    requires |s'.runners| > |s.runners| ==> Free(s, e.modelId)
    ensures Orderly(s') && NoHandler(s')
  {
    EffectUnique(s, s', e);
    EffectTasks(s, s', e);
  }

  lemma CurrentIsRunning(s: State, k: ModelId)
    requires Inv(s) && k !in s.pend
    ensures Current(s, k) == Lookup(s.run, k)
    ensures k in s.run ==>
      s.run[k] < |s.runners| && s.runners[s.run[k]].stage == Settled(Ready) && s.runners[s.run[k]].modelId == k
  {}

  lemma EntryFound(found: Ledger, s: State, e: ModelUpdate, k: ModelId)
    requires Found(found, s, k)
    ensures Found(found, HandleEntry(s, e), k)
  {
    EntryFrame(s, e);
  }

  lemma CurrentModel(s: State, k: ModelId)
    requires Wf(s)
    ensures Current(s, k).Some? ==> Current(s, k).value < |s.runners| && s.runners[Current(s, k).value].modelId == k
  {}

  /** An entry dooms nobody but the runner filed under its own model. */
  lemma EntryDooms(s: State, e: ModelUpdate, k: ModelId)
    requires Inv(s) && k in s.run && k != e.modelId
    ensures Doomed(s, s.run[k]) <==> Doomed(HandleEntry(s, e), s.run[k])
  {
    var s' := HandleEntry(s, e);
    var x := s.run[k];
    EntryFrame(s, e);
    if Doomed(s, x) {
      var t: TaskId :| t < |s.tasks| && s.tasks[t].pc.Removing? && s.tasks[t].pc.target == x;
      assert s'.tasks[t] == s.tasks[t];
    }
    if Doomed(s', x) {
      var t: TaskId :| t < |s'.tasks| && s'.tasks[t].pc.Removing? && s'.tasks[t].pc.target == x;
      assert s.runners[x].modelId == k;
      CurrentModel(s, e.modelId);
    }
  }

  // ----- The plan of one entry -----

  /** The model runs with the deployment of the entry. */
  predicate Known(s: State, e: ModelUpdate) {
    e.modelId in s.run && s.run[e.modelId] < |s.runners| && s.runners[s.run[e.modelId]].deploymentId == e.deploymentId
  }

  /** The model runs with the deployment and at the address of the entry. */
  predicate InPlace(s: State, e: ModelUpdate) {
    Known(s, e) && s.runners[s.run[e.modelId]].ip == e.ip && s.runners[s.run[e.modelId]].port == e.port
  }

  function Edited(s: State, e: ModelUpdate): State
    requires Known(s, e)
  {
    s.(runners := s.runners[s.run[e.modelId] :=
                            s.runners[s.run[e.modelId]].(infos := e.infos, modelName := Lookup(e.infos, "model_name"))])
  }

  /** One iteration of the loop, when nothing is going on for the model of the entry. */
  lemma EntryShape(s: State, e: ModelUpdate)
    requires WfMap(s, s.run) && Current(s, e.modelId) == Lookup(s.run, e.modelId)
    ensures HandleEntry(s, e) == match e.state
      case Unhandled => s
      case Running => if InPlace(s, e) then Edited(s, e) else SpawnAdd(s, e)
      case _ => if Known(s, e) then SpawnRemove(s, s.run[e.modelId]) else s
  {}

  function PlanEntry(s: State, plan: map<ModelId, RunnerId>, e: ModelUpdate, out: Outcomes): map<ModelId, RunnerId> {
    match e.state
    case Unhandled => plan
    case Running =>
      if InPlace(s, e) then plan
      else if out(|s.runners|) == Ready then plan[e.modelId := |s.runners|]
      else plan - {e.modelId}
    case _ =>
      if Known(s, e) && Lookup(plan, e.modelId) == Lookup(s.run, e.modelId) then plan - {e.modelId} else plan
  }

  /** The promises for other models are those of before. */
  lemma EntryOtherPromise(s: State, s': State, out: Outcomes, e: ModelUpdate, k: ModelId, v: Option<RunnerId>)
    requires EntryEffect(s, s', e) && k != e.modelId && Promises(s, out, k, v)
    requires !Dropped(s, out, k) && !Dropped(s', out, k)
    requires k in s.run ==> (Doomed(s, s.run[k]) <==> Doomed(s', s.run[k]))
    ensures Promises(s', out, k, v)
  {
    forall r | 0 <= r < |s'.runners| ensures AddedTo(s', r, k) <==> r < |s.runners| && AddedTo(s, r, k) {}
    if r: RunnerId :| r < |s.runners| && AddedTo(s, r, k) {
      assert AddedTo(s', r, k);
    } else {
      assert forall r | 0 <= r < |s.runners| :: !AddedTo(s, r, k);
    }
  }

  lemma NotDroppedYet(s: State, out: Outcomes, k: ModelId)
    requires NoHandler(s)
    ensures !Dropped(s, out, k)
  {}

  /** The promise for the model of the entry, by the shape of the step. */
  lemma AddPromise(s: State, out: Outcomes, e: ModelUpdate)
    requires Free(s, e.modelId)
    ensures Promises(SpawnAdd(s, e), out, e.modelId, if out(|s.runners|) == Ready then Some(|s.runners|) else None)
  {
    var s' := SpawnAdd(s, e);
    assert AddedTo(s', |s.runners|, e.modelId);
    forall r | 0 <= r < |s.runners| ensures !AddedTo(s', r, e.modelId) { assert !AddedTo(s, r, e.modelId); }
  }

  lemma RemovePromise(s: State, out: Outcomes, k: ModelId)
    requires Free(s, k)
    requires k in s.run
    ensures Promises(SpawnRemove(s, s.run[k]), out, k, None)
  {
    var s' := SpawnRemove(s, s.run[k]);
    assert s'.tasks[|s.tasks|].pc.target == s.run[k];
    assert Doomed(s', s.run[k]);
    forall r | 0 <= r < |s'.runners| ensures !AddedTo(s', r, k) { assert !AddedTo(s, r, k); }
  }

  /** A change that concerns neither who is added nor who is doomed. */
  lemma EditPromise(s: State, s': State, out: Outcomes, k: ModelId, v: Option<RunnerId>)
    requires Promises(s, out, k, v) && NoHandler(s) && s' == s.(runners := s'.runners) && |s'.runners| == |s.runners|
    requires forall r | 0 <= r < |s.runners| ::
               s'.runners[r].stage == s.runners[r].stage && s'.runners[r].modelId == s.runners[r].modelId
    ensures Promises(s', out, k, v)
  {
    NotDroppedYet(s, out, k);
    NotDroppedYet(s', out, k);
    SamePromise(s, s', out, k, v);
  }

  /** A removal of the running runner changes the promise only if that was the promise. */
  lemma RemovalPromise(s: State, out: Outcomes, k: ModelId, v: Option<RunnerId>)
    requires Inv(s) && NoHandler(s) && Promises(s, out, k, v) && k in s.run
    ensures Promises(SpawnRemove(s, s.run[k]), out, k, if v == Some(s.run[k]) then None else v)
  {
    var s' := SpawnRemove(s, s.run[k]);
    if r: RunnerId :| r < |s.runners| && AddedTo(s, r, k) {
      assert r != s.run[k];
      AddedPromise(s, s', out, k, v, r);
    } else {
      assert Free(s, k);
      NotDroppedYet(s, out, k);
      RemovePromise(s, out, k);
    }
  }

  lemma EntryOwnPromise(s: State, out: Outcomes, plan: map<ModelId, RunnerId>, e: ModelUpdate)
    requires Inv(s) && NoHandler(s) && e.modelId !in s.pend && Promises(s, out, e.modelId, Lookup(plan, e.modelId))
    requires e.state == Running && !InPlace(s, e) ==> Free(s, e.modelId)
    ensures Promises(HandleEntry(s, e), out, e.modelId, Lookup(PlanEntry(s, plan, e, out), e.modelId))
  {
    var k := e.modelId;
    CurrentIsRunning(s, k);
    EntryShape(s, e);
    match e.state
    case Unhandled =>
    case Running =>
      if InPlace(s, e) { EditPromise(s, Edited(s, e), out, k, Lookup(plan, k)); } else { AddPromise(s, out, e); }
    case _ => if Known(s, e) { RemovalPromise(s, out, k, Lookup(plan, k)); }
  }

  lemma EntryPromises(s: State, out: Outcomes, plan: map<ModelId, RunnerId>, e: ModelUpdate, k: ModelId)
    requires Inv(s) && NoHandler(s) && NoHandler(HandleEntry(s, e)) && e.modelId !in s.pend
    requires Promises(s, out, k, Lookup(plan, k))
    requires e.state == Running && !InPlace(s, e) ==> Free(s, e.modelId)
    ensures Promises(HandleEntry(s, e), out, k, Lookup(PlanEntry(s, plan, e, out), k))
  {
    if k == e.modelId {
      EntryOwnPromise(s, out, plan, e);
    } else {
      var s' := HandleEntry(s, e);
      EntryFrame(s, e);
      NotDroppedYet(s, out, k);
      NotDroppedYet(s', out, k);
      if k in s.run { EntryDooms(s, e, k); }
      EntryOtherPromise(s, s', out, e, k, Lookup(plan, k));
      PlanElsewhere(s, out, plan, e, k);
    }
  }

  lemma PlanElsewhere(s: State, out: Outcomes, plan: map<ModelId, RunnerId>, e: ModelUpdate, k: ModelId)
    requires k != e.modelId
    ensures Lookup(PlanEntry(s, plan, e, out), k) == Lookup(plan, k)
  {}

  lemma EntryPlanWf(s: State, out: Outcomes, plan: map<ModelId, RunnerId>, e: ModelUpdate)
    requires WfMap(s, s.run) && Current(s, e.modelId) == Lookup(s.run, e.modelId) && WfMap(s, plan)
    ensures WfMap(HandleEntry(s, e), PlanEntry(s, plan, e, out))
  {
    EntryShape(s, e);
  }

  /** Going over one entry turns the plan into the plan with that entry. */
  lemma EntryPlanned(s: State, out: Outcomes, plan: map<ModelId, RunnerId>, e: ModelUpdate)
    requires Planned(s, out, plan) && e.modelId !in s.pend
    requires e.state == Running && !InPlace(s, e) ==> Free(s, e.modelId)
    ensures Planned(HandleEntry(s, e), out, PlanEntry(s, plan, e, out))
  {
    CurrentIsRunning(s, e.modelId);
    EntryShape(s, e);
    EntryOrderly(s, e);
    EntryPlanWf(s, out, plan, e);
    forall k: ModelId ensures Promises(HandleEntry(s, e), out, k, Lookup(PlanEntry(s, plan, e, out), k)) {
      EntryPromises(s, out, plan, e, k);
    }
  }

  /** The state knows of the entry what the event found. */
  lemma SameKnowledge(found: Ledger, s: State, plan: map<ModelId, RunnerId>, e: ModelUpdate)
    requires WfMap(s, s.run) && WfMap(s, plan) && Found(found, s, e.modelId)
    ensures (Known(s, e) <==> SameDeployment(found, e)) && (InPlace(s, e) <==> SameEndpoint(found, e))
    ensures e.modelId in s.run ==>
      (Original(found, PlanLedger(s, plan), e.modelId) <==> Lookup(plan, e.modelId) == Lookup(s.run, e.modelId))
  {
    if e.modelId in plan { assert ViewOf(plan, s.runners)[e.modelId].runner == plan[e.modelId]; }
  }

  /** The table of the plan follows the plain fold. */
  lemma EntryFold(found: Ledger, s: State, out: Outcomes, plan: map<ModelId, RunnerId>, e: ModelUpdate)
    requires WfMap(s, s.run) && WfMap(s, plan) && Found(found, s, e.modelId)
    ensures PlanLedger(HandleEntry(s, e), PlanEntry(s, plan, e, out))
         == FoldMember(found, PlanLedger(s, plan), e, out)
  {
    EntryShape(s, e);
    SameKnowledge(found, s, plan, e);
    match e.state
    case Unhandled =>
    case Running =>
      if InPlace(s, e) { EditedView(s, plan, e); } else { AddedView(s, plan, e); }
    case _ => RemovedView(s, plan, e.modelId);
  }

  lemma RemovedView(s: State, plan: map<ModelId, RunnerId>, k: ModelId)
    ensures ViewOf(plan - {k}, s.runners) == ViewOf(plan, s.runners) - {k}
  {}

  /** New settings show in the table of the plan only if the plan still has their runner. */
  lemma EditedView(s: State, plan: map<ModelId, RunnerId>, e: ModelUpdate)
    requires WfMap(s, s.run) && WfMap(s, plan) && Known(s, e)
    ensures
      if Lookup(plan, e.modelId) == Lookup(s.run, e.modelId)
      then e.modelId in PlanLedger(s, plan).table && PlanLedger(Edited(s, e), plan) == Edit(PlanLedger(s, plan), e)
      else PlanLedger(Edited(s, e), plan) == PlanLedger(s, plan)
  {
    if Lookup(plan, e.modelId) == Lookup(s.run, e.modelId) {
      assert e.modelId in plan && plan[e.modelId] == s.run[e.modelId];
    } else {
      forall k | k in plan ensures plan[k] != s.run[e.modelId] { assert s.runners[plan[k]].modelId == k; }
    }
  }

  lemma AddedView(s: State, plan: map<ModelId, RunnerId>, e: ModelUpdate)
    requires WfMap(s, plan)
    ensures var v := ViewOf(plan, s.runners);
      && ViewOf(plan[e.modelId := |s.runners|], SpawnAdd(s, e).runners)
           == v[e.modelId := Row(|s.runners|, e.deploymentId, Lookup(e.infos, "model_name"), e.ip, e.port, e.infos)]
      && ViewOf(plan - {e.modelId}, SpawnAdd(s, e).runners) == v - {e.modelId}
  {}

  // ----- The whole loop -----

  /** The loop against the fold, when it finds nothing pending and builds at most one runner for each model. */
  lemma {:induction false} LoopPlanned(found: Ledger, s: State, out: Outcomes, plan: map<ModelId, RunnerId>,
                                       data: seq<ModelUpdate>)
      returns (last: map<ModelId, RunnerId>)
    requires Planned(s, out, plan) && OneBuildEach(found, data)
    requires forall e | e in data :: Found(found, s, e.modelId) && (Builds(found, e) ==> Free(s, e.modelId))
    ensures Planned(HandleEntries(s, data), out, last)
    ensures PlanLedger(HandleEntries(s, data), last) == FoldBatch(found, PlanLedger(s, plan), data, out)
    decreases |data|
  {
    if data == [] {
      last := plan;
    } else {
      var e := data[0];
      var s1 := HandleEntry(s, e);
      assert e in data;
      SameKnowledge(found, s, plan, e);
      EntryPlanned(s, out, plan, e);
      EntryFold(found, s, out, plan, e);
      forall f | f in data[1..]
        ensures Found(found, s1, f.modelId) && (Builds(found, f) ==> Free(s1, f.modelId))
      {
        assert f in data;
        EntryFound(found, s, e, f.modelId);
        if Builds(found, f) { StaysFree(found, s, data, f); }
      }
      last := LoopPlanned(found, s1, out, PlanEntry(s, plan, e, out), data[1..]);
    }
  }

  /** An entry leaves the models free for which later entries build a runner. */
  lemma StaysFree(found: Ledger, s: State, data: seq<ModelUpdate>, f: ModelUpdate)
    requires Wf(s) && data != [] && OneBuildEach(found, data) && Found(found, s, data[0].modelId)
    requires f in data[1..] && Builds(found, f) && Free(s, f.modelId)
    ensures Free(HandleEntry(s, data[0]), f.modelId)
  {
    var e := data[0];
    var s1 := HandleEntry(s, e);
    EntryFrame(s, e);
    EntryShape(s, e);
    SameKnowledge(found, s, s.run, e);
    if Builds(found, e) {
      var j :| 0 <= j < |data| - 1 && data[1..][j] == f;
      assert data[j + 1] == f;
    }
    forall r | 0 <= r < |s1.runners| ensures !AddedTo(s1, r, f.modelId) {
      if r < |s.runners| { assert !AddedTo(s, r, f.modelId); }
    }
  }

  /** Runners built by the loop belong to models the event names. */
  lemma {:induction false} LoopModels(s: State, data: seq<ModelUpdate>)
    ensures |HandleEntries(s, data).runners| >= |s.runners|
    ensures forall r | 0 <= r < |s.runners| ::
              HandleEntries(s, data).runners[r].stage == s.runners[r].stage
              && HandleEntries(s, data).runners[r].modelId == s.runners[r].modelId
    ensures forall r | |s.runners| <= r < |HandleEntries(s, data).runners| ::
        HandleEntries(s, data).runners[r].modelId in Ids(data)
    decreases |data|
  {
    if data != [] {
      var s1 := HandleEntry(s, data[0]);
      EntryFrame(s, data[0]);
      LoopModels(s1, data[1..]);
      assert data[0].modelId in Ids(data);
      assert Ids(data[1..]) <= Ids(data);
    }
  }

  /** The plan once the handler waits: a resync to come plans to drop what the event does not name. */
  function Kept(plan: map<ModelId, RunnerId>, drops: bool, data: seq<ModelUpdate>): map<ModelId, RunnerId> {
    if drops then Only(plan, data) else plan
  }

  function Waiting(s: State, lo: TaskId, isInit: bool, data: seq<ModelUpdate>): State {
    s.(tasks := s.tasks + [Task(None, false, Gathering(lo, |s.tasks|, if isInit then Some(Ids(data)) else None))])
  }

  lemma WaitingPromise(s: State, out: Outcomes, plan: map<ModelId, RunnerId>, lo: TaskId, isInit: bool,
                       data: seq<ModelUpdate>, k: ModelId)
    requires NoHandler(s) && Promises(s, out, k, Lookup(plan, k))
    requires isInit ==> forall r | 0 <= r < |s.runners| && AddedTo(s, r, k) :: k in Ids(data)
    ensures Promises(Waiting(s, lo, isInit, data), out, k,
                     Lookup(Kept(plan, isInit && !SomeWillRaise(s, out, lo, |s.tasks|), data), k))
  {
    var s' := Waiting(s, lo, isInit, data);
    forall r | 0 <= r < |s.runners| ensures AddedTo(s', r, k) <==> AddedTo(s, r, k) {}
    if k in s.run { SameDooms(s, s', s.run[k]); }
    NotDroppedYet(s, out, k);
    WaitingDrops(s, out, lo, isInit, data, k);
  }

  /** The handler of an init event drops what it does not name, unless a task it gathers is going to raise. */
  lemma WaitingDrops(s: State, out: Outcomes, lo: TaskId, isInit: bool, data: seq<ModelUpdate>, k: ModelId)
    requires NoHandler(s)
    ensures Dropped(Waiting(s, lo, isInit, data), out, k)
      <==> isInit && k !in Ids(data) && !SomeWillRaise(s, out, lo, |s.tasks|)
  {
    var s' := Waiting(s, lo, isInit, data);
    var h := |s.tasks|;
    assert SomeWillRaise(s, out, lo, h) <==> SomeWillRaise(s', out, lo, h) by {
      forall c: TaskId | c < h ensures WillRaise(s, out, c) <==> WillRaise(s', out, c) {
        assert s'.tasks[c] == s.tasks[c];
      }
      if c: TaskId :| lo <= c < h && WillRaise(s, out, c) { assert WillRaise(s', out, c); }
    }
    assert Drops(s', out, h, k) <==> isInit && k !in Ids(data) && !SomeWillRaise(s, out, lo, h);
    forall t: TaskId | t < h ensures !Drops(s', out, t, k) { assert s'.tasks[t] == s.tasks[t]; }
  }

  lemma SameDooms(s: State, s': State, x: RunnerId)
    requires |s'.tasks| == |s.tasks| + 1 && s'.tasks[..|s.tasks|] == s.tasks && s'.tasks[|s.tasks|].pc.Gathering?
    ensures Doomed(s', x) <==> Doomed(s, x)
  {
    if Doomed(s, x) {
      var t: TaskId :| t < |s.tasks| && s.tasks[t].pc.Removing? && s.tasks[t].pc.target == x;
      assert s'.tasks[t] == s.tasks[t];
    }
    if Doomed(s', x) {
      var t: TaskId :| t < |s'.tasks| && s'.tasks[t].pc.Removing? && s'.tasks[t].pc.target == x;
      assert s'.tasks[t] == s'.tasks[..|s.tasks|][t];
    }
  }

  lemma WaitingOrderly(s: State, lo: TaskId, isInit: bool, data: seq<ModelUpdate>)
    requires Orderly(s) && NoHandler(s) && lo <= |s.tasks|
    requires isInit ==> forall r | 0 <= r < |s.runners| && !s.runners[r].stage.Settled? ::
        s.runners[r].modelId in Ids(data)
    ensures Orderly(Waiting(s, lo, isInit, data))
  {
    var th := Task(None, false, Gathering(lo, |s.tasks|, if isInit then Some(Ids(data)) else None));
    var s' := Waiting(s, lo, isInit, data);
    AppendTask(s, th);
    MoveExclusive(s, s');
    forall t | 0 <= t < |s'.tasks| ensures OrderlyTask(s', s'.tasks[t].pc) {
      if t < |s.tasks| { assert OrderlyTask(s, s.tasks[t].pc); }
    }
  }

  // ----- Events -----

  /** At rest nothing is going on for any model. */
  lemma RestIsIdle(s: State, out: Outcomes, k: ModelId)
    requires Inv(s) && Quiet(s)
    ensures Idle(s, k) && NoHandler(s) && Orderly(s)
    ensures Promises(s, out, k, Lookup(s.run, k))
  {
    RestIsExclusive(s);
    forall r | 0 <= r < |s.runners| ensures !AddedTo(s, r, k) {}
    assert forall x :: !Doomed(s, x);
    assert !Dropped(s, out, k);
  }

  lemma RestIsPlanned(s: State, out: Outcomes)
    requires Inv(s) && Quiet(s)
    ensures Planned(s, out, s.run) && PlanLedger(s, s.run) == LedgerOf(s)
  {
    forall k: ModelId ensures Promises(s, out, k, Lookup(s.run, k)) { RestIsIdle(s, out, k); }
    RestIsIdle(s, out, "");
  }

  /**
   No handler is running, and the tasks that a raised handler may have left behind work on other models
   than those of the event; for an init event, no add is left.
   */
  ghost predicate Clear(s: State, isInit: bool, data: seq<ModelUpdate>) {
    && NoHandler(s)
    && (forall e | e in data :: Idle(s, e.modelId))
    && (isInit ==> forall r | 0 <= r < |s.runners| :: s.runners[r].stage.Settled?)
  }

  lemma RestIsClear(s: State, isInit: bool, data: seq<ModelUpdate>)
    requires Inv(s) && Quiet(s)
    ensures Clear(s, isInit, data)
  {
    RestIsExclusive(s);
    forall e | e in data ensures Idle(s, e.modelId) { RestIsIdle(s, _ => Ready, e.modelId); }
  }

  lemma IdleIsFound(s: State, out: Outcomes, plan: map<ModelId, RunnerId>, k: ModelId)
    requires Planned(s, out, plan) && Idle(s, k)
    ensures Found(PlanLedger(s, plan), s, k)
  {
    IdlePlan(s, out, plan, k);
    assert k in plan <==> k in s.run;
  }

  lemma DeliveredPlan(s: State, out: Outcomes, plan: map<ModelId, RunnerId>, isInit: bool, data: seq<ModelUpdate>)
      returns (next: map<ModelId, RunnerId>)
    requires Planned(s, out, plan) && Clear(s, isInit, data) && OneBuildEach(PlanLedger(s, plan), data)
    ensures Heading(Apply(s, Deliver(isInit, data)), out, next)
    ensures PlanLedger(Apply(s, Deliver(isInit, data)), next) == FoldEvent(PlanLedger(s, plan), isInit, data, out)
  {
    var found := PlanLedger(s, plan);
    forall e | e in data ensures Found(found, s, e.modelId) && (Builds(found, e) ==> Free(s, e.modelId)) {
      IdleIsFound(s, out, plan, e.modelId);
    }
    var last := LoopPlanned(found, s, out, plan, data);
    var s1 := HandleEntries(s, data);
    var drops := isInit && !SomeRaise(out, |s.runners|, |s1.runners|);
    next := Kept(last, drops, data);
    EventRaises(s, s1, data, out);
    HandlerWaits(s, s1, out, last, isInit, data);
    KeptView(last, s1.runners, drops, data);
  }

  /** The handler starts to wait for the tasks of the loop. */
  lemma HandlerWaits(s: State, s1: State, out: Outcomes, last: map<ModelId, RunnerId>, isInit: bool,
                     data: seq<ModelUpdate>)
    requires s1 == HandleEntries(s, data) && Planned(s1, out, last)
    requires isInit ==> forall r | 0 <= r < |s.runners| :: s.runners[r].stage.Settled?
    ensures Orderly(DeliverEvent(s, isInit, data))
    ensures PromisesAll(DeliverEvent(s, isInit, data), out,
                        Kept(last, isInit && !SomeWillRaise(s1, out, |s.tasks|, |s1.tasks|), data))
  {
    LoopModels(s, data);
    HandleEntriesFrame(s, data);
    var s2 := Waiting(s1, |s.tasks|, isInit, data);
    assert DeliverEvent(s, isInit, data) == s2;
    WaitingOrderly(s1, |s.tasks|, isInit, data);
    var plan := Kept(last, isInit && !SomeWillRaise(s1, out, |s.tasks|, |s1.tasks|), data);
    forall k: ModelId ensures Promises(s2, out, k, Lookup(plan, k)) {
      assert Promises(s1, out, k, Lookup(last, k));
      WaitingPromise(s1, out, last, |s.tasks|, isInit, data, k);
    }
  }

  lemma KeptView(plan: map<ModelId, RunnerId>, runners: seq<Runner>, drops: bool, data: seq<ModelUpdate>)
    ensures ViewOf(Kept(plan, drops, data), runners)
         == if drops then Only(ViewOf(plan, runners), data) else ViewOf(plan, runners)
  {}

  /** Steps of tasks write no setting of a runner. */
  predicate SameSettings(s: State, s': State) {
    && |s'.runners| == |s.runners|
    && forall r | 0 <= r < |s.runners| ::
         SameObject(s.runners[r], s'.runners[r]) && s'.runners[r].infos == s.runners[r].infos
           && s'.runners[r].modelName == s.runners[r].modelName
  }

  lemma EndRemoveSettings(s: State, t: TaskId, x: RunnerId, next: Next)
    requires t < |s.tasks| && x < |s.runners| && next != Recreate
    requires next == Register ==> s.tasks[t].subject.Some? && s.tasks[t].subject.value < |s.runners|
    ensures SameSettings(s, EndRemove(s, t, x, next))
  {
    var s1 := Delete(s, x);
    assert SameSettings(s, s1);
  }

  lemma AdvanceSettings(s: State, t: TaskId)
    requires Wf(s) && AdvanceEnabled(s, t) && OrderlyTask(s, s.tasks[t].pc)
    ensures SameSettings(s, AdvanceTask(s, t))
  {
    assert WfTask(s, s.tasks[t]);
    match s.tasks[t].pc
    case Removing(x, closing, next) => if closing { EndRemoveSettings(s, t, x, next); }
    case _ =>
  }

  lemma EndInitSettings(s: State, t: TaskId, o: InitOutcome)
    requires Enabled(s, InitReturns(t, o))
    ensures SameSettings(s, Apply(s, InitReturns(t, o)))
  {
    assert WfTask(s, s.tasks[t]);
    EndInitSummary(s, t, s.tasks[t].subject.value, o);
  }

  lemma ResyncSettings(s: State, t: TaskId, order: seq<ModelId>)
    requires Wf(s) && ResyncEnabled(s, t, order)
    ensures SameSettings(s, Apply(s, Resync(t, order)))
  {
    ResyncKeepsMaps(s, t, order);
  }

  lemma {:induction false} RunSettings(s: State, ls: seq<Label>, out: Outcomes, plan: map<ModelId, RunnerId>)
    requires Orderly(s) && PromisesAll(s, out, plan) && Settling(s, ls, out)
    ensures SameSettings(s, After(s, ls))
    decreases |ls|
  {
    if ls != [] {
      StepKeepsPromises(s, ls[0], out, plan);
      StepSettings(s, ls[0], out);
      RunSettings(Apply(s, ls[0]), ls[1..], out, plan);
    }
  }

  lemma StepSettings(s: State, l: Label, out: Outcomes)
    requires Wf(s) && Internal(s, l, out)
    requires forall t | 0 <= t < |s.tasks| :: OrderlyTask(s, s.tasks[t].pc)
    ensures SameSettings(s, Apply(s, l))
  {
    if Enabled(s, l) {
      match l
      case Advance(t) => AdvanceSettings(s, t);
      case Resync(t, order) => ResyncSettings(s, t, order);
      case InitReturns(t, o) => EndInitSettings(s, t, o);
    }
  }

  lemma SettingsView(s: State, s': State, plan: map<ModelId, RunnerId>)
    requires SameSettings(s, s')
    ensures ViewOf(plan, s'.runners) == ViewOf(plan, s.runners)
  {}

  /** The plan of before, folded over an event, is the plan of after, wherever the tasks of the event stand. */
  lemma EventFoldsPlan(s: State, out: Outcomes, plan: map<ModelId, RunnerId>, isInit: bool, data: seq<ModelUpdate>,
                       ls: seq<Label>)
      returns (next: map<ModelId, RunnerId>)
    requires Planned(s, out, plan) && Clear(s, isInit, data) && OneBuildEach(PlanLedger(s, plan), data)
    requires Settling(Apply(s, Deliver(isInit, data)), ls, out)
    ensures Heading(Apply(s, Deliver(isInit, data)), out, next)
    ensures var s2 := After(Apply(s, Deliver(isInit, data)), ls);
      Heading(s2, out, next) && PlanLedger(s2, next) == FoldEvent(PlanLedger(s, plan), isInit, data, out)
  {
    var s1 := Apply(s, Deliver(isInit, data));
    next := DeliveredPlan(s, out, plan, isInit, data);
    RunKeepsPromises(s1, ls, out, next);
    RunSettings(s1, ls, out, next);
    SettingsView(s1, After(s1, ls), next);
  }

  /** The handler of the event has returned, or it has raised and everything it started has ended. */
  ghost predicate Handled(s: State, isInit: bool, data: seq<ModelUpdate>, out: Outcomes, ls: seq<Label>) {
    && OneBuildEach(LedgerOf(s), data)
    && Settling(Apply(s, Deliver(isInit, data)), ls, out)
    && var s2 := After(Apply(s, Deliver(isInit, data)), ls);
    Quiet(s2) || (HandlerOf(s, data) < |s2.tasks| && s2.tasks[HandlerOf(s, data)].pc == Finished(false))
  }

  /** The closed flags after an event: new runners are open, planned ones stay as they were. */
  lemma PlannedFlags(s: State, isInit: bool, data: seq<ModelUpdate>, out: Outcomes, ls: seq<Label>,
                     plan: map<ModelId, RunnerId>, k: ModelId)
    requires var s1 := Apply(s, Deliver(isInit, data));
      Orderly(s1) && PromisesAll(s1, out, plan) && Settling(s1, ls, out) && k in plan
    requires Wf(s)
    ensures var s2 := After(Apply(s, Deliver(isInit, data)), ls);
      && |s.runners| <= |s2.runners| && plan[k] < |s2.runners|
      && (s2.runners[plan[k]].closed <==> plan[k] < |s.runners| && s.runners[plan[k]].closed)
  {
    HandleEntriesFrame(s, data);
    RunKeepsOpen(Apply(s, Deliver(isInit, data)), ls, out, plan, k);
  }

  /** The first half of the theorem below, with the plan that the event was delivered with. */
  lemma EventEnds(s: State, isInit: bool, data: seq<ModelUpdate>, out: Outcomes, ls: seq<Label>)
      returns (plan: map<ModelId, RunnerId>)
    requires Inv(s) && Quiet(s) && Handled(s, isInit, data, out, ls)
    ensures Heading(Apply(s, Deliver(isInit, data)), out, plan)
    ensures var s2 := After(Apply(s, Deliver(isInit, data)), ls);
      && LedgerOf(s2) == FoldEvent(LedgerOf(s), isInit, data, out) && s2.pend == EMPTY
      && Inv(s2) && Quiet(s2) && s2.run == plan
  {
    RestIsPlanned(s, out);
    RestIsClear(s, isInit, data);
    HandlerReturnsAtRest(s, isInit, data, out, ls);
    plan := EventFoldsPlan(s, out, s.run, isInit, data, ls);
    RestKeepsPromise(After(Apply(s, Deliver(isInit, data)), ls), out, plan);
  }

  lemma PlannedLive(s: State, isInit: bool, data: seq<ModelUpdate>, out: Outcomes, ls: seq<Label>, k: ModelId)
    requires Wf(s) && Settling(Apply(s, Deliver(isInit, data)), ls, out)
    requires var s2 := After(Apply(s, Deliver(isInit, data)), ls);
      Inv(s2) && k in s2.run && Heading(Apply(s, Deliver(isInit, data)), out, s2.run)
    ensures var s2 := After(Apply(s, Deliver(isInit, data)), ls);
      && |s.runners| <= |s2.runners|
      && (Live(s2, s2.run[k]) <==> !(s2.run[k] < |s.runners| && s.runners[s2.run[k]].closed))
  {
    PlannedFlags(s, isInit, data, out, ls, After(Apply(s, Deliver(isInit, data)), ls).run, k);
  }

  lemma RunnersGrow(s: State, isInit: bool, data: seq<ModelUpdate>, out: Outcomes, ls: seq<Label>,
                    plan: map<ModelId, RunnerId>)
    requires Wf(s) && Settling(Apply(s, Deliver(isInit, data)), ls, out)
    requires Heading(Apply(s, Deliver(isInit, data)), out, plan)
    ensures |s.runners| <= |After(Apply(s, Deliver(isInit, data)), ls).runners|
  {
    HandleEntriesFrame(s, data);
    RunKeepsPromises(Apply(s, Deliver(isInit, data)), ls, out, plan);
  }

  /**
   One event refines one fold. From rest, for an event that builds at most one runner for each model,
   and under any interleaving of its tasks: once its handler has returned, `models_run` is the fold of
   the event over the table of before, nothing is pending and nothing is running. A published runner is
   live unless it was closed before the event.
   */
  lemma EventRefinesFold(s: State, isInit: bool, data: seq<ModelUpdate>, out: Outcomes, ls: seq<Label>)
    requires Inv(s) && Quiet(s) && Handled(s, isInit, data, out, ls)
    ensures var s2 := After(Apply(s, Deliver(isInit, data)), ls);
      && LedgerOf(s2) == FoldEvent(LedgerOf(s), isInit, data, out) && s2.pend == EMPTY
      && Inv(s2) && Quiet(s2) && |s2.runners| >= |s.runners|
      && (forall k | k in s2.run ::
            Live(s2, s2.run[k]) <==> !(s2.run[k] < |s.runners| && s.runners[s2.run[k]].closed))
  {
    var s2 := After(Apply(s, Deliver(isInit, data)), ls);
    var plan := EventEnds(s, isInit, data, out, ls);
    RunnersGrow(s, isInit, data, out, ls, plan);
    forall k | k in s2.run ensures Live(s2, s2.run[k]) <==> !(s2.run[k] < |s.runners| && s.runners[s2.run[k]].closed) {
      PlannedLive(s, isInit, data, out, ls, k);
    }
  }

  /**
   What becomes of the models an init event does not name: all of them leave if no init of a runner
   built for the event raises, and all of them stay if one does. So nothing unnamed is left exactly
   when no init raised or there was nothing unnamed to begin with.
   */
  lemma UnnamedLeaveExactlyWhen(s: State, data: seq<ModelUpdate>, out: Outcomes, ls: seq<Label>)
    requires Inv(s) && Quiet(s) && Handled(s, true, data, out, ls)
    ensures var s2 := After(Apply(s, Deliver(true, data)), ls);
      && (forall k | k !in Ids(data) ::
            Lookup(s2.run, k) == if SomeRaise(out, |s.runners|, |s2.runners|) then Lookup(s.run, k) else None)
      && (s2.run.Keys <= Ids(data) <==> !SomeRaise(out, |s.runners|, |s2.runners|) || s.run.Keys <= Ids(data))
  {
    var s2 := After(Apply(s, Deliver(true, data)), ls);
    var raised := SomeRaise(out, |s.runners|, |s2.runners|);
    EventRefinesFold(s, true, data, out, ls);
    forall k | k !in Ids(data) ensures Lookup(s2.run, k) == if raised then Lookup(s.run, k) else None {
      BatchElsewhere(LedgerOf(s), LedgerOf(s), data, out, k);
      SameLookup(s, s2, k);
    }
    if raised && !(s.run.Keys <= Ids(data)) {
      var k :| k in s.run && k !in Ids(data);
      assert Lookup(s2.run, k) == Lookup(s.run, k);
      assert k in s2.run;
    }
    forall k | k in s2.run && k !in Ids(data) ensures raised && k in s.run {
      assert Lookup(s2.run, k) == if raised then Lookup(s.run, k) else None;
    }
  }

  /** The table of a state has the entries of `models_run`. */
  lemma SameLookup(s: State, s2: State, k: ModelId)
    requires Wf(s) && Wf(s2)
    ensures Lookup(LedgerOf(s2).table, k) == None ==> Lookup(s2.run, k) == None
    ensures Lookup(LedgerOf(s2).table, k) == Lookup(LedgerOf(s).table, k) ==> Lookup(s2.run, k) == Lookup(s.run, k)
  {
    assert k in s.run <==> k in LedgerOf(s).table;
    assert k in s2.run <==> k in LedgerOf(s2).table;
    if k in s.run { assert LedgerOf(s).table[k].runner == s.run[k]; }
    if k in s2.run { assert LedgerOf(s2).table[k].runner == s2.run[k]; }
  }

  /**
   Events handled one after the other, any interleaving within each; then everything comes to rest. An
   event comes when no handler is running. Tasks left behind by a handler that raised may go on while
   later events are handled, as long as these concern other models.
   */
  ghost predicate Session(s: State, events: seq<(bool, seq<ModelUpdate>)>, out: Outcomes, s': State)
    decreases |events|
  {
    if events == [] then
      exists ls: seq<Label> :: Settling(s, ls, out) && s' == After(s, ls) && Quiet(s')
    else
      && Clear(s, events[0].0, events[0].1)
      && exists ls: seq<Label> ::
           Continues(s, events[0].0, events[0].1, out, ls)
           && Session(After(Apply(s, Deliver(events[0].0, events[0].1)), ls), events[1..], out, s')
  }

  ghost predicate Continues(s: State, isInit: bool, data: seq<ModelUpdate>, out: Outcomes, ls: seq<Label>) {
    Settling(Apply(s, Deliver(isInit, data)), ls, out)
  }

  /** Each event builds at most one runner for each model, in the table that it finds. */
  predicate OneBuildEvents(g: Ledger, events: seq<(bool, seq<ModelUpdate>)>, out: Outcomes)
    decreases |events|
  {
    events != [] ==>
      && OneBuildEach(g, events[0].1)
      && OneBuildEvents(FoldEvent(g, events[0].0, events[0].1, out), events[1..], out)
  }

  lemma {:induction false} SessionFoldsPlan(s: State, out: Outcomes, plan: map<ModelId, RunnerId>,
                                            events: seq<(bool, seq<ModelUpdate>)>, s': State)
    requires Heading(s, out, plan) && Session(s, events, out, s') && OneBuildEvents(PlanLedger(s, plan), events, out)
    ensures LedgerOf(s') == FoldEvents(PlanLedger(s, plan), events, out) && Inv(s') && Quiet(s') && s'.pend == EMPTY
    decreases |events|
  {
    if events == [] {
      var ls: seq<Label> :| Settling(s, ls, out) && s' == After(s, ls) && Quiet(s');
      RunKeepsPromises(s, ls, out, plan);
      RunSettings(s, ls, out, plan);
      SettingsView(s, s', plan);
      RestKeepsPromise(s', out, plan);
    } else {
      var ls: seq<Label> :|
        Continues(s, events[0].0, events[0].1, out, ls)
        && Session(After(Apply(s, Deliver(events[0].0, events[0].1)), ls), events[1..], out, s');
      var next := EventFoldsPlan(s, out, plan, events[0].0, events[0].1, ls);
      SessionFoldsPlan(After(Apply(s, Deliver(events[0].0, events[0].1)), ls), out, next, events[1..], s');
    }
  }

  /** Any sequence of events refines the plain table. */
  lemma SessionRefinesTable(s: State, events: seq<(bool, seq<ModelUpdate>)>, out: Outcomes, s': State)
    requires Inv(s) && Quiet(s) && Session(s, events, out, s') && OneBuildEvents(LedgerOf(s), events, out)
    ensures LedgerOf(s') == FoldEvents(LedgerOf(s), events, out) && Inv(s') && Quiet(s')
    ensures s'.pend == EMPTY
  {
    RestIsPlanned(s, out);
    SessionFoldsPlan(s, out, s.run, events, s');
  }

  /** From the empty cluster on, the events alone determine the table. */
  lemma TableFromStart(start: State, events: seq<(bool, seq<ModelUpdate>)>, out: Outcomes, s': State)
    requires Initial(start) && Session(start, events, out, s') && OneBuildEvents(Ledger(map[], 0), events, out)
    ensures LedgerOf(s') == FoldEvents(Ledger(map[], 0), events, out) && s'.pend == EMPTY
  {
    assert LedgerOf(start) == Ledger(map[], 0);
    SessionRefinesTable(start, events, out, s');
  }

  /**
   Confluence. A batch with distinct model ids ends with the same `models_run`, runner for runner and
   setting for setting, under every interleaving of its tasks, and this is what handling its entries
   one at a time, in order, ends with.
   */
  lemma BatchIsSequential(s: State, data: seq<ModelUpdate>, out: Outcomes, ls: seq<Label>, s': State)
    requires Inv(s) && Quiet(s) && DistinctIds(data) && Handled(s, false, data, out, ls)
    requires Session(s, Singles(data), out, s')
    ensures var s2 := After(Apply(s, Deliver(false, data)), ls);
      s2.run == s'.run && LedgerOf(s2) == LedgerOf(s')
  {
    var s2 := After(Apply(s, Deliver(false, data)), ls);
    EventRefinesFold(s, false, data, out, ls);
    SinglesBuildOnce(LedgerOf(s), data, out);
    SessionRefinesTable(s, Singles(data), out, s');
    FoldSingles(LedgerOf(s), data, out);
    BatchIsEntries(LedgerOf(s), LedgerOf(s), data, out);
    ViewDetermines(s2, s');
  }

  lemma {:induction false} SinglesBuildOnce(g: Ledger, data: seq<ModelUpdate>, out: Outcomes)
    ensures OneBuildEvents(g, Singles(data), out)
    decreases |data|
  {
    if data != [] {
      assert Singles(data)[0] == (false, [data[0]]) && Singles(data)[1..] == Singles(data[1..]);
      SinglesBuildOnce(FoldEvent(g, false, [data[0]], out), data[1..], out);
    }
  }

  lemma ViewDetermines(s: State, s': State)
    requires Wf(s) && Wf(s') && ViewOf(s.run, s.runners) == ViewOf(s'.run, s'.runners)
    ensures s.run == s'.run
  {
    var v := ViewOf(s.run, s.runners);
    assert s.run.Keys == v.Keys && s'.run.Keys == v.Keys;
    forall k | k in s.run ensures s.run[k] == s'.run[k] { assert v[k].runner == s.run[k] && v[k].runner == s'.run[k]; }
  }

  // ----- Resync -----

  /**
   Resync convergence. Whatever ran before, an init event with distinct RUNNING entries leaves exactly
   its own entries in `models_run` if and only if every init it took succeeded; then the same event
   again changes nothing and builds no runner. A listed runner is live unless it is the runner of
   before, kept because deployment and address match, and had been closed already.
   */
  lemma ResyncConverges(s: State, data: seq<ModelUpdate>, out: Outcomes, ls: seq<Label>, again: seq<Label>)
    requires Inv(s) && Quiet(s) && DistinctIds(data) && forall e | e in data :: e.state == Running
    requires Handled(s, true, data, out, ls)
    requires Handled(After(Apply(s, Deliver(true, data)), ls), true, data, out, again)
    ensures var s1 := After(Apply(s, Deliver(true, data)), ls);
      var s2 := After(Apply(s1, Deliver(true, data)), again);
      && |s.runners| <= |s1.runners|
      && (AllReady(out, |s.runners|, |s1.runners|)
          <==> s1.run.Keys == Ids(data) && forall e | e in data :: Lists(LedgerOf(s1).table, e))
      && (AllReady(out, |s.runners|, |s1.runners|) ==> s2.run == s1.run && LedgerOf(s2) == LedgerOf(s1))
      && (forall e | e in data && e.modelId in s1.run ::
            Live(s1, s1.run[e.modelId])
            <==> !(SameEndpoint(LedgerOf(s), e) && s.runners[s.run[e.modelId]].closed))
  {
    var s1 := After(Apply(s, Deliver(true, data)), ls);
    var s2 := After(Apply(s1, Deliver(true, data)), again);
    EventRefinesFold(s, true, data, out, ls);
    EventRefinesFold(s1, true, data, out, again);
    FoldResync(LedgerOf(s), data, out);
    assert LedgerOf(s1).table.Keys == s1.run.Keys;
    if AllReady(out, |s.runners|, |s1.runners|) { ViewDetermines(s1, s2); }
    forall e | e in data && e.modelId in s1.run
      ensures Live(s1, s1.run[e.modelId]) <==> !(SameEndpoint(LedgerOf(s), e) && s.runners[s.run[e.modelId]].closed)
    {
      assert LedgerOf(s1).table[e.modelId].runner == s1.run[e.modelId];
      assert Places(LedgerOf(s), LedgerOf(s1).table, e);
      if SameEndpoint(LedgerOf(s), e) { assert LedgerOf(s).table[e.modelId].runner == s.run[e.modelId]; }
    }
  }
}
