/**
 What one entry of an update does in any state, whatever else is running: which tasks and runners it
 creates, and whose settings it changes.
 */
module ClusterEntry {
  import opened Common
  import opened ClusterSteps
  import opened ClusterInvariant
  import opened ClusterLifecycle

  /** The event only appends runners and tasks; the last task is the handler, waiting for the others. */
  ghost predicate EventFrame(s: State, s': State, isInit: bool, e: ModelUpdate) {
    && s'.run == s.run && s'.pend == s.pend && s'.submitted == s.submitted && s'.reportFailure == s.reportFailure
    && |s'.tasks| > |s.tasks| && s'.tasks[..|s.tasks|] == s.tasks
    && s'.tasks[|s'.tasks| - 1]
         == Task(None, false, Gathering(|s.tasks|, |s'.tasks| - 1, if isInit then Some({e.modelId}) else None))
  }

  /** No task but the handler, no new runner, no changed runner. */
  ghost predicate NothingElse(s: State, s': State) {
    |s'.tasks| == |s.tasks| + 1 && s'.runners == s.runners
  }

  /** One removal, aimed at x. */
  ghost predicate OneRemoval(s: State, s': State, x: RunnerId) {
    && |s'.tasks| == |s.tasks| + 2 && s'.runners == s.runners
    && s'.tasks[|s.tasks|] == Task(None, false, Removing(x, false, Return))
  }

  /** One add, of one new open runner with the settings of the entry. */
  ghost predicate OneAdd(s: State, s': State, e: ModelUpdate) {
    && |s'.tasks| == |s.tasks| + 2 && |s'.runners| == |s.runners| + 1 && s'.runners[..|s.runners|] == s.runners
    && s'.tasks[|s.tasks|] == Task(Some(|s.runners|), false, Adding)
    && var built := s'.runners[|s.runners|];
    && built.deploymentId == e.deploymentId && built.modelId == e.modelId && built.ip == e.ip && built.port == e.port
    && built.infos == e.infos && HasName(built, e.infos) && !built.closed && !built.removed && built.stage == Created
  }

  /** No task but the handler; runner x has the new infos and the name they give. */
  ghost predicate OneEdit(s: State, s': State, x: RunnerId, e: ModelUpdate) {
    && |s'.tasks| == |s.tasks| + 1 && |s'.runners| == |s.runners| && x < |s.runners|
    && (forall y | 0 <= y < |s.runners| && y != x :: s'.runners[y] == s.runners[y])
    && s'.runners[x].infos == e.infos && HasName(s'.runners[x], e.infos)
    && s'.runners[x] == s.runners[x].(infos := s'.runners[x].infos, modelName := s'.runners[x].modelName)
  }

  predicate HasName(runner: Runner, infos: Infos) {
    runner.modelName == if "model_name" in infos then Some(infos["model_name"]) else None
  }

  predicate At(runner: Runner, e: ModelUpdate) {
    runner.deploymentId == e.deploymentId && runner.ip == e.ip && runner.port == e.port
  }

  lemma OneEntry(s: State, isInit: bool, e: ModelUpdate)
    requires Wf(s)
    ensures var s1, s' := HandleEntry(s, e), Apply(s, Deliver(isInit, [e]));
      && EventFrame(s, s', isInit, e)
      && s'.runners == s1.runners && |s'.tasks| == |s1.tasks| + 1 && s'.tasks[..|s1.tasks|] == s1.tasks
  {
    assert HandleEntries(s, [e]) == HandleEntries(HandleEntry(s, e), []) == HandleEntry(s, e);
    HandleEntriesFrame(s, [e]);
    assert Ids([e]) == {e.modelId};
  }

  /** The model has a runner inside its init and none that is published. */
  lemma PendingEntry(s: State, isInit: bool, e: ModelUpdate)
    requires Inv(s) && e.modelId in s.pend && e.modelId !in s.run
    ensures var s', x := Apply(s, Deliver(isInit, [e])), s.pend[e.modelId];
      && x < |s.runners| && EventFrame(s, s', isInit, e)
      && (e.state == Running && At(s.runners[x], e) ==> NothingElse(s, s'))
      && (e.state == Running && !At(s.runners[x], e) ==> OneAdd(s, s', e))
      && (e.state == Stopped || e.state == Recovering ==>
            if s.runners[x].deploymentId == e.deploymentId then OneRemoval(s, s', x) else NothingElse(s, s'))
      && (e.state == Unhandled ==> NothingElse(s, s'))
  {
    OneEntry(s, isInit, e);
  }

  /** The loop over the entry, when its model has a published runner. */
  lemma PublishedLoop(s: State, e: ModelUpdate)
    requires WfMap(s, s.run) && e.modelId in s.run
    ensures var x := s.run[e.modelId];
      HandleEntry(s, e) ==
        if e.state == Running then
          if At(s.runners[x], e)
          then
            var edited := s.runners[x].(infos := e.infos, modelName := Lookup(e.infos, "model_name"));
            s.(runners := s.runners[x := edited])
          else SpawnAdd(s, e)
        else if e.state != Unhandled && s.runners[x].deploymentId == e.deploymentId then SpawnRemove(s, x)
        else s
  {}

  /** The model has a published runner. */
  lemma PublishedEntry(s: State, isInit: bool, e: ModelUpdate)
    requires Inv(s) && e.modelId in s.run
    ensures var s', x := Apply(s, Deliver(isInit, [e])), s.run[e.modelId];
      && x < |s.runners| && EventFrame(s, s', isInit, e)
      && (e.state == Running && At(s.runners[x], e) ==> OneEdit(s, s', x, e))
      && (e.state == Running && !At(s.runners[x], e) ==> OneAdd(s, s', e))
      && (e.state == Stopped || e.state == Recovering ==>
            if s.runners[x].deploymentId == e.deploymentId then OneRemoval(s, s', x) else NothingElse(s, s'))
      && (e.state == Unhandled ==> NothingElse(s, s'))
  {
    PublishedLoop(s, e);
    OneEntry(s, isInit, e);
  }

  /** The model has no runner in either dictionary. */
  lemma AbsentEntry(s: State, isInit: bool, e: ModelUpdate)
    requires Inv(s) && e.modelId !in s.run && e.modelId !in s.pend
    ensures var s' := Apply(s, Deliver(isInit, [e]));
      && EventFrame(s, s', isInit, e)
      && (if e.state == Running then OneAdd(s, s', e) else NothingElse(s, s'))
  {
    OneEntry(s, isInit, e);
  }

  /** An event is its entries in order: the runners and tasks of the first, and then those of the rest. */
  lemma EventIsEntries(s: State, isInit: bool, e: ModelUpdate, rest: seq<ModelUpdate>)
    requires Inv(s)
    ensures var first, whole := Apply(s, Deliver(isInit, [e])), Apply(s, Deliver(isInit, [e] + rest));
      var s1 := s.(runners := first.runners, tasks := first.tasks[..|first.tasks| - 1]);
      && Inv(s1)
      && var after := Apply(s1, Deliver(isInit, rest));
      && after.run == whole.run && after.pend == whole.pend && after.runners == whole.runners
      && |after.tasks| == |whole.tasks| && after.tasks[..|after.tasks| - 1] == whole.tasks[..|whole.tasks| - 1]
  {
    assert ([e] + rest)[1..] == rest;
    OneEntry(s, isInit, e);
    HandleEntriesFrame(HandleEntry(s, e), rest);
    HandleEntriesFrame(s, [e]);
    HandleEntryKeeps(s, e);
    assert HandleEntries(s, [e]) == HandleEntry(s, e);
  }

  // ----- The first step of an add -----

  /**
   What an add does when it starts, in any state: it waits for the removal of the published runner of its
   model, or else of the pending one; with neither it files its own runner as pending and starts its init.
   */
  lemma AddBegins(s: State, t: TaskId, r: RunnerId)
    requires Inv(s) && t < |s.tasks| && s.tasks[t].pc == Adding && s.tasks[t].subject == Some(r)
    ensures r < |s.runners|
    ensures var k, s' := s.runners[r].modelId, Apply(s, Advance(t));
      if k in s.run || k in s.pend then
        var x := if k in s.run then s.run[k] else s.pend[k];
        s' == s.(tasks := s.tasks[t := s.tasks[t].(pc := Removing(x, false, Register))])
      else
        && s'.run == s.run && s'.pend == s.pend[k := r] && s'.submitted == s.submitted
        && s'.tasks == s.tasks[t := s.tasks[t].(pc := Initializing)]
        && s'.runners == s.runners[r := s.runners[r].(stage := Registered)]
  {
    assert WfTask(s, s.tasks[t]);
  }
}
