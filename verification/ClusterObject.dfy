/**
 The cluster as an object that updates its two dictionaries in place. Each method is the stretch of
 one coroutine between two awaits; each is proved to be the step of the transition system, so what
 is proved about runs is proved about sequences of these calls.
 */
module ClusterObject {
  import opened Common
  import opened ClusterSteps

  class ModelCluster {
    const reportFailure: bool
    var modelsRun: map<ModelId, RunnerId>
    var pendingModelRuns: map<ModelId, RunnerId>
    var runners: seq<Runner>     // the runner objects
    var tasks: seq<Task>         // the event loop
    var submitted: seq<Report>   // what the websocket client was handed

    function Value(): State
      reads this
    {
      State(reportFailure, modelsRun, pendingModelRuns, runners, tasks, submitted)
    }

    constructor (reportFailure: bool)
      ensures Value() == State(reportFailure, map[], map[], [], [], []) && Initial(Value())
    {
      this.reportFailure := reportFailure;
      modelsRun := map[];
      pendingModelRuns := map[];
      runners := [];
      tasks := [];
      submitted := [];
    }

    // ----- Events -----

    /** The runner an update refers to, in either dictionary, unless its deployment differs. */
    method FindModelRunner(modelId: ModelId, deploymentId: string) returns (found: Option<RunnerId>)
      ensures forall e: ModelUpdate | e.modelId == modelId && e.deploymentId == deploymentId ::
          found == Matching(Value(), e)
      ensures found.Some? ==> found.value < |runners|
    {
      found := if modelId in modelsRun then Some(modelsRun[modelId]) else Lookup(pendingModelRuns, modelId);
      if found.Some? && (found.value >= |runners| || runners[found.value].deploymentId != deploymentId) {
        found := None;
      }
    }

    /** Queue the removal coroutine of a runner. */
    method QueueRemove(x: RunnerId)
      modifies this`tasks
      ensures Value() == SpawnRemove(old(Value()), x)
    {
      tasks := tasks + [Task(None, false, Removing(x, false, Return))];
    }

    /** Build a runner with the factory and queue the coroutine that adds it. */
    method QueueAdd(e: ModelUpdate)
      modifies this`tasks, this`runners
      ensures Value() == SpawnAdd(old(Value()), e)
    {
      var runner := Runner(e.deploymentId, e.modelId, Lookup(e.infos, "model_name"), e.ip, e.port, e.infos,
                           false, Created, |tasks|, false);
      runners, tasks := runners + [runner], tasks + [Task(Some(|runners|), false, Adding)];
    }

    method UpdateModel(e: ModelUpdate)
      modifies this`tasks, this`runners
      ensures Value() == HandleEntry(old(Value()), e)
    {
      var found := FindModelRunner(e.modelId, e.deploymentId);
      match e.state
      case Unhandled =>
      case Running =>
        if found.Some? && runners[found.value].ip == e.ip && runners[found.value].port == e.port {
          if e.modelId in modelsRun {
            var x := found.value;
            runners := runners[x := runners[x].(infos := e.infos, modelName := Lookup(e.infos, "model_name"))];
          }
        } else {
          QueueAdd(e);
        }
      case _ =>
        if found.Some? {
          QueueRemove(found.value);
        }
    }

    /** `handle_init_event` and `handle_update_event` up to the `gather` of `update_model_runs`. */
    method HandleEvent(isInit: bool, data: seq<ModelUpdate>)
      modifies this`tasks, this`runners
      ensures Value() == DeliverEvent(old(Value()), isInit, data)
      ensures Wf(old(Value())) ==> Value() == Apply(old(Value()), Deliver(isInit, data))
    {
      var lo := |tasks|;
      for i := 0 to |data|
        invariant HandleEntries(Value(), data[i..]) == HandleEntries(old(Value()), data)
        invariant lo <= |tasks|
      {
        assert data[i..][0] == data[i] && data[i..][1..] == data[i + 1..];
        UpdateModel(data[i]);
      }
      assert data[|data|..] == [];
      tasks := tasks + [Task(None, false, Gathering(lo, |tasks|, if isInit then Some(Ids(data)) else None))];
    }

    /** The end of a `gather`: an exception of a gathered task goes through, else the handler ends. */
    method GatherReturns(t: TaskId)
      requires Enabled(Value(), Advance(t)) && tasks[t].pc.Gathering?
      modifies this`tasks
      ensures Value() == Apply(old(Value()), Advance(t))
    {
      tasks := tasks[t := tasks[t].(pc := Finished(SomeRaised(Value(), tasks[t].pc.lo, tasks[t].pc.hi)))];
    }

    /** The rest of `handle_init_event`: queue the removal of every model the event does not name. */
    method RemoveUnnamedModels(t: TaskId, order: seq<ModelId>)
      requires Enabled(Value(), Resync(t, order))
      modifies this`tasks
      ensures Value() == Apply(old(Value()), Resync(t, order))
    {
      ResyncNames(Value(), t, order);
      SpawnRemovesTasks(Value(), order);
      var lo := |tasks|;
      for i := 0 to |order|
        invariant modelsRun == old(modelsRun) && |tasks| == lo + i && tasks[t] == old(tasks[t])
        invariant SpawnRemoves(Value(), order[i..]) == SpawnRemoves(old(Value()), order)
      {
        assert order[i..][0] == order[i] && order[i..][1..] == order[i + 1..];
        QueueRemove(modelsRun[order[i]]);
      }
      assert order[|order|..] == [];
      tasks := tasks[t := tasks[t].(pc := Gathering(lo, |tasks|, None))];
    }

    /** `asyncio.create_task(process_failure(..))` */
    method CreateFailureTask(x: RunnerId, code: FailureCode, reason: Option<string>)
      requires Enabled(Value(), SpawnFailure(x, code, reason))
      modifies this`tasks
      ensures Value() == Apply(old(Value()), SpawnFailure(x, code, reason))
    {
      tasks := tasks + [Task(None, false, Failing(x, code, reason))];
    }

    /** `asyncio.create_task(reconnect_model_runner(..))` */
    method CreateReconnectTask(x: RunnerId)
      requires Enabled(Value(), SpawnReconnect(x))
      modifies this`tasks
      ensures Value() == Apply(old(Value()), SpawnReconnect(x))
    {
      tasks := tasks + [Task(None, true, Removing(x, false, Recreate))];
    }

    // ----- add_model_runner -----

    method RegisterAsPending(t: TaskId, r: RunnerId)
      requires t < |tasks| && r < |runners|
      modifies this`tasks, this`runners, this`pendingModelRuns
      ensures Value() == RegisterPending(old(Value()), t, r)
    {
      pendingModelRuns := pendingModelRuns[runners[r].modelId := r];
      runners := runners[r := runners[r].(stage := Registered)];
      tasks := tasks[t := tasks[t].(pc := Initializing)];
    }

    /** Read the current runner; wait for its removal, or register at once. */
    method AddModelRunner(t: TaskId)
      requires Enabled(Value(), Advance(t)) && tasks[t].pc == Adding
      modifies this`tasks, this`runners, this`pendingModelRuns
      ensures Value() == Apply(old(Value()), Advance(t))
    {
      assert WfTask(Value(), tasks[t]);
      var r := tasks[t].subject.value;
      var modelId := runners[r].modelId;
      var current := if modelId in modelsRun then Some(modelsRun[modelId]) else Lookup(pendingModelRuns, modelId);
      if current.Some? {
        tasks := tasks[t := tasks[t].(pc := Removing(current.value, false, Register))];
      } else {
        RegisterAsPending(t, r);
      }
    }

    /** The awaited `init` ends: clean up, then publish, report, stop or raise. */
    method InitReturned(t: TaskId, outcome: InitOutcome)
      requires Enabled(Value(), InitReturns(t, outcome))
      modifies this`tasks, this`runners, this`pendingModelRuns, this`modelsRun
      ensures Value() == Apply(old(Value()), InitReturns(t, outcome))
    {
      assert WfTask(Value(), tasks[t]);
      var r := tasks[t].subject.value;
      var modelId := runners[r].modelId;
      runners := runners[r := runners[r].(stage := Settled(outcome))];
      if modelId in pendingModelRuns && pendingModelRuns[modelId] == r {
        pendingModelRuns := pendingModelRuns - {modelId};
      }
      var pc := Finished(false);
      match outcome {
        case Ready => modelsRun := modelsRun[modelId := r];
        case Raised => pc := Finished(!tasks[t].catches);
        case Refused(error) =>
          match error
          case BadImplementation => pc := Failing(r, CodeBadImplementation, None);
          case Aborted =>
          case GrpcConnectionFailed => pc := Failing(r, CodeConnectionFailed, None);
          case AuthError => pc := Failing(r, CodeConnectionFailed, None);
          case Failed => pc := Failing(r, CodeMultipleFailed, None);
      }
      tasks := tasks[t := tasks[t].(pc := pc)];
    }

    // ----- process_failure -----

    method ProcessFailure(t: TaskId)
      requires Enabled(Value(), Advance(t)) && tasks[t].pc.Failing?
      modifies this`tasks, this`submitted
      ensures Value() == Apply(old(Value()), Advance(t))
    {
      assert WfTask(Value(), tasks[t]);
      var x := tasks[t].pc.culprit;
      if reportFailure {
        submitted := submitted + [Report(t, runners[x].modelId, tasks[t].pc.code, tasks[t].pc.reason, runners[x].ip)];
        tasks := tasks[t := tasks[t].(pc := Sending(x))];
      } else {
        tasks := tasks[t := tasks[t].(pc := Finished(false))];
      }
    }

    /** The report was sent or queued; go on to the removal. */
    method SendReturned(t: TaskId)
      requires Enabled(Value(), Advance(t)) && tasks[t].pc.Sending?
      modifies this`tasks
      ensures Value() == Apply(old(Value()), Advance(t))
    {
      tasks := tasks[t := tasks[t].(pc := Removing(tasks[t].pc.culprit, false, Return))];
    }

    // ----- remove_model_runner and reconnect_model_runner -----

    method BeginClose(t: TaskId)
      requires Enabled(Value(), Advance(t)) && tasks[t].pc.Removing? && !tasks[t].pc.closing
      modifies this`tasks, this`runners
      ensures Value() == Apply(old(Value()), Advance(t))
    {
      assert WfTask(Value(), tasks[t]);
      var x := tasks[t].pc.target;
      runners := runners[x := runners[x].(closed := true)];
      tasks := tasks[t := tasks[t].(pc := Removing(x, true, tasks[t].pc.next))];
    }

    /** Delete the runner wherever it still is the one filed under its model id. */
    method DeleteEntries(x: RunnerId)
      requires x < |runners|
      modifies this`runners, this`pendingModelRuns, this`modelsRun
      ensures Value() == Delete(old(Value()), x)
    {
      var modelId := runners[x].modelId;
      if modelId in modelsRun && modelsRun[modelId] == x {
        modelsRun := modelsRun - {modelId};
      }
      if modelId in pendingModelRuns && pendingModelRuns[modelId] == x {
        pendingModelRuns := pendingModelRuns - {modelId};
      }
      runners := runners[x := runners[x].(removed := true)];
    }

    /** The channels are closed: delete, and go on with whoever asked for the removal. */
    method CloseReturned(t: TaskId)
      requires Enabled(Value(), Advance(t)) && tasks[t].pc.Removing? && tasks[t].pc.closing
      modifies this`tasks, this`runners, this`pendingModelRuns, this`modelsRun
      ensures Value() == Apply(old(Value()), Advance(t))
    {
      assert WfTask(Value(), tasks[t]);
      var x, next := tasks[t].pc.target, tasks[t].pc.next;
      DeleteEntries(x);
      match next
      case Return => tasks := tasks[t := tasks[t].(pc := Finished(false))];
      case Register => RegisterAsPending(t, tasks[t].subject.value);
      case Recreate =>
        var renewed := runners[x].(closed := false, stage := Created, owner := t, removed := false);
        runners, tasks := runners + [renewed], tasks[t := tasks[t].(subject := Some(|runners|), pc := Adding)];
    }
  }
}
