/** What every step of the membership protocol keeps, under no assumption on the schedule. */
module ClusterInvariant {
  import opened Common
  import opened ClusterSteps

  /** Every runner is added by exactly one task, its owner. */
  ghost predicate Owned(s: State) {
    && (forall r | 0 <= r < |s.runners| ::
          s.runners[r].owner < |s.tasks| && s.tasks[s.runners[r].owner].subject == Some(r))
    && (forall t | 0 <= t < |s.tasks| && s.tasks[t].subject.Some? ::
          s.tasks[t].subject.value < |s.runners| && s.runners[s.tasks[t].subject.value].owner == t)
  }

  /** Where the owner of a runner may be at each stage of the runner. */
  predicate Agrees(stage: Stage, pc: Pc) {
    match stage
    case Created => pc.Adding? || (pc.Removing? && pc.next == Register)
    case Registered => pc.Initializing?
    case Settled(_) => pc.Failing? || pc.Sending? || pc.Finished? || (pc.Removing? && pc.next == Return)
  }

  ghost predicate Staged(s: State)
    requires Owned(s)
  {
    forall r | 0 <= r < |s.runners| ::
      Agrees(s.runners[r].stage, s.tasks[s.runners[r].owner].pc) && (s.runners[r].removed ==> s.runners[r].closed)
  }

  /** Published runners are initialised; pending ones are registered and not yet settled. */
  ghost predicate Filed(s: State)
    requires Wf(s)
  {
    && (forall k | k in s.run :: s.runners[s.run[k]].stage == Settled(Ready))
    && (forall k | k in s.pend :: s.runners[s.pend[k]].stage == Registered)
  }

  ghost predicate Inv(s: State) {
    Wf(s) && Owned(s) && Staged(s) && Filed(s)
  }

  // ----- Steps that only append tasks -----

  lemma AppendTask(s: State, th: Task)
    requires Inv(s) && th.subject.None?
    requires WfTask(s.(tasks := s.tasks + [th]), th)
    ensures Inv(s.(tasks := s.tasks + [th]))
  {
    var s' := s.(tasks := s.tasks + [th]);
    forall t | 0 <= t < |s'.tasks| ensures WfTask(s', s'.tasks[t]) {
      if t < |s.tasks| { assert WfTask(s, s.tasks[t]); }
    }
  }

  lemma SpawnAddKeeps(s: State, e: ModelUpdate)
    requires Inv(s)
    ensures Inv(SpawnAdd(s, e))
  {
    var s' := SpawnAdd(s, e);
    forall t | 0 <= t < |s'.tasks| ensures WfTask(s', s'.tasks[t]) {
      if t < |s.tasks| { assert WfTask(s, s.tasks[t]); }
    }
  }

  lemma EditWf(s: State, x: RunnerId, edited: Runner)
    requires Wf(s) && x < |s.runners| && edited.modelId == s.runners[x].modelId
    requires s.runners[x].closed ==> edited.closed
    ensures Wf(s.(runners := s.runners[x := edited]))
  {
    var s' := s.(runners := s.runners[x := edited]);
    forall u | 0 <= u < |s'.tasks| ensures WfTask(s', s'.tasks[u]) {
      assert WfTask(s, s.tasks[u]);
    }
  }

  /** Rewriting a runner's settings or flags, but not its model, stage or owner. */
  lemma EditKeeps(s: State, x: RunnerId, edited: Runner)
    requires Inv(s) && x < |s.runners|
    requires edited.modelId == s.runners[x].modelId && edited.owner == s.runners[x].owner
    requires edited.stage == s.runners[x].stage
    requires (s.runners[x].closed ==> edited.closed) && (edited.removed ==> edited.closed)
    ensures Inv(s.(runners := s.runners[x := edited]))
  {
    EditWf(s, x, edited);
  }

  lemma RemoveMatchingKeeps(s: State, e: ModelUpdate)
    requires Inv(s)
    ensures Inv(RemoveMatching(s, e))
  {
    match Matching(s, e)
    case None =>
    case Some(x) => AppendTask(s, Task(None, false, Removing(x, false, Return)));
  }

  lemma HandleEntryKeeps(s: State, e: ModelUpdate)
    requires Inv(s)
    ensures Inv(HandleEntry(s, e))
  {
    match e.state
    case Unhandled =>
    case Running =>
      SpawnAddKeeps(s, e);
      match Matching(s, e) {
        case None =>
        case Some(x) => EditKeeps(s, x, s.runners[x].(infos := e.infos, modelName := Lookup(e.infos, "model_name")));
      }
    case _ => RemoveMatchingKeeps(s, e);
  }

  lemma HandleEntryGrows(s: State, e: ModelUpdate)
    ensures |HandleEntry(s, e).tasks| >= |s.tasks|
  {}

  lemma {:induction false} HandleEntriesKeeps(s: State, data: seq<ModelUpdate>)
    requires Inv(s)
    ensures Inv(HandleEntries(s, data)) && |HandleEntries(s, data).tasks| >= |s.tasks|
    decreases |data|
  {
    if data != [] {
      HandleEntryKeeps(s, data[0]);
      HandleEntryGrows(s, data[0]);
      HandleEntriesKeeps(HandleEntry(s, data[0]), data[1..]);
    }
  }

  lemma {:induction false} SpawnRemovesKeeps(s: State, order: seq<ModelId>)
    requires Inv(s) && forall k | k in order :: k in s.run
    ensures Inv(SpawnRemoves(s, order))
    decreases |order|
  {
    if order != [] {
      AppendTask(s, Task(None, false, Removing(s.run[order[0]], false, Return)));
      SpawnRemovesKeeps(SpawnRemove(s, s.run[order[0]]), order[1..]);
    }
  }

  // ----- Steps of one task -----

  /** A task may move on if the new program counter suits the runner it adds. */
  lemma SetPcKeeps(s: State, t: TaskId, pc: Pc)
    requires Inv(s) && t < |s.tasks| && WfTask(s, s.tasks[t].(pc := pc))
    requires s.tasks[t].subject.Some? ==> Agrees(s.runners[s.tasks[t].subject.value].stage, pc)
    ensures Inv(SetPc(s, t, pc))
  {
    var s' := SetPc(s, t, pc);
    forall u | 0 <= u < |s'.tasks| ensures WfTask(s', s'.tasks[u]) {
      assert WfTask(s, s.tasks[u]);
    }
  }

  /** Owner and runner move to `init` together; then the runner is filed as pending. */
  lemma RegisterKeeps(s: State, t: TaskId, r: RunnerId)
    requires Inv(s) && t < |s.tasks| && r < |s.runners|
    requires s.tasks[t].subject == Some(r) && s.runners[r].stage == Created
    ensures Inv(RegisterPending(s, t, r))
  {
    var s1 := SetPc(s.(runners := s.runners[r := s.runners[r].(stage := Registered)]), t, Initializing);
    EnterInitKeeps(s, t, r);
    FileKeeps(s1, s.runners[r].modelId, r);
    assert RegisterPending(s, t, r) == s1.(pend := s1.pend[s.runners[r].modelId := r]);
  }

  lemma EnterInitKeeps(s: State, t: TaskId, r: RunnerId)
    requires Inv(s) && t < |s.tasks| && r < |s.runners|
    requires s.tasks[t].subject == Some(r) && s.runners[r].stage == Created
    ensures Inv(SetPc(s.(runners := s.runners[r := s.runners[r].(stage := Registered)]), t, Initializing))
  {
    StagePcWf(s, t, r, Registered, Initializing);
    StagePcKeeps(s, t, r, Registered, Initializing);
  }

  lemma FileKeeps(s: State, k: ModelId, r: RunnerId)
    requires Inv(s) && r < |s.runners| && s.runners[r].modelId == k && s.runners[r].stage == Registered
    ensures Inv(s.(pend := s.pend[k := r]))
  {
    var s' := s.(pend := s.pend[k := r]);
    forall u | 0 <= u < |s'.tasks| ensures WfTask(s', s'.tasks[u]) {
      assert WfTask(s, s.tasks[u]);
    }
  }

  lemma BeginRemoveKeeps(s: State, t: TaskId, x: RunnerId, next: Next)
    requires Inv(s) && t < |s.tasks| && s.tasks[t].pc == Removing(x, false, next) && x < |s.runners|
    ensures Inv(BeginRemove(s, t, x, next))
  {
    var edited := s.runners[x].(closed := true);
    EditKeeps(s, x, edited);
    var s1 := s.(runners := s.runners[x := edited]);
    assert WfTask(s1, s1.tasks[t]);
    SetPcKeeps(s1, t, Removing(x, true, next));
  }

  lemma DeleteKeeps(s: State, x: RunnerId)
    requires Inv(s) && x < |s.runners| && s.runners[x].closed
    ensures Inv(Delete(s, x))
  {
    EditKeeps(s, x, s.runners[x].(removed := true));
    var s1 := s.(runners := s.runners[x := s.runners[x].(removed := true)]);
    ShrinkKeeps(s1, Without(s.run, s.runners[x].modelId, x), Without(s.pend, s.runners[x].modelId, x));
  }

  lemma ShrinkKeeps(s: State, run: map<ModelId, RunnerId>, pend: map<ModelId, RunnerId>)
    requires Inv(s)
    requires forall k | k in run :: k in s.run && run[k] == s.run[k]
    requires forall k | k in pend :: k in s.pend && pend[k] == s.pend[k]
    ensures Inv(s.(run := run, pend := pend))
  {
    var s' := s.(run := run, pend := pend);
    forall u | 0 <= u < |s'.tasks| ensures WfTask(s', s'.tasks[u]) {
      assert WfTask(s, s.tasks[u]);
    }
  }

  lemma RecreatedKeeps(s: State, t: TaskId, x: RunnerId)
    requires Inv(s) && t < |s.tasks| && s.tasks[t].subject.None? && x < |s.runners|
    ensures Inv(Recreated(s, t, x))
  {
    var s' := Recreated(s, t, x);
    forall u | 0 <= u < |s'.tasks| ensures WfTask(s', s'.tasks[u]) {
      assert WfTask(s, s.tasks[u]);
    }
  }

  lemma EndRemoveKeeps(s: State, t: TaskId, x: RunnerId, next: Next)
    requires Inv(s) && t < |s.tasks| && s.tasks[t].pc == Removing(x, true, next) && x < |s.runners|
    requires WfTask(s, s.tasks[t])
    ensures Inv(EndRemove(s, t, x, next))
  {
    var s1 := Delete(s, x);
    DeleteKeeps(s, x);
    match next
    case Return => SetPcKeeps(s1, t, Finished(false));
    case Register => RegisterKeeps(s1, t, s.tasks[t].subject.value);
    case Recreate => RecreatedKeeps(s1, t, x);
  }

  /** The pending entry goes first, then the runner settles, then it may be published. */
  lemma EndInitKeeps(s: State, t: TaskId, r: RunnerId, o: InitOutcome)
    requires Inv(s) && t < |s.tasks| && s.tasks[t].pc == Initializing && s.tasks[t].subject == Some(r)
        && r < |s.runners|
    ensures Inv(EndInit(s, t, r, o))
  {
    var k := s.runners[r].modelId;
    var s1 := s.(pend := Without(s.pend, k, r));
    ShrinkKeeps(s, s.run, s1.pend);
    var pc := PcAfterInit(s.tasks[t], r, o);
    EndInitShape(s, t, r, o);
    SettleKeeps(s1, t, r, o, pc);
    if o == Ready {
      PublishKeeps(SetPc(s1.(runners := s.runners[r := s.runners[r].(stage := Settled(o))]), t, pc), k, r);
    }
  }

  /** Where an add goes on after its init. */
  function PcAfterInit(th: Task, r: RunnerId, o: InitOutcome): Pc {
    match o
    case Ready => Finished(false)
    case Raised => Finished(!th.catches)
    case Refused(error) => match CodeFor(error) case None => Finished(false) case Some(code) => Failing(r, code, None)
  }

  lemma EndInitShape(s: State, t: TaskId, r: RunnerId, o: InitOutcome)
    requires t < |s.tasks| && r < |s.runners|
    ensures var k := s.runners[r].modelId;
      var s1 := SetPc(s.(pend := Without(s.pend, k, r), runners := s.runners[r := s.runners[r].(stage := Settled(o))]),
                      t, PcAfterInit(s.tasks[t], r, o));
      EndInit(s, t, r, o) == if o == Ready then s1.(run := s.run[k := r]) else s1
  {}

  /** Runner and owner move on together, to a stage and a program counter that agree. */
  lemma StagePcKeeps(s: State, t: TaskId, r: RunnerId, stage: Stage, pc: Pc)
    requires Inv(s) && t < |s.tasks| && s.tasks[t].subject == Some(r) && r < |s.runners|
    requires Agrees(stage, pc) && !pc.Removing?
    ensures var s' := SetPc(s.(runners := s.runners[r := s.runners[r].(stage := stage)]), t, pc);
        Owned(s') && Staged(s')
  {
    assert s.runners[r].owner == t;
  }

  lemma StagePcWf(s: State, t: TaskId, r: RunnerId, stage: Stage, pc: Pc)
    requires Wf(s) && t < |s.tasks| && r < |s.runners| && WfTask(s, s.tasks[t].(pc := pc))
    ensures Wf(SetPc(s.(runners := s.runners[r := s.runners[r].(stage := stage)]), t, pc))
  {
    var s' := SetPc(s.(runners := s.runners[r := s.runners[r].(stage := stage)]), t, pc);
    forall u | 0 <= u < |s'.tasks| ensures WfTask(s', s'.tasks[u]) {
      assert WfTask(s, s.tasks[u]);
    }
  }

  lemma SettleKeeps(s: State, t: TaskId, r: RunnerId, o: InitOutcome, pc: Pc)
    requires Inv(s) && t < |s.tasks| && s.tasks[t].pc == Initializing && s.tasks[t].subject == Some(r)
        && r < |s.runners|
    requires forall k | k in s.pend :: s.pend[k] != r
    requires WfTask(s, s.tasks[t].(pc := pc)) && Agrees(Settled(o), pc) && !pc.Removing?
    ensures Inv(SetPc(s.(runners := s.runners[r := s.runners[r].(stage := Settled(o))]), t, pc))
  {
    StagePcWf(s, t, r, Settled(o), pc);
    StagePcKeeps(s, t, r, Settled(o), pc);
    assert s.runners[r].stage == Registered;
  }

  lemma PublishKeeps(s: State, k: ModelId, r: RunnerId)
    requires Inv(s) && r < |s.runners| && s.runners[r].modelId == k && s.runners[r].stage == Settled(Ready)
    ensures Inv(s.(run := s.run[k := r]))
  {
    var s' := s.(run := s.run[k := r]);
    forall u | 0 <= u < |s'.tasks| ensures WfTask(s', s'.tasks[u]) {
      assert WfTask(s, s.tasks[u]);
    }
  }

  lemma BeginFailureKeeps(s: State, t: TaskId, x: RunnerId, code: FailureCode, reason: Option<string>)
    requires Inv(s) && t < |s.tasks| && s.tasks[t].pc == Failing(x, code, reason) && x < |s.runners|
    ensures Inv(BeginFailure(s, t, x, code, reason))
  {
    var s' := BeginFailure(s, t, x, code, reason);
    forall u | 0 <= u < |s'.tasks| ensures WfTask(s', s'.tasks[u]) {
      assert WfTask(s, s.tasks[u]);
    }
  }

  lemma AdvanceKeeps(s: State, t: TaskId)
    requires Inv(s) && AdvanceEnabled(s, t)
    ensures Inv(AdvanceTask(s, t))
  {
    var th := s.tasks[t];
    assert WfTask(s, th);
    match th.pc
    case Adding =>
      var r := th.subject.value;
      match Current(s, s.runners[r].modelId) {
        case None => RegisterKeeps(s, t, r);
        case Some(x) => SetPcKeeps(s, t, Removing(x, false, Register));
      }
    case Removing(x, closing, next) =>
      if closing { EndRemoveKeeps(s, t, x, next); } else { BeginRemoveKeeps(s, t, x, next); }
    case Failing(x, code, reason) => BeginFailureKeeps(s, t, x, code, reason);
    case Sending(x) => SetPcKeeps(s, t, Removing(x, false, Return));
    case Gathering(lo, hi, _) => SetPcKeeps(s, t, Finished(SomeRaised(s, lo, hi)));
  }

  /** Every step keeps the invariant, whatever else is running. */
  lemma StepKeeps(s: State, l: Label)
    requires Inv(s)
    ensures Inv(Apply(s, l))
  {
    if Enabled(s, l) {
      match l
      case Deliver(isInit, data) =>
        HandleEntriesKeeps(s, data);
        var s1 := HandleEntries(s, data);
        AppendTask(s1, Task(None, false, Gathering(|s.tasks|, |s1.tasks|, if isInit then Some(Ids(data)) else None)));
      case SpawnFailure(x, code, reason) => AppendTask(s, Task(None, false, Failing(x, code, reason)));
      case SpawnReconnect(x) => AppendTask(s, Task(None, true, Removing(x, false, Recreate)));
      case Advance(t) => AdvanceKeeps(s, t);
      case InitReturns(t, o) => assert WfTask(s, s.tasks[t]); EndInitKeeps(s, t, s.tasks[t].subject.value, o);
      case Resync(t, order) =>
        ResyncNames(s, t, order);
        SpawnRemovesKeeps(s, order);
        SpawnRemovesTasks(s, order);
        var s1 := SpawnRemoves(s, order);
        assert s1.tasks[t] == s.tasks[t];
        assert WfTask(s, s.tasks[t]);
        SetPcKeeps(s1, t, Gathering(|s.tasks|, |s1.tasks|, None));
    }
  }

  lemma {:induction false} RunKeeps(s: State, ls: seq<Label>)
    requires Inv(s)
    ensures Inv(After(s, ls))
    decreases |ls|
  {
    if ls != [] {
      StepKeeps(s, ls[0]);
      RunKeeps(Apply(s, ls[0]), ls[1..]);
    }
  }
}
