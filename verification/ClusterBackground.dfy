/** What the background tasks of the circuit breaker do to the cluster, from a state at rest. */
module ClusterBackground {
  import opened Common
  import opened ClusterSteps
  import opened ClusterInvariant
  import opened ClusterLifecycle
  import opened ClusterSafety
  import opened ClusterRuns
  import opened ClusterConfluence
  import opened ClusterHandler
  import opened ClusterTermination

  // ----- A task that runs alone -----

  ghost predicate Lone(s: State, t: TaskId) {
    && t < |s.tasks| && !s.tasks[t].pc.Gathering?
    && forall u | 0 <= u < |s.tasks| && u != t :: s.tasks[u].pc.Finished?
  }

  predicate CanGo(s: State, t: TaskId) {
    t < |s.tasks| && !s.tasks[t].pc.Finished? && !s.tasks[t].pc.Gathering?
  }

  ghost predicate Moves(s: State, s': State, t: TaskId)
    requires t < |s.tasks|
  {
    && |s'.tasks| == |s.tasks| && s'.tasks == s.tasks[t := s'.tasks[t]]
    && Rank(s'.tasks[t].pc) < Rank(s.tasks[t].pc) && !s'.tasks[t].pc.Gathering?
  }

  lemma InitMoves(s: State, t: TaskId, o: InitOutcome)
    requires Enabled(s, InitReturns(t, o))
    ensures Moves(s, Apply(s, InitReturns(t, o)), t)
  {
    assert WfTask(s, s.tasks[t]);
    EndInitSummary(s, t, s.tasks[t].subject.value, o);
  }

  lemma TaskMoves(s: State, t: TaskId)
    requires Wf(s) && AdvanceEnabled(s, t)
    ensures Moves(s, AdvanceTask(s, t), t)
  {
    AdvanceMoves(s, t);
    AdvanceMovesOne(s, t);
  }

  lemma NextEnabled(s: State, t: TaskId, out: Outcomes)
    requires Wf(s) && CanGo(s, t)
    ensures Enabled(s, NextStep(s, t, out))
  {
    assert WfTask(s, s.tasks[t]);
  }

  lemma NextMoves(s: State, t: TaskId, out: Outcomes)
    requires Inv(s) && CanGo(s, t)
    ensures Inv(Apply(s, NextStep(s, t, out))) && Moves(s, Apply(s, NextStep(s, t, out)), t)
  {
    StepKeeps(s, NextStep(s, t, out));
    NextEnabled(s, t, out);
    match NextStep(s, t, out)
    case Advance(_) => TaskMoves(s, t);
    case InitReturns(_, o) => InitMoves(s, t, o);
  }

  /** The state in which task t ends, when no other task moves. */
  ghost function End(s: State, t: TaskId, out: Outcomes): State
    requires Inv(s)
    decreases if t < |s.tasks| then Rank(s.tasks[t].pc) else 0
  {
    if !CanGo(s, t) then s else
    NextMoves(s, t, out);
    End(Apply(s, NextStep(s, t, out)), t, out)
  }

  lemma Goes(s: State, t: TaskId, out: Outcomes, s': State)
    requires Inv(s) && CanGo(s, t) && Apply(s, NextStep(s, t, out)) == s'
    ensures Inv(s') && End(s, t, out) == End(s', t, out)
  {
    NextMoves(s, t, out);
  }

  /** A step of a task is the next step of the lone task, or none at all. */
  lemma LoneStep(s: State, t: TaskId, l: Label, out: Outcomes)
    requires Wf(s) && Lone(s, t) && Internal(s, l, out) && Enabled(s, l)
    ensures CanGo(s, t) && l == NextStep(s, t, out)
  {
    match l
    case Advance(u) => assert u == t;
    case InitReturns(u, o) => assert WfTask(s, s.tasks[u]) && u == t;
    case Resync(u, order) => assert false;
  }

  /** Every run of a lone task that comes to rest comes to rest in the same state. */
  lemma {:induction false} LoneRunEnds(s: State, t: TaskId, ls: seq<Label>, out: Outcomes)
    requires Inv(s) && Lone(s, t) && Settling(s, ls, out) && Quiet(After(s, ls))
    ensures After(s, ls) == End(s, t, out)
    decreases |ls|
  {
    if ls != [] {
      if Enabled(s, ls[0]) {
        LoneStep(s, t, ls[0], out);
        NextMoves(s, t, out);
      }
      LoneRunEnds(Apply(s, ls[0]), t, ls[1..], out);
    }
  }

  // ----- Removing and failing -----

  /** A runner that was closed and taken out of the dictionaries. */
  function Gone(x: Runner): Runner { x.(closed := true, removed := true) }

  /** x is closed and in neither dictionary, and task t has ended. */
  ghost function Removed(s: State, t: TaskId, x: RunnerId): State
    requires t < |s.tasks| && x < |s.runners|
  {
    s.(run := Without(s.run, s.runners[x].modelId, x), pend := Without(s.pend, s.runners[x].modelId, x),
       runners := s.runners[x := Gone(s.runners[x])], tasks := s.tasks[t := s.tasks[t].(pc := Finished(false))])
  }

  lemma BeginApply(s: State, t: TaskId, x: RunnerId, next: Next)
    requires Wf(s) && t < |s.tasks| && s.tasks[t].pc == Removing(x, false, next)
    ensures x < |s.runners| && Apply(s, Advance(t)) == BeginRemove(s, t, x, next)
  {
    assert WfTask(s, s.tasks[t]);
  }

  lemma BeginStep(s: State, t: TaskId, x: RunnerId, next: Next, out: Outcomes)
    requires Inv(s) && t < |s.tasks| && s.tasks[t].pc == Removing(x, false, next)
    ensures x < |s.runners| && Inv(BeginRemove(s, t, x, next))
    ensures End(s, t, out) == End(BeginRemove(s, t, x, next), t, out)
  {
    BeginApply(s, t, x, next);
    Goes(s, t, out, BeginRemove(s, t, x, next));
  }

  lemma EndApply(s: State, t: TaskId, x: RunnerId, next: Next)
    requires Wf(s) && t < |s.tasks| && s.tasks[t].pc == Removing(x, true, next)
    ensures x < |s.runners|
    ensures next == Register ==> s.tasks[t].subject.Some? && s.tasks[t].subject.value < |s.runners|
    ensures Apply(s, Advance(t)) == EndRemove(s, t, x, next)
  {
    assert WfTask(s, s.tasks[t]);
  }

  lemma EndStep(s: State, t: TaskId, x: RunnerId, next: Next, out: Outcomes)
    requires Inv(s) && t < |s.tasks| && s.tasks[t].pc == Removing(x, true, next)
    ensures x < |s.runners|
    ensures next == Register ==> s.tasks[t].subject.Some? && s.tasks[t].subject.value < |s.runners|
    ensures Inv(EndRemove(s, t, x, next)) && End(s, t, out) == End(EndRemove(s, t, x, next), t, out)
  {
    EndApply(s, t, x, next);
    Goes(s, t, out, EndRemove(s, t, x, next));
  }

  lemma RemovedShape(s: State, t: TaskId, x: RunnerId)
    requires t < |s.tasks| && x < |s.runners|
    ensures EndRemove(BeginRemove(s, t, x, Return), t, x, Return) == Removed(s, t, x)
  {}

  lemma RemoveEnds(s: State, t: TaskId, x: RunnerId, out: Outcomes)
    requires Inv(s) && t < |s.tasks| && s.tasks[t].pc == Removing(x, false, Return)
    ensures x < |s.runners| && End(s, t, out) == Removed(s, t, x)
  {
    BeginStep(s, t, x, Return, out);
    var s1 := BeginRemove(s, t, x, Return);
    EndStep(s1, t, x, Return, out);
    RemovedShape(s, t, x);
    assert !CanGo(Removed(s, t, x), t);
  }

  /** What `process_failure` does to runner x. */
  ghost function Failed(s: State, t: TaskId, x: RunnerId, code: FailureCode, reason: Option<string>): State
    requires t < |s.tasks| && x < |s.runners|
  {
    if s.reportFailure then
      var report := Report(t, s.runners[x].modelId, code, reason, s.runners[x].ip);
      Removed(s.(submitted := s.submitted + [report]), t, x)
    else SetPc(s, t, Finished(false))
  }

  lemma FailingEnds(s: State, t: TaskId, x: RunnerId, code: FailureCode, reason: Option<string>, out: Outcomes)
    requires Inv(s) && t < |s.tasks| && s.tasks[t].pc == Failing(x, code, reason)
    ensures x < |s.runners| && End(s, t, out) == Failed(s, t, x, code, reason)
  {
    assert WfTask(s, s.tasks[t]);
    var s1 := BeginFailure(s, t, x, code, reason);
    Goes(s, t, out, s1);
    if s.reportFailure {
      var s2 := SetPc(s1, t, Removing(x, false, Return));
      Goes(s1, t, out, s2);
      RemoveEnds(s2, t, x, out);
      assert Removed(s2, t, x) == Failed(s, t, x, code, reason);
    }
  }

  /**
   `process_failure` from rest, in every run that has come to rest. With reporting on, exactly one
   report is submitted, with the model and address of the runner, and the runner is closed and leaves
   the dictionaries; every other entry stays. With reporting off nothing changes at all.
   */
  lemma FailureRun(s: State, x: RunnerId, code: FailureCode, reason: Option<string>, out: Outcomes, ls: seq<Label>)
    requires Inv(s) && Quiet(s) && x < |s.runners|
    requires var s1 := Apply(s, SpawnFailure(x, code, reason)); Settling(s1, ls, out) && Quiet(After(s1, ls))
    ensures var s' := After(Apply(s, SpawnFailure(x, code, reason)), ls);
      if s.reportFailure then
        && s'.submitted == s.submitted + [Report(|s.tasks|, s.runners[x].modelId, code, reason, s.runners[x].ip)]
        && s'.run == Without(s.run, s.runners[x].modelId, x) && s'.pend == EMPTY
        && s'.runners == s.runners[x := s.runners[x].(closed := true, removed := true)]
      else s' == s.(tasks := s'.tasks)
  {
    var t := |s.tasks|;
    var s1 := Apply(s, SpawnFailure(x, code, reason));
    StepKeeps(s, SpawnFailure(x, code, reason));
    RestIsExclusive(s);
    assert s1.tasks[t].pc == Failing(x, code, reason);
    LoneRunEnds(s1, t, ls, out);
    FailingEnds(s1, t, x, code, reason, out);
  }

  // ----- Reconnecting -----

  /** From s to s', x has left the dictionaries, and task t is about to add one open runner with all settings of x. */
  ghost predicate FreshCopy(s: State, s': State, t: TaskId, x: RunnerId) {
    && t < |s.tasks| && x < |s.runners| && |s'.runners| == |s.runners| + 1
    && (var copy := s'.runners[|s.runners|];
        && copy.deploymentId == s.runners[x].deploymentId && copy.modelId == s.runners[x].modelId
        && copy.modelName == s.runners[x].modelName && copy.infos == s.runners[x].infos
        && copy.ip == s.runners[x].ip && copy.port == s.runners[x].port && !copy.closed)
    && s'.runners[..|s.runners|] == s.runners[x := s.runners[x].(removed := true)]
    && s'.tasks == s.tasks[t := Task(Some(|s.runners|), s.tasks[t].catches, Adding)] && s'.submitted == s.submitted
    && (forall k | k in s'.run :: k in s.run && s'.run[k] == s.run[k] && s.run[k] != x)
    && (forall k | k in s.run && s.run[k] != x :: k in s'.run)
    && (forall k | k in s'.pend :: k in s.pend && s'.pend[k] == s.pend[k] && s.pend[k] != x)
    && (forall k | k in s.pend && s.pend[k] != x :: k in s'.pend)
  }

  /** The step of a reconnect that ends the removal of x, in any state. */
  lemma RecreateCopies(s: State, t: TaskId, x: RunnerId)
    requires Inv(s) && t < |s.tasks| && s.tasks[t].pc == Removing(x, true, Recreate)
    ensures FreshCopy(s, Apply(s, Advance(t)), t, x)
  {
    EndApply(s, t, x, Recreate);
    RecreatedShape(s, t, x);
  }

  lemma RecreatedShape(s: State, t: TaskId, x: RunnerId)
    requires WfMap(s, s.run) && WfMap(s, s.pend) && t < |s.tasks| && x < |s.runners|
    ensures FreshCopy(s, EndRemove(s, t, x, Recreate), t, x)
  {
    var s1 := Delete(s, x);
    assert s1.tasks == s.tasks && s1.runners == s.runners[x := s.runners[x].(removed := true)];
    assert EndRemove(s, t, x, Recreate) == Recreated(s1, t, x);
  }

  /** x is closed and gone, and a fresh runner with its settings is about to be added. */
  ghost predicate Renewed(s: State, s': State, x: RunnerId)
    requires x < |s.runners|
  {
    && s'.run == Without(s.run, s.runners[x].modelId, x) && s'.pend == Without(s.pend, s.runners[x].modelId, x)
    && s'.runners == s.runners[x := Gone(s.runners[x])] + [CopyOf(s.runners[x], |s.tasks|)]
    && s'.tasks == s.tasks + [Task(Some(|s.runners|), true, Adding)]
    && s'.submitted == s.submitted && s'.reportFailure == s.reportFailure
  }

  lemma RecreateShape(s: State, x: RunnerId)
    requires x < |s.runners|
    ensures var t := |s.tasks|;
      var s1 := s.(tasks := s.tasks + [Task(None, true, Removing(x, false, Recreate))]);
      Renewed(s, EndRemove(BeginRemove(s1, t, x, Recreate), t, x, Recreate), x)
  {}

  /** The first half of a reconnect. */
  lemma ReconnectBegins(s: State, x: RunnerId, out: Outcomes) returns (s3: State)
    requires Inv(s) && x < |s.runners|
    ensures Inv(Apply(s, SpawnReconnect(x))) && Inv(s3) && Renewed(s, s3, x)
    ensures End(Apply(s, SpawnReconnect(x)), |s.tasks|, out) == End(s3, |s.tasks|, out)
  {
    var t := |s.tasks|;
    var s1 := s.(tasks := s.tasks + [Task(None, true, Removing(x, false, Recreate))]);
    assert Apply(s, SpawnReconnect(x)) == s1;
    StepKeeps(s, SpawnReconnect(x));
    BeginStep(s1, t, x, Recreate, out);
    var s2 := BeginRemove(s1, t, x, Recreate);
    EndStep(s2, t, x, Recreate, out);
    s3 := EndRemove(s2, t, x, Recreate);
    RecreateShape(s, x);
  }

  /** The runners once the one that model k runs, if any, has been removed. */
  function Evicted(s: State, k: ModelId): seq<Runner> {
    if k in s.run && s.run[k] < |s.runners| then s.runners[s.run[k] := Gone(s.runners[s.run[k]])] else s.runners
  }

  /** Runner r is registered, and whatever its model ran is gone. */
  ghost predicate ReadyToInit(s: State, s': State, t: TaskId, r: RunnerId)
    requires r < |s.runners|
  {
    var k := s.runners[r].modelId;
    && t < |s'.tasks| && s'.tasks[t] == Task(Some(r), true, Initializing)
    && s'.runners == Evicted(s, k)[r := s.runners[r].(stage := Registered)]
    && s'.run == s.run - {k} && s'.pend == EMPTY[k := r]
    && s'.submitted == s.submitted && s'.reportFailure == s.reportFailure
  }

  lemma WaitShape(s: State, t: TaskId, y: RunnerId, r: RunnerId)
    requires t < |s.tasks| && s.tasks[t].subject == Some(r) && s.tasks[t].catches && r < |s.runners|
    requires y < |s.runners| && y != r && s.pend == EMPTY && s.runners[r].modelId == s.runners[y].modelId
    requires s.runners[r].modelId in s.run && s.run[s.runners[r].modelId] == y
    ensures ReadyToInit(s, RegisterPending(Delete(BeginRemove(s, t, y, Register), y), t, r), t, r)
  {
    var s1 := BeginRemove(s, t, y, Register);
    var s2 := Delete(s1, y);
    assert s2.run == s.run - {s.runners[r].modelId} && s2.pend == EMPTY && s2.tasks == s1.tasks;
    assert s2.runners == Evicted(s, s.runners[r].modelId);
  }

  /** Task t is about to add r, with nothing pending. */
  ghost predicate AboutToAdd(s: State, t: TaskId, r: RunnerId) {
    && Inv(s) && t < |s.tasks| && s.tasks[t] == Task(Some(r), true, Adding) && r < |s.runners| && s.pend == EMPTY
    && s.runners[r].stage == Created
  }

  lemma ReadsCurrent(s: State, t: TaskId, r: RunnerId, y: RunnerId)
    requires AboutToAdd(s, t, r) && s.runners[r].modelId in s.run && s.run[s.runners[r].modelId] == y
    ensures Apply(s, Advance(t)) == SetPc(s, t, Removing(y, false, Register))
    ensures y < |s.runners| && y != r && s.runners[y].modelId == s.runners[r].modelId
  {
    assert WfTask(s, s.tasks[t]);
  }

  /** An add that has read the runner of its model waits for its removal, and registers. */
  lemma WaitRun(s: State, t: TaskId, r: RunnerId, y: RunnerId, out: Outcomes) returns (s': State)
    requires Inv(s) && t < |s.tasks| && s.tasks[t] == Task(Some(r), true, Removing(y, false, Register))
    requires r < |s.runners| && y < |s.runners| && y != r && s.runners[y].modelId == s.runners[r].modelId
    requires s.pend == EMPTY && s.runners[r].modelId in s.run && s.run[s.runners[r].modelId] == y
    ensures Inv(s') && ReadyToInit(s, s', t, r) && End(s, t, out) == End(s', t, out)
  {
    BeginStep(s, t, y, Register, out);
    var s1 := BeginRemove(s, t, y, Register);
    EndStep(s1, t, y, Register, out);
    s' := EndRemove(s1, t, y, Register);
    WaitShape(s, t, y, r);
  }

  lemma RegisterAfterWait(s: State, t: TaskId, r: RunnerId, y: RunnerId, out: Outcomes) returns (s': State)
    requires AboutToAdd(s, t, r) && s.runners[r].modelId in s.run && s.run[s.runners[r].modelId] == y
    ensures Inv(s') && ReadyToInit(s, s', t, r) && End(s, t, out) == End(s', t, out)
  {
    var s1 := SetPc(s, t, Removing(y, false, Register));
    ReadsCurrent(s, t, r, y);
    Goes(s, t, out, s1);
    s' := WaitRun(s1, t, r, y, out);
  }

  lemma RegistersAtOnce(s: State, t: TaskId, r: RunnerId, out: Outcomes) returns (s': State)
    requires AboutToAdd(s, t, r) && s.runners[r].modelId !in s.run
    ensures Inv(s') && ReadyToInit(s, s', t, r) && End(s, t, out) == End(s', t, out)
  {
    assert WfTask(s, s.tasks[t]);
    s' := RegisterPending(s, t, r);
    Goes(s, t, out, s');
    assert s.run - {s.runners[r].modelId} == s.run;
  }

  /** The report of a refused init. */
  function ReportOf(s: State, t: TaskId, r: RunnerId, o: InitOutcome): seq<Report>
    requires r < |s.runners|
  {
    if s.reportFailure && Verdict(o).Some?
    then [Report(t, s.runners[r].modelId, Verdict(o).value, None, s.runners[r].ip)] else []
  }

  /** An add has ended: r is published, or its failure is reported and its model runs nothing. */
  ghost predicate Added(s: State, s': State, t: TaskId, r: RunnerId, o: InitOutcome)
    requires r < |s.runners|
  {
    var k := s.runners[r].modelId;
    && s'.run == (if o == Ready then (s.run - {k})[k := r] else s.run - {k}) && s'.pend == EMPTY
    && s'.submitted == s.submitted + ReportOf(s, t, r, o)
    && s'.runners == Evicted(s, k)[r := s.runners[r].(
         stage := Settled(o),
         closed := s.runners[r].closed || ReportOf(s, t, r, o) != [],
         removed := s.runners[r].removed || ReportOf(s, t, r, o) != [])]
  }

  /** What the end of the init leaves: r has settled and is published if it is ready. */
  ghost predicate InitEnded(s0: State, s1: State, t: TaskId, r: RunnerId, o: InitOutcome)
    requires r < |s0.runners|
  {
    var k := s0.runners[r].modelId;
    && t < |s1.tasks|
    && s1.tasks[t].pc == (match Verdict(o) case None => Finished(false) case Some(code) => Failing(r, code, None))
    && s1.run == (if o == Ready then (s0.run - {k})[k := r] else s0.run - {k}) && s1.pend == EMPTY
    && s1.submitted == s0.submitted && s1.reportFailure == s0.reportFailure
    && s1.runners == Evicted(s0, k)[r := s0.runners[r].(stage := Settled(o))]
  }

  lemma InitShape(s0: State, s: State, t: TaskId, r: RunnerId, o: InitOutcome)
    requires r < |s0.runners| && ReadyToInit(s0, s, t, r) && |s.runners| == |s0.runners|
    ensures InitEnded(s0, EndInit(s, t, r, o), t, r, o)
  {
    EndInitShape(s, t, r, o);
    assert Without(s.pend, s.runners[r].modelId, r) == EMPTY;
    assert s.runners[r] == s0.runners[r].(stage := Registered);
  }

  /** The last steps of an add: the end of the init and, for a refused one, the report. */
  lemma InitEnds(s0: State, s: State, t: TaskId, r: RunnerId, out: Outcomes)
    requires Inv(s) && r < |s0.runners| && ReadyToInit(s0, s, t, r)
    ensures Added(s0, End(s, t, out), t, r, out(r))
  {
    var s1 := EndInit(s, t, r, out(r));
    Goes(s, t, out, s1);
    InitShape(s0, s, t, r, out(r));
    AfterInit(s0, s1, t, r, out);
  }

  lemma AfterInit(s0: State, s1: State, t: TaskId, r: RunnerId, out: Outcomes)
    requires Inv(s1) && r < |s0.runners| && InitEnded(s0, s1, t, r, out(r))
    ensures Added(s0, End(s1, t, out), t, r, out(r))
  {
    match Verdict(out(r))
    case None => assert End(s1, t, out) == s1;
    case Some(code) =>
      FailingEnds(s1, t, r, code, None, out);
      FailedShape(s0, s1, t, r, out(r), code);
  }

  lemma FailedShape(s0: State, s1: State, t: TaskId, r: RunnerId, o: InitOutcome, code: FailureCode)
    requires r < |s0.runners| && r < |s1.runners| && Verdict(o) == Some(code) && InitEnded(s0, s1, t, r, o)
    ensures Added(s0, Failed(s1, t, r, code, None), t, r, o)
  {
    assert s1.runners[r] == s0.runners[r].(stage := Settled(o));
  }

  lemma AddEnds(s: State, t: TaskId, r: RunnerId, out: Outcomes)
    requires AboutToAdd(s, t, r)
    ensures Added(s, End(s, t, out), t, r, out(r))
  {
    var s1: State;
    if s.runners[r].modelId in s.run {
      s1 := RegisterAfterWait(s, t, r, s.run[s.runners[r].modelId], out);
    } else {
      s1 := RegistersAtOnce(s, t, r, out);
    }
    InitEnds(s, s1, t, r, out);
  }

  /**
   `reconnect_model_runner` from rest, in every run that has come to rest. The runner x is closed and
   gone; a fresh runner with its settings is published, or reported as the verdict of its init fixes;
   the model of x ends with the fresh runner, or with none. This holds for every x, also for one that
   the model no longer runs: reconnecting a stale runner removes the current one.
   */
  lemma ReconnectReplaces(s: State, x: RunnerId, out: Outcomes, ls: seq<Label>)
    requires Inv(s) && Quiet(s) && x < |s.runners|
    requires var s1 := Apply(s, SpawnReconnect(x)); Settling(s1, ls, out) && Quiet(After(s1, ls))
    ensures var s' := After(Apply(s, SpawnReconnect(x)), ls);
      var k, r := s.runners[x].modelId, |s.runners|;
      && s'.run == (if out(r) == Ready then s.run[k := r] else s.run - {k}) && s'.pend == EMPTY
      && |s'.runners| == r + 1 && (Live(s', r) <==> out(r) == Ready)
      && s'.runners[r].deploymentId == s.runners[x].deploymentId && s'.runners[r].modelId == k
      && s'.runners[r].modelName == s.runners[x].modelName && s'.runners[r].infos == s.runners[x].infos
      && s'.runners[r].ip == s.runners[x].ip && s'.runners[r].port == s.runners[x].port
      && (forall y | 0 <= y < r ::
            s'.runners[y] == if y == x || (k in s.run && s.run[k] == y)
                             then s.runners[y].(closed := true, removed := true) else s.runners[y])
      && s'.submitted == s.submitted
           + (if s.reportFailure && Verdict(out(r)).Some?
              then [Report(|s.tasks|, k, Verdict(out(r)).value, None, s.runners[x].ip)] else [])
  {
    var t, r := |s.tasks|, |s.runners|;
    RestIsExclusive(s);
    var s3 := ReconnectBegins(s, x, out);
    LoneRunEnds(Apply(s, SpawnReconnect(x)), t, ls, out);
    assert AboutToAdd(s3, t, r);
    AddEnds(s3, t, r, out);
    RenewedThenAdded(s, s3, End(s3, t, out), x, out(r));
  }

  lemma RenewedThenAdded(s: State, s3: State, s': State, x: RunnerId, o: InitOutcome)
    requires WfMap(s, s.run) && x < |s.runners| && s.pend == EMPTY && Renewed(s, s3, x)
    requires Added(s3, s', |s.tasks|, |s.runners|, o)
    ensures var k, r := s.runners[x].modelId, |s.runners|;
      && s'.run == (if o == Ready then s.run[k := r] else s.run - {k}) && s'.pend == EMPTY
      && |s'.runners| == r + 1 && (Live(s', r) <==> o == Ready)
      && s'.runners[r].deploymentId == s.runners[x].deploymentId && s'.runners[r].modelId == k
      && s'.runners[r].modelName == s.runners[x].modelName && s'.runners[r].infos == s.runners[x].infos
      && s'.runners[r].ip == s.runners[x].ip && s'.runners[r].port == s.runners[x].port
      && (forall y | 0 <= y < r ::
            s'.runners[y] == if y == x || (k in s.run && s.run[k] == y)
                             then s.runners[y].(closed := true, removed := true) else s.runners[y])
      && s'.submitted == s.submitted
           + (if s.reportFailure && Verdict(o).Some?
              then [Report(|s.tasks|, k, Verdict(o).value, None, s.runners[x].ip)] else [])
  {
    var k := s.runners[x].modelId;
    assert s3.run - {k} == s.run - {k} && (s.run - {k})[k := |s.runners|] == s.run[k := |s.runners|];
    assert s3.runners[|s.runners|] == CopyOf(s.runners[x], |s.tasks|);
  }
}
