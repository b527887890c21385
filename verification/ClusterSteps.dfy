/**
 The membership protocol of `ModelCluster` as interleaved atomic steps.

 Every `await` is a point where another task may run; what happens between two awaits is one
 step. Runner objects and asyncio tasks are entries of two growing sequences, so an index is an
 object identity and the identity guards (`is`) of the code are comparisons of indices.
 */
module ClusterSteps {
  import opened Common

  type ModelId = string
  type RunnerId = nat
  type TaskId = nat
  type Infos = map<string, string>

  /** History of one runner object: built, registered as pending, or done with its one `init`. */
  datatype Stage = Created | Registered | Settled(outcome: InitOutcome)

  /**
   A runner object. `stage`, `owner` and `removed` are history: the progress of its `init`, the
   task that adds it, and whether a removal of it has completed. No step of the code reads them.
   */
  datatype Runner = Runner(
    deploymentId: string, modelId: ModelId, modelName: Option<string>, ip: string, port: int, infos: Infos,
    closed: bool, stage: Stage, owner: TaskId, removed: bool)

  /** What follows a completed `remove_model_runner`: its caller ends, `add` goes on, or `reconnect` goes on. */
  datatype Next = Return | Register | Recreate

  /** Program counters, named after the await (or the task start) where the task is suspended. */
  datatype Pc =
    | Adding                                                     // about to run add_model_runner
    | Removing(target: RunnerId, closing: bool, next: Next)      // before, and inside, `await close()`
    | Initializing                                               // inside `await init()`
    | Failing(culprit: RunnerId, code: FailureCode, reason: Option<string>) // about to run process_failure
    | Sending(culprit: RunnerId)                                 // inside `await send_message()`
    | Gathering(lo: TaskId, hi: TaskId, resync: Option<set<ModelId>>) // inside `await gather()` of tasks lo..hi
    | Finished(raised: bool)

  /** A task: the runner it adds, if any; whether it swallows exceptions (reconnect does); its program counter. */
  datatype Task = Task(subject: Option<RunnerId>, catches: bool, pc: Pc)

  /** A failure report handed to the websocket client, with the task that submitted it. */
  datatype Report = Report(sender: TaskId, modelId: ModelId, code: FailureCode, reason: Option<string>, ip: string)

  datatype State = State(
    reportFailure: bool,
    run: map<ModelId, RunnerId>,      // models_run
    pend: map<ModelId, RunnerId>,     // pending_model_runs
    runners: seq<Runner>,
    tasks: seq<Task>,
    submitted: seq<Report>)

  datatype ModelState = Stopped | Recovering | Running | Unhandled

  /** One entry of the `data` list of an event. */
  datatype ModelUpdate = ModelUpdate(
    deploymentId: string, modelId: ModelId, infos: Infos, state: ModelState, ip: string, port: int)

  datatype Label =
    | Deliver(isInit: bool, data: seq<ModelUpdate>)   // the websocket listener hands over an event
    | SpawnFailure(culprit: RunnerId, code: FailureCode, reason: Option<string>)  // create_task(process_failure(..))
    | SpawnReconnect(victim: RunnerId)                // create_task(reconnect_model_runner(..))
    | Advance(task: TaskId)                           // a task goes on to its next await
    | InitReturns(task: TaskId, outcome: InitOutcome) // the awaited init of a task ends
    | Resync(task: TaskId, order: seq<ModelId>)       // an init event removes the models it does not name

  // ----- Well-formed states -----

  ghost predicate WfTask(s: State, th: Task) {
    && (th.subject.Some? ==> th.subject.value < |s.runners|)
    && match th.pc
       case Adding => th.subject.Some?
       case Removing(x, closing, next) =>
         && x < |s.runners|
         && (closing ==> s.runners[x].closed)
         && (next == Register ==> th.subject.Some? && s.runners[x].modelId == s.runners[th.subject.value].modelId)
         && (next == Recreate ==> th.subject.None?)
       case Initializing => th.subject.Some?
       case Failing(x, _, _) => x < |s.runners|
       case Sending(x) => x < |s.runners|
       case Gathering(lo, hi, _) => th.subject.None? && lo <= hi <= |s.tasks|
       case Finished(_) => true
  }

  ghost predicate WfMap(s: State, m: map<ModelId, RunnerId>) {
    forall k | k in m :: m[k] < |s.runners| && s.runners[m[k]].modelId == k
  }

  /** Indices are in range and both dictionaries file a runner under its own model id. */
  ghost predicate Wf(s: State) {
    && WfMap(s, s.run) && WfMap(s, s.pend)
    && (forall t | 0 <= t < |s.tasks| :: WfTask(s, s.tasks[t]))
  }

  const EMPTY: map<ModelId, RunnerId> := map[]

  ghost predicate Initial(s: State) {
    s.run == EMPTY && s.pend == EMPTY && s.runners == [] && s.tasks == [] && s.submitted == []
  }

  // ----- Pieces of the code -----

  function SetPc(s: State, t: TaskId, pc: Pc): State
    requires t < |s.tasks|
  {
    s.(tasks := s.tasks[t := s.tasks[t].(pc := pc)])
  }

  /** `if d.get(k) is x: del d[k]` */
  function Without(d: map<ModelId, RunnerId>, k: ModelId, x: RunnerId): map<ModelId, RunnerId> {
    if k in d && d[k] == x then d - {k} else d
  }

  /** `models_run.get(k) or pending_model_runs.get(k)` */
  function Current(s: State, k: ModelId): Option<RunnerId> {
    if k in s.run then Some(s.run[k]) else Lookup(s.pend, k)
  }

  function NewRunner(e: ModelUpdate, owner: TaskId): Runner {
    Runner(e.deploymentId, e.modelId, Lookup(e.infos, "model_name"), e.ip, e.port, e.infos,
           false, Created, owner, false)
  }

  /** The factory call: a new runner object together with the task that will add it. */
  function SpawnAdd(s: State, e: ModelUpdate): State {
    s.(runners := s.runners + [NewRunner(e, |s.tasks|)],
       tasks := s.tasks + [Task(Some(|s.runners|), false, Adding)])
  }

  function SpawnRemove(s: State, x: RunnerId): State {
    s.(tasks := s.tasks + [Task(None, false, Removing(x, false, Return))])
  }

  /** The runner an entry refers to: the one filed under its model id, if the deployment matches. */
  function Matching(s: State, e: ModelUpdate): Option<RunnerId> {
    match Current(s, e.modelId)
    case Some(x) => if x < |s.runners| && s.runners[x].deploymentId == e.deploymentId then Some(x) else None
    case None => None
  }

  /** One iteration of the loop of `update_model_runs`. */
  function HandleEntry(s: State, e: ModelUpdate): State {
    match e.state
    case Stopped => RemoveMatching(s, e)
    case Recovering => RemoveMatching(s, e)
    case Unhandled => s
    case Running =>
      match Matching(s, e)
      case None => SpawnAdd(s, e)
      case Some(x) =>
        if x < |s.runners| && s.runners[x].ip == e.ip && s.runners[x].port == e.port then
          if e.modelId in s.run then
            s.(runners := s.runners[x := s.runners[x].(infos := e.infos, modelName := Lookup(e.infos, "model_name"))])
          else s
        else SpawnAdd(s, e)
  }

  function RemoveMatching(s: State, e: ModelUpdate): State {
    match Matching(s, e)
    case None => s
    case Some(x) => SpawnRemove(s, x)
  }

  function HandleEntries(s: State, data: seq<ModelUpdate>): State
    decreases |data|
  {
    if data == [] then s else HandleEntries(HandleEntry(s, data[0]), data[1..])
  }

  function Ids(data: seq<ModelUpdate>): set<ModelId> {
    set e | e in data :: e.modelId
  }

  /** The whole atomic loop, then the wait for the tasks it built. */
  function DeliverEvent(s: State, isInit: bool, data: seq<ModelUpdate>): State {
    var s1 := HandleEntries(s, data);
    var resync := if isInit then Some(Ids(data)) else None;
    s1.(tasks := s1.tasks + [Task(None, false, Gathering(|s.tasks|, |s1.tasks|, resync))])
  }

  /** `pending_model_runs[model_id] = model_runner`, then the wait for its init. */
  function RegisterPending(s: State, t: TaskId, r: RunnerId): State
    requires t < |s.tasks| && r < |s.runners|
  {
    SetPc(s.(pend := s.pend[s.runners[r].modelId := r], runners := s.runners[r := s.runners[r].(stage := Registered)]),
          t, Initializing)
  }

  function BeginAdd(s: State, t: TaskId, r: RunnerId): State
    requires t < |s.tasks| && r < |s.runners|
  {
    match Current(s, s.runners[r].modelId)
    case None => RegisterPending(s, t, r)
    case Some(x) => SetPc(s, t, Removing(x, false, Register))
  }

  /** `close()` up to its await. */
  function BeginRemove(s: State, t: TaskId, x: RunnerId, next: Next): State
    requires t < |s.tasks| && x < |s.runners|
  {
    SetPc(s.(runners := s.runners[x := s.runners[x].(closed := true)]), t, Removing(x, true, next))
  }

  /** The two identity-guarded deletions. */
  function Delete(s: State, x: RunnerId): State
    requires x < |s.runners|
  {
    var k := s.runners[x].modelId;
    s.(run := Without(s.run, k, x), pend := Without(s.pend, k, x),
       runners := s.runners[x := s.runners[x].(removed := true)])
  }

  /** A fresh runner object with the settings of an old one. */
  function CopyOf(prior: Runner, owner: TaskId): Runner {
    prior.(closed := false, stage := Created, owner := owner, removed := false)
  }

  function Recreated(s: State, t: TaskId, x: RunnerId): State
    requires t < |s.tasks| && x < |s.runners|
  {
    s.(runners := s.runners + [CopyOf(s.runners[x], t)],
       tasks := s.tasks[t := s.tasks[t].(subject := Some(|s.runners|), pc := Adding)])
  }

  function EndRemove(s: State, t: TaskId, x: RunnerId, next: Next): State
    requires t < |s.tasks| && x < |s.runners|
    requires next == Register ==> s.tasks[t].subject.Some? && s.tasks[t].subject.value < |s.runners|
  {
    var s1 := Delete(s, x);
    match next
    case Return => SetPc(s1, t, Finished(false))
    case Register => RegisterPending(s1, t, s.tasks[t].subject.value)
    case Recreate => Recreated(s1, t, x)
  }

  /** The failure code reported for an init that returned an error; none for an aborted one. */
  function CodeFor(error: ErrorType): Option<FailureCode> {
    match error
    case BadImplementation => Some(CodeBadImplementation)
    case Aborted => None
    case GrpcConnectionFailed => Some(CodeConnectionFailed)
    case AuthError => Some(CodeConnectionFailed)
    case Failed => Some(CodeMultipleFailed)
  }

  /** What follows `await init()`: the `finally` clean-up, then publish, report, stop or raise. */
  function EndInit(s: State, t: TaskId, r: RunnerId, o: InitOutcome): State
    requires t < |s.tasks| && r < |s.runners|
  {
    var k := s.runners[r].modelId;
    var s1 := s.(pend := Without(s.pend, k, r), runners := s.runners[r := s.runners[r].(stage := Settled(o))]);
    match o
    case Ready => SetPc(s1.(run := s1.run[k := r]), t, Finished(false))
    case Raised => SetPc(s1, t, Finished(!s.tasks[t].catches))
    case Refused(error) =>
      match CodeFor(error)
      case None => SetPc(s1, t, Finished(false))
      case Some(code) => SetPc(s1, t, Failing(r, code, None))
  }

  function BeginFailure(s: State, t: TaskId, x: RunnerId, code: FailureCode, reason: Option<string>): State
    requires t < |s.tasks| && x < |s.runners|
  {
    if !s.reportFailure then SetPc(s, t, Finished(false))
    else
      var report := Report(t, s.runners[x].modelId, code, reason, s.runners[x].ip);
      SetPc(s.(submitted := s.submitted + [report]), t, Sending(x))
  }

  // ----- Waiting for gathered tasks -----

  predicate SomeRaised(s: State, lo: TaskId, hi: TaskId) {
    exists c | lo <= c < hi && c < |s.tasks| :: s.tasks[c].pc == Finished(true)
  }

  predicate AllReturned(s: State, lo: TaskId, hi: TaskId) {
    forall c | lo <= c < hi && c < |s.tasks| :: s.tasks[c].pc == Finished(false)
  }

  function SpawnRemoves(s: State, order: seq<ModelId>): State
    requires forall k | k in order :: k in s.run
    decreases |order|
  {
    if order == [] then s else SpawnRemoves(SpawnRemove(s, s.run[order[0]]), order[1..])
  }

  predicate Distinct<T(==)>(xs: seq<T>) {
    forall i, j | 0 <= i < j < |xs| :: xs[i] != xs[j]
  }

  /** `gather` over the removals of every model the init event does not name, in some order. */
  function BeginResync(s: State, t: TaskId, order: seq<ModelId>): State
    requires t < |s.tasks| && forall k | k in order :: k in s.run
  {
    var s1 := SpawnRemoves(s, order);
    assert |s1.tasks| >= |s.tasks| by { SpawnRemovesTasks(s, order); }
    SetPc(s1, t, Gathering(|s.tasks|, |s1.tasks|, None))
  }

  /** The removals only append tasks. */
  lemma {:induction false} SpawnRemovesTasks(s: State, order: seq<ModelId>)
    requires forall k | k in order :: k in s.run
    ensures var s1 := SpawnRemoves(s, order);
      && s1 == s.(tasks := s1.tasks) && |s1.tasks| == |s.tasks| + |order|
      && (forall c | 0 <= c < |s.tasks| :: s1.tasks[c] == s.tasks[c])
      && (forall i | 0 <= i < |order| ::
            s1.tasks[|s.tasks| + i] == Task(None, false, Removing(s.run[order[i]], false, Return)))
    decreases |order|
  {
    if order != [] {
      var s' := SpawnRemove(s, s.run[order[0]]);
      SpawnRemovesTasks(s', order[1..]);
      var s1 := SpawnRemoves(s, order);
      forall i | 0 <= i < |order|
        ensures s1.tasks[|s.tasks| + i] == Task(None, false, Removing(s.run[order[i]], false, Return))
      {
        if i == 0 {
          assert s1.tasks[|s.tasks|] == s'.tasks[|s.tasks|];
        } else {
          assert order[i] == order[1..][i - 1];
          assert s1.tasks[|s'.tasks| + (i - 1)] == Task(None, false, Removing(s.run[order[1..][i - 1]], false, Return));
        }
      }
    }
  }

  // ----- The transition system -----

  predicate AdvanceEnabled(s: State, t: TaskId) {
    t < |s.tasks| && match s.tasks[t].pc
      case Gathering(lo, hi, resync) => SomeRaised(s, lo, hi) || (resync == None && AllReturned(s, lo, hi))
      case Initializing => false
      case Finished(_) => false
      case _ => true
  }

  function Named(order: seq<ModelId>): set<ModelId> {
    set k | k in order
  }

  predicate ResyncEnabled(s: State, t: TaskId, order: seq<ModelId>) {
    && t < |s.tasks| && s.tasks[t].pc.Gathering? && s.tasks[t].pc.resync.Some?
    && AllReturned(s, s.tasks[t].pc.lo, s.tasks[t].pc.hi)
    && Distinct(order)
    && Named(order) == s.run.Keys - s.tasks[t].pc.resync.value
  }

  ghost predicate Enabled(s: State, l: Label) {
    Wf(s) && match l
      case Deliver(_, _) => true
      case SpawnFailure(x, _, _) => x < |s.runners|
      case SpawnReconnect(x) => x < |s.runners|
      case Advance(t) => AdvanceEnabled(s, t)
      case InitReturns(t, _) => t < |s.tasks| && s.tasks[t].pc == Initializing
      case Resync(t, order) => ResyncEnabled(s, t, order)
  }

  ghost function AdvanceTask(s: State, t: TaskId): State
    requires Wf(s) && AdvanceEnabled(s, t)
  {
    var th := s.tasks[t];
    assert WfTask(s, th);
    match th.pc
    case Adding => BeginAdd(s, t, th.subject.value)
    case Removing(x, closing, next) => if closing then EndRemove(s, t, x, next) else BeginRemove(s, t, x, next)
    case Failing(x, code, reason) => BeginFailure(s, t, x, code, reason)
    case Sending(x) => SetPc(s, t, Removing(x, false, Return))
    case Gathering(lo, hi, _) => SetPc(s, t, Finished(SomeRaised(s, lo, hi)))
  }

  lemma ResyncNames(s: State, t: TaskId, order: seq<ModelId>)
    requires ResyncEnabled(s, t, order)
    ensures forall k | k in order :: k in s.run && k !in s.tasks[t].pc.resync.value
  {
    forall k | k in order ensures k in s.run && k !in s.tasks[t].pc.resync.value {
      assert k in Named(order);
    }
  }

  /** One step; a label that is not enabled changes nothing. */
  ghost function Apply(s: State, l: Label): State {
    if !Enabled(s, l) then s else
    match l
    case Deliver(isInit, data) => DeliverEvent(s, isInit, data)
    case SpawnFailure(x, code, reason) => s.(tasks := s.tasks + [Task(None, false, Failing(x, code, reason))])
    case SpawnReconnect(x) => s.(tasks := s.tasks + [Task(None, true, Removing(x, false, Recreate))])
    case Advance(t) => AdvanceTask(s, t)
    case InitReturns(t, o) => assert WfTask(s, s.tasks[t]); EndInit(s, t, s.tasks[t].subject.value, o)
    case Resync(t, order) => ResyncNames(s, t, order); BeginResync(s, t, order)
  }

  /** The state after a run. Any sequence of labels is a run. */
  ghost function After(s: State, ls: seq<Label>): State
    decreases |ls|
  {
    if ls == [] then s else After(Apply(s, ls[0]), ls[1..])
  }

  lemma {:induction false} AfterSplit(s: State, xs: seq<Label>, ys: seq<Label>)
    ensures After(s, xs + ys) == After(After(s, xs), ys)
    decreases |xs|
  {
    if xs == [] {
      assert xs + ys == ys;
    } else {
      assert (xs + ys)[1..] == xs[1..] + ys;
      AfterSplit(Apply(s, xs[0]), xs[1..], ys);
    }
  }
}
