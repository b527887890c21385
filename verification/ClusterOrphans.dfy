/**
 Each of the two assumptions on the schedule is needed: without it, a schedule that the code has ends
 with an orphan connection.
 */
module ClusterOrphans {
  import opened Common
  import opened ClusterSteps
  import opened ClusterInvariant
  import opened ClusterLifecycle
  import opened ClusterSafety

  // ----- Schedules of the code -----

  /** The task stands before an await that does not suspend it, so it goes on before anything else happens. */
  predicate MidStep(th: Task) {
    match th.pc
    case Adding => th.catches                                      // a reconnect adds its copy at once
    case Removing(_, closing, next) => !closing && next == Register // an add starts the close at once
    case Failing(_, _, _) => true                                  // a refused init is reported at once
    case _ => false
  }

  /**
   A step that the code can take where the model can. The one listener reads an event when the handler
   of the event before has ended; a model id is listed once in an event; a reconnect is started by a
   call to a runner that was published. Failure tasks are not needed here.
   */
  ghost predicate CodeStep(s: State, l: Label) {
    && (forall t: TaskId | t < |s.tasks| && MidStep(s.tasks[t]) :: l == Advance(t))
    && match l
       case Deliver(_, data) =>
         && (forall t: TaskId | t < |s.tasks| :: !s.tasks[t].pc.Gathering?)
         && (forall i, j | 0 <= i < j < |data| :: data[i].modelId != data[j].modelId)
       case SpawnReconnect(x) => x < |s.runners| && s.runners[x].stage == Settled(Ready)
       case SpawnFailure(_, _, _) => false
       case _ => Enabled(s, l)
  }

  /** Every step of the run is one of the code, and satisfies H1 (if h1) and H2 (if h2). */
  ghost predicate Follows(s: State, ls: seq<Label>, h1: bool, h2: bool)
    decreases |ls|
  {
    ls != [] ==>
      && CodeStep(s, ls[0])
      && (h1 ==> OneAddAtATime(s, ls[0])) && (h2 ==> NoInitAfterRemoval(s, ls[0]))
      && Follows(Apply(s, ls[0]), ls[1..], h1, h2)
  }

  /** From s, if well formed, some run that follows the assumptions ends with an orphan. */
  ghost predicate Leads(s: State, h1: bool, h2: bool) {
    Inv(s) ==> exists ls: seq<Label> :: Follows(s, ls, h1, h2) && !NoOrphan(After(s, ls))
  }

  /** One step of the code, from s to s', that satisfies H2 and (if h1) H1. */
  ghost predicate Step(s: State, l: Label, s': State, h1: bool) {
    Wf(s) ==> Apply(s, l) == s' && CodeStep(s, l) && (h1 ==> OneAddAtATime(s, l)) && NoInitAfterRemoval(s, l)
  }

  lemma Prepend(s: State, l: Label, s': State, h1: bool, h2: bool)
    requires Step(s, l, s', h1) && Leads(s', h1, h2)
    ensures Leads(s, h1, h2)
  {
    if Inv(s) {
      StepKeeps(s, l);
      var ls: seq<Label> :| Follows(s', ls, h1, h2) && !NoOrphan(After(s', ls));
      assert ([l] + ls)[1..] == ls;
      assert Follows(s, [l] + ls, h1, h2) && !NoOrphan(After(s, [l] + ls));
    }
  }

  // ----- The states of two runs, over one model -----

  const MODEL := "m"
  const UP := Settled(Ready)
  const ENDED := Finished(false)

  function UpdateAt(ip: string): ModelUpdate {
    ModelUpdate("d", MODEL, map[], Running, ip, 1)
  }

  function RunnerAt(ip: string, closed: bool, stage: Stage, owner: TaskId, removed: bool): Runner {
    Runner("d", MODEL, None, ip, 1, map[], closed, stage, owner, removed)
  }

  function FiledAs(r: RunnerId): map<ModelId, RunnerId> { map[MODEL := r] }

  function Adder(r: RunnerId, pc: Pc): Task { Task(Some(r), false, pc) }

  function Recreator(r: RunnerId, pc: Pc): Task { Task(Some(r), true, pc) }

  function Reconnector(pc: Pc): Task { Task(None, true, pc) }

  function Plain(pc: Pc): Task { Task(None, false, pc) }

  function Handler(lo: TaskId, hi: TaskId, resync: Option<set<ModelId>>): Task { Plain(Gathering(lo, hi, resync)) }

  function Snapshot(run: map<ModelId, RunnerId>, pend: map<ModelId, RunnerId>, runners: seq<Runner>,
                    tasks: seq<Task>): State {
    State(false, run, pend, runners, tasks, [])
  }

  const NOTHING := Snapshot(EMPTY, EMPTY, [], [])

  const FIRST_ADDED := Snapshot(
    EMPTY, EMPTY,
    [RunnerAt("a", false, Created, 0, false)],
    [Adder(0, Adding), Handler(0, 1, Some({MODEL}))])

  const FIRST_PENDING := Snapshot(
    EMPTY, FiledAs(0),
    [RunnerAt("a", false, Registered, 0, false)],
    [Adder(0, Initializing), Handler(0, 1, Some({MODEL}))])

  const FIRST_RUNNING := Snapshot(
    FiledAs(0), EMPTY,
    [RunnerAt("a", false, UP, 0, false)],
    [Adder(0, ENDED), Handler(0, 1, Some({MODEL}))])

  const FIRST_RESYNCED := Snapshot(
    FiledAs(0), EMPTY,
    [RunnerAt("a", false, UP, 0, false)],
    [Adder(0, ENDED), Handler(2, 2, None)])

  const FIRST_HANDLED := Snapshot(
    FiledAs(0), EMPTY,
    [RunnerAt("a", false, UP, 0, false)],
    [Adder(0, ENDED), Plain(ENDED)])

  const RECONNECT_STARTED := Snapshot(
    FiledAs(0), EMPTY,
    [RunnerAt("a", false, UP, 0, false)],
    [Adder(0, ENDED), Plain(ENDED), Reconnector(Removing(0, false, Recreate))])

  const FIRST_CLOSING := Snapshot(
    FiledAs(0), EMPTY,
    [RunnerAt("a", true, UP, 0, false)],
    [Adder(0, ENDED), Plain(ENDED), Reconnector(Removing(0, true, Recreate))])

  const COPY_CREATED := Snapshot(
    EMPTY, EMPTY,
    [RunnerAt("a", true, UP, 0, true), RunnerAt("a", false, Created, 2, false)],
    [Adder(0, ENDED), Plain(ENDED), Recreator(1, Adding)])

  const COPY_PENDING := Snapshot(
    EMPTY, FiledAs(1),
    [RunnerAt("a", true, UP, 0, true), RunnerAt("a", false, Registered, 2, false)],
    [Adder(0, ENDED), Plain(ENDED), Recreator(1, Initializing)])

  const COPY_STOPPED := Snapshot(
    EMPTY, FiledAs(1),
    [RunnerAt("a", true, UP, 0, true), RunnerAt("a", false, Registered, 2, false)],
    [Adder(0, ENDED), Plain(ENDED),
     Recreator(1, Initializing), Plain(Removing(1, false, Return)), Handler(3, 4, None)])

  const COPY_CLOSING := Snapshot(
    EMPTY, FiledAs(1),
    [RunnerAt("a", true, UP, 0, true), RunnerAt("a", true, Registered, 2, false)],
    [Adder(0, ENDED), Plain(ENDED),
     Recreator(1, Initializing), Plain(Removing(1, true, Return)), Handler(3, 4, None)])

  const COPY_REMOVED := Snapshot(
    EMPTY, EMPTY,
    [RunnerAt("a", true, UP, 0, true), RunnerAt("a", true, Registered, 2, true)],
    [Adder(0, ENDED), Plain(ENDED), Recreator(1, Initializing), Plain(ENDED), Handler(3, 4, None)])

  const STOP_HANDLED := Snapshot(
    EMPTY, EMPTY,
    [RunnerAt("a", true, UP, 0, true), RunnerAt("a", true, Registered, 2, true)],
    [Adder(0, ENDED), Plain(ENDED), Recreator(1, Initializing), Plain(ENDED), Plain(ENDED)])

  const SECOND_ADDED := Snapshot(
    EMPTY, EMPTY,
    [RunnerAt("a", true, UP, 0, true), RunnerAt("a", true, Registered, 2, true),
     RunnerAt("b", false, Created, 5, false)],
    [Adder(0, ENDED), Plain(ENDED), Recreator(1, Initializing),
     Plain(ENDED), Plain(ENDED), Adder(2, Adding), Handler(5, 6, None)])

  const SECOND_PENDING := Snapshot(
    EMPTY, FiledAs(2),
    [RunnerAt("a", true, UP, 0, true), RunnerAt("a", true, Registered, 2, true),
     RunnerAt("b", false, Registered, 5, false)],
    [Adder(0, ENDED), Plain(ENDED), Recreator(1, Initializing),
     Plain(ENDED), Plain(ENDED), Adder(2, Initializing), Handler(5, 6, None)])

  const SECOND_RUNNING := Snapshot(
    FiledAs(2), EMPTY,
    [RunnerAt("a", true, UP, 0, true), RunnerAt("a", true, Registered, 2, true), RunnerAt("b", false, UP, 5, false)],
    [Adder(0, ENDED), Plain(ENDED), Recreator(1, Initializing),
     Plain(ENDED), Plain(ENDED), Adder(2, ENDED), Handler(5, 6, None)])

  const MOVE_ADDED := Snapshot(
    FiledAs(0), EMPTY,
    [RunnerAt("a", false, UP, 0, false), RunnerAt("b", false, Created, 2, false)],
    [Adder(0, ENDED), Plain(ENDED), Adder(1, Adding), Handler(2, 3, None)])

  const MOVE_READ := Snapshot(
    FiledAs(0), EMPTY,
    [RunnerAt("a", false, UP, 0, false), RunnerAt("b", false, Created, 2, false)],
    [Adder(0, ENDED), Plain(ENDED), Adder(1, Removing(0, false, Register)), Handler(2, 3, None)])

  const MOVE_CLOSING := Snapshot(
    FiledAs(0), EMPTY,
    [RunnerAt("a", true, UP, 0, false), RunnerAt("b", false, Created, 2, false)],
    [Adder(0, ENDED), Plain(ENDED), Adder(1, Removing(0, true, Register)), Handler(2, 3, None)])

  const RECONNECT_OVERLAPS := Snapshot(
    FiledAs(0), EMPTY,
    [RunnerAt("a", true, UP, 0, false), RunnerAt("b", false, Created, 2, false)],
    [Adder(0, ENDED), Plain(ENDED),
     Adder(1, Removing(0, true, Register)), Handler(2, 3, None), Reconnector(Removing(0, false, Recreate))])

  const BOTH_CLOSING := Snapshot(
    FiledAs(0), EMPTY,
    [RunnerAt("a", true, UP, 0, false), RunnerAt("b", false, Created, 2, false)],
    [Adder(0, ENDED), Plain(ENDED),
     Adder(1, Removing(0, true, Register)), Handler(2, 3, None), Reconnector(Removing(0, true, Recreate))])

  const RIVAL_CREATED := Snapshot(
    EMPTY, EMPTY,
    [RunnerAt("a", true, UP, 0, true), RunnerAt("b", false, Created, 2, false),
     RunnerAt("a", false, Created, 4, false)],
    [Adder(0, ENDED), Plain(ENDED),
     Adder(1, Removing(0, true, Register)), Handler(2, 3, None), Recreator(2, Adding)])

  const RIVAL_PENDING := Snapshot(
    EMPTY, FiledAs(2),
    [RunnerAt("a", true, UP, 0, true), RunnerAt("b", false, Created, 2, false),
     RunnerAt("a", false, Registered, 4, false)],
    [Adder(0, ENDED), Plain(ENDED),
     Adder(1, Removing(0, true, Register)), Handler(2, 3, None), Recreator(2, Initializing)])

  const RIVAL_RUNNING := Snapshot(
    FiledAs(2), EMPTY,
    [RunnerAt("a", true, UP, 0, true), RunnerAt("b", false, Created, 2, false), RunnerAt("a", false, UP, 4, false)],
    [Adder(0, ENDED), Plain(ENDED),
     Adder(1, Removing(0, true, Register)), Handler(2, 3, None), Recreator(2, ENDED)])

  const MOVE_PENDING := Snapshot(
    FiledAs(2), FiledAs(1),
    [RunnerAt("a", true, UP, 0, true), RunnerAt("b", false, Registered, 2, false),
     RunnerAt("a", false, UP, 4, false)],
    [Adder(0, ENDED), Plain(ENDED), Adder(1, Initializing), Handler(2, 3, None), Recreator(2, ENDED)])

  // ----- The steps between them -----

  lemma FirstEvent()
    ensures Step(NOTHING, Deliver(true, [UpdateAt("a")]), FIRST_ADDED, true)
  {
    assert HandleEntries(NOTHING, [UpdateAt("a")]) == HandleEntry(NOTHING, UpdateAt("a"));
    assert Ids([UpdateAt("a")]) == {MODEL};
  }

  lemma FirstRegisters()
    ensures Step(FIRST_ADDED, Advance(0), FIRST_PENDING, true)
  {}

  lemma FirstIsReady()
    ensures Step(FIRST_PENDING, InitReturns(0, Ready), FIRST_RUNNING, true)
  {}

  lemma FirstResync()
    ensures Step(FIRST_RUNNING, Resync(1, []), FIRST_RESYNCED, true)
  {
    assert FIRST_RUNNING.tasks[1].pc.Gathering?;
  }

  lemma FirstHandlerEnds()
    ensures Step(FIRST_RESYNCED, Advance(1), FIRST_HANDLED, true)
  {}

  lemma ReconnectStarts()
    ensures Step(FIRST_HANDLED, SpawnReconnect(0), RECONNECT_STARTED, true)
  {}

  lemma FirstCloses()
    ensures Step(RECONNECT_STARTED, Advance(2), FIRST_CLOSING, true)
  {}

  lemma CopyIsCreated()
    ensures Step(FIRST_CLOSING, Advance(2), COPY_CREATED, true)
  {}

  lemma CopyRegisters()
    ensures Step(COPY_CREATED, Advance(2), COPY_PENDING, true)
  {}

  lemma StopEvent()
    ensures Step(COPY_PENDING, Deliver(false, [UpdateAt("a").(state := Stopped)]), COPY_STOPPED, true)
  {
    assert HandleEntries(COPY_PENDING, [UpdateAt("a").(state := Stopped)])
        == HandleEntry(COPY_PENDING, UpdateAt("a").(state := Stopped));
  }

  lemma CopyCloses()
    ensures Step(COPY_STOPPED, Advance(3), COPY_CLOSING, true)
  {}

  lemma CopyIsRemoved()
    ensures Step(COPY_CLOSING, Advance(3), COPY_REMOVED, true)
  {}

  lemma StopHandlerEnds()
    ensures Step(COPY_REMOVED, Advance(4), STOP_HANDLED, true)
  {}

  lemma SecondEvent()
    ensures Step(STOP_HANDLED, Deliver(false, [UpdateAt("b")]), SECOND_ADDED, true)
  {
    assert HandleEntries(STOP_HANDLED, [UpdateAt("b")]) == HandleEntry(STOP_HANDLED, UpdateAt("b"));
  }

  lemma SecondRegisters()
    ensures Step(SECOND_ADDED, Advance(5), SECOND_PENDING, true)
  {}

  lemma SecondIsReady()
    ensures Step(SECOND_PENDING, InitReturns(5, Ready), SECOND_RUNNING, true)
  {}

  lemma MoveEvent()
    ensures Step(FIRST_HANDLED, Deliver(false, [UpdateAt("b")]), MOVE_ADDED, true)
  {
    assert HandleEntries(FIRST_HANDLED, [UpdateAt("b")]) == HandleEntry(FIRST_HANDLED, UpdateAt("b"));
  }

  lemma MoveReads()
    ensures Step(MOVE_ADDED, Advance(2), MOVE_READ, true)
  {}

  lemma MoveCloses()
    ensures Step(MOVE_READ, Advance(2), MOVE_CLOSING, true)
  {}

  lemma ReconnectOverlaps()
    ensures Step(MOVE_CLOSING, SpawnReconnect(0), RECONNECT_OVERLAPS, true)
  {}

  lemma ReconnectCloses()
    ensures Step(RECONNECT_OVERLAPS, Advance(4), BOTH_CLOSING, true)
  {}

  lemma RivalIsCreated()
    ensures Step(BOTH_CLOSING, Advance(4), RIVAL_CREATED, true)
  {}

  lemma RivalRegisters()
    ensures Step(RIVAL_CREATED, Advance(4), RIVAL_PENDING, false)
  {}

  lemma RivalIsReady()
    ensures Step(RIVAL_PENDING, InitReturns(4, Ready), RIVAL_RUNNING, true)
  {}

  lemma MoveRegisters()
    ensures Step(RIVAL_RUNNING, Advance(2), MOVE_PENDING, true)
  {}

  // ----- The last steps -----

  /** The init of the removed copy succeeds all the same, and evicts its successor. */
  lemma LateInit()
    ensures Leads(SECOND_RUNNING, true, false)
  {
    LastPublishes(SECOND_RUNNING, 2, 1, 2, true, false);
  }

  /** The runner of the event is published over the one of the reconnect. */
  lemma MoveInit()
    ensures Leads(MOVE_PENDING, false, true)
  {
    LastPublishes(MOVE_PENDING, 2, 1, 2, false, true);
  }

  /** Task t publishes q while r is live and published. */
  lemma LastPublishes(s: State, t: TaskId, q: RunnerId, r: RunnerId, h1: bool, h2: bool)
    requires Inv(s) ==>
      && CodeStep(s, InitReturns(t, Ready)) && (h2 ==> NoInitAfterRemoval(s, InitReturns(t, Ready)))
      && t < |s.tasks| && s.tasks[t].subject == Some(q) && q < |s.runners| && q != r
      && Live(s, r) && s.runners[r].modelId == s.runners[q].modelId
    ensures Leads(s, h1, h2)
  {
    var l := InitReturns(t, Ready);
    if Inv(s) {
      EndInitSummary(s, t, q, Ready);
      var s' := Apply(s, l);
      assert s' == EndInit(s, t, q, Ready);
      assert Live(s', r) && !InRun(s', r);
      assert [l][1..] == [];
      assert After(s, [l]) == After(s', []) == s';
      assert !NoOrphan(s');
      assert Follows(s, [l], h1, h2);
    }
  }

  lemma FirstEventLeads(h1: bool, h2: bool)
    requires Leads(FIRST_HANDLED, h1, h2)
    ensures Leads(NOTHING, h1, h2)
  {
    FirstHandlerEnds();
    Prepend(FIRST_RESYNCED, Advance(1), FIRST_HANDLED, h1, h2);
    FirstResync();
    Prepend(FIRST_RUNNING, Resync(1, []), FIRST_RESYNCED, h1, h2);
    FirstIsReady();
    Prepend(FIRST_PENDING, InitReturns(0, Ready), FIRST_RUNNING, h1, h2);
    FirstRegisters();
    Prepend(FIRST_ADDED, Advance(0), FIRST_PENDING, h1, h2);
    FirstEvent();
    Prepend(NOTHING, Deliver(true, [UpdateAt("a")]), FIRST_ADDED, h1, h2);
  }

  lemma FromNothing(h1: bool, h2: bool)
    requires Leads(FIRST_HANDLED, h1, h2)
    ensures Initial(NOTHING)
    ensures exists ls: seq<Label> :: Follows(NOTHING, ls, h1, h2) && !NoOrphan(After(NOTHING, ls))
  {
    FirstEventLeads(h1, h2);
  }

  lemma StoppedCopyEvicts()
    ensures Leads(COPY_STOPPED, true, false)
  {
    LateInit();
    SecondIsReady();
    Prepend(SECOND_PENDING, InitReturns(5, Ready), SECOND_RUNNING, true, false);
    SecondRegisters();
    Prepend(SECOND_ADDED, Advance(5), SECOND_PENDING, true, false);
    SecondEvent();
    Prepend(STOP_HANDLED, Deliver(false, [UpdateAt("b")]), SECOND_ADDED, true, false);
    StopHandlerEnds();
    Prepend(COPY_REMOVED, Advance(4), STOP_HANDLED, true, false);
    CopyIsRemoved();
    Prepend(COPY_CLOSING, Advance(3), COPY_REMOVED, true, false);
    CopyCloses();
    Prepend(COPY_STOPPED, Advance(3), COPY_CLOSING, true, false);
  }

  lemma ReconnectLeadsToStop()
    requires Leads(COPY_STOPPED, true, false)
    ensures Leads(FIRST_HANDLED, true, false)
  {
    StopEvent();
    Prepend(COPY_PENDING, Deliver(false, [UpdateAt("a").(state := Stopped)]), COPY_STOPPED, true, false);
    CopyRegisters();
    Prepend(COPY_CREATED, Advance(2), COPY_PENDING, true, false);
    CopyIsCreated();
    Prepend(FIRST_CLOSING, Advance(2), COPY_CREATED, true, false);
    FirstCloses();
    Prepend(RECONNECT_STARTED, Advance(2), FIRST_CLOSING, true, false);
    ReconnectStarts();
    Prepend(FIRST_HANDLED, SpawnReconnect(0), RECONNECT_STARTED, true, false);
  }

  /**
   Without H2. A reconnect is pending when STOPPED arrives for its runner; the removal ends, the model
   comes up elsewhere, and then the init of the removed runner succeeds and evicts the new one.
   */
  lemma OrphanWithoutH2()
    ensures Initial(NOTHING)
    ensures exists ls: seq<Label> :: Follows(NOTHING, ls, true, false) && !NoOrphan(After(NOTHING, ls))
  {
    StoppedCopyEvicts();
    ReconnectLeadsToStop();
    FromNothing(true, false);
  }

  lemma RivalIsOverwritten()
    ensures Leads(BOTH_CLOSING, false, true)
  {
    MoveInit();
    MoveRegisters();
    Prepend(RIVAL_RUNNING, Advance(2), MOVE_PENDING, false, true);
    RivalIsReady();
    Prepend(RIVAL_PENDING, InitReturns(4, Ready), RIVAL_RUNNING, false, true);
    RivalRegisters();
    Prepend(RIVAL_CREATED, Advance(4), RIVAL_PENDING, false, true);
    RivalIsCreated();
    Prepend(BOTH_CLOSING, Advance(4), RIVAL_CREATED, false, true);
  }

  lemma MoveLeadsToRival()
    requires Leads(BOTH_CLOSING, false, true)
    ensures Leads(FIRST_HANDLED, false, true)
  {
    ReconnectCloses();
    Prepend(RECONNECT_OVERLAPS, Advance(4), BOTH_CLOSING, false, true);
    ReconnectOverlaps();
    Prepend(MOVE_CLOSING, SpawnReconnect(0), RECONNECT_OVERLAPS, false, true);
    MoveCloses();
    Prepend(MOVE_READ, Advance(2), MOVE_CLOSING, false, true);
    MoveReads();
    Prepend(MOVE_ADDED, Advance(2), MOVE_READ, false, true);
    MoveEvent();
    Prepend(FIRST_HANDLED, Deliver(false, [UpdateAt("b")]), MOVE_ADDED, false, true);
  }

  /**
   Without H1. An event moves the model to another address; while it waits for the close of the old
   runner, a reconnect of that runner goes all the way to a published copy, which is then overwritten.
   */
  lemma OrphanWithoutH1()
    ensures Initial(NOTHING)
    ensures exists ls: seq<Label> :: Follows(NOTHING, ls, false, true) && !NoOrphan(After(NOTHING, ls))
  {
    RivalIsOverwritten();
    MoveLeadsToRival();
    FromNothing(false, true);
  }
}
