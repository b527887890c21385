/**
 The plain table that the cluster keeps between events, and what an event does to it. Nothing here
 knows of tasks or of states.
 */
module ClusterTable {
  import opened Common
  import opened ClusterSteps
  import opened ClusterConfluence

  datatype Row = Row(runner: RunnerId, deploymentId: string, modelName: Option<string>, ip: string, port: int,
    infos: Infos)

  type Table = map<ModelId, Row>

  /** The table, and how many runner objects have been built so far. */
  datatype Ledger = Ledger(table: Table, built: nat)

  predicate SameDeployment(g: Ledger, e: ModelUpdate) {
    e.modelId in g.table && g.table[e.modelId].deploymentId == e.deploymentId
  }

  predicate SameEndpoint(g: Ledger, e: ModelUpdate) {
    SameDeployment(g, e) && g.table[e.modelId].ip == e.ip && g.table[e.modelId].port == e.port
  }

  predicate Builds(g: Ledger, e: ModelUpdate) {
    e.state == Running && !SameEndpoint(g, e)
  }

  function Drop(g: Ledger, k: ModelId): Ledger { g.(table := g.table - {k}) }

  function Edit(g: Ledger, e: ModelUpdate): Ledger
    requires e.modelId in g.table
  {
    var row := g.table[e.modelId].(infos := e.infos, modelName := Lookup(e.infos, "model_name"));
    g.(table := g.table[e.modelId := row])
  }

  /** A runner is built, and the table gets it if its init succeeds. */
  function Build(g: Ledger, e: ModelUpdate, out: Outcomes): Ledger {
    if out(g.built) == Ready then
      var row := Row(g.built, e.deploymentId, Lookup(e.infos, "model_name"), e.ip, e.port, e.infos);
      Ledger(g.table[e.modelId := row], g.built + 1)
    else Ledger(g.table - {e.modelId}, g.built + 1)
  }

  /** The table still has the runner of model k that the event found. */
  predicate Original(found: Ledger, g: Ledger, k: ModelId) {
    k in found.table && k in g.table && g.table[k].runner == found.table[k].runner
  }

  /**
   One entry of an event. It is compared with the table that the event found, because the adds of the
   event have not begun yet when the loop reads the dictionaries; so it removes or edits the runner
   found there, if the table still has it, and never one that an earlier entry built.
   */
  function FoldMember(found: Ledger, g: Ledger, e: ModelUpdate, out: Outcomes): Ledger {
    match e.state
    case Unhandled => g
    case Running =>
      if !SameEndpoint(found, e) then Build(g, e, out)
      else if Original(found, g, e.modelId) then Edit(g, e)
      else g
    case _ => if SameDeployment(found, e) && Original(found, g, e.modelId) then Drop(g, e.modelId) else g
  }

  /** The entries of one event, handled together. */
  function FoldBatch(found: Ledger, g: Ledger, data: seq<ModelUpdate>, out: Outcomes): Ledger
    decreases |data|
  {
    if data == [] then g else FoldBatch(found, FoldMember(found, g, data[0], out), data[1..], out)
  }

  /** An entry on its own. */
  function FoldEntry(g: Ledger, e: ModelUpdate, out: Outcomes): Ledger {
    FoldMember(g, g, e, out)
  }

  /** Entries handled one at a time. */
  function FoldEntries(g: Ledger, data: seq<ModelUpdate>, out: Outcomes): Ledger
    decreases |data|
  {
    if data == [] then g else FoldEntries(FoldEntry(g, data[0], out), data[1..], out)
  }

  /** The init of one of these runners raises. */
  predicate SomeRaise(out: Outcomes, lo: RunnerId, hi: RunnerId) {
    exists r: RunnerId | lo <= r < hi :: out(r) == Raised
  }

  /** An init event also drops every model it does not name, unless the init of a runner it builds raises. */
  function FoldEvent(g: Ledger, isInit: bool, data: seq<ModelUpdate>, out: Outcomes): Ledger {
    var h := FoldBatch(g, g, data, out);
    if isInit && !SomeRaise(out, g.built, h.built) then h.(table := Only(h.table, data)) else h
  }

  function Only<V>(table: map<ModelId, V>, data: seq<ModelUpdate>): map<ModelId, V> {
    map k | k in table && k in Ids(data) :: table[k]
  }

  function FoldEvents(g: Ledger, events: seq<(bool, seq<ModelUpdate>)>, out: Outcomes): Ledger
    decreases |events|
  {
    if events == [] then g else FoldEvents(FoldEvent(g, events[0].0, events[0].1, out), events[1..], out)
  }

  // ----- Repeated and distinct models -----

  predicate DistinctIds(data: seq<ModelUpdate>) {
    forall i, j | 0 <= i < j < |data| :: data[i].modelId != data[j].modelId
  }

  /** No two entries build a runner for the same model. */
  predicate OneBuildEach(g: Ledger, data: seq<ModelUpdate>) {
    forall i, j | 0 <= i < j < |data| && Builds(g, data[i]) && Builds(g, data[j]) :: data[i].modelId != data[j].modelId
  }

  /** With distinct models it makes no difference whether entries are handled together or one at a time. */
  lemma {:induction false} BatchIsEntries(found: Ledger, g: Ledger, data: seq<ModelUpdate>, out: Outcomes)
    requires DistinctIds(data)
    requires forall e | e in data :: Lookup(g.table, e.modelId) == Lookup(found.table, e.modelId)
    ensures FoldBatch(found, g, data, out) == FoldEntries(g, data, out)
    decreases |data|
  {
    if data != [] {
      var e := data[0];
      assert e in data;
      SameMember(found, g, e, out);
      HeadElsewhere(data);
      forall f | f in data[1..]
        ensures Lookup(FoldEntry(g, e, out).table, f.modelId) == Lookup(found.table, f.modelId)
      {
        assert f in data && f.modelId in Ids(data[1..]);
        MemberElsewhere(g, g, e, out, f.modelId);
      }
      BatchIsEntries(found, FoldEntry(g, e, out), data[1..], out);
    }
  }

  lemma SameMember(found: Ledger, g: Ledger, e: ModelUpdate, out: Outcomes)
    requires Lookup(g.table, e.modelId) == Lookup(found.table, e.modelId)
    ensures FoldMember(found, g, e, out) == FoldEntry(g, e, out)
  {
    assert e.modelId in g.table <==> e.modelId in found.table;
  }

  lemma MemberElsewhere(found: Ledger, g: Ledger, e: ModelUpdate, out: Outcomes, k: ModelId)
    requires k != e.modelId
    ensures Lookup(FoldMember(found, g, e, out).table, k) == Lookup(g.table, k)
  {}

  lemma HeadElsewhere(data: seq<ModelUpdate>)
    requires DistinctIds(data) && data != []
    ensures data[0].modelId !in Ids(data[1..])
  {
    forall f | f in data[1..] ensures f.modelId != data[0].modelId {
      var i :| 0 <= i < |data| - 1 && data[1..][i] == f;
      assert data[i + 1] == f;
    }
  }

  /** The fold leaves the models alone that no entry names, and only builds runners. */
  lemma {:induction false} FoldElsewhere(g: Ledger, data: seq<ModelUpdate>, out: Outcomes, k: ModelId)
    requires k !in Ids(data)
    ensures Lookup(FoldEntries(g, data, out).table, k) == Lookup(g.table, k)
    decreases |data|
  {
    if data != [] {
      assert data[0].modelId in Ids(data) && Ids(data[1..]) <= Ids(data);
      FoldElsewhere(FoldEntry(g, data[0], out), data[1..], out, k);
    }
  }

  lemma {:induction false} FoldBuilds(g: Ledger, data: seq<ModelUpdate>, out: Outcomes)
    ensures g.built <= FoldEntries(g, data, out).built
    decreases |data|
  {
    if data != [] { FoldBuilds(FoldEntry(g, data[0], out), data[1..], out); }
  }

  lemma {:induction false} BatchElsewhere(found: Ledger, g: Ledger, data: seq<ModelUpdate>, out: Outcomes, k: ModelId)
    requires k !in Ids(data)
    ensures Lookup(FoldBatch(found, g, data, out).table, k) == Lookup(g.table, k)
    decreases |data|
  {
    if data != [] {
      assert data[0].modelId in Ids(data) && Ids(data[1..]) <= Ids(data);
      MemberElsewhere(found, g, data[0], out, k);
      BatchElsewhere(found, FoldMember(found, g, data[0], out), data[1..], out, k);
    }
  }

  /** The entries of a batch as updates of one entry each. */
  function Singles(data: seq<ModelUpdate>): seq<(bool, seq<ModelUpdate>)>
    decreases |data|
  {
    if data == [] then [] else [(false, [data[0]])] + Singles(data[1..])
  }

  lemma {:induction false} FoldSingles(g: Ledger, data: seq<ModelUpdate>, out: Outcomes)
    ensures FoldEvents(g, Singles(data), out) == FoldEntries(g, data, out)
    decreases |data|
  {
    if data != [] {
      var g1 := FoldEntry(g, data[0], out);
      assert FoldBatch(g, g, [data[0]], out) == FoldBatch(g, g1, [], out) == g1;
      assert Singles(data)[0] == (false, [data[0]]) && Singles(data)[1..] == Singles(data[1..]);
      FoldSingles(g1, data[1..], out);
    }
  }

  // ----- Lists of running models -----

  predicate Lists(table: Table, e: ModelUpdate) {
    e.modelId in table
    && table[e.modelId] == Row(table[e.modelId].runner, e.deploymentId, Lookup(e.infos, "model_name"), e.ip, e.port,
      e.infos)
  }

  /** Whom the table has for an entry: the runner of before if it was in place, a new one otherwise. */
  predicate Places(g: Ledger, table: Table, e: ModelUpdate) {
    e.modelId in table ==>
      && Lists(table, e)
      && (if SameEndpoint(g, e) then table[e.modelId].runner == g.table[e.modelId].runner
          else table[e.modelId].runner >= g.built)
  }

  /** After RUNNING entries of distinct models, every entry whose init did not fail is in its place. */
  lemma {:induction false} FoldPlaces(g: Ledger, data: seq<ModelUpdate>, out: Outcomes, e: ModelUpdate)
    requires DistinctIds(data) && e in data && forall f | f in data :: f.state == Running
    ensures Places(g, FoldEntries(g, data, out).table, e)
    decreases |data|
  {
    var g1 := FoldEntry(g, data[0], out);
    var last := FoldEntries(g, data, out).table;
    if e == data[0] {
      HeadElsewhere(data);
      FoldElsewhere(g1, data[1..], out, e.modelId);
      assert Lookup(last, e.modelId) == Lookup(g1.table, e.modelId);
      assert Places(g, g1.table, e);
    } else {
      assert e in data[1..] && data[0].modelId != e.modelId;
      assert SameEndpoint(g1, e) <==> SameEndpoint(g, e);
      FoldPlaces(g1, data[1..], out, e);
    }
  }

  predicate AllReady(out: Outcomes, lo: RunnerId, hi: RunnerId) {
    forall r: RunnerId | lo <= r < hi :: out(r) == Ready
  }

  /** Every RUNNING entry is in the table exactly when every init it took succeeded. */
  lemma {:induction false} FoldListsExactlyWhen(g: Ledger, data: seq<ModelUpdate>, out: Outcomes)
    requires DistinctIds(data) && forall e | e in data :: e.state == Running
    ensures AllReady(out, g.built, FoldEntries(g, data, out).built)
        <==> Ids(data) <= FoldEntries(g, data, out).table.Keys
    decreases |data|
  {
    if data != [] {
      var e := data[0];
      var g1 := FoldEntry(g, e, out);
      assert e in data;
      FoldBuilds(g1, data[1..], out);
      FoldListsExactlyWhen(g1, data[1..], out);
      HeadElsewhere(data);
      FoldElsewhere(g1, data[1..], out, e.modelId);
      HeadListed(g, e, out);
      IdsSplit(data);
      assert e.modelId in FoldEntries(g, data, out).table <==> e.modelId in g1.table;
      ReadySplit(out, g.built, g1.built, FoldEntries(g, data, out).built);
    }
  }

  lemma HeadListed(g: Ledger, e: ModelUpdate, out: Outcomes)
    requires e.state == Running
    ensures g.built <= FoldEntry(g, e, out).built <= g.built + 1
    ensures e.modelId in FoldEntry(g, e, out).table <==> AllReady(out, g.built, FoldEntry(g, e, out).built)
  {
    if !SameEndpoint(g, e) && out(g.built) != Ready { assert !AllReady(out, g.built, g.built + 1); }
  }

  lemma IdsSplit(data: seq<ModelUpdate>)
    requires data != []
    ensures Ids(data) == {data[0].modelId} + Ids(data[1..])
  {
    assert data[0] in data;
    forall k | k in Ids(data) ensures k == data[0].modelId || k in Ids(data[1..]) {
      var f :| f in data && f.modelId == k;
      if f != data[0] { assert f in data[1..]; }
    }
  }

  lemma ReadySplit(out: Outcomes, a: RunnerId, b: RunnerId, c: RunnerId)
    requires a <= b <= c
    ensures AllReady(out, a, c) <==> AllReady(out, a, b) && AllReady(out, b, c)
  {}

  /** Entries that the table lists already change nothing and build nothing. */
  lemma {:induction false} FoldListed(g: Ledger, data: seq<ModelUpdate>, out: Outcomes)
    requires forall e | e in data :: e.state == Running && Lists(g.table, e)
    ensures FoldEntries(g, data, out) == g
    decreases |data|
  {
    if data != [] {
      assert data[0] in data;
      assert g.table[data[0].modelId := g.table[data[0].modelId]] == g.table;
      FoldListed(g, data[1..], out);
    }
  }

  /** The same on the plain table. */
  lemma FoldResync(g: Ledger, data: seq<ModelUpdate>, out: Outcomes)
    requires DistinctIds(data) && forall e | e in data :: e.state == Running
    ensures var h := FoldEvent(g, true, data, out);
      && (AllReady(out, g.built, h.built) <==> h.table.Keys == Ids(data) && forall e | e in data :: Lists(h.table, e))
      && (AllReady(out, g.built, h.built) ==> FoldEvent(h, true, data, out) == h)
      && (forall e | e in data :: Places(g, h.table, e))
  {
    var h0, h := FoldEntries(g, data, out), FoldEvent(g, true, data, out);
    BatchIsEntries(g, g, data, out);
    FoldListsExactlyWhen(g, data, out);
    forall e | e in data ensures Places(g, h0.table, e) && Places(g, h.table, e) && e.modelId in Ids(data) {
      FoldPlaces(g, data, out, e);
    }
    if AllReady(out, g.built, h.built) {
      assert !SomeRaise(out, g.built, h.built);
      assert h.table == Only(h0.table, data);
      forall e | e in data ensures Lists(h.table, e) { assert e.modelId in h.table; }
      FoldListed(h, data, out);
      BatchIsEntries(h, h, data, out);
      assert Only(h.table, data) == h.table;
    }
  }
}
