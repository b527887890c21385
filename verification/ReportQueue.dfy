/** The outgoing messages of `WebsocketClient`: direct sends, the queue, and the flush that rotates a failed message. */
module ReportQueue {
  type Message = string

  // ----- Interleaved sends and flushes -----

  /** Where the flush loop of `_send_pending_messages` stands. */
  datatype FlushPc = Idle | Looping | Sending(message: Message)

  /** `delivered` and `submitted` are history; `sending` holds the messages inside a direct `websocket.send`. */
  datatype State = State(
    connected: bool, queue: seq<Message>, sending: multiset<Message>, flush: FlushPc,
    delivered: seq<Message>, submitted: seq<Message>)

  datatype Label =
    | Submit(message: Message)              // send_message starts
    | SendEnds(message: Message, ok: bool)  // its websocket.send returns, or raises a handled error
    | FlushBegins
    | FlushTakes                            // the loop takes the head of a non-empty queue
    | FlushSendEnds(ok: bool)               // its send returns, or raises: the message goes to the tail
    | FlushEnds                             // the loop sees an empty queue
    | Connects
    | Drops

  predicate Enabled(s: State, l: Label) {
    match l
    case SendEnds(m, _) => m in s.sending
    case FlushBegins => s.flush == Idle
    case FlushTakes => s.flush == Looping && s.queue != []
    case FlushSendEnds(_) => s.flush.Sending?
    case FlushEnds => s.flush == Looping && s.queue == []
    case _ => true
  }

  /** One step; a label that is not enabled changes nothing. */
  function Apply(s: State, l: Label): State {
    if !Enabled(s, l) then s else
    match l
    case Submit(m) =>
      var s1 := s.(submitted := s.submitted + [m]);
      if s.connected then s1.(sending := s.sending + multiset{m}) else s1.(queue := s.queue + [m])
    case SendEnds(m, ok) =>
      var s1 := s.(sending := s.sending - multiset{m});
      if ok then s1.(delivered := s.delivered + [m]) else s1.(queue := s.queue + [m])
    case FlushBegins => s.(flush := Looping)
    case FlushTakes => s.(flush := Sending(s.queue[0]), queue := s.queue[1..])
    case FlushSendEnds(ok) =>
      if ok then s.(flush := Looping, delivered := s.delivered + [s.flush.message])
      else s.(flush := Idle, queue := s.queue + [s.flush.message])
    case FlushEnds => s.(flush := Idle)
    case Connects => s.(connected := true)
    case Drops => s.(connected := false)
  }

  function After(s: State, ls: seq<Label>): State
    decreases |ls|
  {
    if ls == [] then s else After(Apply(s, ls[0]), ls[1..])
  }

  const INITIAL_STATE := State(false, [], multiset{}, Idle, [], [])

  function InFlush(s: State): multiset<Message> {
    if s.flush.Sending? then multiset{s.flush.message} else multiset{}
  }

  predicate Conserved(s: State) {
    multiset(s.submitted) == multiset(s.delivered) + multiset(s.queue) + s.sending + InFlush(s)
  }

  lemma AddOne(xs: seq<Message>, m: Message)
    ensures multiset(xs + [m]) == multiset(xs) + multiset{m}
  {}

  lemma SubmitConserves(s: State, m: Message)
    requires Conserved(s)
    ensures Conserved(Apply(s, Submit(m)))
  {
    AddOne(s.submitted, m);
    AddOne(s.queue, m);
  }

  /** One message moves from the pending sends to another place. */
  lemma MoveOne(a: multiset<Message>, b: multiset<Message>, pending: multiset<Message>, c: multiset<Message>,
                m: Message)
    requires m in pending
    ensures a + b + pending + c == (a + multiset{m}) + b + (pending - multiset{m}) + c
    ensures a + b + pending + c == a + (b + multiset{m}) + (pending - multiset{m}) + c
  {}

  lemma SendEndsConserves(s: State, m: Message, ok: bool)
    requires Conserved(s) && m in s.sending
    ensures Conserved(Apply(s, SendEnds(m, ok)))
  {
    MoveOne(multiset(s.delivered), multiset(s.queue), s.sending, InFlush(s), m);
    if ok { AddOne(s.delivered, m); } else { AddOne(s.queue, m); }
  }

  lemma FlushSendEndsConserves(s: State, ok: bool)
    requires Conserved(s) && s.flush.Sending?
    ensures Conserved(Apply(s, FlushSendEnds(ok)))
  {
    AddOne(s.delivered, s.flush.message);
    AddOne(s.queue, s.flush.message);
  }

  lemma StepConserves(s: State, l: Label)
    requires Conserved(s)
    ensures Conserved(Apply(s, l))
  {
    if Enabled(s, l) {
      match l
      case Submit(m) => SubmitConserves(s, m);
      case SendEnds(m, ok) => SendEndsConserves(s, m, ok);
      case FlushTakes => assert s.queue == [s.queue[0]] + s.queue[1..];
      case FlushSendEnds(ok) => FlushSendEndsConserves(s, ok);
      case _ =>
    }
  }

  lemma {:induction false} RunConserves(s: State, ls: seq<Label>)
    requires Conserved(s)
    ensures Conserved(After(s, ls))
    decreases |ls|
  {
    if ls != [] {
      StepConserves(s, ls[0]);
      RunConserves(Apply(s, ls[0]), ls[1..]);
    }
  }

  /**
   Report conservation. Over any interleaving of submits, flushes, connects and drops, every submitted
   message is delivered, queued or inside one pending send, and nothing else is; with no send pending,
   what was delivered and what is queued add up to exactly what was submitted.
   */
  lemma ReportsConserved(ls: seq<Label>)
    ensures var s := After(INITIAL_STATE, ls);
      && multiset(s.submitted) == multiset(s.delivered) + multiset(s.queue) + s.sending + InFlush(s)
      && (s.sending == multiset{} && !s.flush.Sending? ==>
        multiset(s.delivered) + multiset(s.queue) == multiset(s.submitted))
  {
    RunConserves(INITIAL_STATE, ls);
  }

  // ----- One direct send, when nothing else happens -----

  /** The steps of one `send_message`. */
  function SendLabels(connected: bool, m: Message, ok: bool): seq<Label> {
    if connected then [Submit(m), SendEnds(m, ok)] else [Submit(m)]
  }

  /** A message is delivered if the client is connected and the send succeeds; else it goes to the tail of the queue. */
  lemma SendIsRun(s: State, m: Message, ok: bool)
    ensures After(s, SendLabels(s.connected, m, ok)) ==
      s.(submitted := s.submitted + [m],
         delivered := s.delivered + (if s.connected && ok then [m] else []),
         queue := s.queue + (if s.connected && ok then [] else [m]))
  {
    var s1 := Apply(s, Submit(m));
    var ls := SendLabels(s.connected, m, ok);
    assert After(s, ls) == After(s1, ls[1..]);
    if s.connected {
      assert ls[1..] == [SendEnds(m, ok)] && ls[1..][1..] == [];
      assert s.sending + multiset{m} - multiset{m} == s.sending;
      assert After(s1, ls[1..]) == After(Apply(s1, SendEnds(m, ok)), []);
    } else {
      assert ls[1..] == [];
    }
  }

  // ----- The queue keeps the order -----

  /** Messages are submitted only while the client is not connected, and no send of the flush fails. */
  predicate QueuedAndSent(s: State, ls: seq<Label>)
    decreases |ls|
  {
    ls != [] ==>
      && (ls[0].Submit? ==> !s.connected) && ls[0] != FlushSendEnds(false)
      && QueuedAndSent(Apply(s, ls[0]), ls[1..])
  }

  function FlushHead(s: State): seq<Message> {
    if s.flush.Sending? then [s.flush.message] else []
  }

  /** The messages delivered, in the flush, and queued, in this order, are the submitted ones in their order. */
  predicate Ordered(s: State) {
    s.sending == multiset{} && s.delivered + FlushHead(s) + s.queue == s.submitted
  }

  lemma StepOrdered(s: State, l: Label)
    requires Ordered(s) && (l.Submit? ==> !s.connected) && l != FlushSendEnds(false)
    ensures Ordered(Apply(s, l))
  {
    if Enabled(s, l) {
      match l
      case Submit(m) => assert s.delivered + FlushHead(s) + (s.queue + [m]) == s.submitted + [m];
      case FlushTakes => assert s.queue == [s.queue[0]] + s.queue[1..];
      case FlushSendEnds(ok) => assert s.delivered + [s.flush.message] + s.queue == s.submitted;
      case _ =>
    }
  }

  lemma {:induction false} RunOrdered(s: State, ls: seq<Label>)
    requires Ordered(s) && QueuedAndSent(s, ls)
    ensures Ordered(After(s, ls))
    decreases |ls|
  {
    if ls != [] {
      StepOrdered(s, ls[0]);
      RunOrdered(Apply(s, ls[0]), ls[1..]);
    }
  }

  /**
   First in, first out. Over any interleaving in which messages are submitted while the connection is
   down and no send fails, the messages delivered, followed by those still on their way, are exactly the
   submitted ones in the order of their submission.
   */
  lemma QueueKeepsOrder(ls: seq<Label>)
    requires QueuedAndSent(INITIAL_STATE, ls)
    ensures var s := After(INITIAL_STATE, ls);
      s.delivered + (if s.flush.Sending? then [s.flush.message] else []) + s.queue == s.submitted
  {
    RunOrdered(INITIAL_STATE, ls);
  }

  // ----- One flush, when nothing else happens -----

  /** What a flush delivers, the queue it leaves, and whether it raised. */
  datatype Flushed = Flushed(delivered: seq<Message>, queue: seq<Message>, raised: bool)

  function Flush(q: seq<Message>, fails: Message -> bool): Flushed {
    if q == [] then Flushed([], [], false)
    else if fails(q[0]) then Flushed([], q[1..] + [q[0]], true)
    else var rest := Flush(q[1..], fails); rest.(delivered := [q[0]] + rest.delivered)
  }

  /** The steps of one flush. */
  function FlushLabels(q: seq<Message>, fails: Message -> bool): seq<Label> {
    if q == [] then [FlushEnds]
    else if fails(q[0]) then [FlushTakes, FlushSendEnds(false)]
    else [FlushTakes, FlushSendEnds(true)] + FlushLabels(q[1..], fails)
  }

  /** Flush is what the flush steps of the interleaved system do when they run alone. */
  lemma {:induction false} FlushIsRun(s: State, fails: Message -> bool)
    requires s.flush == Looping
    ensures var f := Flush(s.queue, fails);
      After(s, FlushLabels(s.queue, fails))
        == s.(flush := Idle, queue := f.queue, delivered := s.delivered + f.delivered)
    decreases |s.queue|
  {
    var q := s.queue;
    if q == [] {
      assert After(s, [FlushEnds]) == After(Apply(s, FlushEnds), []);
    } else {
      var ok := !fails(q[0]);
      var ls := FlushLabels(q, fails);
      var s1 := Apply(s, FlushTakes);
      var s2 := Apply(s1, FlushSendEnds(ok));
      assert ls[0] == FlushTakes && ls[1..][0] == FlushSendEnds(ok);
      assert After(s, ls) == After(s1, ls[1..]) == After(s2, ls[1..][1..]);
      if ok {
        assert ls[1..][1..] == FlushLabels(q[1..], fails);
        FlushIsRun(s2, fails);
      }
    }
  }

  // ----- Failing messages do not block the queue -----

  function Failing(q: seq<Message>, fails: Message -> bool): seq<Message> {
    if q == [] then [] else (if fails(q[0]) then [q[0]] else []) + Failing(q[1..], fails)
  }

  function Others(q: seq<Message>, fails: Message -> bool): seq<Message> {
    if q == [] then [] else (if fails(q[0]) then [] else [q[0]]) + Others(q[1..], fails)
  }

  /** n flushes in a row: all they deliver, and the queue they leave. */
  function Flushes(q: seq<Message>, fails: Message -> bool, n: nat): (seq<Message>, seq<Message>)
    decreases n
  {
    if n == 0 then ([], q)
    else
      var f := Flush(q, fails);
      var (delivered, queue) := Flushes(f.queue, fails, n - 1);
      (f.delivered + delivered, queue)
  }

  lemma {:induction false} FlushesSnoc(q: seq<Message>, fails: Message -> bool, n: nat)
    ensures var (delivered, queue) := Flushes(q, fails, n);
      Flushes(q, fails, n + 1) == (delivered + Flush(queue, fails).delivered, Flush(queue, fails).queue)
    decreases n
  {
    var f := Flush(q, fails);
    if n == 0 {
      assert Flushes(f.queue, fails, 0) == ([], f.queue);
      assert f.delivered + [] == f.delivered && [] + f.delivered == f.delivered;
    } else {
      FlushesSnoc(f.queue, fails, n - 1);
      var (delivered, queue) := Flushes(f.queue, fails, n - 1);
      assert f.delivered + (delivered + Flush(queue, fails).delivered)
          == (f.delivered + delivered) + Flush(queue, fails).delivered;
    }
  }

  predicate AllFail(q: seq<Message>, fails: Message -> bool) {
    forall i | 0 <= i < |q| :: fails(q[i])
  }

  /** The messages behind the last failing one. */
  function Behind(q: seq<Message>, fails: Message -> bool): seq<Message> {
    if Failing(q, fails) == [] then q else Behind(q[1..], fails)
  }

  /** The other messages in front of the last failing one. */
  function InFront(q: seq<Message>, fails: Message -> bool): seq<Message> {
    if Failing(q, fails) == [] then [] else (if fails(q[0]) then [] else [q[0]]) + InFront(q[1..], fails)
  }

  lemma {:induction false} NoneFail(q: seq<Message>, fails: Message -> bool)
    requires Failing(q, fails) == []
    ensures Others(q, fails) == q
  {
    if q != [] { NoneFail(q[1..], fails); }
  }

  lemma {:induction false} SplitOthers(q: seq<Message>, fails: Message -> bool)
    ensures Others(q, fails) == InFront(q, fails) + Behind(q, fails) && Failing(Behind(q, fails), fails) == []
  {
    if Failing(q, fails) == [] {
      NoneFail(q, fails);
    } else {
      SplitOthers(q[1..], fails);
      var first := if fails(q[0]) then [] else [q[0]];
      assert first + (InFront(q[1..], fails) + Behind(q[1..], fails))
          == (first + InFront(q[1..], fails)) + Behind(q[1..], fails);
    }
  }

  /** A flush over u and then only failing messages v stops at the first failing message of u. */
  lemma {:induction false} FlushToFirst(u: seq<Message>, v: seq<Message>, fails: Message -> bool) returns (i: nat)
    requires Failing(u, fails) != []
    ensures i < |u| && fails(u[i])
    ensures Flush(u + v, fails) == Flushed(u[..i], u[i + 1..] + v + [u[i]], true)
    ensures Failing(u, fails) == [u[i]] + Failing(u[i + 1..], fails)
    ensures InFront(u, fails) == u[..i] + InFront(u[i + 1..], fails)
    ensures Behind(u, fails) == Behind(u[i + 1..], fails)
  {
    assert (u + v)[1..] == u[1..] + v && (u + v)[0] == u[0];
    if fails(u[0]) {
      i := 0;
      assert u[..0] == [];
    } else {
      i := FlushToFirst(u[1..], v, fails);
      assert u[1..][i + 1..] == u[i + 2..] && [u[0]] + u[1..][..i] == u[..i + 1];
      i := i + 1;
    }
  }

  /**
   As many flushes as messages fail: everything in front of the last failing one is delivered, the
   failing ones are behind v.
   */
  lemma {:induction false} FlushesToLast(u: seq<Message>, v: seq<Message>, fails: Message -> bool)
    ensures Flushes(u + v, fails, |Failing(u, fails)|) == (InFront(u, fails), Behind(u, fails) + v + Failing(u, fails))
    decreases |u|
  {
    if Failing(u, fails) == [] {
      assert u + v + [] == u + v;
    } else {
      var i := FlushToFirst(u, v, fails);
      var u', b := u[i + 1..], u[i];
      assert u' + v + [b] == u' + (v + [b]);
      FlushesToLast(u', v + [b], fails);
      assert Behind(u', fails) + (v + [b]) + Failing(u', fails) == Behind(u', fails) + v + ([b] + Failing(u', fails));
    }
  }

  /** A flush over messages that succeed and then messages that fail. */
  lemma {:induction false} FlushSplit(u: seq<Message>, w: seq<Message>, fails: Message -> bool)
    requires Failing(u, fails) == [] && AllFail(w, fails)
    ensures Flush(u + w, fails) == Flushed(u, if w == [] then [] else w[1..] + [w[0]], w != [])
  {
    if u == [] {
      assert u + w == w;
    } else {
      assert (u + w)[1..] == u[1..] + w;
      FlushSplit(u[1..], w, fails);
    }
  }

  lemma {:induction false} FailingFail(q: seq<Message>, fails: Message -> bool)
    ensures AllFail(Failing(q, fails), fails)
  {
    if q != [] { FailingFail(q[1..], fails); }
  }

  /**
   Failing messages do not block the queue. If k queued messages always fail to send and the others
   always succeed, k+1 flushes deliver all the others in their original order and leave exactly the
   failing ones, the first of them last.
   */
  lemma FailingDoNotBlock(q: seq<Message>, fails: Message -> bool)
    ensures var bad := Failing(q, fails);
      Flushes(q, fails, |bad| + 1) == (Others(q, fails), if bad == [] then [] else bad[1..] + [bad[0]])
  {
    var bad := Failing(q, fails);
    AsManyAsFail(q, fails);
    FlushesSnoc(q, fails, |bad|);
    SplitOthers(q, fails);
    FailingFail(q, fails);
    FlushSplit(Behind(q, fails), bad, fails);
  }

  lemma AsManyAsFail(q: seq<Message>, fails: Message -> bool)
    ensures Flushes(q, fails, |Failing(q, fails)|) == (InFront(q, fails), Behind(q, fails) + Failing(q, fails))
  {
    FlushesToLast(q, [], fails);
    assert q + [] == q && Behind(q, fails) + [] == Behind(q, fails);
  }

  lemma {:induction false} NothingBehind(q: seq<Message>, fails: Message -> bool)
    ensures Behind(q, fails) == [] <==> q == [] || fails(q[|q| - 1])
  {
    if q != [] {
      LastFails(q, fails);
      if Failing(q, fails) != [] { NothingBehind(q[1..], fails); }
    }
  }

  lemma {:induction false} LastFails(q: seq<Message>, fails: Message -> bool)
    requires q != []
    ensures fails(q[|q| - 1]) ==> Failing(q, fails) != []
    ensures |q| == 1 && Failing(q, fails) != [] ==> fails(q[0])
  {
    if |q| > 1 { LastFails(q[1..], fails); } else { assert q[1..] == [] && Failing(q[1..], fails) == []; }
  }

  /** One flush fewer is enough exactly when no other message stands behind the last failing one. */
  lemma OneFewerExactlyWhen(q: seq<Message>, fails: Message -> bool)
    ensures Flushes(q, fails, |Failing(q, fails)|).0 == Others(q, fails) <==> q == [] || fails(q[|q| - 1])
  {
    AsManyAsFail(q, fails);
    SplitOthers(q, fails);
    NothingBehind(q, fails);
    if Behind(q, fails) != [] { assert |Others(q, fails)| > |InFront(q, fails)|; }
  }

  // ----- The object -----

  class WebsocketClient {
    var connected: bool
    var messageQueue: seq<Message>
    ghost var delivered: seq<Message>

    constructor ()
      ensures !connected && messageQueue == [] && delivered == []
    {
      connected := false;
      messageQueue := [];
      delivered := [];
    }

    /** Send at once if connected; queue what cannot be sent. */
    method SendMessage(message: Message, sendSucceeds: bool)
      modifies this`messageQueue, this`delivered
      ensures delivered == old(delivered) + (if connected && sendSucceeds then [message] else [])
      ensures messageQueue == old(messageQueue) + (if connected && sendSucceeds then [] else [message])
    {
      if connected {
        if sendSucceeds {
          delivered := delivered + [message];
        } else {
          messageQueue := messageQueue + [message];
        }
      } else {
        messageQueue := messageQueue + [message];
      }
    }

    /** Send from the head of the queue until it is empty or a send fails; a failed message goes to the tail. */
    method SendPendingMessages(fails: Message -> bool) returns (raised: bool)
      modifies this`messageQueue, this`delivered
      ensures var f := Flush(old(messageQueue), fails);
        messageQueue == f.queue && delivered == old(delivered) + f.delivered && raised == f.raised
    {
      while messageQueue != []
        invariant var f, rest := Flush(old(messageQueue), fails), Flush(messageQueue, fails);
          rest.queue == f.queue && rest.raised == f.raised && delivered + rest.delivered == old(delivered) + f.delivered
        decreases |messageQueue|
      {
        var message := messageQueue[0];
        messageQueue := messageQueue[1..];
        if fails(message) {
          messageQueue := messageQueue + [message];
          return true;
        }
        delivered := delivered + [message];
      }
      return false;
    }
  }
}
