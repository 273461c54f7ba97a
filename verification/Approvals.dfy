/**
 Which answer an approval request gets. Responses carry no request id, so pairing them with requests
 is a matter of order; these are the runs on which it works, and exactly how it stops working.
 */
module Approvals {
  import opened Common
  import opened Worker

  /** Requests of an instance that the coordinator has not answered yet. */
  function Owed(a: Agent, s: string): int {
    CountOf(a.requests, s) - CountOf(a.responses, s)
  }

  /**
   The guard under which answers pair: nothing is asked while an answer is owed, only what was asked
   is answered, and no send fails. Timeouts are allowed.
   */
  predicate Orderly(a: Agent, act: Action) {
    match act
    case Request(i) => i < |a.entries| ==> Owed(a, a.entries[i].instance) == 0
    case Respond(s) => Owed(a, s) > 0
    case SendFails(_) => false
    case _ => true
  }

  predicate OrderlyRun(running: set<string>, acts: seq<Action>) {
    forall k :: 0 <= k < |acts| ==> After(running, acts[..k]).Some? && Orderly(After(running, acts[..k]).value, acts[k])
  }

  predicate Asks(a: Agent, i: int, f: nat) {
    0 <= i < |a.entries| && !a.entries[i].wait.NotAsking? && a.entries[i].wait.future == f
  }

  /** An open future is queued and somebody asks for it. */
  ghost predicate OpenIsAsked(a: Agent, f: nat) {
    IsOpen(a.futures, f) ==> f in QueueOf(a, a.futures[f].instance) && exists i :: Asks(a, i, f)
  }

  /** An instance queues its own futures, and at most one answer is owed to it. */
  ghost predicate OweOne(a: Agent, s: string) {
    && 0 <= Owed(a, s) <= 1
    && forall f :: f in QueueOf(a, s) ==> f < |a.futures| && a.futures[f].instance == s
  }

  /** What is being sent is not owed yet; what is awaited and still open is what is owed. */
  predicate AskedInTurn(a: Agent, i: nat)
    requires i < |a.entries|
  {
    var e := a.entries[i];
    !e.wait.NotAsking? && e.wait.future < |a.futures| ==>
      var future := a.futures[e.wait.future];
      && (e.wait.Sending? ==> future.number.None? && future.outcome.Open? && Owed(a, e.instance) == 0)
      && (e.wait.Awaiting? && future.outcome.Open? ==>
            future.number == Some(CountOf(a.responses, e.instance)) && Owed(a, e.instance) == 1)
  }

  /** A sent request has timed out, or is answered exactly once as many responses as it takes have come, by its own. */
  predicate PairedInTurn(a: Agent, f: Future) {
    match f.number
    case None => f.outcome.Open?
    case Some(n) =>
      && n < CountOf(a.requests, f.instance)
      && (f.outcome.TimedOut? || f.outcome == if n < CountOf(a.responses, f.instance) then Answered(n) else Open)
  }

  ghost predicate InStep(a: Agent) {
    && (forall f :: 0 <= f < |a.futures| ==> OpenIsAsked(a, f))
    && (forall f :: 0 <= f < |a.futures| ==> PairedInTurn(a, a.futures[f]))
    && (forall s :: OweOne(a, s))
    && (forall i :: 0 <= i < |a.entries| ==> AskedInTurn(a, i))
  }

  lemma {:induction false} FirstOpenFinds(futures: seq<Future>, queue: seq<nat>, f: nat)
    requires f in queue && IsOpen(futures, f)
    ensures FirstOpen(futures, queue).Some?
  {
    if !IsOpen(futures, queue[0]) {
      FirstOpenFinds(futures, queue[1..], f);
    }
  }

  lemma {:induction false} FirstOpenIn(futures: seq<Future>, queue: seq<nat>)
    ensures FirstOpen(futures, queue).Some? ==> FirstOpen(futures, queue).value in queue && IsOpen(futures, FirstOpen(futures, queue).value)
    ensures forall f :: f in AfterPop(futures, queue) ==> f in queue
  {
    if queue != [] {
      FirstOpenIn(futures, queue[1..]);
    }
  }

  lemma {:induction false} WithoutOthers(queue: seq<nat>, f: nat)
    ensures forall g :: g in Without(queue, f) ==> g in queue
    ensures forall g :: g in queue && g != f ==> g in Without(queue, f)
  {
    if queue != [] {
      assert queue == [queue[0]] + queue[1..];
      WithoutOthers(queue[1..], f);
    }
  }

  /** In step, the only open future of an instance is the one a running entry asks for. */
  lemma OnlyOpen(a: Agent, f: nat, i: nat)
    requires InStep(a) && Chained(a) && AsksOwn(a) && IsOpen(a.futures, f)
    requires i < |a.entries| && a.entries[i].status.Running? && a.entries[i].instance == a.futures[f].instance
    ensures Asks(a, i, f)
  {
    hide Chained, PairedInTurn, AskedInTurn, OweOne;
    assert OpenIsAsked(a, f);
    var j :| Asks(a, j, f);
    OneRunning(a, i, j);
  }

  /** Being in step is about the futures, the queues, the counts and who asks for what. */
  lemma SameAsking(a: Agent, b: Agent)
    requires InStep(a) && b.futures == a.futures && b.queues == a.queues && b.requests == a.requests && b.responses == a.responses
    requires |a.entries| <= |b.entries|
    requires forall i :: 0 <= i < |a.entries| ==> b.entries[i].wait == a.entries[i].wait && b.entries[i].instance == a.entries[i].instance
    requires forall i :: |a.entries| <= i < |b.entries| ==> b.entries[i].wait.NotAsking?
    ensures InStep(b)
  {
    hide CountOf, QueueOf;
    assert forall s :: QueueOf(b, s) == QueueOf(a, s) by { SameQueues(a, b); }
    forall f | 0 <= f < |b.futures| ensures OpenIsAsked(b, f) && PairedInTurn(b, b.futures[f]) {
      assert OpenIsAsked(a, f) && PairedInTurn(a, a.futures[f]);
      if IsOpen(a.futures, f) {
        var i :| Asks(a, i, f);
        assert Asks(b, i, f);
      }
    }
    forall s ensures OweOne(b, s) {
      assert OweOne(a, s);
    }
    forall i | 0 <= i < |b.entries| ensures AskedInTurn(b, i) {
      assert i < |a.entries| ==> AskedInTurn(a, i);
    }
  }

  lemma SameQueues(a: Agent, b: Agent)
    requires b.queues == a.queues
    ensures forall s :: QueueOf(b, s) == QueueOf(a, s)
  {
  }

  /** What somebody else asks for is still asked for. */
  lemma StillAsked(a: Agent, b: Agent, f: nat, i: nat)
    requires OpenIsAsked(a, f) && IsOpen(a.futures, f) && i < |a.entries| && !Asks(a, i, f)
    requires |b.entries| == |a.entries| && forall j :: 0 <= j < |a.entries| && j != i ==> b.entries[j] == a.entries[j]
    ensures exists j :: Asks(b, j, f)
  {
    var j :| Asks(a, j, f);
    assert Asks(b, j, f);
  }

  lemma RequestInStep(a: Agent, i: nat)
    requires InStep(a) && AsksOwn(a) && Enabled(a, Request(i)) && Orderly(a, Request(i))
    ensures InStep(Requested(a, i))
  {
    hide CountOf;
    var b, s := Requested(a, i), a.entries[i].instance;
    forall f | 0 <= f < |b.futures| ensures OpenIsAsked(b, f) && PairedInTurn(b, b.futures[f]) {
      if f < |a.futures| {
        assert OpenIsAsked(a, f) && PairedInTurn(a, a.futures[f]);
        if IsOpen(a.futures, f) {
          StillAsked(a, b, f, i);
        }
      } else {
        assert Asks(b, i, f);
      }
    }
    forall q ensures OweOne(b, q) {
      assert OweOne(a, q);
    }
    forall j | 0 <= j < |b.entries| ensures AskedInTurn(b, j) {
      assert AskedInTurn(a, j);
    }
  }

  lemma SentEntry(a: Agent, i: nat, j: nat)
    requires InStep(a) && AsksOwn(a) && Chained(a) && Enabled(a, Send(i)) && j < |a.entries|
    ensures AskedInTurn(Sent(a, i), j)
  {
    hide Chained, PairedInTurn, OpenIsAsked, QueueOf;
    assert AskedInTurn(a, i) && AskedInTurn(a, j);
    if j != i && !a.entries[j].wait.NotAsking? {
      OneRunning(a, i, j);
    }
  }

  lemma SentFuture(a: Agent, i: nat, f: nat)
    requires InStep(a) && AsksOwn(a) && Enabled(a, Send(i)) && f < |a.futures|
    ensures OpenIsAsked(Sent(a, i), f) && PairedInTurn(Sent(a, i), Sent(a, i).futures[f])
  {
    var b, sent := Sent(a, i), a.entries[i].wait.future;
    assert AskedInTurn(a, i) && OpenIsAsked(a, f) && PairedInTurn(a, a.futures[f]);
    if f == sent {
      assert Asks(b, i, f);
    } else if IsOpen(a.futures, f) {
      StillAsked(a, b, f, i);
    }
  }

  lemma SentInstance(a: Agent, i: nat, q: string)
    requires InStep(a) && AsksOwn(a) && Enabled(a, Send(i))
    ensures OweOne(Sent(a, i), q)
  {
    hide PairedInTurn, OpenIsAsked;
    assert AskedInTurn(a, i) && OweOne(a, q);
  }

  lemma SendInStep(a: Agent, i: nat)
    requires InStep(a) && AsksOwn(a) && Chained(a) && Enabled(a, Send(i))
    ensures InStep(Sent(a, i))
  {
    var b := Sent(a, i);
    forall f | 0 <= f < |b.futures| ensures OpenIsAsked(b, f) && PairedInTurn(b, b.futures[f]) {
      SentFuture(a, i, f);
    }
    forall q ensures OweOne(b, q) {
      SentInstance(a, i, q);
    }
    forall j | 0 <= j < |b.entries| ensures AskedInTurn(b, j) {
      SentEntry(a, i, j);
    }
    hide Chained, AsksOwn, PairedInTurn, OpenIsAsked, OweOne, AskedInTurn;
  }

  lemma ExpireInStep(a: Agent, i: nat)
    requires InStep(a) && AsksOwn(a) && Enabled(a, Expire(i))
    ensures InStep(Next(a, Expire(i)))
  {
    hide CountOf;
    var b, expired := Next(a, Expire(i)), a.entries[i].wait.future;
    assert AskedInTurn(a, i) && OweOne(a, a.entries[i].instance);
    forall f | 0 <= f < |b.futures| ensures OpenIsAsked(b, f) && PairedInTurn(b, b.futures[f]) {
      assert OpenIsAsked(a, f) && PairedInTurn(a, a.futures[f]);
      if f != expired && IsOpen(a.futures, f) {
        StillAsked(a, b, f, i);
      }
    }
    forall q ensures OweOne(b, q) {
      assert OweOne(a, q);
    }
    forall j | 0 <= j < |b.entries| ensures AskedInTurn(b, j) {
      assert AskedInTurn(a, j);
    }
  }

  lemma CollectInStep(a: Agent, i: nat)
    requires InStep(a) && AsksOwn(a) && Enabled(a, Collect(i))
    ensures InStep(Collected(a, i))
  {
    hide Without, CountOf;
    var b, s, done := Collected(a, i), a.entries[i].instance, a.entries[i].wait.future;
    WithoutOthers(QueueOf(a, s), done);
    forall f | 0 <= f < |b.futures| ensures OpenIsAsked(b, f) && PairedInTurn(b, b.futures[f]) {
      assert OpenIsAsked(a, f) && PairedInTurn(a, a.futures[f]);
      if IsOpen(a.futures, f) {
        StillAsked(a, b, f, i);
      }
    }
    forall q ensures OweOne(b, q) {
      assert OweOne(a, q);
    }
    forall j | 0 <= j < |b.entries| ensures AskedInTurn(b, j) {
      assert AskedInTurn(a, j);
    }
  }

  /** While an answer is owed, an open future of the instance is the first open one queued, and the one owed. */
  lemma OwedIsFirst(a: Agent, s: string, f: nat)
    requires InStep(a) && AsksOwn(a) && Chained(a) && Owed(a, s) > 0 && IsOpen(a.futures, f) && a.futures[f].instance == s
    ensures FirstOpen(a.futures, QueueOf(a, s)) == Some(f) && a.futures[f].number == Some(CountOf(a.responses, s))
  {
    hide AfterPop, FirstOpen, Chained, CountOf;
    FirstOpenIn(a.futures, QueueOf(a, s));
    assert OpenIsAsked(a, f) && OweOne(a, s);
    FirstOpenFinds(a.futures, QueueOf(a, s), f);
    var i :| Asks(a, i, f);
    assert AskedInTurn(a, i);
    OnlyOpen(a, FirstOpen(a.futures, QueueOf(a, s)).value, i);
  }

  lemma RespondedFuture(a: Agent, s: string, f: nat)
    requires InStep(a) && AsksOwn(a) && Chained(a) && Owed(a, s) > 0 && f < |a.futures|
    ensures OpenIsAsked(Responded(a, s), f) && PairedInTurn(Responded(a, s), Responded(a, s).futures[f])
  {
    hide AfterPop, FirstOpen, Chained;
    var b := Responded(a, s);
    FirstOpenIn(a.futures, QueueOf(a, s));
    assert OweOne(a, s) && OpenIsAsked(a, f) && PairedInTurn(a, a.futures[f]);
    if IsOpen(a.futures, f) {
      if a.futures[f].instance == s {
        OwedIsFirst(a, s, f);
      } else {
        var j :| Asks(a, j, f);
        assert Asks(b, j, f);
      }
    }
  }

  lemma RespondedEntry(a: Agent, s: string, j: nat)
    requires InStep(a) && AsksOwn(a) && Chained(a) && Owed(a, s) > 0 && j < |a.entries|
    ensures AskedInTurn(Responded(a, s), j)
  {
    hide AfterPop, FirstOpen, Chained, PairedInTurn, OpenIsAsked;
    FirstOpenIn(a.futures, QueueOf(a, s));
    assert OweOne(a, s) && AskedInTurn(a, j);
    if !a.entries[j].wait.NotAsking? && a.entries[j].instance == s && IsOpen(a.futures, a.entries[j].wait.future) {
      OwedIsFirst(a, s, a.entries[j].wait.future);
    }
  }

  lemma RespondedInstance(a: Agent, s: string, q: string)
    requires InStep(a) && Owed(a, s) > 0
    ensures OweOne(Responded(a, s), q)
  {
    hide AfterPop, FirstOpen, PairedInTurn, OpenIsAsked, AskedInTurn;
    FirstOpenIn(a.futures, QueueOf(a, s));
    assert OweOne(a, s) && OweOne(a, q);
    var b := Responded(a, s);
    assert Owed(b, q) == if q == s then Owed(a, q) - 1 else Owed(a, q);
    assert QueueOf(b, q) == if q == s then AfterPop(a.futures, QueueOf(a, s)) else QueueOf(a, q);
    forall f | f in QueueOf(b, q) ensures f < |b.futures| && b.futures[f].instance == q {
      assert f in QueueOf(a, q);
    }
  }

  /** A response that is owed answers the one open future of its instance, if it has not timed out. */
  lemma RespondInStep(a: Agent, s: string)
    requires InStep(a) && AsksOwn(a) && Chained(a) && Owed(a, s) > 0
    ensures InStep(Responded(a, s))
  {
    var b := Responded(a, s);
    forall f | 0 <= f < |b.futures| ensures OpenIsAsked(b, f) && PairedInTurn(b, b.futures[f]) {
      RespondedFuture(a, s, f);
    }
    forall q ensures OweOne(b, q) {
      RespondedInstance(a, s, q);
    }
    forall j | 0 <= j < |b.entries| ensures AskedInTurn(b, j) {
      RespondedEntry(a, s, j);
    }
    hide Chained, AsksOwn, PairedInTurn, OpenIsAsked, OweOne, AskedInTurn;
  }

  lemma OrderlyStep(a: Agent, act: Action)
    requires InStep(a) && AsksOwn(a) && Chained(a) && Enabled(a, act) && Orderly(a, act)
    ensures InStep(Next(a, act))
  {
    hide InStep, AsksOwn, Chained, Requested, Sent, Responded, Collected;
    match act {
      case Arrive(_) => SameAsking(a, Next(a, act));
      case Begin(_) => SameAsking(a, Next(a, act));
      case End(_, _) => SameAsking(a, Next(a, act));
      case Request(i) => RequestInStep(a, i);
      case Send(i) => SendInStep(a, i);
      case Respond(s) => RespondInStep(a, s);
      case Expire(i) => ExpireInStep(a, i);
      case Collect(i) => CollectInStep(a, i);
      case SendFails(_) =>
    }
  }

  lemma IdleInStep(running: set<string>)
    ensures InStep(Idle(running))
  {
  }

  lemma OrderlySoFar(running: set<string>, acts: seq<Action>)
    requires acts != [] && OrderlyRun(running, acts)
    ensures OrderlyRun(running, acts[..|acts| - 1])
  {
    hide After, Orderly;
    var init := acts[..|acts| - 1];
    assert forall k :: 0 <= k < |init| ==> init[..k] == acts[..k];
  }

  lemma {:induction false} OrderlyInStep(running: set<string>, acts: seq<Action>)
    requires After(running, acts).Some? && OrderlyRun(running, acts)
    ensures InStep(After(running, acts).value)
  {
    hide Next, InStep, AsksOwn, Chained, Orderly;
    if acts == [] {
      IdleInStep(running);
    } else {
      var init, last := acts[..|acts| - 1], acts[|acts| - 1];
      OrderlySoFar(running, acts);
      OrderlyInStep(running, init);
      RunInvariants(running, init);
      OrderlyStep(After(running, init).value, last);
    }
  }

  /**
   Pairing. As long as nothing is asked while an answer is owed and no send fails, timeouts or not,
   the n-th answer of an instance goes to its n-th request: once n answers have come, every request
   numbered below n has its own answer or has timed out, and no other has any.
   */
  lemma {:induction false} AnswersPairWithRequests(running: set<string>, acts: seq<Action>, f: nat)
    requires After(running, acts).Some? && OrderlyRun(running, acts)
    ensures var a := After(running, acts).value;
            f < |a.futures| && a.futures[f].number.Some? ==>
              var future := a.futures[f];
              future.outcome.TimedOut?
              || future.outcome == if future.number.value < CountOf(a.responses, future.instance) then Answered(future.number.value) else Open
  {
    hide After, OrderlyRun;
    OrderlyInStep(running, acts);
    var a := After(running, acts).value;
    assert f < |a.futures| ==> PairedInTurn(a, a.futures[f]);
  }

  // ---- when pairing breaks ----

  lemma AfterOne(running: set<string>, acts: seq<Action>, act: Action)
    requires After(running, acts).Some? && Enabled(After(running, acts).value, act)
    ensures After(running, acts + [act]) == Some(Next(After(running, acts).value, act))
  {
    hide Next, Enabled;
    assert (acts + [act])[..|acts|] == acts;
  }

  lemma {:induction false} FirstOpenAfter(futures: seq<Future>, queue: seq<nat>, f: nat, rest: seq<nat>)
    requires IsOpen(futures, f) && forall g :: g in queue ==> !IsOpen(futures, g)
    ensures FirstOpen(futures, queue + [f] + rest) == Some(f)
  {
    if queue != [] {
      assert (queue + [f] + rest)[1..] == queue[1..] + [f] + rest;
      assert queue[0] in queue;
      FirstOpenAfter(futures, queue[1..], f, rest);
    }
  }

  /** In step, an instance whose running entry asks for nothing has no open future queued. */
  lemma NothingOpen(a: Agent, i: nat, f: nat)
    requires InStep(a) && AsksOwn(a) && Chained(a) && Enabled(a, Request(i)) && f in QueueOf(a, a.entries[i].instance)
    ensures !IsOpen(a.futures, f)
  {
    hide Chained, AsksOwn, PairedInTurn, AskedInTurn;
    assert OweOne(a, a.entries[i].instance);
    if IsOpen(a.futures, f) {
      assert OpenIsAsked(a, f);
      OnlyOpen(a, f, i);
    }
  }

  /** The next request of an instance, sent and then met by a response. */
  function AskAndHear(i: nat, s: string): seq<Action> {
    [Request(i), Send(i), Respond(s)]
  }

  lemma AskedAndHeard(a: Agent, i: nat)
    requires InStep(a) && AsksOwn(a) && Chained(a) && Enabled(a, Request(i))
    ensures var s := a.entries[i].instance;
            var b := Requested(a, i);
            && Enabled(b, Send(i))
            && Responded(Sent(b, i), s).futures
               == a.futures + [Future(s, Some(CountOf(a.requests, s)), Answered(CountOf(a.responses, s)))]
  {
    hide Chained, AfterPop, FirstOpen, InStep;
    var s, b := a.entries[i].instance, Requested(a, i);
    var c := Sent(b, i);
    forall f | f in QueueOf(a, s) ensures !IsOpen(a.futures, f) && f < |a.futures| {
      NothingOpen(a, i, f);
      QueuedIsKnown(a, s, f);
    }
    FirstOpenAfter(c.futures, QueueOf(a, s), |a.futures|, []);
    assert QueueOf(c, s) == QueueOf(a, s) + [|a.futures|] + [];
  }

  lemma QueuedIsKnown(a: Agent, s: string, f: nat)
    requires InStep(a) && f in QueueOf(a, s)
    ensures f < |a.futures|
  {
    assert OweOne(a, s);
  }

  /**
   The guard is exact. After an orderly run, take any entry free to ask, and let its request be sent
   and then met by the next response of its instance. That response is the request's own exactly when
   nothing was owed at the time of asking; otherwise it is an earlier request's.
   */
  lemma {:induction false} GuardIsExact(running: set<string>, acts: seq<Action>, i: nat)
    requires After(running, acts).Some? && OrderlyRun(running, acts)
    ensures var a := After(running, acts).value;
            Enabled(a, Request(i)) ==>
            var s := a.entries[i].instance;
            var b := After(running, acts + AskAndHear(i, s));
            && b.Some? && |b.value.futures| == |a.futures| + 1
            && var future := b.value.futures[|a.futures|];
            && future.number.Some? && future.outcome.Answered?
            && (future.outcome.response == future.number.value <==> Owed(a, s) == 0)
            && (Owed(a, s) != 0 ==> future.outcome.response < future.number.value)
  {
    hide After, OrderlyRun, InStep, AsksOwn, Chained, Requested, Sent, Responded;
    OrderlyInStep(running, acts);
    RunInvariants(running, acts);
    var a := After(running, acts).value;
    if Enabled(a, Request(i)) {
      var s := a.entries[i].instance;
      AskedAndHeard(a, i);
      AfterOne(running, acts, Request(i));
      AfterOne(running, acts + [Request(i)], Send(i));
      AfterOne(running, acts + [Request(i)] + [Send(i)], Respond(s));
      assert acts + [Request(i)] + [Send(i)] + [Respond(s)] == acts + AskAndHear(i, s);
      OwedIsSmall(a, s);
    }
  }

  lemma OwedIsSmall(a: Agent, s: string)
    requires InStep(a)
    ensures 0 <= Owed(a, s) <= 1
  {
    assert OweOne(a, s);
  }

  /** A request whose send fails, then another one that is sent and met by a response. */
  function FailAndAskAgain(i: nat, s: string): seq<Action> {
    [Request(i), SendFails(i)] + AskAndHear(i, s)
  }

  lemma OrphanHeard(a: Agent, i: nat)
    requires InStep(a) && AsksOwn(a) && Chained(a) && Enabled(a, Request(i))
    ensures var s := a.entries[i].instance;
            var b := Requested(a, i);
            && Enabled(b, SendFails(i))
            && var c := Next(b, SendFails(i));
            && Enabled(c, Request(i)) && Enabled(Requested(c, i), Send(i))
            && Responded(Sent(Requested(c, i), i), s).futures
               == a.futures + [Future(s, None, Answered(CountOf(a.responses, s))), Future(s, Some(CountOf(a.requests, s)), Open)]
  {
    hide Chained, AfterPop, FirstOpen, InStep;
    var s, f := a.entries[i].instance, |a.futures|;
    var c := Next(Requested(a, i), SendFails(i));
    var d := Sent(Requested(c, i), i);
    forall g | g in QueueOf(a, s) ensures !IsOpen(a.futures, g) && g < |a.futures| {
      NothingOpen(a, i, g);
      QueuedIsKnown(a, s, g);
    }
    assert QueueOf(c, s) == QueueOf(a, s) + [f];
    assert QueueOf(d, s) == QueueOf(a, s) + [f] + [f + 1];
    FirstOpenAfter(d.futures, QueueOf(a, s), f, [f + 1]);
  }

  /**
   Sends must not fail. After an orderly run a request whose send fails leaves its future queued with
   nobody waiting: the next answer goes to that future, and the next request stays open, although
   nothing was owed and nothing timed out.
   */
  lemma {:induction false} FailedSendTakesNextAnswer(running: set<string>, acts: seq<Action>, i: nat)
    requires After(running, acts).Some? && OrderlyRun(running, acts)
    ensures var a := After(running, acts).value;
            Enabled(a, Request(i)) ==>
            var s := a.entries[i].instance;
            var b := After(running, acts + FailAndAskAgain(i, s));
            && b.Some? && |b.value.futures| == |a.futures| + 2
            && b.value.futures[|a.futures|].number.None? && b.value.futures[|a.futures|].outcome.Answered?
            && b.value.futures[|a.futures| + 1] == Future(s, Some(CountOf(a.requests, s)), Open)
  {
    hide After, OrderlyRun, InStep, AsksOwn, Chained, Requested, Sent, Responded;
    OrderlyInStep(running, acts);
    RunInvariants(running, acts);
    var a := After(running, acts).value;
    if Enabled(a, Request(i)) {
      var s := a.entries[i].instance;
      OrphanHeard(a, i);
      var failed := acts + [Request(i)] + [SendFails(i)];
      AfterOne(running, acts, Request(i));
      AfterOne(running, acts + [Request(i)], SendFails(i));
      AfterOne(running, failed, Request(i));
      AfterOne(running, failed + [Request(i)], Send(i));
      AfterOne(running, failed + [Request(i)] + [Send(i)], Respond(s));
      assert failed + [Request(i)] + [Send(i)] + [Respond(s)] == acts + FailAndAskAgain(i, s);
    }
  }

  lemma OrderlyOne(running: set<string>, acts: seq<Action>, act: Action)
    requires OrderlyRun(running, acts) && After(running, acts).Some? && Orderly(After(running, acts).value, act)
    ensures OrderlyRun(running, acts + [act])
  {
    hide After, Orderly;
    var all := acts + [act];
    forall k | 0 <= k < |all| ensures After(running, all[..k]).Some? && Orderly(After(running, all[..k]).value, all[k]) {
      assert all[..k] == acts[..k] && acts[..|acts|] == acts;
    }
  }

  /** A running entry has asked, and its request has been sent. */
  lemma RequestSent()
    ensures var run := [Arrive("i"), Begin(0), Request(0), Send(0)];
            && OrderlyRun({"i"}, run)
            && After({"i"}, run)
               == Some(Agent({"i"}, [TickEntry("i", None, Running, Awaiting(0))], map["i" := 0], [Future("i", Some(0), Open)],
                             map["i" := [0]], map["i" := 1], map[]))
  {
    hide After, OrderlyRun, AfterPop, FirstOpen, Without;
    AfterNone({"i"});
    var a1 := Next(Idle({"i"}), Arrive("i"));
    AfterOne({"i"}, [], Arrive("i"));
    OrderlyOne({"i"}, [], Arrive("i"));
    assert [] + [Arrive("i")] == [Arrive("i")];
    assert a1 == Agent({"i"}, [TickEntry("i", None, Waiting, NotAsking)], map["i" := 0], [], map[], map[], map[]);
    var a2 := Next(a1, Begin(0));
    AfterOne({"i"}, [Arrive("i")], Begin(0));
    OrderlyOne({"i"}, [Arrive("i")], Begin(0));
    assert [Arrive("i")] + [Begin(0)] == [Arrive("i"), Begin(0)];
    assert a2.entries == [TickEntry("i", None, Running, NotAsking)];
    RequestSentFrom(a2);
  }

  lemma AfterNone(running: set<string>)
    ensures After(running, []) == Some(Idle(running)) && OrderlyRun(running, [])
  {
  }

  lemma RequestSentFrom(a: Agent)
    requires a == Agent({"i"}, [TickEntry("i", None, Running, NotAsking)], map["i" := 0], [], map[], map[], map[])
    requires After({"i"}, [Arrive("i"), Begin(0)]) == Some(a) && OrderlyRun({"i"}, [Arrive("i"), Begin(0)])
    ensures var run := [Arrive("i"), Begin(0), Request(0), Send(0)];
            && OrderlyRun({"i"}, run)
            && After({"i"}, run)
               == Some(Agent({"i"}, [TickEntry("i", None, Running, Awaiting(0))], map["i" := 0], [Future("i", Some(0), Open)],
                             map["i" := [0]], map["i" := 1], map[]))
  {
    hide After, OrderlyRun, AfterPop, FirstOpen, Without;
    var r2 := [Arrive("i"), Begin(0)];
    var b := Next(a, Request(0));
    AfterOne({"i"}, r2, Request(0));
    OrderlyOne({"i"}, r2, Request(0));
    assert b.entries == [TickEntry("i", None, Running, Sending(0))] && b.futures == [Future("i", None, Open)];
    assert QueueOf(a, "i") == [] && [] + [0] == [0] && b.queues == map["i" := [0]];
    AfterOne({"i"}, r2 + [Request(0)], Send(0));
    OrderlyOne({"i"}, r2 + [Request(0)], Send(0));
    assert Next(b, Send(0)).entries == [TickEntry("i", None, Running, Awaiting(0))];
    assert Next(b, Send(0)).futures == [Future("i", Some(0), Open)] && Next(b, Send(0)).requests == map["i" := 1];
    assert r2 + [Request(0)] + [Send(0)] == [Arrive("i"), Begin(0), Request(0), Send(0)];
  }

  /** The guard can be breached by an orderly run: after a timeout an answer is owed, and the entry is free to ask again. */
  lemma TimeoutLeavesOwed()
    ensures var run := [Arrive("i"), Begin(0), Request(0), Send(0), Expire(0), Collect(0)];
            && OrderlyRun({"i"}, run) && After({"i"}, run).Some?
            && Enabled(After({"i"}, run).value, Request(0)) && Owed(After({"i"}, run).value, "i") == 1
  {
    hide After, OrderlyRun, AfterPop, FirstOpen;
    RequestSent();
    var r4 := [Arrive("i"), Begin(0), Request(0), Send(0)];
    var a := After({"i"}, r4).value;
    AfterOne({"i"}, r4, Expire(0));
    OrderlyOne({"i"}, r4, Expire(0));
    AfterOne({"i"}, r4 + [Expire(0)], Collect(0));
    OrderlyOne({"i"}, r4 + [Expire(0)], Collect(0));
    assert r4 + [Expire(0)] + [Collect(0)] == [Arrive("i"), Begin(0), Request(0), Send(0), Expire(0), Collect(0)];
  }

  // ---- what stays queued ----

  ghost predicate NoRepeats(queue: seq<nat>) {
    forall i, j :: 0 <= i < j < |queue| ==> queue[i] != queue[j]
  }

  /** A queued future belongs to its queue, and somebody still asks for it or its message was never sent. */
  ghost predicate IsWanted(a: Agent, s: string, f: nat) {
    f < |a.futures| && a.futures[f].instance == s && (a.futures[f].number.None? || exists i :: Asks(a, i, f))
  }

  ghost predicate QueuesWanted(a: Agent) {
    && (forall s, f :: f in QueueOf(a, s) ==> IsWanted(a, s, f))
    && (forall s :: NoRepeats(QueueOf(a, s)))
    && (forall i :: 0 <= i < |a.entries| && a.entries[i].wait.Sending? && a.entries[i].wait.future < |a.futures| ==>
          a.futures[a.entries[i].wait.future].number.None?)
  }

  lemma {:induction false} WithoutOnce(queue: seq<nat>, f: nat)
    requires NoRepeats(queue)
    ensures NoRepeats(Without(queue, f)) && f !in Without(queue, f)
  {
    if queue != [] {
      var rest := queue[1..];
      WithoutOnce(rest, f);
      WithoutOthers(rest, f);
      assert queue == [queue[0]] + rest;
      assert queue[0] !in rest by {
        assert forall k :: 0 <= k < |rest| ==> rest[k] == queue[k + 1];
      }
    }
  }

  lemma {:induction false} PopNoRepeats(futures: seq<Future>, queue: seq<nat>)
    requires NoRepeats(queue)
    ensures NoRepeats(AfterPop(futures, queue))
  {
    if queue != [] {
      PopNoRepeats(futures, queue[1..]);
    }
  }

  /** What an action leaves: the same futures under the same instances, and whoever asked for another future. */
  lemma StillWanted(a: Agent, b: Agent, s: string, f: nat, i: nat)
    requires IsWanted(a, s, f) && |a.futures| <= |b.futures| && |a.entries| == |b.entries| && i < |a.entries| && !Asks(a, i, f)
    requires b.futures[f].instance == a.futures[f].instance && b.futures[f].number == a.futures[f].number
    requires forall j :: 0 <= j < |a.entries| && j != i ==> b.entries[j] == a.entries[j]
    ensures IsWanted(b, s, f)
  {
    if a.futures[f].number.Some? {
      var j :| Asks(a, j, f);
      assert Asks(b, j, f);
    }
  }

  lemma RequestWanted(a: Agent, i: nat)
    requires QueuesWanted(a) && AsksOwn(a) && Enabled(a, Request(i))
    ensures QueuesWanted(Requested(a, i))
  {
    var b, own := Requested(a, i), a.entries[i].instance;
    forall s, f | f in QueueOf(b, s) ensures IsWanted(b, s, f) {
      if f in QueueOf(a, s) {
        assert IsWanted(a, s, f);
        StillWanted(a, b, s, f, i);
      } else {
        assert s == own && f == |a.futures|;
      }
    }
    forall s ensures NoRepeats(QueueOf(b, s)) {
      assert NoRepeats(QueueOf(a, s));
      assert forall k :: 0 <= k < |QueueOf(a, s)| ==> QueueOf(a, s)[k] in QueueOf(a, s);
    }
  }

  lemma SentWanted(a: Agent, i: nat)
    requires QueuesWanted(a) && AsksOwn(a) && Chained(a) && Enabled(a, Send(i))
    ensures QueuesWanted(Sent(a, i))
  {
    hide Chained, NoRepeats;
    var b, sent := Sent(a, i), a.entries[i].wait.future;
    forall s, f | f in QueueOf(b, s) ensures IsWanted(b, s, f) {
      assert f in QueueOf(a, s) && IsWanted(a, s, f);
      if f == sent {
        assert Asks(b, i, f);
      } else {
        StillWanted(a, b, s, f, i);
      }
    }
    assert forall s :: QueueOf(b, s) == QueueOf(a, s);
    forall j | 0 <= j < |b.entries| && b.entries[j].wait.Sending? && b.entries[j].wait.future < |b.futures|
      ensures b.futures[b.entries[j].wait.future].number.None?
    {
      if a.entries[j].wait.future == sent {
        OneRunning(a, i, j);
      }
    }
  }

  /** What is queued after an action was queued before it; the future given up stays only if it was never sent. */
  predicate StaysQueued(a: Agent, b: Agent, s: string, f: nat, given: nat) {
    f in QueueOf(b, s) ==> f in QueueOf(a, s) && (f == given && f < |a.futures| ==> a.futures[f].number.None?)
  }

  lemma StoppedWanted(a: Agent, i: nat, b: Agent)
    requires QueuesWanted(a) && AsksOwn(a) && i < |a.entries| && !a.entries[i].wait.NotAsking?
    requires b.entries == a.entries[i := a.entries[i].(wait := NotAsking)] && b.futures == a.futures
    requires forall s, f :: StaysQueued(a, b, s, f, a.entries[i].wait.future)
    requires forall s :: NoRepeats(QueueOf(b, s))
    ensures QueuesWanted(b)
  {
    hide NoRepeats, QueueOf;
    forall s, f | f in QueueOf(b, s) ensures IsWanted(b, s, f) {
      assert StaysQueued(a, b, s, f, a.entries[i].wait.future);
      assert IsWanted(a, s, f);
      if f != a.entries[i].wait.future {
        StillWanted(a, b, s, f, i);
      }
    }
  }

  lemma CollectWanted(a: Agent, i: nat)
    requires QueuesWanted(a) && AsksOwn(a) && Enabled(a, Collect(i))
    ensures QueuesWanted(Collected(a, i))
  {
    hide NoRepeats;
    var b, own, f := Collected(a, i), a.entries[i].instance, a.entries[i].wait.future;
    WithoutOnce(QueueOf(a, own), f);
    WithoutOthers(QueueOf(a, own), f);
    forall s ensures NoRepeats(QueueOf(b, s)) {
      assert s != own ==> QueueOf(b, s) == QueueOf(a, s);
      assert NoRepeats(QueueOf(a, s));
    }
    forall s, g: nat ensures StaysQueued(a, b, s, g, f) {
      if g in QueueOf(b, s) && s != own {
        assert g in QueueOf(a, s) && IsWanted(a, s, g);
      }
    }
    StoppedWanted(a, i, b);
  }

  lemma SameWanted(a: Agent, b: Agent)
    requires QueuesWanted(a) && |b.entries| >= |a.entries| && |b.futures| == |a.futures|
    requires forall i :: 0 <= i < |a.entries| ==> b.entries[i].wait == a.entries[i].wait
    requires forall i :: |a.entries| <= i < |b.entries| ==> b.entries[i].wait.NotAsking?
    requires forall f :: 0 <= f < |a.futures| ==> b.futures[f].instance == a.futures[f].instance && b.futures[f].number == a.futures[f].number
    requires forall s, f :: f in QueueOf(b, s) ==> f in QueueOf(a, s)
    requires forall s :: NoRepeats(QueueOf(b, s))
    ensures QueuesWanted(b)
  {
    hide NoRepeats, QueueOf;
    forall s, f | f in QueueOf(b, s) ensures IsWanted(b, s, f) {
      assert IsWanted(a, s, f);
      if a.futures[f].number.Some? {
        var i :| Asks(a, i, f);
        assert Asks(b, i, f);
      }
    }
  }

  lemma RespondWanted(a: Agent, instance: string)
    requires QueuesWanted(a)
    ensures QueuesWanted(Responded(a, instance))
  {
    hide NoRepeats, AfterPop, FirstOpen;
    var b := Responded(a, instance);
    FirstOpenIn(a.futures, QueueOf(a, instance));
    PopNoRepeats(a.futures, QueueOf(a, instance));
    forall s ensures NoRepeats(QueueOf(b, s)) && forall f :: f in QueueOf(b, s) ==> f in QueueOf(a, s) {
      assert s != instance ==> QueueOf(b, s) == QueueOf(a, s);
      assert NoRepeats(QueueOf(a, s));
    }
    SameWanted(a, b);
  }

  lemma WantedStep(a: Agent, act: Action)
    requires QueuesWanted(a) && AsksOwn(a) && Chained(a) && Enabled(a, act)
    ensures QueuesWanted(Next(a, act))
  {
    hide QueuesWanted, Chained, AsksOwn, Requested, Responded, Sent, Collected;
    match act {
      case Request(i) => RequestWanted(a, i);
      case Send(i) => SentWanted(a, i);
      case SendFails(i) => SendFailsWanted(a, i);
      case Collect(i) => CollectWanted(a, i);
      case Respond(instance) => RespondWanted(a, instance);
      case Arrive(_) => QuietWanted(a, Next(a, act));
      case Begin(_) => QuietWanted(a, Next(a, act));
      case End(_, _) => QuietWanted(a, Next(a, act));
      case Expire(_) => QuietWanted(a, Next(a, act));
    }
  }

  lemma QuietWanted(a: Agent, b: Agent)
    requires QueuesWanted(a) && |b.entries| >= |a.entries| && |b.futures| == |a.futures| && b.queues == a.queues
    requires forall i :: 0 <= i < |a.entries| ==> b.entries[i].wait == a.entries[i].wait
    requires forall i :: |a.entries| <= i < |b.entries| ==> b.entries[i].wait.NotAsking?
    requires forall f :: 0 <= f < |a.futures| ==> b.futures[f].instance == a.futures[f].instance && b.futures[f].number == a.futures[f].number
    ensures QueuesWanted(b)
  {
    hide NoRepeats;
    SameQueues(a, b);
    SameWanted(a, b);
  }

  lemma SendFailsWanted(a: Agent, i: nat)
    requires QueuesWanted(a) && AsksOwn(a) && Enabled(a, SendFails(i))
    ensures QueuesWanted(Next(a, SendFails(i)))
  {
    hide NoRepeats;
    var b := Next(a, SendFails(i));
    SameQueues(a, b);
    forall s, g: nat ensures StaysQueued(a, b, s, g, a.entries[i].wait.future) {
    }
    StoppedWanted(a, i, b);
  }

  /**
   A finished request leaves the queue. In every interleaving each instance queues its own futures, each
   once, and only those that somebody still asks for or whose message was never sent.
   */
  lemma {:induction false} FinishedRequestsLeave(running: set<string>, acts: seq<Action>, s: string, f: nat)
    requires After(running, acts).Some?
    ensures var a := After(running, acts).value;
            && NoRepeats(QueueOf(a, s))
            && (f in QueueOf(a, s) ==>
                  f < |a.futures| && a.futures[f].instance == s
                  && (a.futures[f].number.None? || exists i :: 0 <= i < |a.entries| && Asks(a, i, f)))
  {
    WantedAlways(running, acts);
    var a := After(running, acts).value;
    hide After, NoRepeats;
    if f in QueueOf(a, s) {
      assert IsWanted(a, s, f);
    }
  }

  lemma {:induction false} WantedAlways(running: set<string>, acts: seq<Action>)
    requires After(running, acts).Some?
    ensures QueuesWanted(After(running, acts).value)
  {
    hide Next, QueuesWanted, Chained, AsksOwn;
    if acts == [] {
      IdleWanted(running);
    } else {
      var init := acts[..|acts| - 1];
      WantedAlways(running, init);
      RunInvariants(running, init);
      WantedStep(After(running, init).value, acts[|acts| - 1]);
    }
  }

  lemma IdleWanted(running: set<string>)
    ensures QueuesWanted(Idle(running))
  {
  }
}
