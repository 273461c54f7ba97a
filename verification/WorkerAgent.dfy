/**
 The worker's per-instance tick chain and its approval queue, as a step protocol. An action is what
 the event loop runs between two awaits; asking for approval is two of them, because the request is
 queued before its message has been sent.
 */
module Worker {
  import opened Common

  datatype Status = Waiting | Running | Over(raised: bool)

  /** What an entry's task is waiting for: its request to be sent, or its answer. */
  datatype Wait = NotAsking | Sending(future: nat) | Awaiting(future: nat)

  /** A tick-batch entry's task: whom it follows, how far it is, and what it waits for. */
  datatype TickEntry = TickEntry(instance: string, prev: Option<nat>, status: Status, wait: Wait)

  /** `number` is which request of its instance was sent for the future; `response` which answer it got. */
  datatype Outcome = Open | Answered(response: nat) | TimedOut
  datatype Future = Future(instance: string, number: Option<nat>, outcome: Outcome)

  /** `requests` counts the messages sent, `responses` the messages received, per instance. */
  datatype Agent = Agent(running: set<string>, entries: seq<TickEntry>, tails: map<string, nat>, futures: seq<Future>,
                         queues: map<string, seq<nat>>, requests: map<string, nat>, responses: map<string, nat>)

  function Idle(running: set<string>): Agent {
    Agent(running, [], map[], [], map[], map[], map[])
  }

  datatype Action =
    | Arrive(instance: string)
    | Begin(entry: nat)
    | End(entry: nat, raised: bool)
    | Request(entry: nat)
    | Send(entry: nat)
    | SendFails(entry: nat)
    | Respond(instance: string)
    | Expire(entry: nat)
    | Collect(entry: nat)

  function CountOf(m: map<string, nat>, instance: string): nat {
    if instance in m then m[instance] else 0
  }

  function QueueOf(a: Agent, instance: string): seq<nat> {
    if instance in a.queues then a.queues[instance] else []
  }

  function TailOf(a: Agent, instance: string): Option<nat> {
    if instance in a.tails then Some(a.tails[instance]) else None
  }

  predicate IsOver(a: Agent, entry: Option<nat>) {
    entry.None? || (entry.value < |a.entries| && a.entries[entry.value].status.Over?)
  }

  predicate IsOpen(futures: seq<Future>, f: nat) {
    f < |futures| && futures[f].outcome.Open?
  }

  predicate Enabled(a: Agent, act: Action) {
    match act
    case Arrive(_) => true
    case Begin(i) => i < |a.entries| && a.entries[i].status.Waiting? && IsOver(a, a.entries[i].prev)
    case End(i, _) => i < |a.entries| && a.entries[i].status.Running? && a.entries[i].wait.NotAsking?
    case Request(i) => i < |a.entries| && a.entries[i].status.Running? && a.entries[i].wait.NotAsking?
    case Send(i) => i < |a.entries| && a.entries[i].wait.Sending? && a.entries[i].wait.future < |a.futures|
    case SendFails(i) => i < |a.entries| && a.entries[i].wait.Sending?
    case Respond(_) => true
    case Expire(i) => i < |a.entries| && a.entries[i].wait.Awaiting? && IsOpen(a.futures, a.entries[i].wait.future)
    case Collect(i) => i < |a.entries| && a.entries[i].wait.Awaiting? && !IsOpen(a.futures, a.entries[i].wait.future)
  }

  /** What is left of a queue after discarding futures that are already done and taking the first open one. */
  function AfterPop(futures: seq<Future>, queue: seq<nat>): seq<nat> {
    if queue == [] then []
    else if IsOpen(futures, queue[0]) then queue[1..]
    else AfterPop(futures, queue[1..])
  }

  function FirstOpen(futures: seq<Future>, queue: seq<nat>): Option<nat> {
    if queue == [] then None
    else if IsOpen(futures, queue[0]) then Some(queue[0])
    else FirstOpen(futures, queue[1..])
  }

  function Without(queue: seq<nat>, f: nat): seq<nat> {
    if queue == [] then []
    else if queue[0] == f then queue[1..]
    else [queue[0]] + Without(queue[1..], f)
  }

  function Arrived(a: Agent, instance: string): Agent {
    if instance in a.running
    then a.(entries := a.entries + [TickEntry(instance, TailOf(a, instance), Waiting, NotAsking)],
            tails := a.tails[instance := |a.entries|])
    else a
  }

  /** The future is queued; its message is on the way. */
  function Requested(a: Agent, i: nat): Agent
    requires i < |a.entries|
  {
    var e := a.entries[i];
    a.(entries := a.entries[i := e.(wait := Sending(|a.futures|))],
       futures := a.futures + [Future(e.instance, None, Open)],
       queues := a.queues[e.instance := QueueOf(a, e.instance) + [|a.futures|]])
  }

  function Sent(a: Agent, i: nat): Agent
    requires Enabled(a, Send(i))
  {
    var e := a.entries[i];
    var f, number := e.wait.future, CountOf(a.requests, e.instance);
    a.(entries := a.entries[i := e.(wait := Awaiting(f))],
       futures := a.futures[f := a.futures[f].(number := Some(number))],
       requests := a.requests[e.instance := number + 1])
  }

  /** A response is matched to the first open future of its instance; without one it is only counted. */
  function Responded(a: Agent, instance: string): Agent {
    var queue := QueueOf(a, instance);
    var response := CountOf(a.responses, instance);
    var first := FirstOpen(a.futures, queue);
    a.(futures := if first.Some? && first.value < |a.futures|
                  then a.futures[first.value := a.futures[first.value].(outcome := Answered(response))] else a.futures,
       queues := a.queues[instance := AfterPop(a.futures, queue)],
       responses := a.responses[instance := response + 1])
  }

  function Collected(a: Agent, i: nat): Agent
    requires Enabled(a, Collect(i))
  {
    var e := a.entries[i];
    a.(entries := a.entries[i := e.(wait := NotAsking)],
       queues := a.queues[e.instance := Without(QueueOf(a, e.instance), e.wait.future)])
  }

  function Next(a: Agent, act: Action): Agent
    requires Enabled(a, act)
  {
    match act
    case Arrive(instance) => Arrived(a, instance)
    case Begin(i) => a.(entries := a.entries[i := a.entries[i].(status := Running)])
    case End(i, raised) => a.(entries := a.entries[i := a.entries[i].(status := Over(raised))])
    case Request(i) => Requested(a, i)
    case Send(i) => Sent(a, i)
    case SendFails(i) => a.(entries := a.entries[i := a.entries[i].(wait := NotAsking)])
    case Respond(instance) => Responded(a, instance)
    case Expire(i) =>
      var f := a.entries[i].wait.future;
      a.(futures := a.futures[f := a.futures[f].(outcome := TimedOut)])
    case Collect(i) => Collected(a, i)
  }

  function ArriveAll(a: Agent, instances: seq<string>): Agent {
    if instances == [] then a else Arrived(ArriveAll(a, instances[..|instances| - 1]), instances[|instances| - 1])
  }

  /** The agent: one method per stretch of code between two awaits. */
  class WorkerAgent {
    var runningInstances: set<string>
    var entries: seq<TickEntry>
    var tickTails: map<string, nat>
    var futures: seq<Future>
    var pendingResponses: map<string, seq<nat>>
    var requests: map<string, nat>
    var responses: map<string, nat>

    function State(): Agent
      reads this
    {
      Agent(runningInstances, entries, tickTails, futures, pendingResponses, requests, responses)
    }

    constructor (running: set<string>)
      ensures State() == Idle(running)
    {
      runningInstances, entries, tickTails, futures := running, [], map[], [];
      pendingResponses, requests, responses := map[], map[], map[];
    }

    /** Chain every entry of a known instance behind that instance's last one. */
    method HandleTickBatch(ticks: seq<string>)
      modifies this
      ensures State() == ArriveAll(old(State()), ticks)
    {
      ghost var start := State();
      for k := 0 to |ticks|
        invariant State() == ArriveAll(start, ticks[..k])
      {
        assert ticks[..k + 1][..k] == ticks[..k];
        var instance := ticks[k];
        if instance in runningInstances {
          var prev := if instance in tickTails then Some(tickTails[instance]) else None;
          tickTails := tickTails[instance := |entries|];
          entries := entries + [TickEntry(instance, prev, Waiting, NotAsking)];
        }
      }
      assert ticks[..|ticks|] == ticks;
    }

    /** The previous entry's task is over, whether it raised or not: run this one. */
    method RunEntry(i: nat)
      requires Enabled(State(), Begin(i))
      modifies this
      ensures State() == Next(old(State()), Begin(i))
    {
      entries := entries[i := entries[i].(status := Running)];
    }

    method FinishEntry(i: nat, raised: bool)
      requires Enabled(State(), End(i, raised))
      modifies this
      ensures State() == Next(old(State()), End(i, raised))
    {
      entries := entries[i := entries[i].(status := Over(raised))];
    }

    /** Queue a future for the answer, and start sending the request. */
    method RequestSignalApproval(i: nat)
      requires Enabled(State(), Request(i))
      modifies this
      ensures State() == Next(old(State()), Request(i))
    {
      var instance := entries[i].instance;
      var queue := if instance in pendingResponses then pendingResponses[instance] else [];
      pendingResponses := pendingResponses[instance := queue + [|futures|]];
      entries := entries[i := entries[i].(wait := Sending(|futures|))];
      futures := futures + [Future(instance, None, Open)];
    }

    /** The send returned, and the wait for an answer begins; or it raised, and the future stays queued. */
    method ResumeAfterSend(i: nat, raised: bool)
      requires Enabled(State(), if raised then SendFails(i) else Send(i))
      modifies this
      ensures State() == Next(old(State()), if raised then SendFails(i) else Send(i))
    {
      if raised {
        entries := entries[i := entries[i].(wait := NotAsking)];
        return;
      }
      var instance, f := entries[i].instance, entries[i].wait.future;
      var number := if instance in requests then requests[instance] else 0;
      futures := futures[f := futures[f].(number := Some(number))];
      entries := entries[i := entries[i].(wait := Awaiting(f))];
      requests := requests[instance := number + 1];
    }

    /** Pop futures until one is not done yet, and resolve it. */
    method HandleSignalResponse(instance: string)
      modifies this
      ensures State() == Next(old(State()), Respond(instance))
    {
      var queue := if instance in pendingResponses then pendingResponses[instance] else [];
      var response := if instance in responses then responses[instance] else 0;
      var first: Option<nat> := None;
      ghost var all := queue;
      while queue != [] && first.None?
        invariant if first.None? then AfterPop(futures, queue) == AfterPop(futures, all) && FirstOpen(futures, queue) == FirstOpen(futures, all)
                  else queue == AfterPop(futures, all) && first == FirstOpen(futures, all)
        decreases |queue|
      {
        if IsOpen(futures, queue[0]) {
          first := Some(queue[0]);
        }
        queue := queue[1..];
      }
      if first.Some? && first.value < |futures| {
        futures := futures[first.value := futures[first.value].(outcome := Answered(response))];
      }
      pendingResponses := pendingResponses[instance := queue];
      responses := responses[instance := response + 1];
    }

    /** The awaiting coroutine resumes, with an answer or a timeout, and leaves the queue. */
    method FinishRequest(i: nat)
      requires Enabled(State(), Collect(i))
      modifies this
      ensures State() == Next(old(State()), Collect(i))
    {
      var instance := entries[i].instance;
      var queue := if instance in pendingResponses then pendingResponses[instance] else [];
      pendingResponses := pendingResponses[instance := Without(queue, entries[i].wait.future)];
      entries := entries[i := entries[i].(wait := NotAsking)];
    }
  }

  // ---- runs ----

  function After(running: set<string>, acts: seq<Action>): Option<Agent> {
    if acts == [] then Some(Idle(running))
    else
      var before := After(running, acts[..|acts| - 1]);
      if before.Some? && Enabled(before.value, acts[|acts| - 1]) then Some(Next(before.value, acts[|acts| - 1])) else None
  }

  /** The last entry of an instance among the first `n`. */
  function LastEntry(entries: seq<TickEntry>, instance: string, n: nat): Option<nat>
    requires n <= |entries|
  {
    if n == 0 then None
    else if entries[n - 1].instance == instance then Some(n - 1)
    else LastEntry(entries, instance, n - 1)
  }

  /** Entries follow their instance's previous entry, and only start once it is over. */
  ghost predicate Chained(a: Agent) {
    && (forall i :: 0 <= i < |a.entries| ==> a.entries[i].prev == LastEntry(a.entries, a.entries[i].instance, i))
    && (forall s :: TailOf(a, s) == LastEntry(a.entries, s, |a.entries|))
    && (forall i :: 0 <= i < |a.entries| && !a.entries[i].status.Waiting? ==> IsOver(a, a.entries[i].prev))
  }

  /** Only running entries ask, and each waits for a future of its own instance, the newest one. */
  ghost predicate AsksOwn(a: Agent) {
    forall i :: 0 <= i < |a.entries| && !a.entries[i].wait.NotAsking? ==>
      && a.entries[i].status.Running? && a.entries[i].wait.future < |a.futures|
      && a.futures[a.entries[i].wait.future].instance == a.entries[i].instance
      && forall g :: a.entries[i].wait.future < g < |a.futures| ==> a.futures[g].instance != a.entries[i].instance
  }

  lemma {:induction false} LastEntryFacts(entries: seq<TickEntry>, instance: string, n: nat)
    requires n <= |entries|
    ensures match LastEntry(entries, instance, n)
            case None => forall j :: 0 <= j < n ==> entries[j].instance != instance
            case Some(p) => p < n && entries[p].instance == instance && forall j :: p < j < n ==> entries[j].instance != instance
  {
    if n > 0 && entries[n - 1].instance != instance {
      LastEntryFacts(entries, instance, n - 1);
    }
  }

  /** The chain depends only on which instance each entry belongs to. */
  lemma {:induction false} LastEntrySame(before: seq<TickEntry>, after: seq<TickEntry>, instance: string, n: nat)
    requires n <= |before| && n <= |after|
    requires forall j :: 0 <= j < n ==> before[j].instance == after[j].instance
    ensures LastEntry(before, instance, n) == LastEntry(after, instance, n)
  {
    if n > 0 {
      LastEntrySame(before, after, instance, n - 1);
    }
  }

  /** Changing one entry's progress keeps the chain, as long as it does not start early or go back. */
  lemma UpdateKeepsChain(a: Agent, i: nat, e: TickEntry, b: Agent)
    requires Chained(a) && i < |a.entries| && b.entries == a.entries[i := e] && b.tails == a.tails
    requires e.instance == a.entries[i].instance && e.prev == a.entries[i].prev
    requires a.entries[i].status.Over? ==> e.status.Over?
    requires !e.status.Waiting? ==> IsOver(a, e.prev)
    ensures Chained(b)
  {
    hide LastEntry;
    forall k | 0 <= k < |b.entries| ensures b.entries[k].prev == LastEntry(b.entries, b.entries[k].instance, k) {
      LastEntrySame(a.entries, b.entries, b.entries[k].instance, k);
    }
    forall s ensures TailOf(b, s) == LastEntry(b.entries, s, |b.entries|) {
      LastEntrySame(a.entries, b.entries, s, |a.entries|);
      assert TailOf(a, s) == TailOf(b, s);
    }
  }

  lemma LastEntryAppend(entries: seq<TickEntry>, e: TickEntry, instance: string)
    ensures LastEntry(entries + [e], instance, |entries| + 1)
         == if e.instance == instance then Some(|entries|) else LastEntry(entries, instance, |entries|)
  {
    LastEntrySame(entries, entries + [e], instance, |entries|);
  }

  lemma ArriveKeepsChain(a: Agent, instance: string)
    requires Chained(a)
    ensures Chained(Arrived(a, instance))
  {
    hide LastEntry;
    var b, e := Arrived(a, instance), TickEntry(instance, TailOf(a, instance), Waiting, NotAsking);
    if instance in a.running {
      assert b.entries == a.entries + [e];
      forall k | 0 <= k < |b.entries| ensures b.entries[k].prev == LastEntry(b.entries, b.entries[k].instance, k) {
        LastEntrySame(a.entries, b.entries, b.entries[k].instance, k);
      }
      forall s ensures TailOf(b, s) == LastEntry(b.entries, s, |b.entries|) {
        LastEntryAppend(a.entries, e, s);
        assert TailOf(a, s) == LastEntry(a.entries, s, |a.entries|);
      }
      forall k | 0 <= k < |b.entries| && !b.entries[k].status.Waiting? ensures IsOver(b, b.entries[k].prev) {
        assert IsOver(a, a.entries[k].prev);
      }
    }
  }

  lemma ChainedStep(a: Agent, act: Action)
    requires Chained(a) && AsksOwn(a) && Enabled(a, act)
    ensures Chained(Next(a, act))
  {
    hide Chained;
    var b := Next(a, act);
    match act {
      case Arrive(instance) => ArriveKeepsChain(a, instance);
      case Begin(i) => UpdateKeepsChain(a, i, b.entries[i], b);
      case End(i, _) => StartedIsReady(a, i); UpdateKeepsChain(a, i, b.entries[i], b);
      case Request(i) => StartedIsReady(a, i); UpdateKeepsChain(a, i, b.entries[i], b);
      case Send(i) => StartedIsReady(a, i); UpdateKeepsChain(a, i, b.entries[i], b);
      case SendFails(i) => StartedIsReady(a, i); UpdateKeepsChain(a, i, b.entries[i], b);
      case Respond(_) => SameEntries(a, b);
      case Expire(_) => SameEntries(a, b);
      case Collect(i) => StartedIsReady(a, i); UpdateKeepsChain(a, i, b.entries[i], b);
    }
  }

  lemma StartedIsReady(a: Agent, i: nat)
    requires Chained(a) && i < |a.entries|
    ensures !a.entries[i].status.Waiting? ==> IsOver(a, a.entries[i].prev)
  {
  }

  lemma SameEntries(a: Agent, b: Agent)
    requires Chained(a) && b.entries == a.entries && b.tails == a.tails
    ensures Chained(b)
  {
    hide LastEntry;
    assert forall s :: TailOf(b, s) == TailOf(a, s);
  }

  lemma RequestAsksOwn(a: Agent, i: nat)
    requires AsksOwn(a) && Chained(a) && Enabled(a, Request(i))
    ensures AsksOwn(Requested(a, i))
  {
    hide Chained, QueueOf;
    forall j | 0 <= j < |a.entries| && j != i && !a.entries[j].wait.NotAsking?
      ensures a.entries[j].instance != a.entries[i].instance
    {
      OneRunning(a, i, j);
    }
  }

  lemma RespondAsksOwn(a: Agent, instance: string)
    requires AsksOwn(a)
    ensures AsksOwn(Responded(a, instance))
  {
    hide AfterPop, FirstOpen, QueueOf;
  }

  lemma AsksOwnStep(a: Agent, act: Action)
    requires AsksOwn(a) && Chained(a) && Enabled(a, act)
    ensures AsksOwn(Next(a, act))
  {
    hide Chained, QueueOf, Requested, Responded;
    match act {
      case Request(i) => RequestAsksOwn(a, i);
      case Respond(instance) => RespondAsksOwn(a, instance);
      case Arrive(_) =>
      case Begin(_) =>
      case End(_, _) =>
      case Send(_) =>
      case SendFails(_) =>
      case Expire(_) =>
      case Collect(_) =>
    }
  }

  lemma {:induction false} EarlierIsOver(a: Agent, i: nat, j: nat)
    requires Chained(a) && i < j < |a.entries| && a.entries[i].instance == a.entries[j].instance
    requires !a.entries[j].status.Waiting?
    ensures a.entries[i].status.Over?
    decreases j
  {
    hide LastEntry;
    var instance := a.entries[j].instance;
    LastEntryFacts(a.entries, instance, j);
    var p := a.entries[j].prev.value;
    assert IsOver(a, Some(p));
    if i < p {
      EarlierIsOver(a, i, p);
    }
  }

  /** Two running entries of one instance are one entry. */
  lemma OneRunning(a: Agent, i: nat, j: nat)
    requires Chained(a) && i < |a.entries| && j < |a.entries| && a.entries[i].status.Running? && a.entries[j].status.Running?
    ensures a.entries[i].instance == a.entries[j].instance ==> i == j
  {
    hide Chained;
    if a.entries[i].instance == a.entries[j].instance {
      if i < j {
        EarlierIsOver(a, i, j);
      } else if j < i {
        EarlierIsOver(a, j, i);
      }
    }
  }

  lemma {:induction false} RunInvariants(running: set<string>, acts: seq<Action>)
    requires After(running, acts).Some?
    ensures Chained(After(running, acts).value) && AsksOwn(After(running, acts).value)
  {
    hide Next, Chained, AsksOwn;
    if acts == [] {
      IdleInvariants(running);
    } else {
      var before := After(running, acts[..|acts| - 1]).value;
      RunInvariants(running, acts[..|acts| - 1]);
      ChainedStep(before, acts[|acts| - 1]);
      AsksOwnStep(before, acts[|acts| - 1]);
    }
  }

  lemma IdleInvariants(running: set<string>)
    ensures Chained(Idle(running)) && AsksOwn(Idle(running))
  {
  }

  // ---- one at a time ----

  /**
   Serialization. In every interleaving, an entry that has started finds every earlier entry of its
   instance over, raised or not: entries of one instance run in arrival order and never overlap.
   */
  lemma {:induction false} EntriesRunInOrder(running: set<string>, acts: seq<Action>, i: nat, j: nat)
    requires After(running, acts).Some? && i < j < |After(running, acts).value.entries|
    ensures var a := After(running, acts).value;
            a.entries[i].instance == a.entries[j].instance && !a.entries[j].status.Waiting? ==> a.entries[i].status.Over?
  {
    hide After, Chained;
    RunInvariants(running, acts);
    var a := After(running, acts).value;
    if a.entries[i].instance == a.entries[j].instance && !a.entries[j].status.Waiting? {
      EarlierIsOver(a, i, j);
    }
  }

  /** At most one approval request of an instance is being sent or awaited at any time. */
  lemma {:induction false} OneRequestOutstanding(running: set<string>, acts: seq<Action>, i: nat, j: nat)
    requires After(running, acts).Some?
    requires var a := After(running, acts).value;
             && i < |a.entries| && j < |a.entries| && !a.entries[i].wait.NotAsking? && !a.entries[j].wait.NotAsking?
             && a.entries[i].instance == a.entries[j].instance
    ensures i == j
  {
    hide After, Chained;
    RunInvariants(running, acts);
    OneRunning(After(running, acts).value, i, j);
  }

  /** The requests an instance has sent are numbered from 0 in the order their futures were queued. */
  ghost predicate Numbered(a: Agent) {
    && (forall f :: 0 <= f < |a.futures| && a.futures[f].number.Some? ==>
          a.futures[f].number.value < CountOf(a.requests, a.futures[f].instance))
    && (forall f, g :: 0 <= f < g < |a.futures| && a.futures[f].instance == a.futures[g].instance
                       && a.futures[f].number.Some? && a.futures[g].number.Some? ==>
          a.futures[f].number.value < a.futures[g].number.value)
  }

  lemma NumberedStep(a: Agent, act: Action)
    requires Numbered(a) && AsksOwn(a) && Enabled(a, act)
    ensures Numbered(Next(a, act))
  {
    hide AfterPop, FirstOpen, Without;
  }

  /** In every interleaving the requests an instance sends are numbered in the order it asked. */
  lemma {:induction false} RequestsAreNumbered(running: set<string>, acts: seq<Action>)
    requires After(running, acts).Some?
    ensures Numbered(After(running, acts).value)
  {
    hide Next, Numbered, AsksOwn, Chained;
    if acts == [] {
      IdleNumbered(running);
    } else {
      RequestsAreNumbered(running, acts[..|acts| - 1]);
      RunInvariants(running, acts[..|acts| - 1]);
      NumberedStep(After(running, acts[..|acts| - 1]).value, acts[|acts| - 1]);
    }
  }

  lemma IdleNumbered(running: set<string>)
    ensures Numbered(Idle(running))
  {
  }
}
