/**
 The stale-while-revalidate cache as a step protocol: each action is what the event loop runs
 between two awaits.
 */
module Snapshots {
  import opened Common

  /** A drainer task: created but not started, awaiting producer call `call`, or over. */
  datatype Task = Scheduled | Producing(call: nat) | Drained | Failed

  /**
   `value` is the number of the producer call whose result is cached. `calls[c]` is how many
   invalidations had happened when call `c` began; `direct` are the calls of refresh_now in flight.
   */
  datatype Cache = Cache(value: Option<nat>, ready: bool, pending: bool, current: Option<nat>, tasks: seq<Task>,
                         calls: seq<nat>, invalidations: nat, direct: set<nat>)

  const Fresh := Cache(None, false, false, None, [], [], 0, {})

  datatype Action =
    | Invalidate
    | Start(task: nat)
    | Finish(task: nat)
    | Fail(task: nat)
    | BeginDirect
    | FinishDirect(call: nat)
    | FailDirect(call: nat)

  predicate IsOver(task: Task) {
    task.Drained? || task.Failed?
  }

  /** No drainer is scheduled or producing. */
  predicate Idle(c: Cache) {
    c.current.None? || c.current.value >= |c.tasks| || IsOver(c.tasks[c.current.value])
  }

  predicate Enabled(c: Cache, a: Action) {
    match a
    case Start(t) => t < |c.tasks| && c.tasks[t].Scheduled?
    case Finish(t) => t < |c.tasks| && c.tasks[t].Producing?
    case Fail(t) => t < |c.tasks| && c.tasks[t].Producing?
    case FinishDirect(call) => call in c.direct
    case FailDirect(call) => call in c.direct
    case _ => true
  }

  /** The head of the drain loop: consume the flag and call the producer, or end. */
  function LoopHead(c: Cache, t: nat): Cache
    requires t < |c.tasks|
  {
    if c.pending
    then c.(pending := false, calls := c.calls + [c.invalidations], tasks := c.tasks[t := Producing(|c.calls|)])
    else c.(tasks := c.tasks[t := Drained])
  }

  function Invalidated(c: Cache): Cache {
    var marked := c.(pending := true, invalidations := c.invalidations + 1);
    if Idle(c) then marked.(current := Some(|c.tasks|), tasks := c.tasks + [Scheduled]) else marked
  }

  function Next(c: Cache, a: Action): Cache
    requires Enabled(c, a)
  {
    match a
    case Invalidate => Invalidated(c)
    case Start(t) => LoopHead(c, t)
    case Finish(t) => LoopHead(c.(value := Some(c.tasks[t].call), ready := true), t)
    case Fail(t) => c.(tasks := c.tasks[t := Failed])
    case BeginDirect => c.(calls := c.calls + [c.invalidations], direct := c.direct + {|c.calls|})
    case FinishDirect(call) => c.(value := Some(call), ready := true, direct := c.direct - {call})
    case FailDirect(call) => c.(direct := c.direct - {call})
  }

  /** The object: one method per stretch of code between two awaits. */
  class CachedSnapshot {
    var value: Option<nat>
    var ready: bool
    var refreshPending: bool
    var refreshTask: Option<nat>
    var tasks: seq<Task>
    var calls: seq<nat>
    var invalidations: nat
    var direct: set<nat>

    function State(): Cache
      reads this
    {
      Cache(value, ready, refreshPending, refreshTask, tasks, calls, invalidations, direct)
    }

    constructor ()
      ensures State() == Fresh
    {
      value, ready, refreshPending, refreshTask := None, false, false, None;
      tasks, calls, invalidations, direct := [], [], 0, {};
    }

    /** The value a reader gets, once there is one. */
    method Get() returns (v: Option<nat>)
      ensures v == if ready then value else None
    {
      v := if ready then value else None;
    }

    method Invalidate()
      modifies this
      ensures State() == Next(old(State()), Action.Invalidate)
    {
      invalidations := invalidations + 1;
      refreshPending := true;
      if refreshTask.None? || refreshTask.value >= |tasks| || IsOver(tasks[refreshTask.value]) {
        refreshTask := Some(|tasks|);
        tasks := tasks + [Scheduled];
      }
    }

    /** `while self._refresh_pending`: the next producer call, or the end of the drain. */
    method EnterLoop(t: nat)
      requires t < |tasks|
      modifies this
      ensures State() == LoopHead(old(State()), t)
    {
      if refreshPending {
        refreshPending := false;
        tasks := tasks[t := Producing(|calls|)];
        calls := calls + [invalidations];
      } else {
        tasks := tasks[t := Drained];
      }
    }

    method StartDrainer(t: nat)
      requires Enabled(State(), Start(t))
      modifies this
      ensures State() == Next(old(State()), Start(t))
    {
      EnterLoop(t);
    }

    /** The producer call of drainer `t` returned, or raised. */
    method ResumeDrainer(t: nat, raised: bool)
      requires t < |tasks| && tasks[t].Producing?
      modifies this
      ensures State() == Next(old(State()), if raised then Fail(t) else Finish(t))
    {
      if raised {
        tasks := tasks[t := Failed];
        return;
      }
      value := Some(tasks[t].call);
      ready := true;
      EnterLoop(t);
    }

    method BeginRefreshNow() returns (call: nat)
      modifies this
      ensures call == |old(calls)| && State() == Next(old(State()), BeginDirect)
    {
      call := |calls|;
      calls := calls + [invalidations];
      direct := direct + {call};
    }

    method EndRefreshNow(call: nat, raised: bool)
      requires call in direct
      modifies this
      ensures State() == Next(old(State()), if raised then FailDirect(call) else FinishDirect(call))
    {
      if !raised {
        value := Some(call);
        ready := true;
      }
      direct := direct - {call};
    }
  }

  // ---- runs ----

  /** The state after a run; None when some action was not possible. */
  function After(actions: seq<Action>): Option<Cache> {
    if actions == [] then Some(Fresh)
    else
      var before := After(actions[..|actions| - 1]);
      if before.Some? && Enabled(before.value, actions[|actions| - 1])
      then Some(Next(before.value, actions[|actions| - 1])) else None
  }

  /** Every task but the current one is over, and the current one exists. */
  ghost predicate OneDrainer(c: Cache) {
    && (c.current.Some? ==> c.current.value < |c.tasks|)
    && (forall i :: 0 <= i < |c.tasks| && !IsOver(c.tasks[i]) ==> c.current == Some(i))
  }

  /** Call numbers in use are calls that have begun, and there is a value once a refresh has succeeded. */
  ghost predicate CallsBegun(c: Cache) {
    && (c.ready <==> c.value.Some?)
    && (c.value.Some? ==> c.value.value < |c.calls|)
    && (forall i :: 0 <= i < |c.tasks| && c.tasks[i].Producing? ==> c.tasks[i].call < |c.calls|)
    && (forall d :: d in c.direct ==> d < |c.calls|)
  }

  lemma OneDrainerStep(c: Cache, a: Action)
    requires OneDrainer(c) && Enabled(c, a)
    ensures OneDrainer(Next(c, a))
  {
  }

  lemma CallsBegunStep(c: Cache, a: Action)
    requires CallsBegun(c) && Enabled(c, a)
    ensures CallsBegun(Next(c, a))
  {
  }

  lemma {:induction false} RunInvariants(actions: seq<Action>)
    requires After(actions).Some?
    ensures OneDrainer(After(actions).value) && CallsBegun(After(actions).value)
  {
    hide Next, OneDrainer, CallsBegun;
    if actions == [] {
      FreshInvariants();
    } else {
      RunInvariants(actions[..|actions| - 1]);
      OneDrainerStep(After(actions[..|actions| - 1]).value, actions[|actions| - 1]);
      CallsBegunStep(After(actions[..|actions| - 1]).value, actions[|actions| - 1]);
    }
  }

  lemma FreshInvariants()
    ensures OneDrainer(Fresh) && CallsBegun(Fresh)
  {
  }

  /** At most one drainer is scheduled or producing, in every interleaving, failures and direct refreshes included. */
  lemma AtMostOneDrainer(actions: seq<Action>, i: nat, j: nat)
    requires After(actions).Some? && i < |After(actions).value.tasks| && j < |After(actions).value.tasks|
    ensures var c := After(actions).value;
            !IsOver(c.tasks[i]) && !IsOver(c.tasks[j]) ==> i == j
  {
    hide After;
    RunInvariants(actions);
  }

  /** The cached value came from a producer call that began after the last invalidation. */
  predicate UpToDate(c: Cache) {
    c.value.Some? && c.value.value < |c.calls| && c.calls[c.value.value] == c.invalidations
  }

  predicate CurrentIs(c: Cache, task: Task -> bool) {
    c.current.Some? && c.current.value < |c.tasks| && task(c.tasks[c.current.value])
  }

  const HasFailed: Task -> bool := (t: Task) => t.Failed?
  const HasDrained: Task -> bool := (t: Task) => t.Drained?

  predicate IsWrite(a: Action) {
    a.Finish? || a.FinishDirect?
  }

  /** The action that stored the cached value: the last producer call to return. */
  function LastWrite(actions: seq<Action>): Option<Action> {
    if actions == [] then None
    else if IsWrite(actions[|actions| - 1]) then Some(actions[|actions| - 1])
    else LastWrite(actions[..|actions| - 1])
  }

  /** What the mark and the current drainer say about invalidations not yet served. */
  ghost predicate NothingLost(c: Cache) {
    && (forall k :: 0 <= k < |c.calls| ==> c.calls[k] <= c.invalidations)
    && (c.current.None? ==> c.invalidations == 0 && !c.pending)
    && (forall t :: c.current == Some(t) && t < |c.tasks| ==>
          && (c.tasks[t].Scheduled? ==> c.pending)
          && (c.tasks[t].Producing? ==>
                c.tasks[t].call < |c.calls| && (c.pending <==> c.calls[c.tasks[t].call] < c.invalidations))
          && (c.tasks[t].Drained? ==> !c.pending))
  }

  /** Who wrote last: a drainer that ended well wrote an up-to-date value, unless a direct refresh wrote after it. */
  ghost predicate WrittenBy(c: Cache, write: Option<Action>) {
    && (CurrentIs(c, HasDrained) ==> write.Some? && IsWrite(write.value) && (write.value.Finish? ==> UpToDate(c)))
    && (write.Some? && write.value.FinishDirect? ==> write.value.call < |c.calls| && c.value == Some(write.value.call))
  }

  lemma NothingLostStep(c: Cache, a: Action)
    requires NothingLost(c) && OneDrainer(c) && Enabled(c, a)
    ensures NothingLost(Next(c, a))
  {
  }

  lemma WrittenByStep(c: Cache, a: Action, write: Option<Action>)
    requires NothingLost(c) && OneDrainer(c) && CallsBegun(c) && WrittenBy(c, write) && Enabled(c, a)
    ensures WrittenBy(Next(c, a), if IsWrite(a) then Some(a) else write)
  {
  }

  lemma FreshLosesNothing()
    ensures NothingLost(Fresh) && WrittenBy(Fresh, None)
  {
  }

  lemma {:induction false} NothingLostAlways(actions: seq<Action>)
    requires After(actions).Some?
    ensures NothingLost(After(actions).value) && WrittenBy(After(actions).value, LastWrite(actions))
  {
    hide Next, NothingLost, WrittenBy;
    if actions == [] {
      FreshLosesNothing();
    } else {
      var init, last := actions[..|actions| - 1], actions[|actions| - 1];
      NothingLostAlways(init);
      RunInvariants(init);
      NothingLostStep(After(init).value, last);
      WrittenByStep(After(init).value, last, LastWrite(init));
    }
  }

  /**
   No lost invalidation, exactly. When no drainer is alive and the last one did not fail, a cache
   that was ever invalidated holds a value from a call begun after the last invalidation, except
   when the last call to return was a direct refresh begun before it.
   */
  lemma {:induction false} NoLostInvalidation(actions: seq<Action>)
    requires After(actions).Some? && Idle(After(actions).value) && After(actions).value.invalidations > 0
    requires !CurrentIs(After(actions).value, HasFailed)
    ensures var c, write := After(actions).value, LastWrite(actions);
            && write.Some? && (write.value.FinishDirect? ==> write.value.call < |c.calls|)
            && (!UpToDate(c) <==> write.value.FinishDirect? && c.calls[write.value.call] < c.invalidations)
  {
    hide After;
    RunInvariants(actions);
    NothingLostAlways(actions);
  }

  /**
   A producer failure ends the drainer, and leaves the mark set exactly when an invalidation arrived
   during the failing call: nothing then serves it until the next one.
   */
  lemma {:induction false} FailureLeavesMark(actions: seq<Action>, t: nat)
    requires After(actions).Some? && Enabled(After(actions).value, Fail(t))
    ensures var c := After(actions).value;
            var failed := Next(c, Fail(t));
            && Idle(failed) && c.tasks[t].call < |c.calls|
            && (failed.pending <==> c.calls[c.tasks[t].call] < c.invalidations)
  {
    hide After;
    RunInvariants(actions);
    NothingLostAlways(actions);
  }

  lemma AfterOne(actions: seq<Action>, a: Action)
    requires After(actions).Some? && Enabled(After(actions).value, a)
    ensures After(actions + [a]) == Some(Next(After(actions).value, a))
  {
    assert (actions + [a])[..|actions|] == actions;
  }

  lemma DrainerCalling()
    ensures After([Invalidate, Start(0)]) == Some(Cache(None, false, false, Some(0), [Producing(0)], [1], 1, {}))
  {
    assert [] + [Invalidate] == [Invalidate] && [Invalidate] + [Start(0)] == [Invalidate, Start(0)];
    AfterOne([], Invalidate);
    var c1 := After([Invalidate]).value;
    assert c1 == Cache(None, false, true, Some(0), [Scheduled], [], 1, {});
    AfterOne([Invalidate], Start(0));
    var c2 := Next(c1, Start(0));
    assert c2.tasks == [Producing(0)] && c2.calls == [1];
  }

  /** The mark does stay: an invalidation comes during a call that then fails, and nothing serves it. */
  lemma FailureCanLeaveMark()
    ensures var run := [Invalidate, Start(0), Invalidate, Fail(0)];
            && After(run).Some? && Idle(After(run).value) && After(run).value.pending && After(run).value.value.None?
  {
    DrainerCalling();
    hide After;
    var calling := [Invalidate, Start(0)];
    AfterOne(calling, Invalidate);
    var marked := After(calling + [Invalidate]).value;
    assert marked.pending && marked.value.None? && marked.current == Some(0) && marked.tasks == [Producing(0)];
    AfterOne(calling + [Invalidate], Fail(0));
    var failed := Next(marked, Fail(0));
    assert failed.tasks == [Failed];
    var run := [Invalidate, Start(0), Invalidate, Fail(0)];
    assert calling + [Invalidate] + [Fail(0)] == run;
    assert After(run) == Some(failed);
  }

  function InvalidateTimes(c: Cache, k: nat): Cache {
    if k == 0 then c else Invalidated(InvalidateTimes(c, k - 1))
  }

  lemma {:induction false} InvalidateTimesWhileProducing(c: Cache, t: nat, k: nat)
    requires c.current == Some(t) && t < |c.tasks| && c.tasks[t].Producing?
    ensures InvalidateTimes(c, k) == if k == 0 then c else c.(pending := true, invalidations := c.invalidations + k)
  {
    if k > 0 {
      InvalidateTimesWhileProducing(c, t, k - 1);
    }
  }

  /**
   Coalescing. Any positive number of invalidations during one refresh cause exactly one more
   producer call; when that returns too the drainer ends with an up-to-date value.
   */
  lemma {:induction false} BurstCausesOneMoreCall(c: Cache, t: nat, k: nat)
    requires c.current == Some(t) && t < |c.tasks| && c.tasks[t].Producing? && k > 0
    ensures var burst := InvalidateTimes(c, k);
            && Enabled(burst, Finish(t)) && |burst.calls| == |c.calls|
            && var second := Next(burst, Finish(t));
            && |second.calls| == |c.calls| + 1 && Enabled(second, Finish(t))
            && var done := Next(second, Finish(t));
            |done.calls| == |c.calls| + 1 && Idle(done) && !done.pending && UpToDate(done)
  {
    InvalidateTimesWhileProducing(c, t, k);
  }

  /** The exception arises: a direct refresh begun before an invalidation returns after the drain and overwrites its value. */
  lemma OverlappingRefreshGoesStale()
    ensures var run := [BeginDirect, Invalidate, Start(0), Finish(0), FinishDirect(0)];
            && After(run).Some? && Idle(After(run).value) && After(run).value.invalidations == 1
            && !UpToDate(After(run).value) && !CurrentIs(After(run).value, HasFailed)
  {
    var r1, r2 := [BeginDirect], [BeginDirect, Invalidate];
    var r3, r4 := r2 + [Start(0)], r2 + [Start(0), Finish(0)];
    assert [] + [BeginDirect] == r1 && r1 + [Invalidate] == r2 && r3 + [Finish(0)] == r4;
    assert r4 + [FinishDirect(0)] == [BeginDirect, Invalidate, Start(0), Finish(0), FinishDirect(0)];
    AfterOne([], BeginDirect);
    AfterOne(r1, Invalidate);
    var c2 := After(r2).value;
    assert c2.tasks == [Scheduled] && c2.calls == [0] && c2.direct == {0} && c2.pending && c2.current == Some(0);
    AfterOne(r2, Start(0));
    var c3 := After(r3).value;
    assert c3.tasks == [Producing(1)] && c3.calls == [0, 1] && c3.direct == {0} && !c3.pending;
    AfterOne(r3, Finish(0));
    var c4 := After(r4).value;
    assert c4.tasks == [Drained] && c4.calls == [0, 1] && c4.direct == {0} && c4.current == Some(0);
    AfterOne(r4, FinishDirect(0));
  }
}
