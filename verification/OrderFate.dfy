/** What becomes of an order at a row, and for how long it stays open. */
module OrderFate {
  import opened Common
  import opened Market
  import opened Orders
  import opened EngineSpec
  import opened OrderProofs
  import opened TimingProofs
  import opened FillProofs
  import opened Assignments
  import opened Marks

  // ---- the cases of one attempt ----

  /** A leg in the queue meets its price on its own bar: a limit by a strict cross, an option by its quote. */
  predicate Executes(env: Env, leg: Leg, triggered: bool, own: Bar, now: int) {
    var quote := env.optionQuote(leg.symbol, SideOf(leg), now);
    if leg.orderType.MarketOrder? || triggered
    then IsOption(env, leg.symbol) ==> quote.Some? && quote.value > 0.0
    else
      && leg.orderType.LimitOrder? && leg.limitPrice.Some?
      && if IsOption(env, leg.symbol) then quote.Some? && NoWorse(SideOf(leg), quote.value, leg.limitPrice.value)
         else StrictlyCrosses(SideOf(leg), own, leg.limitPrice.value)
  }

  /** A stop of either side trips when its bar trades through the stop price; a gap across it does not trip it. */
  predicate Trips(leg: Leg, triggered: bool, own: Bar) {
    !triggered && IsStop(leg) && leg.stopPrice.Some? && own.low <= leg.stopPrice.value && leg.stopPrice.value <= own.high
  }

  lemma AttemptStatus(env: Env, po: PendingOrder, row: Bar, draws: nat)
    ensures var own := FillBar(env, po.leg.symbol, row);
            var a := TryFillAt(env, po, row, draws);
            && (a.Executed? <==> Executes(env, po.leg, po.stopTriggered, own, row.time + env.duration))
            && (a.Triggered? <==> Trips(po.leg, po.stopTriggered, own))
            && (a.Triggered? ==> a.leg == AfterTrigger(po.leg))
  {
    hide SumFees, Slipped, BaseMarketPrice, VolumeImpact, Abs, SlippedLimit, FillBar;
  }

  /** A DAY order past its first attempt meets a row of a later date. */
  predicate OutOfDate(po: PendingOrder, row: Bar) {
    po.leg.timeInForce.Day? && po.attempted && DateOf(row.time) > po.createdDate
  }

  predicate Executed(env: Env, po: PendingOrder, row: Bar) {
    !OutOfDate(po, row) && Executes(env, po.leg, po.stopTriggered, FillBar(env, po.leg.symbol, row), row.time + env.duration)
  }

  predicate Tripped(env: Env, po: PendingOrder, row: Bar) {
    !OutOfDate(po, row) && Trips(po.leg, po.stopTriggered, FillBar(env, po.leg.symbol, row))
  }

  /** Neither out of date, nor executed, nor tripped. */
  predicate Unmet(env: Env, po: PendingOrder, row: Bar) {
    !OutOfDate(po, row) && !Executed(env, po, row) && !Tripped(env, po, row)
  }

  /** The order outlives the attempt: its stop trips, or it is unmet, on anything but an option, and DAY or GTC. */
  predicate Waits(env: Env, po: PendingOrder, row: Bar) {
    Tripped(env, po, row)
    || (Unmet(env, po, row) && !IsOption(env, po.leg.symbol) && (po.leg.timeInForce.Day? || po.leg.timeInForce.Gtc?))
  }

  /** How it is queued again. */
  function Requeued(env: Env, po: PendingOrder, row: Bar, n: nat): PendingOrder {
    var tripped := Tripped(env, po, row);
    PendingOrder(po.id, if tripped then AfterTrigger(po.leg) else po.leg, n + 1, po.stopTriggered || tripped, po.createdDate, true)
  }

  /** The event says that the order was executed at row `n`: filled, or refused for want of buying power. */
  predicate ExecutedBy(e: Event, id: nat, n: nat) {
    || (e.Filled? && e.id == id && e.row == n)
    || (e.Rejected? && e.id == id && e.row == n && IsPower(e.reason))
  }

  /** Why an order that is neither executed nor kept is rejected. */
  predicate FailsFor(env: Env, po: PendingOrder, row: Bar, reason: Reason) {
    match reason
    case DayExpired => OutOfDate(po, row)
    case NoOptionPrice => Unmet(env, po, row) && IsOption(env, po.leg.symbol)
    case NoFillWithinTimeout =>
      Unmet(env, po, row) && !IsOption(env, po.leg.symbol) && (po.leg.timeInForce.Ioc? || po.leg.timeInForce.Unset?)
    case UnknownTimeInForce => Unmet(env, po, row) && !IsOption(env, po.leg.symbol) && po.leg.timeInForce.Unknown?
    case _ => false
  }

  lemma AttemptFate(env: Env, st: State, po: PendingOrder, n: nat, row: Bar)
    requires po.scheduledFor <= n
    ensures var after := AttemptOrder(env, st, po, n, row);
            && (Waits(env, po, row) ==> after.log == st.log && after.pending == st.pending + [Requeued(env, po, row, n)])
            && (Executed(env, po, row) ==> |after.log| > |st.log| && ExecutedBy(after.log[|st.log|], po.id, n))
            && (forall reason :: FailsFor(env, po, row, reason) ==> after.log == st.log + [Rejected(po.id, n, po.leg, reason)])
  {
    hide TryFillAt, Refusal, ApplyFill, Executes, Trips;
    var tried := po.(attempted := true);
    AttemptStatus(env, tried, row, st.draws);
    var a := TryFillAt(env, tried, row, st.draws);
    if a.Executed? && !OutOfDate(po, row) {
      BookedOrRefused(env, st.(draws := a.draws), tried, n, a.fill);
    }
  }

  lemma BookedOrRefused(env: Env, st: State, po: PendingOrder, n: nat, fill: Fill)
    requires fill.quantity > 0.0
    ensures var log := BookOrRefuse(env, st, po, n, fill).log; |log| == |st.log| + 1 && ExecutedBy(log[|st.log|], po.id, n)
  {
    hide Rebook, StorePosition, Notional;
  }

  // ---- through the rest of the row ----

  /** The log and the queue only grow. */
  ghost predicate Grows(before: State, after: State) {
    before.log <= after.log && before.pending <= after.pending
  }

  lemma AttemptGrows(env: Env, st: State, po: PendingOrder, n: nat, row: Bar)
    ensures Grows(st, AttemptOrder(env, st, po, n, row))
  {
    hide AttemptOrder;
    AttemptHandsOver(env, st, po, n, row);
  }

  /** Every order in the list meets its case. */
  ghost predicate Meets(env: Env, po: PendingOrder, n: nat, row: Bar, log: seq<Event>, queue: seq<PendingOrder>) {
    if po.scheduledFor > n then po in queue
    else
      && (Waits(env, po, row) ==> Requeued(env, po, row, n) in queue)
      && (Executed(env, po, row) ==> exists e :: e in log && ExecutedBy(e, po.id, n))
      && (forall reason :: FailsFor(env, po, row, reason) ==> Rejected(po.id, n, po.leg, reason) in log)
  }

  lemma AttemptMeets(env: Env, st: State, po: PendingOrder, n: nat, row: Bar)
    ensures var after := AttemptOrder(env, st, po, n, row); Meets(env, po, n, row, after.log, after.pending)
  {
    hide Waits, Executed, FailsFor, Requeued;
    if po.scheduledFor <= n {
      AttemptFate(env, st, po, n, row);
      hide AttemptOrder;
    }
  }

  lemma MeetsGrown(env: Env, po: PendingOrder, n: nat, row: Bar, a: State, b: State)
    requires Meets(env, po, n, row, a.log, a.pending) && Grows(a, b)
    ensures Meets(env, po, n, row, b.log, b.pending)
  {
    hide Waits, Executed, FailsFor, Requeued;
  }

  lemma {:induction false} AttemptAllMeets(env: Env, st: State, todo: seq<PendingOrder>, n: nat, row: Bar)
    ensures var after := AttemptAll(env, st, todo, n, row);
            forall i :: 0 <= i < |todo| ==> Meets(env, todo[i], n, row, after.log, after.pending)
  {
    hide AttemptOrder, Meets, Grows;
    if todo != [] {
      var rest, last := todo[..|todo| - 1], todo[|todo| - 1];
      AttemptAllMeets(env, st, rest, n, row);
      var before := AttemptAll(env, st, rest, n, row);
      var after := AttemptOrder(env, before, last, n, row);
      AttemptGrows(env, before, last, n, row);
      AttemptMeets(env, before, last, n, row);
      forall i | 0 <= i < |rest| ensures Meets(env, todo[i], n, row, after.log, after.pending) {
        MeetsGrown(env, rest[i], n, row, before, after);
      }
    }
  }

  /** How a leg emitted at row `n` is queued. */
  function Queued(m: Emission, id: nat): PendingOrder {
    PendingOrder(id, m.leg, m.row + 1, false, m.date, false)
  }

  /** The legs emitted during the tick of row `n` are queued behind what was there. */
  ghost predicate Queues(before: State, after: State, n: nat, date: int) {
    && before.emitted <= after.emitted && before.pending <= after.pending && after.log == before.log
    && forall id: nat :: |before.emitted| <= id < |after.emitted| ==>
         after.emitted[id].row == n && after.emitted[id].date == date && Queued(after.emitted[id], id) in after.pending
  }

  lemma {:induction false} QueueLegsQueues(start: State, st: State, legs: seq<Leg>, n: nat, row: Bar)
    requires Queues(start, st, n, DateOf(row.time))
    ensures Queues(start, QueueLegs(st, legs, n, row), n, DateOf(row.time))
  {
    if legs != [] {
      var rest, last := legs[..|legs| - 1], legs[|legs| - 1];
      QueueLegsQueues(start, st, rest, n, row);
      var before, after := QueueLegs(st, rest, n, row), QueueLegs(st, legs, n, row);
      assert after.pending[|before.pending|] == Queued(after.emitted[|before.emitted|], |before.emitted|);
    }
  }

  lemma {:induction false} QueueSignalsQueues(start: State, st: State, signals: seq<Signal>, n: nat, row: Bar)
    requires Queues(start, st, n, DateOf(row.time))
    ensures Queues(start, QueueSignals(st, signals, n, row), n, DateOf(row.time))
  {
    hide Queues, QueueLegs;
    if signals != [] {
      var rest := signals[..|signals| - 1];
      QueueSignalsQueues(start, st, rest, n, row);
      QueueLegsQueues(start, QueueSignals(st, rest, n, row), signals[|signals| - 1].legs, n, row);
    }
  }

  lemma TickQueues(env: Env, st: State, n: nat, row: Bar)
    ensures var after := Tick(env, st, n, row);
            && Queues(st, after, n, DateOf(row.time)) && after.history == st.history + [ViewAt(env, st, row.time + env.duration)]
            && (after.cancelRequested <==> st.cancelRequested || env.algorithm(after.history).cancelAll)
  {
    hide ViewAt, QueueSignals;
    var history := st.history + [ViewAt(env, st, row.time + env.duration)];
    var decision := env.algorithm(history);
    var asked := st.(history := history, cancelRequested := st.cancelRequested || decision.cancelAll);
    assert Queues(st, asked, n, DateOf(row.time));
    QueueSignalsQueues(st, asked, decision.signals, n, row);
    QueueSignalsFrame(asked, decision.signals, n, row);
  }

  /** An order still queued after the fills of row `n` is cancelled when the algorithm asks, dropped when its contract has expired, else kept. */
  ghost predicate EndsRow(env: Env, po: PendingOrder, n: nat, now: int, asked: bool, after: State) {
    if asked then Rejected(po.id, n, po.leg, CancelledByAlgorithm) in after.log
    else if Expired(env, po.leg.symbol, now) then Rejected(po.id, n, po.leg, ContractExpired) in after.log
    else po in after.pending
  }

  lemma {:induction false} SettleAllGrows(env: Env, st: State, held: Positions, n: nat, now: int)
    ensures var after := SettleAll(env, st, held, n, now); st.log <= after.log && after.pending == st.pending
  {
    hide HandleExpiry, Worth;
    if held != [] {
      SettleAllGrows(env, st, held[..|held| - 1], n, now);
    }
  }

  lemma {:induction false} DropAllMeets(env: Env, st: State, orders: seq<PendingOrder>, n: nat, now: int)
    requires !DropAll(env, st, orders, n, now).failed
    ensures var after := DropAll(env, st, orders, n, now);
            && Grows(st, after) && after.emitted == st.emitted
            && forall i :: 0 <= i < |orders| ==> EndsRow(env, orders[i], n, now, false, after)
  {
    hide HandleExpiry, Expired;
    if orders != [] {
      var rest, last := orders[..|orders| - 1], orders[|orders| - 1];
      var before := DropAll(env, st, rest, n, now);
      ExpiryRule(env, last.leg.symbol, 1.0, 0.0, now);
      DropAllMeets(env, st, rest, n, now);
      var after := DropAll(env, st, orders, n, now);
      assert Grows(before, after);
      forall i | 0 <= i < |rest| ensures EndsRow(env, orders[i], n, now, false, after) {
        assert EndsRow(env, rest[i], n, now, false, before);
      }
    }
  }

  /** From the end of the fills to the end of the row. */
  lemma RowEnds(env: Env, st: State, n: nat, row: Bar)
    requires !st.failed && !Step(env, st, n, row).failed
    ensures var ticked := Tick(env, st, n, row);
            var processed, after := ProcessPending(env, ticked, n, row), Step(env, st, n, row);
            && processed.log <= after.log && after.emitted == processed.emitted
            && forall i :: 0 <= i < |processed.pending| ==>
                 EndsRow(env, processed.pending[i], n, row.time + env.duration, processed.cancelRequested, after)
  {
    hide Tick, AttemptAll, RejectAll, SettleAll, DropAll, MarketValue, Expired;
    var now := row.time + env.duration;
    var ticked := Tick(env, st, n, row);
    var processed, traded := ProcessPending(env, ticked, n, row), Trade(env, st, n, row);
    RejectAllLogs(processed, processed.pending, n, CancelledByAlgorithm);
    RejectAllGrows(processed, processed.pending, n, CancelledByAlgorithm);
    SettleAllGrows(env, traded, traded.positions, n, now);
    SettleAllQuiet(env, traded, traded.positions, n, now, 0);
    var settled := SettleAll(env, traded, traded.positions, n, now);
    assert !settled.failed by { FailureStaysDropped(env, settled, n, now); }
    DropAllMeets(env, settled.(pending := []), settled.pending, n, now);
    var dropped, after := DropExpired(env, settled, n, now), Step(env, st, n, row);
    assert dropped.log <= after.log && after.pending == dropped.pending;
    forall i | 0 <= i < |processed.pending| ensures EndsRow(env, processed.pending[i], n, now, processed.cancelRequested, after) {
      if !processed.cancelRequested {
        assert EndsRow(env, settled.pending[i], n, now, false, dropped);
      }
    }
  }

  lemma FailureStaysDropped(env: Env, st: State, n: nat, now: int)
    ensures st.failed ==> DropExpired(env, st, n, now).failed
  {
  }

  lemma {:induction false} RejectAllGrows(st: State, orders: seq<PendingOrder>, n: nat, reason: Reason)
    ensures st.log <= RejectAll(st, orders, n, reason).log
  {
    if orders != [] {
      RejectAllGrows(st, orders[..|orders| - 1], n, reason);
    }
  }

  /** What row `n` makes of an order that was due. */
  ghost predicate Fate(env: Env, po: PendingOrder, n: nat, row: Bar, asked: bool, after: State) {
    && (Waits(env, po, row) ==> EndsRow(env, Requeued(env, po, row, n), n, row.time + env.duration, asked, after))
    && (Executed(env, po, row) ==> exists e :: e in after.log && ExecutedBy(e, po.id, n))
    && (forall reason :: FailsFor(env, po, row, reason) ==> Rejected(po.id, n, po.leg, reason) in after.log)
  }

  /** What row `n` makes of a leg emitted during it. */
  ghost predicate EmittedFate(env: Env, n: nat, row: Bar, asked: bool, after: State, id: nat) {
    && id < |after.emitted| && after.emitted[id].row == n && after.emitted[id].date == DateOf(row.time)
    && EndsRow(env, Queued(after.emitted[id], id), n, row.time + env.duration, asked, after)
  }

  ghost predicate Asks(env: Env, st: State, after: State) {
    st.cancelRequested || env.algorithm(after.history).cancelAll
  }

  lemma MetIsFated(env: Env, po: PendingOrder, n: nat, row: Bar, asked: bool, processed: State, after: State)
    requires Meets(env, po, n, row, processed.log, processed.pending) && po.scheduledFor <= n && processed.log <= after.log
    requires forall i :: 0 <= i < |processed.pending| ==> EndsRow(env, processed.pending[i], n, row.time + env.duration, asked, after)
    ensures Fate(env, po, n, row, asked, after)
  {
    hide Waits, Executed, FailsFor, Requeued, EndsRow;
  }

  lemma StepFate(env: Env, st: State, n: nat, row: Bar)
    requires !st.failed && !Step(env, st, n, row).failed
    ensures var after := Step(env, st, n, row);
            var asked := Asks(env, st, after);
            && (forall i :: 0 <= i < |st.pending| && st.pending[i].scheduledFor <= n ==> Fate(env, st.pending[i], n, row, asked, after))
            && st.emitted <= after.emitted
            && forall id: nat :: |st.emitted| <= id < |after.emitted| ==> EmittedFate(env, n, row, asked, after, id)
  {
    hide Step, Tick, AttemptAll, ViewAt, Meets, EndsRow, Fate;
    var after := Step(env, st, n, row);
    var ticked := Tick(env, st, n, row);
    var processed := ProcessPending(env, ticked, n, row);
    TickQueues(env, st, n, row);
    AttemptAllMeets(env, ticked.(pending := []), ticked.pending, n, row);
    StillQuiet(env, ticked.(pending := []), ticked.pending, n, row);
    AttemptAllEmits(env, ticked.(pending := []), ticked.pending, n, row);
    RowEnds(env, st, n, row);
    StepShows(env, st, n, row);
    var asked := Asks(env, st, after);
    forall i | 0 <= i < |st.pending| && st.pending[i].scheduledFor <= n ensures Fate(env, st.pending[i], n, row, asked, after) {
      assert ticked.pending[i] == st.pending[i];
      MetIsFated(env, st.pending[i], n, row, asked, processed, after);
    }
    forall id: nat | |st.emitted| <= id < |after.emitted| ensures EmittedFate(env, n, row, asked, after, id) {
      var po := Queued(ticked.emitted[id], id);
      assert po in ticked.pending;
      var i :| 0 <= i < |ticked.pending| && ticked.pending[i] == po;
      NotDueIsKept(env, po, n, row, processed);
    }
  }

  lemma NotDueIsKept(env: Env, po: PendingOrder, n: nat, row: Bar, processed: State)
    requires po.scheduledFor > n && Meets(env, po, n, row, processed.log, processed.pending)
    ensures po in processed.pending
  {
  }

  lemma {:induction false} AttemptAllEmits(env: Env, st: State, todo: seq<PendingOrder>, n: nat, row: Bar)
    ensures AttemptAll(env, st, todo, n, row).emitted == st.emitted
  {
    hide AttemptOrder, HandsOver;
    if todo != [] {
      var rest, last := todo[..|todo| - 1], todo[|todo| - 1];
      AttemptAllEmits(env, st, rest, n, row);
      var before := AttemptAll(env, st, rest, n, row);
      AttemptEmits(env, before, last, n, row);
    }
  }

  lemma AttemptEmits(env: Env, st: State, po: PendingOrder, n: nat, row: Bar)
    ensures AttemptOrder(env, st, po, n, row).emitted == st.emitted
  {
    hide AttemptOrder;
    AttemptHandsOver(env, st, po, n, row);
  }

  // ---- each leg ends once ----

  lemma {:induction false} EventCounts(log: seq<Event>, e: Event, id: nat)
    requires e in log && Resolves(e, id)
    ensures ResolvedCount(log, id) >= 1
  {
    if e in log[..|log| - 1] {
      EventCounts(log[..|log| - 1], e, id);
    } else {
      assert log == log[..|log| - 1] + [log[|log| - 1]];
    }
  }

  lemma {:induction false} OneEvent(log: seq<Event>, a: Event, b: Event, id: nat)
    requires a in log && b in log && Resolves(a, id) && Resolves(b, id) && ResolvedCount(log, id) <= 1
    ensures a == b
  {
    var rest, last := log[..|log| - 1], log[|log| - 1];
    assert log == rest + [last];
    if a in rest && b in rest {
      OneEvent(rest, a, b, id);
    } else if a in rest {
      EventCounts(rest, a, id);
    } else if b in rest {
      EventCounts(rest, b, id);
    }
  }

  lemma {:induction false} PendingCounts(orders: seq<PendingOrder>, po: PendingOrder)
    requires po in orders
    ensures PendingCount(orders, po.id) >= 1
  {
    var rest, last := orders[..|orders| - 1], orders[|orders| - 1];
    assert orders == rest + [last];
    if po in rest {
      PendingCounts(rest, po);
    }
  }

  /** Leg `id` was rejected at row `n` for this reason. */
  ghost predicate RejectedFor(log: seq<Event>, id: nat, n: nat, reason: Reason) {
    exists leg :: Rejected(id, n, leg, reason) in log
  }

  /** Every reason for which row `n` rejects a due order, but those of buying power. */
  predicate Cause(env: Env, po: PendingOrder, row: Bar, asked: bool, reason: Reason) {
    match reason
    case CancelledByAlgorithm => Waits(env, po, row) && asked
    case ContractExpired => Waits(env, po, row) && !asked && Expired(env, po.leg.symbol, row.time + env.duration)
    case _ => FailsFor(env, po, row, reason)
  }

  /** A due order ends a row in exactly one way. */
  ghost predicate EndsAs(env: Env, po: PendingOrder, n: nat, row: Bar, asked: bool, after: State) {
    && ((exists e :: e in after.log && ExecutedBy(e, po.id, n)) <==> Executed(env, po, row))
    && (forall reason :: !IsPower(reason) ==> (RejectedFor(after.log, po.id, n, reason) <==> Cause(env, po, row, asked, reason)))
    && (PendingCount(after.pending, po.id) > 0
        <==> Waits(env, po, row) && !asked && !Expired(env, po.leg.symbol, row.time + env.duration))
    && (PendingCount(after.pending, po.id) > 0 ==> Requeued(env, po, row, n) in after.pending)
  }

  /** The one way: an event, or a place in the queue. */
  lemma OutcomeOf(env: Env, po: PendingOrder, n: nat, row: Bar, asked: bool, after: State) returns (e: Option<Event>)
    requires Fate(env, po, n, row, asked, after)
    ensures e.Some? ==> e.value in after.log && Resolves(e.value, po.id) && e.value.row == n
                        && (e.value.Filled? || IsPower(e.value.reason) ==> Executed(env, po, row))
                        && (e.value.Rejected? && !IsPower(e.value.reason) ==> Cause(env, po, row, asked, e.value.reason))
    ensures e.None? ==> Waits(env, po, row) && !asked && !Expired(env, po.leg.symbol, row.time + env.duration)
                        && Requeued(env, po, row, n) in after.pending
  {
    hide OutOfDate, Executes, Trips, Expired;
    e := None;
    if Executed(env, po, row) {
      var x :| x in after.log && ExecutedBy(x, po.id, n);
      e := Some(x);
    } else if OutOfDate(po, row) {
      e := Some(Rejected(po.id, n, po.leg, DayExpired));
    } else if Waits(env, po, row) {
      var w := Requeued(env, po, row, n);
      if asked {
        e := Some(Rejected(po.id, n, w.leg, CancelledByAlgorithm));
      } else if Expired(env, w.leg.symbol, row.time + env.duration) {
        e := Some(Rejected(po.id, n, w.leg, ContractExpired));
      }
    } else if IsOption(env, po.leg.symbol) {
      e := Some(Rejected(po.id, n, po.leg, NoOptionPrice));
    } else if po.leg.timeInForce.Unknown? {
      e := Some(Rejected(po.id, n, po.leg, UnknownTimeInForce));
    } else {
      e := Some(Rejected(po.id, n, po.leg, NoFillWithinTimeout));
    }
  }

  /** No two causes hold at once, and none of an order that is executed or kept. */
  lemma CausesExclude(env: Env, po: PendingOrder, row: Bar, asked: bool, a: Reason, b: Reason)
    requires Cause(env, po, row, asked, a)
    ensures Cause(env, po, row, asked, b) ==> a == b
    ensures !Executed(env, po, row) && !IsPower(a)
    ensures !(Waits(env, po, row) && !asked && !Expired(env, po.leg.symbol, row.time + env.duration))
  {
    hide OutOfDate, Executes, Trips, Expired;
    assert Tripped(env, po, row) ==> !Executed(env, po, row) by { TripsOrExecutes(env, po, row); }
  }

  lemma TripsOrExecutes(env: Env, po: PendingOrder, row: Bar)
    ensures !(Tripped(env, po, row) && Executed(env, po, row))
  {
  }

  /** An order that is kept is not executed and has no cause. */
  lemma KeptExcludes(env: Env, po: PendingOrder, row: Bar, asked: bool)
    requires Waits(env, po, row) && !asked && !Expired(env, po.leg.symbol, row.time + env.duration)
    ensures !Executed(env, po, row) && forall reason :: !Cause(env, po, row, asked, reason)
  {
    hide OutOfDate, Executes, Trips, Expired;
    TripsOrExecutes(env, po, row);
  }

  /** The outcome is the only one: an event with a cause, an execution, or a place in the queue. */
  lemma NoOtherEvent(after: State, e: Event, id: nat)
    requires e in after.log && Resolves(e, id) && ResolvedCount(after.log, id) + PendingCount(after.pending, id) == 1
    ensures PendingCount(after.pending, id) == 0 && forall x :: x in after.log && Resolves(x, id) ==> x == e
  {
    hide ResolvedCount, PendingCount;
    EventCounts(after.log, e, id);
    forall x | x in after.log && Resolves(x, id) ensures x == e {
      OneEvent(after.log, x, e, id);
    }
  }

  lemma NoEvent(after: State, po: PendingOrder)
    requires po in after.pending && ResolvedCount(after.log, po.id) + PendingCount(after.pending, po.id) == 1
    ensures PendingCount(after.pending, po.id) > 0 && forall x :: x in after.log ==> !Resolves(x, po.id)
  {
    hide ResolvedCount, PendingCount;
    PendingCounts(after.pending, po);
    forall x | x in after.log ensures !Resolves(x, po.id) {
      if Resolves(x, po.id) {
        EventCounts(after.log, x, po.id);
      }
    }
  }

  lemma RejectionResolves(log: seq<Event>, id: nat, n: nat, reason: Reason)
    ensures RejectedFor(log, id, n, reason) ==>
              exists e :: e in log && Resolves(e, id) && e.Rejected? && e.row == n && e.reason == reason
  {
    if RejectedFor(log, id, n, reason) {
      var leg :| Rejected(id, n, leg, reason) in log;
      assert Resolves(Rejected(id, n, leg, reason), id);
    }
  }

  /** The event `e` is all that the log says of the order, and it is no longer queued. */
  ghost predicate EndsWith(po: PendingOrder, n: nat, after: State, e: Event) {
    && e in after.log && Resolves(e, po.id) && e.row == n
    && PendingCount(after.pending, po.id) == 0 && (forall x :: x in after.log && Resolves(x, po.id) ==> x == e)
  }

  lemma ExecutedIsExact(env: Env, po: PendingOrder, n: nat, row: Bar, asked: bool, after: State, e: Event)
    requires EndsWith(po, n, after, e) && (e.Filled? || IsPower(e.reason)) && Executed(env, po, row)
    ensures EndsAs(env, po, n, row, asked, after)
  {
    hide Waits, Executed, Cause, Expired, ResolvedCount, PendingCount, Requeued;
    assert ExecutedBy(e, po.id, n);
    forall reason | !IsPower(reason) ensures RejectedFor(after.log, po.id, n, reason) <==> Cause(env, po, row, asked, reason) {
      RejectionResolves(after.log, po.id, n, reason);
      if Cause(env, po, row, asked, reason) {
        CausesExclude(env, po, row, asked, reason, reason);
      }
    }
    if Waits(env, po, row) && !asked && !Expired(env, po.leg.symbol, row.time + env.duration) {
      KeptExcludes(env, po, row, asked);
    }
  }

  lemma RejectedIsExact(env: Env, po: PendingOrder, n: nat, row: Bar, asked: bool, after: State, e: Event)
    requires EndsWith(po, n, after, e) && e.Rejected? && !IsPower(e.reason) && Cause(env, po, row, asked, e.reason)
    ensures EndsAs(env, po, n, row, asked, after)
  {
    hide Waits, Executed, Cause, Expired, ResolvedCount, PendingCount, Requeued;
    CausesExclude(env, po, row, asked, e.reason, e.reason);
    assert Rejected(po.id, n, e.leg, e.reason) in after.log;
    forall x | x in after.log ensures !ExecutedBy(x, po.id, n) {
      assert Resolves(x, po.id) ==> x == e;
    }
    forall reason | !IsPower(reason) ensures RejectedFor(after.log, po.id, n, reason) <==> Cause(env, po, row, asked, reason) {
      RejectionResolves(after.log, po.id, n, reason);
      CausesExclude(env, po, row, asked, e.reason, reason);
    }
  }

  lemma FateIsExact(env: Env, po: PendingOrder, n: nat, row: Bar, asked: bool, after: State)
    requires Fate(env, po, n, row, asked, after) && ResolvedCount(after.log, po.id) + PendingCount(after.pending, po.id) == 1
    ensures EndsAs(env, po, n, row, asked, after)
  {
    var e := OutcomeOf(env, po, n, row, asked, after);
    hide Fate, Waits, Executed, Cause, Expired, ResolvedCount, PendingCount;
    if e.None? {
      NoEvent(after, Requeued(env, po, row, n));
      KeptExcludes(env, po, row, asked);
      forall reason ensures !RejectedFor(after.log, po.id, n, reason) {
        RejectionResolves(after.log, po.id, n, reason);
      }
    } else {
      NoOtherEvent(after, e.value, po.id);
      if e.value.Filled? || IsPower(e.value.reason) {
        ExecutedIsExact(env, po, n, row, asked, after, e.value);
      } else {
        RejectedIsExact(env, po, n, row, asked, after, e.value);
      }
    }
  }

  // ---- in every run ----

  lemma DropFrame(env: Env, st: State, n: nat, now: int)
    ensures DropExpired(env, st, n, now).cancelRequested == st.cancelRequested
  {
    DropAllFrame(env, st.(pending := []), st.pending, n, now);
  }

  lemma {:induction false} DropAllFrame(env: Env, st: State, orders: seq<PendingOrder>, n: nat, now: int)
    ensures DropAll(env, st, orders, n, now).cancelRequested == st.cancelRequested
  {
    hide HandleExpiry;
    if orders != [] {
      DropAllFrame(env, st, orders[..|orders| - 1], n, now);
    }
  }

  lemma {:induction false} SettleAllFrame(env: Env, st: State, held: Positions, n: nat, now: int)
    ensures SettleAll(env, st, held, n, now).cancelRequested == st.cancelRequested
  {
    hide HandleExpiry, Worth;
    if held != [] {
      SettleAllFrame(env, st, held[..|held| - 1], n, now);
    }
  }

  /** A row answers a request to cancel; none is left at the next. */
  lemma StepAnswers(env: Env, st: State, n: nat, row: Bar)
    requires !st.failed
    ensures !Step(env, st, n, row).cancelRequested
  {
    hide Tick, AttemptAll, RejectAll, SettleAll, DropExpired, MarketValue;
    var now := row.time + env.duration;
    var traded := Trade(env, st, n, row);
    SettleAllFrame(env, traded, traded.positions, n, now);
    DropFrame(env, SettleAll(env, traded, traded.positions, n, now), n, now);
  }

  lemma {:induction false} AttemptAllGrows(env: Env, st: State, todo: seq<PendingOrder>, n: nat, row: Bar)
    ensures st.log <= AttemptAll(env, st, todo, n, row).log
  {
    hide AttemptOrder, Grows;
    if todo != [] {
      var rest, last := todo[..|todo| - 1], todo[|todo| - 1];
      AttemptAllGrows(env, st, rest, n, row);
      var before := AttemptAll(env, st, rest, n, row);
      AttemptGrows(env, before, last, n, row);
      assert before.log <= AttemptOrder(env, before, last, n, row).log by { GrownLog(before, AttemptOrder(env, before, last, n, row)); }
    }
  }

  lemma GrownLog(a: State, b: State)
    requires Grows(a, b)
    ensures a.log <= b.log
  {
  }

  lemma StepLogGrows(env: Env, st: State, n: nat, row: Bar)
    requires !st.failed && !Step(env, st, n, row).failed
    ensures st.log <= Step(env, st, n, row).log
  {
    hide Step, Tick, AttemptAll;
    var ticked := Tick(env, st, n, row);
    TickQueues(env, st, n, row);
    AttemptAllGrows(env, ticked.(pending := []), ticked.pending, n, row);
    RowEnds(env, st, n, row);
  }

  lemma {:induction false} ResolvedGrows(a: seq<Event>, b: seq<Event>, id: nat)
    requires a <= b
    ensures ResolvedCount(a, id) <= ResolvedCount(b, id)
    decreases |b|
  {
    if |a| < |b| {
      assert b == b[..|b| - 1] + [b[|b| - 1]];
      ResolvedGrows(a, b[..|b| - 1], id);
    } else {
      assert a == b;
    }
  }

  /** The algorithm asks to cancel at row `j`, or a request was left over from before the first. */
  ghost predicate AsksAt(env: Env, cash0: real, cancelled: bool, clock: seq<Bar>, j: nat)
    requires j < |clock|
  {
    (j == 0 && cancelled) || env.algorithm(Rows(env, Start(cash0, cancelled), clock, j + 1).history).cancelAll
  }

  lemma {:induction false} AsksIsAsksAt(env: Env, cash0: real, cancelled: bool, clock: seq<Bar>, j: nat)
    requires j < |clock| && !Rows(env, Start(cash0, cancelled), clock, j + 1).failed
    ensures Asks(env, Rows(env, Start(cash0, cancelled), clock, j), Rows(env, Start(cash0, cancelled), clock, j + 1))
       <==> AsksAt(env, cash0, cancelled, clock, j)
  {
    hide Step;
    FailureSticks(env, Start(cash0, cancelled), clock, j + 1);
    if j > 0 {
      FailureSticks(env, Start(cash0, cancelled), clock, j);
      StepAnswers(env, Rows(env, Start(cash0, cancelled), clock, j - 1), j - 1, clock[j - 1]);
    }
  }

  /**
   The fate of an order at a row of a run, exactly. It is filled, or refused for want of buying power,
   just when it is executed; it is rejected for each other reason just when that reason's rule applies;
   and it is still open just when it waits, the algorithm does not cancel and its contract has not expired.
   */
  lemma {:induction false} RowFate(env: Env, cash0: real, cancelled: bool, clock: seq<Bar>, n: nat, i: nat)
    requires n < |clock| && !Rows(env, Start(cash0, cancelled), clock, n + 1).failed
    requires i < |Rows(env, Start(cash0, cancelled), clock, n).pending|
    ensures EndsAs(env, Rows(env, Start(cash0, cancelled), clock, n).pending[i], n, clock[n],
                   AsksAt(env, cash0, cancelled, clock, n), Rows(env, Start(cash0, cancelled), clock, n + 1))
  {
    hide Step, EndsAs, Fate, AsksAt, Asks;
    var st, after := Rows(env, Start(cash0, cancelled), clock, n), Rows(env, Start(cash0, cancelled), clock, n + 1);
    var po := st.pending[i];
    FailureSticks(env, Start(cash0, cancelled), clock, n + 1);
    PendingIsDue(env, cash0, cancelled, clock, n);
    StepFate(env, st, n, clock[n]);
    AsksIsAsksAt(env, cash0, cancelled, clock, n);
    OrderConservation(env, cash0, cancelled, clock, n + 1, po.id);
    FateIsExact(env, po, n, clock[n], AsksAt(env, cash0, cancelled, clock, n), after);
  }

  /** A leg emitted at row `n` is open at the next just when the algorithm does not cancel and its contract has not expired. */
  lemma {:induction false} EmittedStaysOpen(env: Env, cash0: real, cancelled: bool, clock: seq<Bar>, n: nat, id: nat)
    requires n < |clock| && !Rows(env, Start(cash0, cancelled), clock, n + 1).failed
    requires var st, after := Rows(env, Start(cash0, cancelled), clock, n), Rows(env, Start(cash0, cancelled), clock, n + 1);
             |st.emitted| <= id < |after.emitted|
    ensures var after := Rows(env, Start(cash0, cancelled), clock, n + 1);
            && after.emitted[id].row == n
            && (PendingCount(after.pending, id) > 0
                <==> !AsksAt(env, cash0, cancelled, clock, n) && !Expired(env, after.emitted[id].leg.symbol, clock[n].time + env.duration))
  {
    hide Step, AsksAt, Asks, PendingCount, ResolvedCount, Expired;
    var st, after := Rows(env, Start(cash0, cancelled), clock, n), Rows(env, Start(cash0, cancelled), clock, n + 1);
    FailureSticks(env, Start(cash0, cancelled), clock, n + 1);
    StepFate(env, st, n, clock[n]);
    AsksIsAsksAt(env, cash0, cancelled, clock, n);
    OrderConservation(env, cash0, cancelled, clock, n + 1, id);
    assert EmittedFate(env, n, clock[n], AsksAt(env, cash0, cancelled, clock, n), after, id);
    var po := Queued(after.emitted[id], id);
    if AsksAt(env, cash0, cancelled, clock, n) {
      NoOtherEvent(after, Rejected(id, n, po.leg, CancelledByAlgorithm), id);
    } else if Expired(env, po.leg.symbol, clock[n].time + env.duration) {
      NoOtherEvent(after, Rejected(id, n, po.leg, ContractExpired), id);
    } else {
      NoEvent(after, po);
    }
  }

  /** The legs of the signals, in order. */
  function LegsOf(signals: seq<Signal>): seq<Leg> {
    if signals == [] then [] else signals[0].legs + LegsOf(signals[1..])
  }

  /** The legs as emitted at row `n`. */
  function EmittedAt(legs: seq<Leg>, n: nat, date: int): seq<Emission> {
    seq(|legs|, i requires 0 <= i < |legs| => Emission(n, legs[i], date))
  }

  lemma {:induction false} LegsEmitted(st: State, legs: seq<Leg>, n: nat, row: Bar)
    ensures QueueLegs(st, legs, n, row).emitted == st.emitted + EmittedAt(legs, n, DateOf(row.time))
  {
    if legs != [] {
      var rest, last := legs[..|legs| - 1], legs[|legs| - 1];
      LegsEmitted(st, rest, n, row);
      assert EmittedAt(legs, n, DateOf(row.time)) == EmittedAt(rest, n, DateOf(row.time)) + [Emission(n, last, DateOf(row.time))];
    }
  }

  lemma {:induction false} LegsAppend(signals: seq<Signal>, s: Signal)
    ensures LegsOf(signals + [s]) == LegsOf(signals) + s.legs
  {
    if signals == [] {
      assert [] + [s] == [s];
    } else {
      assert (signals + [s])[1..] == signals[1..] + [s];
      LegsAppend(signals[1..], s);
    }
  }

  lemma {:induction false} SignalsEmitted(st: State, signals: seq<Signal>, n: nat, row: Bar)
    ensures QueueSignals(st, signals, n, row).emitted == st.emitted + EmittedAt(LegsOf(signals), n, DateOf(row.time))
  {
    if signals == [] {
      assert EmittedAt([], n, DateOf(row.time)) == [];
    } else {
      var rest, last := signals[..|signals| - 1], signals[|signals| - 1];
      assert signals == rest + [last];
      SignalsEmitted(st, rest, n, row);
      LegsEmitted(QueueSignals(st, rest, n, row), last.legs, n, row);
      LegsAppend(rest, last);
      assert EmittedAt(LegsOf(signals), n, DateOf(row.time))
          == EmittedAt(LegsOf(rest), n, DateOf(row.time)) + EmittedAt(last.legs, n, DateOf(row.time));
    }
  }

  /** The orders emitted at a row are the legs of the algorithm's signals, in their order. */
  lemma {:induction false} SignalsBecomeOrders(env: Env, cash0: real, cancelled: bool, clock: seq<Bar>, n: nat)
    requires n < |clock| && !Rows(env, Start(cash0, cancelled), clock, n + 1).failed
    ensures var st, after := Rows(env, Start(cash0, cancelled), clock, n), Rows(env, Start(cash0, cancelled), clock, n + 1);
            after.emitted == st.emitted + EmittedAt(LegsOf(env.algorithm(after.history).signals), n, DateOf(clock[n].time))
  {
    hide Step, Tick, AttemptAll, ViewAt, QueueSignals, LegsOf;
    var st, row := Rows(env, Start(cash0, cancelled), clock, n), clock[n];
    FailureSticks(env, Start(cash0, cancelled), clock, n + 1);
    var ticked := Tick(env, st, n, row);
    TickEmits(env, st, n, row);
    AttemptAllEmits(env, ticked.(pending := []), ticked.pending, n, row);
    RowEnds(env, st, n, row);
    StepShows(env, st, n, row);
  }

  lemma TickEmits(env: Env, st: State, n: nat, row: Bar)
    ensures var history := st.history + [ViewAt(env, st, row.time + env.duration)];
            Tick(env, st, n, row).emitted == st.emitted + EmittedAt(LegsOf(env.algorithm(history).signals), n, DateOf(row.time))
  {
    hide ViewAt, QueueSignals, LegsOf;
    var history := st.history + [ViewAt(env, st, row.time + env.duration)];
    var decision := env.algorithm(history);
    SignalsEmitted(st.(history := history, cancelRequested := st.cancelRequested || decision.cancelAll), decision.signals, n, row);
  }

  // ---- from emission on ----

  /** A leg emitted on `date` stays open through an attempt at a row: `again` when it was attempted before. */
  predicate StaysOpen(env: Env, leg: Leg, date: int, row: Bar, again: bool) {
    && !IsOption(env, leg.symbol) && !Executes(env, leg, false, FillBar(env, leg.symbol, row), row.time + env.duration)
    && (leg.timeInForce.Gtc? || (leg.timeInForce.Day? && (again ==> DateOf(row.time) <= date)))
  }

  /** Row `j` leaves open a leg emitted at row `m`. */
  ghost predicate KeptAt(env: Env, cash0: real, cancelled: bool, clock: seq<Bar>, leg: Leg, m: nat, j: nat)
    requires m < |clock| && j < |clock|
  {
    && !AsksAt(env, cash0, cancelled, clock, j) && !Expired(env, leg.symbol, clock[j].time + env.duration)
    && (j > m ==> StaysOpen(env, leg, DateOf(clock[m].time), clock[j], j > m + 1))
  }

  lemma WaitsIsStaysOpen(env: Env, po: PendingOrder, date: int, row: Bar, again: bool)
    requires !IsStop(po.leg) && !po.stopTriggered && po.createdDate == date && po.attempted == again
    ensures Waits(env, po, row) <==> StaysOpen(env, po.leg, date, row, again)
  {
    hide Executes, FillBar;
  }

  lemma {:induction false} PendingWitness(orders: seq<PendingOrder>, id: nat) returns (i: nat)
    requires PendingCount(orders, id) > 0
    ensures i < |orders| && orders[i].id == id
  {
    if orders[|orders| - 1].id == id {
      i := |orders| - 1;
    } else {
      i := PendingWitness(orders[..|orders| - 1], id);
    }
  }

  /** A leg that is no longer open stays closed. */
  lemma {:induction false} ClosedStaysClosed(env: Env, cash0: real, cancelled: bool, clock: seq<Bar>, n: nat, id: nat)
    requires n < |clock| && !Rows(env, Start(cash0, cancelled), clock, n + 1).failed
    requires var st := Rows(env, Start(cash0, cancelled), clock, n); id < |st.emitted| && PendingCount(st.pending, id) == 0
    ensures PendingCount(Rows(env, Start(cash0, cancelled), clock, n + 1).pending, id) == 0
  {
    hide Step, PendingCount, ResolvedCount;
    FailureSticks(env, Start(cash0, cancelled), clock, n + 1);
    OrderConservation(env, cash0, cancelled, clock, n, id);
    OrderConservation(env, cash0, cancelled, clock, n + 1, id);
    StepLogGrows(env, Rows(env, Start(cash0, cancelled), clock, n), n, clock[n]);
    ResolvedGrows(Rows(env, Start(cash0, cancelled), clock, n).log, Rows(env, Start(cash0, cancelled), clock, n + 1).log, id);
  }

  /** One more row for a leg that is open. */
  lemma {:induction false} OpenOneMore(env: Env, cash0: real, cancelled: bool, clock: seq<Bar>, n: nat, id: nat)
    requires n < |clock| && !Rows(env, Start(cash0, cancelled), clock, n + 1).failed
    requires var st := Rows(env, Start(cash0, cancelled), clock, n);
             && id < |st.emitted| && st.emitted[id].row < n && !IsStop(st.emitted[id].leg) && PendingCount(st.pending, id) > 0
    ensures var m := Rows(env, Start(cash0, cancelled), clock, n).emitted[id];
            PendingCount(Rows(env, Start(cash0, cancelled), clock, n + 1).pending, id) > 0
            <==> KeptAt(env, cash0, cancelled, clock, m.leg, m.row, n)
  {
    hide Step, PendingCount, AsksAt, Waits, StaysOpen, Expired, Requeued;
    var st := Rows(env, Start(cash0, cancelled), clock, n);
    var i := PendingWitness(st.pending, id);
    FailureSticks(env, Start(cash0, cancelled), clock, n + 1);
    RowsTimely(env, cash0, cancelled, clock, n);
    assert Timely(st.emitted, st.pending[i], n);
    RowFate(env, cash0, cancelled, clock, n, i);
    var m := st.emitted[id];
    assert m.date == DateOf(clock[m.row].time);
    WaitsIsStaysOpen(env, st.pending[i], m.date, clock[n], n > m.row + 1);
  }

  lemma {:induction false} EmissionsStay(env: Env, cash0: real, cancelled: bool, clock: seq<Bar>, n: nat)
    requires n < |clock| && !Rows(env, Start(cash0, cancelled), clock, n + 1).failed
    ensures Rows(env, Start(cash0, cancelled), clock, n).emitted <= Rows(env, Start(cash0, cancelled), clock, n + 1).emitted
  {
    hide Step;
    FailureSticks(env, Start(cash0, cancelled), clock, n + 1);
    StepFate(env, Rows(env, Start(cash0, cancelled), clock, n), n, clock[n]);
  }

  /**
   For how long an order stays open. A leg that is not a stop, emitted at row `m` of a run, is open at
   the head of row `n` just when from row `m` on nobody cancelled, its contract did not expire, and every
   attempt left it unexecuted, a DAY order on no later date after its first attempt. IOC orders and
   orders on options never outlive an attempt.
   */
  lemma {:induction false} OpenExactly(env: Env, cash0: real, cancelled: bool, clock: seq<Bar>, n: nat, id: nat)
    requires n <= |clock| && !Rows(env, Start(cash0, cancelled), clock, n).failed
    requires var st := Rows(env, Start(cash0, cancelled), clock, n); id < |st.emitted| && !IsStop(st.emitted[id].leg)
    ensures var st := Rows(env, Start(cash0, cancelled), clock, n);
            var m := st.emitted[id];
            && m.row < n
            && (PendingCount(st.pending, id) > 0
                <==> forall j: nat :: m.row <= j < n ==> KeptAt(env, cash0, cancelled, clock, m.leg, m.row, j))
  {
    hide Step, PendingCount, AsksAt, StaysOpen, Expired;
    if n > 0 {
      var before, st := Rows(env, Start(cash0, cancelled), clock, n - 1), Rows(env, Start(cash0, cancelled), clock, n);
      FailureSticks(env, Start(cash0, cancelled), clock, n);
      EmissionsStay(env, cash0, cancelled, clock, n - 1);
      if id < |before.emitted| {
        OpenExactly(env, cash0, cancelled, clock, n - 1, id);
        if PendingCount(before.pending, id) > 0 {
          OpenOneMore(env, cash0, cancelled, clock, n - 1, id);
        } else {
          ClosedStaysClosed(env, cash0, cancelled, clock, n - 1, id);
        }
      } else {
        EmittedStaysOpen(env, cash0, cancelled, clock, n - 1, id);
        var m := st.emitted[id];
        assert KeptAt(env, cash0, cancelled, clock, m.leg, m.row, n - 1)
            <==> !AsksAt(env, cash0, cancelled, clock, n - 1) && !Expired(env, m.leg.symbol, clock[n - 1].time + env.duration);
      }
    }
  }

  /** A GTC limit order on stock that nobody cancels is open for exactly as long as no bar has crossed its limit. */
  lemma {:induction false} GtcLimitRests(env: Env, cash0: real, clock: seq<Bar>, n: nat, id: nat)
    requires n <= |clock| && !Rows(env, Start(cash0, false), clock, n).failed && forall h :: !env.algorithm(h).cancelAll
    requires var st := Rows(env, Start(cash0, false), clock, n);
             && id < |st.emitted| && st.emitted[id].leg.orderType.LimitOrder? && st.emitted[id].leg.limitPrice.Some?
             && st.emitted[id].leg.timeInForce.Gtc? && !IsOption(env, st.emitted[id].leg.symbol)
    ensures var st := Rows(env, Start(cash0, false), clock, n);
            var m := st.emitted[id];
            && m.row < n
            && (PendingCount(st.pending, id) > 0
                <==> forall j: nat :: m.row < j < n ==>
                       !StrictlyCrosses(SideOf(m.leg), FillBar(env, m.leg.symbol, clock[j]), m.leg.limitPrice.value))
  {
    hide Step, PendingCount, FillBar;
    OpenExactly(env, cash0, false, clock, n, id);
    var m := Rows(env, Start(cash0, false), clock, n).emitted[id];
    forall j: nat | m.row <= j < n
      ensures KeptAt(env, cash0, false, clock, m.leg, m.row, j)
         <==> (m.row < j ==> !StrictlyCrosses(SideOf(m.leg), FillBar(env, m.leg.symbol, clock[j]), m.leg.limitPrice.value))
    {
    }
  }
}
