/** The order-status helpers of app/track/page.tsx: the two linear status
    flows and their step numbers, the simulator's advance rule, the
    active/completed split and the status labels. */
module Tracking {
  import opened Wrappers
  import opened Orders

  /** Number of steps in a flow: five for delivery, four for pickup. */
  function MaxStep(t: OrderType): int
  {
    if t == Delivery then 5 else 4
  }

  /** The statuses of a type's flow. */
  predicate InFlow(status: OrderStatus, t: OrderType)
  {
    match t
    case Delivery => status in {Confirmed, Preparing, Ready, Delivering, Delivered}
    case Pickup => status in {Confirmed, Preparing, ReadyForPickup, PickedUp}
  }

  /** The flow's last status. */
  function Terminal(t: OrderType): OrderStatus
  {
    if t == Delivery then Delivered else PickedUp
  }

  /** `getStepFromStatus`: the 1-based position in the flow, 1 for a status
      outside it. */
  function StepFromStatus(status: OrderStatus, t: OrderType): (step: int)
    ensures 1 <= step <= MaxStep(t)
    ensures !InFlow(status, t) ==> step == 1
  {
    match t
    case Delivery =>
      (match status
       case Confirmed => 1
       case Preparing => 2
       case Ready => 3
       case Delivering => 4
       case Delivered => 5
       case _ => 1)
    case Pickup =>
      (match status
       case Confirmed => 1
       case Preparing => 2
       case ReadyForPickup => 3
       case PickedUp => 4
       case _ => 1)
  }

  /** `getStatusFromStep`: the status at a step, confirmed for a step out of range. */
  function StatusFromStep(step: int, t: OrderType): (status: OrderStatus)
    ensures InFlow(status, t)
    ensures !(1 <= step <= MaxStep(t)) ==> status == Confirmed
  {
    match t
    case Delivery =>
      if step == 1 then Confirmed
      else if step == 2 then Preparing
      else if step == 3 then Ready
      else if step == 4 then Delivering
      else if step == 5 then Delivered
      else Confirmed
    case Pickup =>
      if step == 1 then Confirmed
      else if step == 2 then Preparing
      else if step == 3 then ReadyForPickup
      else if step == 4 then PickedUp
      else Confirmed
  }

  lemma StepRoundTrip(step: int, t: OrderType)
    requires 1 <= step <= MaxStep(t)
    ensures StepFromStatus(StatusFromStep(step, t), t) == step
  {
  }

  lemma StatusRoundTrip(status: OrderStatus, t: OrderType)
    requires InFlow(status, t)
    ensures StatusFromStep(StepFromStatus(status, t), t) == status
  {
  }

  /** A step's status is terminal, and so completes the order, exactly at
      the flow's last step. */
  lemma TerminalAtLastStep(step: int, t: OrderType)
    ensures StatusFromStep(MaxStep(t), t) == Terminal(t)
    ensures IsCompletedStatus(StatusFromStep(step, t)) <==> step == MaxStep(t)
  {
  }

  /** The estimate an order shows depends only on its step in its flow. */
  lemma EstimateFollowsStep(status: OrderStatus, t: OrderType)
    ensures EstimatedTime(status, t) == EstimatedTime(StatusFromStep(StepFromStatus(status, t), t), t)
  {
  }

  // ----- the simulator -----

  /** `orderSteps[orderId] || 1`: an unrecorded or zero step reads as 1. */
  function CurrentStep(recorded: Option<int>): (step: int)
    ensures step != 0
    ensures recorded.None? || recorded.value == 0 ==> step == 1
    ensures recorded.Some? && recorded.value != 0 ==> step == recorded.value
  {
    if recorded.None? || recorded.value == 0 then 1 else recorded.value
  }

  /** What one timer period does for a simulated order: nothing, or move to
      `nextStep`, send `status` to the store, and stop when `finished`. */
  datatype Tick = Idle | Advance(nextStep: int, status: OrderStatus, finished: bool)

  /** The advance rule for `orderId`, given whether it is being simulated and
      the step recorded for it. */
  function SimulatorTick(orders: seq<Order>, orderId: string, simulating: bool, recorded: Option<int>): (r: Tick)
    ensures r.Advance? <==>
      && simulating
      && GetOrderById(orders, orderId).Some?
      && !GetOrderById(orders, orderId).value.completed
      && CurrentStep(recorded) < MaxStep(GetOrderById(orders, orderId).value.orderType)
    ensures r.Advance? ==>
      var t := GetOrderById(orders, orderId).value.orderType;
      && r.nextStep == CurrentStep(recorded) + 1
      && r.nextStep <= MaxStep(t)
      && r.status == StatusFromStep(r.nextStep, t)
      && (r.finished <==> r.nextStep == MaxStep(t))
      && (r.finished <==> r.status == Terminal(t))
  {
    if !simulating then Idle
    else match GetOrderById(orders, orderId)
      case None => Idle
      case Some(order) =>
        if order.completed then Idle
        else
          var current := CurrentStep(recorded);
          var maxStep := MaxStep(order.orderType);
          if current >= maxStep then Idle
          else
            var next := current + 1;
            Advance(next, StatusFromStep(next, order.orderType), next == maxStep)
  }

  /** Runs the simulator on one order until it stops: each tick sends its
      status to the store and records its step. */
  function Simulate(orders: seq<Order>, orderId: string, recorded: int): seq<Order>
    decreases 5 - recorded
  {
    match SimulatorTick(orders, orderId, true, Some(recorded))
    case Idle => orders
    case Advance(next, status, finished) =>
      var updated := WithStatus(orders, orderId, status);
      if finished then updated else Simulate(updated, orderId, next)
  }

  /** Simulating an order that is not completed ends with that order at its
      flow's terminal status, completed, with the terminal estimate. */
  lemma {:induction false} SimulationCompletes(orders: seq<Order>, orderId: string, recorded: int)
    requires GetOrderById(orders, orderId).Some?
    requires !GetOrderById(orders, orderId).value.completed
    requires 1 <= recorded < MaxStep(GetOrderById(orders, orderId).value.orderType)
    ensures var o := GetOrderById(orders, orderId).value;
            GetOrderById(Simulate(orders, orderId, recorded), orderId)
              == Some(WithNewStatus(o, Terminal(o.orderType)))
    decreases 5 - recorded
  {
    var o := GetOrderById(orders, orderId).value;
    var tick := SimulatorTick(orders, orderId, true, Some(recorded));
    assert tick.Advance?;
    var updated := WithStatus(orders, orderId, tick.status);
    UpdateStatusThenLookup(orders, orderId, tick.status);
    if !tick.finished {
      TerminalAtLastStep(tick.nextStep, o.orderType);
      SimulationCompletes(updated, orderId, tick.nextStep);
    }
  }

  // ----- the active / completed tabs -----

  function ActiveOrders(s: seq<Order>): (r: seq<Order>)
    ensures forall k :: 0 <= k < |r| ==> !r[k].completed
  {
    if s == [] then [] else if s[0].completed then ActiveOrders(s[1..]) else [s[0]] + ActiveOrders(s[1..])
  }

  function CompletedOrders(s: seq<Order>): (r: seq<Order>)
    ensures forall k :: 0 <= k < |r| ==> r[k].completed
  {
    if s == [] then [] else if s[0].completed then [s[0]] + CompletedOrders(s[1..]) else CompletedOrders(s[1..])
  }

  /** The two tabs split the list: together they hold every order exactly as
      often as the list does. */
  lemma {:induction false} TabsPartition(s: seq<Order>)
    ensures |ActiveOrders(s)| + |CompletedOrders(s)| == |s|
    ensures multiset(ActiveOrders(s)) + multiset(CompletedOrders(s)) == multiset(s)
  {
    if s != [] {
      TabsPartition(s[1..]);
      assert s == [s[0]] + s[1..];
    }
  }

  /** Each tab keeps the list's order: it distributes over concatenation and
      leaves a list of its own kind unchanged. */
  lemma {:induction false} TabsKeepOrder(a: seq<Order>, b: seq<Order>)
    ensures ActiveOrders(a + b) == ActiveOrders(a) + ActiveOrders(b)
    ensures CompletedOrders(a + b) == CompletedOrders(a) + CompletedOrders(b)
  {
    if a == [] {
      assert a + b == b;
    } else {
      assert (a + b)[1..] == a[1..] + b;
      TabsKeepOrder(a[1..], b);
    }
  }

  lemma {:induction false} TabsKeepOwnKind(s: seq<Order>)
    ensures (forall k :: 0 <= k < |s| ==> !s[k].completed) ==> ActiveOrders(s) == s
    ensures (forall k :: 0 <= k < |s| ==> s[k].completed) ==> CompletedOrders(s) == s
  {
    if s != [] {
      TabsKeepOwnKind(s[1..]);
    }
  }

  // ----- labels -----

  function StatusLabel(status: OrderStatus): string
  {
    match status
    case Confirmed => "Confirmed"
    case Preparing => "Preparing"
    case Ready => "Ready"
    case ReadyForPickup => "Ready for Pickup"
    case Delivering => "On the Way"
    case Delivered => "Delivered"
    case PickedUp => "Picked Up"
    case Unknown(_) => "Processing"
  }

  /** The seven statuses have seven different labels, none of them the
      fallback "Processing". */
  lemma StatusLabelsDistinct(a: OrderStatus, b: OrderStatus)
    requires !a.Unknown? && !b.Unknown?
    ensures StatusLabel(a) != "Processing"
    ensures StatusLabel(a) == StatusLabel(b) ==> a == b
  {
  }
}
