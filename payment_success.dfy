/** src/pages/PaymentSuccessPage.jsx: the confirmation page. It loads the
    order named in the URL and, once the order is there, counts down from
    15 one tick per second and then moves to the order history. The
    interval itself is left out: `Tick` is one firing of it. */
module PaymentSuccess {
  import opened Common
  import opened Entities

  /** Seconds before the automatic move to the order history. */
  const CountdownStart := 15
  const FetchError := "Could not retrieve order details."
  const MissingOrderMessage := "Could not load order details."

  /** The outcome of `GET /api/orders/{orderId}`: a failed request, or the
      response body, which may be `null`. */
  datatype OrderFetch = Failed | Fetched(data: Option<Order>)

  /** One step of the countdown: the next value and whether this step stops
      the timer and navigates to `/orders`. */
  datatype TickResult = TickResult(next: int, leave: bool)

  function Step(prev: int): (t: TickResult)
    ensures t.leave <==> prev <= 1
    ensures t.leave ==> t.next == 0
    ensures !t.leave ==> t.next == prev - 1 && t.next >= 1
  {
    if prev <= 1 then TickResult(0, true) else TickResult(prev - 1, false)
  }

  /** The countdown after up to `k` ticks from `c`: its value, how many
      times it navigated, and whether the timer still runs. Ticks after the
      timer is cleared do not happen. */
  datatype Countdown = Countdown(value: int, leaves: nat, running: bool)

  function Run(c: int, k: nat): Countdown
  {
    if k == 0 then Countdown(c, 0, true)
    else if Step(c).leave then Countdown(0, 1, false)
    else Run(Step(c).next, k - 1)
  }

  /** From a positive count `c`, the first `c - 1` ticks only count down,
      the `c`-th navigates once and stops the timer, and the value is never
      negative. */
  lemma {:induction false} RunFrom(c: int, k: nat)
    requires c >= 1
    ensures k < c ==> Run(c, k) == Countdown(c - k, 0, true)
    ensures k >= c ==> Run(c, k) == Countdown(0, 1, false)
    ensures Run(c, k).value >= 0
  {
    if k > 0 && c > 1 {
      RunFrom(c - 1, k - 1);
    }
  }

  /** Starting from 15, the page leaves for the order history exactly once,
      on the 15th tick. */
  lemma LeavesAfterFifteenTicks()
    ensures Run(CountdownStart, 14) == Countdown(1, 0, true)
    ensures Run(CountdownStart, 15) == Countdown(0, 1, false)
  {
    RunFrom(CountdownStart, 14);
    RunFrom(CountdownStart, 15);
  }

  class SuccessPage {
    var order: Option<Order>
    var loading: bool
    var error: Option<string>
    var countdown: int
    var timerRunning: bool
    ghost var navigations: seq<Route>
    ghost var requests: seq<Request>

    constructor ()
      ensures order == None && loading && error == None && countdown == CountdownStart
      ensures !timerRunning && navigations == [] && requests == []
    {
      order, loading, error, countdown, timerRunning := None, true, None, CountdownStart, false;
      navigations, requests := [], [];
    }

    /** The error view shows when there is an error or no order once loading ends. */
    predicate ShowsErrorView()
      reads this
    {
      !loading && (error.Some? || order.None?)
    }

    function ErrorMessage(): (m: string)
      reads this
      ensures error.Some? ==> m == error.value
      ensures error.None? ==> m == MissingOrderMessage
    {
      if error.Some? then error.value else MissingOrderMessage
    }

    /** The first effect: without a (truthy) `orderId` go home and fetch
        nothing, leaving the page in its loading state; otherwise request
        the order. */
    method Mount(orderId: Option<string>) returns (fetching: bool)
      modifies this`navigations, this`requests
      ensures fetching <==> TruthyString(orderId)
      ensures !fetching ==> navigations == old(navigations) + [Home] && requests == old(requests)
      ensures fetching ==> navigations == old(navigations) && requests == old(requests) + [FetchOrder(orderId.value)]
    {
      if !TruthyString(orderId) {
        navigations := navigations + [Home];
        return false;
      }
      requests := requests + [FetchOrder(orderId.value)];
      return true;
    }

    /** `fetchOrderDetails` after its request: the body becomes the order,
        a failure sets the error; loading ends on every path. The second
        effect then starts the countdown only when an order is present. */
    method EndFetch(response: OrderFetch)
      modifies this`order, this`error, this`loading, this`timerRunning
      ensures !loading
      ensures response.Fetched? ==> order == response.data && error == old(error)
      ensures response.Failed? ==> order == old(order) && error == Some(FetchError)
      ensures timerRunning <==> order.Some?
      ensures ShowsErrorView() <==> error.Some? || order.None?
    {
      if response.Fetched? {
        order := response.data;
      } else {
        error := Some(FetchError);
      }
      loading := false;
      timerRunning := order.Some?;
    }

    /** One firing of the countdown interval, which only runs while the
        timer is set. */
    method Tick()
      requires timerRunning
      modifies this`countdown, this`timerRunning, this`navigations
      ensures countdown == Step(old(countdown)).next
      ensures timerRunning <==> !Step(old(countdown)).leave
      ensures navigations == old(navigations) + (if Step(old(countdown)).leave then [OrdersRoute] else [])
    {
      if countdown <= 1 {
        timerRunning := false;
        navigations := navigations + [OrdersRoute];
        countdown := 0;
      } else {
        countdown := countdown - 1;
      }
    }
  }
}
