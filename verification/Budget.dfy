// Request budgets: a lifetime budget for bounded jobs and a fixed-window budget for the
// live tracker, with the rate bound the window gives.
module Budget {
  import opened Wrappers
  import opened Headers

  datatype RpcMethod = GetBlockByNumber | GetBlockByHash | GetLogs

  function DefaultCost(m: RpcMethod): (r: nat)
    ensures m.GetLogs? ==> r == 5
    ensures m.GetBlockByNumber? || m.GetBlockByHash? ==> r == 1
  {
    if m.GetLogs? then 5 else 1
  }

  // Unsigned 64-bit saturating addition.
  function SaturatingAdd(a: nat, b: nat): nat {
    if a + b > U64_MAX then U64_MAX else a + b
  }

  function Max(a: nat, b: nat): nat {
    if a < b then b else a
  }

  datatype BudgetError = EmptyRequestBudget | EmptyCostBudget | RequestBudgetExceeded(maxRequests: nat)
      | CostBudgetExceeded(maxCost: nat)

  class RpcBudget {
    const maxRequests: nat
    const maxCost: nat
    var requests: nat
    var cost: nat

    ghost predicate Valid()
      reads this
    {
      requests <= maxRequests <= U64_MAX && cost <= maxCost <= U64_MAX
    }

    constructor (maxRequests: nat, maxCost: nat)
      requires 1 <= maxRequests <= U64_MAX && 1 <= maxCost <= U64_MAX
      ensures Valid() && this.maxRequests == maxRequests && this.maxCost == maxCost && requests == 0 && cost == 0
    {
      this.maxRequests := maxRequests;
      this.maxCost := maxCost;
      requests := 0;
      cost := 0;
    }

    // Below the 64-bit ceiling a request is admitted exactly when both caps still cover
    // it; a refused request changes nothing.
    method Record(m: RpcMethod, units: nat) returns (r: Option<BudgetError>)
      requires Valid()
      modifies this
      ensures Valid()
      ensures r.None? <==>
                && SaturatingAdd(old(requests), 1) <= maxRequests
                && SaturatingAdd(old(cost), Max(units, DefaultCost(m))) <= maxCost
      ensures r.None? && maxRequests < U64_MAX ==> requests == old(requests) + 1
      ensures r.None? && maxCost < U64_MAX ==> cost == old(cost) + Max(units, DefaultCost(m))
      ensures r.None? ==> requests >= old(requests) && cost >= old(cost)
      ensures r.Some? ==> requests == old(requests) && cost == old(cost)
      ensures r.Some? ==>
                r.value == if SaturatingAdd(old(requests), 1) > maxRequests then RequestBudgetExceeded(maxRequests)
                           else CostBudgetExceeded(maxCost)
    {
      var nextRequests := SaturatingAdd(requests, 1);
      var nextCost := SaturatingAdd(cost, Max(units, DefaultCost(m)));
      if nextRequests > maxRequests {
        return Some(RequestBudgetExceeded(maxRequests));
      }
      if nextCost > maxCost {
        return Some(CostBudgetExceeded(maxCost));
      }
      requests := nextRequests;
      cost := nextCost;
      r := None;
    }
  }

  // ------------------------------------------------------------------ the live window

  // One admitted request: when, its cost, and the start of the window that admitted it.
  datatype Admission = Admission(time: nat, cost: nat, start: nat)

  // The window's start and what was admitted so far.
  datatype Window = Window(startedAt: nat, admitted: seq<Admission>)

  datatype Request = Request(rpc: RpcMethod, time: nat)

  // One request: a window that has passed is replaced, then the request is admitted if the
  // current window's total allows it.
  function Ask(s: Window, cap: nat, window: nat, r: Request): Window {
    var start := if r.time >= s.startedAt + window then r.time else s.startedAt;
    var cost := DefaultCost(r.rpc);
    var fits := StartSum(s.admitted, start) + cost <= cap;
    Window(start, if fits then s.admitted + [Admission(r.time, cost, start)] else s.admitted)
  }

  function AskAll(s: Window, cap: nat, window: nat, rs: seq<Request>): Window {
    if rs == [] then s else Ask(AskAll(s, cap, window, rs[..|rs| - 1]), cap, window, Last(rs))
  }

  class WindowedLiveBudget {
    const maxCost: nat
    const window: nat
    var startedAt: nat
    var budget: RpcBudget
    ghost var admitted: seq<Admission>

    ghost predicate Valid()
      reads this, budget
    {
      && budget.Valid() && budget.maxRequests == U64_MAX && budget.maxCost == maxCost
      && 1 <= maxCost < U64_MAX && window >= 1
      && Windowed(admitted, maxCost, window)
      && budget.cost == StartSum(admitted, startedAt)
      && (admitted != [] ==>
          StartsBefore(Last(admitted).start, startedAt, window) && Last(admitted).time < Last(admitted).start + window)
    }

    constructor (maxCost: nat, window: nat, now: nat)
      requires 1 <= maxCost < U64_MAX && window >= 1
      ensures Valid() && fresh(budget) && admitted == [] && startedAt == now
      ensures this.maxCost == maxCost && this.window == window
    {
      this.maxCost := maxCost;
      this.window := window;
      startedAt := now;
      budget := new RpcBudget(U64_MAX, maxCost);
      admitted := [];
    }

    // Admits the request in the current window, opening a new one when the window has
    // passed, or returns how long to wait. A caller that waits exactly that long is
    // admitted whenever the cap covers the method at all.
    method RecordAt(m: RpcMethod, now: nat) returns (delay: Option<nat>)
      requires Valid() && startedAt <= now && (admitted != [] ==> Last(admitted).time <= now)
      modifies this, budget
      ensures Valid() && (budget == old(budget) || fresh(budget)) && startedAt <= now < startedAt + window
      ensures startedAt == if now - old(startedAt) >= window then now else old(startedAt)
      ensures delay.None? ==> admitted == old(admitted) + [Admission(now, DefaultCost(m), startedAt)]
      ensures delay.Some? ==>
                admitted == old(admitted) && delay.value == startedAt + window - now && 0 < delay.value <= window
      ensures now - old(startedAt) >= window ==> (delay.None? <==> DefaultCost(m) <= maxCost)
      ensures now - old(startedAt) < window ==>
                (delay.None? <==> StartSum(old(admitted), old(startedAt)) + DefaultCost(m) <= maxCost)
      ensures Window(startedAt, admitted)
                == Ask(Window(old(startedAt), old(admitted)), maxCost, window, Request(m, now))
    {
      hide Windowed;
      if now - startedAt >= window {
        Reset(now);
      }
      delay := RecordInWindow(m, now);
    }

    // Opens a new window.
    method Reset(now: nat)
      requires Valid() && startedAt + window <= now
      modifies this
      ensures Valid() && fresh(budget) && startedAt == now && admitted == old(admitted)
      ensures StartSum(admitted, now) == 0
    {
      StartSumFresh(admitted, maxCost, window, startedAt, now);
      startedAt := now;
      budget := new RpcBudget(U64_MAX, maxCost);
    }

    // A request within the current window.
    method RecordInWindow(m: RpcMethod, now: nat) returns (delay: Option<nat>)
      requires Valid() && startedAt <= now < startedAt + window
      modifies this`admitted, budget
      ensures Valid()
      ensures delay.None? <==> StartSum(old(admitted), startedAt) + DefaultCost(m) <= maxCost
      ensures admitted == if delay.None?
                          then old(admitted) + [Admission(now, DefaultCost(m), startedAt)] else old(admitted)
      ensures delay.Some? ==> delay.value == startedAt + window - now
    {
      var refused := budget.Record(m, DefaultCost(m));
      if refused.None? {
        ghost var a := Admission(now, DefaultCost(m), startedAt);
        WindowedAppend(admitted, a, maxCost, window);
        admitted := admitted + [a];
        return None;
      }
      delay := Some(window - (now - startedAt));
    }
  }

  predicate StartsBefore(s: nat, s': nat, window: nat) {
    s == s' || s + window <= s'
  }

  function StartSum(log: seq<Admission>, start: nat): nat {
    if log == [] then 0 else StartSum(log[..|log| - 1], start) + if Last(log).start == start then Last(log).cost else 0
  }

  // Cost admitted in the half-open interval of one window length from x.
  function IntervalSum(log: seq<Admission>, x: nat, window: nat): nat {
    if log == [] then 0
    else IntervalSum(log[..|log| - 1], x, window) + if x <= Last(log).time < x + window then Last(log).cost else 0
  }

  // Admissions fall in their window, windows start at least one length apart, and each
  // window's total is within the cap.
  ghost predicate Windowed(log: seq<Admission>, cap: nat, window: nat) {
    && (forall i | 0 <= i < |log| :: log[i].start <= log[i].time < log[i].start + window)
    && StartsApart(log, window)
    && (forall s: nat :: StartSum(log, s) <= cap)
  }

  lemma {:induction false} StartSumNone(log: seq<Admission>, s: nat)
    requires forall i | 0 <= i < |log| :: log[i].start != s
    ensures StartSum(log, s) == 0
    decreases |log|
  {
    if log != [] { StartSumNone(log[..|log| - 1], s); }
  }

  lemma StartSumFresh(log: seq<Admission>, cap: nat, window: nat, start: nat, now: nat)
    requires Windowed(log, cap, window) && window >= 1 && start + window <= now
    requires log != [] ==> StartsBefore(Last(log).start, start, window)
    ensures StartSum(log, now) == 0
  {
    forall i | 0 <= i < |log| ensures log[i].start != now {
      if i < |log| - 1 { assert StartsBefore(log[i].start, log[|log| - 1].start, window); }
    }
    StartSumNone(log, now);
  }

  predicate StartsApart(log: seq<Admission>, window: nat) {
    forall i, j | 0 <= i < j < |log| :: StartsBefore(log[i].start, log[j].start, window)
  }

  lemma StartsAppend(log: seq<Admission>, a: Admission, window: nat)
    requires StartsApart(log, window) && (log != [] ==> StartsBefore(Last(log).start, a.start, window))
    ensures StartsApart(log + [a], window)
  {
    var log' := log + [a];
    forall i, j | 0 <= i < j < |log'| ensures StartsBefore(log'[i].start, log'[j].start, window) {
      if j == |log| && i < |log| - 1 {
        assert StartsBefore(log[i].start, log[|log| - 1].start, window);
      }
    }
  }

  lemma StartSumAppend(log: seq<Admission>, a: Admission, s: nat)
    ensures StartSum(log + [a], s) == StartSum(log, s) + if a.start == s then a.cost else 0
  {
    assert (log + [a])[..|log|] == log;
  }

  lemma WindowedAppend(log: seq<Admission>, a: Admission, cap: nat, window: nat)
    requires Windowed(log, cap, window) && a.start <= a.time < a.start + window
    requires log != [] ==> StartsBefore(Last(log).start, a.start, window)
    requires StartSum(log, a.start) + a.cost <= cap
    ensures Windowed(log + [a], cap, window)
    ensures forall s: nat :: StartSum(log + [a], s) == StartSum(log, s) + if s == a.start then a.cost else 0
  {
    hide StartSum, StartsBefore;
    StartsAppend(log, a, window);
    forall s: nat ensures StartSum(log + [a], s) == StartSum(log, s) + if s == a.start then a.cost else 0 {
      StartSumAppend(log, a, s);
    }
  }

  // An interval of one window length meets at most two windows.
  lemma {:induction false} TwoWindows(log: seq<Admission>, cap: nat, window: nat, x: nat) returns (s: nat, s': nat)
    requires Windowed(log, cap, window)
    ensures forall i | 0 <= i < |log| && x <= log[i].time < x + window :: log[i].start == s || log[i].start == s'
    decreases |log|
  {
    if i :| 0 <= i < |log| && x <= log[i].time < x + window {
      s, s' := log[i].start, log[i].start;
      if j :| 0 <= j < |log| && x <= log[j].time < x + window && log[j].start != s {
        s' := log[j].start;
        forall k | 0 <= k < |log| && x <= log[k].time < x + window ensures log[k].start == s || log[k].start == s' {
          assert StartsBefore(log[i].start, log[j].start, window) || StartsBefore(log[j].start, log[i].start, window);
          assert i < k ==> StartsBefore(log[i].start, log[k].start, window);
          assert k < i ==> StartsBefore(log[k].start, log[i].start, window);
          assert j < k ==> StartsBefore(log[j].start, log[k].start, window);
          assert k < j ==> StartsBefore(log[k].start, log[j].start, window);
        }
      }
    } else {
      s, s' := 0, 0;
    }
  }

  lemma {:induction false} IntervalWithinStarts(log: seq<Admission>, x: nat, window: nat, s: nat, s': nat)
    requires forall i | 0 <= i < |log| && x <= log[i].time < x + window :: log[i].start == s || log[i].start == s'
    ensures IntervalSum(log, x, window) <= StartSum(log, s) + StartSum(log, s')
    decreases |log|
  {
    if log != [] {
      IntervalWithinStarts(log[..|log| - 1], x, window, s, s');
    }
  }

  // Rate bound: whatever is requested when, any interval of one window length admits at
  // most twice the cap.
  lemma RateBound(log: seq<Admission>, cap: nat, window: nat, x: nat)
    requires Windowed(log, cap, window)
    ensures IntervalSum(log, x, window) <= 2 * cap
  {
    var s, s' := TwoWindows(log, cap, window, x);
    IntervalWithinStarts(log, x, window, s, s');
  }

  lemma IntervalAppend(log: seq<Admission>, a: Admission, x: nat, window: nat)
    ensures IntervalSum(log + [a], x, window)
         == IntervalSum(log, x, window) + if x <= a.time < x + window then a.cost else 0
  {
    assert (log + [a])[..|log|] == log;
  }

  // ------------------------------------------------------------------ runs of the window

  ghost predicate InOrder(rs: seq<Request>, from: nat) {
    && (forall i | 0 <= i < |rs| :: from <= rs[i].time)
    && (forall i, j | 0 <= i < |rs| && 0 <= j < |rs| && j == i + 1 :: rs[i].time <= rs[j].time)
  }

  ghost predicate WindowOk(s: Window, cap: nat, window: nat) {
    Windowed(s.admitted, cap, window)
        && (s.admitted != [] ==> StartsBefore(Last(s.admitted).start, s.startedAt, window))
  }

  lemma AskKeepsWindow(s: Window, cap: nat, window: nat, r: Request)
    requires WindowOk(s, cap, window) && window >= 1 && s.startedAt <= r.time
    ensures WindowOk(Ask(s, cap, window, r), cap, window) && Ask(s, cap, window, r).startedAt <= r.time
  {
    var start := Ask(s, cap, window, r).startedAt;
    var cost := DefaultCost(r.rpc);
    if StartSum(s.admitted, start) + cost <= cap {
      WindowedAppend(s.admitted, Admission(r.time, cost, start), cap, window);
    }
  }

  lemma {:induction false} AskAllKeepsWindow(s: Window, cap: nat, window: nat, rs: seq<Request>)
    requires WindowOk(s, cap, window) && window >= 1 && InOrder(rs, s.startedAt)
    ensures WindowOk(AskAll(s, cap, window, rs), cap, window)
    ensures AskAll(s, cap, window, rs).startedAt <= if rs == [] then s.startedAt else Last(rs).time
    decreases |rs|
  {
    hide WindowOk, Ask;
    if rs != [] {
      var n := |rs| - 1;
      AskAllKeepsWindow(s, cap, window, rs[..n]);
      assert n > 0 ==> rs[n - 1].time <= rs[n].time;
      AskKeepsWindow(AskAll(s, cap, window, rs[..n]), cap, window, rs[n]);
    }
  }

  // Over every run of requests in time order, any interval of one window length admits at
  // most twice the cap.
  lemma RunRateBound(now: nat, cap: nat, window: nat, rs: seq<Request>, x: nat)
    requires window >= 1 && InOrder(rs, now)
    ensures IntervalSum(AskAll(Window(now, []), cap, window, rs).admitted, x, window) <= 2 * cap
  {
    AskAllKeepsWindow(Window(now, []), cap, window, rs);
    RateBound(AskAll(Window(now, []), cap, window, rs).admitted, cap, window, x);
  }

  // n requests of cost one at one time.
  function Burst(n: nat, time: nat): seq<Request> {
    seq(n, i => Request(GetBlockByNumber, time))
  }

  lemma {:induction false} AskAllConcat(s: Window, cap: nat, window: nat, a: seq<Request>, b: seq<Request>)
    ensures AskAll(s, cap, window, a + b) == AskAll(AskAll(s, cap, window, a), cap, window, b)
    decreases |b|
  {
    if b == [] {
      assert a + b == a;
    } else {
      assert (a + b)[..|a + b| - 1] == a + b[..|b| - 1];
      AskAllConcat(s, cap, window, a, b[..|b| - 1]);
    }
  }

  // One request of a burst.
  lemma AskOnce(s: Window, cap: nat, window: nat, time: nat, start: nat, x: nat) returns (d: Window)
    requires window >= 1 && s.startedAt <= time && x <= time < x + window
    requires start == (if time >= s.startedAt + window then time else s.startedAt)
    requires StartSum(s.admitted, start) + 1 <= cap
    ensures d == Ask(s, cap, window, Request(GetBlockByNumber, time)) && d.startedAt == start
    ensures forall k :: StartSum(d.admitted, k) == StartSum(s.admitted, k) + if k == start then 1 else 0
    ensures IntervalSum(d.admitted, x, window) == IntervalSum(s.admitted, x, window) + 1
  {
    var a := Admission(time, 1, start);
    d := Window(start, s.admitted + [a]);
    forall k ensures StartSum(d.admitted, k) == StartSum(s.admitted, k) + if k == start then 1 else 0 {
      StartSumAppend(s.admitted, a, k);
    }
    IntervalAppend(s.admitted, a, x, window);
  }

  // A burst that the current or the next window can hold is admitted whole.
  lemma {:induction false} BurstFits(s: Window, cap: nat, window: nat, n: nat, time: nat, start: nat, x: nat)
    requires window >= 1 && s.startedAt <= time && x <= time < x + window
    requires start == (if time >= s.startedAt + window then time else s.startedAt)
    requires StartSum(s.admitted, start) + n <= cap
    ensures var d := AskAll(s, cap, window, Burst(n, time));
            && (n > 0 ==> d.startedAt == start)
            && StartSum(d.admitted, start) == StartSum(s.admitted, start) + n
            && (forall k | k != start :: StartSum(d.admitted, k) == StartSum(s.admitted, k))
            && IntervalSum(d.admitted, x, window) == IntervalSum(s.admitted, x, window) + n
    decreases n
  {
    if n > 0 {
      assert Burst(n, time)[..n - 1] == Burst(n - 1, time);
      BurstFits(s, cap, window, n - 1, time, start, x);
      var before := AskAll(s, cap, window, Burst(n - 1, time));
      assert AskAll(s, cap, window, Burst(n, time)) == Ask(before, cap, window, Request(GetBlockByNumber, time));
      hide Ask, StartSum, IntervalSum;
      var d := AskOnce(before, cap, window, time, start, x);
    }
  }

  lemma NothingAdmitted(x: nat, window: nat)
    ensures IntervalSum([], x, window) == 0 && forall s :: StartSum([], s) == 0
  {
  }

  lemma BurstsInOrder(n: nat, window: nat)
    requires window >= 1
    ensures InOrder(Burst(n, window - 1) + Burst(n, window), 0)
  {
  }

  // The factor two is reached by a run: a full window's worth of single-unit requests at the
  // end of the first window, and as many again when the next one opens.
  lemma RateBoundIsTight(cap: nat, window: nat) returns (rs: seq<Request>, x: nat)
    requires window >= 2 && cap >= 1
    ensures InOrder(rs, 0) && IntervalSum(AskAll(Window(0, []), cap, window, rs).admitted, x, window) == 2 * cap
  {
    hide AskAll, IntervalSum, StartSum, Burst;
    x := 1;
    NothingAdmitted(x, window);
    BurstsInOrder(cap, window);
    var first, second, s0 := Burst(cap, window - 1), Burst(cap, window), Window(0, []);
    rs := first + second;
    BurstFits(s0, cap, window, cap, window - 1, 0, x);
    BurstFits(AskAll(s0, cap, window, first), cap, window, cap, window, window, x);
    AskAllConcat(s0, cap, window, first, second);
  }
}
