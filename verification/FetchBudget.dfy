// What the fetches in flight have spent and what the rest of a backfill may still cost. A
// range of n heights needs at most 4n - 1 requests and 16n - 5 units, wasted attempts on
// ranges that are too long included; every doubling of the range size can waste one more.
module FetchBudget {
  import opened Wrappers
  import opened Headers
  import opened Backfill
  import opened Budget
  import opened Scheduler

  // What is counted over the fetches in flight: log requests paid for, answers waited for, or
  // what may still have to be spent, in requests and in cost units.
  datatype Tally = LogRequests | Answers | Requests | Units

  function LogCost(what: Tally): nat {
    match what
    case LogRequests => 0
    case Answers => 0
    case Requests => 1
    case Units => 5
  }

  function Length(r: Range): nat {
    if r.from <= r.to then r.to - r.from + 1 else 0
  }

  // The most that fetching a range may cost.
  function RangeNeed(what: Tally, r: Range): nat {
    if r.from > r.to then 0
    else
      match what
      case LogRequests => 0
      case Answers => 0
      case Requests => 4 * Length(r) - 1
      case Units => 16 * Length(r) - 5
  }

  function Weight(what: Tally, t: Task): nat {
    match what
    case LogRequests => if t.stage.AskLogs? && t.stage.attempt == 1 then 0 else 1
    case Answers => if t.stage.AwaitLogs? || (t.stage.AskBlocks? && t.stage.paid >= Length(t.range)) then 1 else 0
    case _ =>
      match t.stage
      case AskLogs(_) => RangeNeed(what, t.range)
      case AwaitLogs(_) =>
        if RangeNeed(what, t.range) >= LogCost(what) then RangeNeed(what, t.range) - LogCost(what) else 0
      case AskBlocks(_, paid, _) =>
        (if paid <= Length(t.range) then Length(t.range) - paid else 0) + LogCost(what)
  }

  function Total(what: Tally, tasks: seq<Task>): nat {
    if tasks == [] then 0 else Total(what, tasks[..|tasks| - 1]) + Weight(what, Last(tasks))
  }

  lemma NothingSpent(what: Tally)
    ensures Total(what, []) == 0
  {
  }

  lemma {:induction false} TotalConcat(what: Tally, a: seq<Task>, b: seq<Task>)
    ensures Total(what, a + b) == Total(what, a) + Total(what, b)
    decreases |b|
  {
    hide Weight;
    if b == [] {
      assert a + b == a;
    } else {
      assert (a + b)[..|a + b| - 1] == a + b[..|b| - 1];
      TotalConcat(what, a, b[..|b| - 1]);
    }
  }

  lemma TotalOne(what: Tally, t: Task)
    ensures Total(what, [t]) == Weight(what, t)
  {
    hide Weight;
    assert [t][..0] == [];
  }

  lemma TotalSplit(what: Tally, tasks: seq<Task>, i: nat)
    requires i < |tasks|
    ensures Total(what, tasks) == Total(what, tasks[..i] + tasks[i + 1..]) + Weight(what, tasks[i])
  {
    hide Total, Weight;
    var a, t, b := tasks[..i], tasks[i], tasks[i + 1..];
    TotalConcat(what, a + [t], b);
    TotalConcat(what, a, [t]);
    TotalConcat(what, a, b);
    TotalOne(what, t);
    assert tasks == a + [t] + b;
  }

  lemma TotalUpdate(what: Tally, tasks: seq<Task>, i: nat, t: Task)
    requires i < |tasks|
    ensures Total(what, tasks[i := t]) + Weight(what, tasks[i]) == Total(what, tasks) + Weight(what, t)
  {
    hide Total, Weight;
    var tasks' := tasks[i := t];
    TotalSplit(what, tasks, i);
    TotalSplit(what, tasks', i);
    assert tasks'[..i] == tasks[..i] && tasks'[i + 1..] == tasks[i + 1..];
  }

  function QueueNeed(what: Tally, queued: seq<Range>): nat {
    if queued == [] then 0 else RangeNeed(what, queued[0]) + QueueNeed(what, queued[1..])
  }

  lemma {:induction false} QueueNeedConcat(what: Tally, a: seq<Range>, b: seq<Range>)
    ensures QueueNeed(what, a + b) == QueueNeed(what, a) + QueueNeed(what, b)
  {
    hide RangeNeed;
    if a == [] {
      assert a + b == b;
    } else {
      assert (a + b)[1..] == a[1..] + b;
      QueueNeedConcat(what, a[1..], b);
    }
  }

  function Log2(n: nat): nat {
    if n <= 1 then 0 else 1 + Log2(n / 2)
  }

  lemma {:induction false} Log2Grows(a: nat, b: nat)
    requires a <= b
    ensures Log2(a) <= Log2(b)
    decreases b
  {
    if b > 1 && a > 1 { Log2Grows(a / 2, b / 2); }
  }

  // The most that may still have to be spent.
  function Left(what: Tally, tasks: seq<Task>, queued: seq<Range>, unallocated: nat, hi: nat, size: nat): nat {
    Total(what, tasks) + QueueNeed(what, queued) + RangeNeed(what, Range(unallocated, hi)) + LogCost(what) * Log2(size)
  }

  lemma LeftLaunchQueued(what: Tally, tasks: seq<Task>, queued: seq<Range>, unallocated: nat, hi: nat, size: nat)
    requires queued != [] && (what.Requests? || what.Units?)
    ensures Left(what, tasks + [Launched(queued[0])], queued[1..], unallocated, hi, size)
         == Left(what, tasks, queued, unallocated, hi, size)
  {
    TotalConcat(what, tasks, [Launched(queued[0])]);
    TotalOne(what, Launched(queued[0]));
  }

  lemma LeftLaunchFresh(what: Tally, tasks: seq<Task>, queued: seq<Range>, r: Range, hi: nat, size: nat)
    requires r.from <= r.to <= hi && (what.Requests? || what.Units?)
    ensures Left(what, tasks + [Launched(r)], queued, r.to + 1, hi, size)
         <= Left(what, tasks, queued, r.from, hi, size)
  {
    TotalConcat(what, tasks, [Launched(r)]);
    TotalOne(what, Launched(r));
  }

  // Cutting a range up costs no more than the range, and a log request less once it is really
  // cut.
  lemma {:induction false} ChunksNeed(what: Tally, from: nat, to: nat, size: nat)
    requires (what.Requests? || what.Units?) && size >= 1 && from <= to
    ensures QueueNeed(what, Chunks(from, to, size))
         <= RangeNeed(what, Range(from, to)) - (if to - from >= size then LogCost(what) else 0)
    decreases if from <= to then to - from else 0
  {
    var end := ChunkEnd(from, to, size);
    var rest := Chunks(end + 1, to, size);
    assert Chunks(from, to, size) == [Range(from, end)] + rest;
    assert ([Range(from, end)] + rest)[1..] == rest;
    if end < to {
      ChunksNeed(what, end + 1, to, size);
    } else {
      assert rest == [];
    }
  }

  // A range that was too long and is cut up with the size halved: the wasted request is paid
  // for by the cut, or by the size if the range was within it already.
  lemma SplitPays(what: Tally, r: Range, min: nat, size: nat, size': nat)
    requires (what.Requests? || what.Units?) && 1 <= min < Length(r) && min <= size
    requires size' == if size / 2 >= min then size / 2 else min
    ensures QueueNeed(what, Chunks(r.from, r.to, size')) + LogCost(what) * Log2(size')
         <= RangeNeed(what, r) - LogCost(what) + LogCost(what) * Log2(size)
  {
    ChunksNeed(what, r.from, r.to, size');
    Log2Grows(size', size);
    if r.to - r.from < size' {
      assert size' == size / 2 && Log2(size) == 1 + Log2(size / 2);
    }
    var a, b := Log2(size'), Log2(size);
    hide Log2, QueueNeed, Chunks;
    Times(what, a, b);
  }

  lemma Times(what: Tally, a: nat, b: nat)
    requires a <= b + 1
    ensures LogCost(what) * a <= LogCost(what) + LogCost(what) * b
    ensures a <= b ==> LogCost(what) * a <= LogCost(what) * b
    ensures a + 1 <= b ==> LogCost(what) * a + LogCost(what) <= LogCost(what) * b
  {
    match what {
      case LogRequests =>
      case Answers =>
      case Requests =>
      case Units =>
    }
  }

  // A success doubles the size at most.
  lemma DoublePays(what: Tally, size: nat, size': nat)
    requires size' <= 2 * size && size >= 1
    ensures LogCost(what) * Log2(size') <= LogCost(what) + LogCost(what) * Log2(size)
  {
    Log2Grows(size', 2 * size);
    assert Log2(2 * size) == 1 + Log2(2 * size / 2) && 2 * size / 2 == size;
    var a, b := Log2(size'), Log2(size);
    hide Log2;
    Times(what, a, b);
  }

  // At the start everything is unallocated.
  lemma LeftAtStart(r: Range, size: nat)
    requires r.from <= r.to
    ensures Left(Requests, [], [], r.from, r.to, size) == 4 * Length(r) - 1 + Log2(size)
    ensures Left(Units, [], [], r.from, r.to, size) == 16 * Length(r) - 5 + 5 * Log2(size)
  {
  }
}
