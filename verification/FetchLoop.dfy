// The fetch-and-commit loop in place, over the store. Which in-flight fetch makes its next
// step, what the provider answers and where the writer crashes are all left open.
module FetchLoop {
  import opened Wrappers
  import opened Headers
  import opened Backfill
  import opened Fetch
  import opened Committer
  import opened RangeSink
  import opened Budget
  import opened Scheduler
  import opened FetchBudget
  import opened OneChain

  // What the provider answers. A failure is worth another attempt or not; too many logs for
  // one request is an answer of its own.
  datatype LogsAnswer = Logs(logs: seq<AnchoredLog>) | TooMany | LogsUnavailable | LogsRefused

  datatype HeadersAnswer = Delivered(headers: seq<Header>) | HeadersUnavailable | HeadersRefused

  class Provider {
    const logs: (nat, Range) -> LogsAnswer
    const headers: (nat, Range) -> HeadersAnswer
    var asked: nat

    constructor (logs: (nat, Range) -> LogsAnswer, headers: (nat, Range) -> HeadersAnswer)
      ensures this.logs == logs && this.headers == headers
    {
      this.logs := logs;
      this.headers := headers;
      asked := 0;
    }

    method FetchLogs(range: Range) returns (r: LogsAnswer)
      modifies this
      ensures r == logs(old(asked), range)
    {
      r := logs(asked, range);
      asked := asked + 1;
    }

    method FetchHeaders(range: Range) returns (r: HeadersAnswer)
      modifies this
      ensures r == headers(old(asked), range)
    {
      r := headers(asked, range);
      asked := asked + 1;
    }
  }

  // Why a fetch ended without a range: the budget refused a request, an attempt was the last
  // one, or what came back does not fit together.
  datatype FetchFailure = OverBudget | GaveUp(attempt: nat) | Unusable

  datatype Completion = Ready(fetched: Fetched) | Limited | Broken(failure: FetchFailure)

  datatype LoopError = FetchFailed(failure: FetchFailure) | CommitRefused(error: BackfillError)

  // Going from one window to the next, fresh ranges are allocated only after the queue was
  // taken from the front, in order.
  ghost predicate QueueFirst(tasks: seq<Task>, queued: seq<Range>, unallocated: nat,
                             tasks': seq<Task>, queued': seq<Range>, unallocated': nat) {
    var took := |queued| - |queued'|;
    && 0 <= took && queued' == queued[took..] && tasks <= tasks' && |tasks'| >= |tasks| + took
    && (forall i | 0 <= i < took :: tasks'[|tasks| + i].range == queued[i])
    && (queued' != [] ==> unallocated' == unallocated && |tasks'| == |tasks| + took)
  }

  // What pushing a range that fits comes to.
  lemma PushFacts(c: Coord, accepts: Accepts, f: Fetched, start: nat, anchor: Option<Header>, others: multiset<Range>)
    requires CoordOk(c, start, anchor) && Covers(f.range, f.headers) && c.next <= c.target + 1
    requires c.next <= f.range.from && f.range.to <= c.target
    requires forall k | k in c.pending :: Disjoint(c.pending[k].range, f.range)
    ensures var d, r := Push(c, accepts, f).coord, Push(c, accepts, f).result;
            && CoordOk(d, start, anchor) && c.next <= d.next <= c.target + 1 && d.target == c.target
            && (r.Success? ==>
                  && d.next !in d.pending && Reports(r.value, NO_PROGRESS, c, d)
                  && (Tiles(multiset(ParkedRanges(c.pending[f.range.from := f])) + others, c.next, c.target)
                      ==> Tiles(multiset(ParkedRanges(d.pending)) + others, d.next, c.target)))
            && (r.Failure? ==>
                  && (r.error == Commit || r.error.FetchedSuffixInvalidated?)
                  && (r.error.FetchedSuffixInvalidated? ==>
                      0 < r.error.refetchFrom == d.next <= c.target && d.pending == map[]))
  {
    hide Tiles, Linked;
    PushKeepsOk(c, accepts, f, start, anchor);
    var parked := c.(pending := c.pending[f.range.from := f]);
    var d := Drain(parked, accepts, NO_PROGRESS);
    DrainKeepsParked(parked, accepts, NO_PROGRESS);
    if d.result.Success? {
      DrainCounts(parked, accepts, NO_PROGRESS, d);
      if Tiles(multiset(ParkedRanges(parked.pending)) + others, parked.next, parked.target) {
        DrainKeepsTiles(parked, accepts, NO_PROGRESS, others, d);
      }
    } else {
      DrainFails(parked, accepts, NO_PROGRESS, d);
    }
  }

  // ------------------------------------------------------------------ the loop

  class Loop {
    const full: Range
    const workers: nat
    const maxAttempts: nat
    ghost const world: World
    ghost const truth: seq<Header>
    ghost const limit: nat
    const anchor: Option<Header>
    const coordinator: Coordinator
    const sink: Sink
    const sizer: LogRangeSizer
    const budget: RpcBudget
    const provider: Provider
    var tasks: seq<Task>
    var queued: seq<Range>
    var nextUnallocated: nat
    var inFlight: nat
    var progress: Progress

    ghost predicate Configured()
      reads this, coordinator, sink, sink.committer, sink.committer.writer.db, sizer, budget
    {
      && workers >= 1 && full.from <= full.to < U64_MAX
      && sizer.Valid() && budget.Valid() && budget.maxRequests < U64_MAX && budget.maxCost < U64_MAX
      && coordinator.target == full.to && Honest() && anchor == TopOf(sink.base)
    }

    // What the provider returns are genuine headers.
    ghost predicate Honest() {
      forall n: nat, range: Range :: provider.headers(n, range).Delivered? ==>
          AllGenuine(world, provider.headers(n, range).headers)
    }

    // The provider serves one chain, for ranges of up to `limit` heights, and limits longer
    // ones; the columns can hold it and nothing crashes.
    ghost predicate Cooperative() {
      && ChainFor(world, truth, full, anchor) && sizer.min <= limit
      && (forall n: nat, r: Range | Within(r, full) :: Serves(n, r))
      && (forall n: nat :: sink.crashes(n).None?)
    }

    ghost predicate Serves(n: nat, r: Range)
      requires |truth| == Length(full)
    {
      && (if Length(r) <= limit
          then provider.logs(n, r).Logs? && GoodLogs(provider.logs(n, r).logs, Part(truth, full, r))
          else provider.logs(n, r).TooMany?)
      && provider.headers(n, r) == Delivered(Part(truth, full, r))
    }

    // What is left to do with the fetches of `flight` is within both caps.
    ghost predicate Affordable(flight: seq<Task>)
      reads this`queued, this`nextUnallocated, budget, sizer
    {
      && budget.requests + Left(Requests, flight, queued, nextUnallocated, full.to, sizer.current)
           <= budget.maxRequests
      && budget.cost + Left(Units, flight, queued, nextUnallocated, full.to, sizer.current) <= budget.maxCost
    }

    // The fetches are for ranges of the chain and have what it says.
    ghost predicate FetchesOk(flight: seq<Task>)
      requires |truth| == Length(full)
    {
      forall t | t in flight :: FetchOk(t)
    }

    ghost predicate FetchOk(t: Task)
      requires |truth| == Length(full)
    {
      && Within(t.range, full)
      && (t.stage.AskBlocks? ==>
            && t.stage.paid <= Length(t.range) <= limit
            && GoodLogs(t.stage.logs, Part(truth, full, t.range)))
    }

    // With a cooperative provider everything stays on the chain and within the budget.
    ghost predicate Bright(flight: seq<Task>)
      reads this`queued, this`nextUnallocated, this`progress, coordinator, sink, sizer, budget
    {
      BrightBut(flight, NO_PROGRESS)
    }

    // The same when the report still lacks p.
    ghost predicate BrightBut(flight: seq<Task>, p: Progress)
      reads this`queued, this`nextUnallocated, this`progress, coordinator, sink, sizer, budget
    {
      && Cooperative() && OnTruth(View(coordinator, sink), truth, full) && FetchesOk(flight)
      && (forall r | r in queued :: Within(r, full)) && full.from <= nextUnallocated
      && progress.ranges + p.ranges == |sink.committed| && progress.logs + p.logs == Items(sink.committed)
      && Affordable(flight)
    }

    // Nothing has happened yet.
    ghost predicate Fresh()
      reads this, coordinator, sink
    {
      && tasks == [] && queued == [] && nextUnallocated == full.from && progress == NO_PROGRESS
      && coordinator.nextHeight == full.from && coordinator.pending == map[] && sink.committed == []
    }

    // The caps that are enough for every schedule: per height a log request, a header, and a
    // log request that is too long twice; and one more of those for every time the range
    // size can be halved.
    ghost predicate Funded()
      reads this, budget, sizer
    {
      && budget.requests + 4 * Length(full) - 1 + Log2(sizer.current) <= budget.maxRequests
      && budget.cost + 16 * Length(full) - 5 + 5 * Log2(sizer.current) <= budget.maxCost
    }

    // The store holds what the coordinator stands on, and nothing is in doubt.
    ghost predicate Grounded()
      reads coordinator, sink, sink.committer, sink.committer.writer.db
    {
      Bound(world, coordinator, sink) && sink.Settled(world)
    }

    ghost function Work(): multiset<Range>
      reads this, coordinator
    {
      Parts(coordinator.pending, tasks, queued, nextUnallocated, full.to)
    }

    // Every fetch that completed, and every one in flight that is past its first request, has
    // paid for a request for logs.
    ghost predicate Paid(done: nat)
      reads this, budget
    {
      && done + Total(LogRequests, tasks) <= budget.requests
      && 5 * (done + Total(LogRequests, tasks)) <= budget.cost
    }

    // The heights from the next one to the target are partitioned exactly by parked,
    // in-flight, queued and unallocated ranges; what is committed is gap-free and what the
    // store holds; and the progress report counts exactly what is committed.
    ghost predicate Inv(done: nat)
      reads this, coordinator, sink, sink.committer, sink.committer.writer.db, sizer, budget
    {
      && Configured()
      && CoordOk(View(coordinator, sink), full.from, anchor) && Grounded()
      && full.from <= coordinator.nextHeight <= full.to + 1 && coordinator.nextHeight !in coordinator.pending
      && Tiles(Work(), coordinator.nextHeight, full.to)
      && inFlight == |tasks|
      && Counted()
      && Paid(done)
    }

    // The report's blocks and last height are those committed.
    ghost predicate Counted()
      reads this, coordinator
    {
      && progress.blocks + full.from == coordinator.nextHeight
      && progress.lastHeight == if coordinator.nextHeight > full.from then Some(coordinator.nextHeight - 1) else None
    }

    constructor (full: Range, workers: nat, maxAttempts: nat, anchor: Option<Header>, coordinator: Coordinator,
                 sink: Sink, sizer: LogRangeSizer, budget: RpcBudget, provider: Provider, ghost world: World,
                 ghost truth: seq<Header>, ghost limit: nat)
      requires forall n: nat, range: Range :: provider.headers(n, range).Delivered? ==>
                 AllGenuine(world, provider.headers(n, range).headers)
      requires sink.Settled(world) && anchor == TopOf(sink.base)
      requires workers >= 1 && full.from <= full.to < U64_MAX && AnchorFits(full.from, anchor)
      requires coordinator.nextHeight == full.from && coordinator.target == full.to
      requires coordinator.parentAnchor == anchor && coordinator.pending == map[] && sink.committed == []
      requires sizer.Valid() && budget.Valid() && budget.maxRequests < U64_MAX && budget.maxCost < U64_MAX
      ensures Inv(0) && this.full == full && this.workers == workers && this.anchor == anchor
      ensures this.coordinator == coordinator && this.sink == sink && this.sizer == sizer && this.budget == budget
      ensures this.provider == provider && this.world == world && this.maxAttempts == maxAttempts
      ensures this.truth == truth && this.limit == limit && Fresh()
    {
      this.world := world;
      this.truth := truth;
      this.limit := limit;
      this.maxAttempts := maxAttempts;
      this.full := full;
      this.workers := workers;
      this.anchor := anchor;
      this.coordinator := coordinator;
      this.sink := sink;
      this.sizer := sizer;
      this.budget := budget;
      this.provider := provider;
      tasks := [];
      queued := [];
      nextUnallocated := full.from;
      inFlight := 0;
      progress := NO_PROGRESS;
      new;
      TilesOne(full);
      assert Work() == multiset{full} by {
        assert ParkedRanges(coordinator.pending) == {};
        assert Rest(full.from, full.to) == multiset{full};
      }
      assert AnchorRun(anchor) + Flat([]) == AnchorRun(anchor);
    }

    method Spawn(range: Range, ghost done: nat)
      requires Configured() && inFlight == |tasks| && Paid(done)
      modifies this`tasks, this`inFlight
      ensures tasks == old(tasks) + [Launched(range)] && inFlight == |tasks| && Paid(done)
    {
      TotalConcat(LogRequests, tasks, [Launched(range)]);
      TotalOne(LogRequests, Launched(range));
      tasks := tasks + [Launched(range)];
      inFlight := inFlight + 1;
    }

    method SpawnQueued(ghost done: nat)
      requires Configured() && inFlight == |tasks| && Paid(done) && queued != []
      requires Tiles(Work(), coordinator.nextHeight, full.to)
      modifies this`tasks, this`queued, this`inFlight
      ensures inFlight == |tasks| == |old(tasks)| + 1 && Paid(done)
      ensures tasks == old(tasks) + [Launched(old(queued)[0])] && queued == old(queued)[1..]
      ensures Tiles(Work(), coordinator.nextHeight, full.to)
      ensures old(Bright(tasks)) ==> Bright(tasks)
    {
      hide Tiles, Parts, Total, QueueNeed, RangeNeed, Log2, Cooperative, OnTruth;
      var range := queued[0];
      LaunchQueued(coordinator.pending, tasks, queued, nextUnallocated, full.to);
      LeftLaunchQueued(Requests, tasks, queued, nextUnallocated, full.to, sizer.current);
      LeftLaunchQueued(Units, tasks, queued, nextUnallocated, full.to, sizer.current);
      queued := queued[1..];
      Spawn(range, done);
    }

    method SpawnFresh(ghost done: nat) returns (spawned: bool)
      requires Configured() && inFlight == |tasks| && Paid(done)
      requires Tiles(Work(), coordinator.nextHeight, full.to)
      modifies this`tasks, this`nextUnallocated, this`inFlight
      ensures inFlight == |tasks| == |old(tasks)| + (if spawned then 1 else 0) && Paid(done)
      ensures old(tasks) <= tasks && (!spawned ==> nextUnallocated == old(nextUnallocated))
      ensures Tiles(Work(), coordinator.nextHeight, full.to)
      ensures !spawned ==> nextUnallocated > full.to
      ensures spawned ==>
                && Last(tasks).range.from == old(nextUnallocated) && nextUnallocated == Last(tasks).range.to + 1
                && (Length(Last(tasks).range) == sizer.current || nextUnallocated == full.to + 1)
      ensures old(Bright(tasks)) ==> Bright(tasks)
    {
      hide Tiles, Parts, Total, Bright;
      var candidate := sizer.NextRange(nextUnallocated, full.to);
      if candidate.None? {
        return false;
      }
      Allocate(candidate.value, done);
      spawned := true;
    }

    method Allocate(range: Range, ghost done: nat)
      requires Configured() && inFlight == |tasks| && Paid(done)
      requires Tiles(Work(), coordinator.nextHeight, full.to) && nextUnallocated == range.from <= range.to <= full.to
      modifies this`tasks, this`nextUnallocated, this`inFlight
      ensures inFlight == |tasks| == |old(tasks)| + 1 && Paid(done)
      ensures tasks == old(tasks) + [Launched(range)] && nextUnallocated == range.to + 1
      ensures Tiles(Work(), coordinator.nextHeight, full.to)
      ensures old(Bright(tasks)) ==> Bright(tasks)
    {
      hide Tiles, Parts, Total, Rest, QueueNeed, RangeNeed, Log2, Cooperative, OnTruth;
      LaunchFresh(coordinator.pending, tasks, queued, nextUnallocated, full.to, coordinator.nextHeight, range);
      LeftLaunchFresh(Requests, tasks, queued, range, full.to, sizer.current);
      LeftLaunchFresh(Units, tasks, queued, range, full.to, sizer.current);
      nextUnallocated := range.to + 1;
      Spawn(range, done);
    }

    // From the given position on, the fetches in flight have the whole size or reach the target.
    ghost predicate FullSize(from: int)
      reads this`tasks, sizer
    {
      forall i | 0 <= i < |tasks| && from <= i ::
        Length(tasks[i].range) == sizer.current || tasks[i].range.to == full.to
    }

    // Spawns fetches, queued ranges first and in order, until the window is full or no work
    // is left.
    method FillWindow(ghost done: nat)
      requires Configured() && inFlight == |tasks| && Paid(done)
      requires Tiles(Work(), coordinator.nextHeight, full.to)
      modifies this`tasks, this`queued, this`nextUnallocated, this`inFlight
      ensures inFlight == |tasks| && Paid(done)
      ensures Tiles(Work(), coordinator.nextHeight, full.to)
      ensures |tasks| >= workers || (queued == [] && nextUnallocated > full.to)
      ensures QueueFirst(old(tasks), old(queued), old(nextUnallocated), tasks, queued, nextUnallocated)
      ensures FullSize(|old(tasks)| + |old(queued)| - |queued|)
      ensures old(Bright(tasks)) ==> Bright(tasks)
    {
      hide Tiles, Parts, Total, Bright;
      while inFlight < workers
        invariant inFlight == |tasks| && Paid(done)
        invariant Tiles(Work(), coordinator.nextHeight, full.to)
        invariant QueueFirst(old(tasks), old(queued), old(nextUnallocated), tasks, queued, nextUnallocated)
        invariant FullSize(|old(tasks)| + |old(queued)| - |queued|)
        invariant old(Bright(tasks)) ==> Bright(tasks)
        decreases workers - inFlight
      {
        if queued != [] {
          SpawnQueued(done);
        } else {
          var spawned := SpawnFresh(done);
          if !spawned {
            return;
          }
        }
      }
    }

    method CutChunks(from: nat, to: nat, size: nat) returns (chunks: seq<Range>)
      ensures chunks == Chunks(from, to, size)
    {
      chunks := [];
      var next := from;
      while next <= to
        invariant Chunks(from, to, size) == chunks + Chunks(next, to, size)
        decreases 1 + to - next
      {
        var end := ChunkEnd(next, to, size);
        assert Chunks(next, to, size) == [Range(next, end)] + Chunks(end + 1, to, size);
        chunks := chunks + [Range(next, end)];
        next := end + 1;
      }
    }

    method EnqueueChunksFront(from: nat, to: nat, size: nat)
      modifies this`queued
      ensures queued == Chunks(from, to, size) + old(queued)
    {
      var chunks := CutChunks(from, to, size);
      var i := |chunks|;
      while i > 0
        invariant 0 <= i <= |chunks|
        invariant queued == chunks[i..] + old(queued)
      {
        i := i - 1;
        queued := [chunks[i]] + queued;
      }
    }

    // A fetch leaves the flight.
    method Take(k: nat, ghost done: nat) returns (range: Range)
      requires k < |tasks| && Paid(done)
      modifies this`tasks
      ensures tasks == old(tasks)[..k] + old(tasks)[k + 1..] && range == old(tasks)[k].range
      ensures Paid(done) && (Weight(LogRequests, old(tasks)[k]) == 1 ==> Paid(done + 1))
    {
      TotalSplit(LogRequests, tasks, k);
      range := tasks[k].range;
      tasks := tasks[..k] + tasks[k + 1..];
    }

    // A fetch moves on.
    method SetStage(k: nat, stage: Stage)
      requires k < |tasks|
      modifies this`tasks
      ensures tasks == old(tasks)[k := Task(old(tasks)[k].range, stage)] && TaskRanges(tasks) == TaskRanges(old(tasks))
      ensures forall what: Tally ::
                Total(what, tasks) + Weight(what, old(tasks)[k]) == Total(what, old(tasks)) + Weight(what, tasks[k])
    {
      var t := Task(tasks[k].range, stage);
      forall what: Tally
        ensures Total(what, tasks[k := t]) + Weight(what, tasks[k]) == Total(what, tasks) + Weight(what, t) {
        TotalUpdate(what, tasks, k, t);
      }
      tasks := tasks[k := t];
    }

    // Every fetch can pay for its next request.
    lemma CanPay(k: nat)
      requires k < |tasks| && budget.Valid() && Bright(tasks)
      ensures budget.requests + Weight(Requests, tasks[k]) <= budget.maxRequests
      ensures budget.cost + Weight(Units, tasks[k]) <= budget.maxCost
      ensures FetchOk(tasks[k])
    {
      hide Total, QueueNeed, RangeNeed, Log2, Weight, Cooperative, OnTruth;
      TotalSplit(Requests, tasks, k);
      TotalSplit(Units, tasks, k);
    }

    // What every step of a fetch keeps.
    ghost predicate Stepping(done: nat)
      reads this, budget
    {
      && budget.Valid() && budget.maxRequests < U64_MAX && budget.maxCost < U64_MAX && Paid(done)
      && (forall r | r in TaskRanges(tasks) :: r.from <= r.to) && Honest()
    }

    // A fetch pays for its request for logs, or ends when the budget does not cover it.
    method PayLogs(k: nat, ghost done: nat) returns (end: Option<Completion>)
      requires k < |tasks| && tasks[k].stage.AskLogs? && Stepping(done)
      modifies this`tasks, budget
      ensures Stepping(done) && TaskRanges(tasks) == TaskRanges(old(tasks))
      ensures end.None? ==> budget.requests == old(budget.requests) + 1
      ensures end.None? ==> tasks[k].stage == AwaitLogs(old(tasks)[k].stage.attempt)
      ensures end.Some? ==> end.value == Broken(OverBudget) && Excused(OverBudget) && tasks == old(tasks)
      ensures old(Bright(tasks)) ==> end.None? && Bright(tasks)
    {
      hide Total, QueueNeed, Log2, Cooperative, OnTruth;
      if Bright(tasks) { CanPay(k); }
      var refused := budget.Record(GetLogs, 0);
      if refused.Some? {
        return Some(Broken(OverBudget));
      }
      SetStage(k, AwaitLogs(tasks[k].stage.attempt));
      end := None;
    }

    // A fetch pays for one header of its range.
    method PayHeader(k: nat, ghost done: nat) returns (end: Option<Completion>)
      requires k < |tasks| && tasks[k].stage.AskBlocks? && tasks[k].stage.paid < Length(tasks[k].range)
      requires Stepping(done)
      modifies this`tasks, budget
      ensures Stepping(done) && TaskRanges(tasks) == TaskRanges(old(tasks))
      ensures end.None? ==> budget.requests == old(budget.requests) + 1
      ensures end.None? ==> tasks[k].stage == old(tasks)[k].stage.(paid := old(tasks)[k].stage.paid + 1)
      ensures end.Some? ==> end.value == Broken(OverBudget) && Excused(OverBudget) && tasks == old(tasks)
      ensures old(Bright(tasks)) ==> end.None? && Bright(tasks)
    {
      hide Total, QueueNeed, Log2, Cooperative, OnTruth;
      if Bright(tasks) { CanPay(k); }
      var refused := budget.Record(GetBlockByNumber, 0);
      if refused.Some? {
        return Some(Broken(OverBudget));
      }
      SetStage(k, tasks[k].stage.(paid := tasks[k].stage.paid + 1));
      end := None;
    }

    // A fetch hears back about its logs: it goes on to the headers, ends with a provider
    // limit, tries again, or gives up for good or after its last attempt.
    method HearLogs(k: nat, ghost done: nat) returns (end: Option<Completion>)
      requires k < |tasks| && tasks[k].stage.AwaitLogs? && Stepping(done)
      modifies this`tasks, provider
      ensures Stepping(done) && TaskRanges(tasks) == TaskRanges(old(tasks))
      ensures end.None? ==>
                && Total(Answers, tasks) < Total(Answers, old(tasks))
                && (tasks[k].stage.AskBlocks? || (tasks[k].stage == AskLogs(old(tasks)[k].stage.attempt + 1)
                                                  && tasks[k].stage.attempt <= maxAttempts))
      ensures end.Some? ==> end.value.Limited? || end.value == Broken(GaveUp(tasks[k].stage.attempt))
      ensures end.Some? && end.value.Broken? ==> Excused(end.value.failure)
      ensures end.Some? ==> tasks == old(tasks)
      ensures old(Bright(tasks)) ==> Bright(tasks) && (end.Some? ==> Ended(end.value, tasks[k]))
    {
      hide Total, Bright, Ended;
      if Bright(tasks) { LogsAreGood(k, provider.asked); }
      var range, attempt := tasks[k].range, tasks[k].stage.attempt;
      assert range == TaskRanges(tasks)[k];
      var answer := provider.FetchLogs(range);
      match answer {
        case Logs(logs) =>
          StillPaid(k, Task(range, AskBlocks(logs, 0, 1)), done);
          SetStage(k, AskBlocks(logs, 0, 1));
          end := None;
        case TooMany => end := Some(Limited);
        case LogsRefused => end := Some(Broken(GaveUp(attempt)));
        case LogsUnavailable =>
          if attempt >= maxAttempts {
            return Some(Broken(GaveUp(attempt)));
          }
          StillPaid(k, Task(range, AskLogs(attempt + 1)), done);
          SetStage(k, AskLogs(attempt + 1));
          end := None;
      }
    }

    // Moving a fetch on does not change what was paid, once it has paid for its first request.
    lemma StillPaid(k: nat, t: Task, done: nat)
      requires k < |tasks| && Paid(done) && Weight(LogRequests, t) <= Weight(LogRequests, tasks[k])
      ensures done + Total(LogRequests, tasks[k := t]) <= budget.requests
      ensures 5 * (done + Total(LogRequests, tasks[k := t])) <= budget.cost
    {
      hide Total;
      TotalUpdate(LogRequests, tasks, k, t);
    }

    // A fetch with less left to do keeps everything within the caps.
    lemma MovesOn(k: nat, t: Task)
      requires k < |tasks| && Bright(tasks) && FetchOk(t)
      requires Weight(Requests, t) <= Weight(Requests, tasks[k]) && Weight(Units, t) <= Weight(Units, tasks[k])
      ensures Bright(tasks[k := t])
    {
      hide Total, QueueNeed, RangeNeed, Log2, Weight, Cooperative, OnTruth, FetchOk;
      TotalUpdate(Requests, tasks, k, t);
      TotalUpdate(Units, tasks, k, t);
    }

    // What a cooperative provider answers when asked for logs.
    lemma LogsAreGood(k: nat, n: nat)
      requires k < |tasks| && tasks[k].stage.AwaitLogs? && Bright(tasks)
      ensures var range := tasks[k].range;
              match provider.logs(n, range)
              case Logs(logs) => Bright(tasks[k := Task(range, AskBlocks(logs, 0, 1))])
              case TooMany => Ended(Limited, tasks[k])
              case _ => false
    {
      hide Total, QueueNeed, Log2, OnTruth, GoodLogs, Part, ChainFor, Affordable;
      var range := tasks[k].range;
      TruthLength();
      assert FetchOk(tasks[k]);
      assert Serves(n, range);
      if Length(range) <= limit {
        MovesOn(k, Task(range, AskBlocks(provider.logs(n, range).logs, 0, 1)));
      }
    }

    // A range as the committer needs it.
    ghost predicate Fit(f: Fetched) {
      Trusted(world, f) && Carried(f)
    }

    // The provider never refuses for good.
    ghost predicate Lenient() {
      forall n: nat, r: Range :: !provider.logs(n, r).LogsRefused? && !provider.headers(n, r).HeadersRefused?
    }

    // What must be the case when a fetch fails: a cap does not cover a request, or it was the
    // last attempt unless the provider refused for good.
    ghost predicate Excused(failure: FetchFailure)
      reads budget
    {
      match failure
      case OverBudget =>
        budget.requests == budget.maxRequests || budget.cost + DefaultCost(GetLogs) > budget.maxCost
      case GaveUp(attempt) => Lenient() ==> attempt >= maxAttempts
      case Unusable => true
    }

    // How a fetch ends with a cooperative provider.
    ghost predicate Ended(end: Completion, t: Task) {
      match end
      case Broken(_) => false
      case Limited => t.stage.AwaitLogs? && Length(t.range) > limit
      case Ready(f) =>
        && t.stage.AskBlocks? && t.stage.paid == Length(t.range) && f.range == t.range
        && |truth| == Length(full) && IsPart(f, truth, full)
    }

    // A fetch hears back about its headers: its range is assembled, or it tries again, or it
    // gives up.
    method HearHeaders(k: nat, ghost done: nat) returns (end: Option<Completion>)
      requires k < |tasks| && tasks[k].stage.AskBlocks? && tasks[k].stage.paid >= Length(tasks[k].range)
      requires Stepping(done)
      modifies this`tasks, provider
      ensures Stepping(done) && TaskRanges(tasks) == TaskRanges(old(tasks))
      ensures end.None? ==>
                && Total(Answers, tasks) < Total(Answers, old(tasks))
                && tasks[k].stage == AskBlocks(old(tasks)[k].stage.logs, 0, old(tasks)[k].stage.attempt + 1)
                && tasks[k].stage.attempt <= maxAttempts
      ensures end.Some? ==> tasks == old(tasks) && !end.value.Limited?
      ensures end.Some? && end.value.Broken? ==> Excused(end.value.failure)
      ensures end.Some? && end.value.Ready? ==> end.value.fetched.range == tasks[k].range && Fit(end.value.fetched)
      ensures old(Bright(tasks)) ==> Bright(tasks) && end.Some? && Ended(end.value, tasks[k])
    {
      hide Total, Bright, Fit, IsPart, Cooperative, GoodLogs;
      if Bright(tasks) { HeadersAreParts(k, provider.asked); }
      var range, stage := tasks[k].range, tasks[k].stage;
      assert range == TaskRanges(tasks)[k];
      var answer := provider.FetchHeaders(range);
      match answer {
        case HeadersRefused => end := Some(Broken(GaveUp(stage.attempt)));
        case HeadersUnavailable =>
          if stage.attempt >= maxAttempts {
            return Some(Broken(GaveUp(stage.attempt)));
          }
          StillPaid(k, Task(range, AskBlocks(stage.logs, 0, stage.attempt + 1)), done);
          SetStage(k, AskBlocks(stage.logs, 0, stage.attempt + 1));
          end := None;
        case Delivered(headers) =>
          var done := Join(range, stage.logs, headers);
          end := Some(done);
      }
    }

    // What a cooperative provider answers when asked for headers.
    lemma HeadersAreParts(k: nat, n: nat)
      requires k < |tasks| && tasks[k].stage.AskBlocks? && Bright(tasks)
      ensures Cooperative() && |truth| == Length(full) && Within(tasks[k].range, full)
      ensures provider.headers(n, tasks[k].range) == Delivered(Part(truth, full, tasks[k].range))
      ensures GoodLogs(tasks[k].stage.logs, Part(truth, full, tasks[k].range))
      ensures tasks[k].stage.paid <= Length(tasks[k].range)
    {
      hide OnTruth, GoodLogs, Part, ChainFor, Affordable;
      TruthLength();
      assert FetchOk(tasks[k]);
      assert Serves(n, tasks[k].range);
    }

    // Logs and headers become one range.
    method Join(range: Range, logs: seq<AnchoredLog>, headers: seq<Header>) returns (end: Completion)
      requires range.from <= range.to && AllGenuine(world, headers)
      ensures end.Ready? || end == Broken(Unusable)
      ensures end.Ready? ==> end.fetched.range == range && Fit(end.fetched)
      ensures Cooperative() && Within(range, full) && headers == Part(truth, full, range) && GoodLogs(logs, headers) ==>
                end.Ready? && IsPart(end.fetched, truth, full)
    {
      hide Committable, Consistent, Covers;
      var assembled := Assemble(range, logs, headers);
      if Cooperative() && Within(range, full) { PartCovers(world, truth, full, anchor, range); }
      if assembled.Failure? {
        return Broken(Unusable);
      }
      var f := assembled.value;
      AssembledIsCarried(range, logs, f);
      CarriedGenuine(world, f);
      if Cooperative() && Within(range, full) && headers == Part(truth, full, range) && GoodLogs(logs, headers) {
        PartIsCommittable(world, truth, full, anchor, range, logs, f);
      }
      end := Ready(f);
    }

    // One step of one fetch.
    method StepFetch(k: nat, ghost done: nat) returns (end: Option<Completion>)
      requires k < |tasks| && Stepping(done)
      modifies this`tasks, budget, provider
      ensures Stepping(done) && TaskRanges(tasks) == TaskRanges(old(tasks))
      ensures end.None? ==>
                || budget.requests > old(budget.requests)
                || (budget.requests == old(budget.requests) && Total(Answers, tasks) < Total(Answers, old(tasks)))
      ensures end.Some? ==> tasks == old(tasks) && (!end.value.Broken? ==> Weight(LogRequests, tasks[k]) == 1)
      ensures end.Some? && end.value.Ready? ==> end.value.fetched.range == tasks[k].range && Fit(end.value.fetched)
      ensures end.Some? && end.value.Broken? ==> Excused(end.value.failure)
      ensures old(Bright(tasks)) ==> Bright(tasks) && (end.Some? ==> Ended(end.value, tasks[k]))
    {
      hide Total, Bright, Fit, Ended, Excused;
      match tasks[k].stage {
        case AskLogs(_) => end := PayLogs(k, done);
        case AwaitLogs(_) => end := HearLogs(k, done);
        case AskBlocks(_, paid, _) =>
          if paid < Length(tasks[k].range) {
            end := PayHeader(k, done);
          } else {
            end := HearHeaders(k, done);
          }
      }
    }

    // Waits for the next fetch to end while any of them make their steps. It terminates since
    // every attempt pays. A fetch that ends with a range or a provider limit has paid for a
    // request for logs; with a cooperative provider none ends otherwise.
    method JoinNext(ghost done: nat) returns (range: Range, end: Completion, ghost i: nat, ghost before: seq<Task>)
      requires tasks != [] && Stepping(done)
      modifies this`tasks, budget, provider
      ensures budget.Valid() && i < |before| && TaskRanges(before) == TaskRanges(old(tasks))
      ensures tasks == before[..i] + before[i + 1..] && range == before[i].range
      ensures Paid(done) && (!end.Broken? ==> Paid(done + 1))
      ensures end.Ready? ==> end.fetched.range == range && Fit(end.fetched)
      ensures end.Broken? ==> Excused(end.failure)
      ensures old(Bright(tasks)) ==> Bright(before) && Ended(end, before[i])
    {
      hide Total, Fit, Bright, Ended, Excused;
      while true
        invariant Stepping(done) && TaskRanges(tasks) == TaskRanges(old(tasks)) && tasks != []
        invariant old(Bright(tasks)) ==> Bright(tasks)
        decreases budget.maxRequests - budget.requests, Total(Answers, tasks)
      {
        var k: nat :| k < |tasks|;
        var ended := StepFetch(k, done);
        assert |TaskRanges(tasks)| == |TaskRanges(old(tasks))|;
        if ended.Some? {
          i, before, end := k, tasks, ended.value;
          range := Take(k, done);
          return;
        }
      }
    }

    method MergeProgress(p: Progress)
      modifies this`progress
      ensures progress == Progress(old(progress).ranges + p.ranges, old(progress).blocks + p.blocks,
                old(progress).logs + p.logs,
                                   if p.lastHeight.Some? then p.lastHeight else old(progress).lastHeight)
    {
      progress := Progress(progress.ranges + p.ranges, progress.blocks + p.blocks, progress.logs + p.logs,
                           if p.lastHeight.Some? then p.lastHeight else progress.lastHeight);
    }

    method RecordPartialCommit(before: nat, after: nat)
      modifies this`progress
      ensures before <= after ==> progress.blocks == old(progress).blocks + (after - before)
      ensures progress.lastHeight == if before < after then Some(after - 1) else old(progress).lastHeight
    {
      if after <= before {
        return;
      }
      progress := Progress(progress.ranges + 1, progress.blocks + (after - before), progress.logs, Some(after - 1));
    }

    // The coordinator and the sink before one push, with the range that is pushed.
    ghost predicate Pushable(f: Fetched)
      reads this, coordinator, sink, sink.committer, sink.committer.writer.db, sizer, budget
    {
      && Configured() && CoordOk(View(coordinator, sink), full.from, anchor) && Grounded()
      && full.from <= coordinator.nextHeight <= full.to + 1
      && Fit(f) && coordinator.nextHeight <= f.range.from && f.range.to <= full.to
      && forall k | k in coordinator.pending :: Disjoint(coordinator.pending[k].range, f.range)
    }

    // One push: committed ranges stay gap-free, success accounts for every committed
    // block, and the only failures are a refusing sink and a broken parent link.
    method PushOne(f: Fetched, ghost others: multiset<Range>) returns (r: Result<Progress, BackfillError>)
      requires Pushable(f)
      modifies coordinator, sink, sink.committer, sink.committer.writer.db
      ensures Configured() && CoordOk(View(coordinator, sink), full.from, anchor) && sink.Durable(world)
      ensures r.Success? || !r.error.Commit? ==> Grounded()
      ensures old(coordinator.nextHeight) <= coordinator.nextHeight <= full.to + 1
      ensures r.Success? ==>
                && coordinator.nextHeight !in coordinator.pending
                && Reports(r.value, NO_PROGRESS, old(View(coordinator, sink)), View(coordinator, sink))
                && (Tiles(multiset(ParkedRanges(old(coordinator.pending)[f.range.from := f])) + others,
                          old(coordinator.nextHeight), full.to)
                    ==> Tiles(multiset(ParkedRanges(coordinator.pending)) + others, coordinator.nextHeight, full.to))
      ensures r.Failure? ==> r.error == Commit || r.error.FetchedSuffixInvalidated?
      ensures r.Failure? && r.error.FetchedSuffixInvalidated? ==>
                0 < r.error.refetchFrom == coordinator.nextHeight <= full.to && coordinator.pending == map[]
      ensures old(Bright(tasks)) && |truth| == Length(full) && IsPart(f, truth, full) ==>
                r.Success? && BrightBut(tasks, r.value)
    {
      hide Tiles, CoordOk, Grounded, Push, Bound, Sink.Settled, Sink.Durable, OnTruth, IsPart, Covers, Affordable,
           FetchesOk, Cooperative;
      ghost var c := View(coordinator, sink);
      GroundedFits(f);
      if Bright(tasks) && |truth| == Length(full) && IsPart(f, truth, full) { PushesOn(f); }
      PushFacts(c, sink.accepts, f, full.from, anchor, others);
      r := PushRange(coordinator, f, sink, world);
      if r.Success? || !r.error.Commit? { NowGrounded(); }
    }

    lemma PushesOn(f: Fetched)
      requires Pushable(f) && Bright(tasks) && IsPart(f, truth, full) && WellFormed(coordinator.pending)
      requires f.range.from <= f.range.to
      ensures var pushed := Push(View(coordinator, sink), sink.accepts, f);
              pushed.result.Success? && OnTruth(pushed.coord, truth, full)
    {
      hide Grounded, OnTruth, IsPart, Push, CoordOk;
      AcceptsAll();
      PushOnTruth(world, View(coordinator, sink), sink.accepts, f, truth, full, anchor);
    }

    lemma AcceptsAll()
      requires Grounded() && Cooperative()
      ensures forall n: nat, f: Fetched :: Committable(f) ==> sink.accepts(n, f)
    {
    }

    lemma GroundedFits(f: Fetched)
      requires Grounded() && Fit(f)
      ensures Bound(world, coordinator, sink) && sink.Settled(world) && Trusted(world, f) && Carried(f)
      ensures WellFormed(coordinator.pending) && f.range.from <= f.range.to
    {
      ParkedWellFormed(world, coordinator.pending);
    }

    lemma NowGrounded()
      requires Bound(world, coordinator, sink) && sink.Settled(world)
      ensures Grounded()
    {
    }

    // A broken parent link throws all other work away and requeues the suffix.
    method Requeue(refetchFrom: nat, ghost done: nat)
      requires Configured() && refetchFrom == coordinator.nextHeight <= full.to && coordinator.pending == map[]
      requires Paid(done)
      modifies this`tasks, this`queued, this`nextUnallocated, this`inFlight
      ensures inFlight == |tasks| && Paid(done)
      ensures Tiles(Work(), coordinator.nextHeight, full.to)
      ensures tasks == [] && queued == Chunks(refetchFrom, full.to, sizer.current) && nextUnallocated == full.to + 1
    {
      hide Tiles, Parts, Total, Chunks, Honest;
      NothingSpent(LogRequests);
      tasks := [];
      inFlight := 0;
      queued := [];
      EnqueueChunksFront(refetchFrom, full.to, sizer.current);
      nextUnallocated := full.to + 1;
      ChunksTile(refetchFrom, full.to, sizer.current);
      assert queued == Chunks(refetchFrom, full.to, sizer.current);
      OnlyQueued(queued, full.to);
    }

    // The report is that of the height before a push.
    ghost predicate CountedTo(before: nat)
      reads this`progress
    {
      && progress.blocks + full.from == before
      && progress.lastHeight == if before > full.from then Some(before - 1) else None
    }

    // A push that went through but is not reported yet: what it committed has left the front
    // of the partition.
    ghost predicate WentThrough(before: nat, p: Progress, done: nat)
      reads this, coordinator, sink, sink.committer, sink.committer.writer.db, sizer, budget
    {
      && Configured() && CoordOk(View(coordinator, sink), full.from, anchor) && Grounded()
      && full.from <= before <= coordinator.nextHeight <= full.to + 1
      && coordinator.nextHeight !in coordinator.pending
      && Tiles(Work(), coordinator.nextHeight, full.to) && inFlight == |tasks|
      && CountedTo(before) && Paid(done)
      && p.blocks + before == coordinator.nextHeight
      && p.lastHeight == if coordinator.nextHeight > before then Some(coordinator.nextHeight - 1) else None
    }

    // A push that broke on a parent link: nothing is parked any more.
    ghost predicate BrokeOff(before: nat, refetchFrom: nat, done: nat)
      reads this, coordinator, sink, sink.committer, sink.committer.writer.db, sizer, budget
    {
      && Configured() && CoordOk(View(coordinator, sink), full.from, anchor) && Grounded()
      && full.from <= before <= coordinator.nextHeight == refetchFrom <= full.to && coordinator.pending == map[]
      && CountedTo(before) && Paid(done)
    }

    method Settle(before: nat, p: Progress, ghost done: nat)
      requires WentThrough(before, p, done)
      modifies this`progress
      ensures Inv(done)
      ensures old(BrightBut(tasks, p)) ==> Bright(tasks)
    {
      hide Tiles, Parts, Total, CoordOk, Grounded, Honest, Cooperative, OnTruth, FetchesOk, Affordable;
      MergeProgress(p);
    }

    // A broken parent link: what the push committed first still counts.
    method Invalidate(before: nat, refetchFrom: nat, ghost done: nat)
      requires BrokeOff(before, refetchFrom, done)
      modifies this`tasks, this`queued, this`nextUnallocated, this`inFlight, this`progress
      ensures Inv(done)
      ensures tasks == [] && queued == Chunks(refetchFrom, full.to, sizer.current) && nextUnallocated == full.to + 1
    {
      hide Tiles, Parts, Total;
      RecordPartialCommit(before, coordinator.nextHeight);
      Requeue(refetchFrom, done);
    }

    // A fetch that came back: parked, drained, and accounted for.
    method Accept(f: Fetched, ghost done: nat, ghost i: nat, ghost before: seq<Task>) returns (r: Option<LoopError>)
      requires Landed(done, i, before) && f.range == before[i].range && Fit(f)
      modifies this`tasks, this`queued, this`nextUnallocated, this`inFlight, this`progress, coordinator, sink,
                sink.committer,
               sink.committer.writer.db
      ensures r.None? ==> Inv(done)
      ensures r.Some? ==> Configured() && RunOk(View(coordinator, sink), full.from, anchor) && sink.Durable(world)
      ensures r.Some? ==> r.value == CommitRefused(Commit)
      ensures old(Bright(tasks)) && |truth| == Length(full) && IsPart(f, truth, full) ==> r.None? && Bright(tasks)
    {
      hide Landed, Inv, WentThrough, BrokeOff, Bright, BrightBut, IsPart, RunOk, Fit, Configured, Sink.Durable;
      var start := coordinator.nextHeight;
      var pushed := ParkAndPush(f, done, i, before);
      if pushed.Success? {
        Settle(start, pushed.value, done);
        return None;
      }
      if !pushed.error.FetchedSuffixInvalidated? {
        return Some(CommitRefused(pushed.error));
      }
      Invalidate(start, pushed.error.refetchFrom, done);
      r := None;
    }

    // The push of a fetch that came back.
    method ParkAndPush(f: Fetched, ghost done: nat, ghost i: nat, ghost before: seq<Task>)
      returns (r: Result<Progress, BackfillError>)
      requires Landed(done, i, before) && f.range == before[i].range && Fit(f)
      modifies coordinator, sink, sink.committer, sink.committer.writer.db
      ensures r.Success? ==> WentThrough(old(coordinator.nextHeight), r.value, done)
      ensures r.Failure? ==> r.error == Commit || r.error.FetchedSuffixInvalidated?
      ensures r.Failure? && r.error.FetchedSuffixInvalidated? ==>
                BrokeOff(old(coordinator.nextHeight), r.error.refetchFrom, done)
      ensures r.Failure? ==> Configured() && RunOk(View(coordinator, sink), full.from, anchor) && sink.Durable(world)
      ensures old(Bright(tasks)) && |truth| == Length(full) && IsPart(f, truth, full) ==>
                r.Success? && BrightBut(tasks, r.value)
    {
      hide Tiles, Parts, Unparked, Total, Bright, BrightBut, IsPart, CoordOk, Grounded, Fit, Honest, Pushable,
           Sink.Durable, Items;
      LandedFits(f, done, i, before);
      r := PushOne(f, Unparked(tasks, queued, nextUnallocated, full.to));
      PartsSplit(coordinator.pending, tasks, queued, nextUnallocated, full.to);
      RunOfCoord();
    }

    lemma RunOfCoord()
      requires CoordOk(View(coordinator, sink), full.from, anchor)
      ensures RunOk(View(coordinator, sink), full.from, anchor)
    {
    }

    // A range that landed can be pushed, and parked it is part of the partition.
    lemma LandedFits(f: Fetched, done: nat, i: nat, before: seq<Task>)
      requires Landed(done, i, before) && f.range == before[i].range && Fit(f)
      ensures Pushable(f)
      ensures Tiles(multiset(ParkedRanges(coordinator.pending[f.range.from := f]))
                    + Unparked(tasks, queued, nextUnallocated, full.to), coordinator.nextHeight, full.to)
    {
      hide Tiles, Parts, Unparked, Total, RunOk, Grounded, Fit, Honest;
      InFlightFits(coordinator.pending, before, queued, nextUnallocated, full.to, coordinator.nextHeight, i);
      ParkTask(coordinator.pending, before, queued, nextUnallocated, full.to, i, f);
      PartsSplit(coordinator.pending[f.range.from := f], tasks, queued, nextUnallocated, full.to);
    }

    // The loop's state while one fetch, the i-th of those before, has landed but is not
    // dealt with yet.
    ghost predicate Landed(done: nat, i: nat, before: seq<Task>)
      reads this, coordinator, sink, sink.committer, sink.committer.writer.db, sizer, budget
    {
      && Configured()
      && CoordOk(View(coordinator, sink), full.from, anchor) && Grounded()
      && full.from <= coordinator.nextHeight <= full.to + 1 && coordinator.nextHeight !in coordinator.pending
      && i < |before| && tasks == before[..i] + before[i + 1..] && inFlight == |tasks|
      && Tiles(Parts(coordinator.pending, before, queued, nextUnallocated, full.to), coordinator.nextHeight, full.to)
      && Counted()
      && Paid(done)
    }

    // A provider limit: the size is halved, but not below its minimum, and the range goes
    // back to the front of the queue in chunks of that size.
    method SplitAndRequeue(range: Range, ghost done: nat, ghost i: nat, ghost before: seq<Task>)
      requires Landed(done, i, before) && range == before[i].range
      modifies this`queued, sizer
      ensures Inv(done)
      ensures sizer.current == if old(sizer.current) / 2 >= sizer.min then old(sizer.current) / 2 else sizer.min
      ensures queued == Chunks(range.from, range.to, sizer.current) + old(queued)
      ensures old(Bright(before)) && Ended(Limited, before[i]) ==> Bright(tasks)
    {
      hide Tiles, Parts, Total, Cooperative, OnTruth, QueueNeed, RangeNeed, Log2, Chunks, CoordOk, Grounded, Honest,
           FetchesOk;
      if Bright(before) && Ended(Limited, before[i]) { SplitIsPaid(i, before); }
      sizer.RecordProviderLimit();
      SplitTask(coordinator.pending, before, queued, nextUnallocated, full.to, coordinator.nextHeight, i,
          sizer.current);
      EnqueueChunksFront(range.from, range.to, sizer.current);
    }

    // The cut is within what was set aside for the range.
    lemma SplitIsPaid(i: nat, before: seq<Task>)
      requires Configured() && i < |before| && tasks == before[..i] + before[i + 1..]
      requires Bright(before) && Ended(Limited, before[i])
      ensures var size := if sizer.current / 2 >= sizer.min then sizer.current / 2 else sizer.min;
              var chunks := Chunks(before[i].range.from, before[i].range.to, size);
              && budget.requests + Left(Requests, tasks, chunks + queued, nextUnallocated, full.to, size)
                   <= budget.maxRequests
              && budget.cost + Left(Units, tasks, chunks + queued, nextUnallocated, full.to, size) <= budget.maxCost
              && FetchesOk(tasks) && forall r | r in chunks + queued :: Within(r, full)
    {
      hide Total, OnTruth, QueueNeed, Log2, Chunks;
      var size := if sizer.current / 2 >= sizer.min then sizer.current / 2 else sizer.min;
      var range := before[i].range;
      var chunks := Chunks(range.from, range.to, size);
      assert FetchOk(before[i]);
      SplitPays(Requests, range, sizer.min, sizer.current, size);
      SplitPays(Units, range, sizer.min, sizer.current, size);
      TotalSplit(Requests, before, i);
      TotalSplit(Units, before, i);
      QueueNeedConcat(Requests, chunks, queued);
      QueueNeedConcat(Units, chunks, queued);
      forall r | r in chunks + queued ensures Within(r, full) {
        if r in chunks {
          var j :| 0 <= j < |chunks| && chunks[j] == r;
          ChunksWithin(range.from, range.to, size, j);
        }
      }
    }

    // A success doubles the size, at most to its maximum; the fetch that ended pays for it.
    method Grow(ghost i: nat, ghost before: seq<Task>)
      requires Configured() && i < |before| && tasks == before[..i] + before[i + 1..]
      modifies sizer
      ensures Configured()
      ensures sizer.current == if 2 * old(sizer.current) <= sizer.max then 2 * old(sizer.current) else sizer.max
      ensures (&& old(Bright(before)) && before[i].stage.AskBlocks?
               && before[i].stage.paid == Length(before[i].range)) ==> Bright(tasks)
    {
      hide Total, Cooperative, OnTruth, QueueNeed, RangeNeed, Log2;
      TotalSplit(Requests, before, i);
      TotalSplit(Units, before, i);
      ghost var size := if 2 * sizer.current <= sizer.max then 2 * sizer.current else sizer.max;
      DoublePays(Requests, sizer.current, size);
      DoublePays(Units, sizer.current, size);
      sizer.RecordSuccess();
    }

    // Takes the next fetch to end.
    method Land(ghost done: nat) returns (range: Range, end: Completion, ghost i: nat, ghost before: seq<Task>)
      requires Inv(done) && tasks != []
      modifies this`tasks, this`inFlight, budget, provider
      ensures Landed(done, i, before) && (!end.Broken? ==> Landed(done + 1, i, before))
      ensures range == before[i].range && (end.Ready? ==> end.fetched.range == range && Fit(end.fetched))
      ensures end.Broken? ==> Excused(end.failure)
      ensures old(Bright(tasks)) ==> Bright(before) && Ended(end, before[i])
    {
      hide Tiles, Parts, Total, Bright, Ended, Fit, Grounded, CoordOk, Honest, Excused;
      RangesNonEmpty(done);
      ghost var flying := tasks;
      range, end, i, before := JoinNext(done);
      inFlight := inFlight - 1;
      SameRanges(coordinator.pending, before, flying, queued, nextUnallocated, full.to);
    }

    // Fills the window of a loop in order.
    method Refill(ghost done: nat)
      requires Inv(done)
      modifies this`tasks, this`queued, this`nextUnallocated, this`inFlight
      ensures Inv(done) && (tasks == [] ==> queued == [] && nextUnallocated > full.to)
      ensures old(Bright(tasks)) ==> Bright(tasks)
    {
      hide Tiles, Parts, Total, CoordOk, Grounded, Honest, QueueFirst, FullSize, Bright;
      FillWindow(done);
    }

    // One turn of the loop. A fetch that ended with its range doubles the range size, a
    // provider limit halves it.
    method Turn(ghost done: nat) returns (r: Option<LoopError>, ghost landed: Completion)
      requires Inv(done) && tasks != []
      modifies this, coordinator, sink, sink.committer, sink.committer.writer.db, sizer, budget, provider
      ensures r.None? ==> Inv(done + 1) && (tasks == [] ==> queued == [] && nextUnallocated > full.to)
      ensures r.Some? ==> Configured() && RunOk(View(coordinator, sink), full.from, anchor) && sink.Durable(world)
      ensures r.Some? ==> r.value.FetchFailed? || r.value == CommitRefused(Commit)
      ensures r.Some? && r.value.FetchFailed? ==> Excused(r.value.failure)
      ensures landed.Ready? ==>
                sizer.current == if 2 * old(sizer.current) <= sizer.max then 2 * old(sizer.current) else sizer.max
      ensures landed.Limited? ==>
                sizer.current == if old(sizer.current) / 2 >= sizer.min then old(sizer.current) / 2 else sizer.min
      ensures landed.Broken? ==> r == Some(FetchFailed(landed.failure)) && sizer.current == old(sizer.current)
      ensures old(Bright(tasks)) ==> r.None? && Bright(tasks)
    {
      hide Inv, RunOk, Fit, Honest, Sink.Durable, Bright, IsPart, Excused, Tiles, CoordOk, Grounded, Total, Parts;
      ghost var i, before;
      var range, end;
      range, end, i, before := Land(done);
      match end {
        case Broken(failure) =>
          RunOfLanded(done, i, before);
          return Some(FetchFailed(failure)), end;
        case Limited =>
          SplitAndRequeue(range, done + 1, i, before);
        case Ready(f) =>
          Grow(i, before);
          r := Accept(f, done + 1, i, before);
          if r.Some? {
            return r, end;
          }
      }
      Refill(done + 1);
      r, landed := None, end;
    }

    // Runs to the end. Whatever completes when and however the provider answers, the loop
    // terminates within the budget: completions are bounded by both caps. Success means
    // everything is committed; the stale, duplicate, beyond-target, empty and
    // not-complete errors never occur. On every exit the store holds one linked chain: what
    // it held before, extended by exactly the committed ranges, and after a refused commit
    // possibly by the one range more whose commit was interrupted. With a provider that
    // serves one chain up to some range length, and the caps for it, the run succeeds and
    // extends the store by exactly that chain, in whatever order the fetches make their steps.
    method Run() returns (r: Result<Progress, LoopError>, ghost done: nat)
      requires Inv(0) && tasks == []
      modifies this, coordinator, sink, sink.committer, sink.committer.writer.db, sizer, budget, provider
      ensures done <= budget.maxRequests && 5 * done <= budget.maxCost
      ensures RunOk(View(coordinator, sink), full.from, anchor) && sink.Durable(world)
      ensures r.Success? ==>
                && sink.Settled(world) && coordinator.IsComplete() && coordinator.pending == map[]
                && |Flat(sink.committed)| == full.to - full.from + 1
                && r.value.blocks == full.to - full.from + 1 && r.value.lastHeight == Some(full.to)
      ensures r.Failure? ==> r.error.FetchFailed? || r.error == CommitRefused(Commit)
      ensures r.Failure? && r.error.FetchFailed? ==> Excused(r.error.failure)
      ensures old(Fresh() && Funded()) && Cooperative() ==>
                && r.Success? && sink.Known() == sink.base + truth
                && r.value == Progress(|sink.committed|, |truth|, |truth|, Some(full.to))
    {
      hide Inv, Bright, Cooperative, Fresh, Funded, Sink.Known, Sink.Settled, Sink.Durable, Excused, Flat, RunOk;
      InvBounds(0);
      if Fresh() && Funded() && Cooperative() { StartsBright(); }
      ghost var bright := Bright(tasks);
      done := 0;
      Refill(done);
      while tasks != []
        invariant Inv(done)
        invariant tasks == [] ==> queued == [] && nextUnallocated > full.to
        invariant bright ==> Bright(tasks)
        decreases budget.maxRequests - done
      {
        InvBounds(done);
        var failed, _ := Turn(done);
        if failed.Some? {
          return Failure(failed.value), done;
        }
        done := done + 1;
        InvBounds(done);
      }
      InvBounds(done);
      AllDone(done);
      if !coordinator.IsComplete() {
        assert false;
      }
      if bright { EndsBright(done); }
      r := Success(progress);
    }

    lemma InvBounds(done: nat)
      requires Inv(done)
      ensures done <= budget.maxRequests && 5 * done <= budget.maxCost
    {
      hide Tiles, Parts, Total;
    }

    // With nothing in flight, queued or unallocated, everything is committed.
    lemma AllDone(done: nat)
      requires Inv(done) && tasks == [] && queued == [] && nextUnallocated > full.to
      ensures coordinator.nextHeight == full.to + 1 && coordinator.IsComplete() && coordinator.pending == map[]
      ensures RunOk(View(coordinator, sink), full.from, anchor) && sink.Settled(world) && sink.Durable(world)
      ensures |Flat(sink.committed)| == full.to - full.from + 1
      ensures progress.blocks == full.to - full.from + 1 && progress.lastHeight == Some(full.to)
    {
      hide Tiles, Parts, Total, Linked, Flat;
      LowestIsParked(coordinator.pending, nextUnallocated, coordinator.nextHeight, full.to);
      NothingParked(done);
    }

    lemma StartsBright()
      requires Inv(0) && Fresh() && Funded() && Cooperative()
      ensures Bright(tasks)
    {
      LeftAtStart(full, sizer.current);
    }

    lemma EndsBright(done: nat)
      requires Inv(done) && Bright(tasks) && coordinator.nextHeight == full.to + 1
      ensures sink.Known() == sink.base + truth
      ensures progress == Progress(|sink.committed|, |truth|, |truth|, Some(full.to))
    {
      hide Tiles, Parts, Total, CoordOk, Grounded, Paid, Cooperative, FetchesOk, Affordable, Items, Flat, Parked;
      assert |truth| == Length(full) by { TruthLength(); }
      assert truth[..|truth|] == truth;
    }

    lemma TruthLength()
      requires Cooperative()
      ensures |truth| == Length(full)
    {
    }

    lemma RunOfLanded(done: nat, i: nat, before: seq<Task>)
      requires Landed(done, i, before)
      ensures RunOk(View(coordinator, sink), full.from, anchor) && sink.Durable(world)
    {
    }

    lemma {:induction false} RangesNonEmpty(done: nat)
      requires Inv(done)
      ensures forall r | r in TaskRanges(tasks) :: r.from <= r.to
    {
      forall r | r in TaskRanges(tasks) ensures r.from <= r.to {
        var i :| 0 <= i < |tasks| && TaskRanges(tasks)[i] == r;
        InFlightFits(coordinator.pending, tasks, queued, nextUnallocated, full.to, coordinator.nextHeight, i);
      }
    }

    lemma {:induction false} NothingParked(done: nat)
      requires Inv(done) && coordinator.nextHeight > full.to
      ensures coordinator.pending == map[]
    {
      assert forall k :: k !in coordinator.pending;
    }
  }
}
