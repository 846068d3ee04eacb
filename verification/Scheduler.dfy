// The backfill loop: adaptively sized ranges are fetched concurrently, complete in any
// order, are split on provider limits or thrown away on a fork, and are still committed in
// order without gaps.
module Scheduler {
  import opened Wrappers
  import opened Headers
  import opened Backfill
  import opened Fetch
  import opened Budget

  // ------------------------------------------------------------------ tilings

  predicate Contains(r: Range, h: nat) {
    r.from <= h <= r.to
  }

  ghost predicate CoveredBy(parts: multiset<Range>, h: nat) {
    exists r :: r in parts && Contains(r, h)
  }

  predicate Disjoint(r: Range, s: Range) {
    r.to < s.from || s.to < r.from
  }

  // The parts partition the heights lo..=hi exactly; when lo is past hi there are none.
  ghost predicate Tiles(parts: multiset<Range>, lo: nat, hi: nat) {
    && (forall r | r in parts :: lo <= r.from <= r.to <= hi && parts[r] == 1)
    && (forall r, s | r in parts && s in parts && r != s :: Disjoint(r, s))
    && (forall h: nat | lo <= h <= hi :: CoveredBy(parts, h))
  }

  lemma TilesNone(lo: nat, hi: nat)
    requires lo > hi
    ensures Tiles(multiset{}, lo, hi)
  {
  }

  lemma TilesOne(r: Range)
    requires r.from <= r.to
    ensures Tiles(multiset{r}, r.from, r.to)
  {
    forall h: nat | r.from <= h <= r.to ensures CoveredBy(multiset{r}, h) {
      assert r in multiset{r} && Contains(r, h);
    }
  }

  // Replacing one part by a tiling of it.
  lemma TilesSplit(parts: multiset<Range>, r: Range, chunks: multiset<Range>, lo: nat, hi: nat)
    requires Tiles(parts, lo, hi) && r in parts && Tiles(chunks, r.from, r.to)
    ensures Tiles(parts - multiset{r} + chunks, lo, hi)
  {
    var out := parts - multiset{r} + chunks;
    forall s | s in parts && s != r ensures s !in chunks {
      assert Disjoint(s, r);
    }
    forall a, b | a in out && b in out && a != b ensures Disjoint(a, b) {
      if a in chunks && b !in chunks { assert Disjoint(b, r); }
      if b in chunks && a !in chunks { assert Disjoint(a, r); }
    }
    forall h: nat | lo <= h <= hi ensures CoveredBy(out, h) {
      assert CoveredBy(parts, h);
      var s :| s in parts && Contains(s, h);
      if s == r {
        assert CoveredBy(chunks, h);
        var x :| x in chunks && Contains(x, h);
        assert out[x] >= chunks[x];
      } else {
        assert out[s] >= parts[s];
      }
    }
  }

  // Dropping the first part moves the lower end past it.
  lemma TilesDropFirst(parts: multiset<Range>, r: Range, lo: nat, hi: nat)
    requires Tiles(parts, lo, hi) && r in parts && r.from == lo
    ensures Tiles(parts - multiset{r}, r.to + 1, hi)
  {
    var out := parts - multiset{r};
    forall s | s in out ensures r.to + 1 <= s.from {
      assert Disjoint(s, r);
    }
    forall h: nat | r.to + 1 <= h <= hi ensures CoveredBy(out, h) {
      assert CoveredBy(parts, h);
      var s :| s in parts && Contains(s, h);
      assert s != r && out[s] == parts[s];
    }
  }

  // Two tilings side by side.
  lemma TilesJoin(a: multiset<Range>, b: multiset<Range>, lo: nat, mid: nat, hi: nat)
    requires Tiles(a, lo, mid) && Tiles(b, mid + 1, hi) && lo <= mid <= hi
    ensures Tiles(a + b, lo, hi)
  {
    forall h: nat | lo <= h <= hi ensures CoveredBy(a + b, h) {
      if h <= mid {
        assert CoveredBy(a, h);
        var x :| x in a && Contains(x, h);
        assert x in a + b;
      } else {
        assert CoveredBy(b, h);
        var x :| x in b && Contains(x, h);
        assert x in a + b;
      }
    }
  }

  // ------------------------------------------------------------------ chunking and sizing

  // The end of a chunk: the whole size, or what is left.
  function ChunkEnd(from: nat, to: nat, size: nat): (end: nat)
    ensures from <= to && size >= 1 ==>
              from <= end <= to && end - from < size && (end - from + 1 == size || end == to)
  {
    var span := if size == 0 then 0 else size - 1;
    if from + span < to then from + span else to
  }

  function Chunks(from: nat, to: nat, size: nat): seq<Range>
    decreases if from <= to then to - from + 1 else 0
  {
    if from > to then []
    else [Range(from, ChunkEnd(from, to, size))] + Chunks(ChunkEnd(from, to, size) + 1, to, size)
  }

  lemma {:induction false} ChunksTile(from: nat, to: nat, size: nat)
    ensures Tiles(multiset(Chunks(from, to, size)), from, to)
    decreases if from <= to then to - from + 1 else 0
  {
    if from > to {
      TilesNone(from, to);
    } else {
      var end := ChunkEnd(from, to, size);
      var first, rest := Range(from, end), Chunks(end + 1, to, size);
      ChunksTile(end + 1, to, size);
      TilesOne(first);
      assert multiset([first] + rest) == multiset{first} + multiset(rest);
      if end < to {
        TilesJoin(multiset{first}, multiset(rest), from, end, to);
      } else {
        assert rest == [] && multiset(rest) == multiset{};
        assert multiset{first} + multiset{} == multiset{first};
      }
    }
  }

  // Every chunk but the last has the whole size, and the last is not longer.
  lemma {:induction false} ChunksSized(from: nat, to: nat, size: nat, i: nat)
    requires size >= 1 && i < |Chunks(from, to, size)|
    ensures var r := Chunks(from, to, size)[i];
            r.from <= r.to && r.to - r.from < size && (i + 1 < |Chunks(from, to, size)| ==> r.to - r.from + 1 == size)
    decreases i
  {
    var end := ChunkEnd(from, to, size);
    if i > 0 {
      assert Chunks(from, to, size)[i] == Chunks(end + 1, to, size)[i - 1];
      ChunksSized(end + 1, to, size, i - 1);
    } else if end == to {
      assert Chunks(end + 1, to, size) == [];
    }
  }

  lemma {:induction false} ChunksWithin(from: nat, to: nat, size: nat, i: nat)
    requires i < |Chunks(from, to, size)|
    ensures from <= Chunks(from, to, size)[i].from <= Chunks(from, to, size)[i].to <= to
    decreases i
  {
    var end := ChunkEnd(from, to, size);
    if i > 0 {
      assert Chunks(from, to, size)[i] == Chunks(end + 1, to, size)[i - 1];
      ChunksWithin(end + 1, to, size, i - 1);
    }
  }

  class LogRangeSizer {
    var current: nat
    const min: nat
    const max: nat

    ghost predicate Valid()
      reads this
    {
      1 <= min <= current <= max <= U64_MAX
    }

    constructor (initial: nat, min: nat, max: nat)
      requires 1 <= min <= initial <= max <= U64_MAX
      ensures Valid() && current == initial && this.min == min && this.max == max
    {
      current := initial;
      this.min := min;
      this.max := max;
    }

    method RecordSuccess()
      requires Valid()
      modifies this
      ensures Valid() && current == if 2 * old(current) <= max then 2 * old(current) else max
    {
      var doubled := if 2 * current > U64_MAX then U64_MAX else 2 * current;
      var capped := if doubled < max then doubled else max;
      current := Max(capped, min);
    }

    method RecordProviderLimit()
      requires Valid()
      modifies this
      ensures Valid() && current == if old(current) / 2 >= min then old(current) / 2 else min
    {
      current := Max(current / 2, min);
    }

    function NextRange(from: nat, target: nat): (r: Option<Range>)
      requires Valid()
      reads this
      ensures r.None? <==> from > target
      ensures r.Some? ==> r.value.from == from <= r.value.to <= target && r.value.to - from < current
      ensures r.Some? && r.value.to < target ==> r.value.to - from + 1 == current
    {
      if from > target then None else Some(Range(from, ChunkEnd(from, target, current)))
    }
  }

  // ------------------------------------------------------------------ where the work is

  // How far a fetch has come: it is about to pay for its request for logs, waits for the
  // logs, or has them and has paid for so many headers.
  datatype Stage =
    | AskLogs(attempt: nat)
    | AwaitLogs(attempt: nat)
    | AskBlocks(logs: seq<AnchoredLog>, paid: nat, attempt: nat)

  datatype Task = Task(range: Range, stage: Stage)

  function Launched(range: Range): Task {
    Task(range, AskLogs(1))
  }

  function TaskRanges(tasks: seq<Task>): (r: seq<Range>)
    ensures |r| == |tasks| && forall i | 0 <= i < |tasks| :: r[i] == tasks[i].range
  {
    seq(|tasks|, i requires 0 <= i < |tasks| => tasks[i].range)
  }

  function ParkedRanges(pending: map<nat, Fetched>): set<Range> {
    set k | k in pending :: pending[k].range
  }

  function Rest(unallocated: nat, hi: nat): multiset<Range> {
    if unallocated <= hi then multiset{Range(unallocated, hi)} else multiset{}
  }

  // Every range of work not yet committed: parked, in flight, queued, or unallocated.
  function Parts(pending: map<nat, Fetched>, tasks: seq<Task>, queued: seq<Range>, unallocated: nat, hi: nat)
    : multiset<Range> {
    multiset(ParkedRanges(pending)) + multiset(TaskRanges(tasks)) + multiset(queued) + Rest(unallocated, hi)
  }

  // All of it but the parked ranges.
  function Unparked(tasks: seq<Task>, queued: seq<Range>, unallocated: nat, hi: nat): multiset<Range> {
    multiset(TaskRanges(tasks)) + multiset(queued) + Rest(unallocated, hi)
  }

  lemma PartsSplit(pending: map<nat, Fetched>, tasks: seq<Task>, queued: seq<Range>, unallocated: nat, hi: nat)
    ensures Parts(pending, tasks, queued, unallocated, hi)
         == multiset(ParkedRanges(pending)) + Unparked(tasks, queued, unallocated, hi)
  {
  }

  lemma SameRanges(pending: map<nat, Fetched>, a: seq<Task>, b: seq<Task>, queued: seq<Range>, unallocated: nat,
                   hi: nat)
    requires TaskRanges(a) == TaskRanges(b)
    ensures Parts(pending, a, queued, unallocated, hi) == Parts(pending, b, queued, unallocated, hi)
  {
  }

  // With nothing parked, in flight or unallocated, the queue is all the work.
  lemma OnlyQueued(queued: seq<Range>, hi: nat)
    ensures Parts(map[], [], queued, hi + 1, hi) == multiset(queued)
  {
    assert TaskRanges([]) == [];
  }

  // With no fetch in flight, nothing queued and nothing unallocated, every uncommitted
  // height is parked, so the lowest one is where a parked range starts.
  lemma LowestIsParked(pending: map<nat, Fetched>, unallocated: nat, lo: nat, hi: nat)
    requires Tiles(Parts(pending, [], [], unallocated, hi), lo, hi) && unallocated > hi
    requires forall k | k in pending :: pending[k].range.from == k
    ensures lo <= hi ==> lo in pending
  {
    var parts := Parts(pending, [], [], unallocated, hi);
    assert TaskRanges([]) == [];
    assert forall part | part in parts :: part in ParkedRanges(pending);
    if lo <= hi {
      assert CoveredBy(parts, lo);
      var part :| part in parts && Contains(part, lo);
      assert part in ParkedRanges(pending);
      var k :| k in pending && pending[k].range == part;
    }
  }

  lemma TaskRangesAppend(tasks: seq<Task>, t: Task)
    ensures multiset(TaskRanges(tasks + [t])) == multiset(TaskRanges(tasks)) + multiset{t.range}
  {
    assert TaskRanges(tasks + [t]) == TaskRanges(tasks) + [t.range];
  }

  lemma TaskRangesRemove(tasks: seq<Task>, i: nat)
    requires i < |tasks|
    ensures multiset(TaskRanges(tasks)) == multiset(TaskRanges(tasks[..i] + tasks[i + 1..])) + multiset{tasks[i].range}
  {
    var a, b := TaskRanges(tasks[..i]), TaskRanges(tasks[i + 1..]);
    assert TaskRanges(tasks) == a + [tasks[i].range] + b;
    assert TaskRanges(tasks[..i] + tasks[i + 1..]) == a + b;
  }

  lemma LaunchQueued(pending: map<nat, Fetched>, tasks: seq<Task>, queued: seq<Range>, unallocated: nat, hi: nat)
    requires queued != []
    ensures Parts(pending, tasks + [Launched(queued[0])], queued[1..], unallocated, hi)
              == Parts(pending, tasks, queued, unallocated, hi)
  {
    TaskRangesAppend(tasks, Launched(queued[0]));
    assert queued == [queued[0]] + queued[1..];
    assert multiset(queued) == multiset{queued[0]} + multiset(queued[1..]);
  }

  lemma RestSplits(r: Range, hi: nat)
    requires r.from <= r.to <= hi
    ensures Tiles(multiset{r} + Rest(r.to + 1, hi), r.from, hi)
  {
    TilesOne(r);
    if r.to < hi {
      TilesOne(Range(r.to + 1, hi));
      TilesJoin(multiset{r}, Rest(r.to + 1, hi), r.from, r.to, hi);
    } else {
      assert multiset{r} + Rest(r.to + 1, hi) == multiset{r};
    }
  }

  lemma LaunchFresh(pending: map<nat, Fetched>, tasks: seq<Task>, queued: seq<Range>, unallocated: nat, hi: nat,
                    lo: nat, r: Range)
    requires Tiles(Parts(pending, tasks, queued, unallocated, hi), lo, hi)
    requires unallocated == r.from <= r.to <= hi
    ensures Tiles(Parts(pending, tasks + [Launched(r)], queued, r.to + 1, hi), lo, hi)
  {
    var parts, whole := Parts(pending, tasks, queued, unallocated, hi), Range(unallocated, hi);
    TaskRangesAppend(tasks, Launched(r));
    RestSplits(r, hi);
    assert whole in parts;
    TilesSplit(parts, whole, multiset{r} + Rest(r.to + 1, hi), lo, hi);
    Regroup(multiset(ParkedRanges(pending)), multiset(TaskRanges(tasks)), multiset(queued), whole, r,
        Rest(r.to + 1, hi));
  }

  lemma Regroup(parked: multiset<Range>, flight: multiset<Range>, queue: multiset<Range>, whole: Range, r: Range,
                rest: multiset<Range>)
    ensures parked + flight + queue + multiset{whole} - multiset{whole} + (multiset{r} + rest)
              == parked + (flight + multiset{r}) + queue + rest
  {
  }

  // A provider limit: the range leaves the flight and returns as smaller chunks.
  lemma SplitTask(pending: map<nat, Fetched>, tasks: seq<Task>, queued: seq<Range>, unallocated: nat, hi: nat, lo: nat,
                  i: nat, size: nat)
    requires i < |tasks| && Tiles(Parts(pending, tasks, queued, unallocated, hi), lo, hi)
    ensures var r := tasks[i].range;
            Tiles(Parts(pending, tasks[..i] + tasks[i + 1..], Chunks(r.from, r.to, size) + queued, unallocated, hi), lo,
                hi)
  {
    var r := tasks[i].range;
    var parts := Parts(pending, tasks, queued, unallocated, hi);
    var chunks := Chunks(r.from, r.to, size);
    TaskRangesRemove(tasks, i);
    assert r in parts;
    ChunksTile(r.from, r.to, size);
    TilesSplit(parts, r, multiset(chunks), lo, hi);
    assert multiset(chunks + queued) == multiset(chunks) + multiset(queued);
    Requeue(multiset(ParkedRanges(pending)), multiset(TaskRanges(tasks[..i] + tasks[i + 1..])), multiset(queued),
        Rest(unallocated, hi),
            r, multiset(chunks));
  }

  lemma Requeue(parked: multiset<Range>, flight: multiset<Range>, queue: multiset<Range>, rest: multiset<Range>,
                r: Range, chunks: multiset<Range>)
    ensures parked + (flight + multiset{r}) + queue + rest - multiset{r} + chunks
              == parked + flight + (chunks + queue) + rest
  {
  }

  // A fetch that came back: its range moves from the flight to the parked ranges.
  lemma ParkTask(pending: map<nat, Fetched>, tasks: seq<Task>, queued: seq<Range>, unallocated: nat, hi: nat, i: nat,
                 f: Fetched)
    requires i < |tasks| && f.range == tasks[i].range && f.range.from !in pending
    requires forall k | k in pending :: pending[k].range.from == k
    ensures Parts(pending[f.range.from := f], tasks[..i] + tasks[i + 1..], queued, unallocated, hi)
         == Parts(pending, tasks, queued, unallocated, hi)
  {
    TaskRangesRemove(tasks, i);
    var pending' := pending[f.range.from := f];
    assert f.range !in ParkedRanges(pending);
    forall r ensures r in ParkedRanges(pending') <==> r in ParkedRanges(pending) || r == f.range {
      if r in ParkedRanges(pending) {
        var k :| k in pending && pending[k].range == r;
        assert pending'[k].range == r;
      }
      assert pending'[f.range.from].range == f.range;
    }
    assert ParkedRanges(pending') == ParkedRanges(pending) + {f.range};
  }

  // What a tiling says about a range in flight: it is not stale, not beyond the target,
  // not a duplicate, and apart from everything parked.
  lemma {:induction false} InFlightFits(pending: map<nat, Fetched>, tasks: seq<Task>, queued: seq<Range>,
                                        unallocated: nat, hi: nat, lo: nat, i: nat)
    requires i < |tasks| && Tiles(Parts(pending, tasks, queued, unallocated, hi), lo, hi)
    ensures var r := tasks[i].range;
            && lo <= r.from <= r.to <= hi
            && forall k | k in pending :: Disjoint(pending[k].range, r)
  {
    var r := tasks[i].range;
    var parts := Parts(pending, tasks, queued, unallocated, hi);
    TaskRangesRemove(tasks, i);
    assert r in parts && parts[r] == 1;
    assert multiset(TaskRanges(tasks))[r] >= 1;
    forall k | k in pending ensures Disjoint(pending[k].range, r) {
      var s := pending[k].range;
      assert s in ParkedRanges(pending) && s in parts;
      assert parts[s] >= 1 + multiset(TaskRanges(tasks))[s];
      assert s != r;
    }
  }

  lemma CommitFirst(c: Coord, others: multiset<Range>)
    requires ParkedOk(c) && c.next in c.pending && Tiles(multiset(ParkedRanges(c.pending)) + others, c.next, c.target)
    ensures Tiles(multiset(ParkedRanges(c.pending - {c.next})) + others, c.pending[c.next].range.to + 1, c.target)
  {
    var r, parked := c.pending[c.next].range, multiset(ParkedRanges(c.pending - {c.next}));
    UnparkFirst(c.pending, c.next);
    assert r in parked + multiset{r} + others;
    TilesDropFirst(parked + multiset{r} + others, r, c.next, c.target);
    assert parked + multiset{r} + others - multiset{r} == parked + others;
  }

  // Draining commits parked ranges from the front of the tiling.
  lemma {:induction false} DrainKeepsTiles(c: Coord, accepts: Accepts, p: Progress, others: multiset<Range>, d: Drained)
    requires ParkedOk(c) && Tiles(multiset(ParkedRanges(c.pending)) + others, c.next, c.target)
    requires d == Drain(c, accepts, p) && d.result.Success?
    ensures Tiles(multiset(ParkedRanges(d.coord.pending)) + others, d.coord.next, c.target)
    decreases |c.pending|
  {
    if c.next in c.pending {
      DrainProceeds(c, accepts, p);
      CommitFirst(c, others);
      AdvanceKeepsParked(c);
      var f := c.pending[c.next];
      DrainKeepsTiles(Advance(c, f), accepts, AddRange(p, f), others, d);
    }
  }

  lemma UnparkFirst(pending: map<nat, Fetched>, k: nat)
    requires k in pending && forall j | j in pending :: pending[j].range.from == j
    ensures multiset(ParkedRanges(pending)) == multiset(ParkedRanges(pending - {k})) + multiset{pending[k].range}
  {
    var rest := ParkedRanges(pending - {k});
    assert pending[k].range !in rest;
    forall r ensures r in ParkedRanges(pending) <==> r in rest || r == pending[k].range {
      if r in ParkedRanges(pending) {
        var j :| j in pending && pending[j].range == r;
        if j != k { assert (pending - {k})[j].range == r; }
      }
    }
    assert ParkedRanges(pending) == rest + {pending[k].range};
  }
}
