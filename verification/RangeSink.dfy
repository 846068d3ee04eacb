// The coordinator over the store: every ready range is committed as one batch, and the store
// holds exactly what the coordinator stands on, plus at most the one range whose commit was
// interrupted after it had happened.
module RangeSink {
  import opened Wrappers
  import opened Headers
  import opened Store
  import opened StoreTheory
  import opened Backfill
  import opened Fetch
  import opened Committer

  // A commit succeeds exactly when the columns can hold the range and no crash point is
  // reached.
  function AcceptsOf(crashes: nat -> Option<CrashPoint>): Accepts {
    (n: nat, f: Fetched) => Committable(f) && !Interrupts(crashes(n), f)
  }

  class Sink {
    const committer: BackfillCommitter
    const crashes: nat -> Option<CrashPoint>
    const accepts: Accepts
    ghost const base: seq<Header>
    var committed: seq<Fetched>
    var attempts: nat
    ghost var extra: seq<Header>

    constructor (committer: BackfillCommitter, crashes: nat -> Option<CrashPoint>, ghost base: seq<Header>)
      ensures this.committer == committer && this.crashes == crashes && this.base == base
      ensures accepts == AcceptsOf(crashes) && committed == [] && extra == [] && attempts == 0
    {
      this.committer := committer;
      this.crashes := crashes;
      this.base := base;
      accepts := AcceptsOf(crashes);
      committed := [];
      attempts := 0;
      extra := [];
    }

    // What the coordinator stands on.
    ghost function Known(): seq<Header>
      reads this
    {
      base + Flat(committed)
    }

    // The store holds what is known to be committed and possibly one range more.
    ghost predicate Durable(w: World)
      reads this, committer, committer.writer.db
    {
      && accepts == AcceptsOf(crashes)
      && Holds(w, Stored(committer), Known() + extra)
      && committer.parentAnchor == TopOf(Known())
    }

    // Nothing is in doubt.
    ghost predicate Settled(w: World)
      reads this, committer, committer.writer.db
    {
      Durable(w) && extra == []
    }

    method CommitRange(f: Fetched, ghost w: World) returns (ok: bool)
      requires Settled(w) && Follows(w, Known(), f) && Carried(f)
      modifies this`committed, this`attempts, this`extra, committer, committer.writer.db
      ensures ok == accepts(old(attempts), f) && attempts == old(attempts) + 1
      ensures committed == if ok then old(committed) + [f] else old(committed)
      ensures if ok then Settled(w) else Durable(w) && (extra == [] || extra == f.headers)
    {
      hide Holds, Follows, Carried, Grew, Committable, Interrupts, Flat;
      ghost var e := Known();
      ghost var d := e;
      Whole(e);
      ok, d := CommitStep(committer, f, crashes(attempts), w, e);
      attempts := attempts + 1;
      if ok {
        committed := committed + [f];
        KnownGrows(base, old(committed), f);
        Whole(Known());
      } else {
        extra := if d == e then [] else f.headers;
        Whole(e);
      }
    }
  }

  lemma Whole(e: seq<Header>)
    ensures e + [] == e
  {
  }

  lemma KnownGrows(base: seq<Header>, fs: seq<Fetched>, f: Fetched)
    ensures base + Flat(fs + [f]) == base + Flat(fs) + f.headers
  {
    assert (fs + [f])[..|fs|] == fs;
  }

  // Every parked range is as the fetcher assembles it.
  ghost predicate ParkedCarried(w: World, pending: map<nat, Fetched>) {
    forall k | k in pending :: Trusted(w, pending[k]) && Carried(pending[k]) && pending[k].range.from == k
  }

  // Coordinator and sink agree on where they stand.
  ghost predicate Bound(w: World, coordinator: Coordinator, sink: Sink)
    reads coordinator, sink
  {
    && ParkedCarried(w, coordinator.pending)
    && coordinator.parentAnchor == TopOf(sink.Known())
    && AnchorFits(coordinator.nextHeight, coordinator.parentAnchor)
  }

  ghost function View(coordinator: Coordinator, sink: Sink): Coord
    reads coordinator, sink
  {
    coordinator.View(sink.committed, sink.attempts)
  }

  // How a drain ends early at its next range.
  predicate Stops(c: Coord, accepts: Accepts, c': Coord, e: BackfillError) {
    && c.next in c.pending && c.pending[c.next].headers != []
    && var f := c.pending[c.next];
       if Mismatch(c.anchor, f) then
         && c' == c.(pending := map[])
         && e == FetchedSuffixInvalidated(f.headers[0].height, c.anchor.value.hash, f.headers[0].parentHash)
       else
         && !accepts(c.attempts, f) && e == Commit
         && c' == c.(pending := c.pending - {c.next}, attempts := c.attempts + 1)
  }

  lemma StopsDrain(c: Coord, accepts: Accepts, c': Coord, e: BackfillError, p: Progress)
    requires Stops(c, accepts, c', e) && WellFormed(c.pending)
    ensures Drain(c, accepts, p) == Drained(c', Failure(e))
  {
  }

  // Takes and commits the next parked range; the count is its blocks.
  method CommitNext(coordinator: Coordinator, sink: Sink, ghost w: World) returns (r: Result<Fetched, BackfillError>)
    requires Bound(w, coordinator, sink) && sink.Settled(w) && coordinator.nextHeight in coordinator.pending
    modifies coordinator, sink, sink.committer, sink.committer.writer.db
    ensures sink.Durable(w)
    ensures r.Success? ==>
              && Bound(w, coordinator, sink) && sink.Settled(w)
              && r.value == old(coordinator.pending[coordinator.nextHeight])
              && |coordinator.pending| < |old(coordinator.pending)|
              && Covers(r.value.range, r.value.headers)
              && !Mismatch(old(coordinator.parentAnchor), r.value) && sink.accepts(old(sink.attempts), r.value)
              && View(coordinator, sink) == Advance(old(View(coordinator, sink)), r.value)
    ensures r.Failure? ==>
              && !r.error.Commit? ==> Bound(w, coordinator, sink) && sink.Settled(w)
    ensures r.Failure? ==> Stops(old(View(coordinator, sink)), sink.accepts, View(coordinator, sink), r.error)
  {
    hide Holds, Covers, AcceptsOf;
    var f := coordinator.pending[coordinator.nextHeight];
    assert Trusted(w, f) && Carried(f);
    TrustedCovers(w, f);
    assert (coordinator.pending - {coordinator.nextHeight}).Keys == coordinator.pending.Keys - {coordinator.nextHeight};
    var ready := coordinator.TakeReady();
    if ready.Failure? {
      return Failure(ready.error);
    }
    TakenFollows(w, sink.Known(), coordinator.nextHeight, f);
    var ok := sink.CommitRange(f, w);
    if !ok {
      return Failure(Commit);
    }
    KnownGrows(sink.base, old(sink.committed), f);
    coordinator.MoveOn(f);
    r := Success(f);
  }

  lemma TrustedCovers(w: World, f: Fetched)
    requires Trusted(w, f)
    ensures f.headers != [] && Covers(f.range, f.headers) && f.range.from <= f.range.to
  {
  }

  lemma ParkedWellFormed(w: World, pending: map<nat, Fetched>)
    requires ParkedCarried(w, pending)
    ensures WellFormed(pending) && Keyed(pending)
  {
  }

  // Commits parked ranges in height order until one is missing or fails.
  method DrainReady(coordinator: Coordinator, sink: Sink, ghost w: World) returns (r: Result<Progress, BackfillError>)
    requires Bound(w, coordinator, sink) && sink.Settled(w) && WellFormed(coordinator.pending)
    modifies coordinator, sink, sink.committer, sink.committer.writer.db
    ensures Drain(old(View(coordinator, sink)), sink.accepts, NO_PROGRESS) == Drained(View(coordinator, sink), r)
    ensures sink.Durable(w)
    ensures r.Success? || !r.error.Commit? ==> Bound(w, coordinator, sink) && sink.Settled(w)
  {
    hide Bound, Sink.Durable;
    var progress := NO_PROGRESS;
    while coordinator.nextHeight in coordinator.pending
      invariant Bound(w, coordinator, sink) && sink.Settled(w) && WellFormed(coordinator.pending)
      invariant Drain(old(View(coordinator, sink)), sink.accepts, NO_PROGRESS)
             == Drain(View(coordinator, sink), sink.accepts, progress)
      decreases |coordinator.pending|
    {
      ghost var c := View(coordinator, sink);
      var next := CommitNext(coordinator, sink, w);
      if next.Failure? {
        StopsDrain(c, sink.accepts, View(coordinator, sink), next.error, progress);
        return Failure(next.error);
      }
      progress := AddRange(progress, next.value);
    }
    r := Success(progress);
  }

  // One push of an assembled range, whatever the range and wherever the writer crashes.
  method PushRange(coordinator: Coordinator, f: Fetched, sink: Sink, ghost w: World)
    returns (r: Result<Progress, BackfillError>)
    requires Bound(w, coordinator, sink) && sink.Settled(w) && WellFormed(coordinator.pending) && Trusted(w, f)
    requires Carried(f)
    requires f.range.from <= f.range.to
    modifies coordinator, sink, sink.committer, sink.committer.writer.db
    ensures Push(old(View(coordinator, sink)), sink.accepts, f) == Drained(View(coordinator, sink), r)
    ensures sink.Durable(w)
    ensures r.Success? || !r.error.Commit? ==> Bound(w, coordinator, sink) && sink.Settled(w)
  {
    ghost var c := View(coordinator, sink);
    var refused := coordinator.InsertPending(f);
    if refused.Some? {
      return Failure(refused.value);
    }
    assert Insert(c, f) == Success(View(coordinator, sink));
    r := DrainReady(coordinator, sink, w);
  }
}
