// A provider that serves one chain: whatever is fetched is a part of it, so no parent link
// ever breaks and the committed ranges are its beginning.
module OneChain {
  import opened Wrappers
  import opened Headers
  import opened Store
  import opened StoreTheory
  import opened Backfill
  import opened Fetch
  import opened Committer
  import opened Budget
  import opened Scheduler
  import opened FetchBudget

  // The chain that a full range is fetched from, one storable header per height.
  ghost predicate ChainFor(w: World, truth: seq<Header>, full: Range, anchor: Option<Header>) {
    && full.from <= full.to && |truth| == Length(full)
    && (forall i | 0 <= i < |truth| :: truth[i].height == full.from + i <= I64_MAX)
    && Linked(AnchorRun(anchor) + truth) && AllGenuine(w, truth)
  }

  predicate Within(r: Range, full: Range) {
    full.from <= r.from <= r.to <= full.to
  }

  // The headers of a range.
  function Part(truth: seq<Header>, full: Range, r: Range): seq<Header>
    requires |truth| == Length(full)
  {
    if Within(r, full) then truth[r.from - full.from..r.to + 1 - full.from] else []
  }

  // Logs that the columns can hold and that name the blocks they belong to.
  ghost predicate GoodLogs(logs: seq<AnchoredLog>, headers: seq<Header>) {
    Consistent(logs, headers) && forall l | l in logs :: LogOk(l.raw)
  }

  lemma GenuineSlice(w: World, s: seq<Header>, a: nat, b: nat)
    requires AllGenuine(w, s) && a <= b <= |s|
    ensures AllGenuine(w, s[a..b])
  {
    forall h | h in s[a..b] ensures Genuine(w, h) {
      assert h in s;
    }
  }

  lemma PartCovers(w: World, truth: seq<Header>, full: Range, anchor: Option<Header>, r: Range)
    requires ChainFor(w, truth, full, anchor) && Within(r, full)
    ensures Covers(r, Part(truth, full, r)) && AllGenuine(w, Part(truth, full, r))
  {
    var a, b := r.from - full.from, r.to + 1 - full.from;
    assert Part(truth, full, r) == truth[a..b];
    LinkedParts(AnchorRun(anchor), truth);
    LinkedSlice(truth, a, b);
    GenuineSlice(w, truth, a, b);
    hide Linked, AnchorRun, AllGenuine;
    forall i | 0 <= i < |truth[a..b]| ensures truth[a..b][i].height == r.from + i {
      assert truth[a..b][i] == truth[a + i];
    }
  }

  // What is assembled from such logs and headers can be committed.
  lemma PartIsCommittable(w: World, truth: seq<Header>, full: Range, anchor: Option<Header>, r: Range,
                          logs: seq<AnchoredLog>, f: Fetched)
    requires ChainFor(w, truth, full, anchor) && Within(r, full) && GoodLogs(logs, Part(truth, full, r))
    requires f.headers == Part(truth, full, r) && Attached(logs, f)
    ensures Committable(f)
  {
    forall i | 0 <= i < |f.blocks| ensures Storable(ApplyBlock(f.blocks[i])) {
      assert f.blocks[i] == Block(f.headers[i], Raws(LogsAt(logs, f.headers[i].height)));
      assert f.headers[i] == truth[r.from - full.from + i];
    }
  }

  // The coordinator stands on a beginning of the chain, and only parts of it are parked.
  ghost predicate OnTruth(c: Coord, truth: seq<Header>, full: Range)
    requires |truth| == Length(full)
  {
    && full.from <= c.next <= full.from + |truth|
    && Flat(c.committed) == truth[..c.next - full.from] && Items(c.committed) == c.next - full.from
    && Parked(c.pending, truth, full)
  }

  ghost predicate IsPart(f: Fetched, truth: seq<Header>, full: Range)
    requires |truth| == Length(full)
  {
    Within(f.range, full) && f.headers == Part(truth, full, f.range) && Carried(f) && Committable(f)
  }

  ghost predicate Parked(pending: map<nat, Fetched>, truth: seq<Header>, full: Range)
    requires |truth| == Length(full)
  {
    forall k | k in pending :: pending[k].range.from == k && IsPart(pending[k], truth, full)
  }

  // The next parked range continues the chain.
  lemma AdvanceOnTruth(w: World, c: Coord, truth: seq<Header>, full: Range, anchor: Option<Header>)
    requires ChainFor(w, truth, full, anchor) && RunOk(c, full.from, anchor) && OnTruth(c, truth, full)
    requires c.next in c.pending
    ensures var f := c.pending[c.next];
            && f.headers != [] && Covers(f.range, f.headers) && !Mismatch(c.anchor, f) && Committable(f)
            && OnTruth(Advance(c, f), truth, full)
  {
    var f := c.pending[c.next];
    assert IsPart(f, truth, full);
    PartCovers(w, truth, full, anchor, f.range);
    CoversFacts(f.range, f.headers);
    LinkHolds(truth, anchor, c.next - full.from);
    hide Committable, Covers, Linked, ChainFor;
    AdvanceStays(c, f, truth, full);
  }

  lemma AdvanceStays(c: Coord, f: Fetched, truth: seq<Header>, full: Range)
    requires |truth| == Length(full) && OnTruth(c, truth, full) && IsPart(f, truth, full)
    requires c.next in c.pending && c.pending[c.next] == f
    requires f.headers != [] && Last(f.headers).height == f.range.to && f.range.from == c.next
    ensures OnTruth(Advance(c, f), truth, full)
  {
    hide Committable, Flat, Items;
    var j := c.next - full.from;
    FlatPush(c.committed, f);
    ItemsPush(c.committed, f);
    assert truth[..j] + truth[j..f.range.to + 1 - full.from] == truth[..f.range.to + 1 - full.from];
  }

  lemma LinkHolds(truth: seq<Header>, anchor: Option<Header>, j: nat)
    requires Linked(AnchorRun(anchor) + truth) && j < |truth|
    ensures var before := AnchorRun(anchor) + truth[..j]; before != [] ==> Links(Last(before), truth[j])
  {
    var run := AnchorRun(anchor) + truth;
    var before := AnchorRun(anchor) + truth[..j];
    if before != [] {
      var n := |before|;
      assert run[n - 1] == Last(before) && run[n] == truth[j];
    }
  }

  lemma ItemsPush(fs: seq<Fetched>, f: Fetched)
    ensures Items(fs + [f]) == Items(fs) + |f.blocks|
  {
    assert (fs + [f])[..|fs|] == fs;
  }

  // A sink that commits whatever the columns can hold drains everything that is ready.
  lemma {:induction false} DrainOnTruth(w: World, c: Coord, accepts: Accepts, p: Progress, truth: seq<Header>,
                                        full: Range, anchor: Option<Header>)
    requires ChainFor(w, truth, full, anchor) && RunOk(c, full.from, anchor) && OnTruth(c, truth, full)
    requires WellFormed(c.pending) && forall n: nat, f: Fetched :: Committable(f) ==> accepts(n, f)
    ensures Drain(c, accepts, p).result.Success? && OnTruth(Drain(c, accepts, p).coord, truth, full)
    decreases |c.pending|
  {
    if c.next in c.pending {
      AdvanceOnTruth(w, c, truth, full, anchor);
      var f := c.pending[c.next];
      assert (c.pending - {c.next}).Keys == c.pending.Keys - {c.next};
      AdvanceKeepsRun(c, f, full.from, anchor);
      hide Committable, RunOk, OnTruth, ChainFor;
      DrainOnTruth(w, Advance(c, f), accepts, AddRange(p, f), truth, full, anchor);
    }
  }

  lemma CoordRuns(c: Coord, start: nat, anchor: Option<Header>, f: Fetched)
    requires CoordOk(c, start, anchor) && Covers(f.range, f.headers)
    ensures RunOk(c.(pending := c.pending[f.range.from := f]), start, anchor)
    ensures WellFormed(c.pending[f.range.from := f]) && forall k | k in c.pending :: c.pending[k].range.from == k
  {
    hide Linked;
  }

  lemma ParkOnTruth(c: Coord, f: Fetched, truth: seq<Header>, full: Range)
    requires |truth| == Length(full) && OnTruth(c, truth, full) && IsPart(f, truth, full)
    ensures OnTruth(c.(pending := c.pending[f.range.from := f]), truth, full)
  {
    hide IsPart;
  }

  // Parking one more part and draining.
  lemma PushOnTruth(w: World, c: Coord, accepts: Accepts, f: Fetched, truth: seq<Header>, full: Range,
                    anchor: Option<Header>)
    requires ChainFor(w, truth, full, anchor) && CoordOk(c, full.from, anchor) && OnTruth(c, truth, full)
    requires IsPart(f, truth, full) && c.next <= f.range.from && f.range.to <= c.target
    requires forall k | k in c.pending :: Disjoint(c.pending[k].range, f.range)
    requires forall n: nat, f: Fetched :: Committable(f) ==> accepts(n, f)
    ensures Push(c, accepts, f).result.Success? && OnTruth(Push(c, accepts, f).coord, truth, full)
  {
    assert |truth| == Length(full);
    hide ChainFor, CoordOk, OnTruth, Push, Drain;
    PartCovers(w, truth, full, anchor, f.range);
    assert Covers(f.range, f.headers);
    CoordRuns(c, full.from, anchor, f);
    hide Covers, IsPart;
    PushKeepsOk(c, accepts, f, full.from, anchor);
    ParkOnTruth(c, f, truth, full);
    DrainOnTruth(w, c.(pending := c.pending[f.range.from := f]), accepts, NO_PROGRESS, truth, full, anchor);
  }
}
