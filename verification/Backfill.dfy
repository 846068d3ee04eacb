// Ordered commits: fetched ranges arrive in any order, are parked, and are committed in
// height order with every parent link checked against the last committed header.
module Backfill {
  import opened Wrappers
  import opened Headers
  import opened Store

  datatype Range = Range(from: nat, to: nat)

  datatype Fetched = Fetched(range: Range, headers: seq<Header>, blocks: seq<Block>)

  datatype BackfillError =
    | InvalidRange(from: nat, to: nat)
    | MissingParentAnchor(from: nat)
    | InvalidParentAnchor(anchorHeight: nat, from: nat)
    | UnexpectedParentAnchor
    | HeaderCountMismatch(expected: nat, actual: nat)
    | HeaderHeightMismatch(offset: nat, expected: nat, actual: nat)
    | BrokenParentLink(height: nat)
    | RangeBeyondTarget(to: nat, target: nat)
    | StaleRange(from: nat, next: nat)
    | DuplicateRange(from: nat)
    | EmptyFetchedRange(from: nat)
    | FetchedSuffixInvalidated(refetchFrom: nat, expectedParent: Hash, actualParent: Hash)
    | Commit

  // ------------------------------------------------------------------ fetched ranges

  // One linked header per height of the range.
  predicate Covers(range: Range, headers: seq<Header>) {
    && range.from <= range.to
    && |headers| == range.to - range.from + 1
    && (forall i | 0 <= i < |headers| :: headers[i].height == range.from + i)
    && Linked(headers)
  }

  // What a refusal of fetched headers names: a count, a height or a link that is wrong.
  predicate ReallyWrong(range: Range, headers: seq<Header>, e: BackfillError)
    requires range.from <= range.to
  {
    match e
    case HeaderCountMismatch(expected, actual) => expected == range.to - range.from + 1 != actual == |headers|
    case HeaderHeightMismatch(i, expected, actual) =>
      i < |headers| && expected == range.from + i != actual == headers[i].height
    case BrokenParentLink(height) =>
      exists i, j :: 0 <= i < |headers| && 0 <= j < |headers| && j == i + 1 && headers[j].height == height
                     && !Links(headers[i], headers[j])
    case _ => false
  }

  method NewFetched(range: Range, headers: seq<Header>, blocks: seq<Block>) returns (r: Result<Fetched, BackfillError>)
    requires range.from <= range.to
    ensures r.Success? <==> Covers(range, headers)
    ensures r.Success? ==> r.value == Fetched(range, headers, blocks)
    ensures r.Failure? ==> !r.error.FetchedSuffixInvalidated? && !r.error.Commit?
    ensures r.Failure? ==> ReallyWrong(range, headers, r.error)
  {
    var expected := range.to - range.from + 1;
    if |headers| != expected {
      return Failure(HeaderCountMismatch(expected, |headers|));
    }
    for i := 0 to |headers|
      invariant forall j | 0 <= j < i :: headers[j].height == range.from + j
      invariant forall j, k | 0 <= j < i && 0 <= k < i && k == j + 1 :: Links(headers[j], headers[k])
    {
      if headers[i].height != range.from + i {
        return Failure(HeaderHeightMismatch(i, range.from + i, headers[i].height));
      }
      if i > 0 && !Links(headers[i - 1], headers[i]) {
        return Failure(BrokenParentLink(headers[i].height));
      }
    }
    r := Success(Fetched(range, headers, blocks));
  }

  // ------------------------------------------------------------------ the coordinator on values

  datatype Progress = Progress(ranges: nat, blocks: nat, logs: nat, lastHeight: Option<nat>)

  const NO_PROGRESS := Progress(0, 0, 0, None)

  // Whether a sink commits a range when asked the n-th time.
  type Accepts = (nat, Fetched) -> bool

  // Coordinator and sink together; `committed` is what the sink has accepted so far.
  datatype Coord = Coord(
    next: nat, target: nat, anchor: Option<Header>, pending: map<nat, Fetched>,
    committed: seq<Fetched>, attempts: nat)

  predicate Mismatch(anchor: Option<Header>, f: Fetched) {
    f.headers != [] && anchor.Some? && !Links(anchor.value, f.headers[0])
  }

  function Advance(c: Coord, f: Fetched): Coord
    requires f.headers != []
  {
    c.(next := Last(f.headers).height + 1, anchor := Some(Last(f.headers)), pending := c.pending - {c.next},
       committed := c.committed + [f], attempts := c.attempts + 1)
  }

  function AddRange(p: Progress, f: Fetched): Progress
    requires f.headers != [] && f.range.from <= f.range.to
  {
    Progress(p.ranges + 1, p.blocks + (f.range.to - f.range.from + 1), p.logs + |f.blocks|,
             Some(Last(f.headers).height))
  }

  datatype Drained = Drained(coord: Coord, result: Result<Progress, BackfillError>)

  predicate WellFormed(pending: map<nat, Fetched>) {
    forall k | k in pending :: pending[k].range.from <= pending[k].range.to
  }

  function Drain(c: Coord, accepts: Accepts, p: Progress): Drained
    requires WellFormed(c.pending)
    decreases |c.pending|
  {
    if c.next !in c.pending then Drained(c, Success(p))
    else
      var f := c.pending[c.next];
      if Mismatch(c.anchor, f) then
        Drained(c.(pending := map[]),
            Failure(FetchedSuffixInvalidated(f.headers[0].height, c.anchor.value.hash, f.headers[0].parentHash)))
      else if f.headers == [] then Drained(c.(pending := c.pending - {c.next}), Failure(EmptyFetchedRange(c.next)))
      else if !accepts(c.attempts, f) then
        Drained(c.(pending := c.pending - {c.next}, attempts := c.attempts + 1), Failure(Commit))
      else
        assert |c.pending - {c.next}| < |c.pending| by {
          assert (c.pending - {c.next}).Keys == c.pending.Keys - {c.next};
        }
        Drain(Advance(c, f), accepts, AddRange(p, f))
  }

  function Insert(c: Coord, f: Fetched): Result<Coord, BackfillError> {
    if f.range.to > c.target then Failure(RangeBeyondTarget(f.range.to, c.target))
    else if f.range.from < c.next then Failure(StaleRange(f.range.from, c.next))
    else if f.range.from in c.pending then Failure(DuplicateRange(f.range.from))
    else Success(c.(pending := c.pending[f.range.from := f]))
  }

  function Push(c: Coord, accepts: Accepts, f: Fetched): Drained
    requires WellFormed(c.pending) && f.range.from <= f.range.to
  {
    var r := Insert(c, f);
    if r.Success? then Drain(r.value, accepts, NO_PROGRESS)
    else if r.error.DuplicateRange? then Drained(c.(pending := c.pending[f.range.from := f]), Failure(r.error))
    else Drained(c, Failure(r.error))
  }

  // ------------------------------------------------------------------ the coordinator in place

  // A start of zero has no parent; any other start needs the header just below it.
  predicate AnchorFits(from: nat, anchor: Option<Header>) {
    if from == 0 then anchor.None? else anchor.Some? && anchor.value.height + 1 == from
  }

  class Coordinator {
    var nextHeight: nat
    const target: nat
    var parentAnchor: Option<Header>
    var pending: map<nat, Fetched>

    // The coordinator with what its sink has accepted and how often it was asked.
    ghost function View(committed: seq<Fetched>, attempts: nat): Coord
      reads this
    {
      Coord(nextHeight, target, parentAnchor, pending, committed, attempts)
    }

    constructor (from: nat, target: nat, anchor: Option<Header>)
      ensures nextHeight == from && this.target == target && parentAnchor == anchor && pending == map[]
    {
      nextHeight := from;
      this.target := target;
      parentAnchor := anchor;
      pending := map[];
    }

    static method New(from: nat, target: nat, anchor: Option<Header>) returns (r: Result<Coordinator, BackfillError>)
      ensures r.Success? <==> from <= target && AnchorFits(from, anchor)
      ensures r.Success? ==> fresh(r.value) && r.value.nextHeight == from && r.value.target == target
                             && r.value.parentAnchor == anchor && r.value.pending == map[]
      ensures from == 0 && from <= target && anchor.Some? ==> r == Failure(UnexpectedParentAnchor)
      ensures 0 < from <= target && anchor.None? ==> r == Failure(MissingParentAnchor(from))
      ensures from > target ==> r == Failure(InvalidRange(from, target))
      ensures 0 < from <= target && anchor.Some? && anchor.value.height + 1 != from ==>
                r == Failure(InvalidParentAnchor(anchor.value.height, from))
    {
      if from > target {
        return Failure(InvalidRange(from, target));
      }
      if from == 0 && anchor.Some? {
        return Failure(UnexpectedParentAnchor);
      }
      if from > 0 {
        if anchor.None? {
          return Failure(MissingParentAnchor(from));
        }
        if anchor.value.height + 1 != from {
          return Failure(InvalidParentAnchor(anchor.value.height, from));
        }
      }
      var c := new Coordinator(from, target, anchor);
      r := Success(c);
    }

    predicate IsComplete()
      reads this
    {
      nextHeight > target
    }

    // Parks a range. A range at a start that is taken already replaces the one there and is
    // reported.
    method InsertPending(f: Fetched) returns (e: Option<BackfillError>)
      modifies this`pending
      ensures forall c: Coord | c.next == nextHeight && c.target == target && c.pending == old(pending) ::
                match e
                case None => Insert(c, f) == Success(c.(pending := pending))
                case Some(error) =>
                  Insert(c, f) == Failure(error) && (!error.DuplicateRange? ==> pending == old(pending))
      ensures pending == if e.None? || e.value.DuplicateRange? then old(pending)[f.range.from := f] else old(pending)
      ensures e == if f.range.to > target then Some(RangeBeyondTarget(f.range.to, target))
                   else if f.range.from < nextHeight then Some(StaleRange(f.range.from, nextHeight))
                   else if f.range.from in old(pending) then Some(DuplicateRange(f.range.from))
                   else None
    {
      if f.range.to > target {
        return Some(RangeBeyondTarget(f.range.to, target));
      }
      if f.range.from < nextHeight {
        return Some(StaleRange(f.range.from, nextHeight));
      }
      var taken := f.range.from in pending;
      pending := pending[f.range.from := f];
      e := if taken then Some(DuplicateRange(f.range.from)) else None;
    }

    // Takes the range at the next height for its commit; a broken parent link throws every
    // parked range away.
    method TakeReady() returns (r: Result<Fetched, BackfillError>)
      requires nextHeight in pending
      modifies this`pending
      ensures var f := old(pending)[nextHeight];
              if Mismatch(parentAnchor, f) then
                && pending == map[]
                && r == Failure(FetchedSuffixInvalidated(f.headers[0].height, parentAnchor.value.hash,
                                                         f.headers[0].parentHash))
              else
                && pending == old(pending) - {nextHeight}
                && r == if f.headers == [] then Failure(EmptyFetchedRange(nextHeight)) else Success(f)
    {
      var f := pending[nextHeight];
      pending := pending - {nextHeight};
      if f.headers != [] && parentAnchor.Some? && !Links(parentAnchor.value, f.headers[0]) {
        pending := map[];
        return Failure(FetchedSuffixInvalidated(f.headers[0].height, parentAnchor.value.hash, f.headers[0].parentHash));
      }
      if f.headers == [] {
        return Failure(EmptyFetchedRange(nextHeight));
      }
      r := Success(f);
    }

    // After a commit the last header is the parent of what comes next.
    method MoveOn(f: Fetched)
      requires f.headers != []
      modifies this`nextHeight, this`parentAnchor
      ensures nextHeight == Last(f.headers).height + 1 && parentAnchor == Some(Last(f.headers))
    {
      parentAnchor := Some(Last(f.headers));
      nextHeight := Last(f.headers).height + 1;
    }
  }

  // ------------------------------------------------------------------ what is committed

  function Flat(fs: seq<Fetched>): seq<Header> {
    if fs == [] then [] else Flat(fs[..|fs| - 1]) + Last(fs).headers
  }

  function AnchorRun(anchor: Option<Header>): seq<Header> {
    if anchor.Some? then [anchor.value] else []
  }

  // The committed headers are one gap-free linked run on the given parent, ending just
  // below the next height.
  ghost predicate RunOk(c: Coord, start: nat, anchor: Option<Header>) {
    && AnchorFits(start, anchor)
    && Linked(AnchorRun(anchor) + Flat(c.committed))
    && c.next == start + |Flat(c.committed)|
    && AnchorFits(c.next, c.anchor)
    && (c.anchor.Some? ==> c.anchor.value == Last(AnchorRun(anchor) + Flat(c.committed)))
  }

  // Parked ranges lie above the next height, within the target, and do not overlap.
  ghost predicate ParkedOk(c: Coord) {
    && (forall k | k in c.pending :: c.next <= k == c.pending[k].range.from && c.pending[k].range.to <= c.target)
    && (forall k | k in c.pending :: Covers(c.pending[k].range, c.pending[k].headers))
    && (forall j, k | j in c.pending && k in c.pending && j < k :: c.pending[j].range.to < k)
  }

  ghost predicate CoordOk(c: Coord, start: nat, anchor: Option<Header>) {
    RunOk(c, start, anchor) && ParkedOk(c)
  }

  lemma AdvanceKeepsRun(c: Coord, f: Fetched, start: nat, anchor: Option<Header>)
    requires RunOk(c, start, anchor) && Covers(f.range, f.headers) && f.range.from == c.next && !Mismatch(c.anchor, f)
    ensures RunOk(Advance(c, f), start, anchor) && Advance(c, f).next == f.range.to + 1
  {
    CoversFacts(f.range, f.headers);
    FlatPush(c.committed, f);
    hide Linked, Covers, Flat;
    RunAppends(AnchorRun(anchor), Flat(c.committed), f.headers);
  }

  lemma RunAppends(a: seq<Header>, b: seq<Header>, more: seq<Header>)
    requires Linked(a + b) && Linked(more) && more != [] && (a + b != [] ==> Links(Last(a + b), more[0]))
    ensures Linked(a + (b + more)) && Last(a + (b + more)) == Last(more)
  {
    assert a + (b + more) == a + b + more;
    LinkedConcat(a + b, more);
  }

  lemma CoversFacts(range: Range, headers: seq<Header>)
    requires Covers(range, headers)
    ensures Linked(headers) && |headers| == range.to - range.from + 1 && range.from <= range.to
    ensures headers[0].height == range.from && Last(headers).height == range.to
  {
  }

  lemma FlatPush(fs: seq<Fetched>, f: Fetched)
    ensures Flat(fs + [f]) == Flat(fs) + f.headers
  {
    assert (fs + [f])[..|fs|] == fs;
  }

  lemma AdvanceKeepsParked(c: Coord)
    requires ParkedOk(c) && c.next in c.pending
    ensures var f := c.pending[c.next];
            && f.headers != [] && ParkedOk(Advance(c, f)) && Advance(c, f).next == f.range.to + 1
            && |Advance(c, f).pending| < |c.pending|
  {
    hide Linked;
    var f, rest := c.pending[c.next], c.pending - {c.next};
    assert rest.Keys == c.pending.Keys - {c.next};
    assert f.headers != [] && Last(f.headers).height == f.range.to;
    assert forall k | k in rest :: f.range.to < k;
  }

  // What the coordinator always knows of a parked range: its key is its start, and its
  // headers cover it. Parked ranges may overlap, and may reach below the next height.
  predicate Keyed(pending: map<nat, Fetched>) {
    forall k | k in pending :: pending[k].range.from == k && Covers(pending[k].range, pending[k].headers)
  }

  // Draining keeps the committed run gap-free and linked, whatever is parked and however
  // the drain ends; nothing committed is taken back.
  lemma {:induction false} DrainKeepsRun(c: Coord, accepts: Accepts, p: Progress, start: nat, anchor: Option<Header>)
    requires RunOk(c, start, anchor) && Keyed(c.pending)
    ensures var d := Drain(c, accepts, p).coord;
            RunOk(d, start, anchor) && Keyed(d.pending) && c.committed <= d.committed && d.target == c.target
    decreases |c.pending|
  {
    if c.next in c.pending && !Mismatch(c.anchor, c.pending[c.next]) && accepts(c.attempts, c.pending[c.next]) {
      var f := c.pending[c.next];
      assert (c.pending - {c.next}).Keys == c.pending.Keys - {c.next};
      AdvanceKeepsRun(c, f, start, anchor);
      DrainKeepsRun(Advance(c, f), accepts, AddRange(p, f), start, anchor);
    }
  }

  // One push of any range: stale, beyond the target, overlapping, replacing a parked one,
  // not linked, or refused by the sink.
  lemma PushKeepsRun(c: Coord, accepts: Accepts, f: Fetched, start: nat, anchor: Option<Header>)
    requires RunOk(c, start, anchor) && Keyed(c.pending) && Covers(f.range, f.headers)
    ensures var d := Push(c, accepts, f).coord;
            RunOk(d, start, anchor) && Keyed(d.pending) && c.committed <= d.committed && d.target == c.target
  {
    hide Linked, Flat;
    var r := Insert(c, f);
    if r.Success? {
      DrainKeepsRun(r.value, accepts, NO_PROGRESS, start, anchor);
    }
  }

  // Pushing ranges one after the other, going on after every failure.
  function PushMany(c: Coord, accepts: Accepts, fs: seq<Fetched>): Coord
    requires Keyed(c.pending) && forall f | f in fs :: Covers(f.range, f.headers)
    decreases |fs|
  {
    if fs == [] then c
    else
      PushKeepsKeys(c, accepts, fs[0]);
      PushMany(Push(c, accepts, fs[0]).coord, accepts, fs[1..])
  }

  lemma {:induction false} DrainKeepsKeys(c: Coord, accepts: Accepts, p: Progress)
    requires Keyed(c.pending)
    ensures Keyed(Drain(c, accepts, p).coord.pending)
    decreases |c.pending|
  {
    if c.next in c.pending && !Mismatch(c.anchor, c.pending[c.next]) && accepts(c.attempts, c.pending[c.next]) {
      var f := c.pending[c.next];
      assert (c.pending - {c.next}).Keys == c.pending.Keys - {c.next};
      DrainKeepsKeys(Advance(c, f), accepts, AddRange(p, f));
    }
  }

  lemma PushKeepsKeys(c: Coord, accepts: Accepts, f: Fetched)
    requires Keyed(c.pending) && Covers(f.range, f.headers)
    ensures Keyed(Push(c, accepts, f).coord.pending)
  {
    var r := Insert(c, f);
    if r.Success? {
      DrainKeepsKeys(r.value, accepts, NO_PROGRESS);
    }
  }

  lemma {:induction false} PushManyKeepsRun(c: Coord, accepts: Accepts, fs: seq<Fetched>, start: nat,
                                            anchor: Option<Header>)
    requires RunOk(c, start, anchor) && Keyed(c.pending) && forall f | f in fs :: Covers(f.range, f.headers)
    ensures RunOk(PushMany(c, accepts, fs), start, anchor) && c.committed <= PushMany(c, accepts, fs).committed
    decreases |fs|
  {
    hide RunOk, Push;
    if fs != [] {
      PushKeepsKeys(c, accepts, fs[0]);
      PushKeepsRun(c, accepts, fs[0], start, anchor);
      PushManyKeepsRun(Push(c, accepts, fs[0]).coord, accepts, fs[1..], start, anchor);
    }
  }

  // Over every run of a coordinator, whatever is pushed and whatever the sink does, the
  // committed ranges are one gap-free linked run on the given parent.
  lemma EveryRunIsLinked(start: nat, target: nat, anchor: Option<Header>, accepts: Accepts, fs: seq<Fetched>)
    requires AnchorFits(start, anchor) && forall f | f in fs :: Covers(f.range, f.headers)
    ensures RunOk(PushMany(Coord(start, target, anchor, map[], [], 0), accepts, fs), start, anchor)
  {
    assert AnchorRun(anchor) + Flat([]) == AnchorRun(anchor);
    PushManyKeepsRun(Coord(start, target, anchor, map[], [], 0), accepts, fs, start, anchor);
  }

  lemma {:induction false} DrainKeepsParked(c: Coord, accepts: Accepts, p: Progress)
    requires ParkedOk(c)
    ensures var d := Drain(c, accepts, p).coord;
            && ParkedOk(d) && d.target == c.target && c.next <= d.next
            && (c.next <= c.target + 1 ==> d.next <= c.target + 1)
            && c.committed <= d.committed
    decreases |c.pending|
  {
    if c.next in c.pending && !Mismatch(c.anchor, c.pending[c.next]) && accepts(c.attempts, c.pending[c.next]) {
      var f := c.pending[c.next];
      AdvanceKeepsParked(c);
      DrainKeepsParked(Advance(c, f), accepts, AddRange(p, f));
    }
  }

  // Whether the next parked range is committed by a drain.
  predicate Proceeds(c: Coord, accepts: Accepts) {
    && c.next in c.pending && !Mismatch(c.anchor, c.pending[c.next])
    && c.pending[c.next].headers != [] && accepts(c.attempts, c.pending[c.next])
  }

  lemma AdvanceReports(c: Coord, f: Fetched, p: Progress)
    requires f.headers != [] && f.range.from == c.next <= f.range.to == Last(f.headers).height
    ensures Reports(AddRange(p, f), p, c, Advance(c, f))
  {
    assert (c.committed + [f])[..|c.committed|] == c.committed;
  }

  lemma ReportsTwice(p: Progress, p': Progress, r: Progress, c: Coord, c': Coord, d: Coord)
    requires Reports(p', p, c, c') && Reports(r, p', c', d) && c.next < c'.next <= d.next
    ensures Reports(r, p, c, d)
  {
    hide Items;
  }

  lemma DrainStep(c: Coord, accepts: Accepts, p: Progress) returns (c': Coord, p': Progress)
    requires ParkedOk(c) && Proceeds(c, accepts)
    ensures ParkedOk(c') && |c'.pending| < |c.pending| && c'.target == c.target && c'.anchor.Some?
    ensures Drain(c, accepts, p) == Drain(c', accepts, p')
    ensures c'.next > c.next && Reports(p', p, c, c')
  {
    AdvanceKeepsParked(c);
    var f := c.pending[c.next];
    AdvanceReports(c, f, p);
    c', p' := Advance(c, f), AddRange(p, f);
    hide Reports, Advance, AddRange;
  }

  lemma DrainProceeds(c: Coord, accepts: Accepts, p: Progress)
    requires ParkedOk(c) && c.next in c.pending && Drain(c, accepts, p).result.Success?
    ensures Proceeds(c, accepts)
  {
  }

  // The payloads of a list of ranges.
  function Items(fs: seq<Fetched>): nat {
    if fs == [] then 0 else Items(fs[..|fs| - 1]) + |Last(fs).blocks|
  }

  // What a report must say after going from c to d, if it said p before.
  predicate Reports(r: Progress, p: Progress, c: Coord, d: Coord) {
    && r.ranges + |c.committed| == p.ranges + |d.committed|
    && r.blocks + c.next == p.blocks + d.next
    && r.logs + Items(c.committed) == p.logs + Items(d.committed)
    && r.lastHeight == if d.next > c.next then Some(d.next - 1) else p.lastHeight
  }

  // A drain that succeeds leaves nothing parked that could be committed, and its report is
  // exactly the progress made: ranges, blocks, payloads and the last height.
  lemma {:induction false} DrainCounts(c: Coord, accepts: Accepts, p: Progress, d: Drained)
    requires ParkedOk(c) && d == Drain(c, accepts, p) && d.result.Success?
    ensures d.coord.next !in d.coord.pending && d.coord.next >= c.next
    ensures Reports(d.result.value, p, c, d.coord)
    decreases |c.pending|
  {
    if c.next in c.pending {
      DrainProceeds(c, accepts, p);
      var c', p' := DrainStep(c, accepts, p);
      hide Reports;
      DrainCounts(c', accepts, p', d);
      ReportsTwice(p, p', d.result.value, c, c', d.coord);
    }
  }

  // A drain can only fail in the sink or on a broken parent link; the latter asks for the
  // suffix from the next height, which is never zero, and leaves nothing parked.
  lemma {:induction false} DrainFails(c: Coord, accepts: Accepts, p: Progress, d: Drained)
    requires ParkedOk(c) && (c.next == 0 ==> c.anchor.None?) && d == Drain(c, accepts, p) && d.result.Failure?
    ensures d.result.error.FetchedSuffixInvalidated? || d.result.error.Commit?
    ensures d.result.error.FetchedSuffixInvalidated? ==>
              0 < d.result.error.refetchFrom == d.coord.next <= c.target && d.coord.pending == map[]
    decreases |c.pending|
  {
    if Proceeds(c, accepts) {
      var c', p' := DrainStep(c, accepts, p);
      DrainFails(c', accepts, p', d);
    } else if c.next in c.pending {
      assert Covers(c.pending[c.next].range, c.pending[c.next].headers);
    }
  }

  // A range that fits beside the parked ones is never refused as stale, duplicate or beyond
  // the target, and the parked ranges stay apart.
  lemma PushKeepsOk(c: Coord, accepts: Accepts, f: Fetched, start: nat, anchor: Option<Header>)
    requires CoordOk(c, start, anchor) && Covers(f.range, f.headers)
    requires c.next <= f.range.from && f.range.to <= c.target
    requires forall k | k in c.pending :: c.pending[k].range.to < f.range.from || f.range.to < k
    ensures Push(c, accepts, f) == Drain(c.(pending := c.pending[f.range.from := f]), accepts, NO_PROGRESS)
    ensures CoordOk(Push(c, accepts, f).coord, start, anchor)
    ensures ParkedOk(c.(pending := c.pending[f.range.from := f]))
  {
    var c' := c.(pending := c.pending[f.range.from := f]);
    DrainKeepsRun(c', accepts, NO_PROGRESS, start, anchor);
    DrainKeepsParked(c', accepts, NO_PROGRESS);
  }

  // ------------------------------------------------------------------ arrival order

  // Linked ranges that tile start to target on the given parent.
  ghost predicate TilesChain(tiles: seq<Fetched>, start: nat, target: nat, anchor: Option<Header>) {
    && AnchorFits(start, anchor)
    && Linked(AnchorRun(anchor) + Flat(tiles))
    && (forall i | 0 <= i < |tiles| :: Covers(tiles[i].range, tiles[i].headers))
    && tiles != [] && tiles[0].range.from == start && Last(tiles).range.to == target
    && (forall i, j | 0 <= i < |tiles| && 0 <= j < |tiles| && j == i + 1 ::
        tiles[j].range.from == tiles[i].range.to + 1)
  }

  lemma {:induction false} TileOrder(tiles: seq<Fetched>, start: nat, target: nat, anchor: Option<Header>, i: nat,
                                     j: nat)
    requires TilesChain(tiles, start, target, anchor) && i <= j < |tiles|
    ensures tiles[i].range.from <= tiles[j].range.from && tiles[i].range.to <= tiles[j].range.to
    ensures i < j ==> tiles[i].range.to < tiles[j].range.from
    decreases j - i
  {
    if i < j {
      assert Covers(tiles[j - 1].range, tiles[j - 1].headers) && Covers(tiles[j].range, tiles[j].headers);
      assert tiles[j].range.from == tiles[j - 1].range.to + 1;
      TileOrder(tiles, start, target, anchor, i, j - 1);
    }
  }

  // The header just below tile k.
  function ParentOf(tiles: seq<Fetched>, anchor: Option<Header>, k: nat): Option<Header>
    requires k <= |tiles|
  {
    if k > 0 && tiles[k - 1].headers != [] then Some(Last(tiles[k - 1].headers)) else anchor
  }

  // Exactly the tiles in `have` have arrived: the first k are committed and the others
  // among them are parked.
  ghost predicate Arrived(c: Coord, tiles: seq<Fetched>, start: nat, target: nat, anchor: Option<Header>, k: nat,
                          have: set<nat>) {
    && k <= |tiles| && c.target == target
    && (forall i | i in have :: i < |tiles|)
    && (forall i: nat | i < k :: i in have)
    && c.committed == tiles[..k]
    && c.next == (if k == |tiles| then target + 1 else tiles[k].range.from)
    && c.anchor == ParentOf(tiles, anchor, k)
    && Waiting(c.pending, tiles, k, have)
  }

  // The parked ranges are exactly the tiles of `have` from k on, keyed by their start.
  ghost predicate Waiting(pending: map<nat, Fetched>, tiles: seq<Fetched>, k: nat, have: set<nat>) {
    && (forall x | x in pending :: exists i :: k <= i < |tiles| && i in have && tiles[i].range.from == x)
    && (forall i | i in have && k <= i < |tiles| ::
        tiles[i].range.from in pending && pending[tiles[i].range.from] == tiles[i])
  }

  lemma TileLinks(tiles: seq<Fetched>, start: nat, target: nat, anchor: Option<Header>, k: nat)
    requires TilesChain(tiles, start, target, anchor) && k < |tiles|
    ensures !Mismatch(ParentOf(tiles, anchor, k), tiles[k])
  {
    hide Covers, Linked, Flat;
    TileNonEmpty(tiles, start, target, anchor, k);
    if k > 0 { TileNonEmpty(tiles, start, target, anchor, k - 1); }
    TileEnds(tiles, anchor, k);
    var before := AnchorRun(anchor) + Flat(tiles[..k]);
    FlatPrefix(tiles, k + 1);
    FlatSnoc(tiles, k);
    assert before + tiles[k].headers <= AnchorRun(anchor) + Flat(tiles);
    Adjacent(AnchorRun(anchor) + Flat(tiles), before, tiles[k].headers);
  }

  lemma FlatSnoc(tiles: seq<Fetched>, k: nat)
    requires k < |tiles|
    ensures Flat(tiles[..k + 1]) == Flat(tiles[..k]) + tiles[k].headers
  {
    assert tiles[..k + 1][..k] == tiles[..k];
  }

  // The parent a tile is checked against is the last header before it.
  lemma TileEnds(tiles: seq<Fetched>, anchor: Option<Header>, k: nat)
    requires k < |tiles| && (k > 0 ==> tiles[k - 1].headers != [])
    ensures var before := AnchorRun(anchor) + Flat(tiles[..k]);
            ParentOf(tiles, anchor, k) == if before == [] then None else Some(Last(before))
  {
    if k > 0 {
      FlatSnoc(tiles, k - 1);
    } else {
      assert tiles[..k] == [];
    }
  }

  lemma TileNonEmpty(tiles: seq<Fetched>, start: nat, target: nat, anchor: Option<Header>, k: nat)
    requires TilesChain(tiles, start, target, anchor) && k < |tiles|
    ensures tiles[k].headers != []
  {
    hide Linked, Flat;
    assert Covers(tiles[k].range, tiles[k].headers);
  }

  lemma Adjacent(run: seq<Header>, before: seq<Header>, next: seq<Header>)
    requires Linked(run) && before + next <= run && next != []
    ensures before != [] ==> Links(Last(before), next[0])
  {
    if before != [] {
      var n := |before|;
      assert run[n - 1] == (before + next)[n - 1] == Last(before) && run[n] == (before + next)[n] == next[0];
    }
  }

  lemma {:induction false} FlatPrefix(tiles: seq<Fetched>, n: nat)
    requires n <= |tiles|
    ensures Flat(tiles[..n]) <= Flat(tiles)
    decreases |tiles|
  {
    if n == |tiles| {
      assert tiles[..n] == tiles;
    } else {
      FlatPrefix(tiles[..|tiles| - 1], n);
      assert tiles[..|tiles| - 1][..n] == tiles[..n];
    }
  }

  // One commit of the next tile.
  lemma NextWaits(c: Coord, tiles: seq<Fetched>, k: nat, have: set<nat>)
    requires Waiting(c.pending, tiles, k, have) && k < |tiles| && k in have && c.next == tiles[k].range.from
    ensures c.next in c.pending && c.pending[c.next] == tiles[k]
  {
  }

  lemma ArrivedAdvances(c: Coord, tiles: seq<Fetched>, start: nat, target: nat, anchor: Option<Header>, k: nat,
                        have: set<nat>)
    requires TilesChain(tiles, start, target, anchor) && Arrived(c, tiles, start, target, anchor, k, have)
    requires k < |tiles| && k in have
    ensures c.next in c.pending && c.pending[c.next] == tiles[k] && !Mismatch(c.anchor, tiles[k])
    ensures tiles[k].headers != []
    ensures Arrived(Advance(c, tiles[k]), tiles, start, target, anchor, k + 1, have)
  {
    hide Linked, Flat, Waiting;
    TileLinks(tiles, start, target, anchor, k);
    NextWaits(c, tiles, k, have);
    assert Covers(tiles[k].range, tiles[k].headers);
    assert tiles[..k] + [tiles[k]] == tiles[..k + 1];
    WaitingAdvances(c.pending, tiles, start, target, anchor, k, have);
    assert k + 1 < |tiles| ==> tiles[k + 1].range.from == tiles[k].range.to + 1;
  }

  lemma NothingReady(c: Coord, tiles: seq<Fetched>, start: nat, target: nat, anchor: Option<Header>, k: nat,
                     have: set<nat>)
    requires TilesChain(tiles, start, target, anchor) && Arrived(c, tiles, start, target, anchor, k, have) && k !in have
    ensures c.next !in c.pending
  {
    if c.next in c.pending {
      var i :| k <= i < |tiles| && i in have && tiles[i].range.from == c.next;
      TileOrder(tiles, start, target, anchor, k, i);
    }
  }

  lemma {:induction false} ArrivedDrains(c: Coord, accepts: Accepts, p: Progress, tiles: seq<Fetched>, start: nat,
                                         target: nat,
                                         anchor: Option<Header>, k: nat, have: set<nat>) returns (k': nat)
    requires TilesChain(tiles, start, target, anchor) && Arrived(c, tiles, start, target, anchor, k, have)
    requires WellFormed(c.pending) && forall n: nat, f: Fetched :: accepts(n, f)
    ensures var d := Drain(c, accepts, p);
            d.result.Success? && k <= k' && Arrived(d.coord, tiles, start, target, anchor, k', have) && k' !in have
    decreases |tiles| - k
  {
    if k in have {
      ArrivedAdvances(c, tiles, start, target, anchor, k, have);
      assert (c.pending - {c.next}).Keys == c.pending.Keys - {c.next};
      k' := ArrivedDrains(Advance(c, tiles[k]), accepts, AddRange(p, tiles[k]), tiles, start, target, anchor, k + 1,
          have);
    } else {
      NothingReady(c, tiles, start, target, anchor, k, have);
      k' := k;
    }
  }

  // Pushing the tiles in the order of their indices in `order`.
  function PushAll(c: Coord, accepts: Accepts, tiles: seq<Fetched>, order: seq<nat>): Drained
    requires WellFormed(c.pending) && forall i | 0 <= i < |order| :: order[i] < |tiles|
    requires forall i | 0 <= i < |tiles| :: tiles[i].range.from <= tiles[i].range.to
    decreases |order|
  {
    if order == [] then Drained(c, Success(NO_PROGRESS))
    else
      var d := Push(c, accepts, tiles[order[0]]);
      if d.result.Failure? || !WellFormed(d.coord.pending) then d else PushAll(d.coord, accepts, tiles, order[1..])
  }

  lemma WaitingInserts(pending: map<nat, Fetched>, tiles: seq<Fetched>, start: nat, target: nat, anchor: Option<Header>,
                       k: nat, have: set<nat>, i: nat)
    requires TilesChain(tiles, start, target, anchor) && Waiting(pending, tiles, k, have) && k <= i < |tiles|
    requires i !in have
    ensures tiles[i].range.from !in pending
    ensures Waiting(pending[tiles[i].range.from := tiles[i]], tiles, k, have + {i})
  {
    var f := tiles[i];
    var pending' := pending[f.range.from := f];
    forall j | j in have && k <= j < |tiles| ensures tiles[j].range.from != f.range.from {
      if tiles[j].range.from == f.range.from { SameStart(tiles, start, target, anchor, i, j); }
    }
    forall x | x in pending' ensures exists j :: k <= j < |tiles| && j in have + {i} && tiles[j].range.from == x {
      if x == f.range.from {
        assert i in have + {i};
      } else {
        var j :| k <= j < |tiles| && j in have && tiles[j].range.from == x;
        assert j in have + {i};
      }
    }
  }

  lemma WaitingAdvances(pending: map<nat, Fetched>, tiles: seq<Fetched>, start: nat, target: nat,
                        anchor: Option<Header>,
                        k: nat, have: set<nat>)
    requires TilesChain(tiles, start, target, anchor) && Waiting(pending, tiles, k, have) && k < |tiles| && k in have
    ensures tiles[k].range.from in pending && pending[tiles[k].range.from] == tiles[k]
    ensures Waiting(pending - {tiles[k].range.from}, tiles, k + 1, have)
  {
    var pending' := pending - {tiles[k].range.from};
    forall i | i in have && k + 1 <= i < |tiles|
      ensures tiles[i].range.from in pending' && pending'[tiles[i].range.from] == tiles[i] {
      TileOrder(tiles, start, target, anchor, k, i);
      assert Covers(tiles[k].range, tiles[k].headers);
    }
    forall x | x in pending' ensures exists i :: k + 1 <= i < |tiles| && i in have && tiles[i].range.from == x {
      var i :| k <= i < |tiles| && i in have && tiles[i].range.from == x;
    }
  }

  lemma ArrivedInserts(c: Coord, tiles: seq<Fetched>, start: nat, target: nat, anchor: Option<Header>, k: nat,
                       have: set<nat>, i: nat)
    requires TilesChain(tiles, start, target, anchor) && Arrived(c, tiles, start, target, anchor, k, have)
    requires k <= i < |tiles| && i !in have
    ensures Insert(c, tiles[i]) == Success(c.(pending := c.pending[tiles[i].range.from := tiles[i]]))
    ensures Arrived(Insert(c, tiles[i]).value, tiles, start, target, anchor, k, have + {i})
  {
    TileOrder(tiles, start, target, anchor, k, i);
    TileOrder(tiles, start, target, anchor, i, |tiles| - 1);
    WaitingInserts(c.pending, tiles, start, target, anchor, k, have, i);
  }

  lemma ArrivedPush(c: Coord, accepts: Accepts, tiles: seq<Fetched>, start: nat, target: nat, anchor: Option<Header>,
                    k: nat, have: set<nat>, i: nat) returns (k': nat)
    requires TilesChain(tiles, start, target, anchor) && Arrived(c, tiles, start, target, anchor, k, have) && k !in have
    requires WellFormed(c.pending) && (forall n: nat, f: Fetched :: accepts(n, f)) && i < |tiles| && i !in have
    requires tiles[i].range.from <= tiles[i].range.to
    ensures var d := Push(c, accepts, tiles[i]);
            && d.result.Success? && Arrived(d.coord, tiles, start, target, anchor, k', have + {i}) && k' !in have + {i}
            && WellFormed(d.coord.pending)
  {
    ArrivedInserts(c, tiles, start, target, anchor, k, have, i);
    var c' := Insert(c, tiles[i]).value;
    k' := ArrivedDrains(c', accepts, NO_PROGRESS, tiles, start, target, anchor, k, have + {i});
    ArrivedWellFormed(Drain(c', accepts, NO_PROGRESS).coord, tiles, start, target, anchor, k', have + {i});
  }

  lemma SameStart(tiles: seq<Fetched>, start: nat, target: nat, anchor: Option<Header>, i: nat, j: nat)
    requires TilesChain(tiles, start, target, anchor) && i < |tiles| && j < |tiles|
    requires tiles[i].range.from == tiles[j].range.from
    ensures i == j
  {
    assert Covers(tiles[i].range, tiles[i].headers) && Covers(tiles[j].range, tiles[j].headers);
    if i < j { TileOrder(tiles, start, target, anchor, i, j); }
    if j < i { TileOrder(tiles, start, target, anchor, j, i); }
  }

  lemma ArrivedWellFormed(c: Coord, tiles: seq<Fetched>, start: nat, target: nat, anchor: Option<Header>, k: nat,
                          have: set<nat>)
    requires TilesChain(tiles, start, target, anchor) && Arrived(c, tiles, start, target, anchor, k, have)
    ensures WellFormed(c.pending)
  {
    forall x | x in c.pending ensures c.pending[x].range.from <= c.pending[x].range.to {
      var i :| k <= i < |tiles| && i in have && tiles[i].range.from == x;
      assert Covers(tiles[i].range, tiles[i].headers);
    }
  }

  // What is still to come: every tile that has not arrived, once.
  ghost predicate ToCome(order: seq<nat>, have: set<nat>, n: nat) {
    && (forall i | 0 <= i < |order| :: order[i] < n && order[i] !in have)
    && (forall i, j | 0 <= i < j < |order| :: order[i] != order[j])
    && (forall i: nat | i < n :: i in have || i in order)
  }

  lemma NextComes(order: seq<nat>, have: set<nat>, n: nat)
    requires ToCome(order, have, n) && order != []
    ensures order[0] < n && order[0] !in have && ToCome(order[1..], have + {order[0]}, n)
  {
    var rest := order[1..];
    assert order == [order[0]] + rest;
    assert forall i | 0 <= i < |rest| :: rest[i] == order[i + 1];
  }

  lemma AllArrived(c: Coord, tiles: seq<Fetched>, start: nat, target: nat, anchor: Option<Header>, k: nat,
                   have: set<nat>)
    requires Arrived(c, tiles, start, target, anchor, k, have) && k !in have && ToCome([], have, |tiles|)
    ensures c.committed == tiles && c.next == target + 1 && c.pending == map[]
  {
    assert k == |tiles|;
    assert tiles[..k] == tiles;
    assert forall x :: x !in c.pending;
  }

  lemma {:induction false} OrderDrains(c: Coord, accepts: Accepts, tiles: seq<Fetched>, start: nat, target: nat,
                                       anchor: Option<Header>, k: nat, have: set<nat>, order: seq<nat>)
    requires TilesChain(tiles, start, target, anchor) && Arrived(c, tiles, start, target, anchor, k, have) && k !in have
    requires WellFormed(c.pending) && forall n: nat, f: Fetched :: accepts(n, f)
    requires forall i | 0 <= i < |tiles| :: tiles[i].range.from <= tiles[i].range.to
    requires ToCome(order, have, |tiles|)
    ensures var d := PushAll(c, accepts, tiles, order);
            d.result.Success? && d.coord.committed == tiles && d.coord.next == target + 1 && d.coord.pending == map[]
    decreases |order|
  {
    hide TilesChain, Arrived, Push;
    if order == [] {
      AllArrived(c, tiles, start, target, anchor, k, have);
    } else {
      NextComes(order, have, |tiles|);
      hide ToCome;
      var k' := ArrivedPush(c, accepts, tiles, start, target, anchor, k, have, order[0]);
      var d := Push(c, accepts, tiles[order[0]]).coord;
      OrderDrains(d, accepts, tiles, start, target, anchor, k', have + {order[0]}, order[1..]);
    }
  }

  // Arrival order is irrelevant: any permutation of linked ranges that tile start to target
  // commits the same ascending sequence and completes, with nothing left parked.
  lemma {:induction false} AnyOrderCommitsAll(accepts: Accepts, tiles: seq<Fetched>, start: nat, target: nat,
                                              anchor: Option<Header>, order: seq<nat>)
    requires TilesChain(tiles, start, target, anchor) && (forall n: nat, f: Fetched :: accepts(n, f))
    requires forall i | 0 <= i < |tiles| :: tiles[i].range.from <= tiles[i].range.to
    requires forall i | 0 <= i < |order| :: order[i] < |tiles|
    requires forall i, j | 0 <= i < j < |order| :: order[i] != order[j]
    requires forall i: nat | i < |tiles| :: i in order
    ensures var d := PushAll(Coord(start, target, anchor, map[], [], 0), accepts, tiles, order);
            d.result.Success? && d.coord.committed == tiles && d.coord.next == target + 1 && d.coord.pending == map[]
  {
    var c := Coord(start, target, anchor, map[], [], 0);
    assert Covers(tiles[0].range, tiles[0].headers);
    assert Arrived(c, tiles, start, target, anchor, 0, {});
    OrderDrains(c, accepts, tiles, start, target, anchor, 0, {}, order);
  }
}
