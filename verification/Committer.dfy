// Where fetched ranges become durable: the backfill committer turns each range into one
// batch of applies on the last committed header.
module Committer {
  import opened Wrappers
  import opened Headers
  import opened Chain
  import opened Store
  import opened StoreTheory
  import opened ClosedLoop
  import opened Reconcile
  import opened Backfill
  import opened Fetch

  datatype CommitOutcome = Committed | EmptyRange | Rejected(error: StoreError) | Interrupted

  function TopOf(c: seq<Header>): Option<Header> {
    if c == [] then None else Some(Last(c))
  }

  function RangeEvents(anchor: Option<Header>, f: Fetched): ChainBatch {
    ChainBatch(if anchor.Some? then Gap else Bootstrap, anchor, Applies(f.headers))
  }

  // The durable batch of a range: its headers in order, each with one of its payloads.
  ghost predicate Packs(d: DurableBatch, anchor: Option<Header>, f: Fetched) {
    && d.transition == RangeEvents(anchor, f).transition && d.ancestor == anchor
    && |d.events| == |f.headers|
    && forall i | 0 <= i < |f.headers| :: Pairs(Apply(f.headers[i]), d.events[i], f.blocks)
  }

  class BackfillCommitter {
    const writer: Writer
    var parentAnchor: Option<Header>

    constructor (writer: Writer, parentAnchor: Option<Header>)
      ensures this.writer == writer && this.parentAnchor == parentAnchor
    {
      this.writer := writer;
      this.parentAnchor := parentAnchor;
    }

    // One batch per range, all or nothing. The anchor moves exactly when the commit is
    // known to have happened; an interrupted commit may have happened or not.
    method CommitRange(f: Fetched, crash: Option<CrashPoint>) returns (r: CommitOutcome, ghost d: DurableBatch)
      modifies this, writer.db
      ensures writer.db.nextEventId >= old(writer.db.nextEventId)
      ensures f.headers == [] <==> r.EmptyRange?
      ensures parentAnchor == if r.Committed? then TopOf(f.headers) else old(parentAnchor)
      ensures r.Committed? ==> PayloadsFit(RangeEvents(old(parentAnchor), f), f.blocks)
      ensures r.Interrupted? ==> crash.Some?
      ensures r.Committed? || r.Interrupted? ==> Packs(d, old(parentAnchor), f)
      ensures r.Interrupted? ==> WillCrash(crash, d)
      ensures r.Committed? ==> !WillCrash(crash, d)
      ensures r.Rejected? ==>
                || !PayloadsFit(RangeEvents(old(parentAnchor), f), f.blocks)
                || (Packs(d, old(parentAnchor), f)
                    && RunBatch(old(writer.db.tables), old(writer.db.nextEventId), d) == Failure(r.error))
      ensures r.Committed? || writer.db.tables != old(writer.db.tables) ==>
                && Packs(d, old(parentAnchor), f)
                && RunBatch(old(writer.db.tables), old(writer.db.nextEventId), d)
                    == Success(Ran(writer.db.tables, writer.db.nextEventId))
      ensures writer.db.tables == old(writer.db.tables) || r.Committed? || r.Interrupted?
    {
      d := NO_BATCH;
      if f.headers == [] {
        return EmptyRange, d;
      }
      var durable := FromChainBatch(RangeEvents(parentAnchor, f), f.blocks);
      if durable.Failure? {
        return Rejected(durable.error), d;
      }
      d := durable.value;
      var done := writer.ApplyBatch(durable.value, crash);
      match done {
        case Refused(e) => r := Rejected(e);
        case Crashed => r := Interrupted;
        case Done(_) =>
          parentAnchor := Some(Last(f.headers));
          r := Committed;
      }
    }
  }

  // ------------------------------------------------------------------ what a commit means

  lemma PackedEvents(w: World, d: DurableBatch, anchor: Option<Header>, f: Fetched)
    requires Packs(d, anchor, f) && AllGenuine(w, f.headers) && forall b | b in f.blocks :: Genuine(w, b.header)
    ensures HeaderEvents(d.events) == Applies(f.headers)
    ensures forall i | 0 <= i < |d.events| :: Genuine(w, HeaderEvent(d.events[i]).header)
  {
    forall i | 0 <= i < |f.headers|
      ensures HeaderEvents(d.events)[i] == Apply(f.headers[i]) && Genuine(w, HeaderEvent(d.events[i]).header) {
      assert Pairs(Apply(f.headers[i]), d.events[i], f.blocks);
      assert f.headers[i] in f.headers;
    }
  }

  // What a range must be to follow the chain.
  ghost predicate Follows(w: World, c: seq<Header>, f: Fetched) {
    && f.headers != [] && Linked(f.headers) && AllGenuine(w, f.headers)
    && (forall b | b in f.blocks :: Genuine(w, b.header))
    && (c != [] ==> Links(Last(c), f.headers[0]))
  }

  // The store holds exactly the chain c: canonical rows, outbox fold, checkpoint and ids.
  ghost predicate Holds(w: World, s: Ran, c: seq<Header>) {
    Inv(w, s.tables, c) && Checkpointed(s.tables, c) && IdsOk(s.tables, s.next)
  }

  // A range that follows the stored chain extends it by exactly its headers; the
  // checkpoint is its last header and the outbox grew by its applies.
  lemma RangeExtends(w: World, s: Ran, c: seq<Header>, f: Fetched, d: DurableBatch)
    requires Holds(w, s, c) && Follows(w, c, f)
    requires Packs(d, TopOf(c), f) && forall i | 0 <= i < |d.events| :: Storable(d.events[i])
    ensures var r := RunBatch(s.tables, s.next, d);
            && r.Success? && Holds(w, r.value, c + f.headers)
            && Journal(r.value.tables.outbox) == Journal(s.tables.outbox) + Applies(f.headers)
  {
    PackedEvents(w, d, TopOf(c), f);
    PlayApplies(c, f.headers);
    assert HeaderEvents(d.events)[|d.events| - 1] == Apply(Last(f.headers));
    BatchCommits(w, s.tables, c, s.next, d);
  }

  // The same for a range that is known to have committed.
  lemma CommittedExtends(w: World, before: Ran, after: Ran, c: seq<Header>, f: Fetched, d: DurableBatch)
    requires Holds(w, before, c) && Follows(w, c, f) && Packs(d, TopOf(c), f)
    requires RunBatch(before.tables, before.next, d) == Success(after)
    ensures Holds(w, after, c + f.headers)
    ensures Journal(after.tables.outbox) == Journal(before.tables.outbox) + Applies(f.headers)
  {
    CommittedIsStorable(before.tables, before.next, d.events);
    RangeExtends(w, before, c, f, d);
  }

  // The chain grew from c to d by applies alone, and so did the journal.
  ghost predicate Grew(c: seq<Header>, j: seq<ChainEvent>, d: seq<Header>, k: seq<ChainEvent>) {
    c <= d && k == j + Applies(d[|c|..])
  }

  lemma GrewNone(c: seq<Header>, j: seq<ChainEvent>)
    ensures Grew(c, j, c, j)
  {
    assert c[|c|..] == [] && Applies([]) == [];
  }

  lemma GrewTwice(c: seq<Header>, j: seq<ChainEvent>, d: seq<Header>, k: seq<ChainEvent>, e: seq<Header>,
                  l: seq<ChainEvent>)
    requires Grew(c, j, d, k) && Grew(d, k, e, l)
    ensures Grew(c, j, e, l)
  {
    assert e[|c|..] == d[|c|..] + e[|d|..];
    assert Applies(e[|c|..]) == Applies(d[|c|..]) + Applies(e[|d|..]);
    ConcatAssociative(j, Applies(d[|c|..]), Applies(e[|d|..]));
  }

  // ------------------------------------------------------------------ one commit into the store

  // A parked range as the fetcher assembles it.
  ghost predicate ParkedTrue(w: World, pending: map<nat, Fetched>) {
    forall k | k in pending :: Trusted(w, pending[k])
  }

  ghost predicate Trusted(w: World, f: Fetched) {
    Covers(f.range, f.headers) && AllGenuine(w, f.headers) && forall b | b in f.blocks :: Genuine(w, b.header)
  }

  ghost function Stored(committer: BackfillCommitter): Ran
    reads committer, committer.writer.db
  {
    Ran(committer.writer.db.tables, committer.writer.db.nextEventId)
  }

  // What the columns can hold of a range.
  predicate Committable(f: Fetched) {
    forall i | 0 <= i < |f.blocks| :: Storable(ApplyBlock(f.blocks[i]))
  }

  // Whether a crash point is reached by the batch of a range.
  predicate Interrupts(crash: Option<CrashPoint>, f: Fetched) {
    crash.Some? && (crash.value.TransactionStep? ==> crash.value.step < 1 + 2 * |f.headers| + 2)
  }

  // One commit of a range that follows the chain: the store holds the chain with or without
  // the range on top, success says with, and it succeeds exactly when the columns can hold
  // the range and no crash point is reached.
  method CommitStep(committer: BackfillCommitter, f: Fetched, crash: Option<CrashPoint>, ghost w: World,
                    ghost e: seq<Header>)
    returns (ok: bool, ghost d: seq<Header>)
    requires Holds(w, Stored(committer), e) && committer.parentAnchor == TopOf(e) && Follows(w, e, f)
    modifies committer, committer.writer.db
    ensures Holds(w, Stored(committer), d) && (d == e || d == e + f.headers)
    ensures Grew(e, Journal(old(committer.writer.db.tables.outbox)), d, Journal(committer.writer.db.tables.outbox))
    ensures if ok then d == e + f.headers && committer.parentAnchor == TopOf(d) else committer.parentAnchor == TopOf(e)
    ensures Carried(f) ==> (ok <==> Committable(f) && !Interrupts(crash, f))
  {
    hide Holds, Packs, Follows, WillCrash, Interrupts, Committable, Carried, Grew;
    ghost var before := Stored(committer);
    ghost var batch;
    var outcome;
    outcome, batch := committer.CommitRange(f, crash);
    ok, d := outcome.Committed?, e;
    GrewNone(e, Journal(before.tables.outbox));
    FollowsSome(w, e, f);
    if outcome.Committed? || committer.writer.db.tables != before.tables {
      CommittedExtends(w, before, Stored(committer), e, f, batch);
      d := e + f.headers;
      GrewBy(e, Journal(before.tables.outbox), f.headers);
    } else {
      HoldsLater(w, before, committer.writer.db.nextEventId, e);
    }
    if Carried(f) {
      Outcome(w, before, Stored(committer), e, f, batch, crash, outcome);
    }
  }

  lemma FollowsSome(w: World, e: seq<Header>, f: Fetched)
    requires Follows(w, e, f)
    ensures f.headers != []
  {
  }

  lemma HoldsLater(w: World, s: Ran, next: nat, e: seq<Header>)
    requires Holds(w, s, e) && next >= s.next
    ensures Holds(w, Ran(s.tables, next), e)
  {
  }

  lemma GrewBy(c: seq<Header>, j: seq<ChainEvent>, more: seq<Header>)
    ensures Grew(c, j, c + more, j + Applies(more))
  {
    assert (c + more)[|c|..] == more;
  }

  // A carried range that follows the chain commits exactly as the columns and the crash
  // point allow.
  lemma Outcome(w: World, before: Ran, after: Ran, e: seq<Header>, f: Fetched, d: DurableBatch,
                crash: Option<CrashPoint>, r: CommitOutcome)
    requires Holds(w, before, e) && Follows(w, e, f) && Carried(f) && !r.EmptyRange?
    requires r.Committed? || r.Interrupted? ==> Packs(d, TopOf(e), f)
    requires r.Interrupted? ==> WillCrash(crash, d)
    requires r.Committed? ==> !WillCrash(crash, d) && RunBatch(before.tables, before.next, d) == Success(after)
    requires r.Rejected? ==>
               || !PayloadsFit(RangeEvents(TopOf(e), f), f.blocks)
               || (Packs(d, TopOf(e), f) && RunBatch(before.tables, before.next, d) == Failure(r.error))
    ensures r.Committed? <==> Committable(f) && !Interrupts(crash, f)
  {
    hide Holds, Packs, WillCrash, Interrupts, RunBatch;
    if r.Committed? || r.Interrupted? {
      CrashOfRange(w, e, f, d, crash);
    }
    if r.Committed? {
      CommittedIsCommittable(w, before, e, f, d);
    }
    if r.Rejected? && Committable(f) {
      NeverRejected(w, before, e, f, d);
    }
  }

  lemma CrashOfRange(w: World, e: seq<Header>, f: Fetched, d: DurableBatch, crash: Option<CrashPoint>)
    requires Packs(d, TopOf(e), f) && f.headers != []
    ensures WillCrash(crash, d) <==> Interrupts(crash, f)
  {
    var n := |f.headers| - 1;
    assert Pairs(Apply(f.headers[n]), d.events[n], f.blocks);
  }

  lemma CommittedIsCommittable(w: World, s: Ran, e: seq<Header>, f: Fetched, d: DurableBatch)
    requires Holds(w, s, e) && Follows(w, e, f) && Carried(f) && Packs(d, TopOf(e), f)
    requires RunBatch(s.tables, s.next, d).Success?
    ensures Committable(f)
  {
    CommittedIsStorable(s.tables, s.next, d.events);
    forall i | 0 <= i < |f.blocks| ensures Storable(ApplyBlock(f.blocks[i])) {
      PackedBlock(w, d, TopOf(e), f, i);
      assert Storable(d.events[i]);
    }
  }

  // The payload of each header is its own block.
  lemma PackedBlock(w: World, d: DurableBatch, anchor: Option<Header>, f: Fetched, i: nat)
    requires Packs(d, anchor, f) && Carried(f) && Linked(f.headers) && AllGenuine(w, f.headers) && i < |f.headers|
    ensures d.events[i] == ApplyBlock(f.blocks[i])
  {
    assert Pairs(Apply(f.headers[i]), d.events[i], f.blocks);
    var j :| 0 <= j < |f.blocks| && f.blocks[j] == d.events[i].block;
    DistinctHashes(w, f.headers, i, j);
  }

  lemma SameHashes(f: Fetched, hashes: seq<Hash>)
    requires Carried(f) && |hashes| == |f.headers| && forall i | 0 <= i < |hashes| :: hashes[i] == f.headers[i].hash
    ensures BlockHashes(f.blocks) == HashSet(hashes)
  {
    forall x ensures x in BlockHashes(f.blocks) <==> x in HashSet(hashes) {
      if x in HashSet(hashes) {
        var i :| 0 <= i < |hashes| && hashes[i] == x;
        assert f.blocks[i] in f.blocks && f.blocks[i].header.hash == x;
      }
      if x in BlockHashes(f.blocks) {
        var i :| 0 <= i < |f.blocks| && f.blocks[i].header.hash == x;
        assert hashes[i] == x;
      }
    }
  }

  lemma PayloadsOfCarried(w: World, anchor: Option<Header>, f: Fetched)
    requires Carried(f) && Linked(f.headers) && AllGenuine(w, f.headers)
    ensures PayloadsFit(RangeEvents(anchor, f), f.blocks)
  {
    hide Linked, AllGenuine, AppliedHashes, NoRepeats, BlockHashes, HashSet;
    var hashes := AppliedHashes(Applies(f.headers));
    assert Rollbacks([]) + Applies(f.headers) == Applies(f.headers);
    AppliedOnce(w, [], f.headers);
    AppliedOfApplies(f.headers, 0);
    forall i | 0 <= i < |hashes| ensures hashes[i] == f.headers[i].hash {
      AppliedOfApplies(f.headers, i);
    }
    SameHashes(f, hashes);
  }

  lemma NeverRejected(w: World, s: Ran, e: seq<Header>, f: Fetched, d: DurableBatch)
    requires Holds(w, s, e) && Follows(w, e, f) && Carried(f) && Committable(f)
    ensures PayloadsFit(RangeEvents(TopOf(e), f), f.blocks)
    ensures Packs(d, TopOf(e), f) ==> RunBatch(s.tables, s.next, d).Success?
  {
    PayloadsOfCarried(w, TopOf(e), f);
    if Packs(d, TopOf(e), f) {
      forall i | 0 <= i < |d.events| ensures Storable(d.events[i]) {
        assert Pairs(Apply(f.headers[i]), d.events[i], f.blocks);
        assert d.events[i].block in f.blocks;
      }
      RangeExtends(w, s, e, f, d);
    }
  }

  // A taken range sits on the chain the coordinator stands on.
  lemma TakenFollows(w: World, e: seq<Header>, next: nat, f: Fetched)
    requires Trusted(w, f) && f.range.from == next && AnchorFits(next, TopOf(e)) && !Mismatch(TopOf(e), f)
    ensures Follows(w, e, f) && Last(f.headers).height + 1 > next && TopOf(e + f.headers) == Some(Last(f.headers))
    ensures AnchorFits(Last(f.headers).height + 1, Some(Last(f.headers)))
  {
  }

  // ------------------------------------------------------------------ a whole backfill

  // The payloads are the blocks of the headers, in order.
  predicate Carried(f: Fetched) {
    && f.headers != [] && |f.blocks| == |f.headers|
    && forall i | 0 <= i < |f.headers| :: f.blocks[i].header == f.headers[i]
  }

  // Every range the fetcher assembles is carried.
  lemma AssembledIsCarried(range: Range, logs: seq<AnchoredLog>, f: Fetched)
    requires Covers(range, f.headers) && Attached(logs, f)
    ensures Carried(f)
  {
    forall i | 0 <= i < |f.headers| ensures f.blocks[i].header == f.headers[i] {
      assert f.blocks[i] == Block(f.headers[i], Raws(LogsAt(logs, f.headers[i].height)));
    }
  }

  function RangeBatch(anchor: Option<Header>, f: Fetched): DurableBatch {
    DurableBatch(RangeEvents(anchor, f).transition, anchor, ApplyBlocks(f.blocks))
  }

  // Committing ranges one after the other, each anchored at the one before.
  function CommitAll(s: Ran, anchor: Option<Header>, fs: seq<Fetched>): Result<Ran, StoreError> {
    if fs == [] then Success(s)
    else
      var n := |fs| - 1;
      var before := CommitAll(s, anchor, fs[..n]);
      if before.Failure? then before
      else RunBatch(before.value.tables, before.value.next, RangeBatch(LastAnchor(anchor, fs[..n]), fs[n]))
  }

  function LastAnchor(anchor: Option<Header>, fs: seq<Fetched>): Option<Header> {
    if fs == [] then anchor else TopOf(Last(fs).headers)
  }

  ghost predicate AllCarried(w: World, fs: seq<Fetched>) {
    forall i | 0 <= i < |fs| ::
      && Carried(fs[i]) && AllGenuine(w, fs[i].headers)
      && forall b | b in fs[i].blocks :: Storable(ApplyBlock(b))
  }

  lemma CarriedGenuine(w: World, f: Fetched)
    requires Carried(f) && AllGenuine(w, f.headers)
    ensures forall b | b in f.blocks :: Genuine(w, b.header)
  {
    forall b | b in f.blocks ensures Genuine(w, b.header) {
      var i :| 0 <= i < |f.blocks| && f.blocks[i] == b;
      assert f.headers[i] in f.headers;
    }
  }

  lemma CarriedPacks(w: World, anchor: Option<Header>, f: Fetched)
    requires Carried(f) && AllGenuine(w, f.headers) && Linked(f.headers)
    requires forall b | b in f.blocks :: Storable(ApplyBlock(b))
    ensures Packs(RangeBatch(anchor, f), anchor, f)
    ensures forall i | 0 <= i < |f.blocks| :: Storable(RangeBatch(anchor, f).events[i])
  {
    forall i | 0 <= i < |f.blocks| ensures Newest(f.blocks, f.blocks[i]) {
      forall k | i < k < |f.blocks| ensures f.blocks[k].header.hash != f.blocks[i].header.hash {
        DistinctHashes(w, f.headers, i, k);
      }
    }
  }

  lemma LastAnchorIsTop(c: seq<Header>, fs: seq<Fetched>)
    requires fs != [] ==> Last(fs).headers != []
    ensures LastAnchor(TopOf(c), fs) == TopOf(c + Flat(fs))
  {
    if fs == [] { assert c + Flat(fs) == c; }
  }

  lemma AppliesConcat(a: seq<Header>, b: seq<Header>)
    ensures Applies(a + b) == Applies(a) + Applies(b)
  {
  }

  lemma LinkedParts(before: seq<Header>, after: seq<Header>)
    requires Linked(before + after)
    ensures Linked(before) && Linked(after)
  {
    var run := before + after;
    LinkedSlice(run, 0, |before|);
    LinkedSlice(run, |before|, |run|);
    assert run[0..|before|] == before && run[|before|..|run|] == after;
  }

  // The last range follows everything before it.
  lemma LastFollows(w: World, c: seq<Header>, fs: seq<Fetched>, init: seq<Fetched>, f: Fetched)
    requires Linked(c + Flat(fs)) && fs == init + [f] && f.headers != [] && AllGenuine(w, f.headers)
    requires forall b | b in f.blocks :: Genuine(w, b.header)
    ensures c + Flat(fs) == c + Flat(init) + f.headers && Linked(c + Flat(init)) && Follows(w, c + Flat(init), f)
    ensures Applies(Flat(fs)) == Applies(Flat(init)) + Applies(f.headers)
  {
    hide Linked, Applies;
    assert fs[..|fs| - 1] == init && Flat(fs) == Flat(init) + f.headers;
    var before := c + Flat(init);
    assert c + Flat(fs) == before + f.headers;
    LinkedParts(before, f.headers);
    AppliesConcat(Flat(init), f.headers);
    Adjacent(before + f.headers, before, f.headers);
  }

  // A backfill anchored at the top of the stored chain, or started on an empty store,
  // commits every range it is allowed to: the store ends as one contiguous chain that the
  // committed ranges extend, with its checkpoint at the last one.
  lemma {:induction false} BackfillExtends(w: World, s: Ran, c: seq<Header>, fs: seq<Fetched>)
    requires Holds(w, s, c) && Linked(c + Flat(fs)) && AllCarried(w, fs)
    ensures var r := CommitAll(s, TopOf(c), fs);
            && r.Success? && Holds(w, r.value, c + Flat(fs))
            && Journal(r.value.tables.outbox) == Journal(s.tables.outbox) + Applies(Flat(fs))
    decreases |fs|
  {
    hide Holds, Linked, RunBatch;
    if fs == [] {
      assert c + Flat(fs) == c && Applies(Flat(fs)) == [];
    } else {
      var n := |fs| - 1;
      var init, f := fs[..n], fs[n];
      CarriedGenuine(w, f);
      LastFollows(w, c, fs, init, f);
      FollowsLinked(w, c + Flat(init), f);
      CarriedPacks(w, LastAnchor(TopOf(c), init), f);
      BackfillExtends(w, s, c, init);
      LastAnchorIsTop(c, init);
      var mid := CommitAll(s, TopOf(c), init).value;
      RangeExtends(w, mid, c + Flat(init), f, RangeBatch(LastAnchor(TopOf(c), init), f));
      ConcatAssociative(Journal(s.tables.outbox), Applies(Flat(init)), Applies(f.headers));
    }
  }

  lemma FollowsLinked(w: World, c: seq<Header>, f: Fetched)
    requires Follows(w, c, f)
    ensures Linked(f.headers)
  {
  }

  lemma RunExtends(c: seq<Header>, run: seq<Header>)
    requires Linked(c) && Linked(AnchorRun(TopOf(c)) + run)
    ensures Linked(c + run)
  {
    if c != [] {
      LinkedSlice([Last(c)] + run, 1, 1 + |run|);
      assert ([Last(c)] + run)[1..] == run;
      assert run != [] ==> Links(([Last(c)] + run)[0], ([Last(c)] + run)[1]);
      LinkedConcat(c, run);
    } else {
      assert [] + run == run;
      assert AnchorRun(TopOf(c)) + run == run;
    }
  }

  // The coordinator over the store: whatever the coordinator has committed in any run that
  // started at the stored checkpoint is exactly what the store was extended by.
  lemma CoordinatorExtendsStore(w: World, s: Ran, c: seq<Header>, coord: Coord, start: nat)
    requires Holds(w, s, c) && RunOk(coord, start, TopOf(c)) && AllCarried(w, coord.committed)
    ensures var r := CommitAll(s, TopOf(c), coord.committed);
            && r.Success? && Holds(w, r.value, c + Flat(coord.committed))
            && Journal(r.value.tables.outbox) == Journal(s.tables.outbox) + Applies(Flat(coord.committed))
  {
    RunExtends(c, Flat(coord.committed));
    BackfillExtends(w, s, c, coord.committed);
  }
}
