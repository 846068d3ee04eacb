// The live tracker's sink: canonical reads answered by the tables, single-block commits
// through a nested coordinator, and reorg batches. Any commit may be interrupted, and an
// interrupted commit may have happened or not. Any read may fail, and a read that fails
// comes back as an absent header.
module LiveSink {
  import opened Wrappers
  import opened Headers
  import opened Chain
  import opened Store
  import opened StoreTheory
  import opened ClosedLoop
  import opened Backfill
  import opened Committer

  // Which reads fail, by the number of earlier reads. One walk of the transition machine
  // asks for each hash and each height at most once, so it counts as one moment.
  datatype ReadFaults = ReadFaults(checkpoint: nat -> bool, byHash: (nat, Hash) -> bool, atHeight: (nat, nat) -> bool)

  // A block that the nested coordinator lets through to its commit.
  predicate OnAnchor(anchor: Option<Header>, h: Header) {
    AnchorFits(h.height, anchor) && (anchor.Some? ==> Links(anchor.value, h))
  }

  class PostgresSink {
    const writer: Writer
    const crashes: nat -> Option<CrashPoint>
    const faults: ReadFaults
    var readCount: nat
    var attempts: nat
    var parentAnchor: Option<Header>
    ghost var chain: seq<Header>

    constructor (writer: Writer, crashes: nat -> Option<CrashPoint>, faults: ReadFaults, ghost chain: seq<Header>)
      ensures this.writer == writer && this.crashes == crashes && this.faults == faults && this.chain == chain
      ensures readCount == 0
      ensures parentAnchor == if writer.db.tables.checkpoint.Some?
                              then CanonicalAtHeight(writer.db.tables, writer.db.tables.checkpoint.value.height)
                              else None
    {
      this.writer := writer;
      this.crashes := crashes;
      this.faults := faults;
      readCount, attempts := 0, 0;
      var tables := writer.db.tables;
      parentAnchor :=
        if tables.checkpoint.Some? then CanonicalAtHeight(tables, tables.checkpoint.value.height) else None;
      this.chain := chain;
    }

    // The store holds exactly the chain, with its checkpoint at the top.
    ghost predicate Stored(w: World)
      reads this, writer.db
    {
      Holds(w, Ran(writer.db.tables, writer.db.nextEventId), chain)
    }

    ghost predicate Valid(w: World)
      reads this, writer.db
    {
      Stored(w) && parentAnchor == TopOf(chain)
    }

    ghost function History(): seq<ChainEvent>
      reads this, writer.db
    {
      Journal(writer.db.tables.outbox)
    }

    // No lookup of the walk at this moment fails.
    ghost predicate LookupsWork(moment: nat) {
      (forall x: Hash :: !faults.byHash(moment, x)) && (forall k: nat :: !faults.atHeight(moment, k))
    }

    method ReadCheckpoint() returns (r: Option<Header>)
      modifies this`readCount
      ensures r == if faults.checkpoint(old(readCount)) then None else Checkpoint()
      ensures readCount == old(readCount) + 1
    {
      r := if faults.checkpoint(readCount) then None else Checkpoint();
      readCount := readCount + 1;
    }

    method ReadAtHeight(height: nat) returns (r: Option<Header>)
      modifies this`readCount
      ensures r == if faults.atHeight(old(readCount), height) then None else CanonicalAtHeight(writer.db.tables, height)
      ensures readCount == old(readCount) + 1
    {
      r := if faults.atHeight(readCount, height) then None else CanonicalAtHeight(writer.db.tables, height);
      readCount := readCount + 1;
    }

    // The canonical lookups of one walk.
    method Lookups() returns (byHash: Hash -> Lookup, atHeight: nat -> Lookup)
      modifies this`readCount
      ensures readCount == old(readCount) + 1
      ensures forall x :: byHash(x) == if faults.byHash(old(readCount), x) then Missing
                                       else ToLookup(CanonicalByHash(writer.db.tables, x))
      ensures forall k :: atHeight(k) == if faults.atHeight(old(readCount), k) then Missing
                                         else ToLookup(CanonicalAtHeight(writer.db.tables, k))
    {
      var tables, f, clock := writer.db.tables, faults, readCount;
      byHash := (x: Hash) => if f.byHash(clock, x) then Missing else ToLookup(CanonicalByHash(tables, x));
      atHeight := (k: nat) => if f.atHeight(clock, k) then Missing else ToLookup(CanonicalAtHeight(tables, k));
      readCount := readCount + 1;
    }

    // What the checkpoint read returns when it does not fail.
    function Checkpoint(): Option<Header>
      reads this, writer.db
    {
      var tables := writer.db.tables;
      if tables.checkpoint.None? then None else CanonicalAtHeight(tables, tables.checkpoint.value.height)
    }

    lemma CheckpointIsTop(w: World)
      requires Stored(w)
      ensures Checkpoint() == TopOf(chain) && (chain != [] ==> Genuine(w, Last(chain)))
    {
      CanonicalIsChain(w, writer.db.tables, chain);
      MapOfLookup(chain);
      if chain != [] {
        HeightAt(chain, |chain| - 1);
        assert Last(chain) in chain;
      }
    }

    // The nested coordinator for one range: it lets the range through to its commit exactly
    // when the range sits on the anchor.
    method PushOnAnchor(f: Fetched) returns (ready: bool)
      requires Covers(f.range, f.headers) && f.range.from == f.range.to
      ensures ready <==> AnchorFits(f.range.from, parentAnchor) && !Mismatch(parentAnchor, f)
    {
      var made := Coordinator.New(f.range.from, f.range.to, parentAnchor);
      if made.Failure? {
        return false;
      }
      var coordinator := made.value;
      ghost var view := Coord(coordinator.nextHeight, coordinator.target, parentAnchor, map[], [], 0);
      var refused := coordinator.InsertPending(f);
      assert Insert(view, f).Success?;
      assert refused.None?;
      var taken := coordinator.TakeReady();
      ready := taken.Success?;
    }

    // Commits exactly one block on the anchor. Whether it reports success or not, the
    // store holds the old chain or the old chain with this block on top.
    method CommitOneBlock(block: Block, ghost w: World) returns (ok: bool)
      requires Valid(w) && Genuine(w, block.header)
      modifies this`attempts, this`chain, writer.db
      ensures Stored(w) && (chain == old(chain) || chain == old(chain) + [block.header])
      ensures Grew(old(chain), old(History()), chain, History())
      ensures ok ==> chain == old(chain) + [block.header]
      ensures ok ==> AnchorFits(block.header.height, parentAnchor)
      ensures OnAnchor(parentAnchor, block.header) && old(crashes(attempts)).None? && Storable(ApplyBlock(block)) ==> ok
    {
      hide ReallyWrong, Holds, Grew;
      GrewNone(chain, History());
      var made := NewFetched(Range(block.header.height, block.header.height), [block.header], [block]);
      assert Covers(Range(block.header.height, block.header.height), [block.header]);
      var f := made.value;
      var ready := PushOnAnchor(f);
      if !ready {
        return false;
      }
      ok := CommitReady(f, w);
    }

    method CommitReady(f: Fetched, ghost w: World) returns (ok: bool)
      requires Valid(w) && Follows(w, chain, f)
      modifies this`attempts, this`chain, writer.db
      ensures Stored(w) && (chain == old(chain) || chain == old(chain) + f.headers)
      ensures Grew(old(chain), old(History()), chain, History())
      ensures ok ==> chain == old(chain) + f.headers
      ensures old(crashes(attempts)).None? && Carried(f) && (forall b | b in f.blocks :: Storable(ApplyBlock(b))) ==> ok
    {
      hide Holds, Follows, Grew;
      var committer := new BackfillCommitter(writer, parentAnchor);
      ghost var d;
      ok, d := CommitStep(committer, f, crashes(attempts), w, chain);
      attempts := attempts + 1;
      chain := d;
    }

    // The sink of the tracker's own coordinator: one fetched height.
    method CommitRange(f: Fetched, ghost w: World) returns (ok: bool)
      requires Valid(w) && forall b | b in f.blocks :: Genuine(w, b.header)
      modifies this, writer.db
      ensures Stored(w) && Grew(old(chain), old(History()), chain, History())
      ensures f.headers == [] || f.blocks == [] ==> !ok && chain == old(chain)
      ensures f.headers != [] && f.blocks != [] && chain != old(chain) ==> chain == old(chain) + [f.blocks[0].header]
      ensures ok ==> chain == old(chain) + [f.blocks[0].header] && parentAnchor == TopOf(f.headers)
      ensures ok ==> AnchorFits(f.blocks[0].header.height, old(parentAnchor))
      ensures readCount == old(readCount)
      ensures (&& f.headers != [] && f.blocks != [] && OnAnchor(old(parentAnchor), f.blocks[0].header)
               && old(crashes(attempts)).None? && Storable(ApplyBlock(f.blocks[0]))) ==> ok
    {
      assert chain[|chain|..] == [] && Applies([]) == [];
      if f.headers == [] || f.blocks == [] {
        return false;
      }
      ok := CommitOneBlock(f.blocks[0], w);
      if ok {
        parentAnchor := Some(Last(f.headers));
      }
    }

    // Commits a reorg batch with its payloads and re-reads the anchor. The store holds the
    // chain the batch replays to, or, when it fails or is interrupted, either that or the
    // chain before; with fitting, storable payloads only an interruption can fail.
    method CommitBatch(batch: ChainBatch, payloads: seq<Block>, ghost w: World, ghost d: seq<Header>) returns (ok: bool)
      requires Stored(w) && Play(chain, batch.events) == Some(d)
      requires batch.events != [] && Last(batch.events).Rollback? ==> d != [] && batch.ancestor == Some(Last(d))
      requires forall e | e in batch.events :: Genuine(w, e.header)
      requires forall p | p in payloads :: Genuine(w, p.header)
      modifies this, writer.db
      ensures Stored(w) && (chain == old(chain) || chain == d)
      ensures ok ==> chain == d && parentAnchor == if faults.checkpoint(old(readCount)) then None else TopOf(d)
      ensures (&& PayloadsFit(batch, payloads) && old(crashes(attempts)).None?
               && (forall p | p in payloads :: Storable(ApplyBlock(p)))
               && (forall e | e in batch.events :: e.header.height <= I64_MAX)) ==> ok
    {
      var durable := FromChainBatch(batch, payloads);
      if durable.Failure? {
        return false;
      }
      PairingCarries(w, batch, payloads, durable.value);
      ghost var before := Ran(writer.db.tables, writer.db.nextEventId);
      var outcome := writer.ApplyBatch(durable.value, crashes(attempts));
      attempts := attempts + 1;
      if outcome.Done? || writer.db.tables != before.tables {
        Replaces(w, before, batch, durable.value, d);
        chain := d;
      } else if outcome.Refused? {
        Refusal(w, before, batch, payloads, durable.value);
      }
      ok := outcome.Done?;
      if ok {
        CheckpointIsTop(w);
        parentAnchor := ReadCheckpoint();
      }
    }

    lemma Replaces(w: World, before: Ran, batch: ChainBatch, b: DurableBatch, d: seq<Header>)
      requires Holds(w, before, chain) && Carries(b, batch) && Play(chain, batch.events) == Some(d)
      requires batch.events != [] && Last(batch.events).Rollback? ==> d != [] && batch.ancestor == Some(Last(d))
      requires forall e | e in batch.events :: Genuine(w, e.header)
      requires RunBatch(before.tables, before.next, b) == Success(Ran(writer.db.tables, writer.db.nextEventId))
      ensures Holds(w, Ran(writer.db.tables, writer.db.nextEventId), d)
    {
      hide Inv, Checkpointed, RunBatch, Play;
      CarriesFits(w, batch, b, d);
      CommittedBatch(w, before.tables, chain, before.next, b);
    }

    lemma CarriesFits(w: World, batch: ChainBatch, b: DurableBatch, d: seq<Header>)
      requires Carries(b, batch) && Play(chain, batch.events) == Some(d)
      requires batch.events != [] && Last(batch.events).Rollback? ==> d != [] && batch.ancestor == Some(Last(d))
      requires forall e | e in batch.events :: Genuine(w, e.header)
      ensures Fits(chain, b) && Believable(w, b)
    {
      hide Play;
      assert b.events != [] ==> HeaderEvent(Last(b.events)) == Last(batch.events);
      forall i | 0 <= i < |b.events| ensures Genuine(w, HeaderEvent(b.events[i]).header) {
        assert HeaderEvents(b.events)[i] in batch.events;
      }
    }

    // A batch that fits is refused only for something the columns cannot hold.
    lemma Refusal(w: World, before: Ran, batch: ChainBatch, payloads: seq<Block>, b: DurableBatch)
      requires Holds(w, before, chain) && Carries(b, batch) && Play(chain, batch.events).Some?
      requires batch.events != [] && Last(batch.events).Rollback? ==>
                 Play(chain, batch.events).value != [] && batch.ancestor == Some(Last(Play(chain, batch.events).value))
      requires forall e | e in batch.events :: Genuine(w, e.header)
      requires forall i | 0 <= i < |batch.events| :: Pairs(batch.events[i], b.events[i], payloads)
      requires RunBatch(before.tables, before.next, b).Failure?
      ensures !((forall p | p in payloads :: Storable(ApplyBlock(p)))
                && (forall e | e in batch.events :: e.header.height <= I64_MAX))
    {
      if (forall p | p in payloads :: Storable(ApplyBlock(p)))
          && (forall e | e in batch.events :: e.header.height <= I64_MAX) {
        forall i | 0 <= i < |b.events| ensures Storable(b.events[i]) && Genuine(w, HeaderEvent(b.events[i]).header) {
          assert Pairs(batch.events[i], b.events[i], payloads);
          assert HeaderEvents(b.events)[i] == batch.events[i];
          assert batch.events[i] in batch.events;
        }
        if b.events != [] { assert HeaderEvent(Last(b.events)) == Last(batch.events); }
        BatchCommits(w, before.tables, chain, before.next, b);
      }
    }
  }
}
