// The durable side: tables with the schema's constraints, one transaction per batch, and
// crash points. A crash drops the working copy; a commit swaps it in. The identity
// sequence behind event ids is not rolled back.
module Store {
  import opened Wrappers
  import opened Headers
  import opened Chain

  const I32_MAX: nat := 0x7FFF_FFFF
  const MAX_TOPICS: nat := 4

  // `content` stands for the transaction hash, address, topics and data of a log.
  datatype RawLog = RawLog(
    transactionIndex: nat, logIndex: nat, content: nat, topicCount: nat,
    decodedEvent: Option<nat>, decoderVersion: Option<nat>)

  datatype Block = Block(header: Header, logs: seq<RawLog>)

  datatype DurableEvent = ApplyBlock(block: Block) | RollbackBlock(header: Header)

  datatype DurableBatch = DurableBatch(transition: Transition, ancestor: Option<Header>, events: seq<DurableEvent>)

  datatype StoreError =
    | MissingApplyBlock(hash: Hash)
    | UnexpectedApplyBlock(hash: Hash)
    | MissingRollbackBlock(hash: Hash)
    | NonCanonicalCheckpoint(hash: Hash, height: nat)
    | HeightOverflow(height: nat)
    | IntOverflow(value: nat)
    | CheckViolation
    | UniqueViolation(height: nat)
    | ForeignKeyViolation(hash: Hash)

  function HeaderEvent(e: DurableEvent): ChainEvent {
    match e
    case ApplyBlock(b) => Apply(b.header)
    case RollbackBlock(h) => Rollback(h)
  }

  function HeaderEvents(es: seq<DurableEvent>): (r: seq<ChainEvent>)
    ensures |r| == |es| && forall i | 0 <= i < |es| :: r[i] == HeaderEvent(es[i])
  {
    seq(|es|, i requires 0 <= i < |es| => HeaderEvent(es[i]))
  }

  // ------------------------------------------------------------------ tables

  datatype BlockRow = BlockRow(header: Header, canonical: bool)
  datatype LogKey = LogKey(hash: Hash, logIndex: nat)
  datatype LogRow = LogRow(blockNumber: nat, log: RawLog)
  datatype Checkpoint = Checkpoint(height: nat, hash: Hash)
  datatype OutboxRow = OutboxRow(id: nat, event: ChainEvent, logs: seq<RawLog>)

  // `index` is the partial unique index on the height of canonical rows.
  datatype Tables = Tables(
    blocks: map<Hash, BlockRow>,
    index: map<nat, Header>,
    logs: map<LogKey, LogRow>,
    checkpoint: Option<Checkpoint>,
    outbox: seq<OutboxRow>)

  const EMPTY_TABLES := Tables(map[], map[], map[], None, [])

  function CanonicalByHash(t: Tables, x: Hash): Option<Header> {
    if x in t.blocks && t.blocks[x].canonical then Some(t.blocks[x].header) else None
  }

  function CanonicalAtHeight(t: Tables, k: nat): Option<Header> {
    if k in t.index then Some(t.index[k]) else None
  }

  // ------------------------------------------------------------------ statements on values

  function Coalesce(a: Option<nat>, b: Option<nat>): Option<nat> {
    if a.Some? then a else b
  }

  predicate SameRaw(row: LogRow, number: nat, log: RawLog) {
    && row.blockNumber == number
    && row.log.transactionIndex == log.transactionIndex
    && row.log.content == log.content
    && row.log.topicCount == log.topicCount
  }

  function MergeLog(row: LogRow, number: nat, log: RawLog): LogRow {
    if SameRaw(row, number, log) then
      row.(log := row.log.(
        decodedEvent := Coalesce(log.decodedEvent, row.log.decodedEvent),
        decoderVersion := Coalesce(log.decoderVersion, row.log.decoderVersion)))
    else row
  }

  function UpsertLog(blocks: map<Hash, BlockRow>, logs: map<LogKey, LogRow>, h: Header, log: RawLog)
    : Result<map<LogKey, LogRow>, StoreError>
  {
    var key := LogKey(h.hash, log.logIndex);
    if h.height > I64_MAX then Failure(HeightOverflow(h.height))
    else if log.transactionIndex > I32_MAX then Failure(IntOverflow(log.transactionIndex))
    else if log.logIndex > I32_MAX then Failure(IntOverflow(log.logIndex))
    else if log.topicCount > MAX_TOPICS then Failure(CheckViolation)
    else if key in logs then Success(logs[key := MergeLog(logs[key], h.height, log)])
    else if h.hash in blocks && blocks[h.hash].header.height == h.height
    then Success(logs[key := LogRow(h.height, log)])
    else Failure(ForeignKeyViolation(h.hash))
  }

  function UpsertLogs(blocks: map<Hash, BlockRow>, logs: map<LogKey, LogRow>, h: Header, ls: seq<RawLog>)
    : Result<map<LogKey, LogRow>, StoreError>
    decreases |ls|
  {
    if ls == [] then Success(logs)
    else
      var r := UpsertLog(blocks, logs, h, ls[0]);
      if r.Failure? then r else UpsertLogs(blocks, r.value, h, ls[1..])
  }

  datatype Ran = Ran(tables: Tables, next: nat)

  // Whether the statement changed the row, with the tables after it.
  datatype Changed = Changed(tables: Tables, changed: bool)

  function RollbackRow(t: Tables, h: Header): Result<Changed, StoreError> {
    if h.hash !in t.blocks then Failure(MissingRollbackBlock(h.hash))
    else if h.height > I64_MAX then Failure(HeightOverflow(h.height))
    else
      var row := t.blocks[h.hash];
      if row.header.height == h.height && row.canonical then
        Success(Changed(t.(blocks := t.blocks[h.hash := row.(canonical := false)], index := t.index - {h.height}),
            true))
      else Success(Changed(t, false))
  }

  // Insert, or flip a retained row back to canonical; a row that is canonical already is left alone.
  function UpsertRow(t: Tables, h: Header): Result<Changed, StoreError> {
    if h.height > I64_MAX then Failure(HeightOverflow(h.height))
    else if h.hash in t.blocks && t.blocks[h.hash].canonical then Success(Changed(t, false))
    else
      var stored := if h.hash in t.blocks then t.blocks[h.hash].header else h;
      if stored.height in t.index then Failure(UniqueViolation(stored.height))
      else Success(Changed(t.(blocks := t.blocks[h.hash := BlockRow(stored, true)],
          index := t.index[stored.height := stored]), true))
  }

  function AppendRow(t: Tables, id: nat, e: ChainEvent, logs: seq<RawLog>): Result<Ran, StoreError> {
    if e.header.height > I64_MAX then Failure(HeightOverflow(e.header.height))
    else if e.header.hash in t.blocks && t.blocks[e.header.hash].header.height == e.header.height
    then Success(Ran(t.(outbox := t.outbox + [OutboxRow(id, e, logs)]), id + 1))
    else Failure(ForeignKeyViolation(e.header.hash))
  }

  function RunEvent(t: Tables, id: nat, e: DurableEvent): Result<Ran, StoreError> {
    match e
    case RollbackBlock(h) =>
      var r := RollbackRow(t, h);
      if r.Failure? then Failure(r.error)
      else if r.value.changed then AppendRow(r.value.tables, id, Rollback(h), [])
      else Success(Ran(r.value.tables, id))
    case ApplyBlock(b) =>
      var r := UpsertRow(t, b.header);
      if r.Failure? then Failure(r.error)
      else
        var logs := UpsertLogs(r.value.tables.blocks, r.value.tables.logs, b.header, b.logs);
        if logs.Failure? then Failure(logs.error)
        else
          var t' := r.value.tables.(logs := logs.value);
          if r.value.changed then AppendRow(t', id, Apply(b.header), b.logs) else Success(Ran(t', id))
  }

  function RunEvents(t: Tables, id: nat, es: seq<DurableEvent>): Result<Ran, StoreError>
    decreases |es|
  {
    if es == [] then Success(Ran(t, id))
    else
      var r := RunEvent(t, id, es[0]);
      if r.Failure? then r else RunEvents(r.value.tables, r.value.next, es[1..])
  }

  function Target(ancestor: Option<Header>, es: seq<DurableEvent>): Option<Header> {
    if es != [] && Last(es).ApplyBlock? then Some(Last(es).block.header) else ancestor
  }

  function MoveCheckpoint(t: Tables, h: Header): Result<Tables, StoreError> {
    if h.height > I64_MAX then Failure(HeightOverflow(h.height))
    else if h.hash in t.blocks && t.blocks[h.hash].header.height == h.height && t.blocks[h.hash].canonical
    then Success(t.(checkpoint := Some(Checkpoint(h.height, h.hash))))
    else Failure(NonCanonicalCheckpoint(h.hash, h.height))
  }

  function RunBatch(t: Tables, id: nat, b: DurableBatch): Result<Ran, StoreError> {
    if b.events == [] then Success(Ran(t, id))
    else
      var r := RunEvents(t, id, b.events);
      var target := Target(b.ancestor, b.events);
      if r.Failure? || target.None? then r
      else
        var moved := MoveCheckpoint(r.value.tables, target.value);
        if moved.Failure? then Failure(moved.error) else Success(r.value.(tables := moved.value))
  }

  // ------------------------------------------------------------------ durable batches

  function AppliedHashes(es: seq<ChainEvent>): seq<Hash> {
    if es == [] then []
    else (if es[0].Apply? then [es[0].header.hash] else []) + AppliedHashes(es[1..])
  }

  function BlockHashes(blocks: seq<Block>): set<Hash> {
    set b | b in blocks :: b.header.hash
  }

  function HashSet(s: seq<Hash>): set<Hash> {
    set x | x in s
  }

  predicate NoRepeats(s: seq<Hash>) {
    forall i, j | 0 <= i < j < |s| :: s[i] != s[j]
  }

  // Of several payloads with one hash the last one counts.
  predicate Newest(payloads: seq<Block>, b: Block) {
    exists j :: 0 <= j < |payloads| && payloads[j] == b
                && forall k | j < k < |payloads| :: payloads[k].header.hash != b.header.hash
  }

  // The durable event for a chain event: a rollback is kept, an apply carries the last of
  // the payloads with the requested hash.
  predicate Pairs(e: ChainEvent, d: DurableEvent, payloads: seq<Block>) {
    match e
    case Rollback(h) => d == RollbackBlock(h)
    case Apply(h) => d.ApplyBlock? && Newest(payloads, d.block) && d.block.header.hash == h.hash
  }

  predicate PayloadsFit(batch: ChainBatch, payloads: seq<Block>) {
    NoRepeats(AppliedHashes(batch.events)) && BlockHashes(payloads) == HashSet(AppliedHashes(batch.events))
  }

  lemma NewestGrows(payloads: seq<Block>, b: Block)
    ensures Newest(payloads + [b], b)
    ensures forall x | Newest(payloads, x) && x.header.hash != b.header.hash :: Newest(payloads + [b], x)
  {
    var all := payloads + [b];
    assert all[|payloads|] == b;
    forall x | Newest(payloads, x) && x.header.hash != b.header.hash ensures Newest(all, x) {
      var j :| 0 <= j < |payloads| && payloads[j] == x && forall k | j < k < |payloads| ::
          payloads[k].header.hash != x.header.hash;
      assert all[j] == x;
    }
  }

  method IndexByHash(payloads: seq<Block>) returns (blocks: map<Hash, Block>)
    ensures Unused(blocks, payloads, [])
  {
    blocks := map[];
    for i := 0 to |payloads|
      invariant blocks.Keys == BlockHashes(payloads[..i])
      invariant forall x | x in blocks :: blocks[x].header.hash == x && Newest(payloads[..i], blocks[x])
    {
      NewestGrows(payloads[..i], payloads[i]);
      assert payloads[..i + 1] == payloads[..i] + [payloads[i]];
      blocks := blocks[payloads[i].header.hash := payloads[i]];
    }
    assert payloads[..|payloads|] == payloads;
  }

  // Pairs each apply with its fetched payload by hash. It succeeds exactly when the
  // payloads are those of the applied hashes, each applied once, and keeps order.
  method FromChainBatch(batch: ChainBatch, payloads: seq<Block>) returns (r: Result<DurableBatch, StoreError>)
    ensures r.Success? <==> PayloadsFit(batch, payloads)
    ensures r.Success? ==>
              && r.value.transition == batch.transition && r.value.ancestor == batch.ancestor
              && |r.value.events| == |batch.events|
              && forall i | 0 <= i < |batch.events| :: Pairs(batch.events[i], r.value.events[i], payloads)
    ensures r.Failure? ==>
              match r.error
              case MissingApplyBlock(x) => x in AppliedHashes(batch.events)
              case UnexpectedApplyBlock(x) => x in BlockHashes(payloads) && x !in AppliedHashes(batch.events)
              case _ => false
  {
    hide Newest, AppliedHashes, NoRepeats;
    var blocks := IndexByHash(payloads);
    var events: seq<DurableEvent> := [];
    var all := batch.events;
    ghost var used: seq<Hash> := [];
    NothingUsed(all);
    for i := 0 to |all|
      invariant |events| == i && NoRepeats(used)
      invariant AppliedHashes(all) == used + AppliedHashes(all[i..])
      invariant Unused(blocks, payloads, used)
      invariant forall j | 0 <= j < i :: Pairs(all[j], events[j], payloads)
    {
      AppliedStep(all, i, used);
      match all[i] {
        case Rollback(h) =>
          events := events + [RollbackBlock(h)];
        case Apply(h) =>
          if h.hash !in blocks {
            RefusedApply(payloads, used, h.hash, AppliedHashes(all[i + 1..]));
            assert h.hash in used + [h.hash] + AppliedHashes(all[i + 1..]);
            return Failure(MissingApplyBlock(h.hash));
          }
          events := events + [ApplyBlock(blocks[h.hash])];
          UseBlock(blocks, payloads, used, h.hash);
          blocks := blocks - {h.hash};
          used := used + [h.hash];
      }
    }
    NothingLeft(all, used);
    if blocks != map[] {
      var extra :| extra in blocks;
      assert extra in BlockHashes(payloads) && extra !in HashSet(used);
      return Failure(UnexpectedApplyBlock(extra));
    }
    AllUsed(payloads, used);
    r := Success(DurableBatch(batch.transition, batch.ancestor, events));
  }

  lemma NothingUsed(all: seq<ChainEvent>)
    ensures NoRepeats([]) && AppliedHashes(all) == [] + AppliedHashes(all[0..])
  {
    assert all[0..] == all;
  }

  lemma AppliedStep(all: seq<ChainEvent>, i: nat, used: seq<Hash>)
    requires i < |all| && AppliedHashes(all) == used + AppliedHashes(all[i..])
    ensures AppliedHashes(all)
         == (if all[i].Apply? then used + [all[i].header.hash] else used) + AppliedHashes(all[i + 1..])
  {
    var rest := AppliedHashes(all[i + 1..]);
    AppliedCons(all, i);
    hide AppliedHashes;
    if all[i].Apply? {
      assert used + ([all[i].header.hash] + rest) == used + [all[i].header.hash] + rest;
    }
  }

  lemma AppliedCons(all: seq<ChainEvent>, i: nat)
    requires i < |all|
    ensures var rest := AppliedHashes(all[i + 1..]);
            AppliedHashes(all[i..]) == if all[i].Apply? then [all[i].header.hash] + rest else rest
  {
    var es := all[i..];
    assert es[1..] == all[i + 1..] && es[0] == all[i];
    assert [] + AppliedHashes(es[1..]) == AppliedHashes(es[1..]);
  }

  lemma NothingLeft(all: seq<ChainEvent>, used: seq<Hash>)
    requires AppliedHashes(all) == used + AppliedHashes(all[|all|..])
    ensures AppliedHashes(all) == used
  {
    assert all[|all|..] == [];
  }

  // The payloads left after those of `used` were taken.
  ghost predicate Unused(blocks: map<Hash, Block>, payloads: seq<Block>, used: seq<Hash>) {
    && (forall x :: x in blocks <==> x in BlockHashes(payloads) && x !in used)
    && (forall x | x in blocks :: blocks[x].header.hash == x && Newest(payloads, blocks[x]))
    && (forall x | x in used :: x in BlockHashes(payloads))
  }

  lemma UseBlock(blocks: map<Hash, Block>, payloads: seq<Block>, used: seq<Hash>, x: Hash)
    requires Unused(blocks, payloads, used) && NoRepeats(used) && x in blocks
    ensures Unused(blocks - {x}, payloads, used + [x]) && NoRepeats(used + [x])
  {
  }

  lemma AllUsed(payloads: seq<Block>, used: seq<Hash>)
    requires Unused(map[], payloads, used)
    ensures BlockHashes(payloads) == HashSet(used)
  {
    var none: map<Hash, Block> := map[];
    forall x ensures x in BlockHashes(payloads) <==> x in HashSet(used) {
      assert x !in none;
    }
  }

  lemma RefusedApply(payloads: seq<Block>, used: seq<Hash>, x: Hash, rest: seq<Hash>)
    requires x in BlockHashes(payloads) ==> x in used
    ensures !(NoRepeats(used + [x] + rest) && BlockHashes(payloads) == HashSet(used + [x] + rest))
  {
    var all := used + [x] + rest;
    assert all[|used|] == x;
    if x in used {
      var j :| 0 <= j < |used| && used[j] == x;
      assert all[j] == x;
    }
  }

  // ------------------------------------------------------------------ the writer

  datatype CrashPoint = BeforeCommit | AfterCommit | TransactionStep(step: nat)

  datatype ApplyReport = ApplyReport(applied: nat, rolledBack: nat, upsertedLogs: nat, appended: nat)

  function AddReports(a: ApplyReport, b: ApplyReport): ApplyReport {
    ApplyReport(a.applied + b.applied, a.rolledBack + b.rolledBack, a.upsertedLogs + b.upsertedLogs,
        a.appended + b.appended)
  }

  // How many rows of a journal tell of a block applied, and of a block rolled back.
  function AppliedRows(rows: seq<OutboxRow>): nat {
    if rows == [] then 0 else (if rows[0].event.Apply? then 1 else 0) + AppliedRows(rows[1..])
  }

  function RolledBackRows(rows: seq<OutboxRow>): nat {
    if rows == [] then 0 else (if rows[0].event.Rollback? then 1 else 0) + RolledBackRows(rows[1..])
  }

  // The logs an event carries, whether or not they change a row.
  function LogCount(e: DurableEvent): nat {
    if e.ApplyBlock? then |e.block.logs| else 0
  }

  function LogCounts(es: seq<DurableEvent>): nat {
    if es == [] then 0 else LogCount(es[0]) + LogCounts(es[1..])
  }

  // The report counts what was appended between two journals, each row under its kind.
  predicate Tallies(report: ApplyReport, before: seq<OutboxRow>, after: seq<OutboxRow>) {
    && before <= after
    && report.appended == |after| - |before|
    && report.applied == AppliedRows(after[|before|..])
    && report.rolledBack == RolledBackRows(after[|before|..])
  }

  lemma {:induction false} RowsAdd(a: seq<OutboxRow>, b: seq<OutboxRow>)
    ensures AppliedRows(a + b) == AppliedRows(a) + AppliedRows(b)
    ensures RolledBackRows(a + b) == RolledBackRows(a) + RolledBackRows(b)
  {
    if a == [] {
      assert a + b == b;
    } else {
      RowsAdd(a[1..], b);
      assert (a + b)[1..] == a[1..] + b;
    }
  }

  lemma NothingTallied(rows: seq<OutboxRow>)
    ensures Tallies(ApplyReport(0, 0, 0, 0), rows, rows)
  {
    assert rows[|rows|..] == [];
  }

  lemma TalliesAdd(x: ApplyReport, y: ApplyReport, a: seq<OutboxRow>, b: seq<OutboxRow>, c: seq<OutboxRow>)
    requires Tallies(x, a, b) && Tallies(y, b, c)
    ensures Tallies(AddReports(x, y), a, c)
  {
    RowsAdd(b[|a|..], c[|b|..]);
    assert b[|a|..] + c[|b|..] == c[|a|..];
  }

  datatype WriteOutcome = Done(report: ApplyReport) | Refused(error: StoreError) | Crashed

  // The number of crash gates a batch that commits passes inside its transaction.
  function Gates(b: DurableBatch): nat {
    1 + 2 * |b.events| + if Target(b.ancestor, b.events).Some? then 2 else 0
  }

  predicate WillCrash(crash: Option<CrashPoint>, b: DurableBatch) {
    && crash.Some? && b.events != []
    && (crash.value.TransactionStep? ==> crash.value.step < Gates(b))
  }

  class Database {
    var tables: Tables
    var nextEventId: nat

    constructor ()
      ensures tables == EMPTY_TABLES && nextEventId == 1
    {
      tables := EMPTY_TABLES;
      nextEventId := 1;
    }
  }

  // One open transaction: a working copy of the tables.
  class Transaction {
    const db: Database
    var work: Tables

    constructor (db: Database)
      ensures this.db == db && work == db.tables
    {
      this.db := db;
      work := db.tables;
    }

    method RollbackBlock(h: Header) returns (r: Result<bool, StoreError>)
      modifies this
      ensures r.Failure? ==> RollbackRow(old(work), h) == Failure(r.error)
      ensures r.Success? ==> RollbackRow(old(work), h) == Success(Changed(work, r.value))
      ensures r.Success? <==> h.hash in old(work).blocks && h.height <= I64_MAX
      ensures r.Failure? ==>
                r.error == if h.hash in old(work).blocks then HeightOverflow(h.height) else MissingRollbackBlock(h.hash)
      ensures r.Failure? || !r.value ==> work == old(work)
      ensures r.Success? ==>
                (r.value <==> old(work).blocks[h.hash].canonical && old(work).blocks[h.hash].header.height == h.height)
      ensures r.Success? && r.value ==>
                && work.blocks.Keys == old(work).blocks.Keys && !work.blocks[h.hash].canonical
                && (forall x | x in work.blocks :: work.blocks[x].header == old(work).blocks[x].header)
                && (forall x | x in work.blocks && x != h.hash :: work.blocks[x] == old(work).blocks[x])
                && h.height !in work.index
                && (forall k | k != h.height :: CanonicalAtHeight(work, k) == CanonicalAtHeight(old(work), k))
      ensures work == old(work).(blocks := work.blocks, index := work.index)
    {
      if h.hash !in work.blocks {
        return Failure(MissingRollbackBlock(h.hash));
      }
      if h.height > I64_MAX {
        return Failure(HeightOverflow(h.height));
      }
      var row := work.blocks[h.hash];
      var hit := row.header.height == h.height && row.canonical;
      if hit {
        work := work.(blocks := work.blocks[h.hash := row.(canonical := false)], index := work.index - {h.height});
      }
      r := Success(hit);
    }

    method UpsertBlock(h: Header) returns (r: Result<bool, StoreError>)
      modifies this
      ensures r.Failure? ==> UpsertRow(old(work), h) == Failure(r.error)
      ensures r.Success? ==> UpsertRow(old(work), h) == Success(Changed(work, r.value))
      ensures r.Failure? || !r.value ==> work == old(work)
      ensures r.Success? ==> h.hash in work.blocks && work.blocks[h.hash].canonical
      ensures r.Success? ==> (r.value <==> !(h.hash in old(work).blocks && old(work).blocks[h.hash].canonical))
      ensures r.Failure? && h.height > I64_MAX ==> r.error == HeightOverflow(h.height)
      ensures r.Failure? && h.height <= I64_MAX ==>
                var row := if h.hash in old(work).blocks then old(work).blocks[h.hash].header else h;
                r.error == UniqueViolation(row.height) && row.height in old(work).index
      ensures r.Success? && r.value ==>
                var row := work.blocks[h.hash].header;
                && row == (if h.hash in old(work).blocks then old(work).blocks[h.hash].header else h)
                && row.height !in old(work).index && CanonicalAtHeight(work, row.height) == Some(row)
                && (forall k | k != row.height :: CanonicalAtHeight(work, k) == CanonicalAtHeight(old(work), k))
                && (forall x | x != h.hash :: x in work.blocks <==> x in old(work).blocks)
                && (forall x | x != h.hash && x in work.blocks :: work.blocks[x] == old(work).blocks[x])
      ensures work == old(work).(blocks := work.blocks, index := work.index)
    {
      if h.height > I64_MAX {
        return Failure(HeightOverflow(h.height));
      }
      if h.hash in work.blocks && work.blocks[h.hash].canonical {
        return Success(false);
      }
      var stored := if h.hash in work.blocks then work.blocks[h.hash].header else h;
      if stored.height in work.index {
        return Failure(UniqueViolation(stored.height));
      }
      work := work.(blocks := work.blocks[h.hash := BlockRow(stored, true)],
          index := work.index[stored.height := stored]);
      r := Success(true);
    }

    method UpsertBlockLogs(b: Block) returns (r: Result<nat, StoreError>)
      modifies this
      ensures r.Failure? ==> UpsertLogs(old(work.blocks), old(work.logs), b.header, b.logs) == Failure(r.error)
      ensures r.Success? ==> UpsertLogs(old(work.blocks), old(work.logs), b.header, b.logs) == Success(work.logs)
      ensures r.Success? ==> r.value == |b.logs|
      ensures work == old(work).(logs := work.logs)
    {
      var i := 0;
      while i < |b.logs|
        invariant 0 <= i <= |b.logs|
        invariant UpsertLogs(old(work.blocks), old(work.logs), b.header, b.logs)
               == UpsertLogs(work.blocks, work.logs, b.header, b.logs[i..])
        invariant work == old(work).(logs := work.logs)
      {
        assert b.logs[i..][1..] == b.logs[i + 1..];
        var up := UpsertLog(work.blocks, work.logs, b.header, b.logs[i]);
        if up.Failure? {
          return Failure(up.error);
        }
        work := work.(logs := up.value);
        i := i + 1;
      }
      r := Success(|b.logs|);
    }

    method AppendOutbox(e: ChainEvent, logs: seq<RawLog>) returns (r: Result<nat, StoreError>)
      modifies this, db`nextEventId
      ensures r.Failure? ==> AppendRow(old(work), old(db.nextEventId), e, logs) == Failure(r.error)
      ensures r.Success? ==> AppendRow(old(work), old(db.nextEventId), e, logs) == Success(Ran(work, db.nextEventId))
      ensures r.Success? ==>
                work.outbox == old(work).outbox + [OutboxRow(r.value, e, logs)] && r.value == old(db.nextEventId)
      ensures r.Failure? ==>
                && work == old(work)
                && r.error == if e.header.height > I64_MAX then HeightOverflow(e.header.height)
                              else ForeignKeyViolation(e.header.hash)
      ensures db.nextEventId == if e.header.height > I64_MAX then old(db.nextEventId) else old(db.nextEventId) + 1
      ensures work == old(work).(outbox := work.outbox)
      ensures db.nextEventId >= old(db.nextEventId)
    {
      if e.header.height > I64_MAX {
        return Failure(HeightOverflow(e.header.height));
      }
      var id := db.nextEventId;
      db.nextEventId := id + 1;
      if !(e.header.hash in work.blocks && work.blocks[e.header.hash].header.height == e.header.height) {
        return Failure(ForeignKeyViolation(e.header.hash));
      }
      work := work.(outbox := work.outbox + [OutboxRow(id, e, logs)]);
      r := Success(id);
    }

    // One event of a batch: the block statement, its logs, and an outbox row if the block
    // statement changed anything.
    method Perform(e: DurableEvent) returns (r: Result<ApplyReport, StoreError>)
      modifies this, db`nextEventId
      ensures r.Failure? ==> RunEvent(old(work), old(db.nextEventId), e) == Failure(r.error)
      ensures r.Success? ==> RunEvent(old(work), old(db.nextEventId), e) == Success(Ran(work, db.nextEventId))
      ensures r.Success? ==> Tallies(r.value, old(work).outbox, work.outbox) && r.value.upsertedLogs == LogCount(e)
      ensures db.nextEventId >= old(db.nextEventId)
    {
      match e {
        case RollbackBlock(h) =>
          var changed := RollbackBlock(h);
          if changed.Failure? {
            return Failure(changed.error);
          }
          if !changed.value {
            return Success(ApplyReport(0, 0, 0, 0));
          }
          var id := AppendOutbox(Rollback(h), []);
          if id.Failure? {
            return Failure(id.error);
          }
          r := Success(ApplyReport(0, 1, 0, 1));
        case ApplyBlock(b) =>
          var changed := UpsertBlock(b.header);
          if changed.Failure? {
            return Failure(changed.error);
          }
          var logs := UpsertBlockLogs(b);
          if logs.Failure? {
            return Failure(logs.error);
          }
          if !changed.value {
            return Success(ApplyReport(0, 0, logs.value, 0));
          }
          var id := AppendOutbox(Apply(b.header), b.logs);
          if id.Failure? {
            return Failure(id.error);
          }
          r := Success(ApplyReport(1, 0, logs.value, 1));
      }
    }

    method PlaceCheckpoint(h: Header) returns (r: Result<(), StoreError>)
      modifies this
      ensures r.Failure? ==> MoveCheckpoint(old(work), h) == Failure(r.error)
      ensures r.Success? ==> MoveCheckpoint(old(work), h) == Success(work)
      ensures r.Success? <==>
                && h.height <= I64_MAX && h.hash in old(work).blocks
                && old(work).blocks[h.hash].canonical && old(work).blocks[h.hash].header.height == h.height
      ensures r.Failure? ==>
                r.error == if h.height > I64_MAX then HeightOverflow(h.height)
                           else NonCanonicalCheckpoint(h.hash, h.height)
      ensures work.checkpoint == if r.Success? then Some(Checkpoint(h.height, h.hash)) else old(work).checkpoint
      ensures work == old(work).(checkpoint := work.checkpoint)
    {
      if h.height > I64_MAX {
        return Failure(HeightOverflow(h.height));
      }
      if !(h.hash in work.blocks && work.blocks[h.hash].header.height == h.height && work.blocks[h.hash].canonical) {
        return Failure(NonCanonicalCheckpoint(h.hash, h.height));
      }
      work := work.(checkpoint := Some(Checkpoint(h.height, h.hash)));
      r := Success(());
    }
  }

  class Writer {
    const db: Database

    constructor (db: Database)
      ensures this.db == db
    {
      this.db := db;
    }

    // Performs every event in order, parking at the crash gate numbered `stopAt`; gate 0
    // was passed when the transaction began.
    method PerformAll(tx: Transaction, es: seq<DurableEvent>, stopAt: Option<nat>)
      returns (r: Result<ApplyReport, StoreError>, crashed: bool)
      requires stopAt.Some? ==> stopAt.value >= 1
      modifies tx, tx.db`nextEventId
      ensures tx.db.nextEventId >= old(tx.db.nextEventId)
      ensures crashed ==> stopAt.Some? && stopAt.value < 1 + 2 * |es|
      ensures !crashed && r.Failure? ==> RunEvents(old(tx.work), old(tx.db.nextEventId), es) == Failure(r.error)
      ensures !crashed && r.Success? ==>
                && RunEvents(old(tx.work), old(tx.db.nextEventId), es) == Success(Ran(tx.work, tx.db.nextEventId))
                && (stopAt.Some? ==> stopAt.value >= 1 + 2 * |es|)
                && Tallies(r.value, old(tx.work).outbox, tx.work.outbox) && r.value.upsertedLogs == LogCounts(es)
    {
      hide RunEvent, Tallies, LogCount;
      var report := ApplyReport(0, 0, 0, 0);
      NothingTallied(tx.work.outbox);
      var i := 0;
      while i < |es|
        invariant 0 <= i <= |es|
        invariant stopAt.Some? ==> stopAt.value >= 1 + 2 * i
        invariant RunEvents(old(tx.work), old(tx.db.nextEventId), es) == RunEvents(tx.work, tx.db.nextEventId, es[i..])
        invariant tx.db.nextEventId >= old(tx.db.nextEventId)
        invariant Tallies(report, old(tx.work).outbox, tx.work.outbox)
        invariant report.upsertedLogs + LogCounts(es[i..]) == LogCounts(es)
      {
        assert es[i..][1..] == es[i + 1..];
        ghost var before := tx.work.outbox;
        if stopAt == Some(1 + 2 * i) {
          return Success(report), true;
        }
        var done := tx.Perform(es[i]);
        if done.Failure? {
          return Failure(done.error), false;
        }
        TalliesAdd(report, done.value, old(tx.work).outbox, before, tx.work.outbox);
        report := AddReports(report, done.value);
        if stopAt == Some(2 + 2 * i) {
          return Success(report), true;
        }
        i := i + 1;
      }
      assert es[i..] == [];
      r, crashed := Success(report), false;
    }

    // All or nothing: a refused batch, and a crash at any gate before the commit, leave the
    // tables as they were; a finished batch, and a crash after the commit, leave exactly
    // what running the whole batch produces. A batch that can commit crashes exactly when
    // its crash point is reached.
    method ApplyBatch(batch: DurableBatch, crash: Option<CrashPoint>) returns (r: WriteOutcome)
      modifies db
      ensures db.nextEventId >= old(db.nextEventId)
      ensures r.Refused? ==>
                RunBatch(old(db.tables), old(db.nextEventId), batch) == Failure(r.error) && db.tables == old(db.tables)
      ensures r.Done? ==>
                RunBatch(old(db.tables), old(db.nextEventId), batch) == Success(Ran(db.tables, db.nextEventId))
      ensures r.Done? ==> Tallies(r.report, old(db.tables).outbox, db.tables.outbox)
      ensures r.Done? ==> r.report.upsertedLogs == LogCounts(batch.events)
      ensures r.Crashed? ==> WillCrash(crash, batch)
      ensures r.Crashed? && !crash.value.AfterCommit? ==> db.tables == old(db.tables)
      ensures r.Crashed? && crash.value.AfterCommit? ==>
                RunBatch(old(db.tables), old(db.nextEventId), batch) == Success(Ran(db.tables, db.nextEventId))
      ensures RunBatch(old(db.tables), old(db.nextEventId), batch).Success? && WillCrash(crash, batch) ==> r.Crashed?
    {
      hide Tallies;
      if batch.events == [] {
        NothingTallied(db.tables.outbox);
        return Done(ApplyReport(0, 0, 0, 0));
      }
      var stopAt: Option<nat> := if crash.Some? && crash.value.TransactionStep? then Some(crash.value.step) else None;
      var tx := new Transaction(db);
      if stopAt == Some(0) {
        return Crashed;
      }
      var done, crashed := PerformAll(tx, batch.events, stopAt);
      if crashed {
        return Crashed;
      }
      if done.Failure? {
        return Refused(done.error);
      }
      var target := Target(batch.ancestor, batch.events);
      var gate := 1 + 2 * |batch.events|;
      if target.Some? {
        if stopAt == Some(gate) {
          return Crashed;
        }
        var moved := tx.PlaceCheckpoint(target.value);
        if moved.Failure? {
          return Refused(moved.error);
        }
        if stopAt == Some(gate + 1) {
          return Crashed;
        }
      }
      if crash == Some(BeforeCommit) {
        return Crashed;
      }
      db.tables := tx.work;
      if crash == Some(AfterCommit) {
        return Crashed;
      }
      r := Done(done.value);
    }
  }
}
