// What the durable writer guarantees: canonical rows, height index, checkpoint and outbox
// all describe one contiguous linked chain after every batch, and replaying a batch,
// however often it crashed before, changes nothing but unused event ids.
module StoreTheory {
  import opened Wrappers
  import opened Headers
  import opened Chain
  import opened Store

  // ------------------------------------------------------------------ the invariant

  function Journal(rows: seq<OutboxRow>): (r: seq<ChainEvent>)
    ensures |r| == |rows| && forall i | 0 <= i < |rows| :: r[i] == rows[i].event
  {
    seq(|rows|, i requires 0 <= i < |rows| => rows[i].event)
  }

  ghost predicate RowsOk(w: World, t: Tables, c: seq<Header>) {
    && (forall x | x in t.blocks :: t.blocks[x].header.hash == x && Genuine(w, t.blocks[x].header))
    && (forall x | x in t.blocks :: t.blocks[x].canonical <==> x in HashesOf(c))
    && HashesOf(c) <= t.blocks.Keys
  }

  // The canonical rows, the height index and the fold of the whole outbox are the chain c.
  ghost predicate Inv(w: World, t: Tables, c: seq<Header>) {
    && Linked(c) && AllGenuine(w, c)
    && RowsOk(w, t, c)
    && t.index == MapOf(c)
    && Play([], Journal(t.outbox)) == Some(c)
  }

  lemma LinkedOfInv(w: World, t: Tables, c: seq<Header>)
    requires Inv(w, t, c)
    ensures Linked(c) && AllGenuine(w, c)
  {
  }

  ghost predicate Checkpointed(t: Tables, c: seq<Header>) {
    t.checkpoint == if c == [] then None else Some(Checkpoint(Last(c).height, Last(c).hash))
  }

  ghost predicate IdsOk(t: Tables, next: nat) {
    && (forall i, j | 0 <= i < j < |t.outbox| :: t.outbox[i].id < t.outbox[j].id)
    && (forall i | 0 <= i < |t.outbox| :: t.outbox[i].id < next)
  }

  predicate LogOk(l: RawLog) {
    l.transactionIndex <= I32_MAX && l.logIndex <= I32_MAX && l.topicCount <= MAX_TOPICS
  }

  // What the column types can hold.
  predicate Storable(e: DurableEvent) {
    && HeaderEvent(e).header.height <= I64_MAX
    && (e.ApplyBlock? ==> forall l | l in e.block.logs :: LogOk(l))
  }

  ghost predicate Acceptable(w: World, b: DurableBatch) {
    forall i | 0 <= i < |b.events| :: Storable(b.events[i]) && Genuine(w, HeaderEvent(b.events[i]).header)
  }

  ghost predicate Believable(w: World, b: DurableBatch) {
    forall i | 0 <= i < |b.events| :: Genuine(w, HeaderEvent(b.events[i]).header)
  }

  // The batch replays on the chain, and a batch ending in a rollback names the new top.
  ghost predicate Fits(c: seq<Header>, b: DurableBatch) {
    var d := Play(c, HeaderEvents(b.events));
    && d.Some?
    && (b.events != [] && Last(b.events).RollbackBlock? ==> d.value != [] && b.ancestor == Some(Last(d.value)))
  }

  // The rows flagged canonical, as headers.
  ghost function CanonicalRows(t: Tables): set<Header> {
    set x | x in t.blocks && t.blocks[x].canonical :: t.blocks[x].header
  }

  // Under the invariant the canonical rows, and both canonical lookups, are exactly the chain.
  lemma CanonicalIsChain(w: World, t: Tables, c: seq<Header>)
    requires Inv(w, t, c)
    ensures CanonicalRows(t) == set h | h in c
    ensures forall h | h in c :: CanonicalByHash(t, h.hash) == Some(h)
    ensures forall x | x !in HashesOf(c) :: CanonicalByHash(t, x) == None
    ensures forall k :: CanonicalAtHeight(t, k) == if k in MapOf(c) then Some(MapOf(c)[k]) else None
  {
    forall h | h in c ensures h.hash in t.blocks && t.blocks[h.hash].canonical && t.blocks[h.hash].header == h {
      assert h.hash in HashesOf(c);
      assert Genuine(w, t.blocks[h.hash].header);
    }
    forall h | h in CanonicalRows(t) ensures h in c {
      HashMeansMember(w, c, h);
    }
    forall h: Header | h in c ensures h in CanonicalRows(t) {
      assert t.blocks[h.hash].header == h;
    }
  }

  // ------------------------------------------------------------------ one event

  lemma {:induction false} UpsertOk(blocks: map<Hash, BlockRow>, logs: map<LogKey, LogRow>, h: Header, ls: seq<RawLog>)
    requires h.height <= I64_MAX && forall l | l in ls :: LogOk(l)
    requires h.hash in blocks && blocks[h.hash].header.height == h.height
    ensures UpsertLogs(blocks, logs, h, ls).Success?
    decreases |ls|
  {
    if ls != [] {
      assert LogOk(ls[0]);
      UpsertOk(blocks, UpsertLog(blocks, logs, h, ls[0]).value, h, ls[1..]);
    }
  }

  lemma AppendPlays(t: Tables, row: OutboxRow, c: seq<Header>)
    requires Play([], Journal(t.outbox)) == Some(c)
    ensures Play([], Journal(t.outbox + [row])) == Step(c, row.event)
  {
    assert Journal(t.outbox + [row]) == Journal(t.outbox) + [row.event];
    PlayConcat([], Journal(t.outbox), [row.event]);
    assert Play(c, [row.event]) == Step(c, row.event) by {
      var d := Step(c, row.event);
      if d.Some? { assert [row.event][1..] == []; }
    }
  }

  lemma RollbackCommits(w: World, t: Tables, c: seq<Header>, id: nat, h: Header)
    requires Inv(w, t, c) && c != [] && Last(c) == h && h.height <= I64_MAX
    ensures var r := RunEvent(t, id, RollbackBlock(h));
            && r.Success? && Inv(w, r.value.tables, c[..|c| - 1]) && r.value.next == id + 1
            && r.value.tables.outbox == t.outbox + [OutboxRow(id, Rollback(h), [])]
            && r.value.tables.checkpoint == t.checkpoint
  {
    var d := c[..|c| - 1];
    assert h in c && h.hash in HashesOf(c);
    assert Genuine(w, t.blocks[h.hash].header);
    HashesOfPop(w, c);
    MapOfPop(c);
    LinkedSlice(c, 0, |c| - 1);
    AppendPlays(t, OutboxRow(id, Rollback(h), []), c);
  }

  // A header that extends the chain is not yet canonical and its height is free.
  lemma ExtensionIsNew(w: World, c: seq<Header>, h: Header)
    requires Linked(c) && AllGenuine(w, c) && Genuine(w, h) && (c == [] || Links(Last(c), h))
    ensures h.hash !in HashesOf(c) && h.height !in MapOf(c)
  {
    MapOfLookup(c);
    if c != [] { HeightAt(c, |c| - 1); }
    if h.hash in HashesOf(c) {
      HashMeansMember(w, c, h);
      var i :| 0 <= i < |c| && c[i] == h;
      HeightAt(c, i);
    }
  }

  lemma UpsertRowCommits(w: World, t: Tables, c: seq<Header>, h: Header)
    requires Linked(c) && AllGenuine(w, c) && RowsOk(w, t, c) && t.index == MapOf(c)
    requires (c == [] || Links(Last(c), h)) && Genuine(w, h) && h.height <= I64_MAX
    ensures var r := UpsertRow(t, h);
            && r.Success? && r.value.changed
            && r.value.tables == t.(blocks := t.blocks[h.hash := BlockRow(h, true)], index := MapOf(c + [h]))
            && RowsOk(w, r.value.tables, c + [h])
  {
    ExtensionIsNew(w, c, h);
    if h.hash in t.blocks { assert Genuine(w, t.blocks[h.hash].header); }
    HashesOfPush(c, h);
    MapOfPush(c, h);
  }

  lemma ApplyCommits(w: World, t: Tables, c: seq<Header>, id: nat, b: Block)
    requires Inv(w, t, c) && (c == [] || Links(Last(c), b.header)) && Genuine(w, b.header)
    requires Storable(ApplyBlock(b))
    ensures var r := RunEvent(t, id, ApplyBlock(b));
            && r.Success? && Inv(w, r.value.tables, c + [b.header]) && r.value.next == id + 1
            && r.value.tables.outbox == t.outbox + [OutboxRow(id, Apply(b.header), b.logs)]
            && r.value.tables.checkpoint == t.checkpoint
  {
    var h := b.header;
    UpsertRowCommits(w, t, c, h);
    var up := UpsertRow(t, h).value.tables;
    UpsertOk(up.blocks, up.logs, h, b.logs);
    LinkedConcat(c, [h]);
    AppendPlays(t, OutboxRow(id, Apply(h), b.logs), c);
  }

  lemma EventCommits(w: World, t: Tables, c: seq<Header>, id: nat, e: DurableEvent) returns (t': Tables)
    requires Inv(w, t, c) && Step(c, HeaderEvent(e)).Some?
    requires Storable(e) && Genuine(w, HeaderEvent(e).header)
    ensures RunEvent(t, id, e) == Success(Ran(t', id + 1))
    ensures Inv(w, t', Step(c, HeaderEvent(e)).value) && t'.checkpoint == t.checkpoint
    ensures Journal(t'.outbox) == Journal(t.outbox) + [HeaderEvent(e)]
  {
    match e {
      case RollbackBlock(h) => RollbackCommits(w, t, c, id, h);
      case ApplyBlock(b) => ApplyCommits(w, t, c, id, b);
    }
    t' := RunEvent(t, id, e).value.tables;
  }

  lemma EventKeepsIds(t: Tables, id: nat, e: DurableEvent)
    requires IdsOk(t, id) && RunEvent(t, id, e).Success?
    ensures var r := RunEvent(t, id, e).value; IdsOk(r.tables, r.next)
  {
  }

  // ------------------------------------------------------------------ one batch

  // Event ids are strictly increasing in journal order, whatever a batch contains.
  lemma {:induction false} EventsKeepIds(t: Tables, id: nat, es: seq<DurableEvent>)
    requires IdsOk(t, id) && RunEvents(t, id, es).Success?
    ensures var r := RunEvents(t, id, es).value; IdsOk(r.tables, r.next)
    decreases |es|
  {
    if es != [] {
      EventKeepsIds(t, id, es[0]);
      var r := RunEvent(t, id, es[0]).value;
      EventsKeepIds(r.tables, r.next, es[1..]);
    }
  }

  lemma ConcatAssociative(a: seq<ChainEvent>, b: seq<ChainEvent>, c: seq<ChainEvent>)
    ensures a + b + c == a + (b + c)
  {
  }

  lemma PlayCons(c: seq<Header>, es: seq<DurableEvent>) returns (d: seq<Header>)
    requires es != [] && Play(c, HeaderEvents(es)).Some?
    ensures Step(c, HeaderEvent(es[0])) == Some(d) && Play(d, HeaderEvents(es[1..])) == Play(c, HeaderEvents(es))
    ensures HeaderEvents(es) == [HeaderEvent(es[0])] + HeaderEvents(es[1..])
  {
    assert HeaderEvents(es)[1..] == HeaderEvents(es[1..]) && HeaderEvents(es)[0] == HeaderEvent(es[0]);
    d := Step(c, HeaderEvents(es)[0]).value;
  }

  lemma PlayNothing(c: seq<Header>, es: seq<ChainEvent>)
    requires es == []
    ensures Play(c, es) == Some(c)
  {
  }

  lemma {:induction false} EventsCommit(w: World, t: Tables, c: seq<Header>, id: nat, es: seq<DurableEvent>)
    returns (t': Tables, c': seq<Header>)
    requires Inv(w, t, c) && Play(c, HeaderEvents(es)).Some?
    requires forall i | 0 <= i < |es| :: Storable(es[i]) && Genuine(w, HeaderEvent(es[i]).header)
    ensures RunEvents(t, id, es) == Success(Ran(t', id + |es|))
    ensures Play(c, HeaderEvents(es)) == Some(c') && Inv(w, t', c') && t'.checkpoint == t.checkpoint
    ensures Journal(t'.outbox) == Journal(t.outbox) + HeaderEvents(es)
    decreases |es|
  {
    hide Inv, RunEvent, Play, Step;
    if es == [] {
      t', c' := t, c;
      PlayNothing(c, HeaderEvents(es));
    } else {
      var d := PlayCons(c, es);
      var mid := EventCommits(w, t, c, id, es[0]);
      t', c' := EventsCommit(w, mid, d, id + 1, es[1..]);
      ConcatAssociative(Journal(t.outbox), [HeaderEvent(es[0])], HeaderEvents(es[1..]));
    }
  }

  lemma PlayEndsInApply(c: seq<Header>, es: seq<ChainEvent>)
    requires es != [] && Last(es).Apply? && Play(c, es).Some?
    ensures Play(c, es).value != [] && Last(Play(c, es).value) == Last(es).header
  {
    var n := |es| - 1;
    assert es == es[..n] + [es[n]];
    PlayConcat(c, es[..n], [es[n]]);
    assert [es[n]][1..] == [];
  }

  // A batch that fits always commits: no missing row, no canonical-height clash, no
  // non-canonical checkpoint. The tables then describe the new chain, the checkpoint is
  // its top, and the outbox grew by exactly the batch's transitions, in order.
  lemma BatchCommits(w: World, t: Tables, c: seq<Header>, id: nat, b: DurableBatch)
    requires Inv(w, t, c) && Checkpointed(t, c) && IdsOk(t, id) && Fits(c, b) && Acceptable(w, b)
    ensures var r := RunBatch(t, id, b);
            var d := Play(c, HeaderEvents(b.events)).value;
            && r.Success? && Inv(w, r.value.tables, d) && Checkpointed(r.value.tables, d)
            && IdsOk(r.value.tables, r.value.next)
            && Journal(r.value.tables.outbox) == Journal(t.outbox) + HeaderEvents(b.events)
  {
    if b.events == [] {
      assert HeaderEvents(b.events) == [];
    } else {
      var t', _ := EventsCommit(w, t, c, id, b.events);
      EventsKeepIds(t, id, b.events);
      var d := Play(c, HeaderEvents(b.events)).value;
      if Last(b.events).ApplyBlock? {
        PlayEndsInApply(c, HeaderEvents(b.events));
      }
      var target := Target(b.ancestor, b.events);
      assert d != [] && target == Some(Last(d));
      assert Last(d) in d && Last(d).hash in HashesOf(d);
      CanonicalIsChain(w, t', d);
      assert Last(d).height <= I64_MAX by {
        if Last(b.events).ApplyBlock? { assert Storable(b.events[|b.events| - 1]); } else { TopBelowRollback(c, b); }
      }
    }
  }

  // After a trailing rollback the new top is the parent of a storable header.
  lemma TopBelowRollback(c: seq<Header>, b: DurableBatch)
    requires Linked(c) && Fits(c, b) && b.events != [] && Last(b.events).RollbackBlock?
    requires forall i | 0 <= i < |b.events| :: Storable(b.events[i])
    ensures Last(Play(c, HeaderEvents(b.events)).value).height <= I64_MAX
  {
    var es := HeaderEvents(b.events);
    var n := |es| - 1;
    assert es == es[..n] + [es[n]];
    PlayConcat(c, es[..n], [es[n]]);
    assert [es[n]][1..] == [];
    var before := Play(c, es[..n]).value;
    assert Storable(Last(b.events));
    PlayLinks(c, es[..n]);
    assert Links(before[|before| - 2], Last(before));
  }

  lemma {:induction false} PlayLinks(c: seq<Header>, es: seq<ChainEvent>)
    requires Linked(c) && Play(c, es).Some?
    ensures Linked(Play(c, es).value)
    decreases |es|
  {
    if es != [] {
      match es[0] {
        case Apply(h) => LinkedConcat(c, [h]);
        case Rollback(h) => LinkedSlice(c, 0, |c| - 1);
      }
      PlayLinks(Step(c, es[0]).value, es[1..]);
    }
  }

  lemma {:induction false} UpsertedAreOk(blocks: map<Hash, BlockRow>, logs: map<LogKey, LogRow>, h: Header,
                                         ls: seq<RawLog>)
    requires UpsertLogs(blocks, logs, h, ls).Success?
    ensures forall l | l in ls :: LogOk(l)
    decreases |ls|
  {
    if ls != [] {
      UpsertedAreOk(blocks, UpsertLog(blocks, logs, h, ls[0]).value, h, ls[1..]);
      assert ls == [ls[0]] + ls[1..];
    }
  }

  // Whatever committed was storable.
  lemma {:induction false} CommittedIsStorable(t: Tables, id: nat, es: seq<DurableEvent>)
    requires RunEvents(t, id, es).Success?
    ensures forall i | 0 <= i < |es| :: Storable(es[i])
    decreases |es|
  {
    if es != [] {
      if es[0].ApplyBlock? {
        var up := UpsertRow(t, es[0].block.header).value.tables;
        UpsertedAreOk(up.blocks, up.logs, es[0].block.header, es[0].block.logs);
      }
      var r := RunEvent(t, id, es[0]).value;
      CommittedIsStorable(r.tables, r.next, es[1..]);
      forall i | 0 <= i < |es| ensures Storable(es[i]) {
        if i > 0 { assert es[i] == es[1..][i - 1]; }
      }
    }
  }

  // The outbox is only ever appended to.
  lemma {:induction false} OutboxGrows(t: Tables, id: nat, es: seq<DurableEvent>)
    requires RunEvents(t, id, es).Success?
    ensures t.outbox <= RunEvents(t, id, es).value.tables.outbox
    decreases |es|
  {
    if es != [] {
      var r := RunEvent(t, id, es[0]).value;
      OutboxGrows(r.tables, r.next, es[1..]);
    }
  }

  // ------------------------------------------------------------------ the log rows of a block

  // Logs with one index are one log.
  predicate OneLogPerIndex(ls: seq<RawLog>) {
    forall i, j | 0 <= i < |ls| && 0 <= j < |ls| && ls[i].logIndex == ls[j].logIndex :: ls[i] == ls[j]
  }

  predicate StoredAs(logs: map<LogKey, LogRow>, h: Header, l: RawLog) {
    LogKey(h.hash, l.logIndex) in logs && logs[LogKey(h.hash, l.logIndex)] == LogRow(h.height, l)
  }

  lemma {:induction false} UpsertOther(blocks: map<Hash, BlockRow>, logs: map<LogKey, LogRow>, h: Header,
                                       ls: seq<RawLog>, k: LogKey)
    requires UpsertLogs(blocks, logs, h, ls).Success? && forall l | l in ls :: k != LogKey(h.hash, l.logIndex)
    ensures var out := UpsertLogs(blocks, logs, h, ls).value;
            (k in out <==> k in logs) && (k in logs ==> out[k] == logs[k])
    decreases |ls|
  {
    if ls != [] {
      assert ls[0] in ls && forall l | l in ls[1..] :: l in ls;
      UpsertOther(blocks, UpsertLog(blocks, logs, h, ls[0]).value, h, ls[1..], k);
    }
  }

  lemma {:induction false} UpsertKeys(blocks: map<Hash, BlockRow>, logs: map<LogKey, LogRow>, h: Header,
                                      ls: seq<RawLog>)
    requires UpsertLogs(blocks, logs, h, ls).Success?
    ensures logs.Keys <= UpsertLogs(blocks, logs, h, ls).value.Keys
    ensures forall l | l in ls :: LogKey(h.hash, l.logIndex) in UpsertLogs(blocks, logs, h, ls).value
    decreases |ls|
  {
    if ls != [] {
      UpsertKeys(blocks, UpsertLog(blocks, logs, h, ls[0]).value, h, ls[1..]);
      assert ls == [ls[0]] + ls[1..];
    }
  }

  lemma {:induction false} UpsertStoresAll(blocks: map<Hash, BlockRow>, logs: map<LogKey, LogRow>, h: Header,
                                           ls: seq<RawLog>)
    requires UpsertLogs(blocks, logs, h, ls).Success? && OneLogPerIndex(ls)
    requires forall l | l in ls :: LogKey(h.hash, l.logIndex) in logs ==> StoredAs(logs, h, l)
    ensures forall l | l in ls :: StoredAs(UpsertLogs(blocks, logs, h, ls).value, h, l)
    decreases |ls|
  {
    if ls != [] {
      var l, rest := ls[0], ls[1..];
      assert ls == [l] + rest;
      var mid := UpsertLog(blocks, logs, h, l).value;
      assert StoredAs(mid, h, l);
      forall m | m in rest ensures m.logIndex == l.logIndex ==> m == l {
        var i :| 0 <= i < |rest| && rest[i] == m;
        assert ls[i + 1] == m && ls[0] == l;
      }
      assert OneLogPerIndex(rest) by {
        forall i, j | 0 <= i < |rest| && 0 <= j < |rest| && rest[i].logIndex == rest[j].logIndex
          ensures rest[i] == rest[j] {
          assert rest[i] == ls[i + 1] && rest[j] == ls[j + 1];
        }
      }
      UpsertStoresAll(blocks, mid, h, rest);
      if l !in rest {
        UpsertOther(blocks, mid, h, rest, LogKey(h.hash, l.logIndex));
      }
    }
  }

  // A block none of whose logs is stored yet leaves its log table rows log for log exactly
  // when no two different logs share an index. Its keys are stored either way, every other
  // row is left alone, and the outbox row carries every log.
  lemma LogsStoredLogForLog(t: Tables, id: nat, b: Block)
    requires RunEvent(t, id, ApplyBlock(b)).Success? && forall k | k in t.logs :: k.hash != b.header.hash
    ensures var r := RunEvent(t, id, ApplyBlock(b)).value.tables;
            && ((forall l | l in b.logs :: StoredAs(r.logs, b.header, l)) <==> OneLogPerIndex(b.logs))
            && (forall k ::
                  k in r.logs <==> k in t.logs || exists l :: l in b.logs && k == LogKey(b.header.hash, l.logIndex))
            && (forall k | k in t.logs :: r.logs[k] == t.logs[k])
            && r.outbox == if b.header.hash in t.blocks && t.blocks[b.header.hash].canonical then t.outbox
                           else t.outbox + [OutboxRow(id, Apply(b.header), b.logs)]
  {
    var up := UpsertRow(t, b.header).value.tables;
    var h, ls := b.header, b.logs;
    var out := UpsertLogs(up.blocks, up.logs, h, ls).value;
    UpsertKeys(up.blocks, up.logs, h, ls);
    if OneLogPerIndex(ls) {
      UpsertStoresAll(up.blocks, up.logs, h, ls);
    } else {
      var i, j :| 0 <= i < |ls| && 0 <= j < |ls| && ls[i].logIndex == ls[j].logIndex && ls[i] != ls[j];
      assert ls[i] in ls && ls[j] in ls && !(StoredAs(out, h, ls[i]) && StoredAs(out, h, ls[j]));
    }
    forall k ensures k in out <==> k in t.logs || exists l :: l in ls && k == LogKey(h.hash, l.logIndex) {
      if !(exists l :: l in ls && k == LogKey(h.hash, l.logIndex)) {
        UpsertOther(up.blocks, up.logs, h, ls, k);
      }
    }
    forall k | k in t.logs ensures out[k] == t.logs[k] {
      UpsertOther(up.blocks, up.logs, h, ls, k);
    }
  }

  // Two different logs with one index: the table keeps only the first, the outbox both.
  lemma SecondLogIsLost(t: Tables, id: nat, b: Block, first: RawLog, second: RawLog)
    requires b.logs == [first, second] && first.logIndex == second.logIndex && first.content != second.content
    requires RunEvent(t, id, ApplyBlock(b)).Success? && forall k | k in t.logs :: k.hash != b.header.hash
    requires b.header.hash !in t.blocks
    ensures var r := RunEvent(t, id, ApplyBlock(b)).value.tables;
            && StoredAs(r.logs, b.header, first) && !StoredAs(r.logs, b.header, second)
            && Last(r.outbox).logs == [first, second]
  {
    var up := UpsertRow(t, b.header).value.tables;
    var mid := UpsertLog(up.blocks, up.logs, b.header, first).value;
    assert b.logs[1..] == [second] && b.logs[1..][1..] == [];
    assert UpsertLogs(up.blocks, mid, b.header, [second]) == UpsertLog(up.blocks, mid, b.header, second);
    assert StoredAs(mid, b.header, first);
  }

  // ------------------------------------------------------------------ whole runs

  datatype DbState = DbState(tables: Tables, next: nat, chain: seq<Header>, last: DurableBatch)

  // A writer submits a batch, retries its last batch, or crashes before the commit after
  // drawing some event ids.
  datatype DbAction = Submit(batch: DurableBatch) | Retry | CrashEarly(drawn: nat)

  const NO_BATCH := DurableBatch(Duplicate, None, [])

  function Do(s: DbState, a: DbAction): DbState {
    match a
    case CrashEarly(n) => s.(next := s.next + n)
    case Retry =>
      var r := RunBatch(s.tables, s.next, s.last);
      if r.Failure? then s else s.(tables := r.value.tables, next := r.value.next)
    case Submit(b) =>
      var r := RunBatch(s.tables, s.next, b);
      var d := Play(s.chain, HeaderEvents(b.events));
      if r.Failure? || d.None? then s else DbState(r.value.tables, r.value.next, d.value, b)
  }

  function DoAll(s: DbState, actions: seq<DbAction>): DbState
    decreases |actions|
  {
    if actions == [] then s else DoAll(Do(s, actions[0]), actions[1..])
  }

  // A batch that is submitted fits the chain; whether the columns can hold it is not
  // assumed. Only a batch that names no hash twice is retried.
  ghost predicate Allowed(w: World, s: DbState, actions: seq<DbAction>)
    decreases |actions|
  {
    actions != [] ==>
      && (actions[0].Submit? ==> Fits(s.chain, actions[0].batch) && Believable(w, actions[0].batch))
      && (actions[0].Retry? ==> OncePerHash(s.last.events))
      && Allowed(w, Do(s, actions[0]), actions[1..])
  }

  ghost predicate Good(w: World, s: DbState) {
    && Inv(w, s.tables, s.chain) && Checkpointed(s.tables, s.chain) && IdsOk(s.tables, s.next)
    && (OncePerHash(s.last.events) ==> SettledBatch(s.tables, s.last))
  }

  // A batch that fits and did commit, with nothing assumed about its values.
  lemma CommittedBatch(w: World, t: Tables, c: seq<Header>, id: nat, b: DurableBatch)
    requires Inv(w, t, c) && Checkpointed(t, c) && IdsOk(t, id) && Fits(c, b) && Believable(w, b)
    requires RunBatch(t, id, b).Success?
    ensures var r := RunBatch(t, id, b).value;
            var d := Play(c, HeaderEvents(b.events)).value;
            && Inv(w, r.tables, d) && Checkpointed(r.tables, d) && IdsOk(r.tables, r.next)
            && Journal(r.tables.outbox) == Journal(t.outbox) + HeaderEvents(b.events)
  {
    if b.events != [] {
      CommittedIsStorable(t, id, b.events);
    }
    BatchCommits(w, t, c, id, b);
  }

  lemma StepKeepsGood(w: World, s: DbState, a: DbAction)
    requires Good(w, s) && Allowed(w, s, [a])
    ensures Good(w, Do(s, a))
    ensures !a.Submit? ==> Do(s, a).tables == s.tables && Do(s, a).chain == s.chain
  {
    hide Inv, Checkpointed, RunBatch, SettledBatch;
    match a {
      case CrashEarly(n) =>
      case Retry => SettledIsFixed(s.tables, s.next, s.last);
      case Submit(b) =>
        if RunBatch(s.tables, s.next, b).Success? {
          CommittedBatch(w, s.tables, s.chain, s.next, b);
          if OncePerHash(b.events) { BatchSettles(s.tables, s.next, b); }
        }
    }
  }

  // Over every run of extensions, reorg batches, refusals, retries and crashes from an empty
  // database: the whole outbox folds to exactly the canonical rows, every prefix of it
  // folds to a contiguous linked chain, and the checkpoint is the top.
  lemma {:induction false} RunKeepsGood(w: World, s: DbState, actions: seq<DbAction>)
    requires Good(w, s) && Allowed(w, s, actions)
    ensures Good(w, DoAll(s, actions))
    decreases |actions|
  {
    if actions != [] {
      assert Allowed(w, s, [actions[0]]);
      StepKeepsGood(w, s, actions[0]);
      RunKeepsGood(w, Do(s, actions[0]), actions[1..]);
    }
  }

  lemma OutboxIsHistory(w: World, actions: seq<DbAction>)
    requires Allowed(w, DbState(EMPTY_TABLES, 1, [], NO_BATCH), actions)
    ensures var s := DoAll(DbState(EMPTY_TABLES, 1, [], NO_BATCH), actions);
            var events := Journal(s.tables.outbox);
            && Checkpointed(s.tables, s.chain)
            && Play([], events) == Some(s.chain) && CanonicalRows(s.tables) == (set h | h in s.chain)
            && forall n | 0 <= n <= |events| :: Play([], events[..n]).Some? && Linked(Play([], events[..n]).value)
  {
    var start := DbState(EMPTY_TABLES, 1, [], NO_BATCH);
    assert Journal([]) == [];
    RunKeepsGood(w, start, actions);
    var s := DoAll(start, actions);
    CanonicalIsChain(w, s.tables, s.chain);
    var events := Journal(s.tables.outbox);
    forall n | 0 <= n <= |events| ensures Play([], events[..n]).Some? && Linked(Play([], events[..n]).value) {
      PlayPrefix([], events, n);
      PlayLinks([], events[..n]);
    }
  }

  // ------------------------------------------------------------------ replay

  predicate OncePerHash(es: seq<DurableEvent>) {
    forall i, j | 0 <= i < j < |es| :: HeaderEvent(es[i]).header.hash != HeaderEvent(es[j]).header.hash
  }

  // The decoder value a list of logs leaves behind for a row: the last one given for the
  // same raw log.
  function Latest(ls: seq<RawLog>, key: nat, row: LogRow, version: bool): Option<nat> {
    if ls == [] then None
    else
      var l := ls[0];
      var mine := if l.logIndex == key && SameRaw(row, row.blockNumber, l)
                  then (if version then l.decoderVersion else l.decodedEvent) else None;
      Coalesce(Latest(ls[1..], key, row, version), mine)
  }

  predicate RowStable(row: LogRow, key: nat, ls: seq<RawLog>) {
    && Coalesce(Latest(ls, key, row, false), row.log.decodedEvent) == row.log.decodedEvent
    && Coalesce(Latest(ls, key, row, true), row.log.decoderVersion) == row.log.decoderVersion
  }

  // Every log of the block is stored and upserting the whole list again changes no row.
  predicate LogsStable(logs: map<LogKey, LogRow>, h: Header, ls: seq<RawLog>) {
    && (forall l | l in ls :: LogOk(l) && LogKey(h.hash, l.logIndex) in logs)
    && (forall k | k in logs && k.hash == h.hash && logs[k].blockNumber == h.height ::
        RowStable(logs[k], k.logIndex, ls))
  }

  predicate SameIdentity(a: LogRow, b: LogRow) {
    a.(log := a.log.(decodedEvent := None, decoderVersion := None))
        == b.(log := b.log.(decodedEvent := None, decoderVersion := None))
  }

  lemma {:induction false} LatestByIdentity(ls: seq<RawLog>, key: nat, a: LogRow, b: LogRow, version: bool)
    requires SameIdentity(a, b)
    ensures Latest(ls, key, a, version) == Latest(ls, key, b, version)
    decreases |ls|
  {
    if ls != [] {
      LatestByIdentity(ls[1..], key, a, b, version);
      assert a.blockNumber == b.blockNumber;
      assert a.log.(decodedEvent := None, decoderVersion := None)
          == b.log.(decodedEvent := None, decoderVersion := None);
      assert SameRaw(a, a.blockNumber, ls[0]) == SameRaw(b, b.blockNumber, ls[0]);
    }
  }

  // A row that exists already keeps its identity and takes the latest decoder values.
  lemma {:induction false} UpsertValue(blocks: map<Hash, BlockRow>, logs: map<LogKey, LogRow>, h: Header,
                                       ls: seq<RawLog>, k: LogKey)
    requires UpsertLogs(blocks, logs, h, ls).Success? && k in logs
    ensures var out := UpsertLogs(blocks, logs, h, ls).value;
            && k in out && SameIdentity(out[k], logs[k])
            && (k.hash != h.hash || logs[k].blockNumber != h.height ==> out[k] == logs[k])
            && (k.hash == h.hash && logs[k].blockNumber == h.height ==>
                  && out[k].log.decodedEvent
                      == Coalesce(Latest(ls, k.logIndex, logs[k], false), logs[k].log.decodedEvent)
                  && out[k].log.decoderVersion
                      == Coalesce(Latest(ls, k.logIndex, logs[k], true), logs[k].log.decoderVersion))
    decreases |ls|
  {
    if ls != [] {
      var mid := UpsertLog(blocks, logs, h, ls[0]).value;
      assert SameIdentity(mid[k], logs[k]);
      UpsertValue(blocks, mid, h, ls[1..], k);
      LatestByIdentity(ls[1..], k.logIndex, mid[k], logs[k], false);
      LatestByIdentity(ls[1..], k.logIndex, mid[k], logs[k], true);
    }
  }

  // Whether a log is given for the raw log that the row holds.
  predicate IsFor(l: RawLog, k: LogKey, row: LogRow) {
    l.logIndex == k.logIndex && SameRaw(row, row.blockNumber, l)
  }

  lemma {:induction false} LatestIsLast(ls: seq<RawLog>, k: LogKey, row: LogRow, version: bool, j: int)
    requires -1 <= j < |ls|
    requires forall i | j < i < |ls| && IsFor(ls[i], k, row) ::
               (if version then ls[i].decoderVersion else ls[i].decodedEvent).None?
    requires j >= 0 ==> IsFor(ls[j], k, row) && (if version then ls[j].decoderVersion else ls[j].decodedEvent).Some?
    ensures Latest(ls, k.logIndex, row, version)
         == if j < 0 then None else if version then ls[j].decoderVersion else ls[j].decodedEvent
    decreases |ls|
  {
    if ls != [] {
      LatestIsLast(ls[1..], k, row, version, if j <= 0 then -1 else j - 1);
    }
  }

  // A retained log keeps what was decoded until the same raw log comes with a new decoded
  // value; of several the last one stays. Position -1 stands for none.
  lemma LastDecodingWins(blocks: map<Hash, BlockRow>, logs: map<LogKey, LogRow>, h: Header, ls: seq<RawLog>, k: LogKey,
                         j: int)
    requires UpsertLogs(blocks, logs, h, ls).Success? && k in logs && k.hash == h.hash
    requires logs[k].blockNumber == h.height && -1 <= j < |ls|
    requires forall i | j < i < |ls| && IsFor(ls[i], k, logs[k]) :: ls[i].decodedEvent.None?
    requires j >= 0 ==> IsFor(ls[j], k, logs[k]) && ls[j].decodedEvent.Some?
    ensures var out := UpsertLogs(blocks, logs, h, ls).value;
            k in out && out[k].log.decodedEvent == if j >= 0 then ls[j].decodedEvent else logs[k].log.decodedEvent
  {
    UpsertValue(blocks, logs, h, ls, k);
    LatestIsLast(ls, k, logs[k], false, j);
  }

  // Only rows of this block's logs are ever added, and those carry its height.
  lemma {:induction false} UpsertAdds(blocks: map<Hash, BlockRow>, logs: map<LogKey, LogRow>, h: Header,
                                      ls: seq<RawLog>, k: LogKey)
    requires UpsertLogs(blocks, logs, h, ls).Success? && k in UpsertLogs(blocks, logs, h, ls).value && k !in logs
    ensures k.hash == h.hash && UpsertLogs(blocks, logs, h, ls).value[k].blockNumber == h.height
    decreases |ls|
  {
    if ls != [] {
      var mid := UpsertLog(blocks, logs, h, ls[0]).value;
      if k in mid {
        UpsertValue(blocks, mid, h, ls[1..], k);
      } else {
        UpsertAdds(blocks, mid, h, ls[1..], k);
      }
    }
  }

  lemma {:induction false} UpsertStable(blocks: map<Hash, BlockRow>, logs: map<LogKey, LogRow>, h: Header,
                                        ls: seq<RawLog>)
    requires UpsertLogs(blocks, logs, h, ls).Success?
    ensures LogsStable(UpsertLogs(blocks, logs, h, ls).value, h, ls)
    decreases |ls|
  {
    if ls != [] {
      var l := ls[0];
      var mid := UpsertLog(blocks, logs, h, l).value;
      var key := LogKey(h.hash, l.logIndex);
      var out := UpsertLogs(blocks, logs, h, ls).value;
      UpsertStable(blocks, mid, h, ls[1..]);
      UpsertValue(blocks, mid, h, ls[1..], key);
      forall k | k in out && k.hash == h.hash && out[k].blockNumber == h.height
        ensures RowStable(out[k], k.logIndex, ls) {
        assert RowStable(out[k], k.logIndex, ls[1..]);
        if k == key {
          LatestByIdentity(ls[1..], l.logIndex, out[k], mid[k], false);
          LatestByIdentity(ls[1..], l.logIndex, out[k], mid[k], true);
        }
      }
    }
  }

  lemma StableIsFixed(blocks: map<Hash, BlockRow>, logs: map<LogKey, LogRow>, h: Header, ls: seq<RawLog>)
    requires LogsStable(logs, h, ls) && h.height <= I64_MAX
    ensures UpsertLogs(blocks, logs, h, ls) == Success(logs)
  {
    UpsertSucceeds(blocks, logs, h, ls);
    var out := UpsertLogs(blocks, logs, h, ls).value;
    forall k | k in logs ensures k in out && out[k] == logs[k] {
      UpsertValue(blocks, logs, h, ls, k);
      assert out[k].log.(decodedEvent := None, decoderVersion := None)
          == logs[k].log.(decodedEvent := None, decoderVersion := None);
    }
    assert out == logs;
  }

  lemma {:induction false} UpsertSucceeds(blocks: map<Hash, BlockRow>, logs: map<LogKey, LogRow>, h: Header,
                                          ls: seq<RawLog>)
    requires h.height <= I64_MAX && forall l | l in ls :: LogOk(l) && LogKey(h.hash, l.logIndex) in logs
    ensures UpsertLogs(blocks, logs, h, ls).Success? && UpsertLogs(blocks, logs, h, ls).value.Keys == logs.Keys
    decreases |ls|
  {
    if ls != [] {
      assert LogOk(ls[0]);
      UpsertSucceeds(blocks, UpsertLog(blocks, logs, h, ls[0]).value, h, ls[1..]);
    }
  }

  // Nothing is left to do for this event.
  predicate Settled(t: Tables, e: DurableEvent) {
    match e
    case RollbackBlock(h) =>
      h.height <= I64_MAX && h.hash in t.blocks
          && !(t.blocks[h.hash].canonical && t.blocks[h.hash].header.height == h.height)
    case ApplyBlock(b) =>
      && b.header.height <= I64_MAX
      && b.header.hash in t.blocks && t.blocks[b.header.hash].canonical
      && LogsStable(t.logs, b.header, b.logs)
  }

  predicate SettledBatch(t: Tables, b: DurableBatch) {
    && (forall i | 0 <= i < |b.events| :: Settled(t, b.events[i]))
    && (b.events != [] && Target(b.ancestor, b.events).Some? ==>
        MoveCheckpoint(t, Target(b.ancestor, b.events).value) == Success(t))
  }

  lemma EventSettles(t: Tables, id: nat, e: DurableEvent)
    requires RunEvent(t, id, e).Success?
    ensures Settled(RunEvent(t, id, e).value.tables, e)
  {
    if e.ApplyBlock? {
      var up := UpsertRow(t, e.block.header).value.tables;
      UpsertStable(up.blocks, up.logs, e.block.header, e.block.logs);
    }
  }

  // An event for another hash leaves a settled event settled.
  lemma OtherKeepsSettled(t: Tables, id: nat, e: DurableEvent, other: DurableEvent)
    requires RunEvent(t, id, other).Success? && Settled(t, e)
    requires HeaderEvent(e).header.hash != HeaderEvent(other).header.hash
    ensures Settled(RunEvent(t, id, other).value.tables, e)
  {
    var t' := RunEvent(t, id, other).value.tables;
    if e.ApplyBlock? && other.ApplyBlock? {
      var up := UpsertRow(t, other.block.header).value.tables;
      forall k | k in t.logs && k.hash == e.block.header.hash ensures k in t'.logs && t'.logs[k] == t.logs[k] {
        UpsertValue(up.blocks, up.logs, other.block.header, other.block.logs, k);
      }
      forall k | k in t'.logs && k.hash == e.block.header.hash ensures k in t.logs {
        if k !in t.logs { UpsertAdds(up.blocks, up.logs, other.block.header, other.block.logs, k); }
      }
    }
  }

  lemma {:induction false} EventsKeepSettled(t: Tables, id: nat, e: DurableEvent, es: seq<DurableEvent>)
    requires RunEvents(t, id, es).Success? && Settled(t, e)
    requires forall i | 0 <= i < |es| :: HeaderEvent(es[i]).header.hash != HeaderEvent(e).header.hash
    ensures Settled(RunEvents(t, id, es).value.tables, e)
    decreases |es|
  {
    if es != [] {
      OtherKeepsSettled(t, id, e, es[0]);
      var r := RunEvent(t, id, es[0]).value;
      EventsKeepSettled(r.tables, r.next, e, es[1..]);
    }
  }

  lemma {:induction false} EventsSettle(t: Tables, id: nat, es: seq<DurableEvent>)
    requires RunEvents(t, id, es).Success? && OncePerHash(es)
    ensures forall i | 0 <= i < |es| :: Settled(RunEvents(t, id, es).value.tables, es[i])
    decreases |es|
  {
    if es != [] {
      EventSettles(t, id, es[0]);
      var r := RunEvent(t, id, es[0]).value;
      EventsKeepSettled(r.tables, r.next, es[0], es[1..]);
      assert forall i | 0 <= i < |es[1..]| :: es[1..][i] == es[i + 1];
      EventsSettle(r.tables, r.next, es[1..]);
      forall i | 0 <= i < |es| ensures Settled(RunEvents(t, id, es).value.tables, es[i]) {
        if i > 0 { assert es[i] == es[1..][i - 1]; }
      }
    }
  }

  lemma BatchSettles(t: Tables, id: nat, b: DurableBatch)
    requires RunBatch(t, id, b).Success? && OncePerHash(b.events)
    ensures SettledBatch(RunBatch(t, id, b).value.tables, b)
  {
    if b.events != [] {
      EventsSettle(t, id, b.events);
      var mid, t' := RunEvents(t, id, b.events).value.tables, RunBatch(t, id, b).value.tables;
      forall i | 0 <= i < |b.events| ensures Settled(t', b.events[i]) {
        assert Settled(mid, b.events[i]);
      }
    }
  }

  lemma {:induction false} SettledEventsFixed(t: Tables, id: nat, es: seq<DurableEvent>)
    requires forall i | 0 <= i < |es| :: Settled(t, es[i])
    ensures RunEvents(t, id, es) == Success(Ran(t, id))
    decreases |es|
  {
    if es != [] {
      assert Settled(t, es[0]);
      if es[0].ApplyBlock? {
        StableIsFixed(t.blocks, t.logs, es[0].block.header, es[0].block.logs);
        assert t.(logs := t.logs) == t;
      }
      SettledEventsFixed(t, id, es[1..]);
    }
  }

  lemma SettledIsFixed(t: Tables, id: nat, b: DurableBatch)
    requires SettledBatch(t, b)
    ensures RunBatch(t, id, b) == Success(Ran(t, id))
  {
    SettledEventsFixed(t, id, b.events);
  }

  // Replaying a committed batch is the identity: no row changes, no outbox row is added,
  // no event id is drawn. It needs only that the batch names no hash twice.
  lemma ReplayIsIdentity(t: Tables, id: nat, id': nat, b: DurableBatch)
    requires RunBatch(t, id, b).Success? && OncePerHash(b.events)
    ensures var t' := RunBatch(t, id, b).value.tables;
            RunBatch(t', id', b) == Success(Ran(t', id'))
  {
    BatchSettles(t, id, b);
    SettledIsFixed(RunBatch(t, id, b).value.tables, id', b);
  }

  // Naming a hash twice is what makes a retry unsafe: a batch that rolls the top back,
  // applies it again and extends it commits, and running it again commits too, but rolls
  // back a block with another one on top of it. The outbox is no history any more.
  lemma {:induction false} RetryCanBreak(w: World, t: Tables, c: seq<Header>, id: nat, a: Header, b: Header,
                                         batch: DurableBatch)
    requires Inv(w, t, c) && Checkpointed(t, c) && IdsOk(t, id) && c != [] && Last(c) == a
    requires Links(a, b) && Genuine(w, b) && b.height <= I64_MAX
    requires batch.events == [RollbackBlock(a), ApplyBlock(Block(a, [])), ApplyBlock(Block(b, []))]
    ensures Fits(c, batch) && Acceptable(w, batch) && !OncePerHash(batch.events)
    ensures var r := RunBatch(t, id, batch);
            && r.Success? && Inv(w, r.value.tables, c + [b])
            && var again := RunBatch(r.value.tables, r.value.next, batch);
               again.Success? && Play([], Journal(again.value.tables.outbox)).None?
  {
    var es := batch.events;
    assert HeaderEvents(es) == [Rollback(a), Apply(a), Apply(b)];
    assert a in c && (|c| > 1 ==> Links(c[|c| - 2], c[|c| - 1]));
    PlayTop(c, a, b);
    BatchCommits(w, t, c, id, batch);
    var r := RunBatch(t, id, batch).value;
    BreakingRetry(w, r.tables, c, r.next, a, b, batch);
  }

  lemma {:induction false} PlayTop(c: seq<Header>, a: Header, b: Header)
    requires c != [] && Last(c) == a && Links(a, b) && (|c| > 1 ==> Links(c[|c| - 2], a))
    ensures Play(c, [Rollback(a), Apply(a), Apply(b)]) == Some(c + [b])
  {
    var es := [Rollback(a), Apply(a), Apply(b)];
    var init := c[..|c| - 1];
    assert init + [a] == c;
    assert es[1..] == [Apply(a), Apply(b)] && es[1..][1..] == [Apply(b)] && es[1..][1..][1..] == [];
    assert Play(c, es[1..][1..]) == Some(c + [b]);
    assert Step(init, Apply(a)) == Some(c);
    assert Play(init, es[1..]) == Some(c + [b]);
  }

  lemma {:induction false} BreakingRetry(w: World, t: Tables, c: seq<Header>, id: nat, a: Header, b: Header,
                                         batch: DurableBatch)
    requires Inv(w, t, c + [b]) && c != [] && Last(c) == a && Links(a, b) && b.height <= I64_MAX
    requires batch.events == [RollbackBlock(a), ApplyBlock(Block(a, [])), ApplyBlock(Block(b, []))]
    ensures var again := RunBatch(t, id, batch);
            again.Success? && Play([], Journal(again.value.tables.outbox)).None?
  {
    var es := batch.events;
    var d := c + [b];
    assert d[|c| - 1] == a && a in d && d[|c|] == b && b in d;
    assert a.hash in HashesOf(d) && b.hash in HashesOf(d);
    assert Genuine(w, t.blocks[a.hash].header) && Genuine(w, t.blocks[b.hash].header);
    assert t.blocks[a.hash].header == a && t.blocks[b.hash].header == b;
    DistinctHashes(w, d, |c| - 1, |c|);
    var t1 := RunEvent(t, id, es[0]).value.tables;
    assert t1.outbox == t.outbox + [OutboxRow(id, Rollback(a), [])];
    var t2 := RunEvent(t1, id + 1, es[1]).value.tables;
    assert RunEvent(t1, id + 1, es[1]).Success? && t2.outbox == t1.outbox + [OutboxRow(id + 1, Apply(a), [])];
    assert RunEvent(t2, id + 2, es[2]) == Success(Ran(t2, id + 2));
    assert es[1..][1..] == [es[2]] && es[1..][1..][1..] == [];
    assert RunEvents(t2, id + 2, [es[2]]) == Success(Ran(t2, id + 2));
    assert RunEvents(t1, id + 1, es[1..]) == Success(Ran(t2, id + 2));
    assert RunEvents(t, id, es) == Success(Ran(t2, id + 2));
    AppendPlays(t, OutboxRow(id, Rollback(a), []), d);
    assert Step(d, Rollback(a)).None?;
    assert Journal(t2.outbox) == Journal(t1.outbox) + [Apply(a)];
    PlayConcat([], Journal(t1.outbox), [Apply(a)]);
  }

  // ------------------------------------------------------------------ crash equivalence

  function StripIds(rows: seq<OutboxRow>): seq<OutboxRow> {
    seq(|rows|, i requires 0 <= i < |rows| => rows[i].(id := 0))
  }

  predicate SameUpToIds(a: Tables, b: Tables) {
    a.(outbox := StripIds(a.outbox)) == b.(outbox := StripIds(b.outbox))
  }

  lemma EventIdsDontMatter(t1: Tables, t2: Tables, id1: nat, id2: nat, e: DurableEvent)
    requires SameUpToIds(t1, t2)
    ensures RunEvent(t1, id1, e).Success? <==> RunEvent(t2, id2, e).Success?
    ensures RunEvent(t1, id1, e).Success? ==>
              SameUpToIds(RunEvent(t1, id1, e).value.tables, RunEvent(t2, id2, e).value.tables)
  {
    var a, b := t1.(outbox := StripIds(t1.outbox)), t2.(outbox := StripIds(t2.outbox));
    assert a.blocks == b.blocks && a.index == b.index && a.logs == b.logs && a.checkpoint == b.checkpoint && a.outbox
        == b.outbox;
    forall event: ChainEvent, logs: seq<RawLog>
      ensures StripIds(t1.outbox + [OutboxRow(id1, event, logs)]) == StripIds(t2.outbox + [OutboxRow(id2, event, logs)])
    {
      assert StripIds(t1.outbox + [OutboxRow(id1, event, logs)]) == StripIds(t1.outbox) + [OutboxRow(0, event, logs)];
      assert StripIds(t2.outbox + [OutboxRow(id2, event, logs)]) == StripIds(t2.outbox) + [OutboxRow(0, event, logs)];
    }
  }

  lemma {:induction false} IdsDontMatter(t1: Tables, t2: Tables, id1: nat, id2: nat, es: seq<DurableEvent>)
    requires SameUpToIds(t1, t2)
    ensures RunEvents(t1, id1, es).Success? <==> RunEvents(t2, id2, es).Success?
    ensures RunEvents(t1, id1, es).Success? ==>
              SameUpToIds(RunEvents(t1, id1, es).value.tables, RunEvents(t2, id2, es).value.tables)
    decreases |es|
  {
    if es != [] {
      EventIdsDontMatter(t1, t2, id1, id2, es[0]);
      var r1, r2 := RunEvent(t1, id1, es[0]), RunEvent(t2, id2, es[0]);
      if r1.Success? {
        IdsDontMatter(r1.value.tables, r2.value.tables, r1.value.next, r2.value.next, es[1..]);
      }
    }
  }

  lemma BatchIdsDontMatter(t: Tables, id1: nat, id2: nat, b: DurableBatch)
    ensures RunBatch(t, id1, b).Success? <==> RunBatch(t, id2, b).Success?
    ensures RunBatch(t, id1, b).Success? ==>
              SameUpToIds(RunBatch(t, id1, b).value.tables, RunBatch(t, id2, b).value.tables)
  {
    IdsDontMatter(t, t, id1, id2, b.events);
    var r1, r2 := RunEvents(t, id1, b.events), RunEvents(t, id2, b.events);
    if r1.Success? {
      var a := r1.value.tables.(outbox := StripIds(r1.value.tables.outbox));
      var c := r2.value.tables.(outbox := StripIds(r2.value.tables.outbox));
      assert a.blocks == c.blocks && a.index == c.index && a.logs == c.logs && a.checkpoint == c.checkpoint && a.outbox
          == c.outbox;
    }
  }

  // One attempt as the writer's contract allows it: nothing happened, or all of it did.
  ghost predicate Attempt(t: Tables, t': Tables, b: DurableBatch) {
    t' == t || exists id, next :: RunBatch(t, id, b) == Success(Ran(t', next))
  }

  lemma {:induction false} AttemptsReach(history: seq<Tables>, b: DurableBatch, i: nat)
    requires i < |history| && OncePerHash(b.events)
    requires forall k | 0 < k < |history| :: Attempt(history[k - 1], history[k], b)
    ensures history[i] == history[0] || exists id, next :: RunBatch(history[0], id, b) == Success(Ran(history[i], next))
  {
    if i > 0 {
      AttemptsReach(history, b, i - 1);
      assert Attempt(history[i - 1], history[i], b);
      if history[i - 1] != history[0] && history[i] != history[i - 1] {
        var id, next :| RunBatch(history[0], id, b) == Success(Ran(history[i - 1], next));
        var id', next' :| RunBatch(history[i - 1], id', b) == Success(Ran(history[i], next'));
        ReplayIsIdentity(history[0], id, id', b);
      }
    }
  }

  // Any number of attempts, crashed at any gate before or after the commit, followed by one
  // that finishes, ends in the same blocks, logs, checkpoint and outbox (ids aside) as one
  // clean run of the batch.
  lemma CrashesAreInvisible(history: seq<Tables>, b: DurableBatch, id: nat, cleanId: nat)
    requires history != [] && OncePerHash(b.events)
    requires forall k | 0 < k < |history| :: Attempt(history[k - 1], history[k], b)
    requires RunBatch(history[0], cleanId, b).Success?
    ensures RunBatch(Last(history), id, b).Success?
    ensures SameUpToIds(RunBatch(Last(history), id, b).value.tables, RunBatch(history[0], cleanId, b).value.tables)
  {
    AttemptsReach(history, b, |history| - 1);
    if Last(history) == history[0] {
      BatchIdsDontMatter(history[0], id, cleanId, b);
    } else {
      var done, next :| RunBatch(history[0], done, b) == Success(Ran(Last(history), next));
      ReplayIsIdentity(history[0], done, id, b);
      BatchIdsDontMatter(history[0], done, cleanId, b);
    }
  }
}
