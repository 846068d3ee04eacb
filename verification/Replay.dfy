// When it is safe to run a batch again: exactly when it names no hash twice, and for the
// batches the two reconciliation algorithms make, exactly when the first block they apply
// is not the one they rolled back at that height.
module Replay {
  import opened Wrappers
  import opened Headers
  import opened Chain
  import opened ChainTheory
  import opened Store
  import opened StoreTheory
  import opened ClosedLoop

  // ------------------------------------------------------------------ naming a hash twice

  // No hash is both applied and rolled back.
  predicate OneKind(es: seq<ChainEvent>) {
    forall i, j | 0 <= i < |es| && 0 <= j < |es| && es[i].header.hash == es[j].header.hash ::
      es[i].Apply? == es[j].Apply?
  }

  ghost predicate EventsGenuine(w: World, es: seq<ChainEvent>) {
    forall e | e in es :: Genuine(w, e.header)
  }

  // A block on the chain that is not rolled back cannot be applied again.
  lemma {:induction false} StaysApplied(w: World, c: seq<Header>, es: seq<ChainEvent>, h: Header)
    requires Linked(c) && AllGenuine(w, c) && EventsGenuine(w, es) && Play(c, es).Some?
    requires h in c && Rollback(h) !in es
    ensures Apply(h) !in es
    decreases |es|
  {
    if es != [] {
      var d := Step(c, es[0]).value;
      assert es[0] in es && es == [es[0]] + es[1..];
      match es[0] {
        case Apply(x) =>
          ExtensionIsNew(w, c, x);
          assert x != h;
          LinkedConcat(c, [x]);
          assert h in d;
        case Rollback(x) =>
          assert x != h;
          LinkedSlice(c, 0, |c| - 1);
          assert c == d + [x] && h in d;
      }
      StaysApplied(w, d, es[1..], h);
    }
  }

  // A block off the chain that is not applied cannot be rolled back.
  lemma {:induction false} StaysGone(w: World, c: seq<Header>, es: seq<ChainEvent>, h: Header)
    requires Linked(c) && AllGenuine(w, c) && EventsGenuine(w, es) && Play(c, es).Some?
    requires h !in c && Apply(h) !in es
    ensures Rollback(h) !in es
    decreases |es|
  {
    if es != [] {
      var d := Step(c, es[0]).value;
      assert es[0] in es && es == [es[0]] + es[1..];
      match es[0] {
        case Apply(x) =>
          assert x != h;
          LinkedConcat(c, [x]);
        case Rollback(x) =>
          assert x in c && x != h;
          LinkedSlice(c, 0, |c| - 1);
      }
      StaysGone(w, d, es[1..], h);
    }
  }

  // Transitions that play and are of one kind per hash name every hash once.
  lemma {:induction false} OneKindIsOnce(w: World, c: seq<Header>, es: seq<ChainEvent>)
    requires Linked(c) && AllGenuine(w, c) && EventsGenuine(w, es) && Play(c, es).Some? && OneKind(es)
    ensures DistinctEvents(es)
    decreases |es|
  {
    if es != [] {
      var e, rest := es[0], es[1..];
      var d := FirstIsOnce(w, c, es);
      assert forall i | 0 <= i < |rest| :: rest[i] == es[i + 1];
      OneKindIsOnce(w, d, rest);
      forall i, j | 0 <= i < j < |es| ensures es[i].header.hash != es[j].header.hash {
        if i > 0 { assert es[i] == rest[i - 1] && es[j] == rest[j - 1]; } else { assert es[j] in rest; }
      }
    }
  }

  lemma FirstIsOnce(w: World, c: seq<Header>, es: seq<ChainEvent>) returns (d: seq<Header>)
    requires Linked(c) && AllGenuine(w, c) && EventsGenuine(w, es) && Play(c, es).Some? && OneKind(es) && es != []
    ensures Linked(d) && AllGenuine(w, d) && Play(d, es[1..]).Some? && EventsGenuine(w, es[1..])
    ensures forall e | e in es[1..] :: e.header.hash != es[0].header.hash
  {
    var first, rest := es[0], es[1..];
    d := Step(c, first).value;
    assert first in es && forall e | e in rest :: e in es;
    var h := first.header;
    forall e | e in rest ensures e.header.hash == h.hash ==> e.header == h && e.Apply? == first.Apply? {
      var i :| 0 <= i < |rest| && rest[i] == e;
      assert es[i + 1] == e;
    }
    match first {
      case Apply(x) =>
        LinkedConcat(c, [x]);
        assert d[|c|] == h;
        StaysApplied(w, d, rest, h);
      case Rollback(x) =>
        LinkedSlice(c, 0, |c| - 1);
        RollbackGone(w, c);
        StaysGone(w, d, rest, h);
    }
    forall e | e in rest ensures e.header.hash != h.hash {
      assert e != first;
    }
  }

  lemma RollbackGone(w: World, c: seq<Header>)
    requires Linked(c) && AllGenuine(w, c) && c != []
    ensures Last(c) !in c[..|c| - 1]
  {
    var n := |c| - 1;
    forall i | 0 <= i < n ensures c[..n][i] != c[n] {
      DistinctHashes(w, c, i, n);
    }
  }

  // ------------------------------------------------------------------ runs that change nothing

  // The row of an event's block is as the event would leave it.
  predicate RowSettled(t: Tables, e: DurableEvent) {
    var h := HeaderEvent(e).header;
    h.hash in t.blocks && (e.ApplyBlock? <==> t.blocks[h.hash].canonical)
  }

  lemma {:induction false} RunDrawsIds(t: Tables, id: nat, es: seq<DurableEvent>)
    requires RunEvents(t, id, es).Success?
    ensures RunEvents(t, id, es).value.next >= id
    decreases |es|
  {
    if es != [] {
      var r := RunEvent(t, id, es[0]).value;
      RunDrawsIds(r.tables, r.next, es[1..]);
    }
  }

  // A run that draws no event id found every block row as it leaves it.
  lemma {:induction false} IdleIsSettled(w: World, t: Tables, id: nat, es: seq<DurableEvent>)
    requires RunEvents(t, id, es).Success? && RunEvents(t, id, es).value.next == id
    requires forall x | x in t.blocks :: t.blocks[x].header.hash == x && Genuine(w, t.blocks[x].header)
    requires forall i | 0 <= i < |es| :: Genuine(w, HeaderEvent(es[i]).header)
    ensures forall i | 0 <= i < |es| :: RowSettled(t, es[i])
    decreases |es|
  {
    if es != [] {
      var r := RunEvent(t, id, es[0]).value;
      RunDrawsIds(r.tables, r.next, es[1..]);
      assert Genuine(w, HeaderEvent(es[0]).header);
      IdleEvent(w, t, id, es[0]);
      assert forall i | 0 <= i < |es[1..]| :: es[1..][i] == es[i + 1];
      IdleIsSettled(w, r.tables, r.next, es[1..]);
      forall i | 0 <= i < |es| ensures RowSettled(t, es[i]) {
        if i > 0 { assert es[i] == es[1..][i - 1]; }
      }
    }
  }

  lemma IdleEvent(w: World, t: Tables, id: nat, e: DurableEvent)
    requires RunEvent(t, id, e).Success? && RunEvent(t, id, e).value.next == id
    requires forall x | x in t.blocks :: t.blocks[x].header.hash == x && Genuine(w, t.blocks[x].header)
    requires Genuine(w, HeaderEvent(e).header)
    ensures RowSettled(t, e) && RunEvent(t, id, e).value.tables.blocks == t.blocks
  {
    var h := HeaderEvent(e).header;
    assert h.hash in t.blocks ==> t.blocks[h.hash].header == h;
  }

  lemma SettledIsOneKind(t: Tables, es: seq<DurableEvent>)
    requires forall i | 0 <= i < |es| :: RowSettled(t, es[i])
    ensures OneKind(HeaderEvents(es))
  {
    var hs := HeaderEvents(es);
    forall i, j | 0 <= i < |hs| && 0 <= j < |hs| && hs[i].header.hash == hs[j].header.hash
      ensures hs[i].Apply? == hs[j].Apply? {
      assert RowSettled(t, es[i]) && RowSettled(t, es[j]);
    }
  }

  // Exactly the batches that name no hash twice change nothing when run again.
  lemma ReplayExactly(w: World, t: Tables, c: seq<Header>, id: nat, id': nat, b: DurableBatch)
    requires Inv(w, t, c) && Checkpointed(t, c) && IdsOk(t, id) && Fits(c, b) && Believable(w, b)
    requires RunBatch(t, id, b).Success?
    ensures var t' := RunBatch(t, id, b).value.tables;
            RunBatch(t', id', b) == Success(Ran(t', id')) <==> OncePerHash(b.events)
  {
    hide RunBatch;
    var t' := RunBatch(t, id, b).value.tables;
    if OncePerHash(b.events) {
      ReplayIsIdentity(t, id, id', b);
    }
    if RunBatch(t', id', b) == Success(Ran(t', id')) {
      CommittedBatch(w, t, c, id, b);
      IdleBatchIsOnce(w, t', Play(c, HeaderEvents(b.events)).value, c, id', b);
    }
  }

  lemma IdleBatchIsOnce(w: World, t: Tables, d: seq<Header>, c: seq<Header>, id: nat, b: DurableBatch)
    requires Inv(w, t, d) && Linked(c) && AllGenuine(w, c) && Fits(c, b) && Believable(w, b)
    requires RunBatch(t, id, b) == Success(Ran(t, id))
    ensures OncePerHash(b.events)
  {
    var es := HeaderEvents(b.events);
    if b.events != [] {
      IdleIsSettled(w, t, id, b.events);
      SettledIsOneKind(t, b.events);
      assert EventsGenuine(w, es) by {
        forall e | e in es ensures Genuine(w, e.header) {
          var i :| 0 <= i < |es| && es[i] == e;
          assert e == HeaderEvent(b.events[i]);
        }
      }
      OneKindIsOnce(w, c, es);
      DistinctIsOnce(b.events);
    }
  }

  lemma DistinctIsOnce(es: seq<DurableEvent>)
    ensures DistinctEvents(HeaderEvents(es)) <==> OncePerHash(es)
  {
    var hs := HeaderEvents(es);
    if DistinctEvents(hs) {
      forall i, j | 0 <= i < j < |es| ensures HeaderEvent(es[i]).header.hash != HeaderEvent(es[j]).header.hash {
        assert hs[i].header.hash != hs[j].header.hash;
      }
    }
    if OncePerHash(es) {
      forall i, j | 0 <= i < j < |hs| ensures hs[i].header.hash != hs[j].header.hash {
        assert HeaderEvent(es[i]).header.hash != HeaderEvent(es[j]).header.hash;
      }
    }
  }

  // ------------------------------------------------------------------ the first applied block

  function Replacement(c: seq<Header>, i: nat, up: seq<Header>): seq<ChainEvent>
    requires i < |c|
  {
    Rollbacks(Reverse(c[i + 1..])) + Applies(up)
  }

  // Whether the branch starts with another block than the one it replaces.
  predicate Diverges(c: seq<Header>, i: nat, up: seq<Header>)
    requires i < |c|
  {
    i + 1 == |c| || up == [] || up[0] != c[i + 1]
  }

  // A branch that starts differently shares no block with the chain.
  lemma DivergesIsNew(w: World, c: seq<Header>, i: nat, up: seq<Header>)
    requires Linked(c) && AllGenuine(w, c) && i < |c| && Linked([c[i]] + up) && AllGenuine(w, up)
    requires Diverges(c, i, up)
    ensures forall h | h in up :: h.hash !in HashesOf(c)
  {
    forall h | h in up ensures h.hash !in HashesOf(c) {
      var k :| 0 <= k < |up| && up[k] == h;
      HashMeansMember(w, c, h);
      if h in c {
        SharedMeansSame(w, c, i, up, k);
        assert false;
      }
    }
  }

  lemma SharedMeansSame(w: World, c: seq<Header>, i: nat, up: seq<Header>, k: nat)
    requires Linked(c) && AllGenuine(w, c) && i < |c| && Linked([c[i]] + up) && AllGenuine(w, up)
    requires k < |up| && up[k] in c
    ensures i + 1 + k < |c| && up[..k + 1] == c[i + 1..i + 1 + k + 1]
  {
    var run := [c[i]] + up;
    var m :| 0 <= m < |c| && c[m] == up[k];
    HeightAt(run, k + 1);
    HeightAt(c, i);
    HeightAt(c, m);
    assert run[k + 1] == up[k] && m == i + 1 + k;
    LinkedSlice(c, i + 1, m + 1);
    LinkedSlice(run, 1, k + 2);
    hide Linked;
    var a, b := up[..k + 1], c[i + 1..m + 1];
    assert run[1..k + 2] == a;
    assert Last(a) == Last(b) && |a| == |b|;
    RunsAgree(w, a, b);
    assert b[|b| - |a|..] == b;
  }

  // A replacement names a block twice exactly when its branch starts with the block it
  // rolled back.
  lemma ReplacementOnce(w: World, c: seq<Header>, i: nat, up: seq<Header>)
    requires Linked(c) && AllGenuine(w, c) && i < |c| && Linked([c[i]] + up) && AllGenuine(w, up)
    ensures DistinctEvents(Replacement(c, i, up)) <==> Diverges(c, i, up)
  {
    var es, n := Replacement(c, i, up), |c| - 1 - i;
    if Diverges(c, i, up) {
      DivergesIsNew(w, c, i, up);
      LinkedSlice([c[i]] + up, 1, 1 + |up|);
      assert ([c[i]] + up)[1..1 + |up|] == up;
      DiffIsDistinct(w, c, i + 1, up);
    } else {
      assert es[n - 1] == Rollback(c[i + 1]) && es[n] == Apply(up[0]);
    }
  }

  // A head's batch names a block twice exactly when its branch starts with the stored block
  // above the ancestor, which a lookup that went missing can make it do.
  lemma HeadOnceExactly(w: World, t: Tables, c: seq<Header>, o: Oracle, cache: map<Hash, Header>, head: Header,
                        clock: nat,
                        maxDepth: nat, finalized: Option<nat>) returns (i: nat, up: seq<Header>)
    requires Inv(w, t, c) && c != [] && Truthful(w, o) && MayMiss(o, t) && CacheTruth(w, cache)
    requires Genuine(w, head) && maxDepth >= 1
    requires !EarlyDuplicate(TipView(Last(c), maxDepth, finalized), head)
    requires ApplyFn(TipView(Last(c), maxDepth, finalized), cache, o, head, clock).Success?
    ensures var b := ApplyFn(TipView(Last(c), maxDepth, finalized), cache, o, head, clock).value;
            && i < |c| && b.ancestor == Some(c[i]) && b.events == Replacement(c, i, up)
            && (DistinctEvents(b.events) <==> Diverges(c, i, up))
  {
    hide ApplyFn;
    i, up := HeadShape(w, t, c, o, cache, head, clock, maxDepth, finalized);
    ReplacementOnce(w, c, i, up);
  }

  // Lookups that answer from the tables except for one block, whose two lookups fail.
  function MissingOne(w: World, t: Tables, p: Header): Oracle {
    Oracle((n: nat, x: Hash) => Found(w(x)),
           (x: Hash) => if x == p.hash then Missing else ToLookup(CanonicalByHash(t, x)),
           (k: nat) => if k == p.height then Missing else ToLookup(CanonicalAtHeight(t, k)))
  }

  // It happens: the store holds g, p and a, the head is another child of p, and the lookups
  // of p fail. The batch rolls p back and applies it again.
  lemma HeadCanRepeat(w: World, t: Tables, g: Header, p: Header, a: Header, x: Header)
    requires Inv(w, t, [g, p, a]) && Links(p, x) && Genuine(w, x) && x != a
    requires forall h: Hash :: Genuine(w, w(h))
    ensures Truthful(w, MissingOne(w, t, p)) && MayMiss(MissingOne(w, t, p), t)
    ensures var b := ApplyFn(TipView(a, 2, None), map[a.hash := a], MissingOne(w, t, p), x, 0);
            && b == Success(ChainBatch(Reorg, Some(g), [Rollback(a), Rollback(p), Apply(p), Apply(x)]))
            && !DistinctEvents(b.value.events)
  {
    hide ApplyFn, DiffBatch;
    var c := [g, p, a];
    assert c[0] == g && c[1] == p && c[2] == a && Links(c[0], c[1]) && Links(c[1], c[2]);
    assert g in c && p in c && a in c;
    MissingOneIsFair(w, t, c, p);
    RepeatingWalks(w, t, c, g, p, a, x);
    RepeatingDiff(g, p, a, x);
    var es := [Rollback(a), Rollback(p), Apply(p), Apply(x)];
    assert es[1].header.hash == es[2].header.hash;
  }

  lemma MissingOneIsFair(w: World, t: Tables, c: seq<Header>, p: Header)
    requires Inv(w, t, c) && forall h: Hash :: Genuine(w, w(h))
    ensures Truthful(w, MissingOne(w, t, p)) && MayMiss(MissingOne(w, t, p), t)
  {
    CanonicalIsChain(w, t, c);
    MapOfLookup(c);
    assert forall k | k in MapOf(c) :: MapOf(c)[k] in c;
  }

  lemma RepeatingDiff(g: Header, p: Header, a: Header, x: Header)
    ensures DiffBatch(g, [a, p], [x, p]) == ChainBatch(Reorg, Some(g), [Rollback(a), Rollback(p), Apply(p), Apply(x)])
  {
    assert Reverse([x, p]) == [p, x];
    assert Rollbacks([a, p]) + Applies([p, x]) == [Rollback(a), Rollback(p), Apply(p), Apply(x)];
  }

  lemma RepeatingWalks(w: World, t: Tables, c: seq<Header>, g: Header, p: Header, a: Header, x: Header)
    requires Inv(w, t, c) && c == [g, p, a] && Links(g, p) && Links(p, a) && Links(p, x) && Genuine(w, x) && x != a
    requires Genuine(w, g) && Genuine(w, p) && Genuine(w, a)
    ensures var o := MissingOne(w, t, p);
            ApplyFn(TipView(a, 2, None), map[a.hash := a], o, x, 0) == Success(DiffBatch(g, [a, p], [x, p]))
  {
    var v, cache, o := TipView(a, 2, None), map[a.hash := a], MissingOne(w, t, p);
    RepeatingMatches(w, t, c, g, p, a, x);
    var d0: seq<Header>, d1: seq<Header>, d2: seq<Header> := [], [] + [x], [] + [x] + [p];
    assert d1 == [x] && d2 == [x, p];
    assert ParentFor(v, cache, o, x, 0) == Timed(Success(p), 1);
    assert ParentFor(v, cache, o, p, 1) == Timed(Success(g), 2);
    assert AncestorWalk(v, cache, o, g, d2, 2) == Timed(Success((g, d2)), 2);
    assert AncestorWalk(v, cache, o, p, d1, 1) == Timed(Success((g, d2)), 2);
    assert AncestorWalk(v, cache, o, x, d0, 0) == Timed(Success((g, d2)), 2);
    var r1: seq<Header>, r2: seq<Header> := [] + [a], [] + [a] + [p];
    assert r1 == [a] && r2 == [a, p];
    assert ParentFor(v, cache, o, a, 2) == Timed(Success(p), 3);
    assert ParentFor(v, cache, o, p, 3) == Timed(Success(g), 4);
    assert RollbackWalk(v, cache, o, g, g, r2, 4) == Timed(Success(r2), 4);
    assert RollbackWalk(v, cache, o, p, g, r1, 3) == Timed(Success(r2), 4);
    assert RollbackWalk(v, cache, o, a, g, d0, 2) == Timed(Success(r2), 4);
  }

  lemma RepeatingMatches(w: World, t: Tables, c: seq<Header>, g: Header, p: Header, a: Header, x: Header)
    requires Inv(w, t, c) && c == [g, p, a] && Links(g, p) && Links(p, a) && Links(p, x) && Genuine(w, x) && x != a
    ensures var v, o := TipView(a, 2, None), MissingOne(w, t, p);
            && CanonicalMatch(v, o, x) == Success(None) && CanonicalMatch(v, o, p) == Success(None)
            && CanonicalMatch(v, o, g) == Success(Some(g))
            && !EarlyDuplicate(v, x) && x.parentHash != a.hash && a.hash != p.hash
  {
    CanonicalIsChain(w, t, c);
    MapOfLookup(c);
    assert c[0] == g && c[1] == p && c[2] == a && g in c && p in c && a in c;
    HashMeansMember(w, c, x);
    DistinctHashes(w, c, 0, 1);
    DistinctHashes(w, c, 1, 2);
    assert x.hash !in HashesOf(c);
    assert MapOf(c)[x.height] == a;
  }

  // ------------------------------------------------------------------ what running again does to the history

  lemma CommonPrefix(a: seq<Header>, b: seq<Header>) returns (j: nat)
    ensures j <= |a| && j <= |b| && a[..j] == b[..j] && (j < |a| && j < |b| ==> a[j] != b[j])
  {
    j := 0;
    while j < |a| && j < |b| && a[j] == b[j]
      invariant j <= |a| && j <= |b| && a[..j] == b[..j]
    {
      j := j + 1;
    }
  }

  lemma {:induction false} Skipped(t: Tables, id: nat, es: seq<DurableEvent>, q: nat)
    requires q <= |es| && forall k | 0 <= k < q :: RunEvent(t, id, es[k]) == Success(Ran(t, id))
    ensures RunEvents(t, id, es) == RunEvents(t, id, es[q..])
    decreases q
  {
    if q > 0 {
      assert forall k | 0 <= k < q - 1 :: es[1..][k] == es[k + 1];
      Skipped(t, id, es[1..], q - 1);
      assert es[1..][q - 1..] == es[q..];
    }
  }

  // A journal that does not play never plays again.
  lemma BrokenStays(t: Tables, id: nat, es: seq<DurableEvent>)
    requires Play([], Journal(t.outbox)).None? && RunEvents(t, id, es).Success?
    ensures Play([], Journal(RunEvents(t, id, es).value.tables.outbox)).None?
  {
    OutboxGrows(t, id, es);
    var more := RunEvents(t, id, es).value.tables.outbox;
    assert Journal(more) == Journal(t.outbox) + Journal(more[|t.outbox|..]);
    PlayConcat([], Journal(t.outbox), Journal(more[|t.outbox|..]));
  }

  // A rollback of a canonical block that is not the top breaks the journal for good.
  lemma BreakingRollback(w: World, t: Tables, d: seq<Header>, id: nat, es: seq<DurableEvent>, h: Header)
    requires Inv(w, t, d) && h in d && h != Last(d) && es != [] && es[0] == RollbackBlock(h)
    requires RunEvents(t, id, es).Success?
    ensures Play([], Journal(RunEvents(t, id, es).value.tables.outbox)).None?
  {
    assert h.hash in HashesOf(d) && Genuine(w, t.blocks[h.hash].header);
    var r := RunEvent(t, id, es[0]).value;
    assert r.tables.outbox == t.outbox + [OutboxRow(id, Rollback(h), [])];
    AppendPlays(t, OutboxRow(id, Rollback(h), []), d);
    BrokenStays(r.tables, r.next, es[1..]);
  }

  // A committed batch that replaces the chain above position i by a branch.
  ghost predicate Replaced(w: World, t: Tables, c: seq<Header>, id: nat, b: DurableBatch, i: nat, up: seq<Header>) {
    && Inv(w, t, c) && Checkpointed(t, c) && IdsOk(t, id) && i < |c|
    && Linked([c[i]] + up) && AllGenuine(w, up) && Believable(w, b)
    && b.ancestor == Some(c[i]) && HeaderEvents(b.events) == Replacement(c, i, up)
    && RunBatch(t, id, b).Success?
  }

  lemma ReplacedHolds(w: World, t: Tables, c: seq<Header>, id: nat, b: DurableBatch, i: nat, up: seq<Header>)
    requires Replaced(w, t, c, id, b, i, up)
    ensures var r := RunBatch(t, id, b).value;
            Inv(w, r.tables, c[..i + 1] + up) && IdsOk(r.tables, r.next)
    ensures Play(c, HeaderEvents(b.events)) == Some(c[..i + 1] + up)
  {
    hide Inv, RunBatch, IdsOk;
    var run := [c[i]] + up;
    LinkedSlice(run, 1, 1 + |up|);
    assert run[1..1 + |up|] == up && (up != [] ==> Links(run[0], run[1]));
    assert Linked(c) by { LinkedOfInv(w, t, c); }
    PlayReplaceSuffix(c, i + 1, up);
    assert up != [] ==> Last(b.events).ApplyBlock? by {
      if up != [] { assert HeaderEvents(b.events)[|b.events| - 1] == Applies(up)[|up| - 1]; }
    }
    assert up == [] ==> c[..i + 1] + up == c[..i + 1];
    CommittedBatch(w, t, c, id, b);
  }

  // The blocks above the part the branch shares are not canonical any more, so their
  // rollbacks find nothing to do.
  lemma UnsharedGone(w: World, c: seq<Header>, i: nat, up: seq<Header>, j: nat, m: nat)
    requires Linked(c) && AllGenuine(w, c) && i < |c| && Linked([c[i]] + up) && AllGenuine(w, up)
    requires j <= |up| && (j < |up| && i + 1 + j < |c| ==> up[j] != c[i + 1 + j])
    requires i + 1 + j <= m < |c|
    ensures c[m].hash !in HashesOf(c[..i + 1] + up)
  {
    var d := c[..i + 1] + up;
    forall n | 0 <= n < |d| ensures d[n].hash != c[m].hash {
      if n <= i {
        DistinctHashes(w, c, n, m);
      } else {
        var k := n - (i + 1);
        assert d[n] == up[k] && up[k] in up && c[m] in c;
        if up[k] == c[m] {
          SharedHeight(w, c, i, up, k, m);
          SharedPrefix(w, c, i, up, k, j);
          assert false;
        }
      }
    }
  }

  lemma SharedPrefix(w: World, c: seq<Header>, i: nat, up: seq<Header>, k: nat, j: nat)
    requires Linked(c) && AllGenuine(w, c) && i < |c| && Linked([c[i]] + up) && AllGenuine(w, up)
    requires j <= k < |up| && up[k] in c
    ensures i + 1 + j < |c| && up[j] == c[i + 1 + j]
  {
    SharedMeansSame(w, c, i, up, k);
    assert up[..k + 1][j] == up[j] && c[i + 1..i + 1 + k + 1][j] == c[i + 1 + j];
  }

  lemma SharedHeight(w: World, c: seq<Header>, i: nat, up: seq<Header>, k: nat, m: nat)
    requires Linked(c) && i < |c| && Linked([c[i]] + up) && k < |up| && m < |c| && up[k] == c[m]
    ensures m == i + 1 + k
  {
    var run := [c[i]] + up;
    HeightAt(run, k + 1);
    HeightAt(c, i);
    HeightAt(c, m);
    assert run[k + 1] == up[k];
  }

  lemma GoneSkips(w: World, t: Tables, d: seq<Header>, id: nat, h: Header)
    requires Inv(w, t, d) && h.hash !in HashesOf(d) && h.hash in t.blocks && h.height <= I64_MAX
    ensures RunEvent(t, id, RollbackBlock(h)) == Success(Ran(t, id))
  {
  }

  // Every block a committed batch names has a row.
  lemma {:induction false} NamedHaveRows(t: Tables, id: nat, es: seq<DurableEvent>)
    requires RunEvents(t, id, es).Success?
    ensures t.blocks.Keys <= RunEvents(t, id, es).value.tables.blocks.Keys
    ensures forall k | 0 <= k < |es| :: HeaderEvent(es[k]).header.hash in RunEvents(t, id, es).value.tables.blocks
    decreases |es|
  {
    if es != [] {
      var r := RunEvent(t, id, es[0]).value;
      NamedHaveRows(r.tables, r.next, es[1..]);
      forall k | 0 <= k < |es|
        ensures HeaderEvent(es[k]).header.hash in RunEvents(t, id, es).value.tables.blocks {
        if k > 0 { assert es[k] == es[1..][k - 1]; }
      }
    }
  }

  // Running the batch again starts with the rollback of the last shared block.
  lemma RetrySkips(w: World, t: Tables, c: seq<Header>, id: nat, id': nat, b: DurableBatch, i: nat, up: seq<Header>,
                   j: nat)
    requires Replaced(w, t, c, id, b, i, up)
    requires 0 < j <= |up| && i + 1 + j <= |c| && up[..j] == c[i + 1..i + 1 + j]
    requires j < |up| && i + 1 + j < |c| ==> up[j] != c[i + 1 + j]
    ensures var t' := RunBatch(t, id, b).value.tables;
            var q := |c| - 1 - i - j;
            && q < |b.events| && b.events[q] == RollbackBlock(up[j - 1])
            && RunEvents(t', id', b.events) == RunEvents(t', id', b.events[q..])
            && HeaderEvents(b.events[q..]) == Replacement(c[..i + 1] + up[..j], i, up)
  {
    hide Linked, AllGenuine, Inv, RunBatch, IdsOk, Believable, Replacement;
    var t', q := RunBatch(t, id, b).value.tables, |c| - 1 - i - j;
    forall k | 0 <= k < q ensures k < |b.events| && RunEvent(t', id', b.events[k]) == Success(Ran(t', id')) {
      SkipsOne(w, t, c, id, id', b, i, up, j, k);
    }
    ReplacementAt(c, i, up, q);
    assert HeaderEvents(b.events)[q] == Rollback(c[i + j]);
    Skipped(t', id', b.events, q);
    assert c[i + 1..i + 1 + j][j - 1] == c[i + j] && up[..j][j - 1] == up[j - 1];
    TailOfReplacement(c, i, up, j);
    assert HeaderEvents(b.events[q..]) == Replacement(c, i, up)[q..];
  }

  lemma ReplacementAt(c: seq<Header>, i: nat, up: seq<Header>, k: nat)
    requires i < |c| && k < |c| - 1 - i
    ensures |Replacement(c, i, up)| == |c| - 1 - i + |up| && Replacement(c, i, up)[k] == Rollback(c[|c| - 1 - k])
  {
  }

  lemma SkipsOne(w: World, t: Tables, c: seq<Header>, id: nat, id': nat, b: DurableBatch, i: nat, up: seq<Header>,
                 j: nat, k: nat)
    requires Replaced(w, t, c, id, b, i, up)
    requires j <= |up| && (j < |up| && i + 1 + j < |c| ==> up[j] != c[i + 1 + j])
    requires i + 1 + j + k < |c|
    ensures var t' := RunBatch(t, id, b).value.tables;
            k < |b.events| && RunEvent(t', id', b.events[k]) == Success(Ran(t', id'))
  {
    hide Inv, Linked, AllGenuine, RunEvents, IdsOk, Believable, Replacement;
    var t', h := RunBatch(t, id, b).value.tables, c[|c| - 1 - k];
    ReplacementAt(c, i, up, k);
    assert HeaderEvents(b.events)[k] == Rollback(h);
    ReplacedHolds(w, t, c, id, b, i, up);
    LinkedOfInv(w, t, c);
    NamedHaveRows(t, id, b.events);
    CommittedIsStorable(t, id, b.events);
    UnsharedGone(w, c, i, up, j, |c| - 1 - k);
    assert Storable(b.events[k]) && HeaderEvent(b.events[k]).header.hash in t'.blocks;
    GoneSkips(w, t', c[..i + 1] + up, id', h);
  }

  lemma TailOfReplacement(c: seq<Header>, i: nat, up: seq<Header>, j: nat)
    requires i < |c| && j <= |up| && i + 1 + j <= |c| && up[..j] == c[i + 1..i + 1 + j]
    ensures Replacement(c, i, up)[|c| - 1 - i - j..] == Replacement(c[..i + 1] + up[..j], i, up)
  {
    var short, q := c[..i + 1] + up[..j], |c| - 1 - i - j;
    assert short[i + 1..] == up[..j];
    var rest := Rollbacks(Reverse(c[i + 1..]))[q..];
    forall k | 0 <= k < j ensures rest[k] == Rollbacks(Reverse(up[..j]))[k] {
      assert rest[k] == Rollback(c[i + 1..][j - 1 - k]);
      assert c[i + 1..i + 1 + j][j - 1 - k] == c[i + 1..][j - 1 - k];
    }
    assert rest == Rollbacks(Reverse(up[..j]));
  }

  // Running a committed replacement again keeps the outbox a history exactly when the
  // branch starts differently, or is nothing but the start of what it replaced.
  lemma RetryKeepsHistory(w: World, t: Tables, c: seq<Header>, id: nat, b: DurableBatch, i: nat, up: seq<Header>)
    requires Replaced(w, t, c, id, b, i, up)
    requires var r := RunBatch(t, id, b).value; RunBatch(r.tables, r.next, b).Success?
    ensures var r := RunBatch(t, id, b).value;
            Play([], Journal(RunBatch(r.tables, r.next, b).value.tables.outbox)).Some?
            <==> Diverges(c, i, up) || up <= c[i + 1..]
  {
    var j := CommonPrefix(up, c[i + 1..]);
    if Diverges(c, i, up) {
      SafeRetry(w, t, c, id, b, i, up);
    } else {
      assert c[i + 1..][0] == c[i + 1] && up[0] == c[i + 1];
      assert c[i + 1..][..j] == c[i + 1..i + 1 + j];
      if j < |up| {
        UnsafeRetry(w, t, c, id, b, i, up, j);
        assert i + 1 + j < |c| ==> up[j] != c[i + 1..][j];
      } else {
        RepeatedRetry(w, t, c, id, b, i, up);
      }
    }
  }

  lemma SafeRetry(w: World, t: Tables, c: seq<Header>, id: nat, b: DurableBatch, i: nat, up: seq<Header>)
    requires Replaced(w, t, c, id, b, i, up) && Diverges(c, i, up)
    ensures var r := RunBatch(t, id, b).value;
            var again := RunBatch(r.tables, r.next, b);
            again.Success? && Play([], Journal(again.value.tables.outbox)).Some?
  {
    hide Linked, RunBatch, Diverges, Play;
    var r := RunBatch(t, id, b).value;
    LinkedOfInv(w, t, c);
    ReplacementOnce(w, c, i, up);
    DistinctIsOnce(b.events);
    ReplayIsIdentity(t, id, r.next, b);
    ReplacedHolds(w, t, c, id, b, i, up);
  }

  lemma UnsafeRetry(w: World, t: Tables, c: seq<Header>, id: nat, b: DurableBatch, i: nat, up: seq<Header>, j: nat)
    requires Replaced(w, t, c, id, b, i, up)
    requires 0 < j < |up| && i + 1 + j <= |c| && up[..j] == c[i + 1..i + 1 + j]
    requires i + 1 + j < |c| ==> up[j] != c[i + 1 + j]
    requires var r := RunBatch(t, id, b).value; RunBatch(r.tables, r.next, b).Success?
    ensures var r := RunBatch(t, id, b).value;
            Play([], Journal(RunBatch(r.tables, r.next, b).value.tables.outbox)).None?
  {
    hide Linked, AllGenuine, Play, Inv, RunBatch, RunEvents, Replacement, IdsOk, Believable, HeaderEvents;
    var r := RunBatch(t, id, b).value;
    var q := |c| - 1 - i - j;
    RetrySkips(w, t, c, id, r.next, b, i, up, j);
    ReplacedHolds(w, t, c, id, b, i, up);
    LinkedOfInv(w, r.tables, c[..i + 1] + up);
    SharedIsBuried(w, c[..i + 1], up, j);
    BatchIsEvents(r.tables, r.next, b);
    BatchBreaks(w, r.tables, c[..i + 1] + up, r.next, b, q, up[j - 1]);
  }

  lemma SharedIsBuried(w: World, base: seq<Header>, up: seq<Header>, j: nat)
    requires Linked(base + up) && AllGenuine(w, base + up) && 0 < j < |up|
    ensures up[j - 1] in base + up && up[j - 1] != Last(base + up)
  {
    var d := base + up;
    assert d[|base| + j - 1] == up[j - 1] && d[|d| - 1] == up[|up| - 1];
    DistinctHashes(w, d, |base| + j - 1, |d| - 1);
  }

  lemma BatchBreaks(w: World, t: Tables, d: seq<Header>, id: nat, b: DurableBatch, q: nat, h: Header)
    requires Inv(w, t, d) && h in d && h != Last(d) && q < |b.events| && b.events[q] == RollbackBlock(h)
    requires RunBatch(t, id, b).Success? && RunEvents(t, id, b.events) == RunEvents(t, id, b.events[q..])
    ensures Play([], Journal(RunBatch(t, id, b).value.tables.outbox)).None?
  {
    BatchIsEvents(t, id, b);
    BreakingRollback(w, t, d, id, b.events[q..], h);
  }

  // The branch is the start of what it replaced: running it again rolls all of it back and
  // applies it once more.
  lemma RepeatedRetry(w: World, t: Tables, c: seq<Header>, id: nat, b: DurableBatch, i: nat, up: seq<Header>)
    requires Replaced(w, t, c, id, b, i, up) && up != []
    requires i + 1 + |up| <= |c| && up == c[i + 1..i + 1 + |up|]
    requires var r := RunBatch(t, id, b).value; RunBatch(r.tables, r.next, b).Success?
    ensures var r := RunBatch(t, id, b).value;
            Play([], Journal(RunBatch(r.tables, r.next, b).value.tables.outbox)).Some?
  {
    hide Linked, AllGenuine, RunBatch, RunEvents, IdsOk, Inv, Play, Replacement;
    var r := RunBatch(t, id, b).value;
    var d, q := c[..i + 1] + up, |c| - 1 - i - |up|;
    assert up[..|up|] == up;
    RetrySkips(w, t, c, id, r.next, b, i, up, |up|);
    BatchIsEvents(r.tables, r.next, b);
    var es := b.events[q..];
    ReplacedHolds(w, t, c, id, b, i, up);
    ReplacementPlays(c, i, up);
    CommittedIsStorable(r.tables, r.next, es);
    assert forall k | 0 <= k < |es| :: es[k] == b.events[q + k];
    var t', d' := EventsCommit(w, r.tables, d, r.next, es);
    JournalOfInv(w, t', d');
  }

  lemma JournalOfInv(w: World, t: Tables, c: seq<Header>)
    requires Inv(w, t, c)
    ensures Play([], Journal(t.outbox)) == Some(c)
  {
  }

  // Rolling a branch back and applying it again leads back to where it was.
  lemma ReplacementPlays(c: seq<Header>, i: nat, up: seq<Header>)
    requires i < |c| && up != [] && Linked([c[i]] + up)
    ensures var d := c[..i + 1] + up; Play(d, Replacement(d, i, up)) == Some(d)
  {
    var d := c[..i + 1] + up;
    assert d[i + 1..] == up && d[..i + 1] == c[..i + 1];
    BranchLinks(c, i, up);
    PlayReplaceSuffix(d, i + 1, up);
  }

  lemma BatchIsEvents(t: Tables, id: nat, b: DurableBatch)
    requires RunBatch(t, id, b).Success? && b.events != []
    ensures RunEvents(t, id, b.events).Success?
    ensures RunBatch(t, id, b).value.tables.outbox == RunEvents(t, id, b.events).value.tables.outbox
  {
  }

  lemma BranchLinks(c: seq<Header>, i: nat, up: seq<Header>)
    requires i < |c| && up != [] && Linked([c[i]] + up)
    ensures Linked(up) && Links((c[..i + 1] + up)[i], up[0])
  {
    var run := [c[i]] + up;
    LinkedSlice(run, 1, 1 + |up|);
    assert run[1..1 + |up|] == up && Links(run[0], run[1]);
  }
}
