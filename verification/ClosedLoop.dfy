// The loop between the transition machine and the store: a batch computed from the
// checkpoint with canonical lookups answered by the database always commits, and leaves
// one contiguous chain whose top is the new head.
module ClosedLoop {
  import opened Wrappers
  import opened Headers
  import opened Chain
  import opened ChainTheory
  import opened Store
  import opened StoreTheory

  function ToLookup(h: Option<Header>): Lookup {
    if h.Some? then Found(h.value) else Missing
  }

  // Canonical lookups read the tables.
  ghost predicate ReadsStore(o: Oracle, t: Tables) {
    && (forall x: Hash :: o.canonicalByHash(x) == ToLookup(CanonicalByHash(t, x)))
    && (forall k: nat :: o.canonicalAtHeight(k) == ToLookup(CanonicalAtHeight(t, k)))
  }

  // Canonical lookups read the tables, but a lookup that fails may come back as missing.
  ghost predicate MayMiss(o: Oracle, t: Tables) {
    && (forall x: Hash :: o.canonicalByHash(x) == Missing || o.canonicalByHash(x) == ToLookup(CanonicalByHash(t, x)))
    && (forall k: nat ::
          o.canonicalAtHeight(k) == Missing || o.canonicalAtHeight(k) == ToLookup(CanonicalAtHeight(t, k)))
  }

  // The state seeded from a checkpoint.
  function TipView(top: Header, maxDepth: nat, finalized: Option<nat>): ChainView {
    ChainView(maxDepth, finalized, Some(top), map[top.height := top], {top.hash})
  }

  lemma TipViewOk(w: World, top: Header, maxDepth: nat, finalized: Option<nat>)
    requires Genuine(w, top) && maxDepth >= 1
    ensures ViewOk(w, TipView(top, maxDepth, finalized), [top])
  {
    assert MapOf([top]) == MapOf([top][..0])[top.height := top];
  }

  lemma MatchInChain(w: World, t: Tables, c: seq<Header>, o: Oracle, top: Header, maxDepth: nat,
                     finalized: Option<nat>, h: Header)
    requires Inv(w, t, c) && MayMiss(o, t) && c != [] && top == Last(c) && Genuine(w, h)
    ensures var m := CanonicalMatch(TipView(top, maxDepth, finalized), o, h);
            (m == Success(Some(h)) ==> h in c) && (ReadsStore(o, t) && m == Success(None) ==> h.hash !in HashesOf(c))
  {
    CanonicalIsChain(w, t, c);
    MapOfLookup(c);
    HashMeansMember(w, c, h);
    assert top in c;
    if h.hash !in HashesOf(c) {
      assert o.canonicalByHash(h.hash) == Missing;
      assert h.height in MapOf(c) ==> MapOf(c)[h.height] in c;
    } else {
      assert ReadsStore(o, t) ==> o.canonicalByHash(h.hash) == Found(h);
    }
  }

  // A linked walk from the top of the chain to a member follows the chain.
  lemma DownIsSuffix(w: World, c: seq<Header>, down: seq<Header>, a: Header) returns (i: nat)
    requires Linked(c) && AllGenuine(w, c) && c != [] && a in c
    requires Descends(down + [a]) && AllGenuine(w, down) && (down + [a])[0] == Last(c)
    ensures i < |c| && c[i] == a && down == Reverse(c[i + 1..])
  {
    var walk := Reverse(down + [a]);
    ReverseDescends(down + [a]);
    i :| 0 <= i < |c| && c[i] == a;
    HeightAt(c, i);
    HeightAt(c, |c| - 1);
    HeightAt(walk, |down|);
    assert walk[0] == a && walk[|down|] == Last(c);
    assert forall x | x in walk :: x in down || x == a;
    RunsAgree(w, walk, c);
    forall j | 0 <= j < |down| ensures down[j] == Reverse(c[i + 1..])[j] {
      assert down[j] == (down + [a])[j] == walk[|down| - j] == c[i + |down| - j];
    }
  }

  predicate DistinctEvents(es: seq<ChainEvent>) {
    forall i, j | 0 <= i < j < |es| :: es[i].header.hash != es[j].header.hash
  }

  lemma DiffIsDistinct(w: World, c: seq<Header>, k: nat, up: seq<Header>)
    requires Linked(c) && AllGenuine(w, c) && k <= |c| && Linked(up) && AllGenuine(w, up)
    requires forall h | h in up :: h.hash !in HashesOf(c)
    ensures DistinctEvents(Rollbacks(Reverse(c[k..])) + Applies(up))
  {
    var es, n := Rollbacks(Reverse(c[k..])) + Applies(up), |c| - k;
    forall i, j | 0 <= i < j < |es| ensures es[i].header.hash != es[j].header.hash {
      if j < n {
        DistinctHashes(w, c, |c| - 1 - i, |c| - 1 - j);
      } else if i >= n {
        DistinctHashes(w, up, i - n, j - n);
      } else {
        assert es[i].header == c[|c| - 1 - i] && c[|c| - 1 - i] in c && es[j].header in up;
      }
    }
  }

  lemma BranchIsNew(w: World, t: Tables, c: seq<Header>, o: Oracle, v: ChainView, maxDepth: nat,
                    finalized: Option<nat>, up: seq<Header>)
    requires Inv(w, t, c) && c != [] && ReadsStore(o, t) && v == TipView(Last(c), maxDepth, finalized)
    requires AllGenuine(w, up) && forall h | h in up :: CanonicalMatch(v, o, h) == Success(None)
    ensures forall h | h in up :: h.hash !in HashesOf(c)
  {
    forall h | h in up ensures h.hash !in HashesOf(c) {
      MatchInChain(w, t, c, o, Last(c), maxDepth, finalized, h);
    }
  }

  // Past the duplicate check, a batch computed from the checkpoint keeps a prefix of the
  // stored chain, rolls back everything above it and applies a branch; the branch is new
  // to the chain unless a canonical lookup went missing.
  lemma HeadShape(w: World, t: Tables, c: seq<Header>, o: Oracle, cache: map<Hash, Header>, head: Header, clock: nat,
                  maxDepth: nat, finalized: Option<nat>) returns (i: nat, up: seq<Header>)
    requires Inv(w, t, c) && c != [] && Truthful(w, o) && MayMiss(o, t) && CacheTruth(w, cache)
    requires Genuine(w, head) && maxDepth >= 1
    requires !EarlyDuplicate(TipView(Last(c), maxDepth, finalized), head)
    requires ApplyFn(TipView(Last(c), maxDepth, finalized), cache, o, head, clock).Success?
    ensures var b := ApplyFn(TipView(Last(c), maxDepth, finalized), cache, o, head, clock).value;
            && i < |c| && b.ancestor == Some(c[i])
            && b.events == Rollbacks(Reverse(c[i + 1..])) + Applies(up) && b.events != []
            && Linked([c[i]] + up) && Last([c[i]] + up) == head
            && AllGenuine(w, up) && (ReadsStore(o, t) ==> forall h | h in up :: h.hash !in HashesOf(c))
            && (finalized.Some? && i + 1 < |c| ==> finalized.value <= c[i].height)
  {
    LinkedOfInv(w, t, c);
    hide Inv, ApplyFn, MayMiss, Truthful, CacheTruth;
    var v := TipView(Last(c), maxDepth, finalized);
    var b := ApplyFn(v, cache, o, head, clock).value;
    assert Last(c) in c;
    TipViewOk(w, Last(c), maxDepth, finalized);
    var down;
    down, up := ApplySound(w, v, cache, o, [Last(c)], head, clock);
    var a := b.ancestor.value;
    if b.transition.Extend? {
      i := |c| - 1;
      ExtensionIsNew(w, c, head);
      assert Reverse(c[i + 1..]) == [];
    } else {
      MatchInChain(w, t, c, o, Last(c), maxDepth, finalized, a);
      i := DownIsSuffix(w, c, down, a);
      if ReadsStore(o, t) { BranchIsNew(w, t, c, o, v, maxDepth, finalized, up); }
    }
  }

  lemma {:induction false} AppliedOfApplies(up: seq<Header>, i: nat)
    ensures |AppliedHashes(Applies(up))| == |up|
    ensures i < |up| ==> AppliedHashes(Applies(up))[i] == up[i].hash
    decreases |up|
  {
    if up != [] {
      assert Applies(up)[1..] == Applies(up[1..]);
      AppliedOfApplies(up[1..], if i == 0 then 0 else i - 1);
    }
  }

  lemma {:induction false} AppliedOfDiff(down: seq<Header>, up: seq<Header>)
    ensures AppliedHashes(Rollbacks(down) + Applies(up)) == AppliedHashes(Applies(up))
    decreases |down|
  {
    if down == [] {
      assert Rollbacks(down) + Applies(up) == Applies(up);
    } else {
      assert (Rollbacks(down) + Applies(up))[1..] == Rollbacks(down[1..]) + Applies(up);
      AppliedOfDiff(down[1..], up);
    }
  }

  // A batch applies every block once, even one it rolls back first.
  lemma AppliedOnce(w: World, down: seq<Header>, up: seq<Header>)
    requires Linked(up) && AllGenuine(w, up)
    ensures NoRepeats(AppliedHashes(Rollbacks(down) + Applies(up)))
  {
    AppliedOfDiff(down, up);
    var hashes := AppliedHashes(Applies(up));
    forall i, j | 0 <= i < j < |hashes| ensures hashes[i] != hashes[j] {
      AppliedOfApplies(up, i);
      AppliedOfApplies(up, j);
      DistinctHashes(w, up, i, j);
    }
  }

  // Every event is genuine and every block is applied once; a branch that is new to the
  // chain makes all events name different blocks.
  lemma ShapeEvents(w: World, c: seq<Header>, i: nat, up: seq<Header>)
    requires Linked(c) && AllGenuine(w, c) && i < |c| && Linked(up) && AllGenuine(w, up)
    ensures var es := Rollbacks(Reverse(c[i + 1..])) + Applies(up);
            && ((forall h | h in up :: h.hash !in HashesOf(c)) ==> DistinctEvents(es))
            && NoRepeats(AppliedHashes(es)) && forall e | e in es :: Genuine(w, e.header)
  {
    hide Linked, HashesOf, DistinctEvents, NoRepeats;
    BatchGenuine(w, Rollbacks(Reverse(c[i + 1..])) + Applies(up), Reverse(c[i + 1..]), up);
    if forall h | h in up :: h.hash !in HashesOf(c) { DiffIsDistinct(w, c, i + 1, up); }
    AppliedOnce(w, Reverse(c[i + 1..]), up);
  }

  lemma ShapeReplays(w: World, c: seq<Header>, b: ChainBatch, i: nat, up: seq<Header>, head: Header)
    returns (d: seq<Header>)
    requires Linked(c) && AllGenuine(w, c) && i < |c| && b.ancestor == Some(c[i])
    requires b.events == Rollbacks(Reverse(c[i + 1..])) + Applies(up)
    requires Linked([c[i]] + up) && Last([c[i]] + up) == head
    requires AllGenuine(w, up)
    ensures Play(c, b.events) == Some(d) && Linked(d) && d != [] && Last(d) == head && d == c[..i + 1] + up
    ensures (forall h | h in up :: h.hash !in HashesOf(c)) ==> DistinctEvents(b.events)
    ensures NoRepeats(AppliedHashes(b.events)) && forall e | e in b.events :: Genuine(w, e.header)
    ensures b.events != [] && Last(b.events).Rollback? ==> b.ancestor == Some(Last(d))
  {
    hide Linked, HashesOf, DistinctEvents, NoRepeats, AppliedHashes, Play;
    d := ReplaceFrom(w, c, i, Reverse(c[i + 1..]), up, head);
    LinkedSlice([c[i]] + up, 1, 1 + |up|);
    assert ([c[i]] + up)[1..1 + |up|] == up;
    ShapeEvents(w, c, i, up);
    assert up != [] ==> Last(b.events) == Applies(up)[|up| - 1];
    assert up == [] ==> d == c[..i + 1];
  }

  // The chain after a head was applied from the checkpoint: some prefix of the stored
  // chain is kept, the rest replaced, and the top is the head. Nothing at or below the
  // finalized height is lost, and unless a canonical lookup went missing no block is both
  // rolled back and applied.
  lemma HeadReplays(w: World, t: Tables, c: seq<Header>, o: Oracle, cache: map<Hash, Header>, head: Header, clock: nat,
                    maxDepth: nat, finalized: Option<nat>) returns (d: seq<Header>)
    requires Inv(w, t, c) && c != [] && Truthful(w, o) && MayMiss(o, t) && CacheTruth(w, cache)
    requires Genuine(w, head) && maxDepth >= 1
    requires ApplyFn(TipView(Last(c), maxDepth, finalized), cache, o, head, clock).Success?
    ensures var b := ApplyFn(TipView(Last(c), maxDepth, finalized), cache, o, head, clock).value;
            && Play(c, b.events) == Some(d) && Linked(d) && d != [] && Last(d) == head
            && (ReadsStore(o, t) ==> DistinctEvents(b.events)) && NoRepeats(AppliedHashes(b.events))
            && (forall e | e in b.events :: Genuine(w, e.header))
            && (b.events == [] ==> d == c)
            && (b.events != [] && Last(b.events).Rollback? ==> b.ancestor == Some(Last(d)))
            && (finalized.Some? ==> forall h | h in c && h.height <= finalized.value :: h in d)
  {
    if EarlyDuplicate(TipView(Last(c), maxDepth, finalized), head) {
      assert Last(c) in c;
      d := c;
    } else {
      var i, up := HeadShape(w, t, c, o, cache, head, clock, maxDepth, finalized);
      d := ShapeReplays(w, c, ApplyFn(TipView(Last(c), maxDepth, finalized), cache, o, head, clock).value, i, up, head);
      if finalized.Some? {
        forall h | h in c && h.height <= finalized.value ensures h in d {
          FinalStays(c, i, up, h, finalized.value);
        }
      }
    }
  }

  lemma FinalStays(c: seq<Header>, i: nat, up: seq<Header>, h: Header, limit: nat)
    requires Linked(c) && i < |c| && h in c && h.height <= limit && (i + 1 < |c| ==> limit <= c[i].height)
    ensures h in c[..i + 1] + up
  {
    var j :| 0 <= j < |c| && c[j] == h;
    HeightAt(c, j);
    HeightAt(c, i);
    assert j <= i;
    assert (c[..i + 1] + up)[j] == h;
  }

  lemma ReplaceFrom(w: World, c: seq<Header>, i: nat, down: seq<Header>, up: seq<Header>, head: Header)
    returns (d: seq<Header>)
    requires Linked(c) && i < |c| && down == Reverse(c[i + 1..])
    requires Linked([c[i]] + up) && Last([c[i]] + up) == head
    ensures Play(c, Rollbacks(down) + Applies(up)) == Some(d) && d == c[..i + 1] + up && Linked(d) && Last(d) == head
  {
    d := c[..i + 1] + up;
    LinkedSlice([c[i]] + up, 1, 1 + |up|);
    assert ([c[i]] + up)[1..] == up;
    assert up != [] ==> Links(([c[i]] + up)[0], ([c[i]] + up)[1]);
    PlayReplaceSuffix(c, i + 1, up);
    LinkedSlice(c, 0, i + 1);
    LinkedConcat(c[..i + 1], up);
  }

  // The durable batch of a chain batch, payloads attached.
  ghost predicate Carries(d: DurableBatch, b: ChainBatch) {
    HeaderEvents(d.events) == b.events && d.ancestor == b.ancestor && d.transition == b.transition
  }

  // Pairing by hash is enough: a genuine payload with the requested hash has the requested header.
  lemma {:induction false} PairingCarries(w: World, b: ChainBatch, payloads: seq<Block>, d: DurableBatch)
    requires d.transition == b.transition && d.ancestor == b.ancestor && |d.events| == |b.events|
    requires forall i | 0 <= i < |b.events| :: Pairs(b.events[i], d.events[i], payloads)
    requires forall e | e in b.events :: Genuine(w, e.header)
    requires forall p | p in payloads :: Genuine(w, p.header)
    ensures Carries(d, b)
  {
    forall i | 0 <= i < |b.events| ensures HeaderEvents(d.events)[i] == b.events[i] {
      assert Pairs(b.events[i], d.events[i], payloads);
    }
  }

  // Closed loop: the batch commits without a missing rollback row, a canonical-height
  // clash or a non-canonical checkpoint, the tables describe the new chain, and the
  // checkpoint is the head.
  lemma HeadCommits(w: World, t: Tables, c: seq<Header>, id: nat, o: Oracle, cache: map<Hash, Header>, head: Header,
                    clock: nat,
                    maxDepth: nat, finalized: Option<nat>, b: DurableBatch) returns (d: seq<Header>)
    requires Inv(w, t, c) && Checkpointed(t, c) && IdsOk(t, id) && c != []
    requires Truthful(w, o) && MayMiss(o, t) && CacheTruth(w, cache) && Genuine(w, head) && maxDepth >= 1
    requires ApplyFn(TipView(Last(c), maxDepth, finalized), cache, o, head, clock).Success?
    requires Carries(b, ApplyFn(TipView(Last(c), maxDepth, finalized), cache, o, head, clock).value) && Acceptable(w, b)
    ensures var r := RunBatch(t, id, b);
            && r.Success? && Inv(w, r.value.tables, d) && Checkpointed(r.value.tables, d)
            && IdsOk(r.value.tables, r.value.next)
            && d != [] && Last(d) == head && (b.events == [] ==> d == c)
            && (ReadsStore(o, t) ==> OncePerHash(b.events))
            && Journal(r.value.tables.outbox) == Journal(t.outbox) + HeaderEvents(b.events)
  {
    d := HeadReplays(w, t, c, o, cache, head, clock, maxDepth, finalized);
    var plan := ApplyFn(TipView(Last(c), maxDepth, finalized), cache, o, head, clock).value;
    assert b.events != [] ==> Last(HeaderEvents(b.events)) == HeaderEvent(Last(b.events));
    BatchCommits(w, t, c, id, b);
    forall i, j | 0 <= i < j < |b.events| && ReadsStore(o, t)
      ensures HeaderEvent(b.events[i]).header.hash != HeaderEvent(b.events[j]).header.hash {
      assert plan.events[i].header.hash != plan.events[j].header.hash;
    }
  }

  // ------------------------------------------------------------------ where the tip stays behind

  lemma {:induction false} WalkGrows(v: ChainView, cache: map<Hash, Header>, o: Oracle, h: Header, desc: seq<Header>,
                                     t: nat)
    requires AncestorWalk(v, cache, o, h, desc, t).result.Success?
    ensures |AncestorWalk(v, cache, o, h, desc, t).result.value.1| >= |desc|
    ensures CanonicalMatch(v, o, h) == Success(None) ==> |AncestorWalk(v, cache, o, h, desc, t).result.value.1| > |desc|
    decreases v.maxDepth + 1 - |desc|
  {
    if CanonicalMatch(v, o, h) == Success(None) {
      var parent := ParentFor(v, cache, o, h, t);
      WalkGrows(v, cache, o, parent.result.value, desc + [h], parent.clock);
    }
  }

  lemma {:induction false} NothingApplied(es: seq<ChainEvent>)
    ensures LastApply(es).None? <==> forall e | e in es :: e.Rollback?
    decreases |es|
  {
    if es != [] {
      var init := es[..|es| - 1];
      NothingApplied(init);
      assert es == init + [Last(es)];
      assert forall e | e in es :: e in init || e == Last(es);
      assert Last(es) in es && forall e | e in init :: e in es;
    }
  }

  // A head neither known locally nor on top of the tip.
  predicate Walks(v: ChainView, head: Header) {
    v.tip.Some? && !EarlyDuplicate(v, head) && head.parentHash != v.tip.value.hash
  }

  lemma DiffApplies(v: ChainView, cache: map<Hash, Header>, o: Oracle, head: Header, t: nat)
    requires Walks(v, head) && ApplyFn(v, cache, o, head, t).Success?
    ensures LastApply(ApplyFn(v, cache, o, head, t).value.events).None? <==>
              CanonicalMatch(v, o, head) == Success(Some(head))
  {
    var found := AncestorWalk(v, cache, o, head, [], t);
    var desc, b := found.result.value.1, ApplyFn(v, cache, o, head, t).value;
    WalkGrows(v, cache, o, head, [], t);
    NothingApplied(b.events);
    if desc != [] { assert Last(b.events) == Apply(Reverse(desc)[|desc| - 1]); }
  }

  // After an accepted head the in-memory tip is that head, except exactly when the head is
  // canonical already, is not the tip, and is not taken as an extension.
  lemma TipFollowsHead(w: World, v: ChainView, cache: map<Hash, Header>, o: Oracle, loc: seq<Header>, head: Header,
                       t: nat)
    requires Truthful(w, o) && CacheTruth(w, cache) && ViewOk(w, v, loc) && Genuine(w, head)
    requires ApplyFn(v, cache, o, head, t).Success?
    ensures NextView(v, head, ApplyFn(v, cache, o, head, t)).tip == Some(head) <==>
              || v.tip.None? || v.tip == Some(head)
              || (!Known(v, head) && head.parentHash == v.tip.value.hash)
              || CanonicalMatch(v, o, head) != Success(Some(head))
  {
    var r := ApplyFn(v, cache, o, head, t);
    var loc' := ApplyKeepsView(w, v, cache, o, loc, head, t);
    if Known(v, head) { KnownIsMember(w, v, loc, head); }
    if Walks(v, head) {
      DiffApplies(v, cache, o, head, t);
    } else if v.tip.Some? && !EarlyDuplicate(v, head) {
      assert [Apply(head)][..0] == [];
    }
  }

  // Two blocks and nothing else: what the store holds after genesis and one block.
  function TwoBlocks(g: Header, top: Header): Tables {
    Tables(map[g.hash := BlockRow(g, true), top.hash := BlockRow(top, true)],
           map[g.height := g, top.height := top], map[],
           Some(Checkpoint(top.height, top.hash)), [OutboxRow(1, Apply(g), []), OutboxRow(2, Apply(top), [])])
  }

  lemma TwoBlocksHold(w: World, g: Header, top: Header)
    requires Links(g, top) && Genuine(w, g) && Genuine(w, top)
    ensures var t := TwoBlocks(g, top);
            Inv(w, t, [g, top]) && Checkpointed(t, [g, top]) && IdsOk(t, 3)
  {
    var t, c := TwoBlocks(g, top), [g, top];
    assert c[..1] == [g] && [g][..0] == [];
    assert MapOf(c) == MapOf([g])[top.height := top] && MapOf([g]) == map[g.height := g];
    assert HashesOf(c) == {g.hash, top.hash} by { assert c[0] == g && c[1] == top; }
    var es := Journal(t.outbox);
    assert es == [Apply(g), Apply(top)] && es[1..] == [Apply(top)] && es[1..][1..] == [];
    assert [] + [g] == [g] && [g] + [top] == c;
    assert Play([g], es[1..]) == Some(c);
  }

  // Seeded from the checkpoint of a store that holds genesis and one block on it, the
  // genesis head is canonical for the store but not known locally. The batch rolls the top
  // back, the durable checkpoint moves, and the tip stays where it was.
  lemma TipStaysBehind(w: World, g: Header, top: Header, o: Oracle, b: DurableBatch)
    requires Links(g, top) && Genuine(w, g) && Genuine(w, top) && g.height == 0 && g.parentHash != top.hash
    requires ReadsStore(o, TwoBlocks(g, top)) && o.headerByHash(0, g.hash) == Found(g)
    requires b == DurableBatch(Reorg, Some(g), [RollbackBlock(top)])
    ensures var v := TipView(top, 1, None);
            var r := ApplyFn(v, map[top.hash := top], o, g, 0);
            && Inv(w, TwoBlocks(g, top), [g, top]) && Checkpointed(TwoBlocks(g, top), [g, top])
            && r.Success? && Carries(b, r.value) && NextView(v, g, r).tip == Some(top) != Some(g)
            && RunBatch(TwoBlocks(g, top), 3, b).Success?
            && RunBatch(TwoBlocks(g, top), 3, b).value.tables.checkpoint == Some(Checkpoint(0, g.hash))
  {
    var v, t := TipView(top, 1, None), TwoBlocks(g, top);
    TwoBlocksHold(w, g, top);
    RollbackOnly(v, o, g, top);
    var r := ApplyFn(v, map[top.hash := top], o, g, 0);
    assert HeaderEvents(b.events) == [Rollback(top)];
    assert [g, top][..1] == [g];
    PlayOne([g, top], Rollback(top));
    BatchCommits(w, t, [g, top], 3, b);
  }

  const GENESIS := Header(0, 7, 0)
  const CHILD := Header(1, 0, 1)

  function TinyWorld(): World {
    (x: Hash) => if x == 0 then GENESIS else if x == 1 then CHILD else Header(x, 7, 0)
  }

  function TinyOracle(): Oracle {
    Oracle((n: nat, x: Hash) => Found(TinyWorld()(x)),
           (x: Hash) => ToLookup(CanonicalByHash(TwoBlocks(GENESIS, CHILD), x)),
           (k: nat) => ToLookup(CanonicalAtHeight(TwoBlocks(GENESIS, CHILD), k)))
  }

  lemma TinyIsFair()
    ensures Truthful(TinyWorld(), TinyOracle()) && ReadsStore(TinyOracle(), TwoBlocks(GENESIS, CHILD))
    ensures Genuine(TinyWorld(), GENESIS) && Genuine(TinyWorld(), CHILD) && Links(GENESIS, CHILD)
  {
    assert forall x :: Genuine(TinyWorld(), TinyWorld()(x));
  }

  // The exception happens.
  lemma TipCanStayBehind()
    ensures var t, v := TwoBlocks(GENESIS, CHILD), TipView(CHILD, 1, None);
            && Inv(TinyWorld(), t, [GENESIS, CHILD]) && Checkpointed(t, [GENESIS, CHILD])
            && Truthful(TinyWorld(), TinyOracle()) && ReadsStore(TinyOracle(), t) && Genuine(TinyWorld(), GENESIS)
            && var r := ApplyFn(v, map[CHILD.hash := CHILD], TinyOracle(), GENESIS, 0);
               && r.Success? && r.value.events == [Rollback(CHILD)]
               && NextView(v, GENESIS, r).tip == Some(CHILD) != Some(GENESIS)
  {
    hide Inv, Checkpointed, Truthful, ReadsStore, ApplyFn, NextView, TwoBlocks, TipView;
    TinyIsFair();
    TwoBlocksHold(TinyWorld(), GENESIS, CHILD);
    RollbackOnly(TipView(CHILD, 1, None), TinyOracle(), GENESIS, CHILD);
  }

  lemma PlayOne(c: seq<Header>, e: ChainEvent)
    ensures Play(c, [e]) == Step(c, e)
  {
    assert [e][1..] == [];
  }

  lemma RollbackOnly(v: ChainView, o: Oracle, g: Header, top: Header)
    requires v == TipView(top, 1, None) && Links(g, top) && g.height == 0 && g.hash != top.hash
    requires g.parentHash != top.hash
    requires ReadsStore(o, TwoBlocks(g, top)) && o.headerByHash(0, g.hash) == Found(g)
    ensures var r := ApplyFn(v, map[top.hash := top], o, g, 0);
            r == Success(ChainBatch(Reorg, Some(g), [Rollback(top)])) && NextView(v, g, r).tip == Some(top)
  {
    assert CanonicalMatch(v, o, g) == Success(Some(g));
    assert ParentFor(v, map[top.hash := top], o, top, 0) == Timed(Success(g), 1);
    var passed: seq<Header> := [] + [top];
    assert passed == [top];
    assert RollbackWalk(v, map[top.hash := top], o, g, g, passed, 1) == Timed(Success(passed), 1);
    assert RollbackWalk(v, map[top.hash := top], o, top, g, [], 0) == Timed(Success([top]), 1);
    var none: seq<Header> := [];
    assert AncestorWalk(v, map[top.hash := top], o, g, none, 0) == Timed(Success((g, none)), 0);
    assert Rollbacks([top]) + Applies(Reverse(none)) == [Rollback(top)];
    assert DiffBatch(g, [top], none) == ChainBatch(Reorg, Some(g), [Rollback(top)]);
    var r := ApplyFn(v, map[top.hash := top], o, g, 0);
    assert r == Success(DiffBatch(g, [top], none));
    var es := r.value.events;
    assert es[..0] == [] && es[1..] == [];
    assert LastApply(es[..0]) == None && LastApply(es) == None;
    assert CommitEvents(CommitEvent(v, es[0]), es[1..]) == CommitEvent(v, es[0]);
    assert !EarlyDuplicate(v, g) && Commit(v, r.value).tip == v.tip;
  }
}
