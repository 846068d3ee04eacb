// What the transition machine guarantees: every batch replaces a suffix of the
// canonical chain by a linked branch, the in-memory segment stays contiguous, finality
// is never crossed, and neither cache size nor cache contents decide any result.
module ChainTheory {
  import opened Wrappers
  import opened Headers
  import opened Chain

  // ------------------------------------------------------------------ assumptions and invariants

  ghost predicate FoundGenuine(w: World, l: Lookup) {
    l.Found? ==> Genuine(w, l.header)
  }

  // Whatever is answered is the header its hash determines; answers may still be missing,
  // fail, or change from one call to the next.
  ghost predicate Truthful(w: World, o: Oracle) {
    && (forall t: nat, h: Hash :: FoundGenuine(w, o.headerByHash(t, h)))
    && (forall h: Hash :: FoundGenuine(w, o.canonicalByHash(h)))
    && (forall k: nat :: FoundGenuine(w, o.canonicalAtHeight(k)))
  }

  ghost predicate CacheTruth(w: World, cache: map<Hash, Header>) {
    forall x | x in cache :: cache[x].hash == x && Genuine(w, cache[x])
  }

  // The maps hold exactly the linked segment `loc`, and a nonempty segment ends at the tip.
  ghost predicate ViewOk(w: World, v: ChainView, loc: seq<Header>) {
    && Linked(loc) && AllGenuine(w, loc)
    && v.byHeight == MapOf(loc) && v.hashes == HashesOf(loc)
    && (loc != [] ==> v.tip == Some(Last(loc)))
    && (v.tip.Some? ==> Genuine(w, v.tip.value))
    && v.maxDepth >= 1
  }

  // A batch that replaces the headers `down` (tip first) above its ancestor by `up`.
  ghost predicate Replaces(v: ChainView, head: Header, b: ChainBatch, down: seq<Header>, up: seq<Header>) {
    && v.tip.Some? && b.ancestor.Some?
    && b.events == Rollbacks(down) + Applies(up)
    && Descends(down + [b.ancestor.value]) && (down + [b.ancestor.value])[0] == v.tip.value
    && Linked([b.ancestor.value] + up) && Last([b.ancestor.value] + up) == head
    && |down| <= v.maxDepth && |up| <= v.maxDepth
  }

  lemma KnownIsMember(w: World, v: ChainView, loc: seq<Header>, h: Header)
    requires ViewOk(w, v, loc) && Genuine(w, h)
    ensures Known(v, h) <==> h in loc
  {
    MapOfLookup(loc);
    HashMeansMember(w, loc, h);
    if h in loc {
      var i :| 0 <= i < |loc| && loc[i] == h;
      HeightAt(loc, i);
    }
  }

  // ------------------------------------------------------------------ walks

  lemma ParentSound(w: World, v: ChainView, cache: map<Hash, Header>, o: Oracle, loc: seq<Header>, child: Header,
                    t: nat)
    requires Truthful(w, o) && CacheTruth(w, cache) && ViewOk(w, v, loc)
    ensures var r := ParentFor(v, cache, o, child, t).result;
            r.Success? ==> Links(r.value, child) && Genuine(w, r.value)
  {
    MapOfLookup(loc);
    if child.height > 0 && LocalParent(v, cache, child).None? {
      assert FoundGenuine(w, o.headerByHash(t, child.parentHash));
    }
  }

  lemma DescendStep(desc: seq<Header>, h: Header, parent: Header)
    requires Descends(desc + [h]) && Links(parent, h)
    ensures Descends(desc + [h] + [parent])
  {
    var s, s' := desc + [h], desc + [h] + [parent];
    forall i, j | 0 <= i < j < |s'| && j == i + 1 ensures Links(s'[j], s'[i]) {
      if j < |s| { assert Links(s[j], s[i]); }
    }
  }

  lemma {:induction false} AncestorWalkSound(w: World, v: ChainView, cache: map<Hash, Header>, o: Oracle,
                                             loc: seq<Header>,
                                             h: Header, desc: seq<Header>, t: nat)
    requires Truthful(w, o) && CacheTruth(w, cache) && ViewOk(w, v, loc)
    requires Descends(desc + [h]) && AllGenuine(w, desc + [h]) && |desc| <= v.maxDepth
    ensures var r := AncestorWalk(v, cache, o, h, desc, t).result;
            r.Success? ==>
              && var (a, d) := r.value;
              && Descends(d + [a]) && AllGenuine(w, d + [a]) && |d| <= v.maxDepth
              && desc + [h] <= d + [a]
              && CanonicalMatch(v, o, a) == Success(Some(a))
              && |desc| <= |d| && forall i | |desc| <= i < |d| :: CanonicalMatch(v, o, d[i]) == Success(None)
    decreases v.maxDepth + 1 - |desc|
  {
    var found := CanonicalMatch(v, o, h);
    if found == Success(None) && |desc| + 1 <= v.maxDepth {
      var parent := ParentFor(v, cache, o, h, t);
      ParentSound(w, v, cache, o, loc, h, t);
      if parent.result.Success? {
        DescendStep(desc, h, parent.result.value);
        assert forall x | x in desc + [h] + [parent.result.value] :: x in desc + [h] || x == parent.result.value;
        AncestorWalkSound(w, v, cache, o, loc, parent.result.value, desc + [h], parent.clock);
        var r := AncestorWalk(v, cache, o, h, desc, t).result;
        if r.Success? {
          var (a, d) := r.value;
          assert (d + [a])[|desc|] == (desc + [h])[|desc|] == h;
          assert d[|desc|] == h;
          assert desc + [h] <= desc + [h] + [parent.result.value] <= d + [a];
        }
      }
    }
  }

  lemma {:induction false} RollbackWalkSound(w: World, v: ChainView, cache: map<Hash, Header>, o: Oracle,
                                             loc: seq<Header>,
                                             h: Header, a: Header, acc: seq<Header>, t: nat)
    requires Truthful(w, o) && CacheTruth(w, cache) && ViewOk(w, v, loc) && Genuine(w, a)
    requires Descends(acc + [h]) && AllGenuine(w, acc + [h]) && |acc| <= v.maxDepth
    ensures var r := RollbackWalk(v, cache, o, h, a, acc, t).result;
            r.Success? ==>
              && Descends(r.value + [a]) && AllGenuine(w, r.value + [a]) && |r.value| <= v.maxDepth
              && (r.value + [a])[0] == (acc + [h])[0]
    decreases v.maxDepth + 1 - |acc|
  {
    assert h in acc + [h];
    if h.height > a.height && |acc| + 1 <= v.maxDepth {
      var parent := ParentFor(v, cache, o, h, t);
      ParentSound(w, v, cache, o, loc, h, t);
      if parent.result.Success? {
        DescendStep(acc, h, parent.result.value);
        assert forall x | x in acc + [h] + [parent.result.value] :: x in acc + [h] || x == parent.result.value;
        RollbackWalkSound(w, v, cache, o, loc, parent.result.value, a, acc + [h], parent.clock);
      }
    }
  }

  // A descending walk from the head to the ancestor, read upwards.
  lemma WalkUp(desc: seq<Header>, a: Header, head: Header)
    requires Descends(desc + [a]) && (desc + [a])[0] == head
    ensures Linked([a] + Reverse(desc)) && Last([a] + Reverse(desc)) == head
  {
    ReverseDescends(desc + [a]);
    assert [a] + Reverse(desc) == Reverse(desc + [a]);
  }

  lemma SwitchSound(w: World, v: ChainView, cache: map<Hash, Header>, o: Oracle, loc: seq<Header>, head: Header, t: nat)
    returns (down: seq<Header>, up: seq<Header>)
    requires Truthful(w, o) && CacheTruth(w, cache) && ViewOk(w, v, loc) && Genuine(w, head)
    requires v.tip.Some? && !EarlyDuplicate(v, head) && head.parentHash != v.tip.value.hash
    requires ApplyFn(v, cache, o, head, t).Success?
    ensures var b := ApplyFn(v, cache, o, head, t).value;
            && Replaces(v, head, b, down, up)
            && AllGenuine(w, down) && AllGenuine(w, up) && Genuine(w, b.ancestor.value)
            && !CrossesFinality(v, b.ancestor.value)
            && CanonicalMatch(v, o, b.ancestor.value) == Success(Some(b.ancestor.value))
            && forall h | h in up :: CanonicalMatch(v, o, h) == Success(None)
  {
    AncestorWalkSound(w, v, cache, o, loc, head, [], t);
    var found := AncestorWalk(v, cache, o, head, [], t);
    var (a, desc) := found.result.value;
    assert a in desc + [a];
    RollbackWalkSound(w, v, cache, o, loc, v.tip.value, a, [], found.clock);
    down, up := RollbackWalk(v, cache, o, v.tip.value, a, [], found.clock).result.value, Reverse(desc);
    assert forall x | x in down :: x in down + [a];
    assert forall x | x in desc :: x in desc + [a];
    assert (desc + [a])[0] == ([] + [head])[0] && (down + [a])[0] == ([] + [v.tip.value])[0];
    WalkUp(desc, a, head);
  }

  lemma NeverEmpty(v: ChainView, head: Header, b: ChainBatch, down: seq<Header>, up: seq<Header>)
    requires Replaces(v, head, b, down, up) && head != v.tip.value
    ensures b.events != []
  {
    assert |b.events| == |down| + |up|;
  }

  // Whatever the resolver answers, a batch past the duplicate check replaces a linked
  // suffix below the tip by a linked branch up to the head, within the depth limit, never
  // below finality unless it only extends the tip, and is never empty.
  lemma ApplySound(w: World, v: ChainView, cache: map<Hash, Header>, o: Oracle, loc: seq<Header>, head: Header, t: nat)
    returns (down: seq<Header>, up: seq<Header>)
    requires Truthful(w, o) && CacheTruth(w, cache) && ViewOk(w, v, loc) && Genuine(w, head)
    requires v.tip.Some? && !EarlyDuplicate(v, head)
    requires ApplyFn(v, cache, o, head, t).Success?
    ensures var b := ApplyFn(v, cache, o, head, t).value;
            && Replaces(v, head, b, down, up)
            && AllGenuine(w, down) && AllGenuine(w, up) && Genuine(w, b.ancestor.value)
            && b.events != [] && !b.transition.Duplicate?
            && (b.transition.Extend? <==> head.parentHash == v.tip.value.hash)
            && (b.transition.Extend? ==> down == [] && up == [head])
            && (!b.transition.Extend? ==>
                  && !CrossesFinality(v, b.ancestor.value)
                  && CanonicalMatch(v, o, b.ancestor.value) == Success(Some(b.ancestor.value))
                  && forall h | h in up :: CanonicalMatch(v, o, h) == Success(None))
  {
    var b := ApplyFn(v, cache, o, head, t).value;
    if head.parentHash == v.tip.value.hash {
      down, up := [], [head];
      assert Rollbacks(down) + Applies(up) == [Apply(head)];
    } else {
      down, up := SwitchSound(w, v, cache, o, loc, head, t);
      NeverEmpty(v, head, b, down, up);
    }
  }

  // ------------------------------------------------------------------ committing a batch

  lemma {:induction false} CommitConcat(v: ChainView, a: seq<ChainEvent>, b: seq<ChainEvent>)
    ensures CommitEvents(v, a + b) == CommitEvents(CommitEvents(v, a), b)
    decreases |a|
  {
    if a == [] {
      assert a + b == b;
    } else {
      assert (a + b)[1..] == a[1..] + b;
      CommitConcat(CommitEvent(v, a[0]), a[1..], b);
    }
  }

  lemma RemoveTop(w: World, v: ChainView, loc: seq<Header>)
    requires Linked(loc) && AllGenuine(w, loc) && loc != [] && v.byHeight == MapOf(loc) && v.hashes == HashesOf(loc)
    ensures var d := loc[..|loc| - 1];
            RemoveCanonical(v, Last(loc)) == v.(byHeight := MapOf(d), hashes := HashesOf(d))
  {
    MapOfLookup(loc);
    HeightAt(loc, |loc| - 1);
    MapOfPop(loc);
    HashesOfPop(w, loc);
  }

  lemma {:induction false} RemoveFromEmpty(v: ChainView, down: seq<Header>)
    requires v.byHeight == map[]
    ensures CommitEvents(v, Rollbacks(down)) == v
    decreases |down|
  {
    if down != [] {
      assert Rollbacks(down)[1..] == Rollbacks(down[1..]);
      RemoveFromEmpty(v, down[1..]);
    }
  }

  // What is left of the segment after `n` rollbacks.
  function Cut(loc: seq<Header>, n: nat): seq<Header> {
    if n <= |loc| then loc[..|loc| - n] else []
  }

  lemma {:induction false} CommitRollbacks(w: World, v: ChainView, loc: seq<Header>, down: seq<Header>)
    requires Linked(loc) && AllGenuine(w, loc) && v.byHeight == MapOf(loc) && v.hashes == HashesOf(loc)
    requires forall i | 0 <= i < |down| && i < |loc| :: down[i] == loc[|loc| - 1 - i]
    ensures var rest := Cut(loc, |down|);
            CommitEvents(v, Rollbacks(down)) == v.(byHeight := MapOf(rest), hashes := HashesOf(rest))
    decreases |down|
  {
    if down == [] {
      assert loc[..|loc|] == loc;
    } else if loc == [] {
      RemoveFromEmpty(v, down);
    } else {
      var d := loc[..|loc| - 1];
      assert Rollbacks(down)[1..] == Rollbacks(down[1..]);
      assert down[0] == Last(loc);
      RemoveTop(w, v, loc);
      LinkedSlice(loc, 0, |loc| - 1);
      forall i | 0 <= i < |down[1..]| && i < |d| ensures down[1..][i] == d[|d| - 1 - i] {
        assert down[1..][i] == down[i + 1];
      }
      CommitRollbacks(w, RemoveCanonical(v, down[0]), d, down[1..]);
      assert Cut(d, |down| - 1) == Cut(loc, |down|);
    }
  }

  lemma {:induction false} CommitApplies(v: ChainView, loc: seq<Header>, up: seq<Header>)
    requires v.byHeight == MapOf(loc) && v.hashes == HashesOf(loc)
    ensures CommitEvents(v, Applies(up)) == v.(byHeight := MapOf(loc + up), hashes := HashesOf(loc + up))
    decreases |up|
  {
    if up == [] {
      assert loc + up == loc;
    } else {
      assert Applies(up)[1..] == Applies(up[1..]);
      MapOfPush(loc, up[0]);
      HashesOfPush(loc, up[0]);
      CommitApplies(InsertCanonical(v, up[0]), loc + [up[0]], up[1..]);
      assert loc + [up[0]] + up[1..] == loc + up;
    }
  }

  lemma {:induction false} LastApplyOf(down: seq<Header>, up: seq<Header>)
    ensures LastApply(Rollbacks(down) + Applies(up)) == if up == [] then None else Some(Last(up))
    decreases |down| + |up|
  {
    var es := Rollbacks(down) + Applies(up);
    if up != [] {
      assert Last(es) == Apply(Last(up));
    } else if down != [] {
      assert es[..|es| - 1] == Rollbacks(down[..|down| - 1]) + Applies([]);
      LastApplyOf(down[..|down| - 1], []);
    }
  }

  // How the rolled-back headers sit on the local segment.
  lemma DownFollowsLocal(w: World, loc: seq<Header>, down: seq<Header>, a: Header)
    requires Linked(loc) && AllGenuine(w, loc) && loc != []
    requires Descends(down + [a]) && AllGenuine(w, down + [a]) && (down + [a])[0] == Last(loc)
    ensures forall i | 0 <= i < |down| && i < |loc| :: down[i] == loc[|loc| - 1 - i]
    ensures |down| < |loc| ==> loc[|loc| - 1 - |down|] == a
  {
    var walk := Reverse(down + [a]);
    ReverseDescends(down + [a]);
    assert Last(walk) == Last(loc);
    if |walk| <= |loc| {
      RunsAgree(w, walk, loc);
      forall i | 0 <= i <= |down| ensures (down + [a])[i] == loc[|loc| - 1 - i] {
        assert (down + [a])[i] == walk[|walk| - 1 - i];
      }
    } else {
      RunsAgree(w, loc, walk);
      forall i | 0 <= i < |loc| ensures (down + [a])[i] == loc[|loc| - 1 - i] {
        assert (down + [a])[i] == walk[|walk| - 1 - i];
      }
    }
  }

  // The local segment after a batch: the rolled-back part is cut, the branch appended.
  function NextLocal(loc: seq<Header>, down: seq<Header>, up: seq<Header>): seq<Header> {
    Cut(loc, |down|) + up
  }

  // The kept part ends at the ancestor, so the branch links to it.
  lemma NextLocalLinked(w: World, loc: seq<Header>, down: seq<Header>, a: Header, up: seq<Header>)
    requires Linked(loc) && AllGenuine(w, loc)
    requires Descends(down + [a]) && AllGenuine(w, down) && Genuine(w, a) && Linked([a] + up) && AllGenuine(w, up)
    requires loc != [] ==> (down + [a])[0] == Last(loc)
    ensures Linked(NextLocal(loc, down, up)) && AllGenuine(w, NextLocal(loc, down, up))
    ensures forall i | 0 <= i < |down| && i < |loc| :: down[i] == loc[|loc| - 1 - i]
    ensures Cut(loc, |down|) != [] ==> Last(Cut(loc, |down|)) == a
  {
    var rest := Cut(loc, |down|);
    if loc != [] {
      assert forall x | x in down + [a] :: x in down || x == a;
      DownFollowsLocal(w, loc, down, a);
    }
    LinkedSlice(loc, 0, |rest|);
    assert rest == loc[..|rest|];
    LinkedSlice([a] + up, 1, 1 + |up|);
    assert ([a] + up)[1..] == up;
    assert up != [] ==> Links(([a] + up)[0], ([a] + up)[1]);
    LinkedConcat(rest, up);
    assert forall x | x in rest + up :: x in loc || x in up;
  }

  lemma CommitShape(w: World, v: ChainView, loc: seq<Header>, b: ChainBatch, down: seq<Header>, up: seq<Header>)
    requires Linked(loc) && AllGenuine(w, loc) && v.byHeight == MapOf(loc) && v.hashes == HashesOf(loc)
    requires forall i | 0 <= i < |down| && i < |loc| :: down[i] == loc[|loc| - 1 - i]
    requires b.events == Rollbacks(down) + Applies(up) && !b.transition.Duplicate?
    ensures var next := NextLocal(loc, down, up);
            Commit(v, b) == v.(byHeight := MapOf(next), hashes := HashesOf(next),
                               tip := if up == [] then v.tip else Some(Last(up)))
  {
    hide Linked, AllGenuine, MapOf, HashesOf, CommitEvents, LastApply;
    CommitConcat(v, Rollbacks(down), Applies(up));
    CommitRollbacks(w, v, loc, down);
    CommitApplies(CommitEvents(v, Rollbacks(down)), Cut(loc, |down|), up);
    LastApplyOf(down, up);
  }

  lemma CommitKeepsView(w: World, v: ChainView, loc: seq<Header>, head: Header, b: ChainBatch,
                        down: seq<Header>, up: seq<Header>)
    requires ViewOk(w, v, loc) && Replaces(v, head, b, down, up) && !EarlyDuplicate(v, head)
    requires AllGenuine(w, down) && AllGenuine(w, up) && Genuine(w, b.ancestor.value) && Genuine(w, head)
    requires !b.transition.Duplicate?
    ensures ViewOk(w, Commit(v, b), NextLocal(loc, down, up))
    ensures Commit(v, b).tip == if up == [] then v.tip else Some(head)
    ensures NextLocal(loc, down, up) == [] <==> up == []
    ensures Commit(v, b).finalized == v.finalized
  {
    var a := b.ancestor.value;
    NextLocalLinked(w, loc, down, a, up);
    CommitShape(w, v, loc, b, down, up);
    if up == [] && Cut(loc, |down|) != [] {
      assert head == a && a in loc;
      KnownIsMember(w, v, loc, a);
      assert false;
    }
    assert up != [] ==> Last(up) == head;
  }

  // One head, one step: the invariant holds again, and the tip is at the top of the
  // segment unless the batch only rolled back, which empties the segment.
  lemma ApplyKeepsView(w: World, v: ChainView, cache: map<Hash, Header>, o: Oracle, loc: seq<Header>, head: Header,
                       t: nat)
    returns (loc': seq<Header>)
    requires Truthful(w, o) && CacheTruth(w, cache) && ViewOk(w, v, loc) && Genuine(w, head)
    ensures var r := ApplyFn(v, cache, o, head, t);
            && ViewOk(w, NextView(v, head, r), loc')
            && (r.Failure? || EarlyDuplicate(v, head) ==> loc' == loc)
            && (r.Success? && !EarlyDuplicate(v, head) ==>
                  && (loc' == [] <==> LastApply(r.value.events).None?)
                  && (loc' != [] ==> Last(loc') == head && NextView(v, head, r).tip == Some(head))
                  && (loc' == [] ==> NextView(v, head, r).tip == v.tip))
  {
    var r := ApplyFn(v, cache, o, head, t);
    if r.Failure? || EarlyDuplicate(v, head) {
      loc' := loc;
    } else if v.tip.None? {
      loc' := [head];
      assert Applies([head]) == [Apply(head)];
      CommitApplies(v, loc, [head]);
      assert loc + [head] == [head];
    } else {
      var down, up := ApplySound(w, v, cache, o, loc, head, t);
      loc' := NextLocal(loc, down, up);
      CommitKeepsView(w, v, loc, head, r.value, down, up);
      LastApplyOf(down, up);
    }
  }

  // ------------------------------------------------------------------ whole runs

  // One observed head with the resolver that answers while it is applied.
  datatype Observation = Observation(head: Header, oracle: Oracle, clock: nat)

  datatype Outcome = Outcome(results: seq<Result<ChainBatch, ChainError>>, view: ChainView, cache: CacheView)

  function Run(v: ChainView, c: CacheView, obs: seq<Observation>): Outcome
    decreases |obs|
  {
    if obs == [] then Outcome([], v, c)
    else
      var r := ApplyFn(v, c.headers, obs[0].oracle, obs[0].head, obs[0].clock);
      var rest := Run(NextView(v, obs[0].head, r), NextCache(v, c, obs[0].head, r), obs[1..]);
      rest.(results := [r] + rest.results)
  }

  ghost predicate Sane(w: World, obs: seq<Observation>) {
    forall i | 0 <= i < |obs| :: Truthful(w, obs[i].oracle) && Genuine(w, obs[i].head)
  }

  lemma {:induction false} CacheEventsOk(w: World, c: CacheView, es: seq<ChainEvent>)
    requires CacheOk(c) && CacheTruth(w, c.headers) && forall e | e in es :: Genuine(w, e.header)
    ensures CacheOk(CacheEvents(c, es)) && CacheTruth(w, CacheEvents(c, es).headers)
    decreases |es|
  {
    if es != [] {
      CacheInsertOk(w, c, es[0].header);
      CacheEventsOk(w, CacheInsert(c, es[0].header), es[1..]);
    }
  }

  lemma CacheInsertOk(w: World, c: CacheView, h: Header)
    requires CacheOk(c) && CacheTruth(w, c.headers) && Genuine(w, h)
    ensures CacheOk(CacheInsert(c, h)) && CacheTruth(w, CacheInsert(c, h).headers)
  {
    InsertKeepsOk(c, h);
  }

  lemma BatchGenuine(w: World, es: seq<ChainEvent>, down: seq<Header>, up: seq<Header>)
    requires es == Rollbacks(down) + Applies(up) && AllGenuine(w, down) && AllGenuine(w, up)
    ensures forall e | e in es :: Genuine(w, e.header)
  {
    forall e | e in es ensures Genuine(w, e.header) {
      var i :| 0 <= i < |es| && es[i] == e;
      assert e.header == if i < |down| then down[i] else up[i - |down|];
    }
  }

  lemma NextCacheOk(w: World, v: ChainView, c: CacheView, o: Oracle, loc: seq<Header>, head: Header, t: nat)
    requires Truthful(w, o) && CacheOk(c) && CacheTruth(w, c.headers) && ViewOk(w, v, loc) && Genuine(w, head)
    ensures var c' := NextCache(v, c, head, ApplyFn(v, c.headers, o, head, t));
            CacheOk(c') && CacheTruth(w, c'.headers)
  {
    var r := ApplyFn(v, c.headers, o, head, t);
    if r.Failure? {
    } else if EarlyDuplicate(v, head) {
      CacheInsertOk(w, c, head);
    } else {
      if v.tip.Some? {
        var down, up := ApplySound(w, v, c.headers, o, loc, head, t);
        BatchGenuine(w, r.value.events, down, up);
      }
      CacheEventsOk(w, c, r.value.events);
    }
  }

  // Over every sequence of heads and every behaviour of the resolver, the canonical maps
  // stay one contiguous linked segment and the cache stays well formed.
  lemma {:induction false} RunKeepsInvariant(w: World, v: ChainView, c: CacheView, loc: seq<Header>,
                                             obs: seq<Observation>)
    requires ViewOk(w, v, loc) && CacheOk(c) && CacheTruth(w, c.headers) && Sane(w, obs)
    ensures var end := Run(v, c, obs);
            && CacheOk(end.cache) && CacheTruth(w, end.cache.headers)
            && exists loc' :: ViewOk(w, end.view, loc')
    decreases |obs|
  {
    if obs != [] {
      var x := obs[0];
      var r := ApplyFn(v, c.headers, x.oracle, x.head, x.clock);
      var loc' := ApplyKeepsView(w, v, c.headers, x.oracle, loc, x.head, x.clock);
      NextCacheOk(w, v, c, x.oracle, loc, x.head, x.clock);
      RunKeepsInvariant(w, NextView(v, x.head, r), NextCache(v, c, x.head, r), loc', obs[1..]);
    }
  }

  // ------------------------------------------------------------------ finality over runs

  ghost predicate KeepsFinal(v: ChainView, v': ChainView, limit: nat) {
    forall k | k in v.byHeight && k <= limit :: k in v'.byHeight && v'.byHeight[k] == v.byHeight[k]
  }

  predicate SparesFinal(b: ChainBatch, limit: nat) {
    forall i | 0 <= i < |b.events| :: b.events[i].Rollback? ==> b.events[i].header.height > limit
  }

  lemma CutKeepsHeight(loc: seq<Header>, next: seq<Header>, n: nat, k: nat)
    requires Linked(loc) && Linked(next) && n <= |loc| && n <= |next| && forall i | 0 <= i < n :: loc[i] == next[i]
    requires k in MapOf(loc) && (n == |loc| || k < loc[0].height + n)
    ensures k in MapOf(next) && MapOf(next)[k] == MapOf(loc)[k]
  {
    hide Linked, MapOf;
    MapOfLookup(loc);
    MapOfLookup(next);
  }

  lemma DownAboveAncestor(down: seq<Header>, a: Header, i: nat)
    requires Descends(down + [a]) && i < |down|
    ensures down[i].height == a.height + |down| - i
  {
    var r := Reverse(down + [a]);
    ReverseDescends(down + [a]);
    HeightAt(r, |down| - i);
    assert r[0] == a && r[|down| - i] == down[i];
  }

  lemma BatchSparesFinal(b: ChainBatch, down: seq<Header>, up: seq<Header>, a: Header, limit: nat)
    requires b.events == Rollbacks(down) + Applies(up) && Descends(down + [a]) && (down == [] || limit <= a.height)
    ensures SparesFinal(b, limit)
  {
    forall i | 0 <= i < |b.events| && b.events[i].Rollback? ensures b.events[i].header.height > limit {
      assert i < |down|;
      DownAboveAncestor(down, a, i);
    }
  }

  lemma CommitKeepsFinal(loc: seq<Header>, down: seq<Header>, up: seq<Header>, a: Header, limit: nat)
    requires Linked(loc) && Linked(NextLocal(loc, down, up)) && Descends(down + [a])
    requires loc != [] ==> (down + [a])[0] == Last(loc)
    requires down == [] || limit <= a.height
    ensures var next := NextLocal(loc, down, up);
            forall k | k in MapOf(loc) && k <= limit :: k in MapOf(next) && MapOf(next)[k] == MapOf(loc)[k]
  {
    if loc != [] {
      HeightAt(loc, |loc| - 1);
      if down != [] {
        DownAboveAncestor(down, a, 0);
        assert (down + [a])[0] == down[0];
      }
    }
    var n := |Cut(loc, |down|)|;
    var next := NextLocal(loc, down, up);
    forall k | k in MapOf(loc) && k <= limit ensures k in MapOf(next) && MapOf(next)[k] == MapOf(loc)[k] {
      if loc != [] { CutKeepsHeight(loc, next, n, k); }
    }
  }

  lemma StepKeepsFinal(w: World, v: ChainView, cache: map<Hash, Header>, o: Oracle, loc: seq<Header>, head: Header,
                       t: nat, limit: nat)
    requires Truthful(w, o) && CacheTruth(w, cache) && ViewOk(w, v, loc) && Genuine(w, head)
    requires v.finalized == Some(limit)
    ensures var r := ApplyFn(v, cache, o, head, t);
            && KeepsFinal(v, NextView(v, head, r), limit)
            && (r.Success? ==> SparesFinal(r.value, limit))
  {
    var r := ApplyFn(v, cache, o, head, t);
    if r.Success? && !EarlyDuplicate(v, head) {
      if v.tip.None? {
        assert loc == [];
      } else {
        var down, up := ApplySound(w, v, cache, o, loc, head, t);
        CommitKeepsView(w, v, loc, head, r.value, down, up);
        CommitKeepsFinal(loc, down, up, r.value.ancestor.value, limit);
        BatchSparesFinal(r.value, down, up, r.value.ancestor.value, limit);
      }
    }
  }

  // While the finalized height stays fixed, no run rolls back a block at or below it, and
  // every canonical entry at or below it keeps its header.
  lemma {:induction false} RunKeepsFinal(w: World, v: ChainView, c: CacheView, loc: seq<Header>, obs: seq<Observation>,
                                         limit: nat)
    requires ViewOk(w, v, loc) && CacheOk(c) && CacheTruth(w, c.headers) && Sane(w, obs)
    requires v.finalized == Some(limit)
    ensures var end := Run(v, c, obs);
            && KeepsFinal(v, end.view, limit)
            && forall i | 0 <= i < |end.results| :: end.results[i].Success? ==> SparesFinal(end.results[i].value, limit)
    decreases |obs|
  {
    if obs != [] {
      var x := obs[0];
      var r := ApplyFn(v, c.headers, x.oracle, x.head, x.clock);
      var v', c' := NextView(v, x.head, r), NextCache(v, c, x.head, r);
      var loc' := ApplyKeepsView(w, v, c.headers, x.oracle, loc, x.head, x.clock);
      NextCacheOk(w, v, c, x.oracle, loc, x.head, x.clock);
      StepKeepsFinal(w, v, c.headers, x.oracle, loc, x.head, x.clock, limit);
      if r.Success? { CommitKeepsFinalized(v, r.value.events); }
      RunKeepsFinal(w, v', c', loc', obs[1..], limit);
      var end, rest := Run(v, c, obs), Run(v', c', obs[1..]);
      assert end.results == [r] + rest.results;
      assert forall i | 0 < i < |end.results| :: end.results[i] == rest.results[i - 1];
    }
  }

  lemma {:induction false} CommitKeepsFinalized(v: ChainView, es: seq<ChainEvent>)
    ensures CommitEvents(v, es).finalized == v.finalized
    decreases |es|
  {
    if es != [] { CommitKeepsFinalized(CommitEvent(v, es[0]), es[1..]); }
  }

  // ------------------------------------------------------------------ cache transparency

  // The resolver knows exactly the headers of these hashes, and says so whenever it is asked.
  ghost predicate Knows(w: World, o: Oracle, known: set<Hash>) {
    Truthful(w, o) && forall t: nat, h: Hash :: o.headerByHash(t, h) == if h in known then Found(w(h)) else Missing
  }

  // Nothing is held locally that the resolver does not know.
  predicate ViewKnown(v: ChainView, known: set<Hash>) {
    v.hashes <= known && (v.tip.Some? ==> v.tip.value.hash in known)
  }

  predicate EventsKnown(es: seq<ChainEvent>, known: set<Hash>) {
    forall e | e in es :: e.header.hash in known
  }

  lemma ParentTransparent(w: World, v: ChainView, loc: seq<Header>, cache1: map<Hash, Header>,
                          cache2: map<Hash, Header>,
                          o: Oracle, known: set<Hash>, child: Header, t1: nat, t2: nat)
    requires Knows(w, o, known) && CacheTruth(w, cache1) && CacheTruth(w, cache2) && ViewOk(w, v, loc)
    requires ViewKnown(v, known) && cache1.Keys <= known && cache2.Keys <= known
    ensures ParentFor(v, cache1, o, child, t1).result == ParentFor(v, cache2, o, child, t2).result
    ensures var r := ParentFor(v, cache1, o, child, t1).result; r.Success? ==> r.value.hash in known
  {
    MapOfLookup(loc);
    if child.height > 0 {
      var expected := if child.parentHash in known then Found(w(child.parentHash)) else Missing;
      assert o.headerByHash(t1, child.parentHash) == o.headerByHash(t2, child.parentHash) == expected;
      assert child.height - 1 in v.byHeight ==>
          v.byHeight[child.height - 1] in loc && v.byHeight[child.height - 1].hash in v.hashes;
    }
  }

  lemma {:induction false} AncestorWalkTransparent(w: World, v: ChainView, loc: seq<Header>, cache1: map<Hash, Header>,
                                                   cache2: map<Hash, Header>,
                                                   o: Oracle, known: set<Hash>, h: Header, desc: seq<Header>,
                                                   t1: nat, t2: nat)
    requires Knows(w, o, known) && CacheTruth(w, cache1) && CacheTruth(w, cache2) && ViewOk(w, v, loc)
    requires ViewKnown(v, known) && cache1.Keys <= known && cache2.Keys <= known
    requires h.hash in known && forall d | d in desc :: d.hash in known
    ensures AncestorWalk(v, cache1, o, h, desc, t1).result == AncestorWalk(v, cache2, o, h, desc, t2).result
    ensures var r := AncestorWalk(v, cache1, o, h, desc, t1).result;
            r.Success? ==> forall d | d in r.value.1 :: d.hash in known
    decreases v.maxDepth + 1 - |desc|
  {
    if CanonicalMatch(v, o, h) == Success(None) && |desc| + 1 <= v.maxDepth {
      ParentTransparent(w, v, loc, cache1, cache2, o, known, h, t1, t2);
      var p1, p2 := ParentFor(v, cache1, o, h, t1), ParentFor(v, cache2, o, h, t2);
      if p1.result.Success? {
        AncestorWalkTransparent(w, v, loc, cache1, cache2, o, known, p1.result.value, desc + [h], p1.clock, p2.clock);
      }
    }
  }

  lemma {:induction false} RollbackWalkTransparent(w: World, v: ChainView, loc: seq<Header>, cache1: map<Hash, Header>,
                                                   cache2: map<Hash, Header>,
                                                   o: Oracle, known: set<Hash>, h: Header, a: Header,
                                                   acc: seq<Header>, t1: nat, t2: nat)
    requires Knows(w, o, known) && CacheTruth(w, cache1) && CacheTruth(w, cache2) && ViewOk(w, v, loc)
    requires ViewKnown(v, known) && cache1.Keys <= known && cache2.Keys <= known
    requires h.hash in known && forall d | d in acc :: d.hash in known
    ensures RollbackWalk(v, cache1, o, h, a, acc, t1).result == RollbackWalk(v, cache2, o, h, a, acc, t2).result
    ensures var r := RollbackWalk(v, cache1, o, h, a, acc, t1).result;
            r.Success? ==> forall d | d in r.value :: d.hash in known
    decreases v.maxDepth + 1 - |acc|
  {
    if h.height > a.height && |acc| + 1 <= v.maxDepth {
      ParentTransparent(w, v, loc, cache1, cache2, o, known, h, t1, t2);
      var p1, p2 := ParentFor(v, cache1, o, h, t1), ParentFor(v, cache2, o, h, t2);
      if p1.result.Success? {
        RollbackWalkTransparent(w, v, loc, cache1, cache2, o, known, p1.result.value, a, acc + [h], p1.clock, p2.clock);
      }
    }
  }

  // Whatever the caches hold, the result is the same, and it names only known headers.
  lemma ApplyTransparent(w: World, v: ChainView, loc: seq<Header>, cache1: map<Hash, Header>, cache2: map<Hash, Header>,
                         o: Oracle, known: set<Hash>, head: Header, t1: nat, t2: nat)
    requires Knows(w, o, known) && CacheTruth(w, cache1) && CacheTruth(w, cache2) && ViewOk(w, v, loc)
    requires ViewKnown(v, known) && cache1.Keys <= known && cache2.Keys <= known && head.hash in known
    ensures ApplyFn(v, cache1, o, head, t1) == ApplyFn(v, cache2, o, head, t2)
    ensures var r := ApplyFn(v, cache1, o, head, t1); r.Success? ==> EventsKnown(r.value.events, known)
  {
    AncestorWalkTransparent(w, v, loc, cache1, cache2, o, known, head, [], t1, t2);
    var f1, f2 := AncestorWalk(v, cache1, o, head, [], t1), AncestorWalk(v, cache2, o, head, [], t2);
    if v.tip.Some? && f1.result.Success? {
      var a := f1.result.value.0;
      RollbackWalkTransparent(w, v, loc, cache1, cache2, o, known, v.tip.value, a, [], f1.clock, f2.clock);
      var rolled := RollbackWalk(v, cache1, o, v.tip.value, a, [], f1.clock).result;
      if rolled.Success? {
        DiffKnown(a, rolled.value, f1.result.value.1, known);
      }
    }
  }

  lemma DiffKnown(a: Header, rollbacks: seq<Header>, desc: seq<Header>, known: set<Hash>)
    requires (forall d | d in rollbacks :: d.hash in known) && (forall d | d in desc :: d.hash in known)
    ensures EventsKnown(DiffBatch(a, rollbacks, desc).events, known)
  {
    forall e | e in DiffBatch(a, rollbacks, desc).events ensures e.header.hash in known {
      assert e.header in rollbacks || e.header in Reverse(desc);
    }
  }

  // ------------------------------------------------------------------ what a step holds stays known

  lemma {:induction false} CommitKnown(v: ChainView, es: seq<ChainEvent>, known: set<Hash>)
    requires v.hashes <= known && EventsKnown(es, known)
    ensures CommitEvents(v, es).hashes <= known && CommitEvents(v, es).tip == v.tip
    decreases |es|
  {
    if es != [] {
      assert es[0] in es;
      CommitKnown(CommitEvent(v, es[0]), es[1..], known);
    }
  }

  lemma {:induction false} LastApplyKnown(es: seq<ChainEvent>, known: set<Hash>)
    requires EventsKnown(es, known)
    ensures LastApply(es).Some? ==> LastApply(es).value.hash in known
    decreases |es|
  {
    if es != [] {
      assert Last(es) in es;
      LastApplyKnown(es[..|es| - 1], known);
    }
  }

  lemma {:induction false} CacheKnown(c: CacheView, es: seq<ChainEvent>, known: set<Hash>)
    requires c.headers.Keys <= known && EventsKnown(es, known)
    ensures CacheEvents(c, es).headers.Keys <= known
    decreases |es|
  {
    if es != [] {
      assert es[0] in es;
      CacheKnown(CacheInsert(c, es[0].header), es[1..], known);
    }
  }

  lemma StepKnown(v: ChainView, c: CacheView, head: Header, r: Result<ChainBatch, ChainError>, known: set<Hash>)
    requires ViewKnown(v, known) && c.headers.Keys <= known && head.hash in known
    requires r.Success? ==> EventsKnown(r.value.events, known)
    requires r.Success? && r.value.ancestor.Some? && v.tip.None? ==> r.value.ancestor.value.hash in known
    ensures ViewKnown(NextView(v, head, r), known) && NextCache(v, c, head, r).headers.Keys <= known
  {
    if r.Success? {
      CommitKnown(v, r.value.events, known);
      LastApplyKnown(r.value.events, known);
      CacheKnown(c, r.value.events, known);
    }
  }

  // The same heads and resolvers; only the call clocks, which depend on cache hits, may differ.
  ghost predicate SameQuestions(a: seq<Observation>, b: seq<Observation>) {
    |a| == |b| && forall i | 0 <= i < |a| :: a[i].head == b[i].head && a[i].oracle == b[i].oracle
  }

  // What the source knows at each observation: it may learn of blocks, among them every
  // head it reports, and it never forgets one.
  ghost predicate Learns(w: World, obs: seq<Observation>, known: seq<set<Hash>>) {
    && |known| == |obs|
    && (forall i | 0 <= i < |obs| :: Knows(w, obs[i].oracle, known[i]) && obs[i].head.hash in known[i])
    && (forall i, j | 0 <= i < |known| && 0 <= j < |known| && j == i + 1 :: known[i] <= known[j])
  }

  // Two states that differ only in cache capacity and contents return the same results
  // and reach the same view over every sequence of heads: eviction decides nothing.
  lemma {:induction false} RunTransparent(w: World, v: ChainView, loc: seq<Header>, c1: CacheView, c2: CacheView,
                                          obs1: seq<Observation>, obs2: seq<Observation>, known: seq<set<Hash>>)
    requires ViewOk(w, v, loc) && Sane(w, obs1) && SameQuestions(obs1, obs2) && Learns(w, obs1, known)
    requires known != [] ==> ViewKnown(v, known[0]) && c1.headers.Keys <= known[0] && c2.headers.Keys <= known[0]
    requires CacheOk(c1) && CacheTruth(w, c1.headers) && CacheOk(c2) && CacheTruth(w, c2.headers)
    ensures Run(v, c1, obs1).results == Run(v, c2, obs2).results
    ensures Run(v, c1, obs1).view == Run(v, c2, obs2).view
    decreases |obs1|
  {
    hide Knows, Truthful, CacheOk, CacheTruth, ViewOk, ApplyFn, NextView, NextCache, ViewKnown;
    if obs1 != [] {
      var x, y := obs1[0], obs2[0];
      assert Knows(w, x.oracle, known[0]);
      ApplyTransparent(w, v, loc, c1.headers, c2.headers, x.oracle, known[0], x.head, x.clock, y.clock);
      var r := ApplyFn(v, c1.headers, x.oracle, x.head, x.clock);
      var loc' := ApplyKeepsView(w, v, c1.headers, x.oracle, loc, x.head, x.clock);
      NextCacheOk(w, v, c1, x.oracle, loc, x.head, x.clock);
      NextCacheOk(w, v, c2, y.oracle, loc, y.head, y.clock);
      if v.tip.None? { NoTipNoAncestor(v, c1.headers, x.oracle, x.head, x.clock); }
      StepKnown(v, c1, x.head, r, known[0]);
      StepKnown(v, c2, x.head, r, known[0]);
      if |known| > 1 {
        KnownGrows(NextView(v, x.head, r), known[0], known[1]);
      }
      RunTransparent(w, NextView(v, x.head, r), loc', NextCache(v, c1, x.head, r), NextCache(v, c2, y.head, r),
                     obs1[1..], obs2[1..], known[1..]);
    }
  }

  lemma KnownGrows(v: ChainView, known: set<Hash>, more: set<Hash>)
    requires ViewKnown(v, known) && known <= more
    ensures ViewKnown(v, more)
  {
  }

  lemma NoTipNoAncestor(v: ChainView, cache: map<Hash, Header>, o: Oracle, head: Header, t: nat)
    requires v.tip.None?
    ensures var r := ApplyFn(v, cache, o, head, t);
            r.Success? && r.value.ancestor.Some? ==> r.value.ancestor.value == head
  {
  }

  // ------------------------------------------------------------------ what a refusal means

  // A walk down from `current`, with what it passed before.
  ghost predicate Walk(run: seq<Header>, passed: seq<Header>, current: Header) {
    passed + [current] <= run && Descends(run)
  }

  lemma ParentLinks(v: ChainView, cache: map<Hash, Header>, o: Oracle, child: Header, t: nat)
    requires ParentFor(v, cache, o, child, t).result.Success?
    ensures Links(ParentFor(v, cache, o, child, t).result.value, child)
  {
  }

  lemma DescendsOn(passed: seq<Header>, current: Header, parent: Header)
    requires Descends(passed + [current]) && Links(parent, current)
    ensures Descends(passed + [current] + [parent])
  {
    var s, more := passed + [current], passed + [current] + [parent];
    forall i, j | 0 <= i < |more| && 0 <= j < |more| && j == i + 1 ensures Links(more[j], more[i]) {
      if j < |s| { assert Links(s[j], s[i]); }
    }
  }

  lemma {:induction false} BranchTooDeep(v: ChainView, cache: map<Hash, Header>, o: Oracle, current: Header,
                                         desc: seq<Header>, t: nat) returns (run: seq<Header>)
    requires AncestorWalk(v, cache, o, current, desc, t).result.Failure?
    requires AncestorWalk(v, cache, o, current, desc, t).result.error.MaxDepthExceeded?
    requires |desc| <= v.maxDepth && Descends(desc + [current])
    requires forall h | h in desc :: CanonicalMatch(v, o, h) == Success(None)
    ensures AncestorWalk(v, cache, o, current, desc, t).result.error.maxDepth == v.maxDepth
    ensures |run| == v.maxDepth + 1 && Walk(run, desc, current)
    ensures forall h | h in run :: CanonicalMatch(v, o, h) == Success(None)
    decreases v.maxDepth - |desc|
  {
    assert CanonicalMatch(v, o, current) == Success(None);
    if |desc| == v.maxDepth {
      run := desc + [current];
    } else {
      var parent := ParentFor(v, cache, o, current, t);
      ParentLinks(v, cache, o, current, t);
      DescendsOn(desc, current, parent.result.value);
      run := BranchTooDeep(v, cache, o, parent.result.value, desc + [current], parent.clock);
    }
  }

  lemma {:induction false} RollbacksTooDeep(v: ChainView, cache: map<Hash, Header>, o: Oracle, current: Header,
                                            ancestor: Header, acc: seq<Header>, t: nat) returns (run: seq<Header>)
    requires RollbackWalk(v, cache, o, current, ancestor, acc, t).result.Failure?
    requires RollbackWalk(v, cache, o, current, ancestor, acc, t).result.error.MaxDepthExceeded?
    requires |acc| <= v.maxDepth && Descends(acc + [current])
    requires forall h | h in acc :: h.height > ancestor.height
    ensures RollbackWalk(v, cache, o, current, ancestor, acc, t).result.error.maxDepth == v.maxDepth
    ensures |run| == v.maxDepth + 1 && Walk(run, acc, current)
    ensures forall h | h in run :: h.height > ancestor.height
    decreases v.maxDepth - |acc|
  {
    if |acc| == v.maxDepth {
      run := acc + [current];
    } else {
      var parent := ParentFor(v, cache, o, current, t);
      ParentLinks(v, cache, o, current, t);
      DescendsOn(acc, current, parent.result.value);
      run := RollbacksTooDeep(v, cache, o, parent.result.value, ancestor, acc + [current], parent.clock);
    }
  }

  // The walks never speak of finality.
  lemma {:induction false} BranchForgetsFinality(v: ChainView, cache: map<Hash, Header>, o: Oracle, current: Header,
                                                 desc: seq<Header>, t: nat)
    ensures var r := AncestorWalk(v, cache, o, current, desc, t).result; r.Failure? ==> !r.error.FinalizedBoundary?
    decreases v.maxDepth + 1 - |desc|
  {
    if CanonicalMatch(v, o, current) == Success(None) && |desc| + 1 <= v.maxDepth {
      var parent := ParentFor(v, cache, o, current, t);
      if parent.result.Success? {
        BranchForgetsFinality(v, cache, o, parent.result.value, desc + [current], parent.clock);
      }
    }
  }

  lemma {:induction false} RollbacksForgetFinality(v: ChainView, cache: map<Hash, Header>, o: Oracle, current: Header,
                                                   ancestor: Header, acc: seq<Header>, t: nat)
    ensures var r := RollbackWalk(v, cache, o, current, ancestor, acc, t).result;
            r.Failure? ==> !r.error.FinalizedBoundary?
    decreases v.maxDepth + 1 - |acc|
  {
    if current.height > ancestor.height && |acc| + 1 <= v.maxDepth {
      var parent := ParentFor(v, cache, o, current, t);
      if parent.result.Success? {
        RollbacksForgetFinality(v, cache, o, parent.result.value, ancestor, acc + [current], parent.clock);
      }
    }
  }

  // A depth refusal is honest, whatever the resolver answers: one header more than the bound
  // lies, linked, on the way down from the head without being canonical, or on the way down
  // from the tip. And a finality refusal names the boundary and an ancestor below it.
  lemma DepthRefusalIsHonest(v: ChainView, cache: map<Hash, Header>, o: Oracle, head: Header, t: nat)
    returns (run: seq<Header>)
    requires ApplyFn(v, cache, o, head, t).Failure?
    ensures var e := ApplyFn(v, cache, o, head, t).error;
            && (e.MaxDepthExceeded? ==>
                  && e.maxDepth == v.maxDepth && |run| == v.maxDepth + 1 && Descends(run)
                  && if run[0] == head then forall h | h in run :: CanonicalMatch(v, o, h) == Success(None)
                     else v.tip == Some(run[0]))
            && (e.FinalizedBoundary? ==> v.finalized == Some(e.finalizedHeight) && e.ancestorHeight < e.finalizedHeight)
  {
    run := [];
    var e := ApplyFn(v, cache, o, head, t).error;
    if e.MaxDepthExceeded? {
      var found := AncestorWalk(v, cache, o, head, [], t);
      assert [] + [head] == [head];
      if found.result.Failure? {
        run := BranchTooDeep(v, cache, o, head, [], t);
      } else {
        var top := v.tip.value;
        assert [] + [top] == [top];
        run := RollbacksTooDeep(v, cache, o, top, found.result.value.0, [], found.clock);
        assert run[0] == ([] + [top])[0];
      }
    }
    if e.FinalizedBoundary? {
      var found := AncestorWalk(v, cache, o, head, [], t);
      BranchForgetsFinality(v, cache, o, head, [], t);
      if found.result.Success? {
        RollbacksForgetFinality(v, cache, o, v.tip.value, found.result.value.0, [], found.clock);
      }
    }
  }

  // ------------------------------------------------------------------ what the cache is for

  lemma {:induction false} CacheEventsSnoc(c: CacheView, es: seq<ChainEvent>, e: ChainEvent)
    ensures CacheEvents(c, es + [e]) == CacheInsert(CacheEvents(c, es), e.header)
    decreases |es|
  {
    if es == [] {
      assert ([] + [e])[1..] == [] && (es + [e])[0] == e;
      assert CacheEvents(CacheInsert(c, e.header), []) == CacheInsert(c, e.header);
    } else {
      assert (es + [e])[1..] == es[1..] + [e];
      CacheEventsSnoc(CacheInsert(c, es[0].header), es[1..], e);
    }
  }

  // The head of every accepted batch that ends with it, and every known head, is cached.
  lemma HeadIsCached(v: ChainView, c: CacheView, head: Header, r: Result<ChainBatch, ChainError>)
    requires r.Success? && (EarlyDuplicate(v, head) || (r.value.events != [] && Last(r.value.events).header == head))
    ensures var after := NextCache(v, c, head, r).headers; head.hash in after && after[head.hash] == head
  {
    if !EarlyDuplicate(v, head) {
      var es, n := r.value.events, |r.value.events| - 1;
      assert es == es[..n] + [es[n]];
      CacheEventsSnoc(c, es[..n], es[n]);
    }
  }

  // A branch whose headers are all cached is walked down to its canonical root without asking
  // the source for anything.
  lemma {:induction false} CachedWalkIsFree(v: ChainView, cache: map<Hash, Header>, o: Oracle, run: seq<Header>, j: nat,
                                            desc: seq<Header>, t: nat)
    requires Linked(run) && j < |run| && CanonicalMatch(v, o, run[0]) == Success(Some(run[0]))
    requires forall h | h in run :: h.hash in cache && cache[h.hash] == h
    ensures AncestorWalk(v, cache, o, run[j], desc, t).clock == t
    decreases j
  {
    if j > 0 && CanonicalMatch(v, o, run[j]) == Success(None) && |desc| + 1 <= v.maxDepth {
      assert Links(run[j - 1], run[j]) && run[j - 1] in run;
      assert ParentFor(v, cache, o, run[j], t) == Timed(Success(run[j - 1]), t);
      CachedWalkIsFree(v, cache, o, run, j - 1, desc + [run[j]], t);
    }
  }
}
