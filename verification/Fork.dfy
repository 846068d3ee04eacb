// The declarative reading of the hash walk: against a canonical chain and the head's own
// ancestry, an applied head is exactly the minimal diff between the two.
module Fork {
  import opened Wrappers
  import opened Headers
  import opened Chain
  import opened ChainTheory

  // Position k of the path is its highest header that is also canonical.
  ghost predicate IsFork(c: seq<Header>, path: seq<Header>, k: int) {
    0 <= k < |path| && path[k] in c && forall i | k < i < |path| :: path[i] !in c
  }

  // The path from genesis to a head.
  ghost predicate IsPath(w: World, path: seq<Header>) {
    path != [] && Linked(path) && AllGenuine(w, path) && path[0].height == 0
  }

  // Canonical lookups answer from exactly the chain c.
  ghost predicate LooksUp(o: Oracle, c: seq<Header>) {
    && (forall h: Header {:trigger h in c} :: h in c ==> o.canonicalByHash(h.hash) == Found(h))
    && (forall x: Hash :: x !in HashesOf(c) ==> o.canonicalByHash(x) == Missing)
    && (forall k: nat :: o.canonicalAtHeight(k) == if k in MapOf(c) then Found(MapOf(c)[k]) else Missing)
  }

  ghost predicate Serves(o: Oracle, s: seq<Header>) {
    forall t: nat, h: Header {:trigger o.headerByHash(t, h.hash)} :: h in s ==> o.headerByHash(t, h.hash) == Found(h)
  }

  // The chain ending at the tip, of which the state may hold any nonempty suffix.
  ghost predicate IsCanonical(w: World, v: ChainView, loc: seq<Header>, c: seq<Header>) {
    && Linked(c) && AllGenuine(w, c)
    && 0 < |loc| <= |c| && loc == c[|c| - |loc|..]
    && ViewOk(w, v, loc)
  }

  // Number of canonical headers up to and including the one at the path's position k.
  function Below(c: seq<Header>, k: int): int
    requires c != []
  {
    k - c[0].height + 1
  }

  lemma MatchIsMembership(w: World, v: ChainView, o: Oracle, loc: seq<Header>, c: seq<Header>, h: Header)
    requires IsCanonical(w, v, loc, c) && LooksUp(o, c) && Genuine(w, h)
    ensures CanonicalMatch(v, o, h) == Success(if h in c then Some(h) else None)
  {
    KnownIsMember(w, v, loc, h);
    HashMeansMember(w, c, h);
    MapOfLookup(c);
    if h.hash !in HashesOf(c) {
      assert h.height in MapOf(c) ==> MapOf(c)[h.height] in c;
    }
  }

  lemma ParentServed(w: World, v: ChainView, cache: map<Hash, Header>, o: Oracle, loc: seq<Header>,
                     child: Header, parent: Header, t: nat)
    requires CacheTruth(w, cache) && ViewOk(w, v, loc) && Links(parent, child) && Genuine(w, parent)
    requires o.headerByHash(t, child.parentHash) == Found(parent)
    ensures ParentFor(v, cache, o, child, t).result == Success(parent)
  {
    MapOfLookup(loc);
    assert child.height - 1 in v.byHeight ==> v.byHeight[child.height - 1] in loc;
  }

  lemma ForkIsUnique(c: seq<Header>, path: seq<Header>, j: int, k: int)
    requires IsFork(c, path, j) && IsFork(c, path, k)
    ensures j == k
  {
  }

  // One step of the ancestor walk along the head's own path.
  lemma WalkStep(w: World, v: ChainView, cache: map<Hash, Header>, o: Oracle, loc: seq<Header>,
                 c: seq<Header>, path: seq<Header>, j: nat, t: nat) returns (t': nat)
    requires IsCanonical(w, v, loc, c) && IsPath(w, path) && CacheTruth(w, cache)
    requires LooksUp(o, c) && Serves(o, path) && j < |path| && |path| - 1 - j <= v.maxDepth
    ensures var r := AncestorWalk(v, cache, o, path[j], Reverse(path[j + 1..]), t).result;
            && (path[j] in c ==> r == Success((path[j], Reverse(path[j + 1..]))))
            && (path[j] !in c && |path| - j > v.maxDepth ==> r == Failure(MaxDepthExceeded(v.maxDepth)))
            && (path[j] !in c && |path| - j <= v.maxDepth && j == 0 ==> r == Failure(MissingParent(path[0].parentHash)))
            && (path[j] !in c && j > 0 && |path| - j <= v.maxDepth ==>
                  r == AncestorWalk(v, cache, o, path[j - 1], Reverse(path[j..]), t').result)
  {
    var h := path[j];
    assert h in path;
    MatchIsMembership(w, v, o, loc, c, h);
    HeightAt(path, j);
    t' := ParentFor(v, cache, o, h, t).clock;
    if j > 0 {
      var parent := path[j - 1];
      assert Links(parent, h) && parent in path;
      assert o.headerByHash(t, parent.hash) == Found(parent);
      ParentServed(w, v, cache, o, loc, h, parent, t);
      assert path[j..] == [h] + path[j + 1..];
      assert Reverse(path[j + 1..]) + [h] == Reverse(path[j..]);
    }
  }

  lemma {:induction false} WalkFindsFork(w: World, v: ChainView, cache: map<Hash, Header>, o: Oracle, loc: seq<Header>,
                                         c: seq<Header>, path: seq<Header>, k: int, j: nat, t: nat)
    requires IsCanonical(w, v, loc, c) && IsPath(w, path) && CacheTruth(w, cache)
    requires LooksUp(o, c) && Serves(o, path)
    requires IsFork(c, path, k) && k <= j < |path| && |path| - 1 - j <= v.maxDepth
    ensures var r := AncestorWalk(v, cache, o, path[j], Reverse(path[j + 1..]), t).result;
            r == if |path| - 1 - k <= v.maxDepth then Success((path[k], Reverse(path[k + 1..])))
                 else Failure(MaxDepthExceeded(v.maxDepth))
    decreases j
  {
    var t' := WalkStep(w, v, cache, o, loc, c, path, j, t);
    if k < j && |path| - j <= v.maxDepth {
      WalkFindsFork(w, v, cache, o, loc, c, path, k, j - 1, t');
    }
  }

  // Why a head is refused whose path shares nothing with the chain.
  function NothingShared(v: ChainView, path: seq<Header>): ChainError
    requires path != []
  {
    if |path| > v.maxDepth then MaxDepthExceeded(v.maxDepth) else MissingParent(path[0].parentHash)
  }

  lemma {:induction false} WalkWithoutFork(w: World, v: ChainView, cache: map<Hash, Header>, o: Oracle,
                                           loc: seq<Header>,
                                           c: seq<Header>, path: seq<Header>, j: nat, t: nat)
    requires IsCanonical(w, v, loc, c) && IsPath(w, path) && CacheTruth(w, cache)
    requires LooksUp(o, c) && Serves(o, path)
    requires j < |path| && |path| - 1 - j <= v.maxDepth && forall i | 0 <= i < |path| :: path[i] !in c
    ensures AncestorWalk(v, cache, o, path[j], Reverse(path[j + 1..]), t).result == Failure(NothingShared(v, path))
    decreases j
  {
    var t' := WalkStep(w, v, cache, o, loc, c, path, j, t);
    if j > 0 && |path| - j <= v.maxDepth {
      WalkWithoutFork(w, v, cache, o, loc, c, path, j - 1, t');
    }
  }

  // The fork is the highest shared header, so it exists as soon as anything is shared.
  lemma {:induction false} SharedHasFork(c: seq<Header>, path: seq<Header>, n: nat)
    requires n <= |path| && (exists i :: 0 <= i < n && path[i] in c) && forall i | n <= i < |path| :: path[i] !in c
    ensures exists k :: IsFork(c, path, k)
  {
    if path[n - 1] in c {
      assert IsFork(c, path, n - 1);
    } else {
      SharedHasFork(c, path, n - 1);
    }
  }

  lemma {:induction false} WalkRollsBack(w: World, v: ChainView, cache: map<Hash, Header>, o: Oracle, loc: seq<Header>,
                                         c: seq<Header>, j: nat, m: nat, t: nat)
    requires IsCanonical(w, v, loc, c) && CacheTruth(w, cache) && Serves(o, c)
    requires m <= j < |c| && |c| - 1 - j <= v.maxDepth
    ensures RollbackWalk(v, cache, o, c[j], c[m], Reverse(c[j + 1..]), t).result
         == if |c| - 1 - m <= v.maxDepth then Success(Reverse(c[m + 1..])) else Failure(MaxDepthExceeded(v.maxDepth))
    decreases j
  {
    var acc := Reverse(c[j + 1..]);
    HeightAt(c, j);
    HeightAt(c, m);
    if m < j && |acc| + 1 <= v.maxDepth {
      var parent := c[j - 1];
      assert Links(parent, c[j]) && parent in c;
      assert o.headerByHash(t, parent.hash) == Found(parent);
      ParentServed(w, v, cache, o, loc, c[j], parent, t);
      assert c[j..] == [c[j]] + c[j + 1..];
      assert acc + [c[j]] == Reverse(c[j..]);
      WalkRollsBack(w, v, cache, o, loc, c, j - 1, m, ParentFor(v, cache, o, c[j], t).clock);
    }
  }

  lemma MemberPosition(c: seq<Header>, path: seq<Header>, k: nat)
    requires Linked(c) && Linked(path) && k < |path| && path[0].height == 0 && path[k] in c
    ensures 0 < Below(c, k) <= |c| && c[Below(c, k) - 1] == path[k] && path[k].height == k
  {
    var i :| 0 <= i < |c| && c[i] == path[k];
    HeightAt(c, i);
    HeightAt(path, k);
  }

  // Both halves within the depth bound, not below finality.
  predicate WithinLimits(v: ChainView, c: seq<Header>, path: seq<Header>, k: int)
    requires c != []
  {
    && |path| - 1 - k <= v.maxDepth
    && |c| - Below(c, k) <= v.maxDepth
    && (v.finalized.Some? ==> v.finalized.value <= k)
  }

  // Why a head is refused whose fork at k is outside the limits, in the order in which they
  // are checked: the branch, finality, the rollbacks.
  function LimitError(v: ChainView, path: seq<Header>, k: nat): ChainError {
    if |path| - 1 - k <= v.maxDepth && v.finalized.Some? && k < v.finalized.value
    then FinalizedBoundary(k, v.finalized.value) else MaxDepthExceeded(v.maxDepth)
  }

  function TransitionAt(c: seq<Header>, path: seq<Header>, k: nat): Transition
    requires c != []
  {
    if Below(c, k) < |c| then Reorg else if k + 1 < |path| then Gap else Duplicate
  }

  // The branch is too deep, or else finality allows the fork and the rollbacks are too deep;
  // without a fork the whole path is the branch.
  ghost predicate TooDeep(v: ChainView, c: seq<Header>, path: seq<Header>)
    requires c != []
  {
    if exists k :: IsFork(c, path, k)
    then exists k: nat :: IsFork(c, path, k) && !WithinLimits(v, c, path, k) && LimitError(v, path, k).MaxDepthExceeded?
    else |path| > v.maxDepth
  }

  // The branch is not too deep, but its fork is below the finalized height.
  ghost predicate BelowFinal(v: ChainView, c: seq<Header>, path: seq<Header>)
    requires c != []
  {
    exists k: nat :: IsFork(c, path, k) && LimitError(v, path, k).FinalizedBoundary?
  }

  // Why a head is refused that is neither known nor extends the tip.
  ghost function RefusalOf(v: ChainView, c: seq<Header>, path: seq<Header>): ChainError
    requires c != [] && path != []
  {
    if Last(path).parentHash == Last(c).hash then InvalidExtensionHeight(Last(path).height, Last(c).height)
    else if TooDeep(v, c, path) then MaxDepthExceeded(v.maxDepth)
    else if k: nat :| IsFork(c, path, k) then LimitError(v, path, k)
    else MissingParent(path[0].parentHash)
  }

  // Some fork the limits allow.
  ghost predicate CanSwitch(v: ChainView, c: seq<Header>, path: seq<Header>)
    requires c != []
  {
    exists k :: IsFork(c, path, k) && WithinLimits(v, c, path, k)
  }

  // The minimal diff at fork k: the ancestor is the nearest canonical header on the path,
  // the rollbacks are exactly the canonical headers above it, descendant first, and the
  // applies exactly the path above it.
  ghost predicate IsDiff(c: seq<Header>, path: seq<Header>, k: int, ancestor: Option<Header>, events: seq<ChainEvent>)
    requires c != [] && 0 <= k < |path|
  {
    && ancestor == Some(path[k])
    && 0 < Below(c, k) <= |c|
    && events == Rollbacks(Reverse(c[Below(c, k)..])) + Applies(path[k + 1..])
  }

  lemma ExtendIsDiff(w: World, c: seq<Header>, path: seq<Header>)
    requires Linked(c) && AllGenuine(w, c) && c != [] && IsPath(w, path) && Links(Last(c), Last(path))
    ensures IsFork(c, path, |path| - 2)
    ensures IsDiff(c, path, |path| - 2, Some(Last(c)), [Apply(Last(path))])
  {
    var n := |path| - 1;
    HeightAt(path, n);
    HeightAt(c, |c| - 1);
    assert Last(c) in c && path[n - 1] in path && Links(path[n - 1], path[n]);
    assert path[n - 1] == Last(c);
    if path[n] in c {
      var i :| 0 <= i < |c| && c[i] == path[n];
      HeightAt(c, i);
    }
    assert IsFork(c, path, n - 1);
    MemberPosition(c, path, n - 1);
    assert c[Below(c, n - 1)..] == [] && path[n..] == [path[n]];
    assert Rollbacks(Reverse(c[Below(c, n - 1)..])) + Applies(path[n..]) == [Apply(path[n])];
  }

  lemma ApplyFromWalks(v: ChainView, cache: map<Hash, Header>, o: Oracle, head: Header, t: nat,
                       found: Timed<(Header, seq<Header>)>, rolled: Timed<seq<Header>>)
    requires v.tip.Some? && !EarlyDuplicate(v, head) && head.parentHash != v.tip.value.hash
    requires found == AncestorWalk(v, cache, o, head, [], t)
    requires found.result.Success? ==>
              rolled == RollbackWalk(v, cache, o, v.tip.value, found.result.value.0, [], found.clock)
    ensures var r := ApplyFn(v, cache, o, head, t);
            && (r.Success? <==>
                  found.result.Success? && !CrossesFinality(v, found.result.value.0) && rolled.result.Success?)
            && (r.Success? ==> r.value == DiffBatch(found.result.value.0, rolled.result.value, found.result.value.1))
            && (found.result.Failure? ==> r == Failure(found.result.error))
            && (found.result.Success? && CrossesFinality(v, found.result.value.0) ==>
                  r == Failure(FinalizedBoundary(found.result.value.0.height, v.finalized.value)))
            && (found.result.Success? && !CrossesFinality(v, found.result.value.0) && rolled.result.Failure? ==>
                  r == Failure(rolled.result.error))
  {
  }

  lemma AncestorIsFork(w: World, v: ChainView, cache: map<Hash, Header>, o: Oracle, loc: seq<Header>,
                       c: seq<Header>, path: seq<Header>, k: int, t: nat)
    requires IsCanonical(w, v, loc, c) && IsPath(w, path) && CacheTruth(w, cache)
    requires LooksUp(o, c) && Serves(o, path) && IsFork(c, path, k)
    ensures var r := AncestorWalk(v, cache, o, Last(path), [], t).result;
            r == if |path| - 1 - k <= v.maxDepth then Success((path[k], Reverse(path[k + 1..])))
                 else Failure(MaxDepthExceeded(v.maxDepth))
  {
    assert Reverse(path[|path|..]) == [];
    WalkFindsFork(w, v, cache, o, loc, c, path, k, |path| - 1, t);
  }

  lemma SwitchResult(w: World, v: ChainView, cache: map<Hash, Header>, o: Oracle, loc: seq<Header>,
                     c: seq<Header>, path: seq<Header>, k: int, t: nat)
    requires IsCanonical(w, v, loc, c) && IsPath(w, path) && CacheTruth(w, cache)
    requires LooksUp(o, c) && Serves(o, path) && Serves(o, c)
    requires !EarlyDuplicate(v, Last(path)) && Last(path).parentHash != Last(c).hash && IsFork(c, path, k)
    ensures 0 < Below(c, k) <= |c|
    ensures var r := ApplyFn(v, cache, o, Last(path), t);
            && (r.Success? <==> WithinLimits(v, c, path, k))
            && (r.Success? ==> r.value == DiffBatch(path[k], Reverse(c[Below(c, k)..]), Reverse(path[k + 1..])))
            && (r.Failure? ==> r.error == LimitError(v, path, k))
  {
    MemberPosition(c, path, k);
    assert Last(loc) == Last(c);
    var found := AncestorWalk(v, cache, o, Last(path), [], t);
    var rolled := RollbackWalk(v, cache, o, Last(c), path[k], [], found.clock);
    AncestorIsFork(w, v, cache, o, loc, c, path, k, t);
    assert rolled.result == if |c| - Below(c, k) <= v.maxDepth then Success(Reverse(c[Below(c, k)..]))
        else Failure(MaxDepthExceeded(v.maxDepth)) by {
      assert Reverse(c[|c|..]) == [];
      WalkRollsBack(w, v, cache, o, loc, c, |c| - 1, Below(c, k) - 1, found.clock);
    }
    ApplyFromWalks(v, cache, o, Last(path), t, found, rolled);
  }

  // A head that neither is known nor extends the tip is accepted exactly when its fork is
  // within the limits; a refusal names the limit that is hit first.
  lemma SwitchIsDiff(w: World, v: ChainView, cache: map<Hash, Header>, o: Oracle, loc: seq<Header>,
                     c: seq<Header>, path: seq<Header>, k: int, t: nat)
    requires IsCanonical(w, v, loc, c) && IsPath(w, path) && CacheTruth(w, cache)
    requires LooksUp(o, c) && Serves(o, path) && Serves(o, c)
    requires !EarlyDuplicate(v, Last(path)) && Last(path).parentHash != Last(c).hash && IsFork(c, path, k)
    ensures var r := ApplyFn(v, cache, o, Last(path), t);
            && (r.Success? <==> CanSwitch(v, c, path))
            && (r.Success? ==> IsDiff(c, path, k, r.value.ancestor, r.value.events))
            && (r.Success? ==> r.value.transition == TransitionAt(c, path, k))
            && (r.Failure? ==> r.error == LimitError(v, path, k))
  {
    SwitchResult(w, v, cache, o, loc, c, path, k, t);
    forall j | IsFork(c, path, j) ensures j == k { ForkIsUnique(c, path, j, k); }
    assert Reverse(Reverse(path[k + 1..])) == path[k + 1..];
    assert CanSwitch(v, c, path) <==> WithinLimits(v, c, path, k);
  }

  lemma NoForkFails(w: World, v: ChainView, cache: map<Hash, Header>, o: Oracle, loc: seq<Header>,
                    c: seq<Header>, path: seq<Header>, t: nat)
    requires IsCanonical(w, v, loc, c) && IsPath(w, path) && CacheTruth(w, cache)
    requires LooksUp(o, c) && Serves(o, path)
    requires !EarlyDuplicate(v, Last(path)) && Last(path).parentHash != Last(c).hash
    requires forall k :: !IsFork(c, path, k)
    ensures ApplyFn(v, cache, o, Last(path), t) == Failure(NothingShared(v, path))
  {
    if i :| 0 <= i < |path| && path[i] in c { SharedHasFork(c, path, |path|); }
    assert Last(loc) == Last(c);
    assert Reverse(path[|path|..]) == [];
    WalkWithoutFork(w, v, cache, o, loc, c, path, |path| - 1, t);
  }

  // Past the duplicate check, a head is accepted exactly when it extends the tip or its
  // fork is within the limits, and then the batch is the minimal diff. Otherwise the error
  // tells which limit was hit.
  lemma ApplyIsDiff(w: World, v: ChainView, cache: map<Hash, Header>, o: Oracle, loc: seq<Header>,
                    c: seq<Header>, path: seq<Header>, t: nat)
    requires IsCanonical(w, v, loc, c) && IsPath(w, path) && CacheTruth(w, cache)
    requires LooksUp(o, c) && Serves(o, path) && Serves(o, c)
    requires !EarlyDuplicate(v, Last(path))
    ensures var r := ApplyFn(v, cache, o, Last(path), t);
            && (r.Success? <==>
                  Links(Last(c), Last(path)) || (Last(path).parentHash != Last(c).hash && CanSwitch(v, c, path)))
            && (r.Success? ==> exists k :: IsFork(c, path, k))
            && (r.Success? ==> forall k | IsFork(c, path, k) ::
                  && IsDiff(c, path, k, r.value.ancestor, r.value.events)
                  && r.value.transition == if Links(Last(c), Last(path)) then Extend else TransitionAt(c, path, k))
            && (r.Failure? ==> r.error == RefusalOf(v, c, path))
  {
    var head, tip, n := Last(path), Last(c), |path| - 1;
    assert Last(loc) == tip && v.tip == Some(tip);
    if Links(tip, head) {
      ExtendIsDiff(w, c, path);
      forall k | IsFork(c, path, k) ensures k == n - 1 { ForkIsUnique(c, path, k, n - 1); }
    } else if head.parentHash != tip.hash {
      if k :| IsFork(c, path, k) {
        SwitchIsDiff(w, v, cache, o, loc, c, path, k, t);
        forall j | IsFork(c, path, j) ensures j == k { ForkIsUnique(c, path, j, k); }
      } else {
        NoForkFails(w, v, cache, o, loc, c, path, t);
      }
    }
  }

  // A head above genesis is accepted exactly when it extends the tip or its fork is allowed.
  lemma ApplyAccepts(w: World, v: ChainView, cache: map<Hash, Header>, o: Oracle, loc: seq<Header>,
                     c: seq<Header>, path: seq<Header>, t: nat)
    requires IsCanonical(w, v, loc, c) && IsPath(w, path) && CacheTruth(w, cache)
    requires LooksUp(o, c) && Serves(o, path) && Serves(o, c)
    requires !EarlyDuplicate(v, Last(path)) && |path| > 1
    ensures ApplyFn(v, cache, o, Last(path), t).Success? <==> Links(Last(c), Last(path)) || CanSwitch(v, c, path)
  {
    ApplyIsDiff(w, v, cache, o, loc, c, path, t);
    var n := |path| - 1;
    assert Links(path[n - 1], path[n]) && path[n - 1] in path && Last(c) in c;
    assert Last(path).parentHash == Last(c).hash ==> path[n - 1] == Last(c);
  }
}
