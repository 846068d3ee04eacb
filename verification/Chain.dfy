// The transition machine: a bounded FIFO header cache and the in-memory chain state
// that turns an observed head into an ordered batch of rollbacks and applies.
// Each method is proved against a function on values; ChainTheory.dfy proves what
// those functions mean.
module Chain {
  import opened Wrappers
  import opened Headers

  datatype Transition = Bootstrap | Duplicate | Extend | Gap | Reorg

  datatype ChainBatch = ChainBatch(transition: Transition, ancestor: Option<Header>, events: seq<ChainEvent>)

  datatype ChainError =
    | EmptyHeaderCache
    | EmptyMaxReorgDepth
    | InvalidExtensionHeight(newHeight: nat, tipHeight: nat)
    | MissingParent(hash: Hash)
    | InvalidParentLink(childHeight: nat, parentHeight: nat, expectedHash: Hash, actualHash: Hash)
    | MaxDepthExceeded(maxDepth: nat)
    | FinalizedBoundary(ancestorHeight: nat, finalizedHeight: nat)
    | EmptyCanonicalChain
    | BrokenCanonicalChain(height: nat)
    | ResolverFailed

  datatype Lookup = Found(header: Header) | Missing | Failed

  // What an ancestry resolver may answer. Header lookups go to a source whose answers
  // can change between calls, so they are indexed by the number of earlier calls; the
  // canonical lookups read a store that nothing writes while one head is applied.
  datatype Oracle = Oracle(
    headerByHash: (nat, Hash) -> Lookup,
    canonicalByHash: Hash -> Lookup,
    canonicalAtHeight: nat -> Lookup)

  class Resolver {
    const oracle: Oracle
    var asked: nat

    constructor (oracle: Oracle)
      ensures this.oracle == oracle && asked == 0
    {
      this.oracle := oracle;
      asked := 0;
    }

    method HeaderByHash(hash: Hash) returns (r: Lookup)
      modifies this
      ensures r == oracle.headerByHash(old(asked), hash) && asked == old(asked) + 1
    {
      r := oracle.headerByHash(asked, hash);
      asked := asked + 1;
    }
  }

  // ------------------------------------------------------------------ header cache

  datatype CacheView = CacheView(capacity: nat, order: seq<Hash>, headers: map<Hash, Header>)

  ghost predicate CacheOk(c: CacheView) {
    && c.capacity >= 1
    && |c.order| <= c.capacity
    && (forall i, j | 0 <= i < j < |c.order| :: c.order[i] != c.order[j])
    && (forall x :: x in c.order <==> x in c.headers)
    && (forall x | x in c.headers :: c.headers[x].hash == x)
  }

  function CacheInsert(c: CacheView, h: Header): CacheView {
    if h.hash in c.headers then c.(headers := c.headers[h.hash := h])
    else if |c.order| == c.capacity && c.order != [] then
      c.(order := c.order[1..] + [h.hash], headers := (c.headers - {c.order[0]})[h.hash := h])
    else c.(order := c.order + [h.hash], headers := c.headers[h.hash := h])
  }

  lemma InsertKeepsOk(c: CacheView, h: Header)
    requires CacheOk(c)
    ensures CacheOk(CacheInsert(c, h))
  {
    if h.hash !in c.headers {
      assert h.hash !in c.order;
      if |c.order| == c.capacity {
        assert c.order == [c.order[0]] + c.order[1..];
      }
    }
  }

  class HeaderCache {
    const capacity: nat
    var order: seq<Hash>
    var headers: map<Hash, Header>

    ghost predicate Valid() reads this { CacheOk(View()) }

    ghost function View(): CacheView reads this { CacheView(capacity, order, headers) }

    constructor (capacity: nat)
      requires capacity >= 1
      ensures Valid() && View() == CacheView(capacity, [], map[])
    {
      this.capacity := capacity;
      order := [];
      headers := map[];
    }

    // The key set stays exactly the duplicate-free order within capacity, the new header
    // is present, every header that is still cached is the one that was there before, and
    // only the oldest is ever dropped.
    method Insert(h: Header)
      requires Valid()
      modifies this
      ensures Valid() && View() == CacheInsert(old(View()), h)
      ensures h.hash in headers && headers[h.hash] == h
      ensures forall x | x in headers && x != h.hash :: x in old(headers) && headers[x] == old(headers[x])
      ensures old(|order|) < capacity || h.hash in old(headers) ==> forall x | x in old(headers) :: x in headers
      ensures forall x | x in old(headers) && x !in headers :: x == old(order)[0]
      ensures h.hash !in old(headers) ==> order != [] && Last(order) == h.hash
    {
      InsertKeepsOk(View(), h);
      hide CacheOk;
      if h.hash in headers {
        headers := headers[h.hash := h];
        return;
      }
      if |order| == capacity && |order| > 0 {
        var evicted := order[0];
        order := order[1..];
        headers := headers - {evicted};
      }
      order := order + [h.hash];
      headers := headers[h.hash := h];
    }

    function Get(hash: Hash): Option<Header> reads this {
      if hash in headers then Some(headers[hash]) else None
    }
  }

  // ------------------------------------------------------------------ the machine on values

  datatype ChainView = ChainView(
    maxDepth: nat, finalized: Option<nat>, tip: Option<Header>,
    byHeight: map<nat, Header>, hashes: set<Hash>)

  predicate Known(v: ChainView, h: Header) {
    h.hash in v.hashes && h.height in v.byHeight && v.byHeight[h.height] == h
  }

  predicate EarlyDuplicate(v: ChainView, head: Header) {
    Known(v, head) || (v.tip.Some? && v.tip.value.hash == head.hash)
  }

  function SameHeader(left: Header, right: Header): Result<Option<Header>, ChainError> {
    if left == right then Success(Some(right))
    else Failure(InvalidParentLink(left.height, right.height, left.hash, right.hash))
  }

  function CanonicalMatch(v: ChainView, o: Oracle, h: Header): Result<Option<Header>, ChainError> {
    if Known(v, h) then Success(Some(h)) else
    match o.canonicalByHash(h.hash)
    case Failed => Failure(ResolverFailed)
    case Found(c) => SameHeader(h, c)
    case Missing =>
      match o.canonicalAtHeight(h.height)
      case Failed => Failure(ResolverFailed)
      case Missing => Success(None)
      case Found(c) => if c.hash == h.hash then SameHeader(h, c) else Success(None)
  }

  function LocalParent(v: ChainView, cache: map<Hash, Header>, child: Header): Option<Header>
    requires child.height > 0
  {
    var candidate :=
      if child.parentHash in cache then Some(cache[child.parentHash])
      else if child.height - 1 in v.byHeight then Some(v.byHeight[child.height - 1])
      else None;
    if candidate.Some? && candidate.value.hash == child.parentHash then candidate else None
  }

  function CheckLink(child: Header, parent: Header): Result<Header, ChainError> {
    if Links(parent, child) then Success(parent)
    else Failure(InvalidParentLink(child.height, parent.height, child.parentHash, parent.hash))
  }

  // A result together with the resolver clock after it was computed.
  datatype Timed<+T> = Timed(result: Result<T, ChainError>, clock: nat)

  function ParentFor(v: ChainView, cache: map<Hash, Header>, o: Oracle, child: Header, t: nat): Timed<Header> {
    if child.height == 0 then Timed(Failure(MissingParent(child.parentHash)), t)
    else
      var local := LocalParent(v, cache, child);
      if local.Some? then Timed(CheckLink(child, local.value), t)
      else
        match o.headerByHash(t, child.parentHash)
        case Failed => Timed(Failure(ResolverFailed), t + 1)
        case Missing => Timed(Failure(MissingParent(child.parentHash)), t + 1)
        case Found(p) => Timed(CheckLink(child, p), t + 1)
  }

  // Walks from `current` towards the first canonical header; `desc` holds the
  // replacement headers passed on the way, head first.
  function AncestorWalk(v: ChainView, cache: map<Hash, Header>, o: Oracle, current: Header, desc: seq<Header>, t: nat)
    : Timed<(Header, seq<Header>)>
    decreases v.maxDepth + 1 - |desc|
  {
    var found := CanonicalMatch(v, o, current);
    if found.Failure? then Timed(Failure(found.error), t)
    else if found.value.Some? then Timed(Success((found.value.value, desc)), t)
    else if |desc| + 1 > v.maxDepth then Timed(Failure(MaxDepthExceeded(v.maxDepth)), t)
    else
      var parent := ParentFor(v, cache, o, current, t);
      if parent.result.Failure? then Timed(Failure(parent.result.error), parent.clock)
      else AncestorWalk(v, cache, o, parent.result.value, desc + [current], parent.clock)
  }

  // Walks from `current` down to the ancestor's height, collecting what must be rolled back.
  function RollbackWalk(v: ChainView, cache: map<Hash, Header>, o: Oracle, current: Header, ancestor: Header,
                        acc: seq<Header>, t: nat): Timed<seq<Header>>
    decreases v.maxDepth + 1 - |acc|
  {
    if current.height <= ancestor.height then
      Timed(if current.hash == ancestor.hash then Success(acc) else Failure(MissingParent(ancestor.hash)), t)
    else if |acc| + 1 > v.maxDepth then Timed(Failure(MaxDepthExceeded(v.maxDepth)), t)
    else
      var parent := ParentFor(v, cache, o, current, t);
      if parent.result.Failure? then Timed(Failure(parent.result.error), parent.clock)
      else RollbackWalk(v, cache, o, parent.result.value, ancestor, acc + [current], parent.clock)
  }

  predicate CrossesFinality(v: ChainView, ancestor: Header) {
    v.finalized.Some? && ancestor.height < v.finalized.value
  }

  function DiffBatch(ancestor: Header, rollbacks: seq<Header>, desc: seq<Header>): ChainBatch {
    var events := Rollbacks(rollbacks) + Applies(Reverse(desc));
    var transition := if events == [] then Duplicate else if rollbacks != [] then Reorg else Gap;
    ChainBatch(transition, Some(ancestor), events)
  }

  function ApplyFn(v: ChainView, cache: map<Hash, Header>, o: Oracle, head: Header, t: nat)
    : Result<ChainBatch, ChainError> {
    if EarlyDuplicate(v, head) then Success(ChainBatch(Duplicate, Some(head), []))
    else if v.tip.None? then
      if head.height != 0 then Failure(MissingParent(head.parentHash))
      else Success(ChainBatch(Bootstrap, None, [Apply(head)]))
    else if head.parentHash == v.tip.value.hash then
      if head.height != v.tip.value.height + 1
      then Failure(InvalidExtensionHeight(head.height, v.tip.value.height))
      else Success(ChainBatch(Extend, v.tip, [Apply(head)]))
    else
      var found := AncestorWalk(v, cache, o, head, [], t);
      if found.result.Failure? then Failure(found.result.error)
      else
        var (ancestor, desc) := found.result.value;
        if CrossesFinality(v, ancestor) then Failure(FinalizedBoundary(ancestor.height, v.finalized.value))
        else
          var rollbacks := RollbackWalk(v, cache, o, v.tip.value, ancestor, [], found.clock);
          if rollbacks.result.Failure? then Failure(rollbacks.result.error)
          else Success(DiffBatch(ancestor, rollbacks.result.value, desc))
  }

  function InsertCanonical(v: ChainView, h: Header): ChainView {
    v.(byHeight := v.byHeight[h.height := h], hashes := v.hashes + {h.hash})
  }

  function RemoveCanonical(v: ChainView, h: Header): ChainView {
    if h.height in v.byHeight && v.byHeight[h.height].hash == h.hash
    then v.(byHeight := v.byHeight - {h.height}, hashes := v.hashes - {h.hash})
    else v
  }

  function CommitEvent(v: ChainView, e: ChainEvent): ChainView {
    match e
    case Apply(h) => InsertCanonical(v, h)
    case Rollback(h) => RemoveCanonical(v, h)
  }

  function CommitEvents(v: ChainView, es: seq<ChainEvent>): ChainView
    decreases |es|
  {
    if es == [] then v else CommitEvents(CommitEvent(v, es[0]), es[1..])
  }

  function CacheEvents(c: CacheView, es: seq<ChainEvent>): CacheView
    decreases |es|
  {
    if es == [] then c else CacheEvents(CacheInsert(c, es[0].header), es[1..])
  }

  function LastApply(es: seq<ChainEvent>): Option<Header> {
    if es == [] then None
    else if Last(es).Apply? then Some(Last(es).header)
    else LastApply(es[..|es| - 1])
  }

  function Commit(v: ChainView, b: ChainBatch): ChainView {
    var v' := CommitEvents(v, b.events);
    var top := LastApply(b.events);
    if top.Some? then v'.(tip := top)
    else if b.transition.Duplicate? && v.tip.None? then v'.(tip := b.ancestor)
    else v'
  }

  // The whole state after one head: an error changes nothing, an early duplicate only
  // touches the cache.
  function NextView(v: ChainView, head: Header, r: Result<ChainBatch, ChainError>): ChainView {
    if r.Failure? || EarlyDuplicate(v, head) then v else Commit(v, r.value)
  }

  function NextCache(v: ChainView, c: CacheView, head: Header, r: Result<ChainBatch, ChainError>): CacheView {
    if r.Failure? then c
    else if EarlyDuplicate(v, head) then CacheInsert(c, head)
    else CacheEvents(c, r.value.events)
  }

  // ------------------------------------------------------------------ the machine in place

  class ChainState {
    const cache: HeaderCache
    const maxReorgDepth: nat
    var finalizedHeight: Option<nat>
    var tip: Option<Header>
    var canonicalByHeight: map<nat, Header>
    var canonicalHashes: set<Hash>

    ghost predicate Valid()
      reads this, cache
    {
      cache.Valid() && maxReorgDepth >= 1
    }

    ghost function View(): ChainView
      reads this
    {
      ChainView(maxReorgDepth, finalizedHeight, tip, canonicalByHeight, canonicalHashes)
    }

    // Seeds state with only the current canonical tip, as after a restart.
    constructor FromTip(top: Header, cacheSize: nat, maxReorgDepth: nat)
      requires cacheSize >= 1 && maxReorgDepth >= 1
      ensures Valid() && fresh(cache)
      ensures View() == ChainView(maxReorgDepth, None, Some(top), map[top.height := top], {top.hash})
      ensures cache.View() == CacheInsert(CacheView(cacheSize, [], map[]), top)
    {
      var c := new HeaderCache(cacheSize);
      c.Insert(top);
      cache := c;
      this.maxReorgDepth := maxReorgDepth;
      finalizedHeight := None;
      tip := Some(top);
      canonicalByHeight := map[top.height := top];
      canonicalHashes := {top.hash};
    }

    // An empty state; the bounds are checked here as the source does.
    static method New(cacheSize: nat, maxReorgDepth: nat) returns (r: Result<ChainState, ChainError>)
      ensures cacheSize == 0 ==> r == Failure(EmptyHeaderCache)
      ensures cacheSize > 0 && maxReorgDepth == 0 ==> r == Failure(EmptyMaxReorgDepth)
      ensures r.Success? <==> cacheSize > 0 && maxReorgDepth > 0
      ensures r.Success? ==> fresh(r.value) && fresh(r.value.cache) && r.value.Valid()
      ensures r.Success? ==> r.value.View() == ChainView(maxReorgDepth, None, None, map[], {})
    {
      if cacheSize == 0 {
        return Failure(EmptyHeaderCache);
      }
      if maxReorgDepth == 0 {
        return Failure(EmptyMaxReorgDepth);
      }
      var s := new ChainState.Empty(cacheSize, maxReorgDepth);
      r := Success(s);
    }

    constructor Empty(cacheSize: nat, maxReorgDepth: nat)
      requires cacheSize >= 1 && maxReorgDepth >= 1
      ensures Valid() && fresh(cache)
      ensures View() == ChainView(maxReorgDepth, None, None, map[], {})
    {
      var c := new HeaderCache(cacheSize);
      cache := c;
      this.maxReorgDepth := maxReorgDepth;
      finalizedHeight := None;
      tip := None;
      canonicalByHeight := map[];
      canonicalHashes := {};
    }

    method SetFinalizedHeight(finalized: Option<nat>)
      modifies this`finalizedHeight
      ensures finalizedHeight == finalized
    {
      finalizedHeight := finalized;
    }

    method Apply(head: Header, resolver: Resolver) returns (r: Result<ChainBatch, ChainError>)
      requires Valid()
      modifies this, cache, resolver
      ensures Valid()
      ensures r == ApplyFn(old(View()), old(cache.headers), resolver.oracle, head, old(resolver.asked))
      ensures View() == NextView(old(View()), head, r)
      ensures cache.View() == NextCache(old(View()), old(cache.View()), head, r)
    {
      if IsKnownCanonical(head) || (tip.Some? && tip.value.hash == head.hash) {
        cache.Insert(head);
        return Success(ChainBatch(Duplicate, Some(head), []));
      }
      if tip.None? {
        if head.height != 0 {
          return Failure(MissingParent(head.parentHash));
        }
        var batch := ChainBatch(Bootstrap, None, [ChainEvent.Apply(head)]);
        CommitBatch(batch);
        return Success(batch);
      }
      var top := tip.value;
      if head.parentHash == top.hash {
        if head.height != top.height + 1 {
          return Failure(InvalidExtensionHeight(head.height, top.height));
        }
        var batch := ChainBatch(Extend, Some(top), [ChainEvent.Apply(head)]);
        CommitBatch(batch);
        return Success(batch);
      }
      var found := ResolveCommonAncestor(head, resolver);
      if found.Failure? {
        return Failure(found.error);
      }
      var (ancestor, desc) := found.value;
      if finalizedHeight.Some? && ancestor.height < finalizedHeight.value {
        return Failure(FinalizedBoundary(ancestor.height, finalizedHeight.value));
      }
      var rolled := RollbackPath(top, ancestor, resolver);
      if rolled.Failure? {
        return Failure(rolled.error);
      }
      var applies := Reverse(desc);
      var events := Rollbacks(rolled.value) + Applies(applies);
      var transition := if events == [] then Duplicate else if rolled.value != [] then Reorg else Gap;
      var batch := ChainBatch(transition, Some(ancestor), events);
      CommitBatch(batch);
      r := Success(batch);
    }

    method ResolveCommonAncestor(head: Header, resolver: Resolver)
      returns (r: Result<(Header, seq<Header>), ChainError>)
      modifies resolver
      ensures AncestorWalk(View(), cache.headers, resolver.oracle, head, [], old(resolver.asked))
                == Timed(r, resolver.asked)
    {
      var current := head;
      var desc := [];
      while true
        invariant |desc| <= maxReorgDepth
        invariant AncestorWalk(View(), cache.headers, resolver.oracle, head, [], old(resolver.asked))
               == AncestorWalk(View(), cache.headers, resolver.oracle, current, desc, resolver.asked)
        decreases maxReorgDepth - |desc|
      {
        var found := FindCanonical(current, resolver);
        if found.Failure? {
          return Failure(found.error);
        }
        if found.value.Some? {
          return Success((found.value.value, desc));
        }
        if |desc| + 1 > maxReorgDepth {
          return Failure(MaxDepthExceeded(maxReorgDepth));
        }
        var parent := FetchParent(current, resolver);
        if parent.Failure? {
          return Failure(parent.error);
        }
        desc := desc + [current];
        current := parent.value;
      }
    }

    method RollbackPath(top: Header, ancestor: Header, resolver: Resolver) returns (r: Result<seq<Header>, ChainError>)
      modifies resolver
      ensures RollbackWalk(View(), cache.headers, resolver.oracle, top, ancestor, [], old(resolver.asked))
                == Timed(r, resolver.asked)
    {
      var current := top;
      var rollbacks := [];
      while current.height > ancestor.height
        invariant |rollbacks| <= maxReorgDepth
        invariant RollbackWalk(View(), cache.headers, resolver.oracle, top, ancestor, [], old(resolver.asked))
               == RollbackWalk(View(), cache.headers, resolver.oracle, current, ancestor, rollbacks, resolver.asked)
        decreases maxReorgDepth - |rollbacks|
      {
        if |rollbacks| + 1 > maxReorgDepth {
          return Failure(MaxDepthExceeded(maxReorgDepth));
        }
        var parent := FetchParent(current, resolver);
        if parent.Failure? {
          return Failure(parent.error);
        }
        rollbacks := rollbacks + [current];
        current := parent.value;
      }
      if current.hash != ancestor.hash {
        return Failure(MissingParent(ancestor.hash));
      }
      r := Success(rollbacks);
    }

    method FindCanonical(h: Header, resolver: Resolver) returns (r: Result<Option<Header>, ChainError>)
      ensures r == CanonicalMatch(View(), resolver.oracle, h)
    {
      if IsKnownCanonical(h) {
        return Success(Some(h));
      }
      var byHash := resolver.oracle.canonicalByHash(h.hash);
      match byHash {
        case Failed => return Failure(ResolverFailed);
        case Found(c) => return SameHeader(h, c);
        case Missing =>
      }
      var atHeight := resolver.oracle.canonicalAtHeight(h.height);
      match atHeight {
        case Failed => r := Failure(ResolverFailed);
        case Missing => r := Success(None);
        case Found(c) =>
          if c.hash == h.hash {
            r := SameHeader(h, c);
          } else {
            r := Success(None);
          }
      }
    }

    method FetchParent(child: Header, resolver: Resolver) returns (r: Result<Header, ChainError>)
      modifies resolver
      ensures ParentFor(View(), cache.headers, resolver.oracle, child, old(resolver.asked)) == Timed(r, resolver.asked)
    {
      if child.height == 0 {
        return Failure(MissingParent(child.parentHash));
      }
      var candidate := cache.Get(child.parentHash);
      if candidate.None? && child.height - 1 in canonicalByHeight {
        candidate := Some(canonicalByHeight[child.height - 1]);
      }
      if candidate.Some? && candidate.value.hash == child.parentHash {
        return CheckLink(child, candidate.value);
      }
      var answer := resolver.HeaderByHash(child.parentHash);
      match answer {
        case Failed => r := Failure(ResolverFailed);
        case Missing => r := Failure(MissingParent(child.parentHash));
        case Found(p) => r := CheckLink(child, p);
      }
    }

    predicate IsKnownCanonical(h: Header)
      reads this
    {
      h.hash in canonicalHashes && h.height in canonicalByHeight && canonicalByHeight[h.height] == h
    }

    method CommitBatch(batch: ChainBatch)
      requires Valid()
      modifies this, cache
      ensures Valid()
      ensures View() == Commit(old(View()), batch)
      ensures cache.View() == CacheEvents(old(cache.View()), batch.events)
    {
      var events := batch.events;
      ghost var before, cacheBefore := View(), cache.View();
      var i := 0;
      while i < |events|
        invariant 0 <= i <= |events| && Valid()
        invariant CommitEvents(before, events) == CommitEvents(View(), events[i..])
        invariant CacheEvents(cacheBefore, events) == CacheEvents(cache.View(), events[i..])
        invariant tip == before.tip
      {
        assert events[i..][1..] == events[i + 1..];
        match events[i] {
          case Rollback(h) =>
            if h.height in canonicalByHeight && canonicalByHeight[h.height].hash == h.hash {
              canonicalByHeight := canonicalByHeight - {h.height};
              canonicalHashes := canonicalHashes - {h.hash};
            }
            cache.Insert(h);
          case Apply(h) =>
            cache.Insert(h);
            canonicalByHeight := canonicalByHeight[h.height := h];
            canonicalHashes := canonicalHashes + {h.hash};
        }
        i := i + 1;
      }
      assert events[i..] == [];
      var lastApply := LastApply(events);
      if lastApply.Some? {
        tip := lastApply;
      } else if batch.transition.Duplicate? && tip.None? {
        tip := batch.ancestor;
      }
    }
  }
}
