// The live tracker: one pass brings the sink to the head its source reports, by catching
// up height by height or by a reorg batch. The source may answer differently on every
// call; all that is assumed of it is that a hash determines its header.
module Live {
  import opened Wrappers
  import opened Headers
  import opened Chain
  import opened ChainTheory
  import opened Fork
  import opened Store
  import opened StoreTheory
  import opened ClosedLoop
  import Reconcile
  import opened Backfill
  import opened Committer
  import opened LiveSink

  const CACHE_SIZE: nat := 256

  datatype LiveConfig = LiveConfig(maxReorgDepth: nat, explicitStart: Option<nat>, finalizedHeight: Option<nat>)

  datatype Readiness = Ready | Degraded | Unavailable

  datatype HaltReason = MaxReorgDepth | MissingExplicitStart | FinalizedBoundaryReached

  datatype LiveError =
    | SourceError
    | SinkError
    | Cancelled
    | ReconcileRequested
    | ChainFailed(chain: ChainError)
    | BackfillFailed(backfill: BackfillError)

  // ------------------------------------------------------------------ the source

  datatype HeadAnswer = Seen(head: Header) | HeadFailed
  datatype BlockAnswer = Delivered(block: Block, logsMatch: bool) | FetchFailed | FetchAgain
  datatype Verdict = Match | Disagree | NoVerifier | VerifierFailed

  // Everything the outside can do during a pass, indexed by the number of earlier calls.
  datatype Answers = Answers(
    heads: nat -> HeadAnswer,
    byNumber: (nat, nat) -> BlockAnswer,
    byHash: (nat, Hash) -> BlockAnswer,
    headerByNumber: (nat, nat) -> Lookup,
    headerByHash: (nat, Hash) -> Lookup,
    verdicts: (nat, Header) -> Verdict,
    cancelled: nat -> bool)

  ghost predicate GenuineBlock(w: World, a: BlockAnswer) {
    a.Delivered? ==> Genuine(w, a.block.header)
  }

  // Nothing else is assumed: answers may be missing, fail, contradict each other, or carry
  // a header of another height or hash than asked for.
  ghost predicate Honest(w: World, a: Answers) {
    && (forall t: nat :: a.heads(t).Seen? ==> Genuine(w, a.heads(t).head))
    && (forall t: nat, k: nat :: GenuineBlock(w, a.byNumber(t, k)))
    && (forall t: nat, x: Hash :: GenuineBlock(w, a.byHash(t, x)))
    && (forall t: nat, x: Hash :: FoundGenuine(w, a.headerByHash(t, x)))
  }

  // One of the heads the source reported in this pass.
  ghost predicate Observed(a: Answers, from: nat, to: nat, h: Header) {
    exists t: nat :: from <= t < to && a.heads(t) == Seen(h)
  }

  // What ends a pass from outside: an answer that failed, or a cancellation.
  datatype Trouble = SourceBroke | CalledOff

  // A pass that met trouble ends with it, and only a cancellation ends it as cancelled.
  predicate Surfaces(trouble: Option<Trouble>, failure: Option<LiveError>) {
    && (trouble.Some? ==> failure == Some(if trouble.value.CalledOff? then Cancelled else SourceError))
    && (failure == Some(Cancelled) ==> trouble == Some(CalledOff))
  }

  function FailureOf<T>(r: Result<T, LiveError>): Option<LiveError> {
    if r.Failure? then Some(r.error) else None
  }

  class LiveSource {
    const answers: Answers
    var asked: nat
    var polls: nat
    ghost var trouble: Option<Trouble>

    constructor (answers: Answers)
      ensures this.answers == answers && asked == 0 && polls == 0 && trouble.None?
    {
      this.answers := answers;
      asked, polls := 0, 0;
      trouble := None;
    }

    method CurrentHead() returns (r: HeadAnswer)
      modifies this`asked, this`trouble
      ensures asked == old(asked) + 1 && r == answers.heads(old(asked))
      ensures trouble == if r.HeadFailed? then Some(SourceBroke) else old(trouble)
    {
      r := answers.heads(asked);
      asked := asked + 1;
      if r.HeadFailed? { trouble := Some(SourceBroke); }
    }

    method BlockByNumber(height: nat) returns (r: BlockAnswer)
      modifies this`asked, this`trouble
      ensures asked == old(asked) + 1 && r == answers.byNumber(old(asked), height)
      ensures trouble == if r.FetchFailed? then Some(SourceBroke) else old(trouble)
    {
      r := answers.byNumber(asked, height);
      asked := asked + 1;
      if r.FetchFailed? { trouble := Some(SourceBroke); }
    }

    method BlockByHash(hash: Hash) returns (r: BlockAnswer)
      modifies this`asked, this`trouble
      ensures asked == old(asked) + 1 && r == answers.byHash(old(asked), hash)
      ensures trouble == if r.FetchFailed? then Some(SourceBroke) else old(trouble)
    {
      r := answers.byHash(asked, hash);
      asked := asked + 1;
      if r.FetchFailed? { trouble := Some(SourceBroke); }
    }

    method HeaderByNumber(height: nat) returns (r: Lookup)
      modifies this`asked, this`trouble
      ensures asked == old(asked) + 1 && r == answers.headerByNumber(old(asked), height)
      ensures trouble == if r.Failed? then Some(SourceBroke) else old(trouble)
    {
      r := answers.headerByNumber(asked, height);
      asked := asked + 1;
      if r.Failed? { trouble := Some(SourceBroke); }
    }

    method VerifyRecent(head: Header) returns (r: Verdict)
      modifies this`asked, this`trouble
      ensures asked == old(asked) + 1 && r == answers.verdicts(old(asked), head)
      ensures trouble == if r.VerifierFailed? then Some(SourceBroke) else old(trouble)
    {
      r := answers.verdicts(asked, head);
      asked := asked + 1;
      if r.VerifierFailed? { trouble := Some(SourceBroke); }
    }

    method IsCancelled() returns (r: bool)
      modifies this`polls, this`trouble
      ensures r == answers.cancelled(old(polls)) && polls == old(polls) + 1
      ensures trouble == if r then Some(CalledOff) else old(trouble)
    {
      r := answers.cancelled(polls);
      polls := polls + 1;
      if r { trouble := Some(CalledOff); }
    }
  }

  datatype HeadEvent = Wake(header: Header) | Disconnect | Reconnect

  // ------------------------------------------------------------------ the report

  class LiveReport {
    var readiness: Readiness
    var halted: Option<HaltReason>
    var verifierDisagreements: nat
    var finalCheckpoint: Option<Header>

    constructor (checkpoint: Option<Header>)
      ensures readiness == Ready && halted == None && verifierDisagreements == 0 && finalCheckpoint == checkpoint
    {
      readiness, halted, verifierDisagreements, finalCheckpoint := Ready, None, 0, checkpoint;
    }

    method Halt(checkpoint: Option<Header>, reason: HaltReason)
      modifies this
      ensures readiness == Unavailable && halted == Some(reason) && verifierDisagreements == 0
      ensures finalCheckpoint == checkpoint
    {
      readiness, halted, verifierDisagreements, finalCheckpoint := Unavailable, Some(reason), 0, checkpoint;
    }

    method Finish(checkpoint: Option<Header>)
      modifies this
      ensures finalCheckpoint == checkpoint && halted == old(halted)
      ensures verifierDisagreements == old(verifierDisagreements)
      ensures readiness == if halted.None? && verifierDisagreements == 0 then Ready else old(readiness)
    {
      finalCheckpoint := checkpoint;
      if halted.None? && verifierDisagreements == 0 {
        readiness := Ready;
      }
    }
  }

  // ------------------------------------------------------------------ payloads of a batch

  function PayloadHashes(payloads: seq<Block>): (r: seq<Hash>)
    ensures |r| == |payloads| && forall i | 0 <= i < |payloads| :: r[i] == payloads[i].header.hash
  {
    seq(|payloads|, i requires 0 <= i < |payloads| => payloads[i].header.hash)
  }

  // Payloads fetched event by event are exactly what the durable batch asks for.
  lemma GatheredFit(batch: ChainBatch, payloads: seq<Block>)
    requires NoRepeats(AppliedHashes(batch.events)) && PayloadHashes(payloads) == AppliedHashes(batch.events)
    ensures PayloadsFit(batch, payloads)
  {
    forall x ensures x in BlockHashes(payloads) <==> x in HashSet(AppliedHashes(batch.events)) {
      if x in HashSet(AppliedHashes(batch.events)) {
        var i :| 0 <= i < |payloads| && PayloadHashes(payloads)[i] == x;
        assert payloads[i] in payloads;
      }
      if x in BlockHashes(payloads) {
        var i :| 0 <= i < |payloads| && payloads[i].header.hash == x;
        assert PayloadHashes(payloads)[i] == x;
      }
    }
  }

  // The refusals that halt the tracker.
  function HaltFor(error: ChainError): Option<HaltReason> {
    if error.MaxDepthExceeded? then Some(MaxReorgDepth)
    else if error.FinalizedBoundary? then Some(FinalizedBoundaryReached)
    else None
  }

  // A block that the source delivered, with matching logs, when asked for this height or
  // for this hash.
  ghost predicate VouchedAt(a: Answers, from: nat, to: nat, height: nat, b: Block) {
    exists t: nat :: from <= t < to && a.byNumber(t, height) == Delivered(b, true)
  }

  ghost predicate VouchedFor(a: Answers, from: nat, to: nat, hash: Hash, b: Block) {
    exists t: nat :: from <= t < to && a.byHash(t, hash) == Delivered(b, true)
  }

  // A head at the height of the top that is another block.
  predicate OtherTop(h: Header, c: seq<Header>) {
    c != [] && h.height == Last(c).height && h.hash != Last(c).hash
  }

  predicate IsLower(h: Header, c: seq<Header>) {
    c != [] && h.height < Last(c).height
  }

  // The next height to fetch after the chain c.
  function NextHeight(c: seq<Header>): nat {
    if c == [] then 0 else Last(c).height + 1
  }

  // The new chain has a head the source reported in this pass on top, or it extends the old
  // one up to the height of such a head.
  ghost predicate CaughtUp(a: Answers, from: nat, to: nat, c: seq<Header>, d: seq<Header>) {
    d != [] && (Observed(a, from, to, Last(d))
                || (c <= d && exists h :: Observed(a, from, to, h) && h.height == Last(d).height))
  }

  // Nothing at or below the finalized height was lost on the way from c to d.
  ghost predicate KeepsFinalized(finalized: Option<nat>, c: seq<Header>, d: seq<Header>) {
    finalized.Some? ==> forall h | h in c && h.height <= finalized.value :: h in d
  }

  lemma GrewKeeps(finalized: Option<nat>, c: seq<Header>, j: seq<ChainEvent>, d: seq<Header>, k: seq<ChainEvent>)
    requires Grew(c, j, d, k)
    ensures KeepsFinalized(finalized, c, d)
  {
  }

  lemma KeepsTwice(finalized: Option<nat>, c: seq<Header>, d: seq<Header>, e: seq<Header>)
    requires KeepsFinalized(finalized, c, d) && KeepsFinalized(finalized, d, e)
    ensures KeepsFinalized(finalized, c, e)
  {
  }

  // ------------------------------------------------------------------ when a pass must succeed

  ghost predicate Offers(a: BlockAnswer, h: Header) {
    a.Delivered? && a.logsMatch && a.block.header == h && Storable(ApplyBlock(a.block))
  }

  // Asked for the height of h, the source delivers it, at once or after logs that did not
  // match, or asks to start over.
  ghost predicate OffersAt(a: Answers, t: nat, h: Header) {
    var first, again := a.byNumber(t, h.height), a.byNumber(t + 1, h.height);
    || Offers(first, h) || first.FetchAgain?
    || (first.Delivered? && !first.logsMatch && (Offers(again, h) || again.FetchAgain?))
  }

  // Asked for the hash of h, it delivers it, at once or when asked again.
  ghost predicate OffersFor(a: Answers, t: nat, h: Header) {
    var first := a.byHash(t, h.hash);
    || Offers(first, h)
    || (first.Delivered? && !(first.block.header == h && first.logsMatch) && Offers(a.byHash(t + 1, h.hash), h))
  }

  // It never asks to start over.
  ghost predicate Patient(a: Answers) {
    forall t: nat, k: nat :: !a.byNumber(t, k).FetchAgain?
  }

  // A source that stays on one path, whose last header is the head it reports.
  ghost predicate Steady(w: World, a: Answers, path: seq<Header>) {
    && IsPath(w, path)
    && (forall t: nat :: a.heads(t) == Seen(Last(path)))
    && (forall t: nat, h: Header :: !a.verdicts(t, h).VerifierFailed?)
    && (forall n: nat :: !a.cancelled(n))
    && (forall t: nat, k: nat | k < |path| :: OffersAt(a, t, path[k]))
    && (forall t: nat, k: nat | k < |path| :: a.headerByNumber(t, k) == Found(path[k]))
    && (forall t: nat, h: Header | h in path :: OffersFor(a, t, h))
    && (forall t: nat, h: Header | h in path :: a.headerByHash(t, h.hash) == Found(h))
  }

  // It still serves the headers of the stored chain, which are storable.
  ghost predicate Remembers(a: Answers, c: seq<Header>) {
    && (forall t: nat, h: Header | h in c :: a.headerByHash(t, h.hash) == Found(h))
    && (forall h | h in c :: h.height <= I64_MAX)
  }

  // Every payload the events ask for is served.
  ghost predicate Served(a: Answers, es: seq<ChainEvent>) {
    && (forall n: nat :: !a.cancelled(n))
    && (forall t: nat, e: ChainEvent | e in es && e.Apply? :: OffersFor(a, t, e.header))
  }

  // No commit is interrupted and no read fails.
  ghost predicate Calm(sink: PostgresSink) {
    && (forall n: nat :: sink.crashes(n).None?)
    && (forall t: nat :: !sink.faults.checkpoint(t) && sink.LookupsWork(t))
  }

  // The transition machine accepts the end of the path on the stored chain.
  ghost predicate Followable(config: LiveConfig, c: seq<Header>, path: seq<Header>) {
    && c != [] && path != [] && config.maxReorgDepth >= 1
    && var v := TipView(Last(c), config.maxReorgDepth, config.finalizedHeight);
       || Last(path) == Last(c) || Links(Last(c), Last(path))
       || (Last(path).parentHash != Last(c).hash && CanSwitch(v, c, path))
  }

  // The halt that a head on the path comes to when it is applied on the stored chain.
  ghost function HaltOf(config: LiveConfig, c: seq<Header>, path: seq<Header>): Option<HaltReason>
    requires c != [] && path != []
  {
    var v := TipView(Last(c), config.maxReorgDepth, config.finalizedHeight);
    if config.maxReorgDepth == 0 || Last(path) == Last(c) || Last(path).parentHash == Last(c).hash then None
    else if TooDeep(v, c, path) then Some(MaxReorgDepth)
    else if BelowFinal(v, c, path) then Some(FinalizedBoundaryReached)
    else None
  }

  // Applying it halts exactly for that reason, and fails exactly if there is none and the
  // transition machine does not accept the head either.
  ghost predicate AppliesTo(config: LiveConfig, c: seq<Header>, path: seq<Header>, halted: Option<HaltReason>,
                            failed: bool)
    requires c != [] && path != []
  {
    halted == HaltOf(config, c, path) && (failed <==> halted.None? && !Followable(config, c, path))
  }

  // A source that stays on the path and still serves the stored chain, with nothing failing.
  ghost predicate Undisturbed(w: World, a: Answers, sink: PostgresSink, c: seq<Header>, path: seq<Header>) {
    Steady(w, a, path) && Remembers(a, c) && Calm(sink)
  }

  // What an undisturbed pass makes of the stored chain c. A chain on the path is caught up,
  // and if the source asks to start over, what was caught up so far is applied on; a head
  // that is stored already is left alone; any other head is applied. Without a chain it
  // depends on the configured start.
  ghost predicate Settles(config: LiveConfig, a: Answers, c: seq<Header>, path: seq<Header>,
                          halted: Option<HaltReason>, failed: bool, d: seq<Header>)
    requires path != []
  {
    if c == [] then Started(config.explicitStart, a, path, halted, failed, d)
    else if Last(c) in path then Resumed(config, a, c, path, halted, failed, d)
    else if Last(path) in c then halted.None? && !failed && d == c
    else Applied(config, c, path, halted, failed, d)
  }

  ghost predicate Started(start: Option<nat>, a: Answers, path: seq<Header>, halted: Option<HaltReason>, failed: bool,
                          d: seq<Header>)
    requires path != []
  {
    && halted == (if start.None? then Some(MissingExplicitStart) else None)
    && (halted.Some? ==> !failed && d == [])
    && (start.Some? && start.value != 0 ==> failed)
    && (start == Some(0) && Patient(a) ==> !failed)
    && (halted.None? && !failed ==> d != [] && Last(d) == Last(path))
  }

  ghost predicate Resumed(config: LiveConfig, a: Answers, c: seq<Header>, path: seq<Header>,
                          halted: Option<HaltReason>, failed: bool, d: seq<Header>)
    requires c != [] && path != []
  {
    if halted.None? && !failed then d != [] && Last(d) == Last(path)
    else !Patient(a) && PartWay(c, d, path) && d != [] && AppliesTo(config, d, path, halted, failed)
  }

  ghost predicate Applied(config: LiveConfig, c: seq<Header>, path: seq<Header>, halted: Option<HaltReason>,
                          failed: bool, d: seq<Header>)
    requires c != [] && path != []
  {
    && AppliesTo(config, c, path, halted, failed)
    && if halted.None? && !failed then d != [] && Last(d) == Last(path) else d == c
  }

  // Some heights of the path have come on top of the chain c.
  ghost predicate PartWay(c: seq<Header>, d: seq<Header>, path: seq<Header>) {
    d == c || (c <= d && Last(d) in path && forall h | h in d :: h in c || h in path)
  }

  lemma SeededIsCanonical(w: World, c: seq<Header>, maxDepth: nat, finalized: Option<nat>)
    requires Linked(c) && AllGenuine(w, c) && c != [] && maxDepth >= 1
    ensures IsCanonical(w, TipView(Last(c), maxDepth, finalized), [Last(c)], c)
  {
    assert Last(c) in c && [Last(c)] == c[|c| - 1..];
    TipViewOk(w, Last(c), maxDepth, finalized);
  }

  // What the transition machine makes of the end of the path.
  lemma PlannedHead(w: World, t: Tables, c: seq<Header>, o: Oracle, cache: map<Hash, Header>, path: seq<Header>,
                    config: LiveConfig)
    requires Inv(w, t, c) && ReadsStore(o, t) && Serves(o, path) && Serves(o, c) && CacheTruth(w, cache)
    requires IsPath(w, path) && c != [] && config.maxReorgDepth >= 1
    ensures var r := ApplyFn(TipView(Last(c), config.maxReorgDepth, config.finalizedHeight), cache, o, Last(path), 0);
            && (r.Success? <==> Followable(config, c, path))
            && HaltOf(config, c, path) == (if r.Success? then None else HaltFor(r.error))
            && (r.Success? ==> forall e | e in r.value.events :: if e.Apply? then e.header in path else e.header in c)
  {
    var v := TipView(Last(c), config.maxReorgDepth, config.finalizedHeight);
    assert Last(path) in path && Last(c) in c;
    if !EarlyDuplicate(v, Last(path)) {
      SeededIsCanonical(w, c, config.maxReorgDepth, config.finalizedHeight);
      Reconcile.StoreLooksUp(w, t, c, o);
      ApplyIsDiff(w, v, cache, o, [Last(c)], c, path, 0);
      var r := ApplyFn(v, cache, o, Last(path), 0);
      if r.Success? {
        var k :| IsFork(c, path, k);
        DiffParts(c, path, k, r.value.ancestor, r.value.events);
      }
      RefusalHalts(v, c, path);
    }
  }

  lemma RefusalHalts(v: ChainView, c: seq<Header>, path: seq<Header>)
    requires c != [] && path != []
    ensures Last(path).parentHash != Last(c).hash && CanSwitch(v, c, path) ==>
              !TooDeep(v, c, path) && !BelowFinal(v, c, path)
    ensures Last(path).parentHash != Last(c).hash && !CanSwitch(v, c, path) ==>
              HaltFor(RefusalOf(v, c, path)) == if TooDeep(v, c, path) then Some(MaxReorgDepth)
                                                else if BelowFinal(v, c, path) then Some(FinalizedBoundaryReached)
                                                else None
  {
    if k: nat :| IsFork(c, path, k) {
      forall j | IsFork(c, path, j) ensures j == k { ForkIsUnique(c, path, j, k); }
    }
  }

  lemma DiffParts(c: seq<Header>, path: seq<Header>, k: nat, ancestor: Option<Header>, es: seq<ChainEvent>)
    requires c != [] && k < |path| && IsDiff(c, path, k, ancestor, es)
    ensures forall e | e in es :: if e.Apply? then e.header in path else e.header in c
  {
    forall e | e in es ensures if e.Apply? then e.header in path else e.header in c {
      var i :| 0 <= i < |es| && es[i] == e;
      var down, up := Reverse(c[Fork.Below(c, k)..]), path[k + 1..];
      assert e == if i < |down| then Rollback(down[i]) else Apply(up[i - |down|]);
      assert i < |down| ==> down[i] in c;
    }
  }

  // A chain on the path continues on the path, and only there.
  lemma OnPath(w: World, c: seq<Header>, path: seq<Header>, k: nat)
    requires IsPath(w, path) && c != [] && Genuine(w, Last(c)) && Last(c).height + 1 == k < |path|
    ensures Links(Last(c), path[k]) <==> Last(c) == path[k - 1]
    ensures Last(c) in path <==> Last(c) == path[k - 1]
  {
    assert Links(path[k - 1], path[k]) && path[k - 1] in path;
    if Last(c) in path {
      var i :| 0 <= i < |path| && path[i] == Last(c);
      HeightAt(path, i);
    }
  }

  // ------------------------------------------------------------------ the tracker

  class LiveTracker {
    const config: LiveConfig

    constructor (config: LiveConfig)
      ensures this.config == config
    {
      this.config := config;
    }

    // The block at a height; a block whose logs do not match is fetched once more.
    method ValidateOrRefetchNumber(source: LiveSource, height: nat, first: BlockAnswer, report: LiveReport,
                                   ghost w: World)
      returns (r: Result<Block, LiveError>)
      requires Honest(w, source.answers) && first.Delivered? && Genuine(w, first.block.header)
      requires source.trouble.None?
      modifies source, report`readiness
      ensures source.asked >= old(source.asked) && source.polls >= old(source.polls)
      ensures Surfaces(source.trouble, FailureOf(r))
      ensures source.polls == old(source.polls)
      ensures report.readiness in {old(report.readiness), Degraded}
      ensures r.Success? ==> Genuine(w, r.value.header)
      ensures first.logsMatch ==> r == Success(first.block)
      ensures !first.logsMatch && r.Success? ==>
                VouchedAt(source.answers, old(source.asked), source.asked, height, r.value)
      ensures !first.logsMatch ==>
                var again := source.answers.byNumber(old(source.asked), height);
                && (r.Success? <==> again.Delivered? && again.logsMatch)
                && (r.Success? ==> r.value == again.block)
                && (again.FetchAgain? ==> r == Failure(ReconcileRequested))
      ensures r.Failure? ==> r.error == SourceError || r.error == ReconcileRequested
    {
      if first.logsMatch {
        return Success(first.block);
      }
      report.readiness := Degraded;
      var again := source.BlockByNumber(height);
      assert GenuineBlock(w, again);
      match again {
        case FetchFailed => r := Failure(SourceError);
        case FetchAgain => r := Failure(ReconcileRequested);
        case Delivered(block, logsMatch) => r := if logsMatch then Success(block) else Failure(SourceError);
      }
    }

    // The block with exactly the expected header, fetched at most twice.
    method ValidateOrRefetchHash(source: LiveSource, expected: Header, first: BlockAnswer, report: LiveReport)
      returns (r: Result<Block, LiveError>)
      requires first.Delivered?
      requires source.trouble.None?
      modifies source, report`readiness
      ensures source.asked >= old(source.asked) && source.polls >= old(source.polls)
      ensures Surfaces(source.trouble, FailureOf(r))
      ensures source.polls == old(source.polls)
      ensures report.readiness in {old(report.readiness), Degraded}
      ensures r.Success? ==> r.value.header == expected
      ensures r.Success? ==>
                || (first.logsMatch && r.value == first.block)
                || VouchedFor(source.answers, old(source.asked), source.asked, expected.hash, r.value)
      ensures first.block.header == expected && first.logsMatch ==> r == Success(first.block)
      ensures !(first.block.header == expected && first.logsMatch) ==>
                var again := source.answers.byHash(old(source.asked), expected.hash);
                && (r.Success? <==> again.Delivered? && again.block.header == expected && again.logsMatch)
                && (r.Success? ==> r.value == again.block)
                && (again.FetchAgain? ==> r == Failure(ReconcileRequested))
      ensures r.Failure? ==> r.error == SourceError || r.error == ReconcileRequested
    {
      if first.block.header == expected && first.logsMatch {
        return Success(first.block);
      }
      report.readiness := Degraded;
      var again := source.BlockByHash(expected.hash);
      match again {
        case FetchFailed => r := Failure(SourceError);
        case FetchAgain => r := Failure(ReconcileRequested);
        case Delivered(block, logsMatch) =>
          r := if block.header != expected || !logsMatch then Failure(SourceError) else Success(block);
      }
    }

    // The payload of one applied header.
    method FetchPayload(source: LiveSource, header: Header, report: LiveReport) returns (r: Result<Block, LiveError>)
      requires source.trouble.None?
      modifies source, report`readiness
      ensures source.asked >= old(source.asked) && source.polls >= old(source.polls)
      ensures Surfaces(source.trouble, FailureOf(r))
      ensures source.polls == old(source.polls)
      ensures report.readiness in {old(report.readiness), Degraded}
      ensures r.Success? ==>
                && r.value.header == header
                && VouchedFor(source.answers, old(source.asked), source.asked, header.hash, r.value)
      ensures source.answers.byHash(old(source.asked), header.hash).FetchAgain? ==> r == Failure(ReconcileRequested)
      ensures OffersFor(source.answers, old(source.asked), header) ==> r.Success? && Storable(ApplyBlock(r.value))
    {
      var first := source.BlockByHash(header.hash);
      if first.FetchFailed? {
        return Failure(SourceError);
      }
      if first.FetchAgain? {
        return Failure(ReconcileRequested);
      }
      r := ValidateOrRefetchHash(source, header, first, report);
    }

    // The payload of every applied header, in order. Nothing is written meanwhile.
    method GatherPayloads(source: LiveSource, events: seq<ChainEvent>, report: LiveReport)
      returns (r: Result<seq<Block>, LiveError>)
      requires source.trouble.None?
      modifies source, report`readiness
      ensures source.asked >= old(source.asked) && source.polls >= old(source.polls)
      ensures Surfaces(source.trouble, FailureOf(r))
      ensures r.Success? ==> source.polls == old(source.polls) + |events|
      ensures report.readiness in {old(report.readiness), Degraded}
      ensures r.Success? ==> PayloadHashes(r.value) == AppliedHashes(events)
      ensures r.Success? ==>
                forall p | p in r.value ::
                  && Apply(p.header) in events
                  && VouchedFor(source.answers, old(source.asked), source.asked, p.header.hash, p)
      ensures Served(source.answers, events) ==> r.Success? && forall p | p in r.value :: Storable(ApplyBlock(p))
    {
      hide AppliedHashes, OffersFor, Storable;
      var payloads: seq<Block> := [];
      NothingUsed(events);
      for i := 0 to |events|
        invariant source.asked >= old(source.asked) && source.polls == old(source.polls) + i
        invariant source.trouble.None?
        invariant AppliedHashes(events) == PayloadHashes(payloads) + AppliedHashes(events[i..])
        invariant report.readiness in {old(report.readiness), Degraded}
        invariant forall p | p in payloads ::
                    && Apply(p.header) in events
                    && VouchedFor(source.answers, old(source.asked), source.asked, p.header.hash, p)
        invariant Served(source.answers, events) ==> forall p | p in payloads :: Storable(ApplyBlock(p))
      {
        AppliedStep(events, i, PayloadHashes(payloads));
        var e := events[i];
        assert e in events;
        var cancelled := source.IsCancelled();
        if cancelled {
          return Failure(Cancelled);
        }
        if e.Apply? {
          var block := FetchPayload(source, e.header, report);
          if block.Failure? {
            return Failure(block.error);
          }
          assert PayloadHashes(payloads + [block.value]) == PayloadHashes(payloads) + [e.header.hash];
          payloads := payloads + [block.value];
        }
      }
      NothingLeft(events, PayloadHashes(payloads));
      r := Success(payloads);
    }

    // The transition machine seeded from the checkpoint, its header lookups answered by
    // the source and its canonical lookups by the store.
    method ComputeBatch(source: LiveSource, sink: PostgresSink, top: Header, head: Header, ghost w: World)
      returns (r: Result<ChainBatch, ChainError>, ghost o: Oracle, ghost cache: map<Hash, Header>)
      requires Honest(w, source.answers) && sink.Stored(w) && Genuine(w, top) && config.maxReorgDepth >= 1
      modifies source, sink`readCount
      ensures source.asked >= old(source.asked) && source.polls >= old(source.polls)
      ensures source.trouble == old(source.trouble) && source.polls == old(source.polls)
      ensures Truthful(w, o) && MayMiss(o, sink.writer.db.tables) && CacheTruth(w, cache)
      ensures sink.LookupsWork(old(sink.readCount)) ==> ReadsStore(o, sink.writer.db.tables)
      ensures sink.readCount == old(sink.readCount) + 1
      ensures forall t: nat, x: Hash :: o.headerByHash(t, x) == source.answers.headerByHash(old(source.asked) + t, x)
      ensures r == ApplyFn(TipView(top, config.maxReorgDepth, config.finalizedHeight), cache, o, head, 0)
    {
      hide ApplyFn, NextView, NextCache, Truthful, MayMiss, Holds, Honest, ReadsStore;
      var state := SeedState(top, w);
      var resolver := NewResolver(source, sink, w);
      o, cache := resolver.oracle, state.cache.headers;
      r := state.Apply(head, resolver);
      source.asked := source.asked + resolver.asked;
    }

    method SeedState(top: Header, ghost w: World) returns (state: ChainState)
      requires Genuine(w, top) && config.maxReorgDepth >= 1
      ensures fresh(state) && fresh(state.cache) && state.Valid()
      ensures state.View() == TipView(top, config.maxReorgDepth, config.finalizedHeight)
      ensures state.cache.headers == map[top.hash := top] && CacheTruth(w, state.cache.headers)
    {
      state := new ChainState.FromTip(top, CACHE_SIZE, config.maxReorgDepth);
      state.SetFinalizedHeight(config.finalizedHeight);
      assert state.cache.View().headers == map[top.hash := top];
    }

    // The resolver of one walk: header lookups go to the source, canonical ones to the store.
    method NewResolver(source: LiveSource, sink: PostgresSink, ghost w: World) returns (resolver: Resolver)
      requires Honest(w, source.answers) && sink.Stored(w)
      modifies sink`readCount
      ensures fresh(resolver) && resolver.asked == 0
      ensures Truthful(w, resolver.oracle) && MayMiss(resolver.oracle, sink.writer.db.tables)
      ensures sink.LookupsWork(old(sink.readCount)) ==> ReadsStore(resolver.oracle, sink.writer.db.tables)
      ensures sink.readCount == old(sink.readCount) + 1
      ensures forall t: nat, x: Hash ::
                resolver.oracle.headerByHash(t, x) == source.answers.headerByHash(source.asked + t, x)
    {
      hide Inv;
      StoreIsTruthful(w, sink.writer.db.tables, sink.chain);
      var answers, clock := source.answers, source.asked;
      var byHash, atHeight := sink.Lookups();
      resolver := new Resolver(Oracle((t: nat, x: Hash) => answers.headerByHash(clock + t, x), byHash, atHeight));
    }

    lemma StoreIsTruthful(w: World, t: Tables, c: seq<Header>)
      requires Inv(w, t, c)
      ensures forall x :: FoundGenuine(w, ToLookup(CanonicalByHash(t, x)))
      ensures forall k :: FoundGenuine(w, ToLookup(CanonicalAtHeight(t, k)))
    {
      CanonicalIsChain(w, t, c);
      MapOfLookup(c);
      assert forall k | k in MapOf(c) :: MapOf(c)[k] in c;
    }

    // A depth or finality refusal halts the pass; any other is an error.
    method Refuse(error: ChainError, checkpoint: Option<Header>, report: LiveReport) returns (r: Result<(), LiveError>)
      requires report.halted.None?
      modifies report
      ensures report.halted == HaltFor(error)
      ensures if report.halted.Some?
              then r.Success? && report.readiness == Unavailable && report.finalCheckpoint == checkpoint
              else r == Failure(ChainFailed(error)) && unchanged(report)
    {
      match error {
        case MaxDepthExceeded(_) =>
          report.Halt(checkpoint, MaxReorgDepth);
          r := Success(());
        case FinalizedBoundary(_, _) =>
          report.Halt(checkpoint, FinalizedBoundaryReached);
          r := Success(());
        case _ =>
          r := Failure(ChainFailed(error));
      }
    }

    // One head through the transition machine and into the store. A depth or finality halt
    // writes nothing. Otherwise success means that the observed head is the new top, except
    // exactly when the checkpoint read here fails, when nothing is done; any failure leaves
    // the old chain or, if the commit was interrupted, that same new one.
    method ApplyChainState(source: LiveSource, sink: PostgresSink, head: Header, report: LiveReport, ghost w: World,
                           ghost path: seq<Header>)
      returns (r: Result<(), LiveError>)
      requires Honest(w, source.answers) && sink.Stored(w) && Genuine(w, head) && report.halted.None?
      requires source.trouble.None?
      modifies source, sink, sink.writer.db, report
      ensures source.asked >= old(source.asked) && source.polls >= old(source.polls)
      ensures Surfaces(source.trouble, FailureOf(r))
      ensures |sink.chain| <= |old(sink.chain)| + (source.polls - old(source.polls))
      ensures sink.Stored(w) && (old(sink.chain) != [] ==> sink.chain != [])
      ensures || sink.chain == old(sink.chain)
              || (Last(sink.chain) == head && KeepsFinalized(config.finalizedHeight, old(sink.chain), sink.chain))
      ensures report.halted.Some? ==>
                && r.Success? && sink.chain == old(sink.chain) && sink.writer.db.tables == old(sink.writer.db.tables)
                && report.halted != Some(MissingExplicitStart) && report.readiness == Unavailable
      ensures sink.faults.checkpoint(old(sink.readCount)) ==>
                && r.Success? && report.halted.None? && report.readiness == old(report.readiness)
                && sink.chain == old(sink.chain) && sink.writer.db.tables == old(sink.writer.db.tables)
      ensures (&& r.Success? && report.halted.None? && old(sink.chain) != []
               && !sink.faults.checkpoint(old(sink.readCount))) ==>
                Last(sink.chain) == head && (sink.parentAnchor == TopOf(sink.chain) || sink.parentAnchor == None)
      ensures report.halted.None? ==>
                && report.verifierDisagreements == old(report.verifierDisagreements)
                && report.readiness in {old(report.readiness), Degraded}
      ensures old(sink.chain) == [] ==> r.Success? && sink.chain == []
      ensures (&& Undisturbed(w, source.answers, sink, old(sink.chain), path) && old(sink.chain) != []
               && head == Last(path)) ==>
                Applied(config, old(sink.chain), path, report.halted, r.Failure?, sink.chain)
    {
      hide ApplyFn, Inv, Linked, Play;
      sink.CheckpointIsTop(w);
      var checkpoint := sink.ReadCheckpoint();
      if checkpoint.None? {
        return Success(());
      }
      if config.maxReorgDepth == 0 {
        return Failure(ChainFailed(EmptyMaxReorgDepth));
      }
      var top := checkpoint.value;
      ghost var o, cache;
      var batch;
      batch, o, cache := ComputeBatch(source, sink, top, head, w);
      ghost var c := sink.chain;
      if Undisturbed(w, source.answers, sink, c, path) && head == Last(path) {
        PlannedHead(w, sink.writer.db.tables, c, o, cache, path, config);
        if batch.Success? {
          PlanIsServed(w, source.answers, batch.value.events, c, path);
        }
      }
      if batch.Failure? {
        r := Refuse(batch.error, checkpoint, report);
        return;
      }
      ghost var d := HeadReplays(w, sink.writer.db.tables, sink.chain, o, cache, head, 0,
                                 config.maxReorgDepth, config.finalizedHeight);
      r := CommitPayloads(source, sink, batch.value, report, w, d);
    }

    lemma PlanIsServed(w: World, a: Answers, es: seq<ChainEvent>, c: seq<Header>, path: seq<Header>)
      requires Steady(w, a, path) && Remembers(a, c)
      requires forall e | e in es :: if e.Apply? then e.header in path else e.header in c
      ensures Served(a, es) && forall e | e in es :: e.header.height <= I64_MAX
    {
      forall e | e in es ensures e.header.height <= I64_MAX {
        if e.Apply? {
          assert OffersFor(a, 0, e.header);
        }
      }
    }

    lemma {:induction false} PlayLength(c: seq<Header>, es: seq<ChainEvent>)
      requires Play(c, es).Some?
      ensures |Play(c, es).value| <= |c| + |es|
      decreases |es|
    {
      if es != [] { PlayLength(Step(c, es[0]).value, es[1..]); }
    }

    method CommitPayloads(source: LiveSource, sink: PostgresSink, batch: ChainBatch, report: LiveReport,
                          ghost w: World, ghost d: seq<Header>)
      returns (r: Result<(), LiveError>)
      requires sink.Stored(w) && Play(sink.chain, batch.events) == Some(d) && NoRepeats(AppliedHashes(batch.events))
      requires batch.events != [] && Last(batch.events).Rollback? ==> d != [] && batch.ancestor == Some(Last(d))
      requires forall e | e in batch.events :: Genuine(w, e.header)
      requires source.trouble.None?
      modifies source, sink, sink.writer.db, report`readiness
      ensures source.asked >= old(source.asked) && source.polls >= old(source.polls)
      ensures Surfaces(source.trouble, FailureOf(r))
      ensures |sink.chain| <= |old(sink.chain)| + (source.polls - old(source.polls))
      ensures report.readiness in {old(report.readiness), Degraded}
      ensures sink.Stored(w) && (sink.chain == old(sink.chain) || sink.chain == d)
      ensures r.Success? ==> sink.chain == d && (sink.parentAnchor == TopOf(d) || sink.parentAnchor == None)
      ensures (&& Served(source.answers, batch.events) && Calm(sink)
               && forall e | e in batch.events :: e.header.height <= I64_MAX) ==> r.Success?
    {
      PlayLength(sink.chain, batch.events);
      var payloads := GatherPayloads(source, batch.events, report);
      if payloads.Failure? {
        return Failure(payloads.error);
      }
      GatheredFit(batch, payloads.value);
      forall p | p in payloads.value ensures Genuine(w, p.header) {
        assert Apply(p.header) in batch.events;
      }
      var ok := sink.CommitBatch(batch, payloads.value, w, d);
      r := if ok then Success(()) else Failure(SinkError);
    }

    // The coordinator has nothing parked and waits for the height above the sink's chain.
    ghost predicate Aligned(coordinator: Coordinator, sink: PostgresSink, height: nat)
      reads coordinator, sink
    {
      && coordinator.pending == map[] && coordinator.parentAnchor == TopOf(sink.chain)
      && coordinator.nextHeight == height == NextHeight(sink.chain) && height <= coordinator.target + 1
    }

    // A coordinator that starts at zero on a sink that holds a chain already: the checkpoint
    // could not be read.
    ghost predicate Blind(coordinator: Coordinator, sink: PostgresSink, height: nat)
      reads coordinator, sink
    {
      && coordinator.pending == map[] && coordinator.parentAnchor == None && sink.chain != []
      && coordinator.nextHeight == height == 0
    }

    // Pushes one height through the coordinator into the sink. A parent mismatch leaves the
    // sink untouched; a coordinator that starts blindly at zero never gets a block in.
    method PushHeight(coordinator: Coordinator, sink: PostgresSink, f: Backfill.Fetched, ghost w: World)
      returns (r: Result<(), BackfillError>)
      requires sink.Valid(w) && f.range.from <= coordinator.target
      requires Aligned(coordinator, sink, f.range.from) || Blind(coordinator, sink, f.range.from)
      requires Covers(f.range, f.headers) && f.range.from == f.range.to && |f.blocks| == 1
      requires f.blocks[0].header == f.headers[0] && Genuine(w, f.headers[0])
      modifies coordinator, sink, sink.writer.db
      ensures sink.Stored(w) && Grew(old(sink.chain), old(sink.History()), sink.chain, sink.History())
      ensures sink.chain == old(sink.chain) || sink.chain == old(sink.chain) + f.headers
      ensures r.Success? ==> sink.Valid(w) && Aligned(coordinator, sink, f.range.to + 1) && sink.chain != []
      ensures r.Success? ==> old(Aligned(coordinator, sink, f.range.from))
      ensures r.Failure? && r.error.FetchedSuffixInvalidated? ==>
                sink.Valid(w) && sink.chain == old(sink.chain) && sink.History() == old(sink.History())
      ensures sink.readCount == old(sink.readCount)
      ensures r.Failure? && r.error.FetchedSuffixInvalidated? <==> old(Mismatch(coordinator.parentAnchor, f))
      ensures (&& old(Aligned(coordinator, sink, f.range.from)) && !old(Mismatch(coordinator.parentAnchor, f))
               && Calm(sink)
               && Storable(ApplyBlock(f.blocks[0]))) ==> r.Success? && sink.chain == old(sink.chain) + f.headers
    {
      hide Holds, Covers;
      assert sink.chain[|sink.chain|..] == [] && Applies([]) == [];
      var admitted := Admit(coordinator, f);
      if admitted.Failure? {
        return admitted;
      }
      var ok := sink.CommitRange(f, w);
      if !ok {
        return Failure(Commit);
      }
      coordinator.MoveOn(f);
      r := Success(());
    }

    // The one range pushed is the one taken out again, if it links.
    method Admit(coordinator: Coordinator, f: Backfill.Fetched) returns (r: Result<(), BackfillError>)
      requires coordinator.pending == map[] && coordinator.nextHeight == f.range.from <= coordinator.target
      requires Covers(f.range, f.headers) && f.range.from == f.range.to
      modifies coordinator`pending
      ensures coordinator.pending == map[] && |f.headers| == 1 && f.headers[0].height == f.range.from
      ensures r.Success? <==> !Mismatch(coordinator.parentAnchor, f)
      ensures r.Failure? ==> r.error.FetchedSuffixInvalidated?
    {
      ghost var view := Coord(coordinator.nextHeight, coordinator.target, coordinator.parentAnchor, map[], [], 0);
      var refused := coordinator.InsertPending(f);
      assert Insert(view, f).Success?;
      assert refused.None?;
      var ready := coordinator.TakeReady();
      r := if ready.Failure? then Failure(ready.error) else Success(());
    }

    // Fetches the block at one height, as a range of its own.
    method FetchHeight(source: LiveSource, height: nat, report: LiveReport, ghost w: World, ghost path: seq<Header>)
      returns (r: Result<Backfill.Fetched, LiveError>)
      requires Honest(w, source.answers)
      requires source.trouble.None?
      modifies source, report`readiness
      ensures source.asked >= old(source.asked) && source.polls >= old(source.polls)
      ensures Surfaces(source.trouble, FailureOf(r))
      ensures source.polls == old(source.polls)
      ensures report.readiness in {old(report.readiness), Degraded}
      ensures r.Failure? && r.error.BackfillFailed? ==> !r.error.backfill.FetchedSuffixInvalidated?
      ensures r.Success? ==>
                && Covers(r.value.range, r.value.headers) && r.value.range == Range(height, height)
                && |r.value.blocks| == 1 && r.value.headers == [r.value.blocks[0].header]
                && Genuine(w, r.value.headers[0])
                && VouchedAt(source.answers, old(source.asked), source.asked, height, r.value.blocks[0])
      ensures source.answers.byNumber(old(source.asked), height).FetchAgain? ==> r == Failure(ReconcileRequested)
      ensures Steady(w, source.answers, path) && height < |path| ==>
                if r.Success? then r.value.headers[0] == path[height] && Storable(ApplyBlock(r.value.blocks[0]))
                else r == Failure(ReconcileRequested) && !Patient(source.answers)
    {
      if Steady(w, source.answers, path) && height < |path| {
        HeightAt(path, height);
        assert OffersAt(source.answers, source.asked, path[height]);
      }
      var first := source.BlockByNumber(height);
      assert GenuineBlock(w, first);
      if first.FetchFailed? {
        return Failure(SourceError);
      }
      if first.FetchAgain? {
        return Failure(ReconcileRequested);
      }
      var block := ValidateOrRefetchNumber(source, height, first, report, w);
      if block.Failure? {
        return Failure(block.error);
      }
      hide ReallyWrong;
      var made := NewFetched(Range(height, height), [block.value.header], [block.value]);
      r := if made.Failure? then Failure(BackfillFailed(made.error)) else Success(made.value);
    }

    // Fetches the block at one height and pushes it.
    method FetchAndPushHeight(source: LiveSource, sink: PostgresSink, coordinator: Coordinator, height: nat,
                              report: LiveReport, ghost w: World, ghost path: seq<Header>)
      returns (r: Result<(), LiveError>)
      requires Honest(w, source.answers) && sink.Valid(w) && height <= coordinator.target
      requires Aligned(coordinator, sink, height) || Blind(coordinator, sink, height)
      requires source.trouble.None?
      modifies source, coordinator, sink, sink.writer.db, report`readiness
      ensures source.asked >= old(source.asked) && source.polls >= old(source.polls)
      ensures Surfaces(source.trouble, FailureOf(r))
      ensures source.polls == old(source.polls)
      ensures |sink.chain| <= |old(sink.chain)| + 1
      ensures report.readiness in {old(report.readiness), Degraded}
      ensures sink.Stored(w) && Grew(old(sink.chain), old(sink.History()), sink.chain, sink.History())
      ensures r.Success? ==> sink.Valid(w) && Aligned(coordinator, sink, height + 1) && sink.chain != []
      ensures r.Success? ==> old(Aligned(coordinator, sink, height))
      ensures r.Failure? && AsksForReconcile(r.error) ==>
                sink.Valid(w) && sink.chain == old(sink.chain) && sink.History() == old(sink.History())
      ensures sink.readCount == old(sink.readCount)
      ensures (&& Steady(w, source.answers, path) && Calm(sink) && height < |path|
               && old(Aligned(coordinator, sink, height))) ==>
                if r.Success? then Last(sink.chain) == path[height] && sink.chain == old(sink.chain) + [path[height]]
                else AsksForReconcile(r.error)
      ensures (&& Steady(w, source.answers, path) && Calm(sink) && height < |path|
               && old(Aligned(coordinator, sink, height))
               && (old(sink.chain) == [] || Links(Last(old(sink.chain)), path[height]))) ==>
                r.Success? || (r == Failure(ReconcileRequested) && !Patient(source.answers))
      ensures (&& Steady(w, source.answers, path) && Calm(sink) && height < |path|
               && old(Aligned(coordinator, sink, height))
               && old(sink.chain) != [] && !Links(Last(old(sink.chain)), path[height])) ==> r.Failure?
    {
      hide Holds, Honest, Steady, Covers, Patient;
      assert sink.chain[|sink.chain|..] == [] && Applies([]) == [];
      var fetched := FetchHeight(source, height, report, w, path);
      if fetched.Failure? {
        return Failure(fetched.error);
      }
      var pushed := PushHeight(coordinator, sink, fetched.value, w);
      r := if pushed.Success? then Success(()) else Failure(BackfillFailed(pushed.error));
    }

    // The two failures of a catch-up step that are answered by a fresh reconciliation.
    predicate AsksForReconcile(e: LiveError) {
      e.ReconcileRequested? || (e.BackfillFailed? && e.backfill.FetchedSuffixInvalidated?)
    }

    // Asks for the head again and applies it.
    method ReconcileCurrentHead(source: LiveSource, sink: PostgresSink, report: LiveReport, ghost w: World,
                                ghost path: seq<Header>)
      returns (r: Result<(), LiveError>)
      requires Honest(w, source.answers) && sink.Stored(w) && report.halted.None? && sink.chain != []
      requires source.trouble.None?
      modifies source, sink, sink.writer.db, report
      ensures source.asked >= old(source.asked) && source.polls >= old(source.polls)
      ensures Surfaces(source.trouble, FailureOf(r))
      ensures |sink.chain| <= |old(sink.chain)| + (source.polls - old(source.polls))
      ensures sink.Stored(w) && sink.chain != [] && KeepsFinalized(config.finalizedHeight, old(sink.chain), sink.chain)
      ensures report.halted.Some? ==>
                && r.Success? && sink.chain == old(sink.chain) && sink.writer.db.tables == old(sink.writer.db.tables)
                && report.halted != Some(MissingExplicitStart) && report.readiness == Unavailable
      ensures r.Success? && report.halted.None? ==>
                if sink.faults.checkpoint(old(sink.readCount))
                then sink.chain == old(sink.chain) && sink.writer.db.tables == old(sink.writer.db.tables)
                else Observed(source.answers, old(source.asked), source.asked, Last(sink.chain))
      ensures report.halted.None? ==>
                && report.verifierDisagreements == old(report.verifierDisagreements)
                && report.readiness in {old(report.readiness), Degraded}
      ensures Undisturbed(w, source.answers, sink, old(sink.chain), path) ==>
                Applied(config, old(sink.chain), path, report.halted, r.Failure?, sink.chain)
    {
      var cancelled := source.IsCancelled();
      if cancelled {
        return Failure(Cancelled);
      }
      report.readiness := Degraded;
      var answer := source.CurrentHead();
      if answer.HeadFailed? {
        return Failure(SourceError);
      }
      r := ApplyChainState(source, sink, answer.head, report, w, path);
    }

    // Fetches and commits every height from the one above the sink's chain to the target.
    // Stops early on a cancellation or a failure.
    method CatchUp(source: LiveSource, sink: PostgresSink, coordinator: Coordinator, report: LiveReport,
                   ghost w: World, ghost path: seq<Header>)
      returns (r: Result<(), LiveError>)
      requires Honest(w, source.answers) && sink.Valid(w) && coordinator.nextHeight <= coordinator.target
      requires Aligned(coordinator, sink, coordinator.nextHeight) || Blind(coordinator, sink, coordinator.nextHeight)
      requires source.trouble.None?
      modifies source, coordinator, sink, sink.writer.db, report`readiness
      ensures source.asked >= old(source.asked) && source.polls >= old(source.polls)
      ensures Surfaces(source.trouble, FailureOf(r))
      ensures |sink.chain| <= |old(sink.chain)| + (source.polls - old(source.polls))
      ensures report.readiness in {old(report.readiness), Degraded}
      ensures sink.Stored(w) && Grew(old(sink.chain), old(sink.History()), sink.chain, sink.History())
      ensures r.Success? ==> sink.Valid(w) && sink.chain != [] && Last(sink.chain).height == coordinator.target
      ensures r.Success? ==> old(Aligned(coordinator, sink, coordinator.nextHeight))
      ensures r.Failure? && AsksForReconcile(r.error) ==> sink.Valid(w)
      ensures sink.readCount == old(sink.readCount)
      ensures (&& Steady(w, source.answers, path) && Calm(sink) && coordinator.target < |path|
               && old(Aligned(coordinator, sink, coordinator.nextHeight))) ==>
                if old(sink.chain) == [] || Last(old(sink.chain)) in path
                then || (r.Success? && Last(sink.chain) == path[coordinator.target])
                     || (r == Failure(ReconcileRequested) && !Patient(source.answers)
                         && PartWay(old(sink.chain), sink.chain, path))
                else r.Failure? && AsksForReconcile(r.error) && sink.chain == old(sink.chain)
    {
      hide Holds, Honest, Grew, Calm, Steady, Climbing, Patient, PartWay;
      ghost var start, base, history := coordinator.nextHeight, sink.chain, sink.History();
      ghost var ideal := Ideal(w, source, sink, coordinator, start, path);
      ghost var aligned := Aligned(coordinator, sink, start);
      GrewNone(base, history);
      StartClimbing(w, source, sink, coordinator, start, path);
      var height := coordinator.nextHeight;
      while height <= coordinator.target
        invariant source.asked >= old(source.asked) && source.trouble.None?
        invariant sink.Valid(w) && sink.readCount == old(sink.readCount)
        invariant |sink.chain| <= |old(sink.chain)| + (source.polls - old(source.polls))
        invariant source.polls >= old(source.polls)
        invariant report.readiness in {old(report.readiness), Degraded}
        invariant Grew(base, history, sink.chain, sink.History())
        invariant Climbing(coordinator, sink, height, start, base, ideal, path)
        invariant start <= height <= coordinator.target + 1
        invariant if height > start then aligned else aligned == Aligned(coordinator, sink, start)
        decreases coordinator.target + 1 - height
      {
        ghost var c, j := sink.chain, sink.History();
        ClimbsPartWay(coordinator, sink, height, start, base, ideal, path);
        r := CatchUpStep(source, sink, coordinator, height, report, w, path, start, base, ideal);
        GrewTwice(base, history, c, j, sink.chain, sink.History());
        if r.Failure? {
          return;
        }
        height := height + 1;
      }
      Climbed(w, source, sink, coordinator, height, start, base, ideal, path);
      r := Success(());
    }

    // Everything a catch-up needs to go through.
    ghost predicate Ideal(w: World, source: LiveSource, sink: PostgresSink, coordinator: Coordinator, start: nat,
                          path: seq<Header>)
      reads coordinator, sink
    {
      Steady(w, source.answers, path) && Calm(sink) && coordinator.target < |path| && Aligned(coordinator, sink, start)
    }

    // A catch-up that has reached the height: from a blind start it never leaves the start,
    // and under ideal conditions it is on the path above the start and never left it
    // otherwise.
    ghost predicate Climbing(coordinator: Coordinator, sink: PostgresSink, height: nat, start: nat, base: seq<Header>,
                             ideal: bool, path: seq<Header>)
      reads coordinator, sink
    {
      && (Aligned(coordinator, sink, height) || (Blind(coordinator, sink, height) && height == start && !ideal))
      && (height > start ==> sink.chain != []) && (height == start ==> sink.chain == base)
      && (ideal && height > start ==> 0 < height <= |path| && Last(sink.chain) == path[height - 1])
      && (ideal && base != [] && Last(base) !in path ==> height == start)
      && (ideal ==> PartWay(base, sink.chain, path))
    }

    lemma StartClimbing(w: World, source: LiveSource, sink: PostgresSink, coordinator: Coordinator, start: nat,
                        path: seq<Header>)
      requires start == coordinator.nextHeight && (Aligned(coordinator, sink, start) || Blind(coordinator, sink, start))
      ensures var ideal := Ideal(w, source, sink, coordinator, start, path);
              Climbing(coordinator, sink, start, start, sink.chain, ideal, path)
    {
    }

    lemma ClimbsPartWay(coordinator: Coordinator, sink: PostgresSink, height: nat, start: nat, base: seq<Header>,
                        ideal: bool, path: seq<Header>)
      requires Climbing(coordinator, sink, height, start, base, ideal, path)
      ensures ideal ==> PartWay(base, sink.chain, path)
    {
    }

    lemma Climbed(w: World, source: LiveSource, sink: PostgresSink, coordinator: Coordinator, height: nat, start: nat,
                  base: seq<Header>, ideal: bool, path: seq<Header>)
      requires Climbing(coordinator, sink, height, start, base, ideal, path) && height == coordinator.target + 1 > start
      ensures sink.chain != [] && Last(sink.chain).height == coordinator.target
      ensures ideal ==> Last(sink.chain) == path[coordinator.target] && (base == [] || Last(base) in path)
    {
    }

    // One height of a catch-up.
    method CatchUpStep(source: LiveSource, sink: PostgresSink, coordinator: Coordinator, height: nat,
                       report: LiveReport, ghost w: World, ghost path: seq<Header>, ghost start: nat,
                       ghost base: seq<Header>, ghost ideal: bool)
      returns (r: Result<(), LiveError>)
      requires Honest(w, source.answers) && sink.Valid(w) && start <= height <= coordinator.target
      requires Climbing(coordinator, sink, height, start, base, ideal, path)
      requires ideal ==> Steady(w, source.answers, path) && Calm(sink) && coordinator.target < |path|
      requires source.trouble.None?
      modifies source, coordinator, sink, sink.writer.db, report`readiness
      ensures source.asked >= old(source.asked) && source.polls >= old(source.polls)
      ensures sink.readCount == old(sink.readCount)
      ensures Surfaces(source.trouble, FailureOf(r))
      ensures |sink.chain| <= |old(sink.chain)| + (source.polls - old(source.polls))
      ensures report.readiness in {old(report.readiness), Degraded}
      ensures sink.Stored(w) && Grew(old(sink.chain), old(sink.History()), sink.chain, sink.History())
      ensures r.Success? ==> sink.Valid(w) && Climbing(coordinator, sink, height + 1, start, base, ideal, path)
      ensures r.Success? ==> old(Aligned(coordinator, sink, height))
      ensures r.Failure? && AsksForReconcile(r.error) ==> sink.Valid(w)
      ensures r.Failure? && AsksForReconcile(r.error) ==> sink.chain == old(sink.chain)
      ensures ideal ==> if base == [] || Last(base) in path
                        then r.Success? || (r == Failure(ReconcileRequested) && !Patient(source.answers))
                        else r.Failure? && AsksForReconcile(r.error) && sink.chain == base
    {
      hide Holds, Honest, Grew, Calm;
      GrewNone(sink.chain, sink.History());
      ghost var c := sink.chain;
      if ideal && c != [] {
        SteadyPath(w, source.answers, path);
        TopGenuine(w, sink);
        OnPath(w, c, path, height);
        assert height > start ==> path[height - 1] in path;
      }
      hide Steady;
      var cancelled := source.IsCancelled();
      if cancelled {
        return Failure(Cancelled);
      }
      r := FetchAndPushHeight(source, sink, coordinator, height, report, w, path);
    }

    lemma OnPathHeights(w: World, path: seq<Header>, h: Header)
      requires IsPath(w, path)
      ensures Last(path).height == |path| - 1
      ensures h in path ==> h.height < |path| && (h.height == |path| - 1 ==> h == Last(path))
    {
      HeightAt(path, |path| - 1);
      if h in path {
        var i :| 0 <= i < |path| && path[i] == h;
        HeightAt(path, i);
      }
    }

    // Where the ends of the path and of the stored chain are on the other one.
    lemma Placed(w: World, sink: PostgresSink, path: seq<Header>)
      requires IsPath(w, path) && sink.Stored(w) && sink.chain != []
      ensures var head, top := Last(path), Last(sink.chain);
              && (top in path ==> top.height <= head.height && (top.height == head.height ==> top == head))
              && (head in sink.chain ==> head.height <= top.height && (top.height == head.height ==> top == head))
    {
      OnPathHeights(w, path, Last(sink.chain));
      var c := sink.chain;
      HeightAt(c, |c| - 1);
      if Last(path) in c {
        var i :| 0 <= i < |c| && c[i] == Last(path);
        HeightAt(c, i);
      }
    }

    lemma SteadyPath(w: World, a: Answers, path: seq<Header>)
      requires Steady(w, a, path)
      ensures IsPath(w, path)
    {
    }

    lemma TopGenuine(w: World, sink: PostgresSink)
      requires sink.Stored(w) && sink.chain != []
      ensures Genuine(w, Last(sink.chain))
    {
      assert Last(sink.chain) in sink.chain;
    }

    lemma StillUndisturbed(w: World, a: Answers, sink: PostgresSink, c: seq<Header>, d: seq<Header>, path: seq<Header>)
      requires Undisturbed(w, a, sink, c, path) && PartWay(c, d, path)
      ensures Undisturbed(w, a, sink, d, path)
    {
      forall h | h in d ensures h.height <= I64_MAX {
        if h !in c {
          assert h in path && OffersFor(a, 0, h);
        }
      }
    }

    // Catches up from the checkpoint; a step whose block does not fit, or for which the
    // source asks to start over, is answered by one reconciliation with a fresh head. A
    // halt there leaves exactly what the completed steps committed.
    method CatchUpFromCheckpoint(source: LiveSource, sink: PostgresSink, checkpoint: Header, head: Header,
                                 report: LiveReport, ghost w: World, ghost path: seq<Header>)
      returns (r: Result<(), LiveError>)
      requires Honest(w, source.answers) && sink.Valid(w) && report.halted.None?
      requires sink.chain != [] && checkpoint == Last(sink.chain) && checkpoint.height < head.height
      requires source.trouble.None?
      modifies source, sink, sink.writer.db, report
      ensures source.asked >= old(source.asked) && source.polls >= old(source.polls)
      ensures Surfaces(source.trouble, FailureOf(r))
      ensures |sink.chain| <= |old(sink.chain)| + (source.polls - old(source.polls))
      ensures sink.Stored(w) && sink.chain != [] && KeepsFinalized(config.finalizedHeight, old(sink.chain), sink.chain)
      ensures report.halted.Some? ==>
                && r.Success? && Grew(old(sink.chain), old(sink.History()), sink.chain, sink.History())
                && report.halted != Some(MissingExplicitStart) && report.readiness == Unavailable
      ensures r.Success? && report.halted.None? ==>
                || (old(sink.chain) <= sink.chain && Last(sink.chain).height == head.height)
                || (if sink.faults.checkpoint(old(sink.readCount))
                    then Grew(old(sink.chain), old(sink.History()), sink.chain, sink.History())
                    else Observed(source.answers, old(source.asked), source.asked, Last(sink.chain)))
      ensures report.halted.None? ==>
                && report.verifierDisagreements == old(report.verifierDisagreements)
                && report.readiness in {old(report.readiness), Degraded}
      ensures Undisturbed(w, source.answers, sink, old(sink.chain), path) && head == Last(path) ==>
                if Last(old(sink.chain)) in path
                then Resumed(config, source.answers, old(sink.chain), path, report.halted, r.Failure?, sink.chain)
                else Applied(config, old(sink.chain), path, report.halted, r.Failure?, sink.chain)
    {
      hide Holds, Honest, AppliesTo, PartWay, Undisturbed, Patient, Surfaces, AsksForReconcile, KeepsFinalized, Grew;
      r := CatchUpOn(source, sink, checkpoint, head, report, w, path);
      GrewKeeps(config.finalizedHeight, old(sink.chain), old(sink.History()), sink.chain, sink.History());
      if r.Failure? && AsksForReconcile(r.error) {
        NoTrouble(source.trouble, r.error);
        ghost var c := sink.chain;
        r := ReconcileCurrentHead(source, sink, report, w, path);
        KeepsTwice(config.finalizedHeight, old(sink.chain), c, sink.chain);
      }
    }

    // The catch-up itself, from the height above the checkpoint to the head's.
    method CatchUpOn(source: LiveSource, sink: PostgresSink, checkpoint: Header, head: Header,
                     report: LiveReport, ghost w: World, ghost path: seq<Header>)
      returns (r: Result<(), LiveError>)
      requires Honest(w, source.answers) && sink.Valid(w)
      requires sink.chain != [] && checkpoint == Last(sink.chain) && checkpoint.height < head.height
      requires source.trouble.None?
      modifies source, sink, sink.writer.db, report`readiness
      ensures source.asked >= old(source.asked) && source.polls >= old(source.polls)
      ensures report.readiness in {old(report.readiness), Degraded}
      ensures Surfaces(source.trouble, FailureOf(r))
      ensures |sink.chain| <= |old(sink.chain)| + (source.polls - old(source.polls))
      ensures sink.Stored(w) && Grew(old(sink.chain), old(sink.History()), sink.chain, sink.History())
      ensures sink.chain != [] && sink.readCount == old(sink.readCount)
      ensures r.Success? ==> old(sink.chain) <= sink.chain && Last(sink.chain).height == head.height
      ensures Undisturbed(w, source.answers, sink, old(sink.chain), path) && head == Last(path) ==>
                if r.Success? then Last(old(sink.chain)) in path && Last(sink.chain) == head
                else (&& AsksForReconcile(r.error) && Undisturbed(w, source.answers, sink, sink.chain, path)
                      && if Last(old(sink.chain)) in path
                         then !Patient(source.answers) && PartWay(old(sink.chain), sink.chain, path)
                         else sink.chain == old(sink.chain))
    {
      if Steady(w, source.answers, path) {
        OnPathHeights(w, path, checkpoint);
        assert path != [];
      }
      hide Holds, Honest, Steady, Patient, Surfaces, AsksForReconcile, PartWay;
      var made := Coordinator.New(checkpoint.height + 1, head.height, Some(checkpoint));
      assert AnchorFits(checkpoint.height + 1, Some(checkpoint));
      r := CatchUp(source, sink, made.value, report, w, path);
      if Undisturbed(w, source.answers, sink, old(sink.chain), path) && PartWay(old(sink.chain), sink.chain, path) {
        StillUndisturbed(w, source.answers, sink, old(sink.chain), sink.chain, path);
      }
      AskedAgain();
    }

    lemma AskedAgain()
      ensures AsksForReconcile(ReconcileRequested)
    {
    }

    lemma NoTrouble(trouble: Option<Trouble>, e: LiveError)
      requires Surfaces(trouble, Some(e)) && AsksForReconcile(e)
      ensures trouble.None?
    {
    }

    // Catches up from an explicit start when no checkpoint was read. Only a start at zero
    // on an empty sink can succeed: any other has no parent anchor, and on a chain whose
    // checkpoint could not be read the first block is refused.
    method CatchUpFromStart(source: LiveSource, sink: PostgresSink, start: nat, head: Header, report: LiveReport,
                            ghost w: World, ghost path: seq<Header>)
      returns (r: Result<(), LiveError>)
      requires Honest(w, source.answers) && sink.Valid(w)
      requires source.trouble.None?
      modifies source, sink, sink.writer.db, report`readiness
      ensures source.asked >= old(source.asked) && source.polls >= old(source.polls)
      ensures Surfaces(source.trouble, FailureOf(r))
      ensures |sink.chain| <= |old(sink.chain)| + (source.polls - old(source.polls))
      ensures report.readiness in {old(report.readiness), Degraded}
      ensures sink.Stored(w) && Grew(old(sink.chain), old(sink.History()), sink.chain, sink.History())
      ensures r.Success? ==> sink.Valid(w) && sink.chain != [] && Last(sink.chain).height == head.height
      ensures r.Success? ==> start == 0 && old(sink.chain) == []
      ensures 0 < start <= head.height ==>
                r == Failure(BackfillFailed(MissingParentAnchor(start))) && sink.chain == old(sink.chain)
      ensures (&& Steady(w, source.answers, path) && Calm(sink) && head == Last(path)
               && start == 0 && old(sink.chain) == []) ==>
                if r.Success? then Last(sink.chain) == head else !Patient(source.answers)
    {
      if Steady(w, source.answers, path) { HeightAt(path, |path| - 1); }
      assert sink.chain[|sink.chain|..] == [] && Applies([]) == [];
      var made := Coordinator.New(start, head.height, None);
      if made.Failure? {
        return Failure(BackfillFailed(made.error));
      }
      r := CatchUp(source, sink, made.value, report, w, path);
    }

    // Subscription events only ever degrade the report; they never decide what is applied.
    method NoteEvents(events: seq<HeadEvent>, report: LiveReport)
      modifies report`readiness
      ensures report.readiness == if Disconnect in events then Unavailable else old(report.readiness)
    {
      for i := 0 to |events|
        invariant report.readiness == if Disconnect in events[..i] then Unavailable else old(report.readiness)
      {
        assert events[..i + 1] == events[..i] + [events[i]];
        if events[i].Disconnect? {
          report.readiness := Unavailable;
        }
      }
      assert events[..|events|] == events;
    }

    // The head, checked against the verifier; a disagreement is counted and degrades.
    method ObserveHead(source: LiveSource, report: LiveReport, ghost w: World) returns (r: Result<Header, LiveError>)
      requires Honest(w, source.answers) && report.halted.None?
      requires source.trouble.None?
      modifies source, report
      ensures source.asked >= old(source.asked) && source.polls >= old(source.polls)
      ensures report.halted.None?
      ensures Surfaces(source.trouble, FailureOf(r))
      ensures r.Success? ==> source.polls == old(source.polls) + 1 && source.trouble.None?
      ensures (&& !source.answers.cancelled(old(source.polls)) && source.answers.heads(old(source.asked)).Seen?
               && !source.answers.verdicts(old(source.asked) + 1,
                                           source.answers.heads(old(source.asked)).head).VerifierFailed?)
              ==> r == Success(source.answers.heads(old(source.asked)).head)
      ensures r.Success? ==>
                if source.answers.verdicts(old(source.asked) + 1, r.value).Disagree?
                then (&& report.verifierDisagreements == old(report.verifierDisagreements) + 1
                      && report.readiness == Degraded)
                else unchanged(report)
      ensures r.Success? ==>
                source.answers.heads(old(source.asked)) == Seen(r.value) && source.asked == old(source.asked) + 2
      ensures r.Success? ==> Genuine(w, r.value) && Observed(source.answers, old(source.asked), source.asked, r.value)
    {
      var cancelled := source.IsCancelled();
      if cancelled {
        return Failure(Cancelled);
      }
      var answer := source.CurrentHead();
      if answer.HeadFailed? {
        return Failure(SourceError);
      }
      var verdict := source.VerifyRecent(answer.head);
      if verdict.VerifierFailed? {
        return Failure(SourceError);
      }
      if verdict.Disagree? {
        report.verifierDisagreements := report.verifierDisagreements + 1;
        report.readiness := Degraded;
      }
      r := Success(answer.head);
    }

    lemma StoredHeader(w: World, t: Tables, c: seq<Header>, h: Header)
      requires Inv(w, t, c) && Genuine(w, h)
      ensures var local := CanonicalAtHeight(t, h.height); local.Some? && local.value.hash == h.hash <==> h in c
    {
      CanonicalIsChain(w, t, c);
      MapOfLookup(c);
      assert h.height in MapOf(c) ==> MapOf(c)[h.height] in c;
      if h in c {
        var i :| 0 <= i < |c| && c[i] == h;
        HeightAt(c, i);
      }
    }

    lemma HeaderStored(w: World, sink: PostgresSink, h: Header)
      requires sink.Stored(w) && Genuine(w, h)
      ensures var local := CanonicalAtHeight(sink.writer.db.tables, h.height);
              local.Some? && local.value.hash == h.hash <==> h in sink.chain
    {
      StoredHeader(w, sink.writer.db.tables, sink.chain, h);
    }

    lemma SteadyTop(w: World, source: LiveSource, sink: PostgresSink, path: seq<Header>)
      requires Undisturbed(w, source.answers, sink, sink.chain, path)
      ensures path != [] && forall t: nat :: source.answers.headerByNumber(t, Last(path).height) == Found(Last(path))
      ensures forall t: nat :: !sink.faults.checkpoint(t) && !sink.faults.atHeight(t, Last(path).height)
    {
      HeightAt(path, |path| - 1);
      forall t: nat ensures !sink.faults.checkpoint(t) && !sink.faults.atHeight(t, Last(path).height) {
        assert sink.LookupsWork(t);
      }
    }

    // A head below the checkpoint whose height the source and the store agree on is only
    // stale: nothing is done. Otherwise it is applied.
    method FollowLowerHead(source: LiveSource, sink: PostgresSink, head: Header, report: LiveReport, ghost w: World,
                           ghost path: seq<Header>)
      returns (r: Result<bool, LiveError>)
      requires Honest(w, source.answers) && sink.Valid(w) && report.halted.None? && Genuine(w, head)
      requires sink.chain != [] && head.height < Last(sink.chain).height
      requires source.trouble.None?
      modifies source, sink, sink.writer.db, report
      ensures source.asked >= old(source.asked) && source.polls >= old(source.polls)
      ensures Surfaces(source.trouble, FailureOf(r))
      ensures |sink.chain| <= |old(sink.chain)| + (source.polls - old(source.polls))
      ensures sink.Stored(w) && sink.chain != [] && KeepsFinalized(config.finalizedHeight, old(sink.chain), sink.chain)
      ensures report.halted.Some? ==>
                && r.Success? && !r.value && sink.chain == old(sink.chain)
                && sink.writer.db.tables == old(sink.writer.db.tables)
                && report.halted != Some(MissingExplicitStart) && report.readiness == Unavailable
      ensures r.Success? && r.value ==>
                sink.chain == old(sink.chain) && sink.writer.db.tables == old(sink.writer.db.tables)
      ensures r.Success? && !r.value && report.halted.None? ==>
                if sink.faults.checkpoint(old(sink.readCount) + 1)
                then sink.chain == old(sink.chain) && sink.writer.db.tables == old(sink.writer.db.tables)
                else Last(sink.chain) == head
      ensures r.Success? && r.value <==>
                && !sink.faults.atHeight(old(sink.readCount), head.height)
                && SameHash(source.answers.headerByNumber(old(source.asked), head.height),
                            old(CanonicalAtHeight(sink.writer.db.tables, head.height)))
      ensures report.halted.None? ==>
                && report.verifierDisagreements == old(report.verifierDisagreements)
                && report.readiness in {old(report.readiness), Degraded}
      ensures Undisturbed(w, source.answers, sink, old(sink.chain), path) && head == Last(path) ==>
                if head in old(sink.chain) then r == Success(true) && report.halted.None?
                else (&& Applied(config, old(sink.chain), path, report.halted, r.Failure?, sink.chain)
                      && r != Success(true))
    {
      hide Holds, Honest, Undisturbed, AppliesTo, Observed, Followable, CanonicalAtHeight;
      if Undisturbed(w, source.answers, sink, sink.chain, path) { SteadyTop(w, source, sink, path); }
      HeaderStored(w, sink, head);
      var remote := source.HeaderByNumber(head.height);
      if remote.Failed? {
        return Failure(SourceError);
      }
      var local := sink.ReadAtHeight(head.height);
      if SameHash(remote, local) {
        return Success(true);
      }
      var applied := ApplyChainState(source, sink, head, report, w, path);
      r := if applied.Success? then Success(false) else Failure(applied.error);
    }

    // One pass. Every exit, with or without an error, leaves the store one contiguous chain
    // with its checkpoint on top and everything finalized still in it. A depth or finality
    // halt commits nothing but completed catch-up blocks. A pass that ends without a halt
    // has caught up with a head it saw, or has seen a stale head and done nothing, or the
    // checkpoint read just before the head was to be applied has failed. It polls for a
    // cancellation before every block it commits; a cancellation or an answer that failed
    // ends it. It is ready exactly when the verifier did not disagree and the head was not
    // stale, and against an undisturbed source it settles as it should.
    method RunWithCancellation(source: LiveSource, sink: PostgresSink, events: seq<HeadEvent>, ghost w: World,
                               ghost path: seq<Header>)
      returns (r: Result<LiveReport, LiveError>)
      requires Honest(w, source.answers) && sink.Valid(w)
      modifies source, sink, sink.writer.db
      ensures sink.Stored(w) && (old(sink.chain) != [] ==> sink.chain != [])
      ensures KeepsFinalized(config.finalizedHeight, old(sink.chain), sink.chain)
      ensures r.Success? ==> fresh(r.value)
      ensures r.Success? && r.value.halted.Some? ==>
                && r.value.readiness == Unavailable
                && Grew(old(sink.chain), old(sink.History()), sink.chain, sink.History())
      ensures r.Success? ==>
                (r.value.halted == Some(MissingExplicitStart) <==>
                   && config.explicitStart.None?
                   && (old(sink.chain) == [] || sink.faults.checkpoint(old(sink.readCount) + 1)))
      ensures r.Success? && r.value.halted == Some(MissingExplicitStart) ==>
                && r.value.finalCheckpoint.Some?
                && source.answers.heads(old(source.asked)) == Seen(r.value.finalCheckpoint.value)
      ensures r.Success? && r.value.halted != Some(MissingExplicitStart) ==>
                || r.value.finalCheckpoint == TopOf(sink.chain)
                || (r.value.finalCheckpoint == None && sink.readCount > 0 && sink.faults.checkpoint(sink.readCount - 1))
      ensures r.Success? && r.value.halted.None? ==>
                || CaughtUp(source.answers, old(source.asked), source.asked, old(sink.chain), sink.chain)
                || (&& sink.writer.db.tables == old(sink.writer.db.tables) && r.value.readiness == Degraded
                    && exists h ::
                         Observed(source.answers, old(source.asked), source.asked, h) && IsLower(h, old(sink.chain)))
                || (&& ReadLost(source, sink, old(source.asked), old(sink.readCount), old(sink.chain))
                    && Grew(old(sink.chain), old(sink.History()), sink.chain, sink.History()))
      ensures Unfollowed(source, sink, old(source.asked), old(source.polls), old(sink.chain), old(sink.readCount)) ==>
                && r.Success? && r.value.halted.None? && r.value.readiness == Ready
                && sink.chain == old(sink.chain) && sink.writer.db.tables == old(sink.writer.db.tables)
      ensures r.Success? && r.value.halted.None? ==>
                && source.answers.heads(old(source.asked)).Seen?
                && var head := source.answers.heads(old(source.asked)).head;
                   var disagrees := source.answers.verdicts(old(source.asked) + 1, head).Disagree?;
                   var stale := LeftAlone(source.answers, sink.faults, old(source.asked) + 2, old(sink.readCount) + 1,
                                          old(sink.writer.db.tables), old(sink.chain), head);
                   && r.value.verifierDisagreements == (if disagrees then 1 else 0)
                   && r.value.readiness == if disagrees || stale then Degraded else Ready
      ensures Undisturbed(w, source.answers, sink, old(sink.chain), path) ==>
                Settles(config, source.answers, old(sink.chain), path,
                        if r.Success? then r.value.halted else None, r.Failure?, sink.chain)
      ensures |sink.chain| <= |old(sink.chain)| + (source.polls - old(source.polls))
      ensures r.Success? ==> |sink.chain| < |old(sink.chain)| + (source.polls - old(source.polls))
      ensures Surfaces(source.trouble, FailureOf(r))
    {
      hide Holds, Honest, Undisturbed, Observed, CaughtUp, Settles, LeftAlone, Surfaces, Grew, KeepsFinalized,
           ReadLost, Unfollowed, IsLower;
      source.trouble := None;
      var report, failed, stale := Pass(source, sink, events, w, path);
      if failed.Some? {
        return Failure(failed.value);
      }
      if report.halted != Some(MissingExplicitStart) {
        Conclude(sink, stale, report, w);
      }
      r := Success(report);
    }

    // A pass up to its last checkpoint read.
    method Pass(source: LiveSource, sink: PostgresSink, events: seq<HeadEvent>, ghost w: World, ghost path: seq<Header>)
      returns (report: LiveReport, failed: Option<LiveError>, stale: Option<Header>)
      requires Honest(w, source.answers) && sink.Valid(w) && source.trouble.None?
      modifies source, sink, sink.writer.db
      ensures fresh(report) && sink.Stored(w) && (old(sink.chain) != [] ==> sink.chain != [])
      ensures KeepsFinalized(config.finalizedHeight, old(sink.chain), sink.chain)
      ensures Surfaces(source.trouble, failed)
      ensures |sink.chain| <= |old(sink.chain)| + (source.polls - old(source.polls))
      ensures failed.None? ==> |sink.chain| < |old(sink.chain)| + (source.polls - old(source.polls))
      ensures failed.None? && report.halted.Some? ==>
                && report.readiness == Unavailable && stale.None?
                && Grew(old(sink.chain), old(sink.History()), sink.chain, sink.History())
      ensures failed.None? ==>
                (report.halted == Some(MissingExplicitStart) <==>
                   && config.explicitStart.None?
                   && (old(sink.chain) == [] || sink.faults.checkpoint(old(sink.readCount) + 1)))
      ensures failed.None? && report.halted == Some(MissingExplicitStart) ==>
                && report.finalCheckpoint.Some?
                && source.answers.heads(old(source.asked)) == Seen(report.finalCheckpoint.value)
      ensures stale.Some? ==>
                && sink.writer.db.tables == old(sink.writer.db.tables) && stale == TopOf(sink.chain)
                && exists h ::
                     Observed(source.answers, old(source.asked), source.asked, h) && IsLower(h, old(sink.chain))
      ensures failed.None? && stale.None? && report.halted.None? ==>
                || CaughtUp(source.answers, old(source.asked), source.asked, old(sink.chain), sink.chain)
                || (&& ReadLost(source, sink, old(source.asked), old(sink.readCount), old(sink.chain))
                    && Grew(old(sink.chain), old(sink.History()), sink.chain, sink.History()))
      ensures Unfollowed(source, sink, old(source.asked), old(source.polls), old(sink.chain), old(sink.readCount)) ==>
                && failed.None? && stale.None? && report.halted.None? && report.verifierDisagreements == 0
                && sink.chain == old(sink.chain) && sink.writer.db.tables == old(sink.writer.db.tables)
      ensures failed.None? && report.halted.None? ==>
                && source.answers.heads(old(source.asked)).Seen?
                && var head := source.answers.heads(old(source.asked)).head;
                   && report.verifierDisagreements
                        == (if source.answers.verdicts(old(source.asked) + 1, head).Disagree? then 1 else 0)
                   && (report.verifierDisagreements == 1 ==> report.readiness == Degraded)
                   && (stale.Some? <==>
                         LeftAlone(source.answers, sink.faults, old(source.asked) + 2, old(sink.readCount) + 1,
                                   old(sink.writer.db.tables), old(sink.chain), head))
      ensures Undisturbed(w, source.answers, sink, old(sink.chain), path) ==>
                Settles(config, source.answers, old(sink.chain), path, if failed.None? then report.halted else None,
                        failed.Some?, sink.chain)
    {
      hide Holds, Honest, Undisturbed, Steady, Reached, Observed, CaughtUp, Settles, LeftAlone, Surfaces, Grew;
      if Undisturbed(w, source.answers, sink, sink.chain, path) { SteadyObserves(w, source, sink, path); }
      var observed;
      report, observed := Begin(source, sink, events, w);
      if observed.Failure? {
        return report, Some(observed.error), None;
      }
      ghost var asked := source.asked;
      failed, stale := Follow(source, sink, observed.value, report, w, path);
      if Reached(source.answers, asked, source.asked, observed.value, old(sink.chain), sink.chain) {
        ReachedIsCaughtUp(source.answers, old(source.asked), asked, source.asked, observed.value,
                          old(sink.chain), sink.chain);
      }
      ObservedLater(source.answers, old(source.asked), asked, source.asked, observed.value);
    }

    // The report with the checkpoint read first, the events noted, and the head observed.
    method Begin(source: LiveSource, sink: PostgresSink, events: seq<HeadEvent>, ghost w: World)
      returns (report: LiveReport, r: Result<Header, LiveError>)
      requires Honest(w, source.answers)
      requires source.trouble.None?
      modifies source, sink`readCount
      ensures fresh(report) && report.halted.None? && sink.readCount == old(sink.readCount) + 1
      ensures source.asked >= old(source.asked) && source.polls >= old(source.polls)
      ensures Surfaces(source.trouble, FailureOf(r))
      ensures r.Success? ==> source.polls == old(source.polls) + 1 && source.trouble.None?
      ensures (&& !source.answers.cancelled(old(source.polls)) && source.answers.heads(old(source.asked)).Seen?
               && !source.answers.verdicts(old(source.asked) + 1,
                                           source.answers.heads(old(source.asked)).head).VerifierFailed?)
              ==> r == Success(source.answers.heads(old(source.asked)).head)
      ensures r.Success? ==> source.answers.heads(old(source.asked)) == Seen(r.value)
      ensures r.Success? ==>
                && source.asked == old(source.asked) + 2
                && if source.answers.verdicts(old(source.asked) + 1, r.value).Disagree?
                   then report.verifierDisagreements == 1 && report.readiness == Degraded
                   else report.verifierDisagreements == 0
      ensures r.Success? ==> Genuine(w, r.value) && Observed(source.answers, old(source.asked), source.asked, r.value)
    {
      hide Observed, Honest;
      var first := sink.ReadCheckpoint();
      report := new LiveReport(first);
      NoteEvents(events, report);
      r := ObserveHead(source, report, w);
    }

    // The last lines of a pass: a stale head degrades, otherwise the checkpoint is read once
    // more and a healthy pass is ready.
    method Conclude(sink: PostgresSink, stale: Option<Header>, report: LiveReport, ghost w: World)
      requires sink.Stored(w) && (stale.Some? ==> stale == TopOf(sink.chain))
      modifies report, sink`readCount
      ensures report.halted == old(report.halted) && report.verifierDisagreements == old(report.verifierDisagreements)
      ensures report.readiness == if stale.Some? then Degraded
                                  else if report.halted.None? && old(report.verifierDisagreements) == 0 then Ready
                                  else old(report.readiness)
      ensures || report.finalCheckpoint == TopOf(sink.chain)
              || (report.finalCheckpoint == None && sink.readCount > 0 && sink.faults.checkpoint(sink.readCount - 1))
    {
      hide Holds;
      sink.CheckpointIsTop(w);
      if stale.Some? {
        report.finalCheckpoint := stale;
        report.readiness := Degraded;
      } else {
        var last := sink.ReadCheckpoint();
        report.Finish(last);
      }
    }

    // The checkpoint read just before the reported head is to be applied fails: the fourth
    // read of the pass when the head is below the top, the third otherwise.
    ghost predicate ReadLost(source: LiveSource, sink: PostgresSink, asked: nat, readCount: nat, chain: seq<Header>) {
      && source.answers.heads(asked).Seen?
      && sink.faults.checkpoint(readCount + if IsLower(source.answers.heads(asked).head, chain) then 3 else 2)
    }

    lemma SteadyObserves(w: World, source: LiveSource, sink: PostgresSink, path: seq<Header>)
      requires Undisturbed(w, source.answers, sink, sink.chain, path)
      ensures forall n: nat :: !source.answers.cancelled(n)
      ensures forall t: nat :: source.answers.heads(t) == Seen(Last(path))
      ensures forall t: nat, h: Header :: !source.answers.verdicts(t, h).VerifierFailed?
      ensures path != [] && forall t: nat :: !sink.faults.checkpoint(t)
    {
    }

    // A lower head is only stale when the checkpoint and the stored header at its height are
    // read and the source names the same block there.
    ghost predicate LeftAlone(a: Answers, f: ReadFaults, asked: nat, readCount: nat, t: Tables, c: seq<Header>,
                              head: Header) {
      && IsLower(head, c) && !f.checkpoint(readCount) && !f.atHeight(readCount + 1, head.height)
      && SameHash(a.headerByNumber(asked, head.height), CanonicalAtHeight(t, head.height))
    }

    // The source reports another block at the height of the top, and of all reads only the
    // checkpoint read before applying it fails.
    ghost predicate Unfollowed(source: LiveSource, sink: PostgresSink, asked: nat, polls: nat, chain: seq<Header>,
                               readCount: nat) {
      var a := source.answers;
      && !a.cancelled(polls) && a.heads(asked).Seen? && OtherTop(a.heads(asked).head, chain)
      && !a.verdicts(asked + 1, a.heads(asked).head).VerifierFailed?
      && !a.verdicts(asked + 1, a.heads(asked).head).Disagree?
      && !sink.faults.checkpoint(readCount + 1) && sink.faults.checkpoint(readCount + 2)
    }

    // What one pass does with the head it observed.
    method Follow(source: LiveSource, sink: PostgresSink, head: Header, report: LiveReport, ghost w: World,
                  ghost path: seq<Header>)
      returns (failed: Option<LiveError>, stale: Option<Header>)
      requires Honest(w, source.answers) && sink.Valid(w) && report.halted.None? && Genuine(w, head)
      requires source.trouble.None?
      modifies source, sink, sink.writer.db, report
      ensures source.asked >= old(source.asked) && source.polls >= old(source.polls)
      ensures Surfaces(source.trouble, failed)
      ensures |sink.chain| <= |old(sink.chain)| + (source.polls - old(source.polls))
      ensures sink.Stored(w) && (old(sink.chain) != [] ==> sink.chain != [])
      ensures KeepsFinalized(config.finalizedHeight, old(sink.chain), sink.chain)
      ensures report.halted.Some? ==>
                && failed.None? && stale.None? && report.readiness == Unavailable
                && Grew(old(sink.chain), old(sink.History()), sink.chain, sink.History())
      ensures failed.None? ==>
                (report.halted == Some(MissingExplicitStart) <==>
                   config.explicitStart.None? && (old(sink.chain) == [] || sink.faults.checkpoint(old(sink.readCount))))
      ensures report.halted == Some(MissingExplicitStart) ==> report.finalCheckpoint == Some(head)
      ensures stale.Some? ==>
                && sink.writer.db.tables == old(sink.writer.db.tables) && IsLower(head, old(sink.chain))
                && sink.chain == old(sink.chain) && stale == TopOf(sink.chain)
      ensures failed.None? && stale.None? && report.halted.None? ==>
                || Reached(source.answers, old(source.asked), source.asked, head, old(sink.chain), sink.chain)
                || (sink.faults.checkpoint(old(sink.readCount) + if IsLower(head, old(sink.chain)) then 2 else 1)
                    && Grew(old(sink.chain), old(sink.History()), sink.chain, sink.History()))
      ensures OtherTop(head, old(sink.chain)) && !sink.faults.checkpoint(old(sink.readCount))
              && sink.faults.checkpoint(old(sink.readCount) + 1) ==>
                && failed.None? && stale.None? && report.halted.None?
                && report.verifierDisagreements == old(report.verifierDisagreements)
                && sink.chain == old(sink.chain) && sink.writer.db.tables == old(sink.writer.db.tables)
      ensures report.halted.None? ==>
                && report.verifierDisagreements == old(report.verifierDisagreements)
                && report.readiness in {old(report.readiness), Degraded}
      ensures failed.None? && report.halted.None? ==>
                (stale.Some? <==> LeftAlone(source.answers, sink.faults, old(source.asked), old(sink.readCount),
                                            old(sink.writer.db.tables), old(sink.chain), head))
      ensures Undisturbed(w, source.answers, sink, old(sink.chain), path) && head == Last(path) ==>
                Settles(config, source.answers, old(sink.chain), path, report.halted, failed.Some?, sink.chain)
    {
      hide Holds, Honest, Observed, KeepsFinalized, AppliesTo, PartWay, Grew, Reached, SameHash, IsLower, OtherTop,
           Applied, Resumed;
      GrewNone(sink.chain, sink.History());
      GrewKeeps(config.finalizedHeight, sink.chain, sink.History(), sink.chain, sink.History());
      sink.CheckpointIsTop(w);
      var checkpoint := sink.ReadCheckpoint();
      if checkpoint.Some? {
        failed, stale := FollowChain(source, sink, checkpoint.value, head, report, w, path);
        return;
      }
      NotLower(source, sink, old(sink.readCount), head);
      if config.explicitStart.None? {
        report.Halt(Some(head), MissingExplicitStart);
        return None, None;
      }
      var r := CatchUpFromStart(source, sink, config.explicitStart.value, head, report, w, path);
      GrewKeeps(config.finalizedHeight, old(sink.chain), old(sink.History()), sink.chain, sink.History());
      ReachedHeight(source.answers, old(source.asked), source.asked, head, old(sink.chain), sink.chain);
      failed, stale := FailureOf(r), None;
    }

    // Without a checkpoint no head is lower.
    lemma NotLower(source: LiveSource, sink: PostgresSink, readCount: nat, head: Header)
      requires sink.chain == [] || sink.faults.checkpoint(readCount)
      ensures !LeftAlone(source.answers, sink.faults, source.asked, readCount, sink.writer.db.tables, sink.chain, head)
      ensures sink.chain == [] ==> !OtherTop(head, sink.chain)
    {
    }

    lemma ReachedHeight(a: Answers, from: nat, to: nat, head: Header, c: seq<Header>, d: seq<Header>)
      ensures c == [] && d != [] && Last(d).height == head.height ==> Reached(a, from, to, head, c, d)
    {
    }

    // What it does with a checkpoint.
    method FollowChain(source: LiveSource, sink: PostgresSink, checkpoint: Header, head: Header, report: LiveReport,
                       ghost w: World, ghost path: seq<Header>)
      returns (failed: Option<LiveError>, stale: Option<Header>)
      requires Honest(w, source.answers) && sink.Valid(w) && report.halted.None? && Genuine(w, head)
      requires source.trouble.None? && sink.chain != [] && checkpoint == Last(sink.chain) && Genuine(w, checkpoint)
      modifies source, sink, sink.writer.db, report
      ensures source.asked >= old(source.asked) && source.polls >= old(source.polls)
      ensures Surfaces(source.trouble, failed)
      ensures |sink.chain| <= |old(sink.chain)| + (source.polls - old(source.polls))
      ensures sink.Stored(w) && sink.chain != []
      ensures KeepsFinalized(config.finalizedHeight, old(sink.chain), sink.chain)
      ensures report.halted.Some? ==>
                && failed.None? && stale.None? && report.readiness == Unavailable
                && Grew(old(sink.chain), old(sink.History()), sink.chain, sink.History())
                && report.halted != Some(MissingExplicitStart)
      ensures stale.Some? ==>
                && sink.writer.db.tables == old(sink.writer.db.tables) && IsLower(head, old(sink.chain))
                && sink.chain == old(sink.chain) && stale == TopOf(sink.chain)
      ensures failed.None? && stale.None? && report.halted.None? ==>
                || Reached(source.answers, old(source.asked), source.asked, head, old(sink.chain), sink.chain)
                || (sink.faults.checkpoint(old(sink.readCount) + if IsLower(head, old(sink.chain)) then 1 else 0)
                    && Grew(old(sink.chain), old(sink.History()), sink.chain, sink.History()))
      ensures OtherTop(head, old(sink.chain)) && sink.faults.checkpoint(old(sink.readCount)) ==>
                && failed.None? && stale.None? && report.halted.None?
                && sink.chain == old(sink.chain) && sink.writer.db.tables == old(sink.writer.db.tables)
      ensures report.halted.None? ==>
                && report.verifierDisagreements == old(report.verifierDisagreements)
                && report.readiness in {old(report.readiness), Degraded}
      ensures failed.None? && report.halted.None? ==>
                (stale.Some? <==>
                   && IsLower(head, old(sink.chain)) && !sink.faults.atHeight(old(sink.readCount), head.height)
                   && SameHash(source.answers.headerByNumber(old(source.asked), head.height),
                               old(CanonicalAtHeight(sink.writer.db.tables, head.height))))
      ensures Undisturbed(w, source.answers, sink, old(sink.chain), path) && head == Last(path) ==>
                Settles(config, source.answers, old(sink.chain), path, report.halted, failed.Some?, sink.chain)
    {
      hide Holds, Honest, SameHash, Observed, CanonicalAtHeight, KeepsFinalized, AppliesTo, PartWay, Grew;
      GrewNone(sink.chain, sink.History());
      GrewKeeps(config.finalizedHeight, sink.chain, sink.History(), sink.chain, sink.History());
      stale := None;
      if Steady(w, source.answers, path) { Placed(w, sink, path); }
      var r: Result<(), LiveError> := Success(());
      if head.height < checkpoint.height {
        var lower := FollowLowerHead(source, sink, head, report, w, path);
        stale := if lower.Success? && lower.value then Some(checkpoint) else None;
        r := if lower.Success? then Success(()) else Failure(lower.error);
      } else if head.height == checkpoint.height {
        if head.hash != checkpoint.hash {
          r := ApplyChainState(source, sink, head, report, w, path);
        } else {
          assert head == checkpoint;
        }
      } else {
        r := CatchUpFromCheckpoint(source, sink, checkpoint, head, report, w, path);
      }
      failed := FailureOf(r);
    }
  }

  lemma ObservedLater(a: Answers, from: nat, mid: nat, to: nat, h: Header)
    requires Observed(a, from, mid, h) && mid <= to
    ensures Observed(a, from, to, h)
  {
  }

  lemma ReachedIsCaughtUp(a: Answers, from: nat, mid: nat, to: nat, head: Header, c: seq<Header>, d: seq<Header>)
    requires Observed(a, from, mid, head) && Reached(a, mid, to, head, c, d) && from <= mid <= to
    ensures CaughtUp(a, from, to, c, d)
  {
    ObservedLater(a, from, mid, to, head);
  }

  predicate SameHash(remote: Lookup, local: Option<Header>) {
    remote.Found? && local.Some? && remote.header.hash == local.value.hash
  }

  // What Follow reaches: the head itself, its height, or a head seen later.
  ghost predicate Reached(a: Answers, from: nat, to: nat, head: Header, c: seq<Header>, d: seq<Header>) {
    d != [] && (Last(d) == head || (c <= d && Last(d).height == head.height) || Observed(a, from, to, Last(d)))
  }

  const OTHER := Header(2, 0, 1)

  function ForkedWorld(): World {
    (x: Hash) => if x == 2 then OTHER else TinyWorld()(x)
  }

  // A source that reports another block at the height of the stored top.
  function ForkedAnswers(): Answers {
    Answers((t: nat) => Seen(OTHER), (t: nat, k: nat) => FetchFailed, (t: nat, x: Hash) => FetchFailed,
            (t: nat, k: nat) => Missing, (t: nat, x: Hash) => Missing, (t: nat, h: Header) => Match, (n: nat) => false)
  }

  function ForkedFaults(): ReadFaults {
    ReadFaults((t: nat) => t == 2, (t: nat, x: Hash) => false, (t: nat, k: nat) => false)
  }

  method ForkedSink() returns (sink: PostgresSink)
    ensures fresh(sink) && fresh(sink.writer.db) && sink.Valid(ForkedWorld())
    ensures sink.chain == [GENESIS, CHILD] && sink.readCount == 0 && sink.faults == ForkedFaults()
  {
    var db := new Database();
    db.tables, db.nextEventId := TwoBlocks(GENESIS, CHILD), 3;
    var writer := new Writer(db);
    var never: nat -> Option<CrashPoint> := (n: nat) => None;
    sink := new PostgresSink(writer, never, ForkedFaults(), [GENESIS, CHILD]);
    TinyIsFair();
    assert GENESIS.hash == 0 && CHILD.hash == 1;
    assert ForkedWorld()(0) == TinyWorld()(0) && ForkedWorld()(1) == TinyWorld()(1);
    hide Inv, TwoBlocks, Checkpointed, IdsOk;
    TwoBlocksHold(ForkedWorld(), GENESIS, CHILD);
    sink.CheckpointIsTop(ForkedWorld());
  }

  // It happens: the store holds two blocks, the source reports a sibling of the top, and the
  // third read of the pass fails. The pass ends ready, and nothing was followed.
  method ReadyWithoutFollowing() returns (r: Result<LiveReport, LiveError>, sink: PostgresSink)
    ensures r.Success? && r.value.halted.None? && r.value.readiness == Ready
    ensures sink.Stored(ForkedWorld()) && sink.chain == [GENESIS, CHILD] && OTHER !in sink.chain
  {
    hide Holds, CaughtUp, Grew;
    sink := ForkedSink();
    var source := new LiveSource(ForkedAnswers());
    var tracker := new LiveTracker(LiveConfig(1, None, None));
    r := tracker.RunWithCancellation(source, sink, [], ForkedWorld(), []);
  }
}
