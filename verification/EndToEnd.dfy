// From observed heads to the consumer: runs that mix batches computed from the checkpoint,
// startup reconciliations, fetched ranges, refusals, retries and crashes of the writer, and
// every move of the dispatchers.
module EndToEnd {
  import opened Wrappers
  import opened Headers
  import opened Chain
  import opened ChainTheory
  import opened Store
  import opened StoreTheory
  import opened ClosedLoop
  import opened Reconcile
  import opened Backfill
  import opened Committer
  import opened Dispatch

  datatype Whole = Whole(db: DbState, relay: System)

  // A head goes through the transition machine seeded from the checkpoint; a range follows
  // the checkpoint; either submits the batch given, its payloads attached. A reconciliation
  // submits its plan, if it can make one.
  datatype Event =
    | Head(head: Header, oracle: Oracle, cache: map<Hash, Header>, clock: nat, maxDepth: nat, finalized: Option<nat>,
        batch: DurableBatch)
    | FetchedRange(range: Fetched, batch: DurableBatch)
    | Reconciled(answers: (nat, nat) -> Answer, headHeight: nat, limit: nat, sourceClock: nat)
    | RetryLast
    | CrashBeforeCommit(drawn: nat)
    | Relay(move: Move)

  function DbActionOf(s: DbState, e: Event): DbAction
    requires !e.Relay?
  {
    match e
    case Head(_, _, _, _, _, _, b) => Submit(b)
    case FetchedRange(_, b) => Submit(b)
    case Reconciled(answers, headHeight, limit, clock) =>
      var plan := Plan(s.tables, answers, headHeight, limit, clock);
      if plan.Success? then Submit(plan.value) else CrashEarly(0)
    case RetryLast => Retry
    case CrashBeforeCommit(n) => CrashEarly(n)
  }

  // The dispatchers read the committed outbox; new rows are unpublished.
  function Sync(relay: System, outbox: seq<OutboxRow>): System {
    var added := if |relay.rows| <= |outbox| then |outbox| - |relay.rows| else 0;
    relay.(rows := outbox, published := relay.published + seq(added, i => false))
  }

  function StepWhole(s: Whole, e: Event): Whole {
    if e.Relay? then
      var n := Next(s.relay, e.move);
      if e.move.Append? || n.None? then s else s.(relay := n.value)
    else
      var db := Do(s.db, DbActionOf(s.db, e));
      Whole(db, Sync(s.relay, db.tables.outbox))
  }

  function RunWhole(s: Whole, events: seq<Event>): Whole
    decreases |events|
  {
    if events == [] then s else RunWhole(StepWhole(s, events[0]), events[1..])
  }

  // What is assumed of an event: genuine headers and payloads, and canonical lookups that
  // answer from the tables or go missing. Whether a batch commits is not assumed, nor that
  // the columns can hold it. Only a batch that names no hash twice is retried.
  ghost predicate Fair(w: World, s: Whole, e: Event) {
    var t, c := s.db.tables, s.db.chain;
    match e
    case Head(head, o, cache, clock, maxDepth, finalized, b) =>
      && c != [] && maxDepth >= 1 && Genuine(w, head) && Truthful(w, o) && MayMiss(o, t) && CacheTruth(w, cache)
      && Believable(w, b)
      && var plan := ApplyFn(TipView(Last(c), maxDepth, finalized), cache, o, head, clock);
         plan.Success? && Carries(b, plan.value)
    case FetchedRange(f, b) =>
      && Follows(w, c, f) && Packs(b, TopOf(c), f)
    case Reconciled(answers, _, _, _) => Honest(w, answers)
    case RetryLast => OncePerHash(s.db.last.events)
    case _ => true
  }

  ghost predicate FairRun(w: World, s: Whole, events: seq<Event>)
    decreases |events|
  {
    events != [] ==> Fair(w, s, events[0]) && FairRun(w, StepWhole(s, events[0]), events[1..])
  }

  // ------------------------------------------------------------------ the writer's side

  lemma HeadAllowed(w: World, s: DbState, e: Event)
    requires Good(w, s) && e.Head? && Fair(w, Whole(s, START), e)
    ensures Allowed(w, s, [Submit(e.batch)])
    ensures ReadsStore(e.oracle, s.tables) ==> OncePerHash(e.batch.events)
  {
    var c := s.chain;
    var plan := ApplyFn(TipView(Last(c), e.maxDepth, e.finalized), e.cache, e.oracle, e.head, e.clock).value;
    var d := HeadReplays(w, s.tables, c, e.oracle, e.cache, e.head, e.clock, e.maxDepth, e.finalized);
    var es := e.batch.events;
    assert es != [] ==> Last(plan.events) == HeaderEvent(Last(es));
    forall i, j | 0 <= i < j < |es| && ReadsStore(e.oracle, s.tables)
      ensures HeaderEvent(es[i]).header.hash != HeaderEvent(es[j]).header.hash {
      assert plan.events[i].header.hash != plan.events[j].header.hash;
    }
    assert [Submit(e.batch)][1..] == [];
  }

  lemma RangeAllowed(w: World, s: DbState, e: Event)
    requires Good(w, s) && e.FetchedRange? && Fair(w, Whole(s, START), e)
    ensures Allowed(w, s, [Submit(e.batch)]) && OncePerHash(e.batch.events)
  {
    var f, es := e.range, e.batch.events;
    PackedEvents(w, e.batch, TopOf(s.chain), f);
    PlayApplies(s.chain, f.headers);
    assert HeaderEvents(es)[|es| - 1] == Apply(Last(f.headers));
    forall i, j | 0 <= i < j < |es| ensures HeaderEvent(es[i]).header.hash != HeaderEvent(es[j]).header.hash {
      assert HeaderEvents(es)[i] == Apply(f.headers[i]) && HeaderEvents(es)[j] == Apply(f.headers[j]);
      DistinctHashes(w, f.headers, i, j);
    }
    assert [Submit(e.batch)][1..] == [];
  }

  lemma PlanAllowed(w: World, s: DbState, e: Event)
    requires Good(w, s) && e.Reconciled? && Fair(w, Whole(s, START), e)
    ensures Allowed(w, s, [DbActionOf(s, e)])
  {
    hide Plan, Inv, Checkpointed, Fits;
    if Plan(s.tables, e.answers, e.headHeight, e.limit, e.sourceClock).Success? {
      PlanFits(w, s.tables, s.chain, e.answers, e.headHeight, e.limit, e.sourceClock);
    }
    assert [DbActionOf(s, e)][1..] == [];
  }

  lemma ActionGrows(s: DbState, a: DbAction)
    ensures s.tables.outbox <= Do(s, a).tables.outbox
  {
    match a {
      case CrashEarly(_) =>
      case Retry =>
        if RunBatch(s.tables, s.next, s.last).Success? && s.last.events != [] {
          OutboxGrows(s.tables, s.next, s.last.events);
        }
      case Submit(b) =>
        if RunBatch(s.tables, s.next, b).Success? && b.events != [] {
          OutboxGrows(s.tables, s.next, b.events);
        }
    }
  }

  // ------------------------------------------------------------------ the whole

  ghost predicate AllSound(w: World, s: Whole) {
    Good(w, s.db) && Sound(s.relay) && s.relay.rows == s.db.tables.outbox
  }

  lemma SyncKeepsSound(relay: System, outbox: seq<OutboxRow>)
    requires Sound(relay) && relay.rows <= outbox && Ascending(outbox)
    ensures Sound(Sync(relay, outbox)) && Sync(relay, outbox).rows == outbox
  {
    var s := Sync(relay, outbox);
    NextRowIs(s.published, NextRow(relay.published));
    assert s.rows[..|Consume(s.log)|] == relay.rows[..|Consume(s.log)|];
  }

  lemma StepKeepsAllSound(w: World, s: Whole, e: Event)
    requires AllSound(w, s) && Fair(w, s, e)
    ensures AllSound(w, StepWhole(s, e))
  {
    hide Fair, Sound;
    if e.Relay? {
      RelayKeepsAllSound(w, s, e.move);
    } else {
      DbKeepsAllSound(w, s, e);
    }
  }

  lemma RelayKeepsAllSound(w: World, s: Whole, m: Move)
    requires AllSound(w, s)
    ensures AllSound(w, StepWhole(s, Relay(m)))
  {
    if Next(s.relay, m).Some? && !m.Append? {
      MoveKeepsSound(s.relay, m);
    }
  }

  lemma DbKeepsAllSound(w: World, s: Whole, e: Event)
    requires AllSound(w, s) && Fair(w, s, e) && !e.Relay?
    ensures AllSound(w, StepWhole(s, e))
  {
    var a := DbActionOf(s.db, e);
    AllowedAction(w, s, e);
    StepKeepsGood(w, s.db, a);
    ActionGrows(s.db, a);
    SyncKeepsSound(s.relay, Do(s.db, a).tables.outbox);
  }

  lemma AllowedAction(w: World, s: Whole, e: Event)
    requires Good(w, s.db) && Fair(w, s, e) && !e.Relay?
    ensures Allowed(w, s.db, [DbActionOf(s.db, e)])
  {
    if e.Head? {
      HeadAllowed(w, s.db, e);
    } else if e.FetchedRange? {
      RangeAllowed(w, s.db, e);
    } else if e.Reconciled? {
      PlanAllowed(w, s.db, e);
    } else {
      assert [DbActionOf(s.db, e)][1..] == [];
    }
  }

  lemma {:induction false} RunKeepsAllSound(w: World, s: Whole, events: seq<Event>)
    requires AllSound(w, s) && FairRun(w, s, events)
    ensures AllSound(w, RunWhole(s, events))
    decreases |events|
  {
    if events != [] {
      StepKeepsAllSound(w, s, events[0]);
      RunKeepsAllSound(w, StepWhole(s, events[0]), events[1..]);
    }
  }

  const BEGIN := Whole(DbState(EMPTY_TABLES, 1, [], NO_BATCH), START)

  // Over every run from an empty store: at any moment the consumer's deduplicated view
  // folds to one contiguous linked chain, and when nothing is unpublished that chain is
  // exactly the stored canonical rows, with the checkpoint on top.
  lemma ConsumerSeesTheChain(w: World, events: seq<Event>)
    requires FairRun(w, BEGIN, events)
    ensures var s := RunWhole(BEGIN, events);
            var view := Play([], Journal(Consume(s.relay.log)));
            && view.Some? && Linked(view.value)
            && (NextRow(s.relay.published) == |s.db.tables.outbox| ==>
                  && CanonicalRows(s.db.tables) == (set h | h in view.value)
                  && Checkpointed(s.db.tables, view.value))
  {
    assert AllSound(w, BEGIN) by {
      assert Journal([]) == [];
    }
    RunKeepsAllSound(w, BEGIN, events);
    ViewOfAllSound(w, RunWhole(BEGIN, events));
  }

  lemma ViewOfAllSound(w: World, s: Whole)
    requires AllSound(w, s)
    ensures var view := Play([], Journal(Consume(s.relay.log)));
            && view.Some? && Linked(view.value)
            && (NextRow(s.relay.published) == |s.db.tables.outbox| ==>
                  && CanonicalRows(s.db.tables) == (set h | h in view.value)
                  && Checkpointed(s.db.tables, view.value))
  {
    var outbox, m := s.db.tables.outbox, |Consume(s.relay.log)|;
    assert Journal(outbox[..m]) == Journal(outbox)[..m];
    PlayPrefix([], Journal(outbox), m);
    PlayLinks([], Journal(outbox[..m]));
    CanonicalIsChain(w, s.db.tables, s.db.chain);
    if m == |outbox| { assert outbox[..m] == outbox; }
  }
}
