// Startup reconciliation: a second, independent algorithm that finds the common ancestor
// by height instead of by hash, and its agreement with the transition machine.
module Reconcile {
  import opened Wrappers
  import opened Headers
  import opened Chain
  import opened ChainTheory
  import opened Fork
  import opened Store
  import opened StoreTheory
  import opened ClosedLoop
  import opened Replay

  datatype ReconcileError =
    | MissingSourceHeight(height: nat)
    | MissingPersistedCheckpointBlock(height: nat)
    | MaxWalkBackExceeded(limit: nat)
    | BrokenSourceLink(childHeight: nat)
    | State(error: StoreError)
    | SourceFailed

  datatype Answer = Got(block: Block) | Absent | Unreachable

  // A source queried by height; answers may differ from call to call.
  class Source {
    const answers: (nat, nat) -> Answer
    const headAnswer: Answer
    var asked: nat

    constructor (answers: (nat, nat) -> Answer, headAnswer: Answer)
      ensures this.answers == answers && this.headAnswer == headAnswer && asked == 0
    {
      this.answers := answers;
      this.headAnswer := headAnswer;
      asked := 0;
    }

    method BlockByHeight(height: nat) returns (r: Answer)
      modifies this
      ensures r == answers(old(asked), height) && asked == old(asked) + 1
    {
      r := answers(asked, height);
      asked := asked + 1;
    }
  }

  // ------------------------------------------------------------------ the walk on values

  datatype Walked<+T> = Walked(result: Result<T, ReconcileError>, clock: nat)

  function HeightWalk(t: Tables, answers: (nat, nat) -> Answer, height: nat, walked: nat, limit: nat, clock: nat)
    : Walked<Header>
    decreases height
  {
    var persisted := CanonicalAtHeight(t, height);
    if persisted.None? then Walked(Failure(MissingPersistedCheckpointBlock(height)), clock)
    else
      match answers(clock, height)
      case Unreachable => Walked(Failure(SourceFailed), clock + 1)
      case Absent => Walked(Failure(MissingSourceHeight(height)), clock + 1)
      case Got(b) =>
        if persisted.value == b.header then Walked(Success(persisted.value), clock + 1)
        else if walked + 1 > limit || height == 0 then Walked(Failure(MaxWalkBackExceeded(limit)), clock + 1)
        else HeightWalk(t, answers, height - 1, walked + 1, limit, clock + 1)
  }

  function CanonicalDescending(t: Tables, from: nat, to: nat): seq<Header>
    decreases from
  {
    if from <= to then []
    else (if from in t.index then [t.index[from]] else []) + CanonicalDescending(t, from - 1, to)
  }

  function Collect(answers: (nat, nat) -> Answer, height: nat, end: nat, previous: Option<Hash>, acc: seq<Block>,
                   clock: nat)
    : Walked<seq<Block>>
    decreases end + 1 - height
  {
    if height > end then Walked(Success(acc), clock)
    else
      match answers(clock, height)
      case Unreachable => Walked(Failure(SourceFailed), clock + 1)
      case Absent => Walked(Failure(MissingSourceHeight(height)), clock + 1)
      case Got(b) =>
        if previous.Some? && b.header.parentHash != previous.value
        then Walked(Failure(BrokenSourceLink(height)), clock + 1)
        else Collect(answers, height + 1, end, Some(b.header.hash), acc + [b], clock + 1)
  }

  function ApplyBlocks(blocks: seq<Block>): (r: seq<DurableEvent>)
    ensures |r| == |blocks| && forall i | 0 <= i < |blocks| :: r[i] == ApplyBlock(blocks[i])
  {
    seq(|blocks|, i requires 0 <= i < |blocks| => ApplyBlock(blocks[i]))
  }

  function RollbackBlocks(hs: seq<Header>): (r: seq<DurableEvent>)
    ensures |r| == |hs| && forall i | 0 <= i < |hs| :: r[i] == RollbackBlock(hs[i])
  {
    seq(|hs|, i requires 0 <= i < |hs| => RollbackBlock(hs[i]))
  }

  function HeadersOf(blocks: seq<Block>): (r: seq<Header>)
    ensures |r| == |blocks| && forall i | 0 <= i < |blocks| :: r[i] == blocks[i].header
  {
    seq(|blocks|, i requires 0 <= i < |blocks| => blocks[i].header)
  }

  function FindCommon(t: Tables, answers: (nat, nat) -> Answer, headHeight: nat, limit: nat, clock: nat)
    : Walked<Option<Header>> {
    if t.checkpoint.None? then Walked(Success(None), clock)
    else
      var start := if t.checkpoint.value.height < headHeight then t.checkpoint.value.height else headHeight;
      var w := HeightWalk(t, answers, start, 0, limit, clock);
      if w.result.Success? then Walked(Success(Some(w.result.value)), w.clock)
      else Walked(Failure(w.result.error), w.clock)
  }

  // The whole plan: the batch that would bring the tables to the source's head.
  function Plan(t: Tables, answers: (nat, nat) -> Answer, headHeight: nat, limit: nat, clock: nat)
    : Result<DurableBatch, ReconcileError> {
    var found := FindCommon(t, answers, headHeight, limit, clock);
    if found.result.Failure? then Failure(found.result.error)
    else
      var common := found.result.value;
      var rollbacks :=
        if t.checkpoint.None? then []
        else CanonicalDescending(t, t.checkpoint.value.height, if common.Some? then common.value.height else 0);
      var blocks := Collect(answers, if common.Some? then common.value.height + 1 else 0, headHeight,
                            if common.Some? then Some(common.value.hash) else None, [], found.clock);
      if blocks.result.Failure? then Failure(blocks.result.error)
      else
        var transition := if rollbacks != [] then Reorg else if common.Some? then Gap else Bootstrap;
        Success(DurableBatch(transition, common, RollbackBlocks(rollbacks) + ApplyBlocks(blocks.result.value)))
  }

  // ------------------------------------------------------------------ the walk in place

  datatype Summary = Summary(rolledBack: nat, applied: nat, finalCheckpoint: Option<Checkpoint>)

  // The counts are those of the rows added to the journal.
  predicate Summarizes(s: Summary, before: Tables, after: Tables) {
    && before.outbox <= after.outbox
    && s.rolledBack == RolledBackRows(after.outbox[|before.outbox|..])
    && s.applied == AppliedRows(after.outbox[|before.outbox|..])
    && s.finalCheckpoint == after.checkpoint
  }

  lemma NothingPlanned(t: Tables, id: nat)
    ensures forall b: DurableBatch | b.events == [] :: RunBatch(t, id, b) == Success(Ran(t, id))
    ensures Summarizes(Summary(0, 0, t.checkpoint), t, t)
  {
    NothingTallied(t.outbox);
  }

  lemma Reported(report: ApplyReport, before: Tables, after: Tables)
    requires Tallies(report, before.outbox, after.outbox)
    ensures Summarizes(Summary(report.rolledBack, report.applied, after.checkpoint), before, after)
  {
  }

  class Reconciler {
    const writer: Writer

    constructor (writer: Writer)
      ensures this.writer == writer
    {
      this.writer := writer;
    }

    method FindCommonAncestor(source: Source, start: nat, limit: nat) returns (r: Result<Header, ReconcileError>)
      modifies source
      ensures HeightWalk(writer.db.tables, source.answers, start, 0, limit, old(source.asked))
                == Walked(r, source.asked)
    {
      var height, walked := start, 0;
      while true
        invariant HeightWalk(writer.db.tables, source.answers, start, 0, limit, old(source.asked))
               == HeightWalk(writer.db.tables, source.answers, height, walked, limit, source.asked)
        decreases height
      {
        var persisted := CanonicalAtHeight(writer.db.tables, height);
        if persisted.None? {
          return Failure(MissingPersistedCheckpointBlock(height));
        }
        var answer := source.BlockByHeight(height);
        match answer {
          case Unreachable => return Failure(SourceFailed);
          case Absent => return Failure(MissingSourceHeight(height));
          case Got(b) =>
            if persisted.value == b.header {
              return Success(persisted.value);
            }
        }
        walked := walked + 1;
        if walked > limit || height == 0 {
          return Failure(MaxWalkBackExceeded(limit));
        }
        height := height - 1;
      }
    }

    method CollectBlocks(source: Source, from: nat, end: nat, parent: Option<Hash>)
      returns (r: Result<seq<Block>, ReconcileError>)
      modifies source
      ensures Collect(source.answers, from, end, parent, [], old(source.asked)) == Walked(r, source.asked)
    {
      var previous, blocks, height := parent, [], from;
      while height <= end
        invariant Collect(source.answers, from, end, parent, [], old(source.asked))
               == Collect(source.answers, height, end, previous, blocks, source.asked)
        decreases end + 1 - height
      {
        var answer := source.BlockByHeight(height);
        match answer {
          case Unreachable => return Failure(SourceFailed);
          case Absent => return Failure(MissingSourceHeight(height));
          case Got(b) =>
            if previous.Some? && b.header.parentHash != previous.value {
              return Failure(BrokenSourceLink(height));
            }
            previous := Some(b.header.hash);
            blocks := blocks + [b];
        }
        height := height + 1;
      }
      r := Success(blocks);
    }

    // Runs exactly the planned batch, or leaves the tables alone when the head cannot be
    // read, or planning or committing fails.
    method ReconcileToHead(source: Source, limit: nat) returns (r: Result<Summary, ReconcileError>)
        modifies source, writer.db
      ensures !source.headAnswer.Got? ==> r == Failure(SourceFailed) && writer.db.tables == old(writer.db.tables)
      ensures source.headAnswer.Got? ==>
              var plan := Plan(old(writer.db.tables), source.answers, source.headAnswer.block.header.height, limit,
                  old(source.asked));
              && (plan.Failure? ==> r == Failure(plan.error) && writer.db.tables == old(writer.db.tables))
              && (plan.Success? ==>
                    var ran := RunBatch(old(writer.db.tables), old(writer.db.nextEventId), plan.value);
                    && (ran.Success? ==>
                          && r.Success? && writer.db.tables == ran.value.tables
                          && Summarizes(r.value, old(writer.db.tables), writer.db.tables))
                    && (ran.Failure? ==> r == Failure(State(ran.error)) && writer.db.tables == old(writer.db.tables)))
    {
      hide RunBatch, Tallies, Summarizes, HeightWalk, Collect, CanonicalDescending;
      if !source.headAnswer.Got? {
        return Failure(SourceFailed);
      }
      var tables := writer.db.tables;
      var headHeight := source.headAnswer.block.header.height;
      var common: Option<Header> := None;
      if tables.checkpoint.Some? {
        var start := if tables.checkpoint.value.height < headHeight then tables.checkpoint.value.height else headHeight;
        var found := FindCommonAncestor(source, start, limit);
        if found.Failure? {
          return Failure(found.error);
        }
        common := Some(found.value);
      }
      var commonHeight := if common.Some? then common.value.height else 0;
      var rollbacks := [];
      if tables.checkpoint.Some? {
        rollbacks := CanonicalDescending(tables, tables.checkpoint.value.height, commonHeight);
      }
      var blocks := CollectBlocks(source, if common.Some? then common.value.height + 1 else 0, headHeight,
                                  if common.Some? then Some(common.value.hash) else None);
      if blocks.Failure? {
        return Failure(blocks.error);
      }
      var events := RollbackBlocks(rollbacks) + ApplyBlocks(blocks.value);
      if events == [] {
        NothingPlanned(tables, writer.db.nextEventId);
        return Success(Summary(0, 0, tables.checkpoint));
      }
      var transition := if rollbacks != [] then Reorg else if common.Some? then Gap else Bootstrap;
      var done := writer.ApplyBatch(DurableBatch(transition, common, events), None);
      match done {
        case Refused(e) => r := Failure(State(e));
        case Done(report) =>
          Reported(report, tables, writer.db.tables);
          r := Success(Summary(report.rolledBack, report.applied, writer.db.tables.checkpoint));
      }
    }
  }

  // ------------------------------------------------------------------ what the plan means

  // Answers are genuine headers; they may still be absent, fail, change, or be of another
  // height than the one asked for.
  ghost predicate Honest(w: World, answers: (nat, nat) -> Answer) {
    HeightsFollow(w) && forall t: nat, k: nat :: answers(t, k).Got? ==> Genuine(w, answers(t, k).block.header)
  }

  lemma ReverseSnoc(s: seq<Header>, x: Header)
    ensures Reverse(s + [x]) == [x] + Reverse(s)
  {
  }

  lemma DescendingStep(t: Tables, c: seq<Header>, from: nat, to: nat)
    requires Linked(c) && t.index == MapOf(c) && 0 < from < |c| && to < c[from].height
    ensures CanonicalDescending(t, c[from].height, to) == [c[from]] + CanonicalDescending(t, c[from - 1].height, to)
  {
    HeightAt(c, from);
    HeightAt(c, from - 1);
    MapOfLookup(c);
  }

  lemma {:induction false} DescendingIsSuffix(t: Tables, c: seq<Header>, from: nat, i: nat)
    requires Linked(c) && t.index == MapOf(c) && i <= from < |c|
    ensures CanonicalDescending(t, c[from].height, c[i].height) == Reverse(c[i + 1..from + 1])
    decreases from
  {
    HeightAt(c, from);
    HeightAt(c, i);
    if from == i {
      assert c[i + 1..from + 1] == [];
    } else {
      DescendingStep(t, c, from, c[i].height);
      DescendingIsSuffix(t, c, from - 1, i);
      assert c[i + 1..from + 1] == c[i + 1..from] + [c[from]];
      ReverseSnoc(c[i + 1..from], c[from]);
    }
  }

  lemma {:induction false} WalkLandsOnChain(w: World, t: Tables, c: seq<Header>, answers: (nat, nat) -> Answer,
                                            height: nat, walked: nat, limit: nat, clock: nat)
    requires Linked(c) && t.index == MapOf(c) && HeightWalk(t, answers, height, walked, limit, clock).result.Success?
    ensures var a := HeightWalk(t, answers, height, walked, limit, clock).result.value; a in c && a.height <= height
    decreases height
  {
    MapOfLookup(c);
    if c != [] && height in t.index {
      HeightAt(c, height - c[0].height);
    }
    var persisted := CanonicalAtHeight(t, height);
    if answers(clock, height).Got? && persisted.value != answers(clock, height).block.header {
      WalkLandsOnChain(w, t, c, answers, height - 1, walked + 1, limit, clock + 1);
    }
  }

  function Previous(before: Option<Header>, acc: seq<Block>): Option<Hash> {
    if acc != [] then Some(Last(acc).header.hash) else if before.Some? then Some(before.value.hash) else None
  }

  // The collected blocks link to whatever precedes them.
  lemma {:induction false} CollectLinks(w: World, answers: (nat, nat) -> Answer, height: nat, end: nat,
                                        before: Option<Header>, acc: seq<Block>, clock: nat)
    requires Honest(w, answers) && Linked(HeadersOf(acc)) && AllGenuine(w, HeadersOf(acc))
    requires before.Some? ==> Genuine(w, before.value) && (acc != [] ==> Links(before.value, acc[0].header))
    requires Collect(answers, height, end, Previous(before, acc), acc, clock).result.Success?
    ensures var hs := HeadersOf(Collect(answers, height, end, Previous(before, acc), acc, clock).result.value);
            && Linked(hs) && AllGenuine(w, hs) && (before.Some? && hs != [] ==> Links(before.value, hs[0]))
    decreases end + 1 - height
  {
    if height <= end {
      var b := answers(clock, height).block;
      var acc' := acc + [b];
      assert HeadersOf(acc') == HeadersOf(acc) + [b.header];
      if acc != [] {
        assert HeadersOf(acc)[|acc| - 1] == Last(acc).header;
        assert Genuine(w, Last(acc).header) && Links(Last(acc).header, b.header);
      } else if before.Some? {
        assert Links(before.value, b.header);
      }
      LinkedConcat(HeadersOf(acc), [b.header]);
      assert forall x | x in HeadersOf(acc') :: x in HeadersOf(acc) || x == b.header;
      CollectLinks(w, answers, height + 1, end, before, acc', clock + 1);
    }
  }

  lemma PlanEvents(rollbacks: seq<Header>, blocks: seq<Block>)
    ensures HeaderEvents(RollbackBlocks(rollbacks) + ApplyBlocks(blocks))
              == Rollbacks(rollbacks) + Applies(HeadersOf(blocks))
  {
  }

  lemma PlanFromParts(t: Tables, answers: (nat, nat) -> Answer, headHeight: nat, limit: nat, clock: nat,
                      a: Header, clock': nat) returns (b: DurableBatch, blocks: seq<Block>)
    requires t.checkpoint.Some?
    requires FindCommon(t, answers, headHeight, limit, clock) == Walked(Success(Some(a)), clock')
    requires Collect(answers, a.height + 1, headHeight, Some(a.hash), [], clock').result.Success?
    ensures Plan(t, answers, headHeight, limit, clock) == Success(b)
    ensures Collect(answers, a.height + 1, headHeight, Some(a.hash), [], clock').result == Success(blocks)
    ensures b.ancestor == Some(a)
    ensures var down := CanonicalDescending(t, t.checkpoint.value.height, a.height);
            && b.events == RollbackBlocks(down) + ApplyBlocks(blocks)
            && b.transition == if down != [] then Reorg else Gap
  {
    b := Plan(t, answers, headHeight, limit, clock).value;
    blocks := Collect(answers, a.height + 1, headHeight, Some(a.hash), [], clock').result.value;
  }

  lemma FitsFromParts(c: seq<Header>, i: nat, blocks: seq<Block>, b: DurableBatch)
    requires Linked(c) && i < |c| && b.ancestor == Some(c[i])
    requires b.events == RollbackBlocks(Reverse(c[i + 1..])) + ApplyBlocks(blocks)
    requires Linked(HeadersOf(blocks)) && (blocks != [] ==> Links(c[i], blocks[0].header))
    ensures Fits(c, b)
  {
    PlanEvents(Reverse(c[i + 1..]), blocks);
    PlayReplaceSuffix(c, i + 1, HeadersOf(blocks));
    assert blocks != [] ==> Last(b.events) == ApplyBlocks(blocks)[|blocks| - 1];
    assert blocks == [] ==> c[..i + 1] + HeadersOf(blocks) == c[..i + 1];
  }

  lemma FirstPlanFits(w: World, t: Tables, answers: (nat, nat) -> Answer, headHeight: nat, limit: nat, clock: nat)
    requires t.checkpoint.None? && Honest(w, answers) && Plan(t, answers, headHeight, limit, clock).Success?
    ensures var b := Plan(t, answers, headHeight, limit, clock).value; Fits([], b) && Believable(w, b)
  {
    var b := Plan(t, answers, headHeight, limit, clock).value;
    assert HeadersOf([]) == [];
    CollectLinks(w, answers, 0, headHeight, None, [], clock);
    var blocks := Collect(answers, 0, headHeight, None, [], clock).result.value;
    assert b.events == RollbackBlocks([]) + ApplyBlocks(blocks) == ApplyBlocks(blocks);
    PlanEvents([], blocks);
    assert Rollbacks([]) + Applies(HeadersOf(blocks)) == Applies(HeadersOf(blocks));
    PlayApplies([], HeadersOf(blocks));
    PlanBelievable(w, [], blocks, b);
  }

  lemma PlanBelievable(w: World, rollbacks: seq<Header>, blocks: seq<Block>, b: DurableBatch)
    requires b.events == RollbackBlocks(rollbacks) + ApplyBlocks(blocks)
    requires AllGenuine(w, rollbacks) && AllGenuine(w, HeadersOf(blocks))
    ensures Believable(w, b)
  {
    forall i | 0 <= i < |b.events| ensures Genuine(w, HeaderEvent(b.events[i]).header) {
      if i < |rollbacks| {
        assert rollbacks[i] in rollbacks;
      } else {
        assert HeadersOf(blocks)[i - |rollbacks|] in HeadersOf(blocks);
      }
    }
  }

  lemma CommonOnChain(w: World, t: Tables, c: seq<Header>, answers: (nat, nat) -> Answer, headHeight: nat, limit: nat,
                      clock: nat)
    returns (i: nat, clock': nat)
    requires Inv(w, t, c) && Checkpointed(t, c) && c != []
    requires FindCommon(t, answers, headHeight, limit, clock).result.Success?
    ensures i < |c| && FindCommon(t, answers, headHeight, limit, clock) == Walked(Success(Some(c[i])), clock')
    ensures CanonicalDescending(t, t.checkpoint.value.height, c[i].height) == Reverse(c[i + 1..])
  {
    var start := if t.checkpoint.value.height < headHeight then t.checkpoint.value.height else headHeight;
    var walk := HeightWalk(t, answers, start, 0, limit, clock);
    WalkLandsOnChain(w, t, c, answers, start, 0, limit, clock);
    i :| 0 <= i < |c| && c[i] == walk.result.value;
    clock' := walk.clock;
    DescendingIsSuffix(t, c, |c| - 1, i);
    assert c[i + 1..|c|] == c[i + 1..];
  }

  lemma CollectLinksFrom(w: World, answers: (nat, nat) -> Answer, a: Header, end: nat, clock: nat, blocks: seq<Block>)
    requires Honest(w, answers) && Genuine(w, a)
    requires Collect(answers, a.height + 1, end, Some(a.hash), [], clock).result == Success(blocks)
    ensures Linked(HeadersOf(blocks)) && AllGenuine(w, HeadersOf(blocks))
    ensures (blocks != [] ==> Links(a, blocks[0].header))
  {
    assert HeadersOf([]) == [];
    CollectLinks(w, answers, a.height + 1, end, Some(a), [], clock);
    assert blocks != [] ==> HeadersOf(blocks)[0] == blocks[0].header;
  }

  lemma PlanHasCommon(t: Tables, answers: (nat, nat) -> Answer, headHeight: nat, limit: nat, clock: nat)
    requires Plan(t, answers, headHeight, limit, clock).Success?
    ensures FindCommon(t, answers, headHeight, limit, clock).result.Success?
  {
  }

  lemma PlanCollects(t: Tables, answers: (nat, nat) -> Answer, headHeight: nat, limit: nat, clock: nat, a: Header,
                     clock': nat)
    requires Plan(t, answers, headHeight, limit, clock).Success?
    requires FindCommon(t, answers, headHeight, limit, clock) == Walked(Success(Some(a)), clock')
    ensures Collect(answers, a.height + 1, headHeight, Some(a.hash), [], clock').result.Success?
  {
  }

  // The parts of a plan on a nonempty store.
  lemma PlanParts(w: World, t: Tables, c: seq<Header>, answers: (nat, nat) -> Answer, headHeight: nat, limit: nat,
                  clock: nat)
    returns (i: nat, blocks: seq<Block>)
    requires Inv(w, t, c) && Checkpointed(t, c) && Honest(w, answers) && c != []
    requires Plan(t, answers, headHeight, limit, clock).Success?
    ensures var b := Plan(t, answers, headHeight, limit, clock).value;
            && i < |c| && b.ancestor == Some(c[i])
            && b.events == RollbackBlocks(Reverse(c[i + 1..])) + ApplyBlocks(blocks)
            && Linked(HeadersOf(blocks)) && AllGenuine(w, HeadersOf(blocks))
            && (blocks != [] ==> Links(c[i], blocks[0].header))
  {
    PlanHasCommon(t, answers, headHeight, limit, clock);
    assert AllGenuine(w, c) by { LinkedOfInv(w, t, c); }
    assert t.checkpoint.Some?;
    hide Inv, Linked, Collect, FindCommon, CanonicalDescending, Honest;
    var clock';
    i, clock' := CommonOnChain(w, t, c, answers, headHeight, limit, clock);
    PlanCollects(t, answers, headHeight, limit, clock, c[i], clock');
    hide Plan;
    var b;
    b, blocks := PlanFromParts(t, answers, headHeight, limit, clock, c[i], clock');
    assert c[i] in c;
    CollectLinksFrom(w, answers, c[i], headHeight, clock', blocks);
  }

  // Whatever an honest source answers between calls, a plan that is made replays on the
  // stored chain.
  lemma PlanFits(w: World, t: Tables, c: seq<Header>, answers: (nat, nat) -> Answer, headHeight: nat, limit: nat,
                 clock: nat)
    requires Inv(w, t, c) && Checkpointed(t, c) && Honest(w, answers)
    requires Plan(t, answers, headHeight, limit, clock).Success?
    ensures var b := Plan(t, answers, headHeight, limit, clock).value; Fits(c, b) && Believable(w, b)
  {
    if c == [] {
      FirstPlanFits(w, t, answers, headHeight, limit, clock);
    } else {
      var b := Plan(t, answers, headHeight, limit, clock).value;
      var i, blocks := PlanParts(w, t, c, answers, headHeight, limit, clock);
      FitsFromParts(c, i, blocks, b);
      assert forall h | h in Reverse(c[i + 1..]) :: h in c;
      PlanBelievable(w, Reverse(c[i + 1..]), blocks, b);
    }
  }

  // So a plan leaves the store one linked chain with its checkpoint on top: it commits if
  // the columns can hold it, and when it does the store holds what the plan replays to.
  lemma PlanCommits(w: World, t: Tables, c: seq<Header>, id: nat, answers: (nat, nat) -> Answer, headHeight: nat,
                    limit: nat, clock: nat)
    requires Inv(w, t, c) && Checkpointed(t, c) && IdsOk(t, id) && Honest(w, answers)
    requires Plan(t, answers, headHeight, limit, clock).Success?
    ensures var b := Plan(t, answers, headHeight, limit, clock).value;
            var r := RunBatch(t, id, b);
            && ((forall i | 0 <= i < |b.events| :: Storable(b.events[i])) ==> r.Success?)
            && (r.Success? ==>
                  var d := Play(c, HeaderEvents(b.events));
                  && d.Some? && Inv(w, r.value.tables, d.value) && Checkpointed(r.value.tables, d.value)
                  && IdsOk(r.value.tables, r.value.next)
                  && Journal(r.value.tables.outbox) == Journal(t.outbox) + HeaderEvents(b.events))
  {
    hide Plan, RunBatch, Inv, Checkpointed, IdsOk;
    var b := Plan(t, answers, headHeight, limit, clock).value;
    PlanFits(w, t, c, answers, headHeight, limit, clock);
    if forall i | 0 <= i < |b.events| :: Storable(b.events[i]) {
      BatchCommits(w, t, c, id, b);
    }
    if RunBatch(t, id, b).Success? {
      CommittedBatch(w, t, c, id, b);
    }
  }

  // A plan names a block twice exactly when the first block it collected is the stored one
  // above the ancestor, whatever an honest source answered. Then, and only then, running it
  // again after an unclear commit changes the store.
  lemma PlanOnceExactly(w: World, t: Tables, c: seq<Header>, answers: (nat, nat) -> Answer,
                        headHeight: nat, limit: nat, clock: nat) returns (i: nat, blocks: seq<Block>)
    requires Inv(w, t, c) && Checkpointed(t, c) && Honest(w, answers) && c != []
    requires Plan(t, answers, headHeight, limit, clock).Success?
    ensures var b := Plan(t, answers, headHeight, limit, clock).value;
            && i < |c| && b.ancestor == Some(c[i])
            && b.events == RollbackBlocks(Reverse(c[i + 1..])) + ApplyBlocks(blocks)
            && (OncePerHash(b.events) <==> i + 1 == |c| || blocks == [] || blocks[0].header != c[i + 1])
  {
    hide Plan;
    i, blocks := PlanParts(w, t, c, answers, headHeight, limit, clock);
    var b, up := Plan(t, answers, headHeight, limit, clock).value, HeadersOf(blocks);
    PlanEvents(Reverse(c[i + 1..]), blocks);
    BranchOn(c, i, up);
    ReplacementOnce(w, c, i, up);
    DistinctIsOnce(b.events);
    assert blocks != [] ==> up[0] == blocks[0].header;
  }

  lemma BranchOn(c: seq<Header>, i: nat, up: seq<Header>)
    requires i < |c| && Linked(up) && (up != [] ==> Links(c[i], up[0]))
    ensures Linked([c[i]] + up)
  {
    LinkedConcat([c[i]], up);
  }

  lemma AppliesAreOnce(w: World, blocks: seq<Block>)
    requires Linked(HeadersOf(blocks)) && AllGenuine(w, HeadersOf(blocks))
    ensures OncePerHash(ApplyBlocks(blocks))
  {
    hide Linked, AllGenuine;
    forall i, j | 0 <= i < j < |blocks| ensures blocks[i].header.hash != blocks[j].header.hash {
      DistinctHashes(w, HeadersOf(blocks), i, j);
    }
  }

  // The first plan on an empty store applies only, so it always names every block once.
  lemma FirstPlanIsOnce(w: World, t: Tables, answers: (nat, nat) -> Answer, headHeight: nat, limit: nat, clock: nat)
    requires t.checkpoint.None? && Honest(w, answers) && Plan(t, answers, headHeight, limit, clock).Success?
    ensures OncePerHash(Plan(t, answers, headHeight, limit, clock).value.events)
  {
    hide Linked, AllGenuine, OncePerHash, Collect, Honest;
    NoHeaders();
    CollectLinks(w, answers, 0, headHeight, None, [], clock);
    var blocks := Collect(answers, 0, headHeight, None, [], clock).result.value;
    assert RollbackBlocks([]) + ApplyBlocks(blocks) == ApplyBlocks(blocks);
    AppliesAreOnce(w, blocks);
  }

  lemma NoHeaders()
    ensures HeadersOf([]) == [] && Linked(HeadersOf([])) && forall w :: AllGenuine(w, HeadersOf([]))
  {
  }

  // The parent of the top is answered first, the top only once asked again.
  function WaveringAnswers(g: Header, a: Header, b: Header, other: Header): (nat, nat) -> Answer {
    (n: nat, k: nat) =>
      if k == 0 then Got(Block(g, []))
      else if k == 1 then Got(Block(if n == 0 then other else a, []))
      else Got(Block(b, []))
  }

  lemma WaveringPlan(t: Tables, g: Header, a: Header, b: Header, other: Header)
    requires t.index == MapOf([g, a]) && t.checkpoint == Some(Checkpoint(1, a.hash))
    requires g.height == 0 && Links(g, a) && Links(a, b) && other != a
    ensures Plan(t, WaveringAnswers(g, a, b, other), 2, 1, 0)
         == Success(DurableBatch(Reorg, Some(g),
             [RollbackBlock(a), ApplyBlock(Block(a, [])), ApplyBlock(Block(b, []))]))
  {
    var answers := WaveringAnswers(g, a, b, other);
    MapOfLookup([g, a]);
    assert HeightWalk(t, answers, 0, 1, 1, 1) == Walked(Success(g), 2);
    assert HeightWalk(t, answers, 1, 0, 1, 0) == Walked(Success(g), 2);
    assert FindCommon(t, answers, 2, 1, 0) == Walked(Success(Some(g)), 2);
    assert CanonicalDescending(t, 1, 0) == [a];
    CollectTwo(answers, g, a, b);
    assert RollbackBlocks([a]) + ApplyBlocks([Block(a, []), Block(b, [])])
        == [RollbackBlock(a), ApplyBlock(Block(a, [])), ApplyBlock(Block(b, []))];
  }

  // Against a source that changes between calls a plan may name a block twice: the store
  // holds genesis and a, height one is first answered with another block and then with a.
  // Such a plan commits, but running it again leaves an outbox that is no history.
  lemma PlanCanRepeat(w: World, t: Tables, id: nat, g: Header, a: Header, b: Header, other: Header)
    requires Inv(w, t, [g, a]) && Checkpointed(t, [g, a]) && IdsOk(t, id) && HeightsFollow(w)
    requires g.height == 0 && Links(a, b) && Genuine(w, b) && Genuine(w, other) && other != a
    ensures Honest(w, WaveringAnswers(g, a, b, other))
    ensures var plan := Plan(t, WaveringAnswers(g, a, b, other), 2, 1, 0);
            && plan.Success? && !OncePerHash(plan.value.events)
            && var r := RunBatch(t, id, plan.value);
               && r.Success? && Inv(w, r.value.tables, [g, a, b])
               && var again := RunBatch(r.value.tables, r.value.next, plan.value);
                  again.Success? && Play([], Journal(again.value.tables.outbox)).None?
  {
    hide RunBatch, Play, Plan;
    var c := [g, a];
    assert c[0] == g && c[1] == a && Links(c[0], c[1]) && g in c && a in c;
    WaveringPlan(t, g, a, b, other);
    RetryCanBreak(w, t, c, id, a, b, Plan(t, WaveringAnswers(g, a, b, other), 2, 1, 0).value);
    assert c + [b] == [g, a, b];
  }

  lemma CollectTwo(answers: (nat, nat) -> Answer, g: Header, a: Header, b: Header)
    requires Links(g, a) && Links(a, b)
    requires answers(2, 1) == Got(Block(a, [])) && answers(3, 2) == Got(Block(b, []))
    ensures Collect(answers, 1, 2, Some(g.hash), [], 2).result == Success([Block(a, []), Block(b, [])])
  {
    var one: seq<Block> := [] + [Block(a, [])];
    var two: seq<Block> := one + [Block(b, [])];
    assert two == [Block(a, []), Block(b, [])];
    assert Collect(answers, 3, 2, Some(b.hash), two, 4) == Walked(Success(two), 4);
    assert Collect(answers, 2, 2, Some(a.hash), one, 3) == Walked(Success(two), 4);
    assert Collect(answers, 1, 2, Some(g.hash), [], 2) == Walked(Success(two), 4);
  }

  // ------------------------------------------------------------------ agreement with the hash walk

  // A source that stays put on one path from genesis.
  ghost predicate Steady(answers: (nat, nat) -> Answer, path: seq<Header>) {
    forall t: nat, k: nat :: k < |path| ==> answers(t, k).Got? && answers(t, k).block.header == path[k]
  }

  lemma StoredAtHeight(t: Tables, c: seq<Header>, path: seq<Header>, k: nat)
    requires Linked(c) && c != [] && Linked(path) && k < |path| && path[0].height == 0 && t.index == MapOf(c)
    ensures path[k] in c <==> CanonicalAtHeight(t, k) == Some(path[k])
    ensures c[0].height <= k <= Last(c).height <==> CanonicalAtHeight(t, k).Some?
  {
    MapOfLookup(c);
    HeightAt(path, k);
    HeightAt(c, |c| - 1);
    if path[k] in c {
      MemberPosition(c, path, k);
    }
    hide Linked, MapOf;
  }

  lemma {:induction false} HeightWalkFindsFork(w: World, t: Tables, c: seq<Header>, answers: (nat, nat) -> Answer,
                                               path: seq<Header>,
                                               k: int, height: nat, walked: nat, limit: nat, clock: nat)
    requires Linked(c) && c != [] && t.index == MapOf(c) && IsPath(w, path) && Steady(answers, path)
    requires IsFork(c, path, k) && k <= height < |path| && height <= Last(c).height
    ensures var r := HeightWalk(t, answers, height, walked, limit, clock).result;
            if walked + (height - k) <= limit || height == k then r == Success(path[k])
            else r == Failure(MaxWalkBackExceeded(limit))
    decreases height
  {
    StoredAtHeight(t, c, path, height);
    StoredAtHeight(t, c, path, k);
    assert answers(clock, height).Got? && answers(clock, height).block.header == path[height];
    if k < height && walked + 1 <= limit {
      HeightWalkFindsFork(w, t, c, answers, path, k, height - 1, walked + 1, limit, clock + 1);
    }
  }

  // Why a walk down from a height ends when the source shares nothing with a chain that
  // starts at `bottom`.
  function NothingCommon(bottom: nat, height: nat, walked: nat, limit: nat): ReconcileError {
    if height < bottom then MissingPersistedCheckpointBlock(height)
    else if bottom == 0 || walked + (height - bottom) + 1 > limit then MaxWalkBackExceeded(limit)
    else MissingPersistedCheckpointBlock(bottom - 1)
  }

  lemma {:induction false} HeightWalkWithoutFork(w: World, t: Tables, c: seq<Header>, answers: (nat, nat) -> Answer,
                                                 path: seq<Header>,
                                                 height: nat, walked: nat, limit: nat, clock: nat)
    requires Linked(c) && c != [] && t.index == MapOf(c) && IsPath(w, path) && Steady(answers, path)
    requires height < |path| && height <= Last(c).height && forall i | 0 <= i < |path| :: path[i] !in c
    ensures HeightWalk(t, answers, height, walked, limit, clock).result
         == Failure(NothingCommon(c[0].height, height, walked, limit))
    decreases height
  {
    StoredAtHeight(t, c, path, height);
    assert answers(clock, height).Got? && answers(clock, height).block.header == path[height];
    if height > 0 && walked + 1 <= limit {
      HeightWalkWithoutFork(w, t, c, answers, path, height - 1, walked + 1, limit, clock + 1);
    }
  }

  lemma {:induction false} CollectPath(w: World, answers: (nat, nat) -> Answer, path: seq<Header>, height: nat,
                                       acc: seq<Block>, clock: nat)
    requires IsPath(w, path) && Steady(answers, path) && height <= |path|
    ensures var previous := if height == 0 then None else Some(path[height - 1].hash);
            var r := Collect(answers, height, |path| - 1, previous, acc, clock).result;
            r.Success? && HeadersOf(r.value) == HeadersOf(acc) + path[height..]
    decreases |path| - height
  {
    if height < |path| {
      assert answers(clock, height).Got? && answers(clock, height).block.header == path[height];
      assert height > 0 ==> Links(path[height - 1], path[height]);
      var b := answers(clock, height).block;
      CollectPath(w, answers, path, height + 1, acc + [b], clock + 1);
      assert HeadersOf(acc + [b]) == HeadersOf(acc) + [path[height]];
      assert path[height..] == [path[height]] + path[height + 1..];
    }
  }

  // Against a steady source the plan exists exactly when the paths share a header within
  // the walk-back limit, and then it is the same minimal diff the hash walk computes. Past
  // the limit, and when nothing is shared, the error says so.
  lemma PlanIsDiff(w: World, t: Tables, c: seq<Header>, answers: (nat, nat) -> Answer, path: seq<Header>, limit: nat,
                   clock: nat)
    requires Inv(w, t, c) && Checkpointed(t, c) && c != [] && IsPath(w, path) && Steady(answers, path)
    ensures var r := Plan(t, answers, |path| - 1, limit, clock);
            && (r.Success? <==> exists k :: IsFork(c, path, k) && Start(c, path) - k <= limit)
            && (r.Success? ==> forall k | IsFork(c, path, k) ::
                  && IsDiff(c, path, k, r.value.ancestor, HeaderEvents(r.value.events))
                  && r.value.transition == if Below(c, k) < |c| then Reorg else Gap)
            && (r.Failure? ==>
                  r.error == if exists k :: IsFork(c, path, k) then MaxWalkBackExceeded(limit)
                             else NothingCommon(c[0].height, Start(c, path), 0, limit))
  {
    if k :| IsFork(c, path, k) {
      forall j | IsFork(c, path, j) ensures j == k { ForkIsUnique(c, path, j, k); }
      PlanAtFork(w, t, c, answers, path, k, limit, clock);
    } else {
      if i :| 0 <= i < |path| && path[i] in c { SharedHasFork(c, path, |path|); }
      HeightWalkWithoutFork(w, t, c, answers, path, Start(c, path), 0, limit, clock);
    }
  }

  // On an empty store the plan is the whole path.
  lemma FirstPlanIsPath(w: World, t: Tables, answers: (nat, nat) -> Answer, path: seq<Header>, limit: nat, clock: nat)
    requires t.checkpoint.None? && IsPath(w, path) && Steady(answers, path)
    ensures var r := Plan(t, answers, |path| - 1, limit, clock);
            && r.Success? && r.value.ancestor.None? && r.value.transition == Bootstrap
            && HeaderEvents(r.value.events) == Applies(path)
  {
    CollectPath(w, answers, path, 0, [], clock);
    var blocks := Collect(answers, 0, |path| - 1, None, [], clock).result.value;
    assert HeadersOf([]) + path[0..] == path;
    assert RollbackBlocks([]) + ApplyBlocks(blocks) == ApplyBlocks(blocks);
  }

  // Committed, it leaves in the journal one rollback for every stored header above the fork
  // and one apply for every header of the path above it, which is what the summary reports.
  lemma PlanIsCounted(w: World, t: Tables, c: seq<Header>, id: nat, answers: (nat, nat) -> Answer, path: seq<Header>,
                      k: int, limit: nat, clock: nat, s: Summary)
    requires Inv(w, t, c) && Checkpointed(t, c) && IdsOk(t, id) && c != [] && IsPath(w, path)
    requires Honest(w, answers) && Steady(answers, path) && IsFork(c, path, k)
    requires Plan(t, answers, |path| - 1, limit, clock).Success?
    requires var r := RunBatch(t, id, Plan(t, answers, |path| - 1, limit, clock).value);
             r.Success? && Summarizes(s, t, r.value.tables)
    ensures s.rolledBack == |c| - Below(c, k) && s.applied == |path| - 1 - k
  {
    hide Plan, RunBatch, Inv, Checkpointed, IdsOk, Honest, Steady, AppliedRows, RolledBackRows;
    var b := Plan(t, answers, |path| - 1, limit, clock).value;
    var t' := RunBatch(t, id, b).value.tables;
    PlanIsDiff(w, t, c, answers, path, limit, clock);
    PlanCommits(w, t, c, id, answers, |path| - 1, limit, clock);
    assert Journal(t'.outbox[|t.outbox|..]) == HeaderEvents(b.events);
    CountRows(t'.outbox[|t.outbox|..], Reverse(c[Below(c, k)..]), path[k + 1..]);
  }

  lemma {:induction false} CountRows(rows: seq<OutboxRow>, down: seq<Header>, up: seq<Header>)
    requires Journal(rows) == Rollbacks(down) + Applies(up)
    ensures RolledBackRows(rows) == |down| && AppliedRows(rows) == |up|
    decreases |rows|
  {
    assert |rows| == |Journal(rows)| == |down| + |up|;
    if rows != [] {
      assert rows[0].event == Journal(rows)[0] == (Rollbacks(down) + Applies(up))[0];
      assert Journal(rows[1..]) == Journal(rows)[1..];
      if down != [] {
        assert Journal(rows[1..]) == Rollbacks(down[1..]) + Applies(up);
        CountRows(rows[1..], down[1..], up);
      } else {
        assert Journal(rows[1..]) == Rollbacks(down) + Applies(up[1..]);
        CountRows(rows[1..], down, up[1..]);
      }
    }
  }

  // And against a steady source it names no hash twice, so it is safe to run again after
  // any crash.
  lemma SteadyPlanIsOnce(w: World, t: Tables, c: seq<Header>, answers: (nat, nat) -> Answer, path: seq<Header>,
                         limit: nat, clock: nat)
    requires Inv(w, t, c) && Checkpointed(t, c) && c != [] && IsPath(w, path) && Steady(answers, path)
    requires Plan(t, answers, |path| - 1, limit, clock).Success?
    ensures OncePerHash(Plan(t, answers, |path| - 1, limit, clock).value.events)
  {
    PlanIsDiff(w, t, c, answers, path, limit, clock);
    var b := Plan(t, answers, |path| - 1, limit, clock).value;
    var k :| IsFork(c, path, k);
    DiffIsOnce(w, c, path, k, b);
  }

  lemma DiffIsOnce(w: World, c: seq<Header>, path: seq<Header>, k: nat, b: DurableBatch)
    requires Linked(c) && AllGenuine(w, c) && c != [] && IsPath(w, path) && IsFork(c, path, k)
    requires IsDiff(c, path, k, b.ancestor, HeaderEvents(b.events))
    ensures OncePerHash(b.events)
  {
    var up := path[k + 1..];
    LinkedSlice(path, k + 1, |path|);
    assert forall h | h in up :: h in path;
    forall h | h in up ensures h.hash !in HashesOf(c) {
      var i :| 0 <= i < |up| && up[i] == h;
      assert path[k + 1 + i] == h;
      HashMeansMember(w, c, h);
    }
    DiffIsDistinct(w, c, Below(c, k), up);
    forall i, j | 0 <= i < j < |b.events|
      ensures HeaderEvent(b.events[i]).header.hash != HeaderEvent(b.events[j]).header.hash {
      assert HeaderEvents(b.events)[i].header.hash != HeaderEvents(b.events)[j].header.hash;
    }
  }

  function Start(c: seq<Header>, path: seq<Header>): nat
    requires c != [] && path != []
  {
    if Last(c).height < |path| - 1 then Last(c).height else |path| - 1
  }

  lemma CommonIsFork(w: World, t: Tables, c: seq<Header>, answers: (nat, nat) -> Answer, path: seq<Header>, k: int,
                     limit: nat, clock: nat)
    returns (clock': nat)
    requires Linked(c) && c != [] && t.index == MapOf(c) && Checkpointed(t, c)
    requires IsPath(w, path) && Steady(answers, path) && IsFork(c, path, k)
    ensures Start(c, path) - k <= limit ==>
              FindCommon(t, answers, |path| - 1, limit, clock) == Walked(Success(Some(path[k])), clock')
    ensures Start(c, path) - k > limit ==>
              FindCommon(t, answers, |path| - 1, limit, clock).result == Failure(MaxWalkBackExceeded(limit))
    ensures 0 < Below(c, k) <= |c| && c[Below(c, k) - 1] == path[k] && path[k].height == k
  {
    MemberPosition(c, path, k);
    HeightAt(c, Below(c, k) - 1);
    HeightAt(c, |c| - 1);
    HeightWalkFindsFork(w, t, c, answers, path, k, Start(c, path), 0, limit, clock);
    clock' := HeightWalk(t, answers, Start(c, path), 0, limit, clock).clock;
  }

  lemma PlanAtFork(w: World, t: Tables, c: seq<Header>, answers: (nat, nat) -> Answer, path: seq<Header>, k: int,
                   limit: nat, clock: nat)
    requires Linked(c) && c != [] && t.index == MapOf(c) && Checkpointed(t, c)
    requires IsPath(w, path) && Steady(answers, path) && IsFork(c, path, k)
    ensures var r := Plan(t, answers, |path| - 1, limit, clock);
            && (r.Success? <==> Start(c, path) - k <= limit)
            && (r.Success? ==>
                  && IsDiff(c, path, k, r.value.ancestor, HeaderEvents(r.value.events))
                  && r.value.transition == if Below(c, k) < |c| then Reorg else Gap)
            && (r.Failure? ==> r.error == MaxWalkBackExceeded(limit))
  {
    hide Linked, Steady, MapOf, Collect, HeightWalk, FindCommon, CanonicalDescending, IsDiff;
    var clock' := CommonIsFork(w, t, c, answers, path, k, limit, clock);
    if Start(c, path) - k <= limit {
      CollectPath(w, answers, path, k + 1, [], clock');
      var b, blocks := PlanFromParts(t, answers, |path| - 1, limit, clock, path[k], clock');
      DescendingIsSuffix(t, c, |c| - 1, Below(c, k) - 1);
      DiffFromParts(c, path, k, b, blocks);
    }
  }

  lemma DiffFromParts(c: seq<Header>, path: seq<Header>, k: nat, b: DurableBatch, blocks: seq<Block>)
    requires c != [] && k < |path| && 0 < Below(c, k) <= |c| && b.ancestor == Some(path[k])
    requires b.events == RollbackBlocks(Reverse(c[Below(c, k)..|c|])) + ApplyBlocks(blocks)
    requires HeadersOf(blocks) == HeadersOf([]) + path[k + 1..]
    ensures IsDiff(c, path, k, b.ancestor, HeaderEvents(b.events))
  {
    assert c[Below(c, k)..|c|] == c[Below(c, k)..];
    assert HeadersOf([]) + path[k + 1..] == path[k + 1..];
    PlanEvents(Reverse(c[Below(c, k)..]), blocks);
  }

  lemma StoreLooksUp(w: World, t: Tables, c: seq<Header>, o: Oracle)
    requires Inv(w, t, c) && ReadsStore(o, t)
    ensures LooksUp(o, c)
  {
    CanonicalIsChain(w, t, c);
    forall h: Header | h in c ensures o.canonicalByHash(h.hash) == Found(h) {
      assert CanonicalByHash(t, h.hash) == Some(h);
    }
  }

  // The hash walk from the checkpoint computes the diff at the fork; a head that is the
  // checkpoint itself gives the empty diff.
  lemma HashWalkIsDiff(w: World, t: Tables, c: seq<Header>, o: Oracle, cache: map<Hash, Header>, path: seq<Header>,
                       k: int,
                       maxDepth: nat, finalized: Option<nat>, clock: nat)
    requires Inv(w, t, c) && c != [] && IsPath(w, path) && maxDepth >= 1 && IsFork(c, path, k)
    requires CacheTruth(w, cache) && ReadsStore(o, t) && Serves(o, path) && Serves(o, c)
    requires ApplyFn(TipView(Last(c), maxDepth, finalized), cache, o, Last(path), clock).Success?
    ensures var b := ApplyFn(TipView(Last(c), maxDepth, finalized), cache, o, Last(path), clock).value;
            IsDiff(c, path, k, b.ancestor, b.events)
  {
    var v := TipView(Last(c), maxDepth, finalized);
    assert Last(c) in c && Last(path) in path;
    TipViewOk(w, Last(c), maxDepth, finalized);
    if EarlyDuplicate(v, Last(path)) {
      var n := |path| - 1;
      assert path[n] == Last(c);
      assert IsFork(c, path, n);
      ForkIsUnique(c, path, k, n);
      MemberPosition(c, path, n);
      HeightAt(c, |c| - 1);
      assert c[Below(c, n)..] == [] && path[n + 1..] == [];
      assert Rollbacks(Reverse(c[Below(c, n)..])) + Applies(path[n + 1..]) == [];
    } else {
      StoreLooksUp(w, t, c, o);
      assert [Last(c)] == c[|c| - 1..];
      ApplyIsDiff(w, v, cache, o, [Last(c)], c, path, clock);
    }
  }

  // Two independent algorithms, one answer: whenever both the hash walk from the
  // checkpoint and the height walk succeed against the same steady source, they name the
  // same ancestor and the same rollbacks and applies in the same order.
  lemma WalksAgree(w: World, t: Tables, c: seq<Header>, o: Oracle, cache: map<Hash, Header>,
                   answers: (nat, nat) -> Answer,
                   path: seq<Header>, maxDepth: nat, finalized: Option<nat>, limit: nat, clock: nat, clock': nat)
    requires Inv(w, t, c) && Checkpointed(t, c) && c != [] && IsPath(w, path) && maxDepth >= 1
    requires CacheTruth(w, cache) && ReadsStore(o, t) && Serves(o, path) && Serves(o, c) && Steady(answers, path)
    requires ApplyFn(TipView(Last(c), maxDepth, finalized), cache, o, Last(path), clock).Success?
    requires Plan(t, answers, |path| - 1, limit, clock').Success?
    ensures var b := ApplyFn(TipView(Last(c), maxDepth, finalized), cache, o, Last(path), clock).value;
            var plan := Plan(t, answers, |path| - 1, limit, clock').value;
            plan.ancestor == b.ancestor && HeaderEvents(plan.events) == b.events
  {
    PlanIsDiff(w, t, c, answers, path, limit, clock');
    var k :| IsFork(c, path, k);
    HashWalkIsDiff(w, t, c, o, cache, path, k, maxDepth, finalized, clock);
  }
}
