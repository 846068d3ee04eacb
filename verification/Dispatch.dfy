// The outbox dispatcher and its consumer. Any number of dispatchers lock the lowest
// unpublished row, send it, and mark it; a send may fail, may be reported as failed and
// still reach the log later, and a dispatcher may lose its lock or crash at any point. The
// consumer drops every event id it has seen before.
module Dispatch {
  import opened Wrappers
  import opened Headers
  import opened Store

  // ------------------------------------------------------------------ the consumer

  predicate HasId(rows: seq<OutboxRow>, id: nat) {
    exists i :: 0 <= i < |rows| && rows[i].id == id
  }

  // What the consumer shows of a log: each event id the first time it is seen.
  function Consume(log: seq<OutboxRow>): seq<OutboxRow> {
    if log == [] then []
    else
      var before := Consume(log[..|log| - 1]);
      if HasId(before, Last(log).id) then before else before + [Last(log)]
  }

  lemma HasIdPush(rows: seq<OutboxRow>, row: OutboxRow, id: nat)
    ensures HasId(rows + [row], id) <==> HasId(rows, id) || row.id == id
  {
    var all := rows + [row];
    assert all[|rows|].id == row.id;
    if HasId(rows, id) {
      var i :| 0 <= i < |rows| && rows[i].id == id;
      assert all[i].id == id;
    }
  }

  lemma {:induction false} ConsumeIds(log: seq<OutboxRow>, id: nat)
    ensures HasId(Consume(log), id) <==> HasId(log, id)
  {
    if log != [] {
      var before := log[..|log| - 1];
      assert log == before + [Last(log)];
      ConsumeIds(before, id);
      HasIdPush(before, Last(log), id);
      HasIdPush(Consume(before), Last(log), id);
    }
  }

  // The rows among the messages of a topic; a message may have no payload.
  function Payloads(messages: seq<Option<OutboxRow>>): seq<OutboxRow> {
    if messages == [] then []
    else
      var before := Payloads(messages[..|messages| - 1]);
      if Last(messages).Some? then before + [Last(messages).value] else before
  }

  lemma ConsumePush(log: seq<OutboxRow>, row: OutboxRow)
    ensures Consume(log + [row]) == if HasId(Consume(log), row.id) then Consume(log) else Consume(log) + [row]
  {
    assert (log + [row])[..|log|] == log;
  }

  // The seen set is exactly the ids shown.
  ghost predicate SeenOk(shown: seq<OutboxRow>, seen: set<nat>) {
    |seen| == |shown| && forall id :: id in seen <==> HasId(shown, id)
  }

  lemma SeenPush(shown: seq<OutboxRow>, seen: set<nat>, row: OutboxRow)
    requires SeenOk(shown, seen) && row.id !in seen
    ensures SeenOk(shown + [row], seen + {row.id})
  {
    forall id ensures id in seen + {row.id} <==> HasId(shown + [row], id) {
      HasIdPush(shown, row, id);
    }
  }

  lemma PayloadsPush(messages: seq<Option<OutboxRow>>, from: nat, offset: nat)
    requires from <= offset < |messages|
    ensures var rows := Payloads(messages[from..offset]);
            Payloads(messages[from..offset + 1])
            == if messages[offset].Some? then rows + [messages[offset].value] else rows
  {
    assert messages[from..offset + 1][..offset - from] == messages[from..offset];
  }

  // The demo consumer, from a committed offset on: it skips messages without payload, shows
  // each event id of its own reading once, and stops at its limit or waits at the end.
  method RunConsumer(messages: seq<Option<OutboxRow>>, from: nat, limit: Option<nat>)
    returns (shown: seq<OutboxRow>, seen: set<nat>, offset: nat)
    requires from <= |messages|
    ensures from <= offset <= |messages|
    ensures shown == Consume(Payloads(messages[from..offset])) && |seen| == |shown|
    ensures forall id :: id in seen <==> HasId(Payloads(messages[from..offset]), id)
    ensures limit.Some? ==> |shown| <= limit.value
    ensures offset < |messages| ==> limit == Some(|shown|)
  {
    hide Payloads, Consume, SeenOk;
    shown, seen, offset := [], {}, from;
    NothingRead(messages, from);
    while offset < |messages|
      invariant from <= offset <= |messages|
      invariant shown == Consume(Payloads(messages[from..offset])) && SeenOk(shown, seen)
      invariant limit.Some? ==> |shown| <= limit.value
    {
      SeenSize(shown, seen);
      if limit.Some? && |seen| >= limit.value {
        break;
      }
      PayloadsPush(messages, from, offset);
      if messages[offset].Some? {
        var row := messages[offset].value;
        ConsumePush(Payloads(messages[from..offset]), row);
        SeenMeans(shown, seen, row.id);
        if row.id !in seen {
          SeenPush(shown, seen, row);
          seen := seen + {row.id};
          shown := shown + [row];
        }
      }
      offset := offset + 1;
    }
    SeenSize(shown, seen);
    forall id ensures id in seen <==> HasId(Payloads(messages[from..offset]), id) {
      SeenMeans(shown, seen, id);
      ConsumeIds(Payloads(messages[from..offset]), id);
    }
  }

  lemma NothingRead(messages: seq<Option<OutboxRow>>, from: nat)
    requires from <= |messages|
    ensures Consume(Payloads(messages[from..from])) == [] && SeenOk([], {})
  {
  }

  lemma SeenSize(shown: seq<OutboxRow>, seen: set<nat>)
    requires SeenOk(shown, seen)
    ensures |seen| == |shown|
  {
  }

  lemma SeenMeans(shown: seq<OutboxRow>, seen: set<nat>, id: nat)
    requires SeenOk(shown, seen)
    ensures id in seen <==> HasId(shown, id)
  {
  }

  lemma {:induction false} ConsumeDistinct(log: seq<OutboxRow>, i: nat, j: nat)
    requires i < j < |Consume(log)|
    ensures Consume(log)[i].id != Consume(log)[j].id
    decreases |log|
  {
    var before := Consume(log[..|log| - 1]);
    if j < |before| {
      ConsumeDistinct(log[..|log| - 1], i, j);
    }
  }

  lemma HasIdConcat(a: seq<OutboxRow>, b: seq<OutboxRow>, id: nat)
    ensures HasId(a + b, id) <==> HasId(a, id) || HasId(b, id)
  {
    if HasId(a, id) {
      var i :| 0 <= i < |a| && a[i].id == id;
      assert (a + b)[i].id == id;
    }
    if HasId(b, id) {
      var i :| 0 <= i < |b| && b[i].id == id;
      assert (a + b)[|a| + i].id == id;
    }
  }

  // No event id is in both.
  ghost predicate Apart(a: seq<OutboxRow>, b: seq<OutboxRow>) {
    forall id :: !(HasId(a, id) && HasId(b, id))
  }

  lemma ApartInit(a: seq<OutboxRow>, init: seq<OutboxRow>, last: OutboxRow)
    requires Apart(a, init + [last])
    ensures Apart(a, init) && !HasId(a, last.id)
  {
    HasIdPush(init, last, last.id);
    forall id ensures !(HasId(a, id) && HasId(init, id)) {
      HasIdPush(init, last, id);
    }
  }

  lemma {:induction false} ConsumeApart(a: seq<OutboxRow>, b: seq<OutboxRow>)
    requires Apart(a, b)
    ensures Consume(a + b) == Consume(a) + Consume(b)
    decreases |b|, 1
  {
    if b == [] {
      assert a + b == a && Consume(a) + Consume(b) == Consume(a);
    } else {
      ConsumeApartStep(a, b, b[..|b| - 1], Last(b));
    }
  }

  lemma {:induction false} ConsumeApartStep(a: seq<OutboxRow>, b: seq<OutboxRow>, init: seq<OutboxRow>, last: OutboxRow)
    requires Apart(a, b) && b == init + [last]
    ensures Consume(a + b) == Consume(a) + Consume(b)
    decreases |b|, 0
  {
    hide Consume, HasId, Apart;
    assert a + b == (a + init) + [last];
    ApartInit(a, init, last);
    ConsumeApart(a, init);
    ConsumePush(a + init, last);
    ConsumePush(init, last);
    ConsumeIds(a, last.id);
    HasIdConcat(Consume(a), Consume(init), last.id);
  }

  // A restart forgets what was seen. It goes unnoticed exactly when no event id was read
  // before it and again after it; otherwise something is shown twice.
  lemma RestartUnnoticed(a: seq<OutboxRow>, b: seq<OutboxRow>)
    ensures Consume(a) + Consume(b) == Consume(a + b) <==> Apart(a, b)
  {
    if Apart(a, b) {
      ConsumeApart(a, b);
    } else {
      var id :| HasId(a, id) && HasId(b, id);
      ConsumeIds(a, id);
      ConsumeIds(b, id);
      var i :| 0 <= i < |Consume(a)| && Consume(a)[i].id == id;
      var j :| 0 <= j < |Consume(b)| && Consume(b)[j].id == id;
      if Consume(a) + Consume(b) == Consume(a + b) {
        ConsumeDistinct(a + b, i, |Consume(a)| + j);
        assert false;
      }
    }
  }

  // ------------------------------------------------------------------ the system

  // A dispatcher between its lock and its mark. A lost lock means its transaction is gone,
  // which it has not noticed yet.
  datatype Worker = Idle | Holding(row: nat, live: bool, acked: bool)

  // `limbo` are positions of sends that were reported as failed and may still arrive.
  datatype System = System(
    rows: seq<OutboxRow>,
    published: seq<bool>,
    log: seq<OutboxRow>,
    limbo: set<nat>,
    workers: map<nat, Worker>)

  datatype Move =
    | Append(row: OutboxRow)
    | Lock(worker: nat)
    | SendAcked(worker: nat)
    | SendFailed(worker: nat)
    | SendAmbiguous(worker: nat)
    | Arrive(position: nat)
    | LoseLock(worker: nat)
    | Crash(worker: nat)
    | Mark(worker: nat)

  function At(s: System, k: nat): Worker {
    if k in s.workers then s.workers[k] else Idle
  }

  // The lowest unpublished row, or the number of rows.
  function NextRow(published: seq<bool>): (p: nat)
    ensures p <= |published| && (forall i | 0 <= i < p :: published[i]) && (p < |published| ==> !published[p])
  {
    if published == [] || !published[0] then 0
    else
      var rest := NextRow(published[1..]);
      assert forall i | 1 <= i < rest + 1 :: published[i] == published[1..][i - 1];
      rest + 1
  }

  predicate Locked(s: System, row: nat) {
    exists k :: k in s.workers && s.workers[k].Holding? && s.workers[k].live && s.workers[k].row == row
  }

  function Become(s: System, k: nat, w: Worker): System {
    s.(workers := s.workers[k := w])
  }

  // One move; none when it is not possible.
  function Next(s: System, m: Move): Option<System> {
    match m
    case Append(row) =>
      if s.rows != [] && row.id <= Last(s.rows).id then None
      else Some(s.(rows := s.rows + [row], published := s.published + [false]))
    case Lock(k) =>
      var p := NextRow(s.published);
      if !At(s, k).Idle? || p == |s.published| || Locked(s, p) then None
      else Some(Become(s, k, Holding(p, true, false)))
    case SendAcked(k) =>
      var w := At(s, k);
      if w.Idle? || w.acked || w.row >= |s.rows| then None
      else Some(Become(s, k, w.(acked := true)).(log := s.log + [s.rows[w.row]]))
    case SendFailed(k) => if At(s, k).Idle? || At(s, k).acked then None else Some(Become(s, k, Idle))
    case SendAmbiguous(k) =>
      if At(s, k).Idle? || At(s, k).acked then None else Some(Become(s, k, Idle).(limbo := s.limbo + {At(s, k).row}))
    case Arrive(i) => if i !in s.limbo || i >= |s.rows| then None else Some(s.(log := s.log + [s.rows[i]]))
    case LoseLock(k) => if At(s, k).Idle? then None else Some(Become(s, k, At(s, k).(live := false)))
    case Crash(k) => Some(Become(s, k, Idle))
    case Mark(k) =>
      var w := At(s, k);
      if w.Idle? || !w.acked then None
      else if !w.live || w.row >= |s.published| then Some(Become(s, k, Idle))
      else Some(Become(s, k, Idle).(published := s.published[w.row := true]))
  }

  function RunMoves(s: System, moves: seq<Move>): Option<System>
    decreases |moves|
  {
    if moves == [] then Some(s)
    else
      var n := Next(s, moves[0]);
      if n.None? then None else RunMoves(n.value, moves[1..])
  }

  // ------------------------------------------------------------------ the invariant

  predicate Ascending(rows: seq<OutboxRow>) {
    forall i, j | 0 <= i < j < |rows| :: rows[i].id < rows[j].id
  }

  // The consumer has seen a prefix of the outbox that contains every published row and at
  // most one more; whoever holds a live lock holds the next row, alone.
  ghost predicate Sound(s: System) {
    var p, m := NextRow(s.published), |Consume(s.log)|;
    && |s.published| == |s.rows| && Ascending(s.rows)
    && (forall i | p <= i < |s.rows| :: !s.published[i])
    && p <= m <= p + 1 && m <= |s.rows| && Consume(s.log) == s.rows[..m]
    && (forall r | r in s.limbo :: r <= p && r < |s.rows|)
    && (forall k | k in s.workers && s.workers[k].Holding? :: WorkerOk(s.workers[k], p, m, |s.rows|))
    && (forall k, l | k in s.workers && l in s.workers && k != l ::
          !(s.workers[k].Holding? && s.workers[k].live && s.workers[l].Holding? && s.workers[l].live))
  }

  predicate WorkerOk(w: Worker, p: nat, m: nat, n: nat)
    requires w.Holding?
  {
    w.row <= p && w.row < n && (w.live ==> w.row == p) && (w.acked ==> w.row < m)
  }

  lemma {:induction false} NextRowIs(published: seq<bool>, p: nat)
    requires p <= |published| && (forall i | 0 <= i < p :: published[i])
    requires (forall i | p <= i < |published| :: !published[i])
    ensures NextRow(published) == p
    decreases p
  {
    if p > 0 {
      NextRowIs(published[1..], p - 1);
    }
  }

  // A row at or below the next unpublished one is either known to the consumer already or
  // is the next one it has not seen.
  lemma Delivered(s: System, r: nat)
    requires Sound(s) && r <= NextRow(s.published) && r < |s.rows|
    ensures var m := |Consume(s.log)|;
            Consume(s.log + [s.rows[r]]) == if r < m then s.rows[..m] else s.rows[..m + 1]
    ensures r <= |Consume(s.log)|
  {
    var m := |Consume(s.log)|;
    var log := s.log + [s.rows[r]];
    assert log[..|log| - 1] == s.log;
    if r < m {
      assert s.rows[..m][r].id == s.rows[r].id;
    } else {
      assert s.rows[..m + 1] == s.rows[..m] + [s.rows[m]];
    }
  }

  lemma SendKeepsSound(s: System, s': System, r: nat)
    requires Sound(s) && r <= NextRow(s.published) && r < |s.rows|
    requires s' == s.(log := s.log + [s.rows[r]])
    ensures Sound(s') && r < |Consume(s'.log)|
  {
    Delivered(s, r);
    var m := |Consume(s.log)|;
    var m' := if r < m then m else m + 1;
    SentBound(s);
    hide Sound, Consume;
    assert |s.rows[..m']| == m';
    LogGrows(s, s', m');
  }

  lemma SentBound(s: System)
    requires Sound(s)
    ensures |Consume(s.log)| <= |s.rows| && |Consume(s.log)| <= NextRow(s.published) + 1
  {
  }

  // The consumer has seen more of the outbox, up to one row past the published ones.
  lemma LogGrows(s: System, s': System, m: nat)
    requires Sound(s) && s' == s.(log := s'.log) && |Consume(s.log)| <= m <= NextRow(s.published) + 1
    requires m <= |s.rows| && Consume(s'.log) == s.rows[..m]
    ensures Sound(s')
  {
    hide Consume, NextRow, HasId, Ascending;
    assert |s.rows[..m]| == m;
  }

  lemma WorkerKeepsSound(s: System, k: nat, w: Worker)
    requires Sound(s)
    requires w.Holding? ==> WorkerOk(w, NextRow(s.published), |Consume(s.log)|, |s.rows|)
    requires w.Holding? && w.live ==>
              forall l | l in s.workers && l != k :: !(s.workers[l].Holding? && s.workers[l].live)
    ensures Sound(Become(s, k, w))
  {
  }

  lemma MarkKeepsSound(s: System, k: nat)
    requires Sound(s) && At(s, k).Holding? && At(s, k).acked && At(s, k).live
    ensures Next(s, Mark(k)).Some? && Sound(Next(s, Mark(k)).value)
    ensures NextRow(Next(s, Mark(k)).value.published) == NextRow(s.published) + 1
    ensures !s.published[At(s, k).row]
  {
    var p := NextRow(s.published);
    var s' := Next(s, Mark(k)).value;
    NextRowIs(s'.published, p + 1);
    forall l | l in s'.workers && s'.workers[l].Holding?
      ensures WorkerOk(s'.workers[l], p + 1, |Consume(s.log)|, |s.rows|) {
      assert l != k && WorkerOk(s.workers[l], p, |Consume(s.log)|, |s.rows|);
    }
  }

  lemma AscendingPush(rows: seq<OutboxRow>, row: OutboxRow)
    requires Ascending(rows) && (rows != [] ==> row.id > Last(rows).id)
    ensures Ascending(rows + [row])
  {
    var all := rows + [row];
    forall i, j | 0 <= i < j < |all| ensures all[i].id < all[j].id {
      if j == |rows| && i < |rows| - 1 { assert rows[i].id < rows[|rows| - 1].id; }
    }
  }

  lemma AppendKeepsSound(s: System, row: OutboxRow)
    requires Sound(s) && Next(s, Append(row)).Some?
    ensures Sound(Next(s, Append(row)).value)
  {
    hide Consume, NextRow, Ascending;
    var s', p := Next(s, Append(row)).value, NextRow(s.published);
    AscendingPush(s.rows, row);
    NextRowBounds(s.published);
    assert forall i | p <= i < |s'.published| :: !s'.published[i];
    assert forall i | 0 <= i < p :: s'.published[i];
    NextRowIs(s'.published, p);
    assert s'.rows[..|Consume(s.log)|] == s.rows[..|Consume(s.log)|];
  }

  lemma NextRowBounds(published: seq<bool>)
    ensures NextRow(published) <= |published| && forall i | 0 <= i < NextRow(published) :: published[i]
  {
  }

  lemma LiveIsLocked(s: System, k: nat)
    requires Sound(s) && k in s.workers
    ensures s.workers[k].Holding? && s.workers[k].live ==> Locked(s, NextRow(s.published))
  {
    assert s.workers[k].Holding? ==> WorkerOk(s.workers[k], NextRow(s.published), |Consume(s.log)|, |s.rows|);
  }

  lemma LockKeepsSound(s: System, k: nat)
    requires Sound(s) && Next(s, Lock(k)).Some?
    ensures Sound(Next(s, Lock(k)).value)
  {
    var p := NextRow(s.published);
    forall l | l in s.workers && l != k ensures !(s.workers[l].Holding? && s.workers[l].live) {
      LiveIsLocked(s, l);
    }
    WorkerKeepsSound(s, k, Holding(p, true, false));
  }

  lemma AckKeepsSound(s: System, k: nat)
    requires Sound(s) && Next(s, SendAcked(k)).Some?
    ensures Sound(Next(s, SendAcked(k)).value)
  {
    var w := At(s, k);
    var sent := s.(log := s.log + [s.rows[w.row]]);
    SendKeepsSound(s, sent, w.row);
    WorkerKeepsSound(sent, k, w.(acked := true));
  }

  lemma DoubtKeepsSound(s: System, k: nat)
    requires Sound(s) && Next(s, SendAmbiguous(k)).Some?
    ensures Sound(Next(s, SendAmbiguous(k)).value)
  {
    WorkerKeepsSound(s.(limbo := s.limbo + {At(s, k).row}), k, Idle);
  }

  lemma LossKeepsSound(s: System, k: nat)
    requires Sound(s) && Next(s, LoseLock(k)).Some?
    ensures Sound(Next(s, LoseLock(k)).value)
  {
    WorkerKeepsSound(s, k, At(s, k).(live := false));
  }

  lemma AnyMarkKeepsSound(s: System, k: nat)
    requires Sound(s) && Next(s, Mark(k)).Some?
    ensures Sound(Next(s, Mark(k)).value)
  {
    if At(s, k).live { MarkKeepsSound(s, k); } else { WorkerKeepsSound(s, k, Idle); }
  }

  lemma ArrivalKeepsSound(s: System, i: nat)
    requires Sound(s) && Next(s, Arrive(i)).Some?
    ensures Sound(Next(s, Arrive(i)).value)
  {
    SendKeepsSound(s, Next(s, Arrive(i)).value, i);
  }

  lemma MoveKeepsSound(s: System, m: Move)
    requires Sound(s) && Next(s, m).Some?
    ensures Sound(Next(s, m).value)
  {
    hide Sound, Become;
    match m {
      case Append(row) => AppendKeepsSound(s, row);
      case Lock(k) => LockKeepsSound(s, k);
      case SendAcked(k) => AckKeepsSound(s, k);
      case SendFailed(k) => IdleKeepsSound(s, k);
      case SendAmbiguous(k) => DoubtKeepsSound(s, k);
      case Arrive(i) => ArrivalKeepsSound(s, i);
      case LoseLock(k) => LossKeepsSound(s, k);
      case Crash(k) => IdleKeepsSound(s, k);
      case Mark(k) => AnyMarkKeepsSound(s, k);
    }
  }

  lemma IdleKeepsSound(s: System, k: nat)
    requires Sound(s)
    ensures Sound(Become(s, k, Idle))
  {
    WorkerKeepsSound(s, k, Idle);
  }

  lemma {:induction false} RunKeepsSound(s: System, moves: seq<Move>)
    requires Sound(s) && RunMoves(s, moves).Some?
    ensures Sound(RunMoves(s, moves).value)
    decreases |moves|
  {
    if moves != [] {
      MoveKeepsSound(s, moves[0]);
      RunKeepsSound(Next(s, moves[0]).value, moves[1..]);
    }
  }

  const START := System([], [], [], {}, map[])

  // At-least-once delivery in order: over every interleaving from the start, what the
  // consumer shows is a prefix of the outbox, every marked row was sent, and once nothing
  // is unpublished the consumer has shown exactly the outbox.
  lemma DeliveryInOrder(moves: seq<Move>)
    requires RunMoves(START, moves).Some?
    ensures var s := RunMoves(START, moves).value;
            && |s.published| == |s.rows| && Consume(s.log) <= s.rows
            && (forall i | 0 <= i < |s.rows| && s.published[i] :: s.rows[i] in s.log)
            && ((forall i | 0 <= i < |s.rows| :: s.published[i]) ==> Consume(s.log) == s.rows)
  {
    assert Sound(START);
    RunKeepsSound(START, moves);
    var s := RunMoves(START, moves).value;
    ConsumeWithin(s.log);
    forall i | 0 <= i < |s.rows| && s.published[i] ensures s.rows[i] in s.log {
      assert s.rows[i] == Consume(s.log)[i];
      assert Consume(s.log)[i] in Consume(s.log);
    }
  }

  lemma {:induction false} ConsumeWithin(log: seq<OutboxRow>)
    ensures forall r | r in Consume(log) :: r in log
  {
    if log != [] {
      ConsumeWithin(log[..|log| - 1]);
      assert Last(log) in log && forall r | r in log[..|log| - 1] :: r in log;
    }
  }

  // ------------------------------------------------------------------ one dispatcher in place

  class Outbox {
    var rows: seq<OutboxRow>
    var published: seq<bool>

    constructor ()
      ensures rows == [] && published == []
    {
      rows, published := [], [];
    }
  }

  class Broker {
    var log: seq<OutboxRow>
    ghost var limbo: set<nat>

    constructor ()
      ensures log == [] && limbo == {}
    {
      log := [];
      limbo := {};
    }
  }

  datatype SendOutcome = Acked | NotSent | Unknown

  datatype FailurePoint = BeforePublish | AfterBrokerAckBeforeMark

  datatype DispatchResult =
    | NothingToDo
    | DeliveredRow(row: OutboxRow)
    | PublishError(eventId: nat)
    | InjectedBeforePublish(eventId: nat)
    | InjectedAfterAck(eventId: nat)

  // The moves one undisturbed dispatch makes.
  function DispatchMoves(idle: bool, send: SendOutcome, failure: Option<FailurePoint>): seq<Move> {
    if idle then []
    else if failure == Some(BeforePublish) then [Lock(0), Crash(0)]
    else
      match send
      case NotSent => [Lock(0), SendFailed(0)]
      case Unknown => [Lock(0), SendAmbiguous(0)]
      case Acked => [Lock(0), SendAcked(0)] + if failure.Some? then [Crash(0)] else [Mark(0)]
  }

  // Two or three moves in a row.
  lemma ThreeMoves(a: System, b: System, c: System, d: System, moves: seq<Move>)
    requires 2 <= |moves| <= 3 && Next(a, moves[0]) == Some(b) && Next(b, moves[1]) == Some(c)
    requires if |moves| == 3 then Next(c, moves[2]) == Some(d) else c == d
    ensures RunMoves(a, moves) == Some(d)
  {
    hide Next;
    var rest := moves[1..];
    var last := rest[1..];
    assert RunMoves(c, last) == Some(d) by {
      if |moves| == 3 { assert last[1..] == [] && RunMoves(d, []) == Some(d); }
    }
    assert RunMoves(b, rest) == Some(d);
  }

  lemma Released(s: System, w: Worker)
    requires s.workers == map[0 := Idle]
    ensures Become(Become(s, 0, w), 0, Idle) == s
  {
  }

  lemma Acknowledged(s: System, p: nat)
    requires p < |s.rows|
    ensures Next(Become(s, 0, Holding(p, true, false)), SendAcked(0))
         == Some(Become(s.(log := s.log + [s.rows[p]]), 0, Holding(p, true, true)))
  {
    assert s.workers[0 := Holding(p, true, false)][0 := Holding(p, true, true)]
        == s.workers[0 := Holding(p, true, true)];
  }

  lemma LocksNext(s: System)
    requires s.workers == map[0 := Idle] && |s.rows| == |s.published| && NextRow(s.published) < |s.rows|
    ensures Next(s, Lock(0)) == Some(Become(s, 0, Holding(NextRow(s.published), true, false)))
  {
  }

  lemma Marked(s: System, p: nat)
    requires s.workers == map[0 := Idle] && p < |s.published|
    ensures Next(Become(s, 0, Holding(p, true, true)), Mark(0)) == Some(s.(published := s.published[p := true]))
    ensures Next(Become(s, 0, Holding(p, true, true)), Crash(0)) == Some(s)
  {
    Released(s, Holding(p, true, true));
    var w := s.workers[0 := Holding(p, true, true)][0 := Idle];
    assert w == s.workers;
  }

  // What an undisturbed dispatch that ends before any acknowledgement comes to.
  lemma UnsentEffect(s: System, send: SendOutcome, failure: Option<FailurePoint>)
    requires s.workers == map[0 := Idle] && |s.rows| == |s.published| && NextRow(s.published) < |s.rows|
    requires failure == Some(BeforePublish) || !send.Acked?
    ensures RunMoves(s, DispatchMoves(false, send, failure)) == Some(
              if failure != Some(BeforePublish) && send.Unknown?
              then s.(limbo := s.limbo + {NextRow(s.published)}) else s)
  {
    var p, moves := NextRow(s.published), DispatchMoves(false, send, failure);
    var locked := Become(s, 0, Holding(p, true, false));
    var end := if failure != Some(BeforePublish) && send.Unknown? then s.(limbo := s.limbo + {p}) else s;
    Released(s, Holding(p, true, false));
    Released(end, Holding(p, true, false));
    ThreeMoves(s, locked, end, end, moves);
  }

  // And one that is acknowledged.
  lemma SentEffect(s: System, failure: Option<FailurePoint>)
    requires s.workers == map[0 := Idle] && |s.rows| == |s.published| && NextRow(s.published) < |s.rows|
    requires failure != Some(BeforePublish)
    ensures var p := NextRow(s.published);
            var sent := s.(log := s.log + [s.rows[p]]);
            RunMoves(s, DispatchMoves(false, Acked, failure))
            == Some(if failure.Some? then sent else sent.(published := s.published[p := true]))
  {
    var p, moves := NextRow(s.published), DispatchMoves(false, Acked, failure);
    var sent := s.(log := s.log + [s.rows[p]]);
    var end := if failure.Some? then sent else sent.(published := s.published[p := true]);
    hide Become, Next;
    Acknowledged(s, p);
    Marked(sent, p);
    LocksNext(s);
    assert moves == [Lock(0), SendAcked(0), if failure.Some? then Crash(0) else Mark(0)];
    ThreeMoves(s, Become(s, 0, Holding(p, true, false)), Become(sent, 0, Holding(p, true, true)), end, moves);
  }

  class Dispatcher {
    const outbox: Outbox
    const broker: Broker

    constructor (outbox: Outbox, broker: Broker)
      ensures this.outbox == outbox && this.broker == broker
    {
      this.outbox := outbox;
      this.broker := broker;
    }

    // The system as others see it between two dispatches.
    ghost function View(): System
      reads this, outbox, broker
    {
      System(outbox.rows, outbox.published, broker.log, broker.limbo, map[0 := Idle])
    }

    // Dispatches at most the lowest unpublished row, making exactly the moves listed; it is
    // idle exactly when nothing is unpublished, and it marks only what was acknowledged.
    method DispatchOnce(send: SendOutcome, failure: Option<FailurePoint>) returns (r: DispatchResult)
      requires |outbox.rows| == |outbox.published|
      modifies outbox`published, broker
      ensures |outbox.rows| == |outbox.published|
      ensures r.NothingToDo? <==> NextRow(old(outbox.published)) == |outbox.rows|
      ensures RunMoves(old(View()), DispatchMoves(r.NothingToDo?, send, failure)) == Some(View())
      ensures !r.NothingToDo? ==>
                var row := outbox.rows[NextRow(old(outbox.published))];
                r == if failure == Some(BeforePublish) then InjectedBeforePublish(row.id)
                     else if !send.Acked? then PublishError(row.id)
                     else if failure.Some? then InjectedAfterAck(row.id)
                     else DeliveredRow(row)
    {
      var next := NextRow(outbox.published);
      if next == |outbox.rows| {
        return NothingToDo;
      }
      var row := outbox.rows[next];
      if failure.Some? && failure.value.BeforePublish? {
        UnsentEffect(View(), send, failure);
        return InjectedBeforePublish(row.id);
      }
      if !send.Acked? {
        UnsentEffect(View(), send, failure);
        if send.Unknown? {
          broker.limbo := broker.limbo + {next};
        }
        return PublishError(row.id);
      }
      SentEffect(View(), failure);
      broker.log := broker.log + [row];
      if failure.Some? && failure.value.AfterBrokerAckBeforeMark? {
        return InjectedAfterAck(row.id);
      }
      if !outbox.published[next] {
        outbox.published := outbox.published[next := true];
      }
      r := DeliveredRow(row);
    }

    // One dispatch without an injected failure. It sends and marks the lowest unpublished
    // row exactly if there is one and the send is acknowledged, and errs exactly if there is
    // one and it is not.
    method DispatchSound(send: SendOutcome) returns (r: DispatchResult)
      requires Sound(View())
      modifies outbox`published, broker
      ensures Sound(View())
      ensures var p := NextRow(old(outbox.published));
              var sent := p < |outbox.rows| && send.Acked?;
              && NextRow(outbox.published) == (if sent then p + 1 else p)
              && broker.log == (if sent then old(broker.log) + [outbox.rows[p]] else old(broker.log))
              && broker.limbo == old(broker.limbo) + (if p < |outbox.rows| && send.Unknown? then {p} else {})
              && (r.PublishError? <==> p < |outbox.rows| && !sent)
              && (r.PublishError? ==> r.eventId == outbox.rows[p].id)
    {
      ghost var was := View();
      r := DispatchOnce(send, None);
      RunKeepsSound(was, DispatchMoves(r.NothingToDo?, send, None));
      hide Sound;
      DispatchEffect(was, send);
    }

    // Dispatches until cancelled or until a send fails. Every poll before the end sends and
    // marks the next row, while there is one. The run ends at the first poll that is
    // cancelled, or at which the next row cannot be sent; that row is still the lowest
    // unpublished one, and nothing after it was sent or published. The run is followed up to
    // a given poll at which it is cancelled.
    method RunUntilCancelled(sends: nat -> SendOutcome, cancelled: nat -> bool, ghost until: nat)
      returns (r: DispatchResult, ghost polls: nat)
      requires Sound(View()) && cancelled(until)
      modifies outbox`published, broker
      ensures Sound(View()) && polls <= until
      ensures var p, n := NextRow(old(outbox.published)), |outbox.rows|;
              && NextRow(outbox.published) == (if p + polls < n then p + polls else n)
              && broker.log == old(broker.log) + outbox.rows[p..NextRow(outbox.published)]
              && broker.limbo
                   == old(broker.limbo) + (if r.PublishError? && sends(polls).Unknown? then {p + polls} else {})
              && (forall t: nat | t < polls :: !cancelled(t) && (p + t < n ==> sends(t).Acked?))
              && if cancelled(polls) then r.NothingToDo?
                 else p + polls < n && !sends(polls).Acked? && r == PublishError(outbox.rows[p + polls].id)
    {
      hide Sound, NextRow;
      var turn := 0;
      polls := 0;
      ghost var p, n := NextRow(outbox.published), |outbox.rows|;
      NextRowWithin();
      while true
        invariant Sound(View()) && polls == turn <= until && p <= n
        invariant NextRow(outbox.published) == if p + turn < n then p + turn else n
        invariant broker.log == old(broker.log) + outbox.rows[p..NextRow(outbox.published)]
        invariant broker.limbo == old(broker.limbo)
        invariant forall t: nat | t < turn :: !cancelled(t) && (p + t < n ==> sends(t).Acked?)
        decreases until - turn
      {
        if cancelled(turn) {
          return NothingToDo, turn;
        }
        var done := DispatchSound(sends(turn));
        if done.PublishError? {
          return done, turn;
        }
        turn := turn + 1;
        polls := turn;
      }
    }

    lemma NextRowWithin()
      requires Sound(View())
      ensures NextRow(outbox.published) <= |outbox.rows|
    {
    }
  }

  // What one dispatch without an injected failure comes to.
  lemma DispatchEffect(s: System, send: SendOutcome)
    requires Sound(s) && s.workers == map[0 := Idle]
    ensures var p := NextRow(s.published);
            var d := RunMoves(s, DispatchMoves(p == |s.rows|, send, None));
            && d.Some?
            && d.value.limbo == s.limbo + (if p < |s.rows| && send.Unknown? then {p} else {})
            && if p < |s.rows| && send.Acked?
               then NextRow(d.value.published) == p + 1 && d.value.log == s.log + [s.rows[p]]
               else d.value.published == s.published && d.value.log == s.log
  {
    var p := NextRow(s.published);
    if p < |s.rows| {
      if send.Acked? {
        SentEffect(s, None);
        NextRowIs(s.published[p := true], p + 1);
      } else {
        UnsentEffect(s, send, None);
      }
    }
  }

  lemma MoveGrows(s: System, m: Move)
    requires Sound(s) && Next(s, m).Some?
    ensures NextRow(Next(s, m).value.published) >= NextRow(s.published)
  {
    match m {
      case Append(row) => NextRowIs(Next(s, m).value.published, NextRow(s.published));
      case Mark(k) => if At(s, k).live { MarkKeepsSound(s, k); }
      case _ =>
    }
  }

  // Nothing published is ever taken back.
  lemma {:induction false} PublishedGrows(s: System, moves: seq<Move>)
    requires Sound(s) && RunMoves(s, moves).Some?
    ensures NextRow(RunMoves(s, moves).value.published) >= NextRow(s.published)
    decreases |moves|
  {
    hide Sound, Next;
    if moves != [] {
      MoveKeepsSound(s, moves[0]);
      MoveGrows(s, moves[0]);
      PublishedGrows(Next(s, moves[0]).value, moves[1..]);
    }
  }

  // After a mark nobody holds the row that comes next.
  lemma MarkFrees(s: System, k: nat)
    requires Sound(s) && At(s, k).Holding? && At(s, k).acked && At(s, k).live
    ensures var d := Next(s, Mark(k)).value; !Locked(d, NextRow(s.published) + 1)
  {
    var p, d := NextRow(s.published), Next(s, Mark(k)).value;
    forall l | l in d.workers ensures !(d.workers[l].Holding? && d.workers[l].live && d.workers[l].row == p + 1) {
      assert l in s.workers && (l != k ==> s.workers[l] == d.workers[l]);
      assert s.workers[l].Holding? ==> WorkerOk(s.workers[l], p, |Consume(s.log)|, |s.rows|);
    }
  }

  // One undisturbed dispatch by an idle worker, with nobody holding the next row.
  lemma RoundPublishes(s: System, k: nat) returns (d: System)
    requires Sound(s) && At(s, k).Idle? && NextRow(s.published) < |s.rows| && !Locked(s, NextRow(s.published))
    ensures RunMoves(s, [Lock(k), SendAcked(k), Mark(k)]) == Some(d)
    ensures Sound(d) && At(d, k).Idle? && d.rows == s.rows
    ensures NextRow(d.published) == NextRow(s.published) + 1 && !Locked(d, NextRow(d.published))
  {
    var p := NextRow(s.published);
    var locked := Next(s, Lock(k)).value;
    LockKeepsSound(s, k);
    var sent := Next(locked, SendAcked(k)).value;
    MoveKeepsSound(locked, SendAcked(k));
    MarkKeepsSound(sent, k);
    d := Next(sent, Mark(k)).value;
    ThreeMoves(s, locked, sent, d, [Lock(k), SendAcked(k), Mark(k)]);
    MarkFrees(sent, k);
  }

  lemma {:induction false} RunConcat(s: System, a: seq<Move>, b: seq<Move>)
    requires RunMoves(s, a).Some?
    ensures RunMoves(s, a + b) == RunMoves(RunMoves(s, a).value, b)
    decreases |a|
  {
    if a == [] {
      assert a + b == b;
    } else {
      assert (a + b)[1..] == a[1..] + b;
      RunConcat(Next(s, a[0]).value, a[1..], b);
    }
  }

  // No state is stuck: whatever happened before, once the crashed holders are gone an
  // undisturbed dispatcher publishes row after row, so a drained outbox is always reachable.
  lemma {:induction false} CanDrain(s: System, k: nat) returns (moves: seq<Move>)
    requires Sound(s) && At(s, k).Idle? && !Locked(s, NextRow(s.published))
    ensures RunMoves(s, moves).Some?
    ensures var d := RunMoves(s, moves).value;
            d.rows == s.rows && Consume(d.log) == s.rows && NextRow(d.published) == |d.rows|
    decreases |s.rows| - NextRow(s.published)
  {
    if NextRow(s.published) == |s.rows| {
      moves := [];
    } else {
      var d := RoundPublishes(s, k);
      var rest := CanDrain(d, k);
      moves := [Lock(k), SendAcked(k), Mark(k)] + rest;
      RunConcat(s, [Lock(k), SendAcked(k), Mark(k)], rest);
    }
  }
}
