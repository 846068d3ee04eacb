// Attaching fetched logs to fetched blocks: grouping by height, checking hashes, and the
// header check that makes the grouping lossless.
module Fetch {
  import opened Wrappers
  import opened Headers
  import opened Store
  import opened Backfill

  datatype AnchoredLog = AnchoredLog(blockNumber: nat, blockHash: Hash, raw: RawLog)

  datatype FetchError = LogBlockHashMismatch(height: nat) | Invalid(error: BackfillError)

  // The logs of one height, in fetch order.
  function LogsAt(logs: seq<AnchoredLog>, height: nat): (r: seq<AnchoredLog>)
    ensures forall l | l in r :: l in logs && l.blockNumber == height
  {
    if logs == [] then []
    else
      var before := LogsAt(logs[..|logs| - 1], height);
      if Last(logs).blockNumber == height then before + [Last(logs)] else before
  }

  function Raws(logs: seq<AnchoredLog>): (r: seq<RawLog>)
    ensures |r| == |logs| && forall i | 0 <= i < |logs| :: r[i] == logs[i].raw
  {
    seq(|logs|, i requires 0 <= i < |logs| => logs[i].raw)
  }

  method GroupByHeight(logs: seq<AnchoredLog>) returns (grouped: map<nat, seq<AnchoredLog>>)
    ensures IsGrouping(grouped, logs)
  {
    grouped := map[];
    for i := 0 to |logs|
      invariant forall h: nat :: h in grouped <==> LogsAt(logs[..i], h) != []
      invariant forall h | h in grouped :: grouped[h] == LogsAt(logs[..i], h)
    {
      assert logs[..i + 1][..i] == logs[..i] && Last(logs[..i + 1]) == logs[i];
      var height := logs[i].blockNumber;
      var group := if height in grouped then grouped[height] else [];
      grouped := grouped[height := group + [logs[i]]];
    }
    assert logs[..|logs|] == logs;
  }

  predicate FirstAtHeight(headers: seq<Header>, i: nat)
    requires i < |headers|
  {
    forall j | 0 <= j < i :: headers[j].height != headers[i].height
  }

  // The logs block i ends up with: all of its height, unless an earlier block took them.
  function Taken(logs: seq<AnchoredLog>, headers: seq<Header>, i: nat): seq<AnchoredLog>
    requires i < |headers|
  {
    if FirstAtHeight(headers, i) then LogsAt(logs, headers[i].height) else []
  }

  predicate HashesMatch(logs: seq<AnchoredLog>, header: Header) {
    forall l | l in logs :: l.blockHash == header.hash
  }

  method AllMatch(logs: seq<AnchoredLog>, header: Header) returns (ok: bool)
    ensures ok == HashesMatch(logs, header)
  {
    for k := 0 to |logs|
      invariant forall j | 0 <= j < k :: logs[j].blockHash == header.hash
    {
      if logs[k].blockHash != header.hash {
        assert logs[k] in logs;
        return false;
      }
    }
    ok := true;
  }

  // What is left of a grouping after the first i blocks took theirs.
  function Remaining(grouped: map<nat, seq<AnchoredLog>>, headers: seq<Header>, i: nat): map<nat, seq<AnchoredLog>>
    requires i <= |headers|
  {
    if i == 0 then grouped else Remaining(grouped, headers, i - 1) - {headers[i - 1].height}
  }

  lemma {:induction false} RemainingHas(grouped: map<nat, seq<AnchoredLog>>, headers: seq<Header>, i: nat, h: nat)
    requires i <= |headers|
    ensures h in Remaining(grouped, headers, i) <==> h in grouped && forall j | 0 <= j < i :: headers[j].height != h
    ensures h in Remaining(grouped, headers, i) ==> Remaining(grouped, headers, i)[h] == grouped[h]
  {
    if i > 0 {
      RemainingHas(grouped, headers, i - 1, h);
    }
  }

  ghost predicate IsGrouping(grouped: map<nat, seq<AnchoredLog>>, logs: seq<AnchoredLog>) {
    && (forall h: nat :: h in grouped <==> LogsAt(logs, h) != [])
    && (forall h | h in grouped :: grouped[h] == LogsAt(logs, h))
  }

  function TakeFrom(grouped: map<nat, seq<AnchoredLog>>, height: nat): seq<AnchoredLog> {
    if height in grouped then grouped[height] else []
  }

  lemma TakesOwn(grouped: map<nat, seq<AnchoredLog>>, logs: seq<AnchoredLog>, headers: seq<Header>, i: nat)
    requires i < |headers| && IsGrouping(grouped, logs)
    ensures TakeFrom(Remaining(grouped, headers, i), headers[i].height) == Taken(logs, headers, i)
  {
    RemainingHas(grouped, headers, i, headers[i].height);
  }

  // Block i is built from the logs it takes, which carry its hash.
  predicate Built(logs: seq<AnchoredLog>, headers: seq<Header>, i: nat, b: Block)
    requires i < |headers|
  {
    b == Block(headers[i], Raws(Taken(logs, headers, i))) && HashesMatch(Taken(logs, headers, i), headers[i])
  }

  method AttachLogs(logs: seq<AnchoredLog>, headers: seq<Header>) returns (r: Result<seq<Block>, FetchError>)
    ensures r.Success? ==>
              |r.value| == |headers| && forall i | 0 <= i < |headers| :: Built(logs, headers, i, r.value[i])
    ensures r.Failure? ==>
              && r.error.LogBlockHashMismatch?
              && exists i :: 0 <= i < |headers| && headers[i].height == r.error.height
                             && !HashesMatch(Taken(logs, headers, i), headers[i])
  {
    var grouped := GroupByHeight(logs);
    ghost var all := grouped;
    var blocks: seq<Block> := [];
    for i := 0 to |headers|
      invariant |blocks| == i && grouped == Remaining(all, headers, i)
      invariant forall j | 0 <= j < i :: Built(logs, headers, j, blocks[j])
    {
      var height := headers[i].height;
      var mine := TakeFrom(grouped, height);
      TakesOwn(all, logs, headers, i);
      grouped := grouped - {height};
      var ok := AllMatch(mine, headers[i]);
      if !ok {
        return Failure(LogBlockHashMismatch(height));
      }
      blocks := blocks + [Block(headers[i], Raws(mine))];
    }
    r := Success(blocks);
  }

  // Every attached log carries its block's hash.
  predicate Consistent(logs: seq<AnchoredLog>, headers: seq<Header>) {
    forall i | 0 <= i < |headers| :: HashesMatch(Taken(logs, headers, i), headers[i])
  }

  // Each block holds the logs of its own height, in fetch order.
  predicate Attached(logs: seq<AnchoredLog>, f: Fetched) {
    && |f.blocks| == |f.headers|
    && forall i | 0 <= i < |f.headers| :: f.blocks[i] == Block(f.headers[i], Raws(LogsAt(logs, f.headers[i].height)))
  }

  // A fetch succeeds exactly when the headers cover the range and the attached logs carry
  // their blocks' hashes.
  method Assemble(range: Range, logs: seq<AnchoredLog>, headers: seq<Header>) returns (r: Result<Fetched, FetchError>)
    requires range.from <= range.to
    ensures r.Success? <==> Covers(range, headers) && Consistent(logs, headers)
    ensures r.Success? ==> r.value.range == range && r.value.headers == headers && Attached(logs, r.value)
    ensures r.Failure? ==> if r.error.LogBlockHashMismatch? then !Consistent(logs, headers) else !Covers(range, headers)
  {
    var blocks := AttachLogs(logs, headers);
    if blocks.Failure? {
      return Failure(blocks.error);
    }
    hide ReallyWrong;
    var fetched := NewFetched(range, headers, blocks.value);
    if fetched.Failure? {
      return Failure(Invalid(fetched.error));
    }
    forall i | 0 <= i < |headers|
      ensures blocks.value[i] == Block(headers[i], Raws(LogsAt(logs, headers[i].height)))
      ensures HashesMatch(Taken(logs, headers, i), headers[i])
    {
      FirstInCover(range, headers, i);
      assert Built(logs, headers, i, blocks.value[i]);
    }
    r := Success(fetched.value);
  }

  lemma FirstInCover(range: Range, headers: seq<Header>, i: nat)
    requires Covers(range, headers) && i < |headers|
    ensures FirstAtHeight(headers, i)
  {
    assert forall j | 0 <= j < i :: headers[j].height == range.from + j;
  }

  // ------------------------------------------------------------------ conservation

  function One(b: bool): nat {
    if b then 1 else 0
  }

  // How often a raw log occurs: in a fetch, at one height, at n heights from lo, in a
  // block, and in the first n blocks.
  function Count(logs: seq<AnchoredLog>, x: RawLog): nat {
    if logs == [] then 0 else Count(logs[..|logs| - 1], x) + One(Last(logs).raw == x)
  }

  function CountAt(logs: seq<AnchoredLog>, height: nat, x: RawLog): nat {
    if logs == [] then 0
    else CountAt(logs[..|logs| - 1], height, x) + One(Last(logs).raw == x && Last(logs).blockNumber == height)
  }

  function CountIn(logs: seq<AnchoredLog>, lo: nat, n: nat, x: RawLog): nat {
    if logs == [] then 0
    else CountIn(logs[..|logs| - 1], lo, n, x) + One(Last(logs).raw == x && lo <= Last(logs).blockNumber < lo + n)
  }

  function CountRaw(ls: seq<RawLog>, x: RawLog): nat {
    if ls == [] then 0 else CountRaw(ls[..|ls| - 1], x) + One(Last(ls) == x)
  }

  function CountBlocks(blocks: seq<Block>, n: nat, x: RawLog): nat
    requires n <= |blocks|
  {
    if n == 0 then 0 else CountBlocks(blocks, n - 1, x) + CountRaw(blocks[n - 1].logs, x)
  }

  lemma {:induction false} CountOfLogsAt(logs: seq<AnchoredLog>, height: nat, x: RawLog)
    ensures CountRaw(Raws(LogsAt(logs, height)), x) == CountAt(logs, height, x)
    decreases |logs|
  {
    if logs != [] {
      var rest := logs[..|logs| - 1];
      CountOfLogsAt(rest, height, x);
      var before := Raws(LogsAt(rest, height));
      assert (before + [Last(logs).raw])[..|before|] == before;
      assert Raws(LogsAt(rest, height) + [Last(logs)]) == before + [Last(logs).raw];
    }
  }

  lemma {:induction false} CountSplits(logs: seq<AnchoredLog>, lo: nat, n: nat, x: RawLog)
    ensures CountIn(logs, lo, n + 1, x) == CountIn(logs, lo, n, x) + CountAt(logs, lo + n, x)
    decreases |logs|
  {
    if logs != [] {
      CountSplits(logs[..|logs| - 1], lo, n, x);
    }
  }

  lemma {:induction false} CountNone(logs: seq<AnchoredLog>, lo: nat, x: RawLog)
    ensures CountIn(logs, lo, 0, x) == 0
    decreases |logs|
  {
    if logs != [] { CountNone(logs[..|logs| - 1], lo, x); }
  }

  lemma {:induction false} CountAll(logs: seq<AnchoredLog>, lo: nat, n: nat, x: RawLog)
    requires forall i | 0 <= i < |logs| :: lo <= logs[i].blockNumber < lo + n
    ensures CountIn(logs, lo, n, x) == Count(logs, x)
    decreases |logs|
  {
    if logs != [] { CountAll(logs[..|logs| - 1], lo, n, x); }
  }

  lemma BlockHolds(range: Range, logs: seq<AnchoredLog>, f: Fetched, i: nat, x: RawLog)
    requires Covers(range, f.headers) && Attached(logs, f) && i < |f.blocks|
    ensures CountRaw(f.blocks[i].logs, x) == CountAt(logs, range.from + i, x)
  {
    assert f.headers[i].height == range.from + i;
    assert f.blocks[i] == Block(f.headers[i], Raws(LogsAt(logs, range.from + i)));
    CountOfLogsAt(logs, range.from + i, x);
  }

  lemma {:induction false} BlocksHold(range: Range, logs: seq<AnchoredLog>, f: Fetched, n: nat, x: RawLog)
    requires Covers(range, f.headers) && Attached(logs, f) && n <= |f.blocks|
    ensures CountBlocks(f.blocks, n, x) == CountIn(logs, range.from, n, x)
  {
    if n == 0 {
      CountNone(logs, range.from, x);
    } else {
      BlocksHold(range, logs, f, n - 1, x);
      BlockHolds(range, logs, f, n - 1, x);
      CountSplits(logs, range.from, n - 1, x);
    }
  }

  lemma {:induction false} FoundAt(logs: seq<AnchoredLog>, l: AnchoredLog)
    requires l in logs
    ensures l in LogsAt(logs, l.blockNumber)
    decreases |logs|
  {
    if l != Last(logs) {
      FoundAt(logs[..|logs| - 1], l);
    }
  }

  // Log conservation: when a fetch of in-range logs succeeds, every raw log occurs in its
  // blocks exactly as often as it was fetched: none is dropped or duplicated.
  lemma {:induction false} LogsConserved(range: Range, logs: seq<AnchoredLog>, f: Fetched, x: RawLog)
    requires Covers(range, f.headers) && Attached(logs, f)
    requires forall i | 0 <= i < |logs| :: range.from <= logs[i].blockNumber <= range.to
    ensures CountBlocks(f.blocks, |f.blocks|, x) == Count(logs, x)
  {
    BlocksHold(range, logs, f, |f.blocks|, x);
    CountAll(logs, range.from, |f.blocks|, x);
  }

  // And each log sits in the block of its own height, whose hash it carries.
  lemma {:induction false} LogsInPlace(range: Range, logs: seq<AnchoredLog>, f: Fetched, l: AnchoredLog)
    requires Covers(range, f.headers) && Attached(logs, f) && Consistent(logs, f.headers)
    requires l in logs && range.from <= l.blockNumber <= range.to
    ensures var b := f.blocks[l.blockNumber - range.from];
            b.header.height == l.blockNumber && b.header.hash == l.blockHash && l.raw in b.logs
  {
    var i := l.blockNumber - range.from;
    var mine := LogsAt(logs, l.blockNumber);
    FoundAt(logs, l);
    FirstInCover(range, f.headers, i);
    assert HashesMatch(Taken(logs, f.headers, i), f.headers[i]);
    var j :| 0 <= j < |mine| && mine[j] == l;
    assert Raws(mine)[j] == l.raw;
  }
}
