// Block headers, linked runs of headers, and the fold that replays a journal of
// apply/rollback transitions. Everything else in the project speaks in these terms.
module Headers {
  import opened Wrappers

  const U64_MAX: nat := 0xFFFF_FFFF_FFFF_FFFF
  const I64_MAX: nat := 0x7FFF_FFFF_FFFF_FFFF

  // A 32-byte block hash; only equality matters.
  type Hash = nat

  datatype Header = Header(hash: Hash, parentHash: Hash, height: nat)

  datatype ChainEvent = Apply(header: Header) | Rollback(header: Header)

  // The standing assumption that a hash determines its header.
  type World = Hash -> Header

  predicate Genuine(w: World, h: Header) {
    w(h.hash) == h
  }

  predicate AllGenuine(w: World, s: seq<Header>) {
    forall h | h in s :: Genuine(w, h)
  }

  predicate Links(parent: Header, child: Header) {
    child.parentHash == parent.hash && child.height == parent.height + 1
  }

  // A genuine header is one above the genuine header it names as its parent.
  ghost predicate HeightsFollow(w: World) {
    forall p, h | Genuine(w, p) && Genuine(w, h) && h.parentHash == p.hash :: h.height == p.height + 1
  }

  // An ascending, parent-linked run.
  predicate Linked(s: seq<Header>) {
    forall i, j | 0 <= i < |s| && 0 <= j < |s| && j == i + 1 :: Links(s[i], s[j])
  }

  // A descending, parent-linked run, the order in which ancestry is walked.
  predicate Descends(s: seq<Header>) {
    forall i, j | 0 <= i < |s| && 0 <= j < |s| && j == i + 1 :: Links(s[j], s[i])
  }

  function Last<T>(s: seq<T>): T
    requires s != []
  {
    s[|s| - 1]
  }

  function Reverse<T>(s: seq<T>): (r: seq<T>)
    ensures |r| == |s|
    ensures forall i | 0 <= i < |s| :: r[i] == s[|s| - 1 - i]
    ensures forall x | x in r :: x in s
    ensures forall x | x in s :: x in r
  {
    var r := seq(|s|, i requires 0 <= i < |s| => s[|s| - 1 - i]);
    assert forall i | 0 <= i < |s| :: s[i] == r[|s| - 1 - i];
    r
  }

  function Applies(s: seq<Header>): (es: seq<ChainEvent>)
    ensures |es| == |s| && forall i | 0 <= i < |s| :: es[i] == Apply(s[i])
  {
    seq(|s|, i requires 0 <= i < |s| => Apply(s[i]))
  }

  function Rollbacks(s: seq<Header>): (es: seq<ChainEvent>)
    ensures |es| == |s| && forall i | 0 <= i < |s| :: es[i] == Rollback(s[i])
  {
    seq(|s|, i requires 0 <= i < |s| => Rollback(s[i]))
  }

  // The canonical rows of a run, by height and by hash.
  function MapOf(c: seq<Header>): map<nat, Header> {
    if c == [] then map[] else MapOf(c[..|c| - 1])[Last(c).height := Last(c)]
  }

  function HashesOf(c: seq<Header>): set<Hash> {
    set h | h in c :: h.hash
  }

  // ---------------------------------------------------------------- linked runs

  lemma HeightAt(s: seq<Header>, i: nat)
    requires Linked(s) && i < |s|
    ensures s[i].height == s[0].height + i
  {
    if i > 0 {
      HeightAt(s, i - 1);
      assert Links(s[i - 1], s[i]);
    }
  }

  lemma LinkedConcat(a: seq<Header>, b: seq<Header>)
    requires Linked(a) && Linked(b)
    requires a == [] || b == [] || Links(Last(a), b[0])
    ensures Linked(a + b)
  {
    var s := a + b;
    forall i, j | 0 <= i < j < |s| && j == i + 1 ensures Links(s[i], s[j]) {
      if j < |a| {
        assert Links(a[i], a[j]);
      } else if j > |a| {
        assert Links(b[i - |a|], b[j - |a|]);
      }
    }
  }

  lemma LinkedSlice(s: seq<Header>, i: nat, j: nat)
    requires Linked(s) && i <= j <= |s|
    ensures Linked(s[i..j])
  {
    var t := s[i..j];
    forall k, l | 0 <= k < l < |t| && l == k + 1 ensures Links(t[k], t[l]) {
      assert Links(s[i + k], s[i + l]);
    }
  }

  lemma ReverseDescends(s: seq<Header>)
    requires Descends(s)
    ensures Linked(Reverse(s))
  {
    var r := Reverse(s);
    forall i, j | 0 <= i < j < |r| && j == i + 1 ensures Links(r[i], r[j]) {
      assert Links(s[|s| - 1 - i], s[|s| - 1 - j]);
    }
  }

  // Two genuine runs ending in the same header agree as far back as both reach.
  lemma {:induction false} RunsAgree(w: World, a: seq<Header>, b: seq<Header>)
    requires Linked(a) && Linked(b) && AllGenuine(w, a) && AllGenuine(w, b)
    requires 0 < |a| <= |b| && Last(a) == Last(b)
    ensures a == b[|b| - |a|..]
  {
    if |a| == 1 {
    } else {
      var a', b' := a[..|a| - 1], b[..|b| - 1];
      assert Links(Last(a'), Last(a)) && Links(Last(b'), Last(b));
      assert Last(a') in a && Last(b') in b;
      LinkedSlice(a, 0, |a| - 1);
      LinkedSlice(b, 0, |b| - 1);
      RunsAgree(w, a', b');
      assert a == a' + [Last(a)];
      assert b[|b| - |a|..] == b'[|b'| - |a'|..] + [Last(b)];
    }
  }

  // A genuine run never repeats a hash.
  lemma DistinctHashes(w: World, s: seq<Header>, i: nat, j: nat)
    requires Linked(s) && AllGenuine(w, s) && i < |s| && j < |s|
    ensures s[i].hash == s[j].hash ==> i == j
  {
    HeightAt(s, i);
    HeightAt(s, j);
    assert s[i] in s && s[j] in s;
  }

  lemma {:induction false} MapOfLookup(c: seq<Header>)
    requires Linked(c)
    ensures forall k {:trigger k in MapOf(c)} :: k in MapOf(c) <==> c != [] && c[0].height <= k < c[0].height + |c|
    ensures forall k {:trigger MapOf(c)[k]} :: k in MapOf(c) ==> MapOf(c)[k] == c[k - c[0].height]
  {
    if c != [] {
      var d := c[..|c| - 1];
      LinkedSlice(c, 0, |c| - 1);
      MapOfLookup(d);
      HeightAt(c, |c| - 1);
    }
  }

  lemma MapOfPop(c: seq<Header>)
    requires Linked(c) && c != []
    ensures MapOf(c) - {Last(c).height} == MapOf(c[..|c| - 1])
  {
    LinkedSlice(c, 0, |c| - 1);
    MapOfLookup(c[..|c| - 1]);
    HeightAt(c, |c| - 1);
    assert MapOf(c) == MapOf(c[..|c| - 1])[Last(c).height := Last(c)];
  }

  lemma MapOfPush(c: seq<Header>, h: Header)
    ensures MapOf(c + [h]) == MapOf(c)[h.height := h]
  {
    assert (c + [h])[..|c|] == c;
  }

  lemma HashesOfPop(w: World, c: seq<Header>)
    requires Linked(c) && AllGenuine(w, c) && c != []
    ensures HashesOf(c) - {Last(c).hash} == HashesOf(c[..|c| - 1])
  {
    var d := c[..|c| - 1];
    forall x | x in HashesOf(d) ensures x in HashesOf(c) && x != Last(c).hash {
      var i :| 0 <= i < |d| && d[i].hash == x;
      DistinctHashes(w, c, i, |c| - 1);
      assert c[i] in c;
    }
    forall x | x in HashesOf(c) && x != Last(c).hash ensures x in HashesOf(d) {
      var i :| 0 <= i < |c| && c[i].hash == x;
      assert c[i] == d[i];
    }
  }

  lemma HashesOfPush(c: seq<Header>, h: Header)
    ensures HashesOf(c + [h]) == HashesOf(c) + {h.hash}
  {
    assert forall x :: x in c + [h] <==> x in c || x == h;
  }

  lemma HashMeansMember(w: World, c: seq<Header>, h: Header)
    requires AllGenuine(w, c) && Genuine(w, h)
    ensures h.hash in HashesOf(c) <==> h in c
  {
  }

  // ---------------------------------------------------------------- journal replay

  // One transition against a canonical chain: an apply must extend the top, a
  // rollback must remove it.
  function Step(c: seq<Header>, e: ChainEvent): Option<seq<Header>> {
    match e
    case Apply(h) => if c == [] || Links(Last(c), h) then Some(c + [h]) else None
    case Rollback(h) => if c != [] && Last(c) == h then Some(c[..|c| - 1]) else None
  }

  function Play(c: seq<Header>, es: seq<ChainEvent>): Option<seq<Header>>
    decreases |es|
  {
    if es == [] then Some(c)
    else
      var d := Step(c, es[0]);
      if d.None? then None else Play(d.value, es[1..])
  }

  lemma {:induction false} PlayConcat(c: seq<Header>, a: seq<ChainEvent>, b: seq<ChainEvent>)
    ensures Play(c, a).None? ==> Play(c, a + b).None?
    ensures Play(c, a).Some? ==> Play(c, a + b) == Play(Play(c, a).value, b)
    decreases |a|
  {
    if a == [] {
      assert a + b == b;
    } else {
      assert (a + b)[1..] == a[1..] + b;
      var d := Step(c, a[0]);
      if d.Some? {
        PlayConcat(d.value, a[1..], b);
      }
    }
  }

  lemma {:induction false} PlayKeepsLinked(w: World, c: seq<Header>, es: seq<ChainEvent>)
    requires Linked(c) && Play(c, es).Some?
    requires AllGenuine(w, c) && forall e | e in es :: Genuine(w, e.header)
    ensures Linked(Play(c, es).value) && AllGenuine(w, Play(c, es).value)
    decreases |es|
  {
    if es != [] {
      var d := Step(c, es[0]).value;
      match es[0] {
        case Apply(h) => LinkedConcat(c, [h]); assert Genuine(w, es[0].header);
        case Rollback(h) => LinkedSlice(c, 0, |c| - 1);
      }
      PlayKeepsLinked(w, d, es[1..]);
    }
  }

  // Every prefix of a journal that replays replays too.
  lemma PlayPrefix(c: seq<Header>, es: seq<ChainEvent>, n: nat)
    requires Play(c, es).Some? && n <= |es|
    ensures Play(c, es[..n]).Some?
  {
    assert es == es[..n] + es[n..];
    PlayConcat(c, es[..n], es[n..]);
  }

  lemma {:induction false} PlayApplies(c: seq<Header>, s: seq<Header>)
    requires Linked(s) && (c == [] || s == [] || Links(Last(c), s[0]))
    ensures Play(c, Applies(s)) == Some(c + s)
    decreases |s|
  {
    if s == [] {
      assert c + s == c;
    } else {
      assert Applies(s)[1..] == Applies(s[1..]);
      LinkedSlice(s, 1, |s|);
      assert |s| > 1 ==> Links(s[0], s[1]);
      PlayApplies(c + [s[0]], s[1..]);
      assert c + [s[0]] + s[1..] == c + s;
    }
  }

  lemma {:induction false} PlayRollbacks(c: seq<Header>, k: nat)
    requires k <= |c|
    ensures Play(c, Rollbacks(Reverse(c[k..]))) == Some(c[..k])
    decreases |c| - k
  {
    if k == |c| {
      assert c[..k] == c && Reverse(c[k..]) == [];
    } else {
      var d := c[..|c| - 1];
      assert Reverse(c[k..])[1..] == Reverse(d[k..]);
      assert Rollbacks(Reverse(c[k..]))[1..] == Rollbacks(Reverse(d[k..]));
      assert Reverse(c[k..])[0] == Last(c);
      PlayRollbacks(d, k);
      assert d[..k] == c[..k];
    }
  }

  // Rolling back to position k and applying a run linked to it replaces the suffix.
  lemma PlayReplaceSuffix(c: seq<Header>, k: nat, s: seq<Header>)
    requires k <= |c| && Linked(s) && (k == 0 || s == [] || Links(c[k - 1], s[0]))
    ensures Play(c, Rollbacks(Reverse(c[k..])) + Applies(s)) == Some(c[..k] + s)
  {
    PlayRollbacks(c, k);
    PlayConcat(c, Rollbacks(Reverse(c[k..])), Applies(s));
    PlayApplies(c[..k], s);
  }
}
