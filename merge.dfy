/**
 * The merge rule applied to one batch of contacts reported by the engine's
 * collision-start event. Pairs are taken in order; two bodies whose labels
 * read as the same rank merge unless either has already been claimed by a
 * merge earlier in the batch. A merge removes both bodies and, below the top
 * rank, adds one body of the next rank at their midpoint and scores.
 *
 * `Step` and `Resolve` specify the handler; the handler itself is the
 * `CollisionStart` method of the canvas class.
 */
module Merge {
  import opened Types
  import opened Constants
  import opened Labels
  import opened Bodies
  import App

  /** One merge: the pair that merged, their rank, and the body it added, if any. */
  datatype MergeRecord = MergeRecord(pair: Pair, rank: int, spawned: Option<Body>)

  /**
   * The handler's state part-way through a batch: the world, the engine's
   * next body id, the ids claimed so far (`bodiesToRemove`), the merges so
   * far, and the callbacks made to the shell so far.
   */
  datatype Batch = Batch(
    bodies: map<BodyId, Body>,
    nextBodyId: nat,
    claimed: set<BodyId>,
    merges: seq<MergeRecord>,
    events: seq<App.Event>)

  function Begin(bodies: map<BodyId, Body>, nextId: nat): Batch {
    Batch(bodies, nextId, {}, [], [])
  }

  /** Both labels read as numbers, and as the same number. */
  predicate Mergeable(p: Pair) {
    RankOf(p.bodyA).Some? && RankOf(p.bodyB).Some? && RankOf(p.bodyA).value == RankOf(p.bodyB).value
  }

  predicate Ranked(pairs: seq<Pair>) {
    forall i :: 0 <= i < |pairs| ==> RankInRange(pairs[i].bodyA) && RankInRange(pairs[i].bodyB)
  }

  /** The body a merge of two rank-r bodies adds: rank r + 1, at their midpoint, stamped now. */
  function MergedBody(id: BodyId, r: nat, p: Pair, now: int): (n: Body)
    requires r + 1 < |PLANETS|
    ensures n.id == id && RankOf(n) == Some(r + 1) && RankInRange(n)
    ensures n.x == (p.bodyA.x + p.bodyB.x) / 2.0 && n.y == (p.bodyA.y + p.bodyB.y) / 2.0
    ensures n.createdAt == Some(now) && !n.isStatic && n.shape == Circle(PLANETS[r + 1].radius)
  {
    var n := Body(id, NatToString(r + 1), Circle(PLANETS[r + 1].radius), false, Some(now),
                  (p.bodyA.x + p.bodyB.x) / 2.0, (p.bodyA.y + p.bodyB.y) / 2.0, 0.0);
    RankLabelReadsBack(n, r + 1);
    n
  }

  /**
   * The handler's treatment of one pair: a merge exactly when the labels
   * read as the same rank and neither body is claimed yet, which claims both
   * and records one merge; otherwise nothing changes.
   */
  function Step(s: Batch, p: Pair, now: int): (t: Batch)
    requires RankInRange(p.bodyA) && RankInRange(p.bodyB)
    ensures |t.merges| == |s.merges| + 1 <==> Takes(s, p)
    ensures !Takes(s, p) ==> t == s
    ensures Takes(s, p) ==> t.claimed == s.claimed + {p.bodyA.id, p.bodyB.id} && t.merges[..|s.merges|] == s.merges
  {
    if !Mergeable(p) || p.bodyA.id in s.claimed || p.bodyB.id in s.claimed then s
    else
      var r := RankOf(p.bodyA).value;
      var claimed := s.claimed + {p.bodyA.id, p.bodyB.id};
      var remaining := s.bodies - {p.bodyA.id, p.bodyB.id};
      if r + 1 < |PLANETS| then
        var n := MergedBody(s.nextBodyId, r, p, now);
        var bonus := if PLANETS[r + 1].name == BLACK_HOLE then [App.AddScore(5000), App.GameWin] else [];
        Batch(remaining[n.id := n], s.nextBodyId + 1, claimed, s.merges + [MergeRecord(p, r, Some(n))],
              s.events + [App.AddScore(PLANETS[r].score * 2)] + bonus)
      else
        Batch(remaining, s.nextBodyId, claimed, s.merges + [MergeRecord(p, r, None)], s.events)
  }

  /** The handler's treatment of a whole batch, pair by pair in order: at most one merge per pair. */
  function Resolve(s: Batch, pairs: seq<Pair>, now: int): (t: Batch)
    requires Ranked(pairs)
    ensures |s.merges| <= |t.merges| <= |s.merges| + |pairs|
    decreases |pairs|
  {
    if pairs == [] then s
    else Step(Resolve(s, pairs[..|pairs| - 1], now), pairs[|pairs| - 1], now)
  }

  /** A merging step below the top rank, spelled out. */
  lemma StepSpawning(s: Batch, p: Pair, now: int)
    requires RankInRange(p.bodyA) && RankInRange(p.bodyB) && Takes(s, p)
    requires RankOf(p.bodyA).value + 1 < |PLANETS|
    ensures var r := RankOf(p.bodyA).value;
      var n := MergedBody(s.nextBodyId, r, p, now);
      var bonus := if PLANETS[r + 1].name == BLACK_HOLE then [App.AddScore(5000), App.GameWin] else [];
      Step(s, p, now) ==
        Batch((s.bodies - {p.bodyA.id, p.bodyB.id})[n.id := n], s.nextBodyId + 1, s.claimed + {p.bodyA.id, p.bodyB.id},
              s.merges + [MergeRecord(p, r, Some(n))], s.events + [App.AddScore(PLANETS[r].score * 2)] + bonus)
  {
    var r := RankOf(p.bodyA).value;
    assert Mergeable(p) && !(p.bodyA.id in s.claimed || p.bodyB.id in s.claimed) && r + 1 < |PLANETS|;
  }

  /** A merging step at the top rank, spelled out. */
  lemma StepAtTop(s: Batch, p: Pair, now: int)
    requires RankInRange(p.bodyA) && RankInRange(p.bodyB) && Takes(s, p)
    requires RankOf(p.bodyA).value + 1 >= |PLANETS|
    ensures Step(s, p, now) ==
      Batch(s.bodies - {p.bodyA.id, p.bodyB.id}, s.nextBodyId, s.claimed + {p.bodyA.id, p.bodyB.id},
            s.merges + [MergeRecord(p, RankOf(p.bodyA).value, None)], s.events)
  {
  }

  /** Resolving one more pair of a batch is one more step. */
  lemma ResolveOneMore(s: Batch, pairs: seq<Pair>, i: nat, now: int)
    requires Ranked(pairs) && i < |pairs|
    ensures Ranked(pairs[..i]) && Ranked(pairs[..i + 1])
    ensures Resolve(s, pairs[..i + 1], now) == Step(Resolve(s, pairs[..i], now), pairs[i], now)
  {
    assert pairs[..i + 1][..i] == pairs[..i];
  }

  // ---------------------------------------------------------------------
  // Reference quantities, stated from the game's rules rather than the code

  /**
   * Points two merged rank-r bodies are worth: 2^(r+2), twice the rank's
   * value; forming the Black Hole (r = 9) earns 5000 more; the top rank
   * earns nothing.
   */
  function RankGain(r: int): nat {
    if 0 <= r < 9 then Pow2(r + 2) else if r == 9 then Pow2(11) + 5000 else 0
  }

  function Gain(ms: seq<MergeRecord>): nat
    decreases |ms|
  {
    if ms == [] then 0 else Gain(ms[..|ms| - 1]) + RankGain(ms[|ms| - 1].rank)
  }

  /** Merges that added a body. */
  function Spawns(ms: seq<MergeRecord>): nat
    decreases |ms|
  {
    if ms == [] then 0 else Spawns(ms[..|ms| - 1]) + (if ms[|ms| - 1].spawned.Some? then 1 else 0)
  }

  /** Merges below the top rank, which are the ones that should add a body. */
  function BelowTop(ms: seq<MergeRecord>): nat
    decreases |ms|
  {
    if ms == [] then 0 else BelowTop(ms[..|ms| - 1]) + (if ms[|ms| - 1].rank + 1 < |PLANETS| then 1 else 0)
  }

  /** Merges that formed the Black Hole. */
  function BlackHoles(ms: seq<MergeRecord>): nat
    decreases |ms|
  {
    if ms == [] then 0 else BlackHoles(ms[..|ms| - 1]) + (if ms[|ms| - 1].rank == |PLANETS| - 2 then 1 else 0)
  }

  function Ids(m: MergeRecord): set<BodyId> {
    {m.pair.bodyA.id, m.pair.bodyB.id}
  }

  /** Every body id some merge of ms consumed. */
  function ClaimedBy(ms: seq<MergeRecord>): set<BodyId>
    decreases |ms|
  {
    if ms == [] then {} else ClaimedBy(ms[..|ms| - 1]) + Ids(ms[|ms| - 1])
  }

  /** Each merge joins two distinct bodies, and no body is in two merges. */
  ghost predicate OncePerBody(ms: seq<MergeRecord>) {
    (forall i :: 0 <= i < |ms| ==> ms[i].pair.bodyA.id != ms[i].pair.bodyB.id) &&
    (forall i, j :: 0 <= i < j < |ms| ==> Ids(ms[i]) !! Ids(ms[j]))
  }

  /** What a single merge record says: equal ranks, and the right body added. */
  ghost predicate WellMerged(m: MergeRecord, now: int) {
    && Mergeable(m.pair)
    && RankOf(m.pair.bodyA) == Some(m.rank)
    && 0 <= m.rank < |PLANETS|
    && (m.spawned.Some? <==> m.rank + 1 < |PLANETS|)
    && (m.spawned.Some? ==> m.spawned.value == MergedBody(m.spawned.value.id, m.rank, m.pair, now))
  }

  predicate OnlyCanvasEvents(es: seq<App.Event>) {
    forall i :: 0 <= i < |es| ==> es[i].AddScore? || es[i].GameWin?
  }

  /** The world part: untouched, consumed and new bodies. */
  ghost predicate InvWorld(w: map<BodyId, Body>, n0: nat, s: Batch) {
    && ValidWorld(s.bodies, s.nextBodyId)
    && n0 <= s.nextBodyId
    && s.claimed <= w.Keys
    && (forall id :: id in w && id !in s.claimed ==> id in s.bodies && s.bodies[id] == w[id])
    && (forall id :: id in s.bodies && id < n0 ==> id in w && id !in s.claimed)
    && (forall id :: n0 <= id < s.nextBodyId ==> id in s.bodies)
  }

  /** Every body a merge added is still in the world. */
  ghost predicate InvSpawned(n0: nat, s: Batch) {
    forall k :: 0 <= k < |s.merges| && s.merges[k].spawned.Some? ==>
      var n := s.merges[k].spawned.value;
      n0 <= n.id < s.nextBodyId && n.id in s.bodies && s.bodies[n.id] == n
  }

  /** The merges: each well formed, none sharing a body, and exactly the claimed ids. */
  ghost predicate InvMerges(now: int, s: Batch) {
    && s.claimed == ClaimedBy(s.merges)
    && OncePerBody(s.merges)
    && (forall k :: 0 <= k < |s.merges| ==> WellMerged(s.merges[k], now))
  }

  /** Counting: one new id per added body; two bodies out per merge, one in below the top rank. */
  ghost predicate InvCounts(w: map<BodyId, Body>, n0: nat, s: Batch) {
    && s.nextBodyId == n0 + Spawns(s.merges)
    && Spawns(s.merges) == BelowTop(s.merges)
    && |s.bodies| + 2 * |s.merges| == |w| + Spawns(s.merges)
  }

  /** The callbacks: only score and win signals, adding up to the reference amounts. */
  ghost predicate InvScore(s: Batch) {
    && OnlyCanvasEvents(s.events)
    && App.PointsOf(s.events) == Gain(s.merges)
    && App.WinsOf(s.events) == BlackHoles(s.merges)
  }

  /**
   * What holds after any prefix of a batch that began on world w with next
   * id n0.
   */
  ghost predicate BatchInv(w: map<BodyId, Body>, n0: nat, now: int, s: Batch) {
    InvWorld(w, n0, s) && InvSpawned(n0, s) && InvMerges(now, s) && InvCounts(w, n0, s) && InvScore(s)
  }

  /** A pair of the batch: two distinct bodies of the world the batch began on. */
  predicate FromWorld(w: map<BodyId, Body>, p: Pair) {
    InWorld(w, p.bodyA) && InWorld(w, p.bodyB) && p.bodyA.id != p.bodyB.id &&
    RankInRange(p.bodyA) && RankInRange(p.bodyB)
  }

  /** A contact batch from the engine: every pair is a pair of the world's bodies. */
  predicate BatchFrom(w: map<BodyId, Body>, pairs: seq<Pair>) {
    forall i :: 0 <= i < |pairs| ==> FromWorld(w, pairs[i])
  }

  /** The pair merges: equal ranks, both bodies still free. */
  predicate Takes(s: Batch, p: Pair) {
    Mergeable(p) && p.bodyA.id !in s.claimed && p.bodyB.id !in s.claimed
  }

  // ---------------------------------------------------------------------
  // Lemmas

  /**
   * The points the handler awards for a merge of rank r are the reference
   * amount, and the name test for the Black Hole fires exactly when rank
   * r + 1 is the top rank.
   */
  lemma MergeScoreMatchesRule(r: nat)
    requires r + 1 < |PLANETS|
    ensures PLANETS[r + 1].name == BLACK_HOLE <==> r == 9
    ensures RankGain(r) == 2 * PLANETS[r].score + (if PLANETS[r + 1].name == BLACK_HOLE then 5000 else 0)
  {
    BlackHoleIsLast(r + 1);
    ScoreIsPowerOfTwo(r);
    assert Pow2(r + 2) == 2 * Pow2(r + 1);
  }

  lemma {:induction false} ClaimedByContains(ms: seq<MergeRecord>, i: nat)
    requires i < |ms|
    ensures Ids(ms[i]) <= ClaimedBy(ms)
    decreases |ms|
  {
    if i < |ms| - 1 {
      assert ms[..|ms| - 1][i] == ms[i];
      ClaimedByContains(ms[..|ms| - 1], i);
    }
  }

  lemma SingleEventPoints(e: App.Event)
    ensures App.PointsOf([e]) == (if e.AddScore? then e.points else 0)
    ensures App.WinsOf([e]) == (if e.GameWin? then 1 else 0)
  {
    assert [e][1..] == [];
  }

  /** The shape of a merging step. */
  lemma StepShape(s: Batch, p: Pair, now: int)
    requires RankInRange(p.bodyA) && RankInRange(p.bodyB) && Takes(s, p)
    ensures var t := Step(s, p, now);
      var r := RankOf(p.bodyA).value;
      var m := t.merges[|s.merges|];
      && 0 <= r < |PLANETS|
      && |t.merges| == |s.merges| + 1 && t.merges[..|s.merges|] == s.merges
      && m == MergeRecord(p, r, if r + 1 < |PLANETS| then Some(MergedBody(s.nextBodyId, r, p, now)) else None)
      && t.claimed == s.claimed + {p.bodyA.id, p.bodyB.id}
      && t.nextBodyId == s.nextBodyId + (if r + 1 < |PLANETS| then 1 else 0)
      && t.bodies == AfterMerge(s.bodies, p.bodyA.id, p.bodyB.id, m.spawned)
  {
    var t := Step(s, p, now);
    assert t.merges == s.merges + [t.merges[|s.merges|]];
  }

  /** The callbacks a merge of rank r makes: its award and, on forming the Black Hole, the bonus and the win. */
  function MergeEvents(r: nat): seq<App.Event>
    requires r < |PLANETS|
  {
    if r + 1 < |PLANETS| then
      [App.AddScore(PLANETS[r].score * 2)] +
      (if PLANETS[r + 1].name == BLACK_HOLE then [App.AddScore(5000), App.GameWin] else [])
    else []
  }

  /** A merge's callbacks are worth the reference gain, and win exactly on forming the Black Hole. */
  lemma MergeEventsWorth(r: nat)
    requires r < |PLANETS|
    ensures OnlyCanvasEvents(MergeEvents(r))
    ensures App.PointsOf(MergeEvents(r)) == RankGain(r)
    ensures App.WinsOf(MergeEvents(r)) == (if r == |PLANETS| - 2 then 1 else 0)
  {
    if r + 1 < |PLANETS| {
      MergeScoreMatchesRule(r);
      var award := [App.AddScore(PLANETS[r].score * 2)];
      var bonus := if r == 9 then [App.AddScore(5000), App.GameWin] else [];
      assert MergeEvents(r) == award + bonus;
      App.PointsOfAppend(award, bonus);
      SingleEventPoints(award[0]);
      if r == 9 {
        App.PointsOfAppend([App.AddScore(5000)], [App.GameWin]);
        SingleEventPoints(App.AddScore(5000));
        SingleEventPoints(App.GameWin);
      } else {
        assert bonus == [];
      }
    }
  }

  /** Appending one merge and its callbacks keeps the score bookkeeping. */
  lemma ScoreAfterMerge(s: Batch, t: Batch, m: MergeRecord)
    requires InvScore(s) && 0 <= m.rank < |PLANETS|
    requires t.merges == s.merges + [m] && t.events == s.events + MergeEvents(m.rank)
    ensures InvScore(t)
  {
    MergeEventsWorth(m.rank);
    App.PointsOfAppend(s.events, MergeEvents(m.rank));
    assert t.merges[..|t.merges| - 1] == s.merges;
  }

  lemma StepKeepsScore(s: Batch, p: Pair, now: int)
    requires RankInRange(p.bodyA) && RankInRange(p.bodyB) && InvScore(s)
    ensures InvScore(Step(s, p, now))
  {
    if Takes(s, p) {
      var t := Step(s, p, now);
      var r := RankOf(p.bodyA).value;
      if r + 1 < |PLANETS| {
        StepSpawning(s, p, now);
        ScoreAfterMerge(s, t, MergeRecord(p, r, Some(MergedBody(s.nextBodyId, r, p, now))));
      } else {
        StepAtTop(s, p, now);
        ScoreAfterMerge(s, t, MergeRecord(p, r, None));
      }
    }
  }

  lemma MergeKeepsOnce(ms: seq<MergeRecord>, m: MergeRecord)
    requires OncePerBody(ms)
    requires m.pair.bodyA.id != m.pair.bodyB.id && Ids(m) !! ClaimedBy(ms)
    ensures OncePerBody(ms + [m])
  {
    var ms' := ms + [m];
    forall i | 0 <= i < |ms|
      ensures Ids(ms[i]) !! Ids(m)
    {
      ClaimedByContains(ms, i);
    }
    forall i, j | 0 <= i < j < |ms'|
      ensures Ids(ms'[i]) !! Ids(ms'[j])
    {
      if j < |ms| {
        assert ms'[i] == ms[i] && ms'[j] == ms[j];
      } else {
        assert ms'[i] == ms[i] && ms'[j] == m;
      }
    }
  }

  lemma MergeKeepsWellMerged(now: int, ms: seq<MergeRecord>, m: MergeRecord)
    requires forall k :: 0 <= k < |ms| ==> WellMerged(ms[k], now)
    requires WellMerged(m, now)
    ensures forall k :: 0 <= k < |ms + [m]| ==> WellMerged((ms + [m])[k], now)
  {
    forall k | 0 <= k < |ms + [m]|
      ensures WellMerged((ms + [m])[k], now)
    {
      if k < |ms| {
        assert (ms + [m])[k] == ms[k];
      } else {
        assert (ms + [m])[k] == m;
      }
    }
  }

  lemma MergeKeepsRecords(now: int, s: Batch, t: Batch, m: MergeRecord)
    requires InvMerges(now, s) && WellMerged(m, now)
    requires m.pair.bodyA.id != m.pair.bodyB.id && Ids(m) !! s.claimed
    requires t.merges == s.merges + [m] && t.claimed == s.claimed + Ids(m)
    ensures InvMerges(now, t)
  {
    assert t.merges[..|t.merges| - 1] == s.merges;
    MergeKeepsOnce(s.merges, m);
    MergeKeepsWellMerged(now, s.merges, m);
  }

  lemma StepKeepsMerges(w: map<BodyId, Body>, s: Batch, p: Pair, now: int)
    requires FromWorld(w, p) && InvMerges(now, s)
    ensures InvMerges(now, Step(s, p, now))
  {
    if Takes(s, p) {
      StepShape(s, p, now);
      var t := Step(s, p, now);
      var m := t.merges[|s.merges|];
      assert t.merges == s.merges + [m];
      assert WellMerged(m, now);
      MergeKeepsRecords(now, s, t, m);
    }
  }

  /** The world after one merge that consumes a and b and perhaps adds a body. */
  function AfterMerge(bodies: map<BodyId, Body>, a: BodyId, b: BodyId, added: Option<Body>): map<BodyId, Body>
  {
    if added.Some? then (bodies - {a, b})[added.value.id := added.value] else bodies - {a, b}
  }

  lemma AfterMergeValid(bodies: map<BodyId, Body>, next: nat, a: BodyId, b: BodyId, added: Option<Body>)
    requires ValidWorld(bodies, next)
    requires added.Some? ==> added.value.id == next && RankInRange(added.value)
    ensures ValidWorld(AfterMerge(bodies, a, b, added), next + (if added.Some? then 1 else 0))
  {
  }

  /** Which ids a merge leaves, and that it leaves their bodies alone. */
  lemma AfterMergeKeys(bodies: map<BodyId, Body>, a: BodyId, b: BodyId, added: Option<Body>)
    ensures forall id :: id in AfterMerge(bodies, a, b, added) <==>
      (id in bodies && id != a && id != b) || (added.Some? && id == added.value.id)
    ensures forall id :: id in bodies && id != a && id != b && !(added.Some? && id == added.value.id) ==>
      AfterMerge(bodies, a, b, added)[id] == bodies[id]
    ensures added.Some? ==> AfterMerge(bodies, a, b, added)[added.value.id] == added.value
  {
  }

  lemma MergeKeepsWorld(w: map<BodyId, Body>, n0: nat, s: Batch, t: Batch, a: BodyId, b: BodyId, added: Option<Body>)
    requires ValidWorld(w, n0) && InvWorld(w, n0, s)
    requires a in w && b in w
    requires added.Some? ==> added.value.id == s.nextBodyId && RankInRange(added.value)
    requires t.claimed == s.claimed + {a, b}
    requires t.bodies == AfterMerge(s.bodies, a, b, added)
    requires t.nextBodyId == s.nextBodyId + (if added.Some? then 1 else 0)
    ensures InvWorld(w, n0, t)
  {
    assert a < n0 && b < n0;
    AfterMergeValid(s.bodies, s.nextBodyId, a, b, added);
    AfterMergeKeys(s.bodies, a, b, added);
    forall id | id in w && id !in t.claimed
      ensures id in t.bodies && t.bodies[id] == w[id]
    {
      assert id < n0;
    }
  }

  lemma MergeKeepsSpawned(n0: nat, s: Batch, t: Batch, a: BodyId, b: BodyId, added: Option<Body>)
    requires InvSpawned(n0, s) && ValidWorld(s.bodies, s.nextBodyId) && n0 <= s.nextBodyId
    requires a < n0 && b < n0
    requires added.Some? ==> added.value.id == s.nextBodyId
    requires t.bodies == AfterMerge(s.bodies, a, b, added)
    requires t.nextBodyId == s.nextBodyId + (if added.Some? then 1 else 0)
    requires |t.merges| == |s.merges| + 1 && t.merges[..|s.merges|] == s.merges
    requires t.merges[|s.merges|].spawned == added
    ensures InvSpawned(n0, t)
  {
    AfterMergeKeys(s.bodies, a, b, added);
    forall k | 0 <= k < |t.merges| && t.merges[k].spawned.Some?
      ensures var n := t.merges[k].spawned.value;
        n0 <= n.id < t.nextBodyId && n.id in t.bodies && t.bodies[n.id] == n
    {
      if k < |s.merges| {
        assert t.merges[k] == s.merges[k];
      }
    }
  }

  lemma MergeKeepsCounts(w: map<BodyId, Body>, n0: nat, s: Batch, t: Batch, a: BodyId, b: BodyId, m: MergeRecord)
    requires ValidWorld(w, n0) && InvWorld(w, n0, s) && InvCounts(w, n0, s)
    requires a in w && b in w && a != b && a !in s.claimed && b !in s.claimed
    requires m.spawned.Some? <==> m.rank + 1 < |PLANETS|
    requires m.spawned.Some? ==> m.spawned.value.id == s.nextBodyId
    requires t.merges == s.merges + [m]
    requires t.bodies == AfterMerge(s.bodies, a, b, m.spawned)
    requires t.nextBodyId == s.nextBodyId + (if m.spawned.Some? then 1 else 0)
    ensures InvCounts(w, n0, t)
  {
    assert t.merges[..|t.merges| - 1] == s.merges;
    assert a in s.bodies && b in s.bodies;
    AfterMergeSize(s.bodies, s.nextBodyId, a, b, m.spawned);
  }

  lemma AfterMergeSize(bodies: map<BodyId, Body>, next: nat, a: BodyId, b: BodyId, added: Option<Body>)
    requires ValidWorld(bodies, next) && a in bodies && b in bodies && a != b
    requires added.Some? ==> added.value.id == next
    ensures |AfterMerge(bodies, a, b, added)| == |bodies| - 2 + (if added.Some? then 1 else 0)
  {
    var remaining := bodies - {a, b};
    assert remaining.Keys == bodies.Keys - {a, b};
    assert |remaining| == |bodies| - 2;
    if added.Some? {
      assert next !in remaining;
      assert AfterMerge(bodies, a, b, added).Keys == remaining.Keys + {next};
    }
  }

  lemma StepKeepsWorld(w: map<BodyId, Body>, n0: nat, s: Batch, p: Pair, now: int)
    requires ValidWorld(w, n0) && FromWorld(w, p) && InvWorld(w, n0, s) && InvSpawned(n0, s)
    ensures InvWorld(w, n0, Step(s, p, now)) && InvSpawned(n0, Step(s, p, now))
  {
    if Takes(s, p) {
      StepShape(s, p, now);
      var t := Step(s, p, now);
      var added := t.merges[|s.merges|].spawned;
      MergeKeepsWorld(w, n0, s, t, p.bodyA.id, p.bodyB.id, added);
      MergeKeepsSpawned(n0, s, t, p.bodyA.id, p.bodyB.id, added);
    }
  }

  lemma StepKeepsCounts(w: map<BodyId, Body>, n0: nat, s: Batch, p: Pair, now: int)
    requires ValidWorld(w, n0) && FromWorld(w, p) && InvWorld(w, n0, s) && InvCounts(w, n0, s)
    ensures InvCounts(w, n0, Step(s, p, now))
  {
    if Takes(s, p) {
      StepShape(s, p, now);
      var t := Step(s, p, now);
      var m := t.merges[|s.merges|];
      assert t.merges == s.merges + [m];
      MergeKeepsCounts(w, n0, s, t, p.bodyA.id, p.bodyB.id, m);
    }
  }

  /** The whole invariant survives one step of a batch from world w. */
  lemma StepKeepsInv(w: map<BodyId, Body>, n0: nat, now: int, s: Batch, p: Pair)
    requires ValidWorld(w, n0) && FromWorld(w, p) && BatchInv(w, n0, now, s)
    ensures BatchInv(w, n0, now, Step(s, p, now))
  {
    StepKeepsScore(s, p, now);
    StepKeepsMerges(w, s, p, now);
    StepKeepsWorld(w, n0, s, p, now);
    StepKeepsCounts(w, n0, s, p, now);
  }

  /**
   * A step only adds: claimed ids and merges grow, a new merge is of the
   * pair at hand, and a pair whose ranks match leaves one of its bodies
   * claimed.
   */
  lemma StepGrows(s: Batch, p: Pair, now: int)
    requires RankInRange(p.bodyA) && RankInRange(p.bodyB)
    ensures var t := Step(s, p, now);
      && s.claimed <= t.claimed
      && |s.merges| <= |t.merges| <= |s.merges| + 1 && t.merges[..|s.merges|] == s.merges
      && (|t.merges| > |s.merges| ==> t.merges[|s.merges|].pair == p)
      && (Mergeable(p) ==> p.bodyA.id in t.claimed || p.bodyB.id in t.claimed)
  {
    if Takes(s, p) {
      StepShape(s, p, now);
    }
  }

  /** The invariant holds after every prefix of a batch. */
  lemma {:induction false} ResolveInv(w: map<BodyId, Body>, n0: nat, pairs: seq<Pair>, now: int)
    requires ValidWorld(w, n0) && BatchFrom(w, pairs)
    ensures BatchInv(w, n0, now, Resolve(Begin(w, n0), pairs, now))
    decreases |pairs|
  {
    if pairs == [] {
      assert Spawns([]) == 0 && BelowTop([]) == 0 && Gain([]) == 0 && BlackHoles([]) == 0;
      assert ClaimedBy([]) == {};
    } else {
      var front := pairs[..|pairs| - 1];
      assert BatchFrom(w, front);
      ResolveInv(w, n0, front, now);
      StepKeepsInv(w, n0, now, Resolve(Begin(w, n0), front, now), pairs[|pairs| - 1]);
    }
  }

  /** A batch only adds to the claimed ids and the merges, and its merges come from its pairs. */
  lemma {:induction false} ResolveGrows(s0: Batch, pairs: seq<Pair>, now: int)
    requires Ranked(pairs)
    ensures var t := Resolve(s0, pairs, now);
      && s0.claimed <= t.claimed
      && |s0.merges| <= |t.merges| && t.merges[..|s0.merges|] == s0.merges
      && (forall k :: |s0.merges| <= k < |t.merges| ==> t.merges[k].pair in pairs)
    decreases |pairs|
  {
    if pairs != [] {
      var front := pairs[..|pairs| - 1];
      assert Ranked(front);
      ResolveGrows(s0, front, now);
      var s := Resolve(s0, front, now);
      StepGrows(s, pairs[|pairs| - 1], now);
      var t := Step(s, pairs[|pairs| - 1], now);
      forall k | |s0.merges| <= k < |t.merges|
        ensures t.merges[k].pair in pairs
      {
        if k < |s.merges| {
          assert t.merges[k] == s.merges[k];
          assert s.merges[k].pair in front;
        }
      }
    }
  }

  /**
   * No pair whose ranks matched is passed over while both its bodies are
   * still free: each such pair ends with at least one of its bodies consumed.
   */
  lemma {:induction false} ResolveMaximal(s0: Batch, pairs: seq<Pair>, now: int)
    requires Ranked(pairs)
    ensures var t := Resolve(s0, pairs, now);
      forall i :: 0 <= i < |pairs| && Mergeable(pairs[i]) ==>
        pairs[i].bodyA.id in t.claimed || pairs[i].bodyB.id in t.claimed
    decreases |pairs|
  {
    if pairs != [] {
      var front := pairs[..|pairs| - 1];
      assert Ranked(front);
      ResolveMaximal(s0, front, now);
      var s := Resolve(s0, front, now);
      StepGrows(s, pairs[|pairs| - 1], now);
      var t := Step(s, pairs[|pairs| - 1], now);
      forall i | 0 <= i < |pairs| && Mergeable(pairs[i])
        ensures pairs[i].bodyA.id in t.claimed || pairs[i].bodyB.id in t.claimed
      {
        if i < |front| {
          assert pairs[i] == front[i];
        }
      }
    }
  }

  /**
   * Two bodies merge only when both labels read as numbers and as the same
   * rank: walls and bodies of different ranks never merge. Conversely every
   * such pair of the batch ends with at least one of its bodies consumed.
   */
  lemma MergeOnlyEqualRanks(w: map<BodyId, Body>, n0: nat, pairs: seq<Pair>, now: int)
    requires ValidWorld(w, n0) && BatchFrom(w, pairs)
    ensures var t := Resolve(Begin(w, n0), pairs, now);
      && (forall k :: 0 <= k < |t.merges| ==>
            t.merges[k].pair in pairs &&
            RankOf(t.merges[k].pair.bodyA) == RankOf(t.merges[k].pair.bodyB) == Some(t.merges[k].rank) &&
            t.merges[k].pair.bodyA.bodyLabel != WALL_LABEL && t.merges[k].pair.bodyB.bodyLabel != WALL_LABEL)
      && (forall i :: 0 <= i < |pairs| && Mergeable(pairs[i]) ==>
            pairs[i].bodyA.id in t.claimed || pairs[i].bodyB.id in t.claimed)
  {
    ResolveInv(w, n0, pairs, now);
    ResolveGrows(Begin(w, n0), pairs, now);
    ResolveMaximal(Begin(w, n0), pairs, now);
    WallIsNaN();
    var t := Resolve(Begin(w, n0), pairs, now);
    forall k | 0 <= k < |t.merges|
      ensures t.merges[k].pair.bodyA.bodyLabel != WALL_LABEL && t.merges[k].pair.bodyB.bodyLabel != WALL_LABEL
    {
      assert WellMerged(t.merges[k], now);
    }
  }

  /**
   * Within one batch each body takes part in at most one merge, and the set
   * of consumed ids is exactly the bodies the merges name.
   */
  lemma AtMostOneMergePerBody(w: map<BodyId, Body>, n0: nat, pairs: seq<Pair>, now: int)
    requires ValidWorld(w, n0) && BatchFrom(w, pairs)
    ensures var t := Resolve(Begin(w, n0), pairs, now);
      OncePerBody(t.merges) && t.claimed == ClaimedBy(t.merges) && t.claimed <= w.Keys
  {
    ResolveInv(w, n0, pairs, now);
  }

  /**
   * The world after a batch: exactly the bodies no merge consumed, unchanged,
   * plus one new body per merge below the top rank. Each merge removes two
   * bodies; below the top rank it adds one (net -1), at the top rank none
   * (net -2).
   */
  lemma BatchWorld(w: map<BodyId, Body>, n0: nat, pairs: seq<Pair>, now: int)
    requires ValidWorld(w, n0) && BatchFrom(w, pairs)
    ensures var t := Resolve(Begin(w, n0), pairs, now);
      && ValidWorld(t.bodies, t.nextBodyId)
      && t.nextBodyId == n0 + BelowTop(t.merges)
      && (forall id :: id in t.bodies <==> (id in w && id !in t.claimed) || n0 <= id < t.nextBodyId)
      && (forall id :: id in w && id !in t.claimed ==> t.bodies[id] == w[id])
      && |t.bodies| == |w| - 2 * |t.merges| + BelowTop(t.merges)
  {
    ResolveInv(w, n0, pairs, now);
  }

  /**
   * A merge of rank r adds a body exactly when r + 1 is a rank; the body has
   * rank r + 1, sits at the midpoint of the pair, is stamped with the batch's
   * time, and is still in the world when the batch ends.
   */
  lemma SpawnedBodies(w: map<BodyId, Body>, n0: nat, pairs: seq<Pair>, now: int)
    requires ValidWorld(w, n0) && BatchFrom(w, pairs)
    ensures var t := Resolve(Begin(w, n0), pairs, now);
      forall k :: 0 <= k < |t.merges| ==>
        var m := t.merges[k];
        (m.spawned.Some? <==> m.rank + 1 < |PLANETS|) &&
        (m.spawned.Some? ==>
          var n := m.spawned.value;
          RankOf(n) == Some(m.rank + 1) &&
          n.x == (m.pair.bodyA.x + m.pair.bodyB.x) / 2.0 && n.y == (m.pair.bodyA.y + m.pair.bodyB.y) / 2.0 &&
          n.createdAt == Some(now) && n.id in t.bodies && t.bodies[n.id] == n)
  {
    ResolveInv(w, n0, pairs, now);
    var t := Resolve(Begin(w, n0), pairs, now);
    forall k | 0 <= k < |t.merges|
      ensures var m := t.merges[k];
        (m.spawned.Some? <==> m.rank + 1 < |PLANETS|) &&
        (m.spawned.Some? ==>
           RankOf(m.spawned.value) == Some(m.rank + 1) &&
           m.spawned.value.x == (m.pair.bodyA.x + m.pair.bodyB.x) / 2.0 &&
           m.spawned.value.y == (m.pair.bodyA.y + m.pair.bodyB.y) / 2.0 &&
           m.spawned.value.createdAt == Some(now))
    {
      assert WellMerged(t.merges[k], now);
    }
  }

  /**
   * The callbacks a batch makes raise the shell's score by exactly the
   * reference amount for its merges and signal one win per Black Hole
   * formed; the screen and the next planet are left as they are, and the
   * score never goes down.
   */
  lemma BatchScore(w: map<BodyId, Body>, n0: nat, pairs: seq<Pair>, now: int, round: App.Round)
    requires ValidWorld(w, n0) && BatchFrom(w, pairs)
    ensures var t := Resolve(Begin(w, n0), pairs, now);
      && App.AllWellFormed(t.events)
      && App.WinsOf(t.events) == BlackHoles(t.merges)
      && App.Run(round, t.events) ==
           round.(score := round.score + Gain(t.merges), gameWon := round.gameWon || BlackHoles(t.merges) > 0)
  {
    ResolveInv(w, n0, pairs, now);
    var t := Resolve(Begin(w, n0), pairs, now);
    App.CanvasEventsEffect(round, t.events);
  }
}
