/** Placement: filter the nodes by memory and GPU count, rank them by score, and deal replicas out
    to the ranked nodes in turn. The map is iterated in any order and the sort is not stable. */
module Scheduler {
  import opened Common
  import opened ModelMeta

  const TWO64 := 0x1_0000_0000_0000_0000

  type uint64 = x: int | 0 <= x < TWO64 witness 0

  datatype GPU = GPU(vramTotal: uint64, vramFree: uint64)

  datatype Resources = Resources(nodeId: string, gpus: seq<GPU>)

  datatype Cand = Cand(node: string, score: int)

  datatype Placement = Placement(node: string, stage: Option<nat>, engine: string)

  datatype PlaceError = NoNode | TooFewNodes

  // ---------- Sums and scores in machine arithmetic ----------

  function Total(gpus: seq<GPU>): nat {
    if gpus == [] then 0 else Total(gpus[..|gpus| - 1]) + gpus[|gpus| - 1].vramTotal
  }

  function Free(gpus: seq<GPU>): nat {
    if gpus == [] then 0 else Free(gpus[..|gpus| - 1]) + gpus[|gpus| - 1].vramFree
  }

  /** Conversion to int, and int arithmetic, on 64 bits. */
  function Int64(x: int): int {
    var r := x % TWO64;
    if r < TWO64 / 2 then r else r - TWO64
  }

  function ScoreOf(total: uint64, free: uint64): int {
    if total == 0 then 0 else Int64(Int64(Int64((free * 100 % TWO64) / total) * 7) + 100)
  }

  /** The score the code computes, by sums that wrap. */
  function Score(gpus: seq<GPU>): int {
    ScoreOf(Total(gpus) % TWO64, Free(gpus) % TWO64)
  }

  function Tp(m: Model): int {
    if m.tensorParallel < 1 then 1 else m.tensorParallel
  }

  predicate Eligible(r: Resources, m: Model) {
    Free(r.gpus) % TWO64 >= m.vramBytes && !(Tp(m) > 1 && |r.gpus| < Tp(m))
  }

  /** The node has the memory, and the GPUs of one tensor-parallel group if there is one. */
  predicate Fits(gpus: seq<GPU>, vram: nat, tp: int) {
    Free(gpus) % TWO64 >= vram && (tp > 1 ==> |gpus| >= tp)
  }

  lemma EligibleIffFits(r: Resources, m: Model)
    ensures Eligible(r, m) <==> Fits(r.gpus, m.vramBytes, m.tensorParallel)
  {
  }

  /** One more GPU adds its memory, wherever it stands. */
  lemma {:induction false} OneMoreGpu(a: seq<GPU>, g: GPU, b: seq<GPU>)
    ensures Free(a + [g] + b) == Free(a + b) + g.vramFree && Total(a + [g] + b) == Total(a + b) + g.vramTotal
    ensures Free([]) == Total([]) == 0
    decreases |b|
  {
    var whole, rest := a + [g] + b, a + b;
    if b == [] {
      assert whole[..|whole| - 1] == a == rest;
    } else {
      var b' := b[..|b| - 1];
      assert whole[..|whole| - 1] == a + [g] + b' && rest[..|rest| - 1] == a + b';
      OneMoreGpu(a, g, b');
    }
  }

  lemma WrapStep(a: int, b: int, c: int)
    requires a == b % TWO64
    ensures (a + c) % TWO64 == (b + c) % TWO64
  {
    var q := b / TWO64;
    assert b == q * TWO64 + a;
    assert b + c == (a + c) + TWO64 * q;
  }

  method NodeFreeVRAM(r: Resources) returns (free: uint64)
    ensures free == Free(r.gpus) % TWO64
  {
    free := 0;
    for i := 0 to |r.gpus|
      invariant free == Free(r.gpus[..i]) % TWO64
    {
      assert r.gpus[..i + 1][..i] == r.gpus[..i];
      WrapStep(free, Free(r.gpus[..i]), r.gpus[i].vramFree);
      free := (free + r.gpus[i].vramFree) % TWO64;
    }
    assert r.gpus[..|r.gpus|] == r.gpus;
  }

  method ScoreNode(r: Resources) returns (score: int)
    ensures score == Score(r.gpus)
  {
    var total, free: uint64 := 0, 0;
    for i := 0 to |r.gpus|
      invariant total == Total(r.gpus[..i]) % TWO64 && free == Free(r.gpus[..i]) % TWO64
    {
      assert r.gpus[..i + 1][..i] == r.gpus[..i];
      WrapStep(free, Free(r.gpus[..i]), r.gpus[i].vramFree);
      WrapStep(total, Total(r.gpus[..i]), r.gpus[i].vramTotal);
      total, free := (total + r.gpus[i].vramTotal) % TWO64, (free + r.gpus[i].vramFree) % TWO64;
    }
    assert r.gpus[..|r.gpus|] == r.gpus;
    if total == 0 {
      return 0;
    }
    var freeRatio := Int64((free * 100 % TWO64) / total);
    score := Int64(Int64(freeRatio * 7) + 100);
  }

  // ---------- Ranking ----------

  ghost predicate Descending(s: seq<Cand>) {
    forall i, j :: 0 <= i <= j < |s| ==> s[i].score >= s[j].score
  }

  /** A possible result of the unstable sort. */
  ghost predicate RankingOf(s: seq<Cand>, cands: seq<Cand>) {
    Descending(s) && multiset(s) == multiset(cands)
  }

  lemma InsertKeepsOrder(s: seq<Cand>, c: Cand, i: nat)
    requires Descending(s) && i <= |s|
    requires (forall k :: 0 <= k < i ==> s[k].score >= c.score) && (i < |s| ==> s[i].score < c.score)
    ensures Descending(s[..i] + [c] + s[i..]) && multiset(s[..i] + [c] + s[i..]) == multiset(s + [c])
  {
    assert s == s[..i] + s[i..];
  }

  /** Where a candidate goes in a ranking. */
  method Slot(s: seq<Cand>, c: Cand) returns (i: nat)
    ensures i <= |s| && (forall k :: 0 <= k < i ==> s[k].score >= c.score) && (i < |s| ==> s[i].score < c.score)
  {
    i := 0;
    while i < |s| && s[i].score >= c.score
      invariant i <= |s| && forall k :: 0 <= k < i ==> s[k].score >= c.score
    {
      i := i + 1;
    }
  }

  /** sort.Slice by descending score. Callers know no more than the contract: ties may come out in
      any order. */
  method SortSlice(cands: seq<Cand>) returns (s: seq<Cand>)
    ensures RankingOf(s, cands)
  {
    s := [];
    for n := 0 to |cands|
      invariant RankingOf(s, cands[..n])
    {
      var i := Slot(s, cands[n]);
      InsertKeepsOrder(s, cands[n], i);
      assert cands[..n + 1] == cands[..n] + [cands[n]];
      s := s[..i] + [cands[n]] + s[i..];
    }
    assert cands[..|cands|] == cands;
  }

  ghost predicate DistinctNodes(ranked: seq<Cand>) {
    forall i, j :: 0 <= i < j < |ranked| ==> ranked[i].node != ranked[j].node
  }

  /** The candidates are the eligible nodes, each once with its score. */
  ghost predicate CandsOf(cands: seq<Cand>, resources: map<string, Resources>, m: Model) {
    && (forall c :: c in cands ==>
          c.node in resources && Eligible(resources[c.node], m) && c.score == Score(resources[c.node].gpus))
    && (forall id :: id in resources && Eligible(resources[id], m) ==> Cand(id, Score(resources[id].gpus)) in cands)
    && DistinctNodes(cands)
  }

  /** One more node looked at. */
  lemma CandsNext(cands: seq<Cand>, resources: map<string, Resources>, m: Model, id: string, res: Resources)
    requires CandsOf(cands, resources, m) && id !in resources
    ensures CandsOf(if Eligible(res, m) then cands + [Cand(id, Score(res.gpus))] else cands, resources[id := res], m)
  {
  }

  function Except(resources: map<string, Resources>, rest: set<string>): map<string, Resources> {
    map id | id in resources && id !in rest :: resources[id]
  }

  lemma TwiceInSeq(s: seq<Cand>, i: nat, j: nat)
    requires i < j < |s| && s[i] == s[j]
    ensures multiset(s)[s[i]] >= 2
  {
    assert s == s[..j] + [s[j]] + s[j + 1..];
    assert s[i] in s[..j];
  }

  lemma RankingKeepsCands(s: seq<Cand>, cands: seq<Cand>, resources: map<string, Resources>, m: Model)
    requires RankingOf(s, cands) && CandsOf(cands, resources, m)
    ensures CandsOf(s, resources, m) && |s| == |cands|
  {
    SameElements(s, cands);
    forall i, j | 0 <= i < j < |s| ensures s[i].node != s[j].node {
      OnceInCands(cands, s[i]);
      if s[i] == s[j] {
        TwiceInSeq(s, i, j);
      }
      assert s[i] in cands && s[j] in cands;
    }
  }

  lemma SameElements(s: seq<Cand>, t: seq<Cand>)
    requires multiset(s) == multiset(t)
    ensures |s| == |t| && forall c :: c in s <==> c in t
  {
    assert |s| == |multiset(s)| == |multiset(t)| == |t|;
    forall c ensures c in s <==> c in t {
      assert c in s <==> c in multiset(s);
      assert c in t <==> c in multiset(t);
    }
  }

  lemma {:induction false} OnceInCands(cands: seq<Cand>, c: Cand)
    requires DistinctNodes(cands)
    ensures multiset(cands)[c] <= 1
  {
    if cands != [] {
      var n := |cands| - 1;
      OnceInCands(cands[..n], c);
      assert cands == cands[..n] + [cands[n]];
      if cands[n] == c {
        assert c !in cands[..n];
      }
    }
  }

  class Scheduler {
    var resources: map<string, Resources>

    constructor ()
      ensures resources == map[]
    {
      resources := map[];
    }

    method UpdateResources(r: Option<Resources>)
      modifies this
      ensures resources == if r.None? || r.value.nodeId == "" then old(resources)
                           else old(resources)[r.value.nodeId := r.value]
    {
      if r.None? || r.value.nodeId == "" {
        return;
      }
      resources := resources[r.value.nodeId := r.value];
    }

    method RemoveNode(nodeId: string)
      modifies this
      ensures resources == old(resources) - {nodeId}
    {
      resources := resources - {nodeId};
    }

    method Candidates(m: Model) returns (cands: seq<Cand>)
      ensures CandsOf(cands, resources, m)
    {
      cands := [];
      var rest := resources.Keys;
      while rest != {}
        invariant rest <= resources.Keys
        invariant CandsOf(cands, Except(resources, rest), m)
        decreases rest
      {
        var id :| id in rest;
        var res := resources[id];
        CandsNext(cands, Except(resources, rest), m, id, res);
        assert Except(resources, rest - {id}) == Except(resources, rest)[id := res];
        rest := rest - {id};
        var avail := NodeFreeVRAM(res);
        if avail < m.vramBytes {
          continue;
        }
        if Tp(m) > 1 && |res.gpus| < Tp(m) {
          continue;
        }
        var score := ScoreNode(res);
        cands := cands + [Cand(id, score)];
      }
      assert Except(resources, rest) == resources;
    }

    /** Fails exactly when no node is eligible; otherwise the chosen node is eligible and no eligible
        node scores higher. */
    method Place(m: Model) returns (r: Result<Placement, PlaceError>)
      ensures r.Err? <==> forall id :: id in resources ==>
                            || Free(resources[id].gpus) % TWO64 < m.vramBytes
                            || (m.tensorParallel > 1 && |resources[id].gpus| < m.tensorParallel)
      ensures r.Err? ==> r.error == NoNode
      ensures r.Ok? ==> r.value.node in resources && Fits(resources[r.value.node].gpus, m.vramBytes, m.tensorParallel)
      ensures r.Ok? ==>
                && r.value.node in resources && Eligible(resources[r.value.node], m)
                && r.value.engine == m.engine
                && forall id :: id in resources && Eligible(resources[id], m) ==>
                     Score(resources[id].gpus) <= Score(resources[r.value.node].gpus)
    {
      var cands := Candidates(m);
      if |cands| == 0 {
        return Err(NoNode);
      }
      var sorted := SortSlice(cands);
      RankingKeepsCands(sorted, cands, resources, m);
      return Ok(Placement(sorted[0].node, None, m.engine));
    }

    /** Fails for want of a node exactly when none is eligible; otherwise the outcome is that of some
        ranking of the eligible nodes. */
    method PlaceN(m: Model, n: int) returns (r: Result<seq<Placement>, PlaceError>)
      ensures r == Err(NoNode) <==> forall id :: id in resources ==>
                                      || Free(resources[id].gpus) % TWO64 < m.vramBytes
                                      || (m.tensorParallel > 1 && |resources[id].gpus| < m.tensorParallel)
      ensures r.Ok? ==> forall i :: 0 <= i < |r.value| ==>
                && r.value[i].node in resources
                && Fits(resources[r.value[i].node].gpus, m.vramBytes, m.tensorParallel)
      ensures exists ranked :: IsRanking(ranked, resources, m) && r == PlacedBy(ranked, m, n)
    {
      var count := if n <= 0 then 1 else n;
      var cands := Candidates(m);
      if |cands| == 0 {
        assert IsRanking([], resources, m);
        return Err(NoNode);
      }
      assert cands[0] in cands;
      var sorted := SortSlice(cands);
      RankingKeepsCands(sorted, cands, resources, m);
      assert IsRanking(sorted, resources, m);
      if m.pipelineParallel > 1 && |sorted| < m.pipelineParallel {
        return Err(TooFewNodes);
      }
      var placements := [];
      for i := 0 to count
        invariant placements == Deal(sorted, m, i)
      {
        placements := placements + [Placement(sorted[i % |sorted|].node, StageOf(m, i), m.engine)];
      }
      DealtNodesFit(sorted, resources, m, count);
      r := Ok(placements);
    }
  }

  /** An order the unstable sort may give the eligible nodes. */
  ghost predicate IsRanking(ranked: seq<Cand>, resources: map<string, Resources>, m: Model) {
    Descending(ranked) && CandsOf(ranked, resources, m)
  }

  /** What a ranking leads to: an error, or the replicas dealt out in turn. */
  function PlacedBy(ranked: seq<Cand>, m: Model, n: int): Result<seq<Placement>, PlaceError> {
    if ranked == [] then Err(NoNode)
    else if m.pipelineParallel > 1 && |ranked| < m.pipelineParallel then Err(TooFewNodes)
    else Ok(Deal(ranked, m, if n <= 0 then 1 else n))
  }

  // ---------- What the choices mean ----------

  /** The sums fit, some memory is reported, and no more is free than there is. */
  predicate NoOverflow(gpus: seq<GPU>) {
    0 < Total(gpus) < TWO64 && Free(gpus) <= Total(gpus) && 100 * Free(gpus) < TWO64
  }

  /** Without overflow, a score is seven times the whole percentage of free memory, plus a hundred. */
  lemma ScoreWithoutOverflow(gpus: seq<GPU>)
    requires NoOverflow(gpus)
    ensures var share := 100 * Free(gpus) / Total(gpus);
            0 <= share <= 100 && Score(gpus) == 7 * share + 100
  {
    ScoreOfSmall(Total(gpus), Free(gpus));
  }

  /** The score counts percent in 64 bits: on an entirely free node of 2^60 bytes the hundredfold wraps,
      and the score is 128 instead of 800. */
  lemma HugeNodeScoresLow(g: GPU)
    requires g.vramTotal == g.vramFree == 0x1000_0000_0000_0000
    ensures Score([g]) == 128
  {
    OneMoreGpu([], g, []);
    assert [] + [g] + [] == [g];
    var b := 0x1000_0000_0000_0000;
    assert Total([g]) == Free([g]) == b;
    assert b * 100 % TWO64 == 0x4000_0000_0000_0000;
  }

  lemma Int64Small(x: nat)
    requires x < TWO64 / 2
    ensures Int64(x) == x && x % TWO64 == x
  {
  }

  lemma ScoreOfSmall(t: nat, f: nat)
    requires 0 < t < TWO64 && f <= t && 100 * f < TWO64
    ensures 0 <= 100 * f / t <= 100 && ScoreOf(t % TWO64, f % TWO64) == 7 * (100 * f / t) + 100
  {
    DivBound(100 * f, t, 100);
    assert t % TWO64 == t && f % TWO64 == f && f * 100 == 100 * f;
    ScoreOfShare(t, f, 100 * f, 100 * f / t);
  }

  lemma ScoreOfShare(t: uint64, f: uint64, hundredfold: uint64, share: nat)
    requires t > 0 && f * 100 == hundredfold && share == hundredfold / t <= 100
    ensures ScoreOf(t, f) == 7 * share + 100
  {
    assert hundredfold % TWO64 == hundredfold;
    Int64Small(share);
    Int64Small(share * 7);
    Int64Small(share * 7 + 100);
  }

  lemma MultipleAtLeast(k: int, x: int)
    requires k > 0
    ensures x >= 1 ==> k * x >= k
    ensures x <= -1 ==> k * x <= -k
    ensures x >= 0 ==> k * x >= 0
  {
    if x >= 1 {
      assert k * x == k * (x - 1) + k && k * (x - 1) >= 0;
    } else if x <= -1 {
      assert k * x == k * (x + 1) - k && k * (x + 1) <= 0;
    }
  }

  lemma DivBound(a: int, b: int, c: int)
    requires b > 0 && 0 <= a <= c * b
    ensures 0 <= a / b <= c
  {
    var q := a / b;
    assert b * (q - c) == b * q - b * c;
    MultipleAtLeast(b, q - c);
  }

  /** The free share of an eligible node exceeds the chosen node's by less than one percentage point:
      100 f/t < 100 f'/t' + 1, cleared of fractions. */
  lemma ChosenShareIsNearBest(chosen: seq<GPU>, other: seq<GPU>)
    requires NoOverflow(chosen) && NoOverflow(other)
    ensures Score(other) <= Score(chosen) ==>
              100 * Free(other) * Total(chosen) < 100 * Free(chosen) * Total(other) + Total(other) * Total(chosen)
  {
    if Score(other) <= Score(chosen) {
      ScoreWithoutOverflow(chosen);
      ScoreWithoutOverflow(other);
      FloorsOrderFractions(100 * Free(other), Total(other), 100 * Free(chosen), Total(chosen));
    }
  }

  lemma FloorsOrderFractions(a: nat, b: nat, c: nat, d: nat)
    requires b > 0 && d > 0 && a / b <= c / d
    ensures a * d < c * b + b * d
  {
    var p, q := a / b, c / d;
    MultipleAtLeast(b, q - p);
    assert b * (q - p) == b * q - b * p;
    var gap := b * q + b - a;
    assert gap >= 1;
    MultipleAtLeast(d, gap);
    MultipleAtLeast(b, c - d * q);
    Rearranged(a, b, c, d, q);
  }

  lemma Rearranged(a: int, b: int, c: int, d: int, q: int)
    ensures c * b + b * d - a * d == d * (b * q + b - a) + b * (c - d * q)
  {
  }

  function StageOf(m: Model, i: nat): Option<nat> {
    if m.pipelineParallel > 1 then Some(i % m.pipelineParallel) else None
  }

  /** The first n placements, dealt out in turn. */
  function Deal(ranked: seq<Cand>, m: Model, n: nat): (ps: seq<Placement>)
    requires |ranked| > 0
    ensures |ps| == n
  {
    if n == 0 then []
    else Deal(ranked, m, n - 1) + [Placement(ranked[(n - 1) % |ranked|].node, StageOf(m, n - 1), m.engine)]
  }

  /** Every replica goes to a ranked node, with the model's engine, and with a stage exactly if the model
      is a pipeline. */
  lemma {:induction false} DealAt(ranked: seq<Cand>, m: Model, n: nat, i: nat)
    requires |ranked| > 0 && i < n
    ensures Deal(ranked, m, n)[i] == Placement(ranked[i % |ranked|].node, StageOf(m, i), m.engine)
    ensures Deal(ranked, m, n)[i].stage.Some? <==> m.pipelineParallel > 1
  {
    if i < n - 1 {
      DealAt(ranked, m, n - 1, i);
    }
  }

  lemma DealtNodesFit(ranked: seq<Cand>, resources: map<string, Resources>, m: Model, n: nat)
    requires |ranked| > 0 && CandsOf(ranked, resources, m)
    ensures var ps := Deal(ranked, m, n);
            forall i :: 0 <= i < n ==>
              && ps[i].node in resources && ps[i].engine == m.engine
              && Fits(resources[ps[i].node].gpus, m.vramBytes, m.tensorParallel)
  {
    forall i: nat | i < n
      ensures var p := Deal(ranked, m, n)[i];
              && p.node in resources && p.engine == m.engine
              && Fits(resources[p.node].gpus, m.vramBytes, m.tensorParallel)
    {
      DealAt(ranked, m, n, i);
      assert ranked[i % |ranked|] in ranked;
    }
  }

  function Replicas(ps: seq<Placement>, node: string): nat {
    if ps == [] then 0 else Replicas(ps[..|ps| - 1], node) + if ps[|ps| - 1].node == node then 1 else 0
  }

  /** n = q k + r: the quotient and remainder move on by one call. */
  lemma NextQuotient(n: nat, k: nat)
    requires k > 0
    ensures if n % k + 1 < k then (n + 1) / k == n / k && (n + 1) % k == n % k + 1
            else (n + 1) / k == n / k + 1 && (n + 1) % k == 0
  {
    var q, r := n / k, n % k;
    assert n + 1 == k * q + (r + 1);
    if r + 1 < k {
      QuotientIs(n + 1, k, q, r + 1);
    } else {
      QuotientIs(n + 1, k, q + 1, 0);
    }
  }

  lemma QuotientIs(n: int, k: int, q: int, r: int)
    requires k > 0 && 0 <= r < k && n == k * q + r
    ensures n / k == q && n % k == r
  {
    var x := q - n / k;
    assert k * x == k * q - k * (n / k) == n % k - r;
    MultipleAtLeast(k, x);
  }

  /** Each of the k ranked nodes gets n/k replicas, and the n mod k first-ranked ones get one more. So
      no node is more than one ahead, and an earlier-ranked node never has fewer. */
  lemma {:induction false} EvenDeal(ranked: seq<Cand>, m: Model, n: nat, j: nat)
    requires j < |ranked| && DistinctNodes(ranked)
    ensures Replicas(Deal(ranked, m, n), ranked[j].node) == n / |ranked| + if j < n % |ranked| then 1 else 0
  {
    var k := |ranked|;
    if n > 0 {
      EvenDeal(ranked, m, n - 1, j);
      NextQuotient(n - 1, k);
      assert Deal(ranked, m, n)[..n - 1] == Deal(ranked, m, n - 1);
      assert ranked[(n - 1) % k].node == ranked[j].node <==> (n - 1) % k == j;
    } else {
      QuotientIs(0, k, 0, 0);
    }
  }

  lemma DistinctRemainders(a: nat, b: nat, k: nat)
    requires a < b < a + k
    ensures a % k != b % k
  {
    var x := b / k - a / k;
    assert k * x == k * (b / k) - k * (a / k) == (b - b % k) - (a - a % k);
    MultipleAtLeast(k, x);
  }

  /** Any PP consecutive placements lie on PP distinct nodes and carry PP distinct stages below PP,
      hence each stage once. */
  lemma StagesOnDistinctNodes(ranked: seq<Cand>, m: Model, n: nat, a: nat, b: nat)
    requires DistinctNodes(ranked) && 1 < m.pipelineParallel <= |ranked|
    requires a < b < n && b < a + m.pipelineParallel
    ensures var ps := Deal(ranked, m, n);
            && ps[a].node != ps[b].node
            && ps[a].stage.Some? && ps[b].stage.Some? && ps[a].stage != ps[b].stage
            && ps[a].stage.value < m.pipelineParallel && ps[b].stage.value < m.pipelineParallel
  {
    DealAt(ranked, m, n, a);
    DealAt(ranked, m, n, b);
    DistinctRemainders(a, b, |ranked|);
    DistinctRemainders(a, b, m.pipelineParallel);
  }

  /** Any PP consecutive placements hold every stage. */
  lemma EveryStageIsPlaced(ranked: seq<Cand>, m: Model, n: nat, a: nat, stage: nat)
    requires 1 < m.pipelineParallel <= |ranked| && a + m.pipelineParallel <= n && stage < m.pipelineParallel
    ensures exists i: nat :: a <= i < a + m.pipelineParallel && Deal(ranked, m, n)[i].stage == Some(stage)
  {
    var pp := m.pipelineParallel;
    var q, r := (stage - a) / pp, (stage - a) % pp;
    assert a + r == pp * (-q) + stage;
    QuotientIs(a + r, pp, -q, stage);
    DealAt(ranked, m, n, a + r);
  }
}
