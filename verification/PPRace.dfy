/** Deployments that compete for the same ids: which of them succeed, and a race that nobody wins. */
module PPRace {
  import opened AgentModel
  import opened PPDeploy
  import opened PPSafety
  import opened PPEffect

  ghost predicate NextBy(w: World, w': World, step: Step) {
    Enabled(w, step) && w' == Apply(w, step)
  }

  ghost predicate StepAt(run: seq<World>, steps: seq<Step>, j: nat)
    requires j < |steps| < |run|
  {
    NextBy(run[j], run[j + 1], steps[j])
  }

  /** A run with the steps taken. */
  ghost predicate IsRunBy(a0s: map<Node, AgentState>, plans: seq<seq<RankCall>>, run: seq<World>, steps: seq<Step>) {
    && AgentsWf(a0s) && |run| == |steps| + 1 && run[0] == StartWorld(a0s, plans)
    && forall j :: 0 <= j < |steps| ==> StepAt(run, steps, j)
  }

  lemma StepsMakeRun(a0s: map<Node, AgentState>, plans: seq<seq<RankCall>>, run: seq<World>, steps: seq<Step>)
    requires IsRunBy(a0s, plans, run, steps)
    ensures IsRun(a0s, plans, run)
  {
    forall j | 0 <= j < |run| - 1 ensures Next(run[j], run[j + 1]) {
      assert StepAt(run, steps, j);
    }
  }

  // ---------- Who succeeds ----------

  /** The rank's call reaches its agent and finds its id free. */
  ghost predicate BeginsFree(w: World, step: Step, c: nat, i: nat) {
    && step == Begin(c, i) && w.HasRank(c, i) && w.Call(c, i).node in w.agents
    && w.Call(c, i).id !in w.agents[w.Call(c, i).node].instances
  }

  ghost predicate FoundFree(run: seq<World>, steps: seq<Step>, j: nat, c: nat, i: nat)
    requires j <= |steps| <= |run|
  {
    exists a :: 0 <= a < j && BeginsFree(run[a], steps[a], c, i)
  }

  ghost predicate Loaded(steps: seq<Step>, j: nat, c: nat, i: nat)
    requires j <= |steps|
  {
    exists a :: 0 <= a < j && steps[a] == LoadOk(c, i)
  }

  /** What a goroutine's phase says about its past. */
  predicate Tells(p: Phase, free: bool, loaded: bool) {
    (free <==> !p.Starting? && !p.Rejected?) && (loaded <==> p.Created? || p.RolledBack?)
  }

  /** What a step of its own goroutine, or of its coordinator's rollback, makes of a rank. */
  ghost predicate MovesTo(w: World, step: Step, c: nat, i: nat, p: Phase)
    requires w.HasRank(c, i) && Enabled(w, step)
  {
    match step
    case Begin(c', i') => (c', i') == (c, i) && if BeginsFree(w, step, c, i) then p.InLoad? else p == Rejected
    case Unreachable(c', i') => (c', i') == (c, i) && p == Rejected
    case LoadOk(c', i') => (c', i') == (c, i) && w.Rank(c, i).InLoad? && p.Created?
    case LoadFail(c', i') => (c', i') == (c, i) && w.Rank(c, i).InLoad? && p.LoadError?
    case Join(_) => false
    case RollbackNext(c') => c' == c && w.Rank(c, i).Created? && p.RolledBack?
  }

  lemma RankMoves(w: World, step: Step, c: nat, i: nat)
    requires Enabled(w, step) && w.HasRank(c, i)
    ensures var w' := Apply(w, step);
            && w'.HasRank(c, i) && w'.Call(c, i) == w.Call(c, i)
            && (w'.Rank(c, i) == w.Rank(c, i) || MovesTo(w, step, c, i, w'.Rank(c, i)))
  {
  }

  lemma OwnStepMoves(w: World, step: Step, c: nat, i: nat)
    requires Enabled(w, step) && w.HasRank(c, i) && (BeginsFree(w, step, c, i) || step == LoadOk(c, i))
    ensures var w' := Apply(w, step);
            w'.HasRank(c, i) && MovesTo(w, step, c, i, w'.Rank(c, i))
              && (w.Rank(c, i).Starting? || w.Rank(c, i).InLoad?)
  {
  }

  lemma TellsStep(w: World, w': World, step: Step, c: nat, i: nat, free: bool, loaded: bool)
    requires NextBy(w, w', step) && w.HasRank(c, i) && Tells(w.Rank(c, i), free, loaded)
    ensures w'.HasRank(c, i) && w'.Call(c, i) == w.Call(c, i)
    ensures Tells(w'.Rank(c, i), free || BeginsFree(w, step, c, i), loaded || step == LoadOk(c, i))
  {
    RankMoves(w, step, c, i);
    if BeginsFree(w, step, c, i) || step == LoadOk(c, i) {
      OwnStepMoves(w, step, c, i);
    }
  }

  lemma StartsUntold(a0s: map<Node, AgentState>, plans: seq<seq<RankCall>>, c: nat, i: nat)
    requires c < |plans| && i < |plans[c]|
    ensures StartWorld(a0s, plans).HasRank(c, i) && Tells(StartWorld(a0s, plans).Rank(c, i), false, false)
  {
  }

  lemma {:induction false} PhaseTellsHistory(a0s: map<Node, AgentState>, plans: seq<seq<RankCall>>, run: seq<World>,
                                             steps: seq<Step>, j: nat, c: nat, i: nat)
    requires IsRunBy(a0s, plans, run, steps) && j <= |steps| && c < |plans| && i < |plans[c]|
    ensures run[j].HasRank(c, i)
    ensures Tells(run[j].Rank(c, i), FoundFree(run, steps, j, c, i), Loaded(steps, j, c, i))
  {
    if j == 0 {
      StartsUntold(a0s, plans, c, i);
    } else {
      PhaseTellsHistory(a0s, plans, run, steps, j - 1, c, i);
      assert StepAt(run, steps, j - 1);
      TellsStep(run[j - 1], run[j], steps[j - 1], c, i, FoundFree(run, steps, j - 1, c, i), Loaded(steps, j - 1, c, i));
      assert FoundFree(run, steps, j, c, i)
             <==> FoundFree(run, steps, j - 1, c, i) || BeginsFree(run[j - 1], steps[j - 1], c, i);
    }
  }

  /** A finished deployment has succeeded exactly when every rank's call found its id free on its node
      and every rank's load succeeded. */
  lemma SucceedsIff(a0s: map<Node, AgentState>, plans: seq<seq<RankCall>>, run: seq<World>, steps: seq<Step>, j: nat,
                    c: nat)
    requires IsRunBy(a0s, plans, run, steps) && j <= |steps| && c < |plans|
    requires c < |run[j].coords| ==> Done(run[j].coords[c])
    ensures c < |run[j].coords|
    ensures run[j].coords[c].progress.Succeeded?
            <==> forall i: nat :: i < |plans[c]| ==> FoundFree(run, steps, j, c, i) && Loaded(steps, j, c, i)
  {
    StepsMakeRun(a0s, plans, run, steps);
    RunKeeps(a0s, plans, run, j);
    PlansFixed(a0s, plans, run, j);
    var coord := run[j].coords[c];
    assert CoordInv(coord) && coord.plan == plans[c];
    forall i: nat | i < |plans[c]|
      ensures run[j].Rank(c, i) == coord.ranks[i]
      ensures Tells(coord.ranks[i], FoundFree(run, steps, j, c, i), Loaded(steps, j, c, i))
    {
      PhaseTellsHistory(a0s, plans, run, steps, j, c, i);
    }
  }

  // ---------- Nobody wins ----------

  /** Every call reaches its agent and every load succeeds. */
  predicate IsSmooth(step: Step) {
    !step.Unreachable? && !step.LoadFail?
  }

  ghost predicate SmoothRun(a0s: map<Node, AgentState>, plans: seq<seq<RankCall>>, run: seq<World>, steps: seq<Step>) {
    IsRunBy(a0s, plans, run, steps) && forall j :: 0 <= j < |steps| ==> IsSmooth(steps[j])
  }

  ghost predicate Reached(a0s: map<Node, AgentState>, plans: seq<seq<RankCall>>, w: World) {
    exists run: seq<World>, steps: seq<Step> :: SmoothRun(a0s, plans, run, steps) && run[|steps|] == w
  }

  lemma ReachStart(a0s: map<Node, AgentState>, plans: seq<seq<RankCall>>)
    requires AgentsWf(a0s)
    ensures Reached(a0s, plans, StartWorld(a0s, plans))
  {
    var run: seq<World>, steps: seq<Step> := [StartWorld(a0s, plans)], [];
    assert SmoothRun(a0s, plans, run, steps) && run[|steps|] == StartWorld(a0s, plans);
  }

  lemma ReachStep(a0s: map<Node, AgentState>, plans: seq<seq<RankCall>>, w: World, step: Step)
    requires Reached(a0s, plans, w) && Enabled(w, step) && IsSmooth(step)
    ensures Reached(a0s, plans, Apply(w, step))
  {
    var run: seq<World>, steps: seq<Step> :| SmoothRun(a0s, plans, run, steps) && run[|steps|] == w;
    var run', steps' := run + [Apply(w, step)], steps + [step];
    forall j | 0 <= j < |steps'| ensures StepAt(run', steps', j) && IsSmooth(steps'[j]) {
      assert j < |steps| ==> StepAt(run, steps, j);
    }
    assert SmoothRun(a0s, plans, run', steps') && run'[|steps'|] == Apply(w, step);
  }

  lemma ReachedInv(a0s: map<Node, AgentState>, plans: seq<seq<RankCall>>, w: World)
    requires Reached(a0s, plans, w)
    ensures AgentsWf(w.agents) && Inv(a0s, w) && PlansAre(w, plans)
    ensures forall c :: 0 <= c < |plans| ==> |w.coords[c].ranks| == |plans[c]| && CoordInv(w.coords[c])
  {
    var run: seq<World>, steps: seq<Step> :| SmoothRun(a0s, plans, run, steps) && run[|steps|] == w;
    StepsMakeRun(a0s, plans, run, steps);
    RunKeeps(a0s, plans, run, |steps|);
    RunAgentsWf(a0s, plans, run, |steps|);
    PlansFixed(a0s, plans, run, |steps|);
  }

  ghost predicate Taken(w: World, call: RankCall) {
    call.node in w.agents && call.id in w.agents[call.node].instances
  }

  ghost function WithRank(coords: seq<Coord>, c: nat, i: nat, p: Phase): seq<Coord>
    requires c < |coords| && i < |coords[c].ranks|
  {
    coords[c := coords[c].(ranks := coords[c].ranks[i := p])]
  }

  lemma Begins(a0s: map<Node, AgentState>, plans: seq<seq<RankCall>>, w: World, c: nat, i: nat)
    returns (w': World, t: Token)
    requires Reached(a0s, plans, w) && w.HasRank(c, i) && w.Rank(c, i).Starting?
    requires w.Call(c, i).node in w.agents && !Taken(w, w.Call(c, i))
    ensures Reached(a0s, plans, w') && w'.coords == WithRank(w.coords, c, i, InLoad(t))
    ensures w'.agents.Keys == w.agents.Keys
    ensures forall call :: Taken(w', call)
                           <==> Taken(w, call) || (call.node == w.Call(c, i).node && call.id == w.Call(c, i).id)
  {
    ReachedInv(a0s, plans, w);
    ReachStep(a0s, plans, w, Begin(c, i));
    w', t := Apply(w, Begin(c, i)), w.agents[w.Call(c, i).node].next;
  }

  lemma IsRefused(a0s: map<Node, AgentState>, plans: seq<seq<RankCall>>, w: World, c: nat, i: nat) returns (w': World)
    requires Reached(a0s, plans, w) && w.HasRank(c, i) && w.Rank(c, i).Starting? && Taken(w, w.Call(c, i))
    ensures Reached(a0s, plans, w') && w'.coords == WithRank(w.coords, c, i, Rejected) && w'.agents == w.agents
  {
    ReachedInv(a0s, plans, w);
    ReachStep(a0s, plans, w, Begin(c, i));
    w' := Apply(w, Begin(c, i));
  }

  lemma Finishes(a0s: map<Node, AgentState>, plans: seq<seq<RankCall>>, w: World, c: nat, i: nat) returns (w': World)
    requires Reached(a0s, plans, w) && w.HasRank(c, i) && w.Rank(c, i).InLoad?
    ensures Reached(a0s, plans, w') && w'.coords == WithRank(w.coords, c, i, Created(w.Rank(c, i).t))
  {
    ReachedInv(a0s, plans, w);
    assert RankOk(a0s, w, c, i);
    ReachStep(a0s, plans, w, LoadOk(c, i));
    w' := Apply(w, LoadOk(c, i));
  }

  /** With a refused rank, the join starts a rollback. */
  lemma Joins(a0s: map<Node, AgentState>, plans: seq<seq<RankCall>>, w: World, c: nat, i: nat) returns (w': World)
    requires Reached(a0s, plans, w) && w.HasRank(c, i) && w.coords[c].progress.Running? && w.Rank(c, i).Rejected?
    requires forall k :: 0 <= k < |w.coords[c].ranks| ==> w.coords[c].ranks[k].Finished()
    ensures Reached(a0s, plans, w') && w'.coords == w.coords[c := w.coords[c].(progress := RollingBack(0))]
  {
    ReachedInv(a0s, plans, w);
    ReachStep(a0s, plans, w, Join(c));
    w' := Apply(w, Join(c));
  }

  ghost predicate OthersKept(w: World, w': World, c: nat) {
    |w'.coords| == |w.coords| && forall d :: 0 <= d < |w.coords| && d != c ==> w'.coords[d] == w.coords[d]
  }

  lemma RollsBackOne(a0s: map<Node, AgentState>, plans: seq<seq<RankCall>>, w: World, c: nat) returns (w': World)
    requires Reached(a0s, plans, w) && c < |plans| && c < |w.coords| && w.coords[c].progress.RollingBack?
    ensures Reached(a0s, plans, w') && OthersKept(w, w', c)
    ensures var k := w.coords[c].progress.k;
            k <= |plans[c]| && w'.coords[c].progress == if k < |plans[c]| then RollingBack(k + 1) else Failed
  {
    ReachedInv(a0s, plans, w);
    var k := w.coords[c].progress.k;
    assert k < |w.coords[c].ranks| ==> w.HasRank(c, k) && RankOk(a0s, w, c, k);
    ReachStep(a0s, plans, w, RollbackNext(c));
    w' := Apply(w, RollbackNext(c));
  }

  lemma {:induction false} RollsBack(a0s: map<Node, AgentState>, plans: seq<seq<RankCall>>, w: World, c: nat)
    returns (w': World)
    requires Reached(a0s, plans, w) && c < |plans| && c < |w.coords| && w.coords[c].progress.RollingBack?
    ensures Reached(a0s, plans, w') && OthersKept(w, w', c) && w'.coords[c].progress.Failed?
    decreases |plans[c]| - w.coords[c].progress.k
  {
    w' := RollsBackOne(a0s, plans, w, c);
    if !w'.coords[c].progress.Failed? {
      var w1 := w';
      w' := RollsBack(a0s, plans, w1, c);
    }
  }

  /** Two coordinators of one two-rank plan. */
  function Two(plan: seq<RankCall>, p0: Phase, p1: Phase, q0: Phase, q1: Phase): seq<Coord> {
    [Coord(plan, [p0, p1], Running), Coord(plan, [q0, q1], Running)]
  }

  lemma TwoStart(a0s: map<Node, AgentState>, plan: seq<RankCall>)
    requires |plan| == 2
    ensures StartWorld(a0s, [plan, plan]).coords == Two(plan, Starting, Starting, Starting, Starting)
  {
    assert StartOf(plan).ranks == [Starting, Starting];
  }

  lemma PairWith(p0: Phase, p1: Phase, p: Phase)
    ensures [p0, p1][0 := p] == [p, p1] && [p0, p1][1 := p] == [p0, p]
  {
  }

  lemma TwoWith(plan: seq<RankCall>, p0: Phase, p1: Phase, q0: Phase, q1: Phase, p: Phase)
    ensures WithRank(Two(plan, p0, p1, q0, q1), 0, 0, p) == Two(plan, p, p1, q0, q1)
    ensures WithRank(Two(plan, p0, p1, q0, q1), 0, 1, p) == Two(plan, p0, p, q0, q1)
    ensures WithRank(Two(plan, p0, p1, q0, q1), 1, 0, p) == Two(plan, p0, p1, p, q1)
    ensures WithRank(Two(plan, p0, p1, q0, q1), 1, 1, p) == Two(plan, p0, p1, q0, p)
  {
    PairWith(p0, p1, p);
    PairWith(q0, q1, p);
  }

  /** Each of them is the first to reach one of the agents. */
  lemma EachIsFirstOnce(a0s: map<Node, AgentState>, plan: seq<RankCall>) returns (w: World, t: Token, u: Token)
    requires AgentsWf(a0s) && |plan| == 2 && DistinctIds(plan)
    requires forall i :: 0 <= i < 2 ==> plan[i].node in a0s && plan[i].id !in a0s[plan[i].node].instances
    ensures Reached(a0s, [plan, plan], w) && w.coords == Two(plan, InLoad(t), Starting, Starting, InLoad(u))
    ensures Taken(w, plan[0]) && Taken(w, plan[1])
  {
    var plans := [plan, plan];
    ReachStart(a0s, plans);
    TwoStart(a0s, plan);
    var w1;
    w1, t := Begins(a0s, plans, StartWorld(a0s, plans), 0, 0);
    TwoWith(plan, Starting, Starting, Starting, Starting, InLoad(t));
    w, u := Begins(a0s, plans, w1, 1, 1);
    TwoWith(plan, InLoad(t), Starting, Starting, Starting, InLoad(u));
  }

  /** And each refuses the other's second call. */
  lemma EachRefusesTheOther(a0s: map<Node, AgentState>, plan: seq<RankCall>) returns (w: World, t: Token, u: Token)
    requires AgentsWf(a0s) && |plan| == 2 && DistinctIds(plan)
    requires forall i :: 0 <= i < 2 ==> plan[i].node in a0s && plan[i].id !in a0s[plan[i].node].instances
    ensures Reached(a0s, [plan, plan], w) && w.coords == Two(plan, InLoad(t), Rejected, Rejected, InLoad(u))
  {
    var plans := [plan, plan];
    w, t, u := EachIsFirstOnce(a0s, plan);
    TwoWith(plan, InLoad(t), Starting, Starting, InLoad(u), Rejected);
    w := IsRefused(a0s, plans, w, 0, 1);
    TwoWith(plan, InLoad(t), Rejected, Starting, InLoad(u), Rejected);
    w := IsRefused(a0s, plans, w, 1, 0);
  }

  lemma BothLoad(a0s: map<Node, AgentState>, plan: seq<RankCall>) returns (w: World, t: Token, u: Token)
    requires AgentsWf(a0s) && |plan| == 2 && DistinctIds(plan)
    requires forall i :: 0 <= i < 2 ==> plan[i].node in a0s && plan[i].id !in a0s[plan[i].node].instances
    ensures Reached(a0s, [plan, plan], w) && w.coords == Two(plan, Created(t), Rejected, Rejected, Created(u))
  {
    var plans := [plan, plan];
    w, t, u := EachRefusesTheOther(a0s, plan);
    TwoWith(plan, InLoad(t), Rejected, Rejected, InLoad(u), Created(t));
    w := Finishes(a0s, plans, w, 0, 0);
    TwoWith(plan, Created(t), Rejected, Rejected, InLoad(u), Created(u));
    w := Finishes(a0s, plans, w, 1, 1);
  }

  /** On agents where the ids are free, two deployments of one plan may both fail although every call
      reaches its agent and every load succeeds. */
  lemma NobodyWins(a0s: map<Node, AgentState>, plan: seq<RankCall>)
    requires AgentsWf(a0s) && |plan| == 2 && DistinctIds(plan)
    requires forall i :: 0 <= i < 2 ==> plan[i].node in a0s && plan[i].id !in a0s[plan[i].node].instances
    ensures exists run: seq<World>, steps: seq<Step> ::
              && SmoothRun(a0s, [plan, plan], run, steps) && |run[|steps|].coords| == 2
              && run[|steps|].coords[0].progress.Failed? && run[|steps|].coords[1].progress.Failed?
  {
    var plans := [plan, plan];
    var w, t, u := BothLoad(a0s, plan);
    w := Joins(a0s, plans, w, 0, 1);
    w := Joins(a0s, plans, w, 1, 0);
    w := RollsBack(a0s, plans, w, 0);
    w := RollsBack(a0s, plans, w, 1);
    var run: seq<World>, steps: seq<Step> :| SmoothRun(a0s, plans, run, steps) && run[|steps|] == w;
  }
}
