/** Pipeline deployments beside anything else that happens to the agents: other deployments, stops, and
    self-heal, which is a stop and a deployment under the same id. A rollback stops by id, so it may hit
    a record that is not its own rank's; here is exactly when. */
module PPMixed {
  import opened Common
  import opened AgentModel
  import AgentRuns
  import opened PPDeploy
  import opened PPSafety

  /** `inflight`: the deployers that belong to no coordinator, between reservation and commit. */
  datatype Mixed = Mixed(w: World, inflight: set<(Node, Token)>)
  {
    function At(n: Node): AgentState
      requires n in w.agents
    {
      w.agents[n]
    }
  }

  datatype MixedStep =
    | ByCoordinator(step: Step)
    | ForeignBegin(n: Node, id: string, modelName: string, spec: DeploySpec)
    | ForeignEnd(n: Node, t: Token, ok: bool)
    | ForeignStop(n: Node, id: string)

  ghost predicate CanTake(s: Mixed, step: MixedStep) {
    && AgentsWf(s.w.agents)
    && match step
       case ByCoordinator(own) => Enabled(s.w, own)
       case ForeignBegin(n, _, _, _) => n in s.w.agents
       case ForeignEnd(n, t, _) => (n, t) in s.inflight && n in s.w.agents && t in s.w.agents[n].recs
       case ForeignStop(n, _) => n in s.w.agents
  }

  ghost function Taken(s: Mixed, step: MixedStep): Mixed
    requires CanTake(s, step)
  {
    match step
    case ByCoordinator(own) => s.(w := Apply(s.w, own))
    case ForeignBegin(n, id, modelName, spec) =>
      var (a, t) := Reserve(s.At(n), id, modelName, spec);
      if t.None? then s else Mixed(s.w.(agents := s.w.agents[n := a]), s.inflight + {(n, t.value)})
    case ForeignEnd(n, t, ok) =>
      var a := if ok then CommitReady(s.At(n), t) else CommitError(s.At(n), t);
      Mixed(s.w.(agents := s.w.agents[n := a]), s.inflight - {(n, t)})
    case ForeignStop(n, id) => s.(w := s.w.(agents := s.w.agents[n := Stop(s.At(n), id)]))
  }

  ghost predicate NextBy(s: Mixed, s': Mixed, step: MixedStep) {
    CanTake(s, step) && s' == Taken(s, step)
  }

  ghost predicate StepAt(run: seq<Mixed>, steps: seq<MixedStep>, j: nat)
    requires j < |steps| < |run|
  {
    NextBy(run[j], run[j + 1], steps[j])
  }

  ghost predicate IsMixedRun(a0s: map<Node, AgentState>, plans: seq<seq<RankCall>>, run: seq<Mixed>,
                             steps: seq<MixedStep>)
  {
    && AgentsWf(a0s) && |run| == |steps| + 1 && run[0] == Mixed(StartWorld(a0s, plans), {})
    && forall j :: 0 <= j < |steps| ==> StepAt(run, steps, j)
  }

  // ---------- Every step leaves the tables well-formed ----------

  lemma ReserveKeepsWf(a: AgentState, id: string, modelName: string, spec: DeploySpec)
    requires a.Wf()
    ensures Reserve(a, id, modelName, spec).0.Wf()
  {
    if id !in a.instances {
      AgentRuns.ReserveListing(a, id, modelName, spec);
    }
  }

  lemma CommitKeepsWf(a: AgentState, t: Token)
    requires a.Wf() && t in a.recs
    ensures CommitReady(a, t).Wf() && CommitError(a, t).Wf()
  {
    AgentRuns.SetStateListing(a, t, Ready, a.engines[a.recs[t].id := t]);
    AgentRuns.SetStateListing(a, t, Error, a.engines);
  }

  lemma CoordinatorKeepsWf(w: World, step: Step)
    requires Enabled(w, step)
    ensures AgentsWf(Apply(w, step).agents) && Apply(w, step).agents.Keys == w.agents.Keys
  {
    match step
    case Begin(c, i) =>
      var call := w.Call(c, i);
      ReserveKeepsWf(w.agents[call.node], call.id, call.modelName, call.spec);
    case Unreachable(_, _) =>
    case LoadOk(c, i) => CommitKeepsWf(w.agents[w.Call(c, i).node], w.Rank(c, i).t);
    case LoadFail(c, i) => CommitKeepsWf(w.agents[w.Call(c, i).node], w.Rank(c, i).t);
    case Join(_) =>
    case RollbackNext(c) =>
      var k := w.coords[c].progress.k;
      if k < |w.coords[c].ranks| && w.Rank(c, k).Created? {
        StopEffect(w.agents[w.Call(c, k).node], w.Call(c, k).id);
      }
  }

  /** So the first condition of `CanTake` excludes no step of any run. */
  lemma StepKeepsWf(s: Mixed, step: MixedStep)
    requires CanTake(s, step)
    ensures AgentsWf(Taken(s, step).w.agents) && Taken(s, step).w.agents.Keys == s.w.agents.Keys
  {
    match step
    case ByCoordinator(own) => CoordinatorKeepsWf(s.w, own);
    case ForeignBegin(n, id, modelName, spec) => ReserveKeepsWf(s.At(n), id, modelName, spec);
    case ForeignEnd(n, t, _) => CommitKeepsWf(s.At(n), t);
    case ForeignStop(n, id) => StopEffect(s.At(n), id);
  }

  // ---------- What a step does to one id of one agent ----------

  /** The rank whose instance the next turn of a rollback stops. */
  ghost predicate RollsBack(w: World, c: nat, k: nat) {
    && c < |w.coords| && w.coords[c].progress == RollingBack(k) && w.HasRank(c, k) && w.Rank(c, k).Created?
  }

  ghost predicate StopsAt(s: Mixed, step: MixedStep, n: Node, id: string) {
    match step
    case ForeignStop(n', id') => n' == n && id' == id
    case ByCoordinator(RollbackNext(c)) =>
      exists k :: RollsBack(s.w, c, k) && s.w.Call(c, k).node == n && s.w.Call(c, k).id == id
    case _ => false
  }

  /** A reservation that finds the id free. */
  ghost predicate ReservesAt(s: Mixed, step: MixedStep, n: Node, id: string) {
    && n in s.w.agents && id !in s.w.agents[n].instances
    && match step
       case ForeignBegin(n', id', _, _) => n' == n && id' == id
       case ByCoordinator(Begin(c, i)) => s.w.HasRank(c, i) && s.w.Call(c, i).node == n && s.w.Call(c, i).id == id
       case _ => false
  }

  ghost predicate Holds(s: Mixed, n: Node, id: string, t: Token) {
    n in s.w.agents && id in s.w.agents[n].instances && s.w.agents[n].instances[id] == t
  }

  /** A stop frees the id, a reservation gives it to a new record, and nothing else touches it. */
  ghost predicate SlotMoves(s: Mixed, s': Mixed, step: MixedStep, n: Node, id: string)
    requires n in s.w.agents && n in s'.w.agents
  {
    && s.At(n).next <= s'.At(n).next
    && if StopsAt(s, step, n, id) then id !in s'.At(n).instances
       else if ReservesAt(s, step, n, id) then Holds(s', n, id, s.At(n).next) && s.At(n).next < s'.At(n).next
       else forall t :: Holds(s', n, id, t) <==> Holds(s, n, id, t)
  }

  lemma CoordinatorSlot(s: Mixed, own: Step, n: Node, id: string)
    requires CanTake(s, ByCoordinator(own)) && n in s.w.agents
    ensures n in Taken(s, ByCoordinator(own)).w.agents
    ensures SlotMoves(s, Taken(s, ByCoordinator(own)), ByCoordinator(own), n, id)
  {
    match own
    case Begin(_, _) =>
    case Unreachable(_, _) =>
    case LoadOk(_, _) =>
    case LoadFail(_, _) =>
    case Join(_) =>
    case RollbackNext(c) => RollbackSlot(s, c, n, id);
  }

  lemma RollbackSlot(s: Mixed, c: nat, n: Node, id: string)
    requires CanTake(s, ByCoordinator(RollbackNext(c))) && n in s.w.agents
    ensures n in Taken(s, ByCoordinator(RollbackNext(c))).w.agents
    ensures SlotMoves(s, Taken(s, ByCoordinator(RollbackNext(c))), ByCoordinator(RollbackNext(c)), n, id)
  {
    var k := s.w.coords[c].progress.k;
    assert k < |s.w.coords[c].ranks| && s.w.Rank(c, k).Created? <==> RollsBack(s.w, c, k);
  }

  lemma SlotStep(s: Mixed, s': Mixed, step: MixedStep, n: Node, id: string)
    requires NextBy(s, s', step) && n in s.w.agents
    ensures n in s'.w.agents && SlotMoves(s, s', step, n, id)
  {
    match step
    case ByCoordinator(own) => CoordinatorSlot(s, own, n, id);
    case ForeignBegin(_, _, _, _) =>
    case ForeignEnd(_, _, _) =>
    case ForeignStop(_, _) =>
  }

  // ---------- Who holds an id ----------

  /** No stop hits the id from the i-th step to before the j-th. */
  ghost predicate NoStop(run: seq<Mixed>, steps: seq<MixedStep>, i: nat, j: nat, n: Node, id: string)
    requires j <= |steps| <= |run|
  {
    forall b :: i <= b < j ==> !StopsAt(run[b], steps[b], n, id)
  }

  ghost predicate ReservedSince(run: seq<Mixed>, steps: seq<MixedStep>, d: nat, j: nat, n: Node, id: string)
    requires d < j <= |steps| <= |run|
  {
    ReservesAt(run[d], steps[d], n, id) && NoStop(run, steps, d + 1, j, n, id)
  }

  /** Some reservation after the a-th step has not been stopped since. */
  ghost predicate ReservedAnew(run: seq<Mixed>, steps: seq<MixedStep>, a: nat, j: nat, n: Node, id: string)
    requires j <= |steps| <= |run|
  {
    exists d: nat :: a < d < j && ReservedSince(run, steps, d, j, n, id)
  }

  /** The record t took the id at step a. */
  ghost predicate TookAt(run: seq<Mixed>, steps: seq<MixedStep>, a: nat, n: Node, id: string, t: Token)
    requires a < |steps| <= |run|
  {
    ReservesAt(run[a], steps[a], n, id) && run[a].At(n).next == t
  }

  /** What has become of an id that record t took at step a. */
  ghost predicate SlotAfter(run: seq<Mixed>, steps: seq<MixedStep>, a: nat, j: nat, n: Node, id: string, t: Token)
    requires j <= |steps| < |run|
  {
    && n in run[j].w.agents && t < run[j].At(n).next
    && (Holds(run[j], n, id, t) <==> NoStop(run, steps, a + 1, j, n, id))
    && ((exists u :: u != t && Holds(run[j], n, id, u)) <==> ReservedAnew(run, steps, a, j, n, id))
  }

  lemma SlotAtFirst(run: seq<Mixed>, steps: seq<MixedStep>, a: nat, n: Node, id: string, t: Token)
    requires a < |steps| < |run| && TookAt(run, steps, a, n, id, t) && NextBy(run[a], run[a + 1], steps[a])
    ensures SlotAfter(run, steps, a, a + 1, n, id, t)
  {
    SlotStep(run[a], run[a + 1], steps[a], n, id);
  }

  lemma NoStopNext(run: seq<Mixed>, steps: seq<MixedStep>, i: nat, j: nat, n: Node, id: string)
    requires i <= j < |steps| <= |run|
    ensures NoStop(run, steps, i, j + 1, n, id)
            <==> NoStop(run, steps, i, j, n, id) && !StopsAt(run[j], steps[j], n, id)
  {
  }

  lemma ReservedAnewNext(run: seq<Mixed>, steps: seq<MixedStep>, a: nat, j: nat, n: Node, id: string)
    requires a < j < |steps| <= |run|
    ensures ReservedAnew(run, steps, a, j + 1, n, id)
            <==> ReservesAt(run[j], steps[j], n, id)
                 || (ReservedAnew(run, steps, a, j, n, id) && !StopsAt(run[j], steps[j], n, id))
  {
    if ReservesAt(run[j], steps[j], n, id) {
      assert ReservedSince(run, steps, j, j + 1, n, id);
    }
    if d: nat :| a < d < j && ReservedSince(run, steps, d, j, n, id) {
      NoStopNext(run, steps, d + 1, j, n, id);
      assert !StopsAt(run[j], steps[j], n, id) ==> ReservedSince(run, steps, d, j + 1, n, id);
    }
    var next := j + 1;
    if d: nat :| a < d < next && ReservedSince(run, steps, d, next, n, id) {
      if d < j {
        NoStopNext(run, steps, d + 1, j, n, id);
        assert ReservedSince(run, steps, d, j, n, id);
      }
    }
  }

  lemma SlotAfterNext(run: seq<Mixed>, steps: seq<MixedStep>, a: nat, j: nat, n: Node, id: string, t: Token)
    requires a < j < |steps| < |run| && SlotAfter(run, steps, a, j, n, id, t) && NextBy(run[j], run[j + 1], steps[j])
    ensures SlotAfter(run, steps, a, j + 1, n, id, t)
  {
    SlotStep(run[j], run[j + 1], steps[j], n, id);
    NoStopNext(run, steps, a + 1, j, n, id);
    ReservedAnewNext(run, steps, a, j, n, id);
  }

  lemma {:induction false} SlotHistory(a0s: map<Node, AgentState>, plans: seq<seq<RankCall>>, run: seq<Mixed>,
                                       steps: seq<MixedStep>, a: nat, j: nat, n: Node, id: string, t: Token)
    requires IsMixedRun(a0s, plans, run, steps) && a < j <= |steps| && TookAt(run, steps, a, n, id, t)
    ensures SlotAfter(run, steps, a, j, n, id, t)
  {
    if j == a + 1 {
      assert StepAt(run, steps, a);
      SlotAtFirst(run, steps, a, n, id, t);
    } else {
      SlotHistory(a0s, plans, run, steps, a, j - 1, n, id, t);
      assert StepAt(run, steps, j - 1);
      SlotAfterNext(run, steps, a, j - 1, n, id, t);
    }
  }

  // ---------- What a rollback hits ----------

  predicate HasToken(p: Phase, t: Token) {
    (p.InLoad? || p.Created? || p.LoadError? || p.RolledBack?) && p.t == t
  }

  /** A rank's record is the one its own call reserved. */
  ghost predicate RankTookAt(run: seq<Mixed>, steps: seq<MixedStep>, a: nat, c: nat, i: nat, t: Token)
    requires a < |steps| <= |run|
  {
    && run[a].w.HasRank(c, i) && steps[a] == ByCoordinator(Begin(c, i))
    && TookAt(run, steps, a, run[a].w.Call(c, i).node, run[a].w.Call(c, i).id, t)
  }

  /** The call finds its id free, and t is the next record. */
  ghost predicate WouldTake(w: World, c: nat, i: nat, t: Token)
    requires w.HasRank(c, i)
  {
    var call := w.Call(c, i);
    call.node in w.agents && call.id !in w.agents[call.node].instances && w.agents[call.node].next == t
  }

  lemma OwnTokenStep(w: World, own: Step, c: nat, i: nat, t: Token)
    requires Enabled(w, own) && Apply(w, own).HasRank(c, i) && HasToken(Apply(w, own).Rank(c, i), t)
    ensures w.HasRank(c, i) && Apply(w, own).Call(c, i) == w.Call(c, i)
    ensures HasToken(w.Rank(c, i), t) || (own == Begin(c, i) && WouldTake(w, c, i, t))
  {
    match own
    case Begin(_, _) =>
    case Unreachable(_, _) =>
    case LoadOk(_, _) =>
    case LoadFail(_, _) =>
    case Join(_) =>
    case RollbackNext(_) =>
  }

  /** Where a rank's token comes from. */
  lemma TokenStep(s: Mixed, s': Mixed, step: MixedStep, c: nat, i: nat, t: Token)
    requires NextBy(s, s', step) && s'.w.HasRank(c, i) && HasToken(s'.w.Rank(c, i), t)
    ensures s.w.HasRank(c, i) && s'.w.Call(c, i) == s.w.Call(c, i)
    ensures HasToken(s.w.Rank(c, i), t) || (step == ByCoordinator(Begin(c, i)) && WouldTake(s.w, c, i, t))
  {
    if step.ByCoordinator? {
      OwnTokenStep(s.w, step.step, c, i, t);
    }
  }

  lemma {:induction false} TokenOrigin(a0s: map<Node, AgentState>, plans: seq<seq<RankCall>>, run: seq<Mixed>,
                                       steps: seq<MixedStep>, j: nat, c: nat, i: nat, t: Token) returns (a: nat)
    requires IsMixedRun(a0s, plans, run, steps) && j <= |steps| && run[j].w.HasRank(c, i)
             && HasToken(run[j].w.Rank(c, i), t)
    ensures a < j && RankTookAt(run, steps, a, c, i, t) && run[a].w.Call(c, i) == run[j].w.Call(c, i)
  {
    assert j > 0;
    assert StepAt(run, steps, j - 1);
    TokenStep(run[j - 1], run[j], steps[j - 1], c, i, t);
    if HasToken(run[j - 1].w.Rank(c, i), t) {
      a := TokenOrigin(a0s, plans, run, steps, j - 1, c, i, t);
    } else {
      a := j - 1;
    }
  }

  /** What the stop of a rollback hits, in any run with anything else going on: its own rank's record
      exactly if no stop has hit the id since the rank reserved it; another record exactly if the id has
      been reserved anew and that reservation not been stopped since; otherwise nothing. */
  lemma RollbackHits(a0s: map<Node, AgentState>, plans: seq<seq<RankCall>>, run: seq<Mixed>, steps: seq<MixedStep>,
                     j: nat, c: nat, k: nat)
    returns (a: nat)
    requires IsMixedRun(a0s, plans, run, steps) && j <= |steps| && RollsBack(run[j].w, c, k)
    ensures a < j && RankTookAt(run, steps, a, c, k, run[j].w.Rank(c, k).t)
    ensures var n, id, t := run[j].w.Call(c, k).node, run[j].w.Call(c, k).id, run[j].w.Rank(c, k).t;
            && (Holds(run[j], n, id, t) <==> NoStop(run, steps, a + 1, j, n, id))
            && (HitsAnother(run[j], c, k) <==> ReservedAnew(run, steps, a, j, n, id))
  {
    var t := run[j].w.Rank(c, k).t;
    a := TokenOrigin(a0s, plans, run, steps, j, c, k, t);
    SlotHistory(a0s, plans, run, steps, a, j, run[j].w.Call(c, k).node, run[j].w.Call(c, k).id, t);
  }

  // ---------- A rollback that hits another record ----------

  ghost predicate Reached(a0s: map<Node, AgentState>, plans: seq<seq<RankCall>>, s: Mixed) {
    exists run: seq<Mixed>, steps: seq<MixedStep> :: IsMixedRun(a0s, plans, run, steps) && run[|steps|] == s
  }

  lemma ReachStart(a0s: map<Node, AgentState>, plans: seq<seq<RankCall>>)
    requires AgentsWf(a0s)
    ensures Reached(a0s, plans, Mixed(StartWorld(a0s, plans), {}))
  {
    var run: seq<Mixed>, steps: seq<MixedStep> := [Mixed(StartWorld(a0s, plans), {})], [];
    assert IsMixedRun(a0s, plans, run, steps) && run[|steps|] == Mixed(StartWorld(a0s, plans), {});
  }

  lemma AppendStep(a0s: map<Node, AgentState>, plans: seq<seq<RankCall>>, run: seq<Mixed>, steps: seq<MixedStep>,
                   s: Mixed, step: MixedStep)
    requires IsMixedRun(a0s, plans, run, steps) && NextBy(run[|steps|], s, step)
    ensures IsMixedRun(a0s, plans, run + [s], steps + [step])
  {
    var run', steps' := run + [s], steps + [step];
    forall j | 0 <= j < |steps'| ensures StepAt(run', steps', j) {
      assert j < |steps| ==> StepAt(run, steps, j);
    }
  }

  lemma ReachStep(a0s: map<Node, AgentState>, plans: seq<seq<RankCall>>, s: Mixed, step: MixedStep) returns (s': Mixed)
    requires Reached(a0s, plans, s) && CanTake(s, step)
    ensures Reached(a0s, plans, s') && s' == Taken(s, step) && AgentsWf(s'.w.agents)
  {
    s' := Taken(s, step);
    StepKeepsWf(s, step);
    var run: seq<Mixed>, steps: seq<MixedStep> :| IsMixedRun(a0s, plans, run, steps) && run[|steps|] == s;
    AppendStep(a0s, plans, run, steps, s', step);
    assert (run + [s'])[|steps + [step]|] == s';
  }

  /** Rank 0 of two is reserved. */
  lemma FirstRankReserved(a0s: map<Node, AgentState>, plan: seq<RankCall>) returns (s: Mixed, t: Token)
    requires AgentsWf(a0s) && |plan| == 2 && plan[0].node in a0s && plan[0].id !in a0s[plan[0].node].instances
    ensures Reached(a0s, [plan], s) && AgentsWf(s.w.agents)
            && s.w.coords == [Coord(plan, [InLoad(t), Starting], Running)]
    ensures Holds(s, plan[0].node, plan[0].id, t) && t < s.At(plan[0].node).next && t in s.At(plan[0].node).recs
  {
    ReachStart(a0s, [plan]);
    var s0 := Mixed(StartWorld(a0s, [plan]), {});
    assert s0.w.coords == [Coord(plan, [Starting, Starting], Running)] by {
      assert StartOf(plan).ranks == [Starting, Starting];
    }
    t := a0s[plan[0].node].next;
    s := ReachStep(a0s, [plan], s0, ByCoordinator(Begin(0, 0)));
    assert s.w.coords[0].ranks == [InLoad(t), Starting];
  }

  /** Rank 0 of two is created, rank 1 is not reached. */
  lemma FirstRankOnly(a0s: map<Node, AgentState>, plan: seq<RankCall>) returns (s: Mixed, t: Token)
    requires AgentsWf(a0s) && |plan| == 2 && plan[0].node in a0s && plan[0].id !in a0s[plan[0].node].instances
    ensures Reached(a0s, [plan], s) && AgentsWf(s.w.agents)
            && s.w.coords == [Coord(plan, [Created(t), Rejected], Running)]
    ensures Holds(s, plan[0].node, plan[0].id, t) && t < s.At(plan[0].node).next
  {
    var s1;
    s1, t := FirstRankReserved(a0s, plan);
    var s2 := ReachStep(a0s, [plan], s1, ByCoordinator(LoadOk(0, 0)));
    assert s2.w.coords[0].ranks == [Created(t), Starting];
    s := ReachStep(a0s, [plan], s2, ByCoordinator(Unreachable(0, 1)));
    assert s.w.coords[0].ranks == [Created(t), Rejected];
  }

  /** Self-heal replaces a record: the id is stopped and deployed again. */
  lemma Heals(a0s: map<Node, AgentState>, plans: seq<seq<RankCall>>, s: Mixed, n: Node, id: string, t: Token,
              modelName: string, spec: DeploySpec) returns (s': Mixed, u: Token)
    requires Reached(a0s, plans, s) && AgentsWf(s.w.agents) && Holds(s, n, id, t) && t < s.At(n).next
    ensures Reached(a0s, plans, s') && AgentsWf(s'.w.agents) && s'.w.coords == s.w.coords && Holds(s', n, id, u)
            && u != t
  {
    StopEffect(s.At(n), id);
    var s1 := ReachStep(a0s, plans, s, ForeignStop(n, id));
    u := s1.At(n).next;
    var s2 := ReachStep(a0s, plans, s1, ForeignBegin(n, id, modelName, spec));
    s' := ReachStep(a0s, plans, s2, ForeignEnd(n, u, true));
  }

  lemma JoinRollsBack(w: World, plan: seq<RankCall>, t: Token)
    requires Enabled(w, Join(0)) && |plan| == 2 && w.coords == [Coord(plan, [Created(t), Rejected], Running)]
    ensures var w' := Apply(w, Join(0)); RollsBack(w', 0, 0) && w'.Call(0, 0) == plan[0] && w'.Rank(0, 0) == Created(t)
  {
    assert !w.coords[0].ranks[1].Created?;
  }

  /** Between the agent's reply and the rollback self-heal redeploys rank 0: the rollback then stops the
      new instance. */
  lemma RollbackCanHitAnother(a0s: map<Node, AgentState>, plan: seq<RankCall>, modelName: string, spec: DeploySpec)
    requires AgentsWf(a0s) && |plan| == 2 && plan[0].node in a0s && plan[0].id !in a0s[plan[0].node].instances
    ensures exists s :: Reached(a0s, [plan], s) && HitsAnother(s, 0, 0)
  {
    var s1, t := FirstRankOnly(a0s, plan);
    var s2, u := Heals(a0s, [plan], s1, plan[0].node, plan[0].id, t, modelName, spec);
    var s3 := ReachStep(a0s, [plan], s2, ByCoordinator(Join(0)));
    JoinRollsBack(s2.w, plan, t);
    assert Holds(s3, plan[0].node, plan[0].id, u);
  }

  /** The next turn of the rollback stops a record that its rank did not make. */
  ghost predicate HitsAnother(s: Mixed, c: nat, k: nat) {
    && RollsBack(s.w, c, k)
    && exists u :: u != s.w.Rank(c, k).t && Holds(s, s.w.Call(c, k).node, s.w.Call(c, k).id, u)
  }
}
