/** Safety of concurrent pipeline deployments: an invariant of every interleaving, and what it
    says about a coordinator that has succeeded or failed. */
module PPSafety {
  import opened AgentModel
  import opened PPDeploy

  ghost function StartOf(plan: seq<RankCall>): Coord {
    Coord(plan, seq(|plan|, _ => Starting), Running)
  }

  ghost function StartWorld(agents: map<Node, AgentState>, plans: seq<seq<RankCall>>): World {
    World(agents, seq(|plans|, k requires 0 <= k < |plans| => StartOf(plans[k])), map[])
  }

  ghost predicate Next(w: World, w': World) {
    exists step :: Enabled(w, step) && w' == Apply(w, step)
  }

  ghost predicate IsRun(agents: map<Node, AgentState>, plans: seq<seq<RankCall>>, run: seq<World>) {
    && AgentsWf(agents)
    && |run| > 0 && run[0] == StartWorld(agents, plans)
    && forall i :: 0 <= i < |run| - 1 ==> Next(run[i], run[i + 1])
  }

  // ---------- The invariant ----------

  /** The record a call makes, in a given state. */
  function RecordOf(call: RankCall, state: InstanceState): Instance {
    NewInstance(call.id, call.modelName, call.spec).(state := state)
  }

  ghost predicate HoldsRecord(a0: AgentState, a: AgentState, call: RankCall, t: Token, state: InstanceState) {
    && call.id !in a0.instances && a0.next <= t
    && t in a.recs && call.id in a.instances && a.instances[call.id] == t && a.recs[t] == RecordOf(call, state)
    && (state == Ready ==> call.id in a.engines && a.engines[call.id] == t)
  }

  ghost predicate RankInv(a0s: map<Node, AgentState>, agents: map<Node, AgentState>,
                          owner: map<(Node, Token), (nat, nat)>, me: (nat, nat), call: RankCall, p: Phase)
  {
    var n := call.node;
    if p.Keeps() then
      && n in a0s && n in agents && (n, p.t) in owner && owner[(n, p.t)] == me
      && HoldsRecord(a0s[n], agents[n], call, p.t, p.State())
    else
      p.RolledBack? ==>
        && n in a0s && n in agents && (n, p.t) in owner && owner[(n, p.t)] == me
        && call.id !in a0s[n].instances
        && (call.id in agents[n].instances ==> agents[n].instances[call.id] != p.t)
  }

  /** What the start left in the tables is still there, and everything else is some rank's. */
  ghost predicate Preserved(a0: AgentState, a: AgentState) {
    && a0.next <= a.next
    && (forall id :: id in a0.instances ==>
          id in a.instances && a.instances[id] == a0.instances[id] && a.instances[id] in a.recs
            && a0.instances[id] in a0.recs
          && a.Rec(id) == a0.Rec(id)
          && (id in a.engines <==> id in a0.engines) && (id in a0.engines ==> a.engines[id] == a0.engines[id]))
  }

  ghost predicate OwnedBy(w: World, n: Node, id: string, t: Token) {
    && (n, t) in w.owner
    && var (c, i) := w.owner[(n, t)];
       w.HasRank(c, i) && w.Call(c, i).node == n && w.Call(c, i).id == id && w.Rank(c, i).Keeps() && w.Rank(c, i).t == t
  }

  ghost predicate NodeInv(a0: AgentState, w: World, n: Node)
    requires n in w.agents
  {
    var a := w.agents[n];
    && a0.Wf() && a.Wf() && Preserved(a0, a)
    && (forall t :: (n, t) in w.owner ==> a0.next <= t < a.next)
    && (forall id :: id in a.instances && id !in a0.instances ==> OwnedBy(w, n, id, a.instances[id]))
  }

  ghost predicate CoordInv(coord: Coord) {
    && |coord.plan| == |coord.ranks|
    && var ranks := coord.ranks;
       match coord.progress
       case Running => forall i :: 0 <= i < |ranks| ==> !ranks[i].RolledBack?
       case Succeeded => forall i :: 0 <= i < |ranks| ==> ranks[i].Created?
       case RollingBack(k) =>
         && k <= |ranks|
         && (exists i :: 0 <= i < |ranks| && (ranks[i].LoadError? || ranks[i].Rejected?))
         && (forall i :: 0 <= i < |ranks| ==> ranks[i].Finished() || ranks[i].RolledBack?)
         && (forall i :: 0 <= i < k ==> !ranks[i].Created?)
         && (forall i :: k <= i < |ranks| ==> !ranks[i].RolledBack?)
       case Failed =>
         && (exists i :: 0 <= i < |ranks| && (ranks[i].LoadError? || ranks[i].Rejected?))
         && (forall i :: 0 <= i < |ranks| ==> ranks[i].LoadError? || ranks[i].Rejected? || ranks[i].RolledBack?)
  }

  ghost predicate NodesInv(a0s: map<Node, AgentState>, w: World) {
    && w.agents.Keys == a0s.Keys
    && (forall n :: n in w.agents ==> NodeInv(a0s[n], w, n))
  }

  ghost predicate RankOk(a0s: map<Node, AgentState>, w: World, c: nat, i: nat)
    requires w.HasRank(c, i)
  {
    RankInv(a0s, w.agents, w.owner, (c, i), w.Call(c, i), w.Rank(c, i))
  }

  ghost predicate RanksInv(a0s: map<Node, AgentState>, w: World) {
    forall c: nat, i: nat :: w.HasRank(c, i) ==> RankOk(a0s, w, c, i)
  }

  ghost predicate CoordsInv(w: World) {
    forall c: nat :: c < |w.coords| ==> CoordInv(w.coords[c])
  }

  ghost predicate Inv(a0s: map<Node, AgentState>, w: World) {
    NodesInv(a0s, w) && RanksInv(a0s, w) && CoordsInv(w)
  }

  // ---------- One goroutine touches one id of one agent ----------

  /** Tables that differ at most at `id` and in the record `t`. */
  ghost predicate OnlyAt(a: AgentState, a': AgentState, id: string, t: Token) {
    && a.next <= a'.next
    && (forall i :: i != id ==>
          && (i in a'.instances <==> i in a.instances) && (i in a.instances ==> a'.instances[i] == a.instances[i])
          && (i in a'.engines <==> i in a.engines) && (i in a.engines ==> a'.engines[i] == a.engines[i]))
    && (forall r :: r in a.recs && r != t ==> r in a'.recs && a'.recs[r] == a.recs[r])
  }

  /** A rank's own claim survives what another rank does to one id of one agent. */
  lemma RankFrame(a0s: map<Node, AgentState>, agents: map<Node, AgentState>, owner: map<(Node, Token), (nat, nat)>,
                  n: Node, a': AgentState, id: string, t: Token, me: (nat, nat), other: (nat, nat),
                  call: RankCall, p: Phase)
    requires other != me && RankInv(a0s, agents, owner, other, call, p)
    requires n in agents && OnlyAt(agents[n], a', id, t)
    requires (n, t) in owner ==> owner[(n, t)] == me
    requires id in agents[n].instances ==> agents[n].instances[id] == t && (n, t) in owner
    requires id in a'.instances ==> a'.instances[id] == t
    ensures RankInv(a0s, agents[n := a'], owner[(n, t) := me], other, call, p)
  {
    if call.node == n && p.Keeps() {
      assert p.t != t && call.id != id;
    }
  }

  /** Where this rank may write: under a free id with a fresh token, or where its own record is. */
  ghost predicate MayTouch(w: World, c: nat, i: nat, t: Token)
    requires w.HasRank(c, i)
  {
    var call := w.Call(c, i);
    && call.node in w.agents
    && var a := w.agents[call.node];
       if call.id in a.instances then a.instances[call.id] == t && (call.node, t) in w.owner
          && w.owner[(call.node, t)] == (c, i)
       else (call.node, t) !in w.owner && t !in a.recs
  }

  ghost function Moved(w: World, c: nat, i: nat, p: Phase, a': AgentState, t: Token): World
    requires w.HasRank(c, i)
  {
    var n := w.Call(c, i).node;
    w.SetRank(c, i, p).(agents := w.agents[n := a'], owner := w.owner[(n, t) := (c, i)])
  }

  /** What a goroutine has to establish about the move it makes. */
  ghost predicate GoodMove(a0s: map<Node, AgentState>, w: World, c: nat, i: nat, p: Phase, a': AgentState, t: Token)
    requires w.HasRank(c, i)
  {
    var call := w.Call(c, i);
    && MayTouch(w, c, i, t) && call.node in a0s
    && OnlyAt(w.agents[call.node], a', call.id, t) && a'.Wf() && t < a'.next
    && call.id !in a0s[call.node].instances && a0s[call.node].next <= t
    && (call.id in a'.instances ==> p.Keeps() && p.t == t && a'.instances[call.id] == t)
  }

  lemma RanksKeep(a0s: map<Node, AgentState>, w: World, c: nat, i: nat, p: Phase, a': AgentState, t: Token, c': nat,
                  i': nat)
    requires w.HasRank(c, i) && w.HasRank(c', i') && (c', i') != (c, i) && GoodMove(a0s, w, c, i, p, a', t)
    requires RankOk(a0s, w, c', i')
    ensures Moved(w, c, i, p, a', t).HasRank(c', i') && RankOk(a0s, Moved(w, c, i, p, a', t), c', i')
  {
    var w', call := Moved(w, c, i, p, a', t), w.Call(c, i);
    assert w'.Call(c', i') == w.Call(c', i') && w'.Rank(c', i') == w.Rank(c', i');
    RankFrame(a0s, w.agents, w.owner, call.node, a', call.id, t, (c, i), (c', i'), w.Call(c', i'), w.Rank(c', i'));
  }

  lemma PreservedFrame(a0: AgentState, a: AgentState, a': AgentState, id: string, t: Token)
    requires a0.Wf() && a.Wf() && Preserved(a0, a) && OnlyAt(a, a', id, t) && id !in a0.instances
    requires t in a.recs ==> a.recs[t].id == id
    ensures Preserved(a0, a')
  {
    assert forall j :: j in a0.instances ==> a.Rec(j).id == j;
  }

  lemma OwnedFrame(w: World, c: nat, i: nat, p: Phase, a': AgentState, t: Token, n: Node, id: string, r: Token)
    requires w.HasRank(c, i) && OwnedBy(w, n, id, r) && (n, id) != (w.Call(c, i).node, w.Call(c, i).id)
    requires (n, r) != (w.Call(c, i).node, t)
    ensures OwnedBy(Moved(w, c, i, p, a', t), n, id, r)
  {
    var w' := Moved(w, c, i, p, a', t);
    var (c', i') := w.owner[(n, r)];
    assert (c', i') != (c, i);
    assert w'.owner[(n, r)] == (c', i') && w'.Call(c', i') == w.Call(c', i') && w'.Rank(c', i') == w.Rank(c', i');
  }

  lemma NodesKeep(a0s: map<Node, AgentState>, w: World, c: nat, i: nat, p: Phase, a': AgentState, t: Token, n: Node)
    requires w.HasRank(c, i) && GoodMove(a0s, w, c, i, p, a', t)
    requires n in w.agents && n in a0s && NodeInv(a0s[n], w, n)
    ensures var w' := Moved(w, c, i, p, a', t);
            n in w'.agents && NodeInv(a0s[n], w', n)
  {
    var w', call, a0 := Moved(w, c, i, p, a', t), w.Call(c, i), a0s[n];
    var a := w.agents[n];
    if n == call.node {
      PreservedFrame(a0, a, a', call.id, t);
      forall id | id in a'.instances && id !in a0.instances ensures OwnedBy(w', n, id, a'.instances[id]) {
        if id != call.id {
          assert a.recs[a.instances[id]].id == id;
          OwnedFrame(w, c, i, p, a', t, n, id, a.instances[id]);
        }
      }
    } else {
      forall id | id in a.instances && id !in a0.instances ensures OwnedBy(w', n, id, a.instances[id]) {
        OwnedFrame(w, c, i, p, a', t, n, id, a.instances[id]);
      }
    }
  }

  lemma MoveKeepsRanks(a0s: map<Node, AgentState>, w: World, c: nat, i: nat, p: Phase, a': AgentState, t: Token)
    requires RanksInv(a0s, w) && w.HasRank(c, i) && GoodMove(a0s, w, c, i, p, a', t)
    requires RankOk(a0s, Moved(w, c, i, p, a', t), c, i)
    ensures RanksInv(a0s, Moved(w, c, i, p, a', t))
  {
    var w' := Moved(w, c, i, p, a', t);
    forall c': nat, i': nat | w'.HasRank(c', i') ensures RankOk(a0s, w', c', i') {
      if (c', i') != (c, i) {
        assert w.HasRank(c', i');
        RanksKeep(a0s, w, c, i, p, a', t, c', i');
      }
    }
  }

  lemma MoveKeepsNodes(a0s: map<Node, AgentState>, w: World, c: nat, i: nat, p: Phase, a': AgentState, t: Token)
    requires NodesInv(a0s, w) && w.HasRank(c, i) && GoodMove(a0s, w, c, i, p, a', t)
    ensures NodesInv(a0s, Moved(w, c, i, p, a', t))
  {
    var w' := Moved(w, c, i, p, a', t);
    assert w'.agents.Keys == a0s.Keys;
    forall n | n in w'.agents ensures NodeInv(a0s[n], w', n) {
      assert n in w.agents && NodeInv(a0s[n], w, n);
      NodesKeep(a0s, w, c, i, p, a', t, n);
    }
  }

  /** A goroutine that touches only its own id and leaves its own rank in order keeps the invariant. */
  lemma MoveKeeps(a0s: map<Node, AgentState>, w: World, c: nat, i: nat, p: Phase, a': AgentState, t: Token)
    requires Inv(a0s, w) && w.HasRank(c, i) && GoodMove(a0s, w, c, i, p, a', t)
    requires var w' := Moved(w, c, i, p, a', t);
             RankOk(a0s, w', c, i) && CoordInv(w'.coords[c])
    ensures Inv(a0s, Moved(w, c, i, p, a', t))
  {
    MoveKeepsRanks(a0s, w, c, i, p, a', t);
    MoveKeepsNodes(a0s, w, c, i, p, a', t);
  }

  // ---------- Every step keeps the invariant ----------

  /** Changing what no table and no claim depends on. */
  lemma BookkeepingKeeps(a0s: map<Node, AgentState>, w: World, w': World)
    requires NodesInv(a0s, w) && RanksInv(a0s, w) && w'.agents == w.agents && w'.owner == w.owner
             && |w'.coords| == |w.coords|
    requires forall c: nat, i: nat :: w'.HasRank(c, i) <==> w.HasRank(c, i)
    requires forall c: nat, i: nat :: w.HasRank(c, i) ==>
               && w'.Call(c, i) == w.Call(c, i)
               && (w'.Rank(c, i) == w.Rank(c, i) || (w.Rank(c, i).Starting? && w'.Rank(c, i).Rejected?))
    ensures NodesInv(a0s, w') && RanksInv(a0s, w')
  {
    forall n | n in w'.agents ensures NodeInv(a0s[n], w', n) {
      assert NodeInv(a0s[n], w, n);
      forall id | id in w.agents[n].instances && id !in a0s[n].instances
        ensures OwnedBy(w', n, id, w.agents[n].instances[id])
      {
        var t := w.agents[n].instances[id];
        assert OwnedBy(w, n, id, t);
        var (c, i) := w.owner[(n, t)];
        assert w.HasRank(c, i);
      }
    }
    forall c: nat, i: nat | w'.HasRank(c, i) ensures RankOk(a0s, w', c, i) {
      assert RankOk(a0s, w, c, i);
    }
  }

  lemma RejectKeeps(a0s: map<Node, AgentState>, w: World, c: nat, i: nat)
    requires Inv(a0s, w) && w.HasRank(c, i) && w.Rank(c, i).Starting?
    ensures Inv(a0s, w.SetRank(c, i, Rejected))
  {
    assert CoordInv(w.coords[c]);
    BookkeepingKeeps(a0s, w, w.SetRank(c, i, Rejected));
  }

  lemma ReserveOnlyAt(a: AgentState, call: RankCall)
    requires a.Wf() && call.id !in a.instances
    ensures var a' := Reserve(a, call.id, call.modelName, call.spec).0;
            && OnlyAt(a, a', call.id, a.next) && a'.Wf() && a.next < a'.next
            && a'.instances[call.id] == a.next && a'.recs[a.next] == RecordOf(call, Loading)
  {
  }

  lemma BeginGood(a0s: map<Node, AgentState>, w: World, c: nat, i: nat)
    requires w.HasRank(c, i) && w.Call(c, i).node in w.agents && w.Call(c, i).node in a0s
    requires NodeInv(a0s[w.Call(c, i).node], w, w.Call(c, i).node)
    requires w.Call(c, i).id !in w.agents[w.Call(c, i).node].instances
    ensures var call := w.Call(c, i);
            var a, t := w.agents[call.node], w.agents[call.node].next;
            var a' := Reserve(a, call.id, call.modelName, call.spec).0;
            GoodMove(a0s, w, c, i, InLoad(t), a', t) && RankOk(a0s, Moved(w, c, i, InLoad(t), a', t), c, i)
  {
    ReserveOnlyAt(w.agents[w.Call(c, i).node], w.Call(c, i));
  }

  lemma StartedCoord(coord: Coord, i: nat, t: Token)
    requires CoordInv(coord) && i < |coord.ranks| && coord.ranks[i].Starting?
    ensures CoordInv(coord.(ranks := coord.ranks[i := InLoad(t)]))
  {
  }

  lemma LoadedCoord(coord: Coord, i: nat, p: Phase)
    requires CoordInv(coord) && i < |coord.ranks| && coord.ranks[i].InLoad? && (p.Created? || p.LoadError?)
    ensures CoordInv(coord.(ranks := coord.ranks[i := p]))
  {
  }

  lemma BeginKeeps(a0s: map<Node, AgentState>, w: World, c: nat, i: nat)
    requires Inv(a0s, w) && Enabled(w, Step.Begin(c, i))
    ensures Inv(a0s, Apply(w, Step.Begin(c, i)))
  {
    var call := w.Call(c, i);
    var a, t := w.agents[call.node], w.agents[call.node].next;
    assert NodeInv(a0s[call.node], w, call.node) && CoordInv(w.coords[c]);
    if call.id in a.instances {
      RejectKeeps(a0s, w, c, i);
    } else {
      BeginGood(a0s, w, c, i);
      StartedCoord(w.coords[c], i, t);
      MoveKeeps(a0s, w, c, i, InLoad(t), Reserve(a, call.id, call.modelName, call.spec).0, t);
    }
  }

  lemma CommitOnlyAt(a: AgentState, id: string, t: Token, ok: bool)
    requires a.Wf() && id in a.instances && a.instances[id] == t
    ensures var a' := if ok then CommitReady(a, t) else CommitError(a, t);
            && OnlyAt(a, a', id, t) && a'.Wf() && a'.instances == a.instances
            && a'.recs[t] == a.recs[t].(state := if ok then Ready else Error)
            && a'.engines == if ok then a.engines[id := t] else a.engines
  {
  }

  /** The move a commit makes. */
  lemma LoadMoves(a0s: map<Node, AgentState>, w: World, c: nat, i: nat, ok: bool)
    requires w.HasRank(c, i) && w.Rank(c, i).InLoad? && RankOk(a0s, w, c, i)
    requires NodeInv(a0s[w.Call(c, i).node], w, w.Call(c, i).node)
    ensures var call, t := w.Call(c, i), w.Rank(c, i).t;
            var a := w.agents[call.node];
            GoodMove(a0s, w, c, i, if ok then Created(t) else LoadError(t),
                     if ok then CommitReady(a, t) else CommitError(a, t), t)
  {
    CommitOnlyAt(w.agents[w.Call(c, i).node], w.Call(c, i).id, w.Rank(c, i).t, ok);
  }

  lemma LoadGood(a0s: map<Node, AgentState>, w: World, c: nat, i: nat, ok: bool)
    requires w.HasRank(c, i) && w.Rank(c, i).InLoad? && RankOk(a0s, w, c, i)
    requires NodeInv(a0s[w.Call(c, i).node], w, w.Call(c, i).node)
    ensures var call, t := w.Call(c, i), w.Rank(c, i).t;
            var a := w.agents[call.node];
            var a' := if ok then CommitReady(a, t) else CommitError(a, t);
            var p := if ok then Created(t) else LoadError(t);
            && GoodMove(a0s, w, c, i, p, a', t) && RankOk(a0s, Moved(w, c, i, p, a', t), c, i)
            && w.owner[(call.node, t) := (c, i)] == w.owner
  {
    LoadMoves(a0s, w, c, i, ok);
    var call, t := w.Call(c, i), w.Rank(c, i).t;
    assert HoldsRecord(a0s[call.node], w.agents[call.node], call, t, Loading);
  }

  lemma LoadKeeps(a0s: map<Node, AgentState>, w: World, c: nat, i: nat, ok: bool)
    requires Inv(a0s, w) && Enabled(w, if ok then LoadOk(c, i) else LoadFail(c, i))
    ensures Inv(a0s, Apply(w, if ok then LoadOk(c, i) else LoadFail(c, i)))
  {
    var call, t := w.Call(c, i), w.Rank(c, i).t;
    var a := w.agents[call.node];
    assert NodeInv(a0s[call.node], w, call.node) && CoordInv(w.coords[c]) && RankOk(a0s, w, c, i);
    LoadGood(a0s, w, c, i, ok);
    LoadedCoord(w.coords[c], i, if ok then Created(t) else LoadError(t));
    MoveKeeps(a0s, w, c, i, if ok then Created(t) else LoadError(t),
              if ok then CommitReady(a, t) else CommitError(a, t), t);
  }

  lemma StopOnlyAt(a: AgentState, id: string, t: Token)
    requires a.Wf() && id in a.instances && a.instances[id] == t
    ensures OnlyAt(a, Stop(a, id), id, t) && Stop(a, id).Wf() && id !in Stop(a, id).instances && t < a.next
  {
    var a' := Stop(a, id);
    forall i | i in a'.instances ensures a'.instances[i] in a'.recs && a'.Rec(i).id == i {
      assert a.Rec(i).id == i;
    }
  }

  /** A rollback stop removes the very record its own rank created. */
  lemma RollbackStopsOwn(a0s: map<Node, AgentState>, w: World, c: nat, k: nat)
    requires w.HasRank(c, k) && w.Rank(c, k).Created? && RankOk(a0s, w, c, k)
    requires NodeInv(a0s[w.Call(c, k).node], w, w.Call(c, k).node)
    ensures var call, t := w.Call(c, k), w.Rank(c, k).t;
            var a := w.agents[call.node];
            && call.id in a.instances && a.instances[call.id] == t
            && call.id !in a0s[call.node].instances && w.owner[(call.node, t)] == (c, k)
            && w.owner[(call.node, t) := (c, k)] == w.owner
            && GoodMove(a0s, w, c, k, RolledBack(t), Stop(a, call.id), t)
            && RankOk(a0s, Moved(w, c, k, RolledBack(t), Stop(a, call.id), t), c, k)
  {
    StopOnlyAt(w.agents[w.Call(c, k).node], w.Call(c, k).id, w.Rank(c, k).t);
  }

  lemma RollbackStopKeeps(a0s: map<Node, AgentState>, w: World, c: nat, k: nat)
    requires NodesInv(a0s, w) && RanksInv(a0s, w) && w.HasRank(c, k) && w.Rank(c, k).Created?
    ensures var call, t := w.Call(c, k), w.Rank(c, k).t;
            && call.node in w.agents && w.agents[call.node].Wf()
            && var w1 := w.SetRank(c, k, RolledBack(t))
                          .(agents := w.agents[call.node := Stop(w.agents[call.node], call.id)]);
               NodesInv(a0s, w1) && RanksInv(a0s, w1)
  {
    var call, t := w.Call(c, k), w.Rank(c, k).t;
    assert RankOk(a0s, w, c, k) && NodeInv(a0s[call.node], w, call.node);
    RollbackStopsOwn(a0s, w, c, k);
    var a' := Stop(w.agents[call.node], call.id);
    MoveKeepsRanks(a0s, w, c, k, RolledBack(t), a', t);
    MoveKeepsNodes(a0s, w, c, k, RolledBack(t), a', t);
  }

  lemma SetProgressKeeps(a0s: map<Node, AgentState>, w: World, c: nat, p: Progress)
    requires NodesInv(a0s, w) && RanksInv(a0s, w) && c < |w.coords|
    ensures NodesInv(a0s, w.SetProgress(c, p)) && RanksInv(a0s, w.SetProgress(c, p))
  {
    BookkeepingKeeps(a0s, w, w.SetProgress(c, p));
  }

  /** The rollback cursor only ever has stopped or failed ranks behind it. */
  lemma RollbackCoord(w: World, c: nat)
    requires CoordsInv(w) && Enabled(w, RollbackNext(c))
    ensures CoordsInv(Apply(w, RollbackNext(c)))
  {
    assert CoordInv(w.coords[c]);
    var k, ranks := w.coords[c].progress.k, w.coords[c].ranks;
    var i :| 0 <= i < |ranks| && (ranks[i].LoadError? || ranks[i].Rejected?);
    var ranks' := Apply(w, RollbackNext(c)).coords[c].ranks;
    assert ranks'[i] == ranks[i];
  }

  /** The stop and the cursor's advance, one after the other. */
  lemma RollbackIsStopThenAdvance(w: World, c: nat, k: nat)
    requires Enabled(w, RollbackNext(c)) && w.HasRank(c, k) && w.coords[c].progress == RollingBack(k)
             && w.Rank(c, k).Created?
    ensures var call, t := w.Call(c, k), w.Rank(c, k).t;
            Apply(w, RollbackNext(c))
            == w.SetRank(c, k, RolledBack(t)).(agents := w.agents[call.node := Stop(w.agents[call.node], call.id)])
                .SetProgress(c, RollingBack(k + 1))
  {
  }

  lemma RollbackKeeps(a0s: map<Node, AgentState>, w: World, c: nat)
    requires Inv(a0s, w) && Enabled(w, RollbackNext(c))
    ensures NodesInv(a0s, Apply(w, RollbackNext(c))) && RanksInv(a0s, Apply(w, RollbackNext(c)))
  {
    var k, w' := w.coords[c].progress.k, Apply(w, RollbackNext(c));
    if k < |w.coords[c].ranks| && w.Rank(c, k).Created? {
      var call, t := w.Call(c, k), w.Rank(c, k).t;
      RollbackStopKeeps(a0s, w, c, k);
      RollbackIsStopThenAdvance(w, c, k);
      var w1 := w.SetRank(c, k, RolledBack(t)).(agents := w.agents[call.node := Stop(w.agents[call.node], call.id)]);
      SetProgressKeeps(a0s, w1, c, RollingBack(k + 1));
    } else {
      SetProgressKeeps(a0s, w, c, w'.coords[c].progress);
    }
  }

  lemma JoinKeeps(a0s: map<Node, AgentState>, w: World, c: nat)
    requires Inv(a0s, w) && Enabled(w, Join(c))
    ensures Inv(a0s, Apply(w, Join(c)))
  {
    assert CoordInv(w.coords[c]);
    BookkeepingKeeps(a0s, w, Apply(w, Join(c)));
  }

  lemma StepKeeps(a0s: map<Node, AgentState>, w: World, step: Step)
    requires Inv(a0s, w) && Enabled(w, step)
    ensures Inv(a0s, Apply(w, step))
  {
    match step
    case Begin(c, i) => BeginKeeps(a0s, w, c, i);
    case Unreachable(c, i) => RejectKeeps(a0s, w, c, i);
    case LoadOk(c, i) => LoadKeeps(a0s, w, c, i, true);
    case LoadFail(c, i) => LoadKeeps(a0s, w, c, i, false);
    case Join(c) => JoinKeeps(a0s, w, c);
    case RollbackNext(c) =>
      RollbackKeeps(a0s, w, c);
      RollbackCoord(w, c);
  }

  lemma {:induction false} RunKeeps(a0s: map<Node, AgentState>, plans: seq<seq<RankCall>>, run: seq<World>, i: nat)
    requires IsRun(a0s, plans, run) && i < |run|
    ensures Inv(a0s, run[i])
  {
    if i > 0 {
      RunKeeps(a0s, plans, run, i - 1);
      assert Next(run[i - 1], run[(i - 1) + 1]);
      var step :| Enabled(run[i - 1], step) && run[i] == Apply(run[i - 1], step);
      StepKeeps(a0s, run[i - 1], step);
    }
  }

  ghost predicate PlansAre(w: World, plans: seq<seq<RankCall>>) {
    |w.coords| == |plans| && forall c: nat :: c < |plans| ==> w.coords[c].plan == plans[c]
  }

  lemma StepKeepsPlans(w: World, step: Step, plans: seq<seq<RankCall>>)
    requires Enabled(w, step) && PlansAre(w, plans)
    ensures PlansAre(Apply(w, step), plans)
  {
  }

  /** The plans are fixed when the calls are made. */
  lemma {:induction false} PlansFixed(a0s: map<Node, AgentState>, plans: seq<seq<RankCall>>, run: seq<World>, j: nat)
    requires IsRun(a0s, plans, run) && j < |run|
    ensures PlansAre(run[j], plans)
  {
    if j > 0 {
      PlansFixed(a0s, plans, run, j - 1);
      assert Next(run[j - 1], run[(j - 1) + 1]);
      var step :| Enabled(run[j - 1], step) && run[j] == Apply(run[j - 1], step);
      StepKeepsPlans(run[j - 1], step, plans);
    }
  }
}
