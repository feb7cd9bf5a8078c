/** Self-heal: the health loop probes every instance and restarts those without a healthy engine. */
module SelfHeal {
  import opened Common
  import opened AgentModel

  /** What the outside world answers during one round: is the engine with this token healthy,
      does the load of this specification by the deployer with this token succeed. */
  datatype Answers = Answers(healthy: Token -> bool, loads: (Token, DeploySpec) -> bool)

  /** Stop, then deploy again from the old record. */
  function Restart(s: AgentState, id: string, modelsDir: string, a: Answers): AgentState
    requires s.Wf() && id in s.instances
  {
    var inst := s.recs[s.instances[id]];
    var s1 := Stop(s, id);
    Deploy(s1, id, inst.modelName, SpecOf(inst, modelsDir), a.loads(s1.next, SpecOf(inst, modelsDir))).0
  }

  /** Whether the load of a restart succeeds. */
  predicate Reloads(s: AgentState, id: string, modelsDir: string, a: Answers)
    requires s.Wf() && id in s.instances
  {
    a.loads(s.next, SpecOf(s.Rec(id), modelsDir))
  }

  /** Self-heal orders again what the record says; the path is recomputed and the distributed backend
      forgotten. */
  lemma HealOrdersTheSame(inst: Instance, modelsDir: string)
    ensures NewInstance(inst.id, inst.modelName, SpecOf(inst, modelsDir)) == inst.(state := Loading)
    ensures SpecOf(inst, modelsDir).modelPath == modelsDir + "/" + inst.modelName
    ensures SpecOf(inst, modelsDir).distributedBackend == ""
  {
  }

  predicate NeedsRestart(s: AgentState, id: string, a: Answers) {
    id in s.instances && (id !in s.engines || !a.healthy(s.engines[id]))
  }

  function HealthStep(s: AgentState, id: string, modelsDir: string, a: Answers): (s': AgentState)
    requires s.Wf()
    ensures s'.Wf()
  {
    StopEffect(s, id);
    if NeedsRestart(s, id, a) then
      var inst := s.recs[s.instances[id]];
      DeployEffect(Stop(s, id), id, inst.modelName, SpecOf(inst, modelsDir), Reloads(s, id, modelsDir, a));
      Restart(s, id, modelsDir, a)
    else s
  }

  /** One round over the ids in the order the map yields them. */
  function HealthRound(s: AgentState, ids: seq<string>, modelsDir: string, a: Answers): (s': AgentState)
    requires s.Wf()
    ensures s'.Wf()
    decreases ids
  {
    if ids == [] then s else HealthRound(HealthStep(s, ids[0], modelsDir, a), ids[1..], modelsDir, a)
  }

  ghost predicate AllLoadsSucceed(a: Answers) {
    forall t: Token, spec: DeploySpec {:trigger a.loads(t, spec)} :: a.loads(t, spec)
  }

  /** Two records that differ in nothing but their state. */
  ghost predicate SameDeployment(x: Instance, y: Instance) {
    x.(state := y.state) == y
  }

  ghost predicate Untouched(s: AgentState, s': AgentState, id: string)
    requires s.Wf() && s'.Wf()
  {
    && (id in s.instances <==> id in s'.instances)
    && (id in s.instances ==> s'.instances[id] == s.instances[id] && s'.Rec(id) == s.Rec(id))
    && (id in s.engines <==> id in s'.engines)
    && (id in s.engines ==> s'.engines[id] == s.engines[id])
  }

  /** What one round does to one id: where a healthy engine is stored nothing is touched; any other
      instance is deployed anew under its own parameters, by a new deployer, and ends Ready and with
      that deployer's engine exactly when the load succeeds. */
  ghost predicate Healed(s: AgentState, s': AgentState, id: string, modelsDir: string, a: Answers)
    requires s.Wf() && s'.Wf() && id in s.instances
  {
    && id in s'.instances
    && if NeedsRestart(s, id, a) then
         && SameDeployment(s.Rec(id), s'.Rec(id))
         && s'.instances[id] >= s.next
         && s'.Rec(id).state == (if a.loads(s'.instances[id], SpecOf(s.Rec(id), modelsDir)) then Ready else Error)
         && (id in s'.engines <==> a.loads(s'.instances[id], SpecOf(s.Rec(id), modelsDir)))
         && (id in s'.engines ==> s'.engines[id] == s'.instances[id])
       else Untouched(s, s', id)
  }

  /** `s'` is `s` with the deployment of one id replaced by that of a new deployer. */
  ghost predicate Replaced(s: AgentState, s': AgentState, id: string, ready: bool)
    requires s.Wf() && id in s.instances
  {
    && s'.next == s.next + 1
    && s'.instances == s.instances[id := s.next]
    && s'.engines == (if ready then s.engines[id := s.next] else s.engines - {id})
    && s'.recs == s.recs[s.instances[id] := s.Rec(id).(state := Stopped)]
                        [s.next := s.Rec(id).(state := if ready then Ready else Error)]
  }

  /** A restart replaces one entry of each table and one record. */
  lemma RestartTables(s: AgentState, id: string, modelsDir: string, a: Answers)
    requires s.Wf() && id in s.instances
    ensures Replaced(s, Restart(s, id, modelsDir, a), id, Reloads(s, id, modelsDir, a))
  {
    var s' := Restart(s, id, modelsDir, a);
    assert (s.instances - {id})[id := s.next] == s.instances[id := s.next];
    assert (s.engines - {id})[id := s.next] == s.engines[id := s.next];
  }

  lemma OtherTokens(s: AgentState, id: string)
    requires s.Wf() && id in s.instances
    ensures forall i :: i in s.instances && i != id ==> s.instances[i] != s.instances[id] && s.instances[i] < s.next
  {
    assert forall i :: i in s.instances ==> s.Rec(i).id == i;
  }

  lemma ReplacedIsQuiet(s: AgentState, s': AgentState, id: string, ready: bool)
    requires s.Quiet() && s'.Wf() && id in s.instances && Replaced(s, s', id, ready)
    ensures s'.Quiet()
  {
    OtherTokens(s, id);
  }

  lemma ReplacedLeavesOthers(s: AgentState, s': AgentState, id: string, ready: bool)
    requires s.Wf() && s'.Wf() && id in s.instances && Replaced(s, s', id, ready)
    ensures forall i :: i != id ==> Untouched(s, s', i)
  {
    OtherTokens(s, id);
  }

  lemma HealthStepEffect(s: AgentState, id: string, modelsDir: string, a: Answers)
    requires s.Wf() && id in s.instances
    ensures var s' := HealthStep(s, id, modelsDir, a);
            && s.next <= s'.next && Healed(s, s', id, modelsDir, a)
            && (forall i :: i != id ==> Untouched(s, s', i))
  {
    if NeedsRestart(s, id, a) {
      RestartTables(s, id, modelsDir, a);
      ReplacedLeavesOthers(s, HealthStep(s, id, modelsDir, a), id, Reloads(s, id, modelsDir, a));
    }
  }

  lemma {:induction false} HealthRoundKeepsQuiet(s: AgentState, ids: seq<string>, modelsDir: string, a: Answers)
    requires s.Quiet()
    ensures HealthRound(s, ids, modelsDir, a).Quiet()
    decreases ids
  {
    if ids != [] {
      if NeedsRestart(s, ids[0], a) {
        RestartTables(s, ids[0], modelsDir, a);
        ReplacedIsQuiet(s, HealthStep(s, ids[0], modelsDir, a), ids[0], Reloads(s, ids[0], modelsDir, a));
      }
      HealthRoundKeepsQuiet(HealthStep(s, ids[0], modelsDir, a), ids[1..], modelsDir, a);
    }
  }

  /** One round, from any tables and whatever order the map yields the ids in. */
  lemma {:induction false} HealthRoundHeals(s: AgentState, ids: seq<string>, modelsDir: string, a: Answers)
    requires s.Wf() && (forall i :: i in ids ==> i in s.instances)
    requires forall i, j :: 0 <= i < j < |ids| ==> ids[i] != ids[j]
    ensures var s' := HealthRound(s, ids, modelsDir, a);
            && s.next <= s'.next
            && (forall id :: id in ids ==> Healed(s, s', id, modelsDir, a))
            && (forall id :: id !in ids ==> Untouched(s, s', id))
    decreases ids
  {
    if ids != [] {
      var s1 := HealthStep(s, ids[0], modelsDir, a);
      HealthStepEffect(s, ids[0], modelsDir, a);
      forall i | i in ids[1..] ensures i in s1.instances {
        assert Untouched(s, s1, i);
      }
      HealthRoundHeals(s1, ids[1..], modelsDir, a);
      var s' := HealthRound(s1, ids[1..], modelsDir, a);
      forall id | id in ids ensures Healed(s, s', id, modelsDir, a) {
        if id == ids[0] {
          assert Healed(s, s1, id, modelsDir, a) && Untouched(s1, s', id);
        } else {
          assert id in ids[1..];
          assert Untouched(s, s1, id) && Healed(s1, s', id, modelsDir, a);
        }
      }
      forall id | id !in ids ensures Untouched(s, s', id) {
        assert Untouched(s, s1, id) && Untouched(s1, s', id);
      }
    }
  }

  /** A round leaves an instance in place exactly if an engine is stored under its id and answers the
      probe; every other one is replaced by a new record. */
  lemma LeavesAloneIffHealthy(s: AgentState, ids: seq<string>, modelsDir: string, a: Answers, id: string)
    requires s.Wf() && Lists(ids, s.instances.Keys) && id in s.instances
    ensures var s' := HealthRound(s, ids, modelsDir, a);
            && id in s'.instances
            && (s'.instances[id] == s.instances[id] <==> id in s.engines && a.healthy(s.engines[id]))
            && (s'.instances[id] != s.instances[id] ==> s.next <= s'.instances[id])
  {
    HealthRoundHeals(s, ids, modelsDir, a);
    assert Healed(s, HealthRound(s, ids, modelsDir, a), id, modelsDir, a);
  }

  /** One round of the health loop: the order the map yields, and the answers. */
  datatype Round = Round(ids: seq<string>, answers: Answers)

  function HealthRounds(s: AgentState, rounds: seq<Round>, modelsDir: string): (s': AgentState)
    requires s.Wf()
    ensures s'.Wf()
    decreases rounds
  {
    if rounds == [] then s
    else HealthRounds(HealthRound(s, rounds[0].ids, modelsDir, rounds[0].answers), rounds[1..], modelsDir)
  }

  lemma RoundsFromFirst(s: AgentState, rounds: seq<Round>, modelsDir: string)
    requires s.Wf() && rounds != []
    ensures var s1 := HealthRound(s, rounds[0].ids, modelsDir, rounds[0].answers);
            && HealthRounds(s, rounds, modelsDir) == HealthRounds(s1, rounds[1..], modelsDir)
            && (|rounds| == 1 ==> HealthRounds(s, rounds, modelsDir) == s1)
  {
  }

  /** What any number of rounds keeps. */
  ghost predicate Kept(s: AgentState, s': AgentState)
    requires s.Wf()
  {
    && s'.Wf() && s'.instances.Keys == s.instances.Keys
    && (forall id :: id in s.instances ==> SameDeployment(s.Rec(id), s'.Rec(id)))
  }

  ghost predicate AllReady(s: AgentState)
    requires s.Wf()
  {
    forall id :: id in s.instances ==> s.Rec(id).state == Ready
  }

  /** What one round does to every id. */
  lemma RoundHealsAll(s: AgentState, r: Round, modelsDir: string)
    requires s.Wf() && Lists(r.ids, s.instances.Keys)
    ensures var s' := HealthRound(s, r.ids, modelsDir, r.answers);
            && s'.instances.Keys == s.instances.Keys
            && (forall id :: id in s.instances ==> Healed(s, s', id, modelsDir, r.answers))
            && (forall id :: id !in s.instances ==> Untouched(s, s', id))
  {
    HealthRoundHeals(s, r.ids, modelsDir, r.answers);
    var s' := HealthRound(s, r.ids, modelsDir, r.answers);
    forall id ensures id in s'.instances <==> id in s.instances {
      if id in s.instances {
        assert Healed(s, s', id, modelsDir, r.answers);
      } else {
        assert Untouched(s, s', id);
      }
    }
  }

  lemma RoundKeepsDeployments(s: AgentState, r: Round, modelsDir: string)
    requires s.Wf() && Lists(r.ids, s.instances.Keys)
    ensures Kept(s, HealthRound(s, r.ids, modelsDir, r.answers))
  {
    RoundHealsAll(s, r, modelsDir);
    var s' := HealthRound(s, r.ids, modelsDir, r.answers);
    forall id | id in s.instances ensures SameDeployment(s.Rec(id), s'.Rec(id)) {
      assert Healed(s, s', id, modelsDir, r.answers);
    }
  }

  /** When the loads of a round succeed, all is Ready after it exactly if every instance the round
      leaves alone was Ready before. */
  lemma RoundMakesReady(s: AgentState, r: Round, modelsDir: string)
    requires s.Wf() && Lists(r.ids, s.instances.Keys) && AllLoadsSucceed(r.answers)
    ensures AllReady(HealthRound(s, r.ids, modelsDir, r.answers))
            <==> forall id :: id in s.instances && !NeedsRestart(s, id, r.answers) ==> s.Rec(id).state == Ready
  {
    RoundHealsAll(s, r, modelsDir);
    var s' := HealthRound(s, r.ids, modelsDir, r.answers);
    forall id | id in s.instances
      ensures s'.Rec(id).state == Ready <==> NeedsRestart(s, id, r.answers) || s.Rec(id).state == Ready
    {
      assert Healed(s, s', id, modelsDir, r.answers);
    }
  }

  lemma KeptTransitive(s: AgentState, s1: AgentState, s2: AgentState)
    requires s.Wf() && Kept(s, s1) && Kept(s1, s2)
    ensures Kept(s, s2)
  {
    assert forall id :: id in s.instances ==> SameDeployment(s.Rec(id), s1.Rec(id));
  }

  ghost predicate AlwaysHealthy(rounds: seq<Round>, eng: Token) {
    forall k :: 0 <= k < |rounds| ==> rounds[k].answers.healthy(eng)
  }

  ghost predicate Orders(rounds: seq<Round>, keys: set<string>) {
    forall k :: 0 <= k < |rounds| ==> Lists(rounds[k].ids, keys)
  }

  /** Any number of rounds, from any tables: no deployment appears, disappears or changes a parameter. */
  lemma {:induction false} HealthRoundsKeepDeployments(s: AgentState, rounds: seq<Round>, modelsDir: string)
    requires s.Wf() && Orders(rounds, s.instances.Keys)
    ensures Kept(s, HealthRounds(s, rounds, modelsDir))
    decreases rounds
  {
    if rounds == [] {
      assert Kept(s, s);
    } else {
      var s1 := HealthRound(s, rounds[0].ids, modelsDir, rounds[0].answers);
      RoundKeepsDeployments(s, rounds[0], modelsDir);
      assert Orders(rounds[1..], s1.instances.Keys);
      HealthRoundsKeepDeployments(s1, rounds[1..], modelsDir);
      KeptTransitive(s, s1, HealthRounds(s1, rounds[1..], modelsDir));
    }
  }

  /** No instance that is not Ready hides behind an engine that answers every probe of these rounds. */
  ghost predicate NoneHidden(s: AgentState, rounds: seq<Round>)
    requires s.Wf()
  {
    forall id :: id in s.instances && id in s.engines && AlwaysHealthy(rounds, s.engines[id]) ==>
      s.Rec(id).state == Ready
  }

  lemma HealthyFirst(rounds: seq<Round>, eng: Token)
    requires rounds != []
    ensures AlwaysHealthy(rounds, eng) <==> rounds[0].answers.healthy(eng) && AlwaysHealthy(rounds[1..], eng)
  {
    if rounds[0].answers.healthy(eng) && AlwaysHealthy(rounds[1..], eng) {
      forall k | 0 <= k < |rounds| ensures rounds[k].answers.healthy(eng) {
        assert k > 0 ==> rounds[k] == rounds[1..][k - 1];
      }
    }
  }

  /** A round restarts what it restarts with engine and record in step, so nothing new is hidden. */
  lemma HiddenStaysHidden(s: AgentState, rounds: seq<Round>, modelsDir: string)
    requires s.Wf() && rounds != [] && Lists(rounds[0].ids, s.instances.Keys)
    ensures NoneHidden(s, rounds)
            <==> NoneHidden(HealthRound(s, rounds[0].ids, modelsDir, rounds[0].answers), rounds[1..])
  {
    var a := rounds[0].answers;
    var s' := HealthRound(s, rounds[0].ids, modelsDir, a);
    RoundHealsAll(s, rounds[0], modelsDir);
    forall id | id in s.instances
      ensures (id in s.engines && AlwaysHealthy(rounds, s.engines[id]) ==> s.Rec(id).state == Ready)
              <==> (id in s'.engines && AlwaysHealthy(rounds[1..], s'.engines[id]) ==> s'.Rec(id).state == Ready)
    {
      assert Healed(s, s', id, modelsDir, a);
      if id in s.engines {
        HealthyFirst(rounds, s.engines[id]);
      }
    }
  }

  lemma OneRoundMakesReady(s: AgentState, rounds: seq<Round>, modelsDir: string)
    requires s.Wf() && |rounds| == 1 && Orders(rounds, s.instances.Keys) && AllLoadsSucceed(rounds[0].answers)
    ensures AllReady(HealthRound(s, rounds[0].ids, modelsDir, rounds[0].answers)) <==> NoneHidden(s, rounds)
  {
    RoundMakesReady(s, rounds[0], modelsDir);
    forall id | id in s.engines
      ensures AlwaysHealthy(rounds, s.engines[id]) <==> rounds[0].answers.healthy(s.engines[id])
    {
      HealthyFirst(rounds, s.engines[id]);
    }
  }

  ghost predicate LastHeals(rounds: seq<Round>) {
    |rounds| > 0 && AllLoadsSucceed(rounds[|rounds| - 1].answers)
  }

  lemma OtherRounds(rounds: seq<Round>, keys: set<string>)
    requires |rounds| > 1 && Orders(rounds, keys) && LastHeals(rounds)
    ensures Orders(rounds[1..], keys) && LastHeals(rounds[1..])
  {
    assert rounds[1..][|rounds| - 2] == rounds[|rounds| - 1];
  }

  /** If the loads of the last round succeed, everything ends Ready exactly when no instance that is not
      Ready hides behind an engine that answers every probe. */
  lemma {:induction false} HealthRoundsMakeReady(s: AgentState, rounds: seq<Round>, modelsDir: string)
    requires s.Wf() && Orders(rounds, s.instances.Keys) && LastHeals(rounds)
    ensures AllReady(HealthRounds(s, rounds, modelsDir)) <==> NoneHidden(s, rounds)
    decreases rounds
  {
    var s1 := HealthRound(s, rounds[0].ids, modelsDir, rounds[0].answers);
    RoundsFromFirst(s, rounds, modelsDir);
    if |rounds| == 1 {
      OneRoundMakesReady(s, rounds, modelsDir);
    } else {
      HiddenStaysHidden(s, rounds, modelsDir);
      RoundKeepsDeployments(s, rounds[0], modelsDir);
      OtherRounds(rounds, s1.instances.Keys);
      HealthRoundsMakeReady(s1, rounds[1..], modelsDir);
    }
  }

  /** From quiet tables, where every engine belongs to a Ready instance, everything ends Ready. */
  lemma {:induction false} QuietRoundsMakeReady(s: AgentState, rounds: seq<Round>, modelsDir: string)
    requires s.Quiet() && Orders(rounds, s.instances.Keys)
    ensures LastHeals(rounds) ==> AllReady(HealthRounds(s, rounds, modelsDir))
    ensures HealthRounds(s, rounds, modelsDir).Quiet()
    decreases rounds
  {
    if rounds != [] {
      if LastHeals(rounds) {
        HealthRoundsMakeReady(s, rounds, modelsDir);
      }
      var s1 := HealthRound(s, rounds[0].ids, modelsDir, rounds[0].answers);
      HealthRoundKeepsQuiet(s, rounds[0].ids, modelsDir, rounds[0].answers);
      RoundKeepsDeployments(s, rounds[0], modelsDir);
      assert Orders(rounds[1..], s1.instances.Keys);
      QuietRoundsMakeReady(s1, rounds[1..], modelsDir);
    }
  }

  /** An instance whose stored engine answers every probe is never touched, whatever its record says. */
  lemma {:induction false} HealthyIsUntouched(s: AgentState, rounds: seq<Round>, modelsDir: string, id: string)
    requires s.Wf() && Orders(rounds, s.instances.Keys)
    requires id in s.engines && AlwaysHealthy(rounds, s.engines[id])
    ensures Untouched(s, HealthRounds(s, rounds, modelsDir), id)
    decreases rounds
  {
    if rounds != [] {
      var s1 := HealthRound(s, rounds[0].ids, modelsDir, rounds[0].answers);
      RoundHealsAll(s, rounds[0], modelsDir);
      assert Untouched(s, s1, id) by {
        assert id in s.instances ==> Healed(s, s1, id, modelsDir, rounds[0].answers);
      }
      HealthyIsUntouched(s1, rounds[1..], modelsDir, id);
    }
  }
}
