/** Which calls a shard admits, and what an acknowledged activation does for them. */
module HostAdmission {
  import opened Options
  import opened RuntimeHost
  import opened HostInterleaving
  import opened HostDiscipline
  import opened HostActivation
  import opened HostHandlers

  /**
   * The shard may be invoked with `deployment`: it was observed loaded in the current epoch, or nothing was
   * and it is the placement's.
   */
  predicate Accepts(s: System, key: ShardKey, deployment: string)
    requires key in s.shards
  {
    var entry := (key, s.shards[key].runtimeEpoch);
    if entry in s.observed then deployment in s.observed[entry].loaded
    else Normalize(s.shards[key].deploymentDigest) == Some(deployment)
  }

  /** A call that is admitted: for a running shard of its epoch that accepts its deployment. */
  predicate Admits(s: System, t: Task) {
    && t.op.InvokeOp? && Found(s, t)
    && s.shards[t.key].state in {Hot, WarmIdle}
    && Accepts(s, t.key, t.op.deployment)
  }

  /** A call opens its bracket, counted in, exactly if it is admitted; otherwise nothing comes of it. */
  lemma InvokeActs(cfg: Config, s: System, id: nat)
    requires AtGate(s, id) && s.tasks[id].op.InvokeOp?
    ensures var t := s.tasks[id];
            var s' := Next(cfg, s, Act(id));
            if Admits(s, t) then
              var r := s.shards[t.key];
              var active := if r.activeInvocations == MAX_U32 then MAX_U32 else r.activeInvocations + 1;
              var entered := r.(activeInvocations := active, lastActiveMs := s.now, state := Hot);
              s' == s.(shards := s.shards[t.key := entered],
                       tasks := s.tasks[id := t.(pc := InBracket)])
            else Dismissed(s, s', id)
  {
  }

  predicate InCall(s: System, id: nat) {
    id in s.tasks && s.tasks[id].pc.InBracket?
  }

  /** Nothing but an admitted act brings a call into its bracket, and no step moves it once there. */
  lemma CallsEnterByAct(cfg: Config, s: System, e: Event, id: nat)
    requires InCall(Next(cfg, s, e), id)
    ensures id in s.tasks
    ensures if InCall(s, id) then Next(cfg, s, e).tasks[id] == s.tasks[id]
            else e == Act(id) && AtGate(s, id) && Admits(s, s.tasks[id])
                 && Next(cfg, s, e).tasks[id] == s.tasks[id].(pc := InBracket)
  {
  }

  lemma RunSnoc(cfg: Config, s: System, events: seq<Event>)
    requires events != []
    ensures var n := |events| - 1; Run(cfg, s, events) == Next(cfg, Run(cfg, s, events[..n]), events[n])
  {
    var n := |events| - 1;
    assert events == events[..n] + [events[n]];
    assert [events[n]][1..] == [];
    RunAppend(cfg, s, events[..n], [events[n]]);
  }

  /** Over every run, each call inside its bracket was admitted, under its gate, at the step at which it entered. */
  lemma {:induction false} CallsWereAdmitted(cfg: Config, events: seq<Event>, id: nat) returns (i: nat)
    requires InCall(Run(cfg, INITIAL, events), id)
    ensures i < |events| && events[i] == Act(id)
    ensures var s := Run(cfg, INITIAL, events[..i]);
            AtGate(s, id) && Admits(s, s.tasks[id])
            && Run(cfg, INITIAL, events).tasks[id] == s.tasks[id].(pc := InBracket)
    decreases |events|
  {
    var n := |events| - 1;
    RunSnoc(cfg, INITIAL, events);
    CallsEnterByAct(cfg, Run(cfg, INITIAL, events[..n]), events[n], id);
    i := n;
    if InCall(Run(cfg, INITIAL, events[..n]), id) {
      i := CallsWereAdmitted(cfg, events[..n], id);
      assert events[..n][..i] == events[..i];
    }
  }

  /**
   * An acknowledged activation makes the deployment the root of the shard's epoch and adds it, beside the
   * placement, to exactly what was loaded before; one that is not acknowledged observes nothing.
   */
  lemma ActivationEnds(cfg: Config, s: System, id: nat, ok: bool)
    requires Inv(cfg, s) && id in s.tasks && s.tasks[id].pc.InGuest?
    ensures var t := s.tasks[id];
            var s' := Next(cfg, s, FinishGuest(id, ok));
            var entry := (t.key, t.epoch);
            && t.op.ActivateOp? && Found(s, t) && s' == s.(tasks := s.tasks - {id}, observed := s'.observed)
            && if !ok then s'.observed == s.observed
               else
                 && entry in s'.observed && s'.observed == s.observed[entry := s'.observed[entry]]
                 && s'.observed[entry].root == t.op.deployment
                 && (forall d :: d in s'.observed[entry].loaded <==>
                       || (entry in s.observed && d in s.observed[entry].loaded)
                       || d == t.op.deployment
                       || Normalize(s.shards[t.key].deploymentDigest) == Some(d))
  {
    assert TaskOk(s, s.tasks[id]);
  }

  /** Acceptance is what `Allowed` collects. */
  lemma AcceptsAllowed(s: System, key: ShardKey, deployment: string)
    requires key in s.shards
    ensures Accepts(s, key, deployment) <==> deployment in Allowed(s, key)
  {
  }

  /**
   * Once an activation has been acknowledged, every later call of that epoch with the activated deployment is
   * admitted, as long as the shard has stayed up and is running when the call gets to its gate.
   */
  lemma ActivatedIsInvocable(cfg: Config, s: System, id: nat, events: seq<Event>, call: nat)
    requires Inv(cfg, s) && id in s.tasks && s.tasks[id].pc.InGuest?
    requires var s1 := Next(cfg, s, FinishGuest(id, true));
             var s2 := Run(cfg, s1, events);
             var t := s.tasks[id];
             && StaysUp(cfg, s1, events, t.key)
             && AtGate(s2, call) && s2.tasks[call].key == t.key && s2.tasks[call].epoch == t.epoch
             && s2.tasks[call].op == InvokeOp(t.op.deployment)
             && t.key in s2.shards && s2.shards[t.key].state in {Hot, WarmIdle}
    ensures InCall(Next(cfg, Run(cfg, Next(cfg, s, FinishGuest(id, true)), events), Act(call)), call)
  {
    var t := s.tasks[id];
    var s1 := Next(cfg, s, FinishGuest(id, true));
    ActivationEnds(cfg, s, id, true);
    NextKeeps(cfg, s, FinishGuest(id, true));
    AcceptsAllowed(s1, t.key, t.op.deployment);
    AllowedGrowsOverRuns(cfg, s1, events, t.key);
    var s2 := Run(cfg, s1, events);
    AcceptsAllowed(s2, t.key, t.op.deployment);
    InvokeActs(cfg, s2, call);
  }
}
