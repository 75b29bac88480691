/** What the accounting of running calls leaves out does happen: disabled snapshots end calls. */
module HostWitness {
  import opened Options
  import opened RuntimeHost
  import opened HostInterleaving

  /** The steps of a request up to its first section. */
  function Admission(id: nat, op: Op, key: ShardKey, epoch: nat): seq<Event> {
    [Arrive(id, op, key, epoch), EnterBarrier(id), EnterGate(id)]
  }

  function Admitted(s: System, id: nat, op: Op, key: ShardKey, epoch: nat): System {
    s.(tasks := s.tasks[id := Task(op, key, epoch, Gated)])
  }

  lemma RunThree(cfg: Config, s: System, a: Event, b: Event, c: Event)
    ensures Run(cfg, s, [a, b, c]) == Next(cfg, Next(cfg, Next(cfg, s, a), b), c)
  {
    var s2 := Next(cfg, Next(cfg, s, a), b);
    assert [a, b, c][1..] == [b, c] && [b, c][1..] == [c] && [c][1..] == [];
    assert Run(cfg, s2, [c]) == Next(cfg, s2, c);
    assert Run(cfg, Next(cfg, s, a), [b, c]) == Run(cfg, s2, [c]);
  }

  lemma RunTwo(cfg: Config, s: System, a: Event, b: Event)
    ensures Run(cfg, s, [a, b]) == Next(cfg, Next(cfg, s, a), b)
  {
    assert [a, b][1..] == [b] && [b][1..] == [];
    assert Run(cfg, Next(cfg, s, a), [b]) == Next(cfg, Next(cfg, s, a), b);
  }

  lemma RequestIsAdmitted(cfg: Config, s: System, id: nat, op: Op, key: ShardKey, epoch: nat)
    requires id !in s.tasks && s.sweeper.Asleep? && GateFree(cfg, s, key)
    requires op.EnsureOp? ==> key == op.req.key && epoch == op.req.runtimeEpoch
    ensures Run(cfg, s, Admission(id, op, key, epoch)) == Admitted(s, id, op, key, epoch)
  {
    var s1 := DoArrive(s, id, op, key, epoch);
    var s2 := DoEnter(cfg, s1, EnterBarrier(id));
    assert s2.tasks == s.tasks[id := Task(op, key, epoch, Shared)];
    assert GateFree(cfg, s2, key);
    assert DoEnter(cfg, s2, EnterGate(id)).tasks == s.tasks[id := Task(op, key, epoch, Gated)];
    RunThree(cfg, s, Arrive(id, op, key, epoch), EnterBarrier(id), EnterGate(id));
  }

  /** A request that is admitted and then goes through two more steps. */
  lemma Handled(cfg: Config, s: System, id: nat, op: Op, key: ShardKey, epoch: nat, a: Event, b: Event)
    requires id !in s.tasks && s.sweeper.Asleep? && GateFree(cfg, s, key)
    requires op.EnsureOp? ==> key == op.req.key && epoch == op.req.runtimeEpoch
    ensures Run(cfg, s, Admission(id, op, key, epoch) + [a, b])
            == Next(cfg, Next(cfg, Admitted(s, id, op, key, epoch), a), b)
  {
    RequestIsAdmitted(cfg, s, id, op, key, epoch);
    RunAppend(cfg, s, Admission(id, op, key, epoch), [a, b]);
    RunTwo(cfg, Admitted(s, id, op, key, epoch), a, b);
  }

  /** The steps that create a shard, start it, invoke it, and ask to hibernate it while the call runs. */
  function Story(req: EnsureRequest, pid: nat): seq<Event> {
    var epoch := req.runtimeEpoch;
    Admission(0, EnsureOp(req), req.key, epoch) + [Act(0), Clear(0)]
    + (Admission(1, StartOp, req.key, epoch) + [Act(1), FinishVm(1, Some(pid))])
    + (Admission(2, InvokeOp(Normalize(req.deploymentDigest).GetOr("")), req.key, epoch) + [Act(2), Advance])
    + (Admission(3, HibernateOp, req.key, epoch) + [Act(3), FinishVm(3, Some(pid))])
  }

  function Created(req: EnsureRequest): System {
    INITIAL.(shards := map[req.key := NewRecord(req, 0)])
  }

  lemma CreateRuns(cfg: Config, req: EnsureRequest)
    requires EnsureError(req).None?
    ensures Run(cfg, INITIAL, Admission(0, EnsureOp(req), req.key, req.runtimeEpoch) + [Act(0), Clear(0)])
            == Created(req)
  {
    Handled(cfg, INITIAL, 0, EnsureOp(req), req.key, req.runtimeEpoch, Act(0), Clear(0));
    var s := Admitted(INITIAL, 0, EnsureOp(req), req.key, req.runtimeEpoch);
    assert DoAct(s, 0).tasks[0].pc == Clearing;
    assert DoClear(DoAct(s, 0), 0).tasks == map[];
    assert DoClear(DoAct(s, 0), 0).observed == map[];
  }

  function HotRecord(req: EnsureRequest, pid: nat): Record {
    NewRecord(req, 0).(state := Hot, handles := Some(Handles(req.runtimeEpoch, pid)))
  }

  lemma StartRuns(cfg: Config, req: EnsureRequest, pid: nat)
    ensures Run(cfg, Created(req), Admission(1, StartOp, req.key, req.runtimeEpoch) + [Act(1), FinishVm(1, Some(pid))])
            == INITIAL.(shards := map[req.key := HotRecord(req, pid)])
  {
    Handled(cfg, Created(req), 1, StartOp, req.key, req.runtimeEpoch, Act(1), FinishVm(1, Some(pid)));
    var s := DoAct(Admitted(Created(req), 1, StartOp, req.key, req.runtimeEpoch), 1);
    assert s.tasks[1].pc.InVm?;
    assert DoFinishVm(s, 1, Some(pid)).tasks == map[];
    assert DoFinishVm(s, 1, Some(pid)).shards == map[req.key := HotRecord(req, pid)];
  }

  /** A call runs on the shard. */
  function InCall(req: EnsureRequest, pid: nat, deployment: string): System {
    INITIAL.(
      now := 1,
      shards := map[req.key := HotRecord(req, pid).(activeInvocations := 1)],
      tasks := map[2 := Task(InvokeOp(deployment), req.key, req.runtimeEpoch, InBracket)])
  }

  lemma InvokeRuns(cfg: Config, req: EnsureRequest, pid: nat)
    requires EnsureError(req).None?
    ensures var deployment := Normalize(req.deploymentDigest).value;
            Run(cfg, INITIAL.(shards := map[req.key := HotRecord(req, pid)]),
                Admission(2, InvokeOp(deployment), req.key, req.runtimeEpoch) + [Act(2), Advance])
            == InCall(req, pid, deployment)
  {
    var deployment := Normalize(req.deploymentDigest).value;
    var s := INITIAL.(shards := map[req.key := HotRecord(req, pid)]);
    Handled(cfg, s, 2, InvokeOp(deployment), req.key, req.runtimeEpoch, Act(2), Advance);
    var s1 := DoAct(Admitted(s, 2, InvokeOp(deployment), req.key, req.runtimeEpoch), 2);
    assert s1.shards == InCall(req, pid, deployment).shards;
    assert s1.tasks == InCall(req, pid, deployment).tasks;
  }

  /** Asked to hibernate, the host stops the VM for good under the call. */
  lemma HibernateRuns(cfg: Config, req: EnsureRequest, pid: nat, deployment: string)
    requires !req.policy.snapshotEnabled
    ensures var s := InCall(req, pid, deployment);
            Run(cfg, s, Admission(3, HibernateOp, req.key, req.runtimeEpoch) + [Act(3), FinishVm(3, Some(pid))])
            == s.(shards := map[req.key := TerminateEnd(s.shards[req.key])])
  {
    var s := InCall(req, pid, deployment);
    assert GateFree(cfg, s, req.key);
    Handled(cfg, s, 3, HibernateOp, req.key, req.runtimeEpoch, Act(3), FinishVm(3, Some(pid)));
    var s1 := DoAct(Admitted(s, 3, HibernateOp, req.key, req.runtimeEpoch), 3);
    assert s1.tasks[3].pc.InVm?;
    assert DoFinishVm(s1, 3, Some(pid)).tasks == s.tasks;
    assert DoFinishVm(s1, 3, Some(pid)).shards == map[req.key := TerminateEnd(s.shards[req.key])];
  }

  /**
   * Whatever shard is created with snapshots disabled, a run from the empty host ends with the shard
   * terminated and its handles gone while a call on it is still inside its bracket and still counted.
   */
  lemma HibernateWithoutSnapshotsEndsCalls(cfg: Config, req: EnsureRequest, pid: nat)
    requires EnsureError(req).None? && !req.policy.snapshotEnabled
    ensures var s := Run(cfg, INITIAL, Story(req, pid));
            && 2 in s.tasks && s.tasks[2].pc.InBracket? && s.tasks[2].key == req.key
            && req.key in s.shards && s.shards[req.key].state.Terminated? && s.shards[req.key].handles.None?
            && s.shards[req.key].activeInvocations == 1
  {
    var epoch := req.runtimeEpoch;
    var deployment := Normalize(req.deploymentDigest).value;
    var create := Admission(0, EnsureOp(req), req.key, epoch) + [Act(0), Clear(0)];
    var start := Admission(1, StartOp, req.key, epoch) + [Act(1), FinishVm(1, Some(pid))];
    var invoke := Admission(2, InvokeOp(deployment), req.key, epoch) + [Act(2), Advance];
    var hibernate := Admission(3, HibernateOp, req.key, epoch) + [Act(3), FinishVm(3, Some(pid))];
    CreateRuns(cfg, req);
    StartRuns(cfg, req, pid);
    InvokeRuns(cfg, req, pid);
    HibernateRuns(cfg, req, pid, deployment);
    RunAppend(cfg, INITIAL, create, start);
    RunAppend(cfg, INITIAL, create + start, invoke);
    RunAppend(cfg, INITIAL, create + start + invoke, hibernate);
  }
}
