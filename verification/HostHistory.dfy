/** What a shard's epoch and identity do over a run. */
module HostHistory {
  import opened Options
  import opened RuntimeHost
  import opened HostInterleaving

  /** The epoch stays or rises, rises only out of Terminated, and carries one identity. */
  predicate Succeeds(r: Record, r': Record) {
    && r.runtimeEpoch <= r'.runtimeEpoch
    && (r.runtimeEpoch < r'.runtimeEpoch ==> r.state.Terminated?)
    && (r.runtimeEpoch == r'.runtimeEpoch ==> r.userId == r'.userId && r.rootDeploymentId == r'.rootDeploymentId)
  }

  lemma ActSucceeds(s: System, t: Task, key: ShardKey)
    requires key in s.shards
    ensures key in ActOn(s, t).shards && Succeeds(s.shards[key], ActOn(s, t).shards[key])
  {
  }

  lemma FinishVmSucceeds(s: System, id: nat, pid: Option<nat>, key: ShardKey)
    requires key in s.shards
    ensures key in DoFinishVm(s, id, pid).shards && Succeeds(s.shards[key], DoFinishVm(s, id, pid).shards[key])
  {
  }

  lemma SweepNextSucceeds(s: System, key: ShardKey)
    requires key in s.shards
    ensures key in DoSweepNext(s).shards && Succeeds(s.shards[key], DoSweepNext(s).shards[key])
  {
  }

  lemma SweepFinishSucceeds(s: System, ok: bool, key: ShardKey)
    requires key in s.shards
    ensures key in DoSweepFinish(s, ok).shards && Succeeds(s.shards[key], DoSweepFinish(s, ok).shards[key])
  {
  }

  lemma StepSucceeds(cfg: Config, s: System, e: Event, key: ShardKey)
    requires key in s.shards
    ensures key in Next(cfg, s, e).shards && Succeeds(s.shards[key], Next(cfg, s, e).shards[key])
  {
    match e
    case Act(id) =>
      if id in s.tasks {
        ActSucceeds(s, s.tasks[id], key);
      }
    case FinishVm(id, pid) => FinishVmSucceeds(s, id, pid, key);
    case SweepNext => SweepNextSucceeds(s, key);
    case SweepFinish(ok) => SweepFinishSucceeds(s, ok, key);
    case _ =>
  }

  /** Epochs never fall, and as long as the epoch is the same so are user and root deployment. */
  lemma {:induction false} EpochHistory(cfg: Config, s: System, events: seq<Event>, key: ShardKey)
    requires key in s.shards
    ensures var s' := Run(cfg, s, events);
            && key in s'.shards
            && s.shards[key].runtimeEpoch <= s'.shards[key].runtimeEpoch
            && (s.shards[key].runtimeEpoch == s'.shards[key].runtimeEpoch ==>
                s.shards[key].userId == s'.shards[key].userId
                && s.shards[key].rootDeploymentId == s'.shards[key].rootDeploymentId)
    decreases |events|
  {
    if events != [] {
      StepSucceeds(cfg, s, events[0], key);
      EpochHistory(cfg, Next(cfg, s, events[0]), events[1..], key);
    }
  }

  /** A request that names another epoch leaves every record alone, unless it is the legal replacement. */
  lemma WrongEpochChangesNothing(s: System, t: Task)
    requires t.key in s.shards && t.epoch != s.shards[t.key].runtimeEpoch
    requires t.op.EnsureOp? ==> t.op.req.key == t.key && t.op.req.runtimeEpoch == t.epoch
    ensures ActOn(s, t).shards != s.shards ==>
              && t.op.EnsureOp? && s.shards[t.key].state.Terminated? && s.shards[t.key].runtimeEpoch < t.epoch
              && ActOn(s, t).shards == s.shards[t.key := NewRecord(t.op.req, s.now)]
  {
  }

  /**
   * Ensuring, exactly: a well-formed request is accepted unless it is older than the record, would
   * replace an epoch that is not terminated, or changes the identity within an epoch; the accepted
   * record is the request's in every field it sets, and a record of the same epoch keeps its life.
   */
  lemma EnsureDecision(existing: Option<Record>, req: EnsureRequest, now: nat)
    requires EnsureError(req) == None
    ensures var result := EnsureRecord(existing, req, now);
            && (result.Ok? <==>
                existing.None?
                || (existing.value.runtimeEpoch < req.runtimeEpoch && existing.value.state.Terminated?)
                || (existing.value.runtimeEpoch == req.runtimeEpoch
                    && existing.value.userId == req.userId && existing.value.rootDeploymentId == req.rootDeploymentId))
            && (result.Ok? ==>
                var r := result.value;
                && r.runtimeEpoch == req.runtimeEpoch && r.deploymentDigest == req.deploymentDigest
                && r.userId == req.userId && r.rootDeploymentId == req.rootDeploymentId
                && r.policy == req.policy && r.lastActiveMs == now
                && (if existing.Some? && existing.value.runtimeEpoch == req.runtimeEpoch then
                      r.state == existing.value.state && r.handles == existing.value.handles
                      && r.activeInvocations == existing.value.activeInvocations && r.failed == existing.value.failed
                    else r.state.Cold? && r.handles == None && r.activeInvocations == 0 && !r.failed))
  {
  }

  /** Ensuring again with the same request changes nothing but the time of last activity. */
  lemma EnsureIsIdempotent(existing: Option<Record>, req: EnsureRequest, now: nat, later: nat)
    requires EnsureRecord(existing, req, now).Ok?
    ensures var r := EnsureRecord(existing, req, now).value;
            EnsureRecord(Some(r), req, later) == Ok(r.(lastActiveMs := later))
  {
  }
}
