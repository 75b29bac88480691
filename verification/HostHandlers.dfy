/** What each handler does, from its first section under the gate to its last. */
module HostHandlers {
  import opened Options
  import opened RuntimeHost
  import opened HostOperations
  import opened HostInterleaving
  import opened HostDiscipline

  /** Task `id` holds its gate and is about to read and write its shard's record. */
  predicate AtGate(s: System, id: nat) {
    id in s.tasks && s.tasks[id].pc.Gated?
  }

  /** The shard is there, in the epoch that the request names. */
  predicate Found(s: System, t: Task) {
    t.key in s.shards && s.shards[t.key].runtimeEpoch == t.epoch
  }

  /** The handler is done and nothing came of it. */
  predicate Dismissed(s: System, s': System, id: nat) {
    s' == s.(tasks := s.tasks - {id})
  }

  /** The record is marked and the VM is at work. */
  predicate AtVm(s: System, s': System, id: nat, marked: Record)
    requires id in s.tasks
  {
    s' == s.(shards := s.shards[s.tasks[id].key := marked], tasks := s.tasks[id := s.tasks[id].(pc := InVm(marked))])
  }

  /** The handler is done and has written `r`. */
  predicate DoneWith(s: System, s': System, id: nat, r: Record)
    requires id in s.tasks
  {
    s' == s.(shards := s.shards[s.tasks[id].key := r], tasks := s.tasks - {id})
  }

  /** A start goes to the VM exactly for a shard of its epoch that is Cold, Hibernated or Terminated. */
  lemma StartActs(cfg: Config, s: System, id: nat)
    requires AtGate(s, id) && s.tasks[id].op.StartOp?
    ensures var t := s.tasks[id];
            var s' := Next(cfg, s, Act(id));
            if Found(s, t) && s.shards[t.key].state in {Cold, Hibernated, Terminated} then
              AtVm(s, s', id, s.shards[t.key].(state := Starting, failed := false))
            else Dismissed(s, s', id)
  {
  }

  /** A hibernate, exactly for an unused running shard with snapshots, or for any that has not terminated without. */
  lemma HibernateActs(cfg: Config, s: System, id: nat)
    requires AtGate(s, id) && s.tasks[id].op.HibernateOp?
    ensures var t := s.tasks[id];
            var s' := Next(cfg, s, Act(id));
            if Found(s, t) && !s.shards[t.key].policy.snapshotEnabled && s.shards[t.key].state != Terminated then
              AtVm(s, s', id, s.shards[t.key].(state := Draining))
            else if Found(s, t) && s.shards[t.key].policy.snapshotEnabled && s.shards[t.key].activeInvocations == 0
                    && s.shards[t.key].state in {Hot, WarmIdle} then
              AtVm(s, s', id, s.shards[t.key])
            else Dismissed(s, s', id)
  {
  }

  /** A terminate, exactly for an unused shard that has not terminated; of one that has it clears what was observed. */
  lemma TerminateActs(cfg: Config, s: System, id: nat)
    requires AtGate(s, id) && s.tasks[id].op.TerminateOp?
    ensures var t := s.tasks[id];
            var s' := Next(cfg, s, Act(id));
            if !Found(s, t) || s.shards[t.key].activeInvocations != 0 then Dismissed(s, s', id)
            else if s.shards[t.key].state == Terminated then s' == s.(tasks := s.tasks[id := t.(pc := Clearing)])
            else AtVm(s, s', id, s.shards[t.key].(state := Draining))
  {
  }

  lemma WarmIdleActs(cfg: Config, s: System, id: nat)
    requires AtGate(s, id) && s.tasks[id].op.WarmIdleOp?
    ensures var t := s.tasks[id];
            var s' := Next(cfg, s, Act(id));
            if Found(s, t) && s.shards[t.key].activeInvocations == 0 && s.shards[t.key].state in {Hot, WarmIdle} then
              DoneWith(s, s', id, s.shards[t.key].(state := WarmIdle))
            else Dismissed(s, s', id)
  {
  }

  /** A request may move the count by at most one. */
  lemma TouchActs(cfg: Config, s: System, id: nat)
    requires AtGate(s, id) && s.tasks[id].op.TouchOp?
    ensures var t := s.tasks[id];
            var s' := Next(cfg, s, Act(id));
            if Found(s, t) && t.op.delta in {-1, 0, 1} then
              DoneWith(s, s', id, Touch(s.shards[t.key], t.epoch, t.op.delta, s.now).value)
            else Dismissed(s, s', id)
  {
  }

  /** Another deployment is asked of a shard in the same epoch while it is live. */
  predicate ChangesLive(s: System, req: EnsureRequest) {
    && req.key in s.shards
    && s.shards[req.key].runtimeEpoch == req.runtimeEpoch
    && s.shards[req.key].state !in {Cold, Terminated}
    && Normalize(s.shards[req.key].deploymentDigest) != Normalize(req.deploymentDigest)
  }

  /** The record will be in the same epoch as before, of the same deployment. */
  predicate KeepsDeployment(s: System, req: EnsureRequest) {
    && req.key in s.shards
    && s.shards[req.key].runtimeEpoch == req.runtimeEpoch
    && Normalize(s.shards[req.key].deploymentDigest) == Normalize(req.deploymentDigest)
  }

  /**
   * An ensure changes no live shard's deployment; otherwise it writes what the host makes of it, and goes on
   * to clear what was observed unless epoch and deployment stay.
   */
  lemma EnsureActs(cfg: Config, s: System, id: nat)
    requires AtGate(s, id) && s.tasks[id].op.EnsureOp? && TaskOk(s, s.tasks[id])
    ensures var t := s.tasks[id];
            var result := EnsureRecord(Lookup(s.shards, t.key), t.op.req, s.now);
            var s' := Next(cfg, s, Act(id));
            if ChangesLive(s, t.op.req) || result.Err? then Dismissed(s, s', id)
            else if KeepsDeployment(s, t.op.req) then DoneWith(s, s', id, result.value)
            else s' == s.(shards := s.shards[t.key := result.value], tasks := s.tasks[id := t.(pc := Clearing)])
  {
    EnsureAdmission(s.tasks[id].op.req);
  }

  /** An activation goes to the guest exactly for a running shard of its epoch, and writes no record. */
  lemma ActivateActs(cfg: Config, s: System, id: nat)
    requires AtGate(s, id) && s.tasks[id].op.ActivateOp?
    ensures var t := s.tasks[id];
            var s' := Next(cfg, s, Act(id));
            if Found(s, t) && s.shards[t.key].state in {Hot, WarmIdle} then
              s' == s.(tasks := s.tasks[id := t.(pc := InGuest(s.shards[t.key]))])
            else Dismissed(s, s', id)
  {
  }

  /** Clearing forgets what was observed of the shard, in all epochs, and of no other. */
  lemma ClearEnds(cfg: Config, s: System, id: nat)
    requires id in s.tasks && s.tasks[id].pc.Clearing?
    ensures var s' := Next(cfg, s, Clear(id));
            && s' == s.(tasks := s.tasks - {id}, observed := s'.observed)
            && (forall entry :: entry in s'.observed <==> entry in s.observed && entry.0 != s.tasks[id].key)
            && (forall entry | entry in s'.observed :: s'.observed[entry] == s.observed[entry])
  {
  }

  /**
   * Whatever came in between, a start whose VM comes up leaves its shard Hot in its epoch, with handles for
   * that process and epoch; one whose VM does not leaves it Cold and failed.
   */
  lemma StartEnds(cfg: Config, s: System, id: nat, pid: Option<nat>)
    requires Inv(cfg, s) && id in s.tasks && s.tasks[id].pc.InVm? && s.tasks[id].op.StartOp?
    ensures var t := s.tasks[id];
            && Found(s, t)
            && var r := s.shards[t.key];
               DoneWith(s, Next(cfg, s, FinishVm(id, pid)), id,
                        match pid
                        case Some(p) => r.(state := Hot, handles := Some(Handles(t.epoch, p)), lastActiveMs := s.now)
                        case None => r.(state := Cold, failed := true))
  {
    assert TaskOk(s, s.tasks[id]);
  }

  /**
   * A hibernate whose VM stops leaves its shard Hibernated, or Terminated if its snapshots are off, without
   * handles; one whose VM does not stop leaves it as it was.
   */
  lemma HibernateEnds(cfg: Config, s: System, id: nat, pid: Option<nat>)
    requires Inv(cfg, s) && id in s.tasks && s.tasks[id].pc.InVm? && s.tasks[id].op.HibernateOp?
    ensures var t := s.tasks[id];
            && Found(s, t)
            && var r := s.shards[t.key];
               var stops := t.pc.taken.policy.snapshotEnabled;
               DoneWith(s, Next(cfg, s, FinishVm(id, pid)), id,
                        if pid.None? then r
                        else if stops then r.(state := Hibernated, handles := None)
                        else r.(state := Terminated, handles := None))
  {
    assert TaskOk(s, s.tasks[id]);
    assert s.shards[s.tasks[id].key := s.shards[s.tasks[id].key]] == s.shards;
  }

  /** A terminate whose VM stops leaves its shard Terminated and clears what was observed; else it drains on. */
  lemma TerminateEnds(cfg: Config, s: System, id: nat, pid: Option<nat>)
    requires Inv(cfg, s) && id in s.tasks && s.tasks[id].pc.InVm? && s.tasks[id].op.TerminateOp?
    ensures var t := s.tasks[id];
            var s' := Next(cfg, s, FinishVm(id, pid));
            && Found(s, t)
            && var r := s.shards[t.key];
               if pid.None? then Dismissed(s, s', id) && r.state == Draining
               else s' == s.(shards := s.shards[t.key := r.(state := Terminated, handles := None)],
                             tasks := s.tasks[id := t.(pc := Clearing)])
  {
    assert TaskOk(s, s.tasks[id]);
    assert s.shards[s.tasks[id].key := s.shards[s.tasks[id].key]] == s.shards;
  }

  /** A closing touch counts its call out, whatever has become of the shard's state, and ends the call. */
  lemma CallEnds(cfg: Config, s: System, id: nat)
    requires id in s.tasks && s.tasks[id].pc.InBracket?
    ensures var t := s.tasks[id];
            var s' := Next(cfg, s, CloseCall(id));
            if Found(s, t) then
              var r := s.shards[t.key];
              var left := if r.activeInvocations == 0 then 0 else r.activeInvocations - 1;
              DoneWith(s, s', id, r.(activeInvocations := left, lastActiveMs := s.now,
                                     state := if 0 < left && r.state == WarmIdle then Hot else r.state))
            else Dismissed(s, s', id)
  {
    assert s.tasks - {id} == WithPc(s, id, None);
  }

  /** The task holds the barrier's read side, and perhaps a gate. */
  predicate PastBarrier(t: Task) {
    match t.pc
    case Shared | Gated | InVm(_) | InGuest(_) | Clearing => true
    case Queued | InBracket => false
  }

  predicate PastGate(t: Task) {
    PastBarrier(t) && t.pc != Shared
  }

  /** A new request waits; it gets past the barrier unless a sweep is on, and past its gate unless a stripe-mate is. */
  lemma LocksAreTaken(cfg: Config, s: System, id: nat, op: Op, key: ShardKey, epoch: nat)
    ensures id !in s.tasks ==>
              Next(cfg, s, Arrive(id, op, key, epoch)) ==
              s.(tasks := s.tasks[id := if op.EnsureOp? then Task(op, op.req.key, op.req.runtimeEpoch, Queued)
                                        else Task(op, key, epoch, Queued)])
    ensures id in s.tasks && s.tasks[id].pc == Queued ==>
              Next(cfg, s, EnterBarrier(id)) ==
              if s.sweeper == Asleep then s.(tasks := s.tasks[id := s.tasks[id].(pc := Shared)]) else s
    ensures id in s.tasks && s.tasks[id].pc == Shared ==>
              Next(cfg, s, EnterGate(id)) ==
              if exists j | j in s.tasks :: PastGate(s.tasks[j])
                   && cfg.hash(s.tasks[j].key) % 256 == cfg.hash(s.tasks[id].key) % 256
              then s else s.(tasks := s.tasks[id := s.tasks[id].(pc := Gated)])
  {
  }

  /**
   * The locks exclude: over every run no two tasks are past gates of one stripe, and none is past the barrier
   * while the sweeper is awake.
   */
  lemma LocksExclude(cfg: Config, events: seq<Event>)
    ensures var s := Run(cfg, INITIAL, events);
            && (forall i, j | i in s.tasks && j in s.tasks && PastGate(s.tasks[i]) && PastGate(s.tasks[j])
                    && cfg.hash(s.tasks[i].key) % 256 == cfg.hash(s.tasks[j].key) % 256 :: i == j)
            && (s.sweeper != Asleep ==> forall id | id in s.tasks :: !PastBarrier(s.tasks[id]))
  {
    InitialHolds(cfg);
    RunKeeps(cfg, INITIAL, events);
    var s := Run(cfg, INITIAL, events);
    assert LocksOk(cfg, s);
    assert forall id | id in s.tasks :: HoldsGate(s.tasks[id]) == PastGate(s.tasks[id]);
    assert forall id | id in s.tasks :: HoldsBarrier(s.tasks[id]) == PastBarrier(s.tasks[id]);
  }
}
