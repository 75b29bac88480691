/** The count of running calls of a shard whose requests neither move it by hand nor disable snapshots. */
module HostAccounting {
  import opened Options
  import opened RuntimeHost
  import opened HostInterleaving
  import opened HostDiscipline

  /** The calls between their opening and their closing touch. */
  function Brackets(s: System, key: ShardKey): set<nat> {
    set id | id in s.tasks && s.tasks[id].pc.InBracket? && s.tasks[id].key == key
  }

  /** Endpoint touches carry no delta and policies keep snapshots enabled. */
  predicate CalmOp(op: Op) {
    && (op.TouchOp? ==> op.delta == 0)
    && (op.EnsureOp? ==> op.req.policy.snapshotEnabled)
  }

  /** The shard that an arriving request is about. */
  function Target(e: Event): ShardKey
    requires e.Arrive?
  {
    if e.op.EnsureOp? then e.op.req.key else e.key
  }

  /** The shard's own requests are calm, and no more calls are in flight on it than a 32-bit count can hold. */
  predicate CalmStep(cfg: Config, s: System, e: Event, key: ShardKey) {
    && (e.Arrive? && Target(e) == key ==> CalmOp(e.op))
    && |Brackets(Next(cfg, s, e), key)| <= MAX_U32
  }

  predicate CalmRun(cfg: Config, s: System, events: seq<Event>, key: ShardKey)
    decreases |events|
  {
    events == [] || (CalmStep(cfg, s, events[0], key) && CalmRun(cfg, Next(cfg, s, events[0]), events[1..], key))
  }

  ghost predicate CountOk(s: System, key: ShardKey)
    requires key in s.shards
  {
    var r := s.shards[key];
    && r.activeInvocations == |Brackets(s, key)|
    && (0 < r.activeInvocations ==> r.state.Hot?)
    && r.policy.snapshotEnabled
  }

  ghost predicate CallOk(s: System, t: Task) {
    && CalmOp(t.op)
    && (t.pc.InBracket? ==> t.key in s.shards && s.shards[t.key].runtimeEpoch == t.epoch)
  }

  ghost predicate Counted(s: System, key: ShardKey) {
    && (key in s.shards ==> CountOk(s, key))
    && (forall id | id in s.tasks && s.tasks[id].key == key :: CallOk(s, s.tasks[id]))
  }

  /** The count is kept, snapshots stay on, and a shard in use keeps its state and epoch. */
  predicate Harmless(r: Record, r': Record) {
    && r'.activeInvocations == r.activeInvocations
    && r'.policy.snapshotEnabled
    && (0 < r.activeInvocations ==> r'.state == r.state && r'.runtimeEpoch == r.runtimeEpoch)
  }

  /** What befalls the shard is harmless, or a new record with no calls. */
  predicate ShardSpared(s: System, s': System, key: ShardKey) {
    if key in s.shards then key in s'.shards && Harmless(s.shards[key], s'.shards[key])
    else key in s'.shards ==> s'.shards[key].activeInvocations == 0 && s'.shards[key].policy.snapshotEnabled
  }

  /** A step that opens and closes no call of the shard and spares its record. */
  lemma QuietStep(s: System, s': System, key: ShardKey)
    requires Counted(s, key) && ShardSpared(s, s', key)
    requires forall id | id in s.tasks && s.tasks[id].key == key && s.tasks[id].pc.InBracket? ::
               id in s'.tasks && s'.tasks[id] == s.tasks[id]
    requires forall id | id in s'.tasks && s'.tasks[id].key == key ::
               && CalmOp(s'.tasks[id].op)
               && (s'.tasks[id].pc.InBracket? ==> id in s.tasks && s'.tasks[id] == s.tasks[id])
    ensures Counted(s', key)
  {
    assert Brackets(s', key) == Brackets(s, key);
    forall id | id in s'.tasks && s'.tasks[id].key == key ensures CallOk(s', s'.tasks[id]) {
      if s'.tasks[id].pc.InBracket? {
        assert CallOk(s, s.tasks[id]) && id in Brackets(s, key);
      }
    }
    if key !in s.shards {
      assert forall id | id in s.tasks && s.tasks[id].key == key :: CallOk(s, s.tasks[id]);
      assert Brackets(s, key) == {};
    }
  }

  /** A step of one task that is outside its bracket before and after. */
  lemma OutsideStep(s: System, s': System, id: nat, key: ShardKey)
    requires Counted(s, key) && ShardSpared(s, s', key)
    requires id in s.tasks ==> !s.tasks[id].pc.InBracket?
    requires id in s'.tasks ==> !s'.tasks[id].pc.InBracket? && (s'.tasks[id].key == key ==> CalmOp(s'.tasks[id].op))
    requires forall j | j != id :: (j in s'.tasks <==> j in s.tasks) && (j in s.tasks ==> s'.tasks[j] == s.tasks[j])
    ensures Counted(s', key)
  {
    forall j | j in s'.tasks && s'.tasks[j].key == key ensures CalmOp(s'.tasks[j].op) {
      if j != id {
        assert CallOk(s, s.tasks[j]);
      }
    }
    QuietStep(s, s', key);
  }

  /** A record that stays as it is, is spared. */
  lemma UnchangedIsSpared(s: System, s': System, key: ShardKey)
    requires Counted(s, key) && (key in s'.shards <==> key in s.shards)
    requires key in s.shards ==> s'.shards[key] == s.shards[key]
    ensures ShardSpared(s, s', key)
  {
  }

  /** No section of the shard's handlers, other than an opening touch, is felt by a shard in use. */
  lemma OwnActSpares(s: System, t: Task)
    requires Counted(s, t.key) && CalmOp(t.op) && TaskOk(s, t)
    requires !(ActOn(s, t).pc.Some? && ActOn(s, t).pc.value.InBracket?)
    ensures ShardSpared(s, s.(shards := ActOn(s, t).shards), t.key)
  {
    assert t.key in s.shards ==> CountOk(s, t.key);
  }

  /** Handlers of other shards do not touch it. */
  lemma OtherActSpares(s: System, t: Task, key: ShardKey)
    requires Counted(s, key) && TaskOk(s, t) && t.key != key
    ensures ShardSpared(s, s.(shards := ActOn(s, t).shards), key)
  {
    UnchangedIsSpared(s, s.(shards := ActOn(s, t).shards), key);
  }

  /** Only an invocation opens a bracket, on a runnable shard of its own epoch, by one touch. */
  lemma OpeningIsTouch(s: System, t: Task)
    requires ActOn(s, t).pc == Some(InBracket)
    ensures t.key in s.shards && t.epoch == s.shards[t.key].runtimeEpoch && Runnable(s.shards[t.key])
    ensures Touch(s.shards[t.key], t.epoch, 1, s.now).Ok?
    ensures ActOn(s, t).shards == s.shards[t.key := Touch(s.shards[t.key], t.epoch, 1, s.now).value]
  {
  }

  /** Opening a call raises the count by exactly one. */
  lemma OpenCallCounts(s: System, s': System, id: nat)
    requires id in s.tasks && Counted(s, s.tasks[id].key) && CalmOp(s.tasks[id].op)
    requires !s.tasks[id].pc.InBracket? && |Brackets(s', s.tasks[id].key)| <= MAX_U32
    requires s.tasks[id].key in s.shards && Runnable(s.shards[s.tasks[id].key])
    requires s.tasks[id].epoch == s.shards[s.tasks[id].key].runtimeEpoch
    requires s'.tasks == s.tasks[id := s.tasks[id].(pc := InBracket)]
    requires s'.shards == s.shards[s.tasks[id].key :=
               Touch(s.shards[s.tasks[id].key], s.tasks[id].epoch, 1, s.now).value]
    ensures Counted(s', s.tasks[id].key)
    ensures s'.shards[s.tasks[id].key].activeInvocations == s.shards[s.tasks[id].key].activeInvocations + 1
  {
    var key := s.tasks[id].key;
    assert Brackets(s', key) == Brackets(s, key) + {id};
    forall j | j in s'.tasks && s'.tasks[j].key == key ensures CallOk(s', s'.tasks[j]) {
      assert CallOk(s, s.tasks[j]);
    }
  }

  lemma OwnActCounts(cfg: Config, s: System, id: nat)
    requires Inv(cfg, s) && id in s.tasks && s.tasks[id].pc.Gated?
    requires Counted(s, s.tasks[id].key) && |Brackets(DoAct(s, id), s.tasks[id].key)| <= MAX_U32
    ensures Counted(DoAct(s, id), s.tasks[id].key)
  {
    var t := s.tasks[id];
    assert CallOk(s, t) && TaskOk(s, t);
    if ActOn(s, t).pc == Some(InBracket) {
      OpeningIsTouch(s, t);
      OpenCallCounts(s, DoAct(s, id), id);
    } else {
      OwnActSpares(s, t);
      OutsideStep(s, DoAct(s, id), id, t.key);
    }
  }

  lemma OtherActCounts(cfg: Config, s: System, id: nat, key: ShardKey)
    requires Inv(cfg, s) && id in s.tasks && s.tasks[id].pc.Gated? && s.tasks[id].key != key && Counted(s, key)
    ensures Counted(DoAct(s, id), key)
  {
    var s' := DoAct(s, id);
    assert TaskOk(s, s.tasks[id]);
    OtherActSpares(s, s.tasks[id], key);
    forall j | j in s'.tasks && s'.tasks[j].key == key ensures CalmOp(s'.tasks[j].op) {
      assert CallOk(s, s.tasks[j]);
    }
    QuietStep(s, s', key);
  }

  lemma ActCounts(cfg: Config, s: System, id: nat, key: ShardKey)
    requires Inv(cfg, s) && Counted(s, key) && |Brackets(DoAct(s, id), key)| <= MAX_U32
    ensures Counted(DoAct(s, id), key)
  {
    if id in s.tasks && s.tasks[id].pc.Gated? {
      if s.tasks[id].key == key {
        OwnActCounts(cfg, s, id);
      } else {
        OtherActCounts(cfg, s, id, key);
      }
    }
  }

  /** A running VM operation is on a shard without calls. */
  lemma VmShardIsUnused(cfg: Config, s: System, id: nat)
    requires Inv(cfg, s) && id in s.tasks && s.tasks[id].pc.InVm? && Counted(s, s.tasks[id].key)
    ensures s.tasks[id].key in s.shards && s.shards[s.tasks[id].key].activeInvocations == 0
    ensures Brackets(s, s.tasks[id].key) == {}
  {
    assert TaskOk(s, s.tasks[id]);
    assert CountOk(s, s.tasks[id].key);
  }

  lemma FinishVmCounts(cfg: Config, s: System, id: nat, pid: Option<nat>, key: ShardKey)
    requires Inv(cfg, s) && Counted(s, key)
    ensures Counted(DoFinishVm(s, id, pid), key)
  {
    if id in s.tasks && s.tasks[id].pc.InVm? {
      if s.tasks[id].key == key {
        VmShardIsUnused(cfg, s, id);
        assert CallOk(s, s.tasks[id]);
      } else {
        UnchangedIsSpared(s, DoFinishVm(s, id, pid), key);
      }
      OutsideStep(s, DoFinishVm(s, id, pid), id, key);
    }
  }

  lemma OtherCloseCounts(s: System, id: nat, key: ShardKey)
    requires Counted(s, key) && id in s.tasks && s.tasks[id].pc.InBracket? && s.tasks[id].key != key
    ensures Counted(DoCloseCall(s, id), key)
  {
    var s' := DoCloseCall(s, id);
    UnchangedIsSpared(s, s', key);
    forall j | j in s'.tasks && s'.tasks[j].key == key ensures CalmOp(s'.tasks[j].op) {
      assert CallOk(s, s.tasks[j]);
    }
    QuietStep(s, s', key);
  }

  /** A closing touch finds its own epoch and lowers the count by exactly one. */
  lemma CloseCallCounts(s: System, id: nat)
    requires id in s.tasks && s.tasks[id].pc.InBracket? && Counted(s, s.tasks[id].key)
    ensures Counted(DoCloseCall(s, id), s.tasks[id].key)
    ensures var t := s.tasks[id];
            && t.key in s.shards && Touch(s.shards[t.key], t.epoch, -1, s.now).Ok?
            && DoCloseCall(s, id).shards[t.key].activeInvocations == s.shards[t.key].activeInvocations - 1
  {
    var t := s.tasks[id];
    var s' := DoCloseCall(s, id);
    assert CallOk(s, t) && CountOk(s, t.key);
    assert id in Brackets(s, t.key);
    assert Brackets(s', t.key) == Brackets(s, t.key) - {id};
    forall j | j in s'.tasks && s'.tasks[j].key == t.key ensures CallOk(s', s'.tasks[j]) {
      assert CallOk(s, s.tasks[j]);
    }
  }

  lemma CloseCounts(s: System, id: nat, key: ShardKey)
    requires Counted(s, key)
    ensures Counted(DoCloseCall(s, id), key)
  {
    if id in s.tasks && s.tasks[id].pc.InBracket? {
      if s.tasks[id].key == key {
        CloseCallCounts(s, id);
      } else {
        OtherCloseCounts(s, id, key);
      }
    }
  }

  /** A sweep works on shards without calls. */
  lemma SweepCounts(s: System, s': System, key: ShardKey)
    requires Counted(s, key) && s'.tasks == s.tasks && (key in s'.shards <==> key in s.shards)
    requires key in s.shards ==>
               s'.shards[key] == s.shards[key]
               || (s.shards[key].activeInvocations == 0 && s'.shards[key].activeInvocations == 0
                   && s'.shards[key].policy == s.shards[key].policy)
    ensures Counted(s', key)
  {
    forall id | id in s'.tasks && s'.tasks[id].key == key ensures CalmOp(s'.tasks[id].op) {
      assert CallOk(s, s.tasks[id]);
    }
    QuietStep(s, s', key);
  }

  lemma ChoreFrame(s: System, c: Chore, rest: seq<Chore>)
    requires ChoreOk(s, c)
    ensures var s' := DoChore(s, c, rest);
            && s'.tasks == s.tasks && s'.shards.Keys == s.shards.Keys
            && (forall key | key in s.shards && key != c.key :: s'.shards[key] == s.shards[key])
            && s'.shards[c.key].activeInvocations == 0 && s'.shards[c.key].policy == s.shards[c.key].policy
  {
  }

  lemma SweepNextCounts(cfg: Config, s: System, key: ShardKey)
    requires Inv(cfg, s) && Counted(s, key)
    ensures Counted(DoSweepNext(s), key)
  {
    if s.sweeper.Sweeping? && s.sweeper.todo != [] {
      var c := s.sweeper.todo[0];
      assert c in s.sweeper.todo;
      assert ChoreOk(s, c);
      ChoreFrame(s, c, s.sweeper.todo[1..]);
    }
    SweepCounts(s, DoSweepNext(s), key);
  }

  lemma SweepFinishCounts(cfg: Config, s: System, ok: bool, key: ShardKey)
    requires Inv(cfg, s) && Counted(s, key)
    ensures Counted(DoSweepFinish(s, ok), key)
  {
    SweepCounts(s, DoSweepFinish(s, ok), key);
  }

  /** Steps that move one task outside brackets and touch no record. */
  lemma LockStepCounts(s: System, s': System, id: nat, key: ShardKey)
    requires Counted(s, key) && s'.shards == s.shards
    requires id in s.tasks ==> !s.tasks[id].pc.InBracket?
    requires id in s'.tasks ==> !s'.tasks[id].pc.InBracket? && (s'.tasks[id].key == key ==> CalmOp(s'.tasks[id].op))
    requires forall j | j != id :: (j in s'.tasks <==> j in s.tasks) && (j in s.tasks ==> s'.tasks[j] == s.tasks[j])
    ensures Counted(s', key)
  {
    UnchangedIsSpared(s, s', key);
    OutsideStep(s, s', id, key);
  }

  lemma EnterCounts(cfg: Config, s: System, e: Event, key: ShardKey)
    requires Counted(s, key) && (e.EnterBarrier? || e.EnterGate?)
    ensures Counted(DoEnter(cfg, s, e), key)
  {
    if e.id in s.tasks && DoEnter(cfg, s, e) != s {
      assert s.tasks[e.id].key == key ==> CallOk(s, s.tasks[e.id]);
      LockStepCounts(s, DoEnter(cfg, s, e), e.id, key);
    }
  }

  lemma ArriveCounts(s: System, e: Event, key: ShardKey)
    requires Counted(s, key) && e.Arrive? && (Target(e) == key ==> CalmOp(e.op))
    ensures Counted(DoArrive(s, e.id, e.op, e.key, e.epoch), key)
  {
    if e.id !in s.tasks {
      LockStepCounts(s, DoArrive(s, e.id, e.op, e.key, e.epoch), e.id, key);
    }
  }

  lemma LeaveCounts(s: System, s': System, id: nat, key: ShardKey)
    requires Counted(s, key) && id in s.tasks && !s.tasks[id].pc.InBracket?
    requires s'.shards == s.shards && s'.tasks == s.tasks - {id}
    ensures Counted(s', key)
  {
    LockStepCounts(s, s', id, key);
  }

  lemma FinishGuestCounts(s: System, id: nat, ok: bool, key: ShardKey)
    requires Counted(s, key)
    ensures Counted(DoFinishGuest(s, id, ok), key)
  {
    if id in s.tasks && s.tasks[id].pc.InGuest? && s.tasks[id].op.ActivateOp? {
      LeaveCounts(s, DoFinishGuest(s, id, ok), id, key);
    }
  }

  lemma ClearCounts(s: System, id: nat, key: ShardKey)
    requires Counted(s, key)
    ensures Counted(DoClear(s, id), key)
  {
    if id in s.tasks && s.tasks[id].pc.Clearing? {
      LeaveCounts(s, DoClear(s, id), id, key);
    }
  }

  lemma NextCounts(cfg: Config, s: System, e: Event, key: ShardKey)
    requires Inv(cfg, s) && Counted(s, key) && CalmStep(cfg, s, e, key)
    ensures Counted(Next(cfg, s, e), key)
  {
    match e
    case Advance => SweepCounts(s, s.(now := s.now + 1), key);
    case Arrive(_, _, _, _) => ArriveCounts(s, e, key);
    case EnterBarrier(_) => EnterCounts(cfg, s, e, key);
    case EnterGate(_) => EnterCounts(cfg, s, e, key);
    case Act(id) => ActCounts(cfg, s, id, key);
    case FinishVm(id, pid) => FinishVmCounts(cfg, s, id, pid, key);
    case FinishGuest(id, ok) => FinishGuestCounts(s, id, ok, key);
    case Clear(id) => ClearCounts(s, id, key);
    case CloseCall(id) => CloseCounts(s, id, key);
    case WakeSweeper(order) => SweepCounts(s, DoWake(s, order), key);
    case SweepNext => SweepNextCounts(cfg, s, key);
    case SweepFinish(ok) => SweepFinishCounts(cfg, s, ok, key);
  }

  lemma {:induction false} RunCounts(cfg: Config, s: System, events: seq<Event>, key: ShardKey)
    requires Inv(cfg, s) && Counted(s, key) && CalmRun(cfg, s, events, key)
    ensures Inv(cfg, Run(cfg, s, events)) && Counted(Run(cfg, s, events), key)
    decreases |events|
  {
    if events != [] {
      NextKeeps(cfg, s, events[0]);
      NextCounts(cfg, s, events[0], key);
      RunCounts(cfg, Next(cfg, s, events[0]), events[1..], key);
    }
  }

  /**
   * Invocation accounting: over every run in which a shard's own requests are calm, whatever those of other
   * shards ask for, its `active_invocations` is the number of its calls inside their bracket; with such a
   * call it is Hot, at the call's epoch, and under no VM operation.
   */
  lemma InvocationAccounting(cfg: Config, events: seq<Event>, key: ShardKey)
    requires CalmRun(cfg, INITIAL, events, key)
    ensures var s := Run(cfg, INITIAL, events);
            && (key in s.shards ==> s.shards[key].activeInvocations == |Brackets(s, key)|)
            && (forall id | id in Brackets(s, key) ::
                  key in s.shards && s.shards[key].state.Hot? && s.shards[key].runtimeEpoch == s.tasks[id].epoch)
            && (forall id | id in s.tasks && s.tasks[id].key == key && s.tasks[id].pc.InVm? :: Brackets(s, key) == {})
            && (s.sweeper.Stopping? && s.sweeper.chore.key == key ==> Brackets(s, key) == {})
  {
    InitialHolds(cfg);
    RunCounts(cfg, INITIAL, events, key);
    var s := Run(cfg, INITIAL, events);
    forall id | id in Brackets(s, key)
      ensures key in s.shards && s.shards[key].state.Hot? && s.shards[key].runtimeEpoch == s.tasks[id].epoch
    {
      assert CallOk(s, s.tasks[id]);
    }
    forall id | id in s.tasks && s.tasks[id].key == key && s.tasks[id].pc.InVm? ensures Brackets(s, key) == {} {
      VmShardIsUnused(cfg, s, id);
    }
  }
}
