/** What the barrier and the gates give, whatever deltas and policies requests carry. */
module HostDiscipline {
  import opened Options
  import opened RuntimeHost
  import opened HostInterleaving

  /** One gate per stripe has one holder, and the sweeper shares the barrier with nobody. */
  ghost predicate LocksOk(cfg: Config, s: System) {
    && (forall i, j | i in s.tasks && j in s.tasks && i != j && HoldsGate(s.tasks[i]) && HoldsGate(s.tasks[j]) ::
          StripeOf(cfg, s.tasks[i].key) != StripeOf(cfg, s.tasks[j].key))
    && (!s.sweeper.Asleep? ==> forall id | id in s.tasks :: !HoldsBarrier(s.tasks[id]))
  }

  /** The record still has the epoch and the state an operation left it with. */
  predicate Kept(r: Record, taken: Record) {
    r.runtimeEpoch == taken.runtimeEpoch && r.state == taken.state
  }

  /** While a VM operation runs, the record is as the operation left it: same epoch, same state. */
  ghost predicate VmOk(s: System, t: Task)
    requires t.pc.InVm?
  {
    && t.key in s.shards
    && t.epoch == t.pc.taken.runtimeEpoch
    && Kept(s.shards[t.key], t.pc.taken)
    && match t.op
       case StartOp => t.pc.taken.state.Starting?
       case HibernateOp =>
         if StopsForGood(t.pc.taken) then t.pc.taken.state.Draining?
         else Runnable(t.pc.taken) && s.shards[t.key].activeInvocations == 0
       case TerminateOp => t.pc.taken.state.Draining?
       case _ => false
  }

  ghost predicate GuestOk(s: System, t: Task)
    requires t.pc.InGuest?
  {
    && t.op.ActivateOp?
    && t.key in s.shards
    && t.epoch == t.pc.taken.runtimeEpoch
    && Kept(s.shards[t.key], t.pc.taken)
    && Runnable(t.pc.taken)
    && s.shards[t.key].deploymentDigest == t.pc.taken.deploymentDigest
  }

  ghost predicate TaskOk(s: System, t: Task) {
    && (t.pc.InVm? ==> VmOk(s, t))
    && (t.pc.InGuest? ==> GuestOk(s, t))
    && (t.op.EnsureOp? ==> t.key == t.op.req.key && t.epoch == t.op.req.runtimeEpoch)
    && (t.pc.Clearing? ==> t.key in s.shards && (s.shards[t.key].state.Cold? || s.shards[t.key].state.Terminated?))
    && (t.pc.InBracket? ==> t.op.InvokeOp?)
  }

  ghost predicate ChoreOk(s: System, c: Chore) {
    && c.key in s.shards
    && s.shards[c.key].runtimeEpoch == c.epoch
    && s.shards[c.key].activeInvocations == 0
    && !c.action.Leave?
  }

  ghost predicate SweeperOk(s: System) {
    match s.sweeper
    case Asleep => true
    case Sweeping(todo) => forall c | c in todo :: ChoreOk(s, c)
    case Stopping(chore, taken, todo) =>
      && (forall c | c in todo :: ChoreOk(s, c))
      && ChoreOk(s, chore) && !chore.action.Idle?
      && taken.runtimeEpoch == chore.epoch
      && Kept(s.shards[chore.key], taken)
      && StopsAs(chore.action, taken)
  }

  /** Handles were produced for the record's own epoch, a runnable shard has some, and a warm one is unused. */
  predicate RecordOk(r: Record) {
    && (r.handles.Some? ==> r.handles.value.epoch == r.runtimeEpoch)
    && (Runnable(r) ==> r.handles.Some?)
    && (r.state.WarmIdle? ==> r.activeInvocations == 0)
    && Normalize(r.deploymentDigest).Some?
  }

  ghost predicate Inv(cfg: Config, s: System) {
    && LocksOk(cfg, s)
    && (forall id | id in s.tasks :: TaskOk(s, s.tasks[id]))
    && SweeperOk(s)
    && (forall key | key in s.shards :: RecordOk(s.shards[key]))
  }

  lemma InitialHolds(cfg: Config)
    ensures Inv(cfg, INITIAL)
  {
  }

  /** What a touch from outside the gates does to a record: count down and note the time. */
  predicate Settled(r: Record, r': Record) {
    && r' == r.(activeInvocations := r'.activeInvocations, lastActiveMs := r'.lastActiveMs)
    && r'.activeInvocations <= r.activeInvocations
  }

  /** A step by the holder of one gate that changes only its own shard and itself. */
  lemma GateHolderStep(cfg: Config, s: System, s': System, id: nat)
    requires Inv(cfg, s) && id in s.tasks && HoldsGate(s.tasks[id])
    requires s'.sweeper == s.sweeper
    requires forall key | key in s'.shards && key != s.tasks[id].key ::
               key in s.shards && s'.shards[key] == s.shards[key]
    requires s.shards.Keys <= s'.shards.Keys
    requires forall j | j in s'.tasks && j != id :: j in s.tasks && s'.tasks[j] == s.tasks[j]
    requires id in s'.tasks ==> s'.tasks[id].key == s.tasks[id].key && TaskOk(s', s'.tasks[id])
    requires s.tasks[id].key in s'.shards ==> RecordOk(s'.shards[s.tasks[id].key])
    ensures Inv(cfg, s')
  {
    assert s.sweeper.Asleep?;
    forall j | j in s'.tasks ensures TaskOk(s', s'.tasks[j]) {
      if j != id {
        assert TaskOk(s, s.tasks[j]);
        if HoldsGate(s.tasks[j]) {
          assert s.tasks[j].key != s.tasks[id].key;
        }
      }
    }
  }

  /** What a first section under the gate may leave behind. */
  ghost predicate SoundlyActed(s: System, t: Task, acted: Acted) {
    && (forall key | key in acted.shards && key != t.key :: key in s.shards && acted.shards[key] == s.shards[key])
    && s.shards.Keys <= acted.shards.Keys
    && (t.key in acted.shards ==> RecordOk(acted.shards[t.key]))
    && (acted.pc.Some? ==> TaskOk(s.(shards := acted.shards), t.(pc := acted.pc.value)))
  }

  lemma EnsureIsSound(cfg: Config, s: System, t: Task)
    requires Inv(cfg, s) && t.op.EnsureOp? && TaskOk(s, t)
    ensures SoundlyActed(s, t, ActEnsure(s, t.op.req))
  {
    assert t.key in s.shards ==> RecordOk(s.shards[t.key]);
  }

  /** What a record is marked as while the VM is at work on it. */
  predicate MarkedFor(r: Record, op: Op, marked: Record) {
    && Kept(r.(state := marked.state), marked) && marked == r.(state := marked.state, failed := marked.failed)
    && match op
       case StartOp => marked.state.Starting?
       case HibernateOp =>
         if StopsForGood(marked) then marked.state.Draining?
         else Runnable(marked) && marked == r && r.activeInvocations == 0
       case TerminateOp => marked.state.Draining?
       case _ => false
  }

  lemma BeginMarks(r: Record, epoch: nat)
    ensures StartBegin(r, epoch).RunVm? ==>
              r.runtimeEpoch == epoch && MarkedFor(r, StartOp, StartBegin(r, epoch).marked)
    ensures HibernateBegin(r, epoch).RunVm? ==>
              r.runtimeEpoch == epoch && MarkedFor(r, HibernateOp, HibernateBegin(r, epoch).marked)
    ensures TerminateBegin(r, epoch).RunVm? ==>
              r.runtimeEpoch == epoch && MarkedFor(r, TerminateOp, TerminateBegin(r, epoch).marked)
  {
  }

  lemma BeginIsSound(cfg: Config, s: System, t: Task, begin: Begin, done: Option<Pc>)
    requires Inv(cfg, s) && TaskOk(s, t) && t.key in s.shards
    requires done == None || (done == Some(Clearing) && (begin.AlreadyDone? ==> s.shards[t.key].state.Terminated?))
    requires begin.RunVm? ==> s.shards[t.key].runtimeEpoch == t.epoch && MarkedFor(s.shards[t.key], t.op, begin.marked)
    ensures SoundlyActed(s, t, ActBegin(s, t.key, begin, done))
  {
    assert RecordOk(s.shards[t.key]);
  }

  lemma ResultIsSound(cfg: Config, s: System, t: Task, result: Result<Record>, pc: Option<Pc>)
    requires Inv(cfg, s) && TaskOk(s, t) && t.key in s.shards
    requires pc == None || (pc == Some(InBracket) && t.op.InvokeOp?)
    requires result.Ok? ==> RecordOk(result.value)
    ensures SoundlyActed(s, t, ActResult(s, t.key, result, pc))
  {
    assert RecordOk(s.shards[t.key]);
  }

  lemma ActOnIsSound(cfg: Config, s: System, t: Task)
    requires Inv(cfg, s) && TaskOk(s, t)
    ensures SoundlyActed(s, t, ActOn(s, t))
  {
    if t.op.EnsureOp? {
      EnsureIsSound(cfg, s, t);
    } else if t.key in s.shards {
      var r := s.shards[t.key];
      assert RecordOk(r);
      BeginMarks(r, t.epoch);
      match t.op
      case StartOp => BeginIsSound(cfg, s, t, StartBegin(r, t.epoch), None);
      case HibernateOp => BeginIsSound(cfg, s, t, HibernateBegin(r, t.epoch), None);
      case TerminateOp => BeginIsSound(cfg, s, t, TerminateBegin(r, t.epoch), Some(Clearing));
      case WarmIdleOp => ResultIsSound(cfg, s, t, MarkWarmIdle(r, t.epoch), None);
      case TouchOp(delta) => ResultIsSound(cfg, s, t, Touch(r, t.epoch, delta, s.now), None);
      case InvokeOp(_) => ResultIsSound(cfg, s, t, Touch(r, t.epoch, 1, s.now), Some(InBracket));
      case ActivateOp(_) =>
    }
  }

  lemma ActKeeps(cfg: Config, s: System, id: nat)
    requires Inv(cfg, s)
    ensures Inv(cfg, DoAct(s, id))
  {
    if id in s.tasks && s.tasks[id].pc.Gated? {
      ActOnIsSound(cfg, s, s.tasks[id]);
      var s' := DoAct(s, id);
      assert id in s'.tasks ==> TaskOk(s', s'.tasks[id]);
      GateHolderStep(cfg, s, s', id);
    }
  }

  lemma FinishVmKeeps(cfg: Config, s: System, id: nat, pid: Option<nat>)
    requires Inv(cfg, s)
    ensures Inv(cfg, DoFinishVm(s, id, pid))
  {
    if id in s.tasks && s.tasks[id].pc.InVm? {
      var t := s.tasks[id];
      assert TaskOk(s, t) && RecordOk(s.shards[t.key]);
      GateHolderStep(cfg, s, DoFinishVm(s, id, pid), id);
    }
  }

  lemma FinishGuestKeeps(cfg: Config, s: System, id: nat, ok: bool)
    requires Inv(cfg, s)
    ensures Inv(cfg, DoFinishGuest(s, id, ok))
  {
    if id in s.tasks && s.tasks[id].pc.InGuest? && s.tasks[id].op.ActivateOp? {
      assert TaskOk(s, s.tasks[id]);
      GateHolderStep(cfg, s, DoFinishGuest(s, id, ok), id);
    }
  }

  lemma ClearKeeps(cfg: Config, s: System, id: nat)
    requires Inv(cfg, s)
    ensures Inv(cfg, DoClear(s, id))
  {
    if id in s.tasks && s.tasks[id].pc.Clearing? {
      assert TaskOk(s, s.tasks[id]);
      GateHolderStep(cfg, s, DoClear(s, id), id);
    }
  }

  /** A new request holds no lock, and no other task or record notices it. */
  lemma ArrivalIsUnnoticed(cfg: Config, s: System, id: nat, t: Task)
    requires Inv(cfg, s) && id !in s.tasks && t.pc.Queued? && TaskOk(s, t)
    ensures Inv(cfg, s.(tasks := s.tasks[id := t]))
  {
    var s' := s.(tasks := s.tasks[id := t]);
    forall j | j in s'.tasks ensures TaskOk(s', s'.tasks[j]) {
      if j != id {
        assert TaskOk(s, s.tasks[j]);
      }
    }
  }

  lemma ArriveKeeps(cfg: Config, s: System, id: nat, op: Op, key: ShardKey, epoch: nat)
    requires Inv(cfg, s)
    ensures Inv(cfg, DoArrive(s, id, op, key, epoch))
  {
    if id !in s.tasks {
      ArrivalIsUnnoticed(cfg, s, id, DoArrive(s, id, op, key, epoch).tasks[id]);
    }
  }

  lemma EnterKeeps(cfg: Config, s: System, e: Event)
    requires Inv(cfg, s) && (e.EnterBarrier? || e.EnterGate?)
    ensures Inv(cfg, DoEnter(cfg, s, e))
  {
    var s' := DoEnter(cfg, s, e);
    forall j | j in s'.tasks ensures TaskOk(s', s'.tasks[j]) {
      assert TaskOk(s, s.tasks[j]);
    }
  }

  /** A closing touch, wherever it falls, disturbs neither a running VM or guest operation nor a sweep. */
  lemma SettlingKeeps(cfg: Config, s: System, s': System, key: ShardKey)
    requires Inv(cfg, s) && key in s.shards
    requires s'.shards.Keys == s.shards.Keys && s'.sweeper == s.sweeper
    requires forall k | k in s.shards && k != key :: s'.shards[k] == s.shards[k]
    requires Settled(s.shards[key], s'.shards[key])
    requires forall j | j in s'.tasks :: j in s.tasks && s'.tasks[j] == s.tasks[j]
    ensures Inv(cfg, s')
  {
    forall j | j in s'.tasks ensures TaskOk(s', s'.tasks[j]) {
      assert TaskOk(s, s.tasks[j]);
    }
    forall k | k in s'.shards ensures RecordOk(s'.shards[k]) {
      assert RecordOk(s.shards[k]);
    }
  }

  lemma CloseCallKeeps(cfg: Config, s: System, id: nat)
    requires Inv(cfg, s)
    ensures Inv(cfg, DoCloseCall(s, id))
  {
    if id in s.tasks && s.tasks[id].pc.InBracket? {
      var t := s.tasks[id];
      var s' := DoCloseCall(s, id);
      if t.key in s.shards {
        assert RecordOk(s.shards[t.key]);
        SettlingKeeps(cfg, s, s', t.key);
      } else {
        forall j | j in s'.tasks ensures TaskOk(s', s'.tasks[j]) {
          assert TaskOk(s, s.tasks[j]);
        }
      }
    }
  }

  lemma ChoresAreSound(s: System, order: seq<ShardKey>)
    ensures forall c | c in ChoresOf(s, order) :: ChoreOk(s, c)
  {
  }

  lemma WakeKeeps(cfg: Config, s: System, order: seq<ShardKey>)
    requires Inv(cfg, s)
    ensures Inv(cfg, DoWake(s, order))
  {
    ChoresAreSound(s, order);
    var s' := DoWake(s, order);
    forall j | j in s'.tasks ensures TaskOk(s', s'.tasks[j]) {
      assert TaskOk(s, s.tasks[j]);
    }
  }

  /** With nobody else at the barrier, the sweeper may move a record within its epoch. */
  lemma SweeperStep(cfg: Config, s: System, s': System, key: ShardKey)
    requires Inv(cfg, s) && !s.sweeper.Asleep? && key in s.shards
    requires s'.tasks == s.tasks && s'.shards.Keys == s.shards.Keys
    requires forall k | k in s.shards && k != key :: s'.shards[k] == s.shards[k]
    requires RecordOk(s'.shards[key]) && SweeperOk(s')
    ensures Inv(cfg, s')
  {
    forall j | j in s'.tasks ensures TaskOk(s', s'.tasks[j]) {
      assert TaskOk(s, s.tasks[j]);
    }
  }

  /** Chores stay good while records keep their epoch and nobody opens a call. */
  lemma ChoresStay(s: System, s': System, todo: seq<Chore>)
    requires forall d | d in todo :: ChoreOk(s, d)
    requires s'.shards.Keys == s.shards.Keys
    requires forall k | k in s.shards ::
               s'.shards[k].runtimeEpoch == s.shards[k].runtimeEpoch
               && s'.shards[k].activeInvocations <= s.shards[k].activeInvocations
    ensures forall d | d in todo :: ChoreOk(s', d)
  {
    forall d | d in todo ensures ChoreOk(s', d) {
      assert ChoreOk(s, d);
    }
  }

  predicate StopsAs(action: SweepAction, taken: Record) {
    if action.Snapshot? && !StopsForGood(taken) then Runnable(taken) else taken.state.Draining?
  }

  lemma StopBegins(r: Record, c: Chore)
    requires RecordOk(r) && !c.action.Idle? && !c.action.Leave? && r.runtimeEpoch == c.epoch
    ensures var begin := if c.action.Snapshot? then HibernateBegin(r, c.epoch) else TerminateBegin(r, c.epoch);
            begin.RunVm? ==>
              && RecordOk(begin.marked) && begin.marked == r.(state := begin.marked.state)
              && StopsAs(c.action, begin.marked)
  {
  }

  lemma StoppingKeeps(cfg: Config, s: System, c: Chore, marked: Record, rest: seq<Chore>)
    requires Inv(cfg, s) && s.sweeper.Sweeping? && ChoreOk(s, c) && !c.action.Idle?
    requires forall d | d in rest :: ChoreOk(s, d)
    requires RecordOk(marked) && marked == s.shards[c.key].(state := marked.state) && StopsAs(c.action, marked)
    ensures Inv(cfg, s.(shards := s.shards[c.key := marked], sweeper := Stopping(c, marked, rest)))
  {
    var s' := s.(shards := s.shards[c.key := marked], sweeper := Stopping(c, marked, rest));
    ChoresStay(s, s', rest);
    SweeperStep(cfg, s, s', c.key);
  }

  lemma StopChoreKeeps(cfg: Config, s: System, c: Chore, rest: seq<Chore>)
    requires Inv(cfg, s) && s.sweeper.Sweeping? && ChoreOk(s, c) && !c.action.Idle?
    requires forall d | d in rest :: ChoreOk(s, d)
    ensures Inv(cfg, DoChore(s, c, rest))
  {
    var r := s.shards[c.key];
    assert RecordOk(r);
    StopBegins(r, c);
    var begin := if c.action.Snapshot? then HibernateBegin(r, c.epoch) else TerminateBegin(r, c.epoch);
    if begin.RunVm? {
      StoppingKeeps(cfg, s, c, begin.marked, rest);
    } else {
      var s' := s.(sweeper := Sweeping(rest));
      ChoresStay(s, s', rest);
      SweeperStep(cfg, s, s', c.key);
    }
  }

  lemma IdleChoreKeeps(cfg: Config, s: System, c: Chore, rest: seq<Chore>)
    requires Inv(cfg, s) && s.sweeper.Sweeping? && ChoreOk(s, c) && c.action.Idle?
    requires forall d | d in rest :: ChoreOk(s, d)
    ensures Inv(cfg, DoChore(s, c, rest))
  {
    var s' := DoChore(s, c, rest);
    assert RecordOk(s.shards[c.key]);
    ChoresStay(s, s', rest);
    SweeperStep(cfg, s, s', c.key);
  }

  lemma SweepNextKeeps(cfg: Config, s: System)
    requires Inv(cfg, s)
    ensures Inv(cfg, DoSweepNext(s))
  {
    if s.sweeper.Sweeping? && s.sweeper.todo != [] {
      assert s.sweeper.todo[0] in s.sweeper.todo;
      if s.sweeper.todo[0].action.Idle? {
        IdleChoreKeeps(cfg, s, s.sweeper.todo[0], s.sweeper.todo[1..]);
      } else {
        StopChoreKeeps(cfg, s, s.sweeper.todo[0], s.sweeper.todo[1..]);
      }
    } else {
      var s' := DoSweepNext(s);
      forall j | j in s'.tasks ensures TaskOk(s', s'.tasks[j]) {
        assert TaskOk(s, s.tasks[j]);
      }
    }
  }

  lemma SweepFinishKeeps(cfg: Config, s: System, ok: bool)
    requires Inv(cfg, s)
    ensures Inv(cfg, DoSweepFinish(s, ok))
  {
    if s.sweeper.Stopping? {
      var s' := DoSweepFinish(s, ok);
      var c := s.sweeper.chore;
      assert RecordOk(s.shards[c.key]);
      ChoresStay(s, s', s.sweeper.todo);
      SweeperStep(cfg, s, s', c.key);
    }
  }

  lemma AdvanceKeeps(cfg: Config, s: System)
    requires Inv(cfg, s)
    ensures Inv(cfg, Next(cfg, s, Advance))
  {
    var s' := Next(cfg, s, Advance);
    forall j | j in s'.tasks ensures TaskOk(s', s'.tasks[j]) {
      assert TaskOk(s, s.tasks[j]);
    }
  }

  lemma NextKeeps(cfg: Config, s: System, e: Event)
    requires Inv(cfg, s)
    ensures Inv(cfg, Next(cfg, s, e))
  {
    match e
    case Advance => AdvanceKeeps(cfg, s);
    case Arrive(id, op, key, epoch) => ArriveKeeps(cfg, s, id, op, key, epoch);
    case EnterBarrier(_) => EnterKeeps(cfg, s, e);
    case EnterGate(_) => EnterKeeps(cfg, s, e);
    case Act(id) => ActKeeps(cfg, s, id);
    case FinishVm(id, pid) => FinishVmKeeps(cfg, s, id, pid);
    case FinishGuest(id, ok) => FinishGuestKeeps(cfg, s, id, ok);
    case Clear(id) => ClearKeeps(cfg, s, id);
    case CloseCall(id) => CloseCallKeeps(cfg, s, id);
    case WakeSweeper(order) => WakeKeeps(cfg, s, order);
    case SweepNext => SweepNextKeeps(cfg, s);
    case SweepFinish(ok) => SweepFinishKeeps(cfg, s, ok);
  }

  lemma {:induction false} RunKeeps(cfg: Config, s: System, events: seq<Event>)
    requires Inv(cfg, s)
    ensures Inv(cfg, Run(cfg, s, events))
    decreases |events|
  {
    if events != [] {
      NextKeeps(cfg, s, events[0]);
      RunKeeps(cfg, Next(cfg, s, events[0]), events[1..]);
    }
  }

  /**
   * The gate discipline makes the split operations safe: over every run, for any stripe collisions and
   * with the sweeper about, a record between the two locked sections of an operation has the epoch and
   * the state in which the operation left it.
   */
  lemma WriteBackFindsItsRecord(cfg: Config, events: seq<Event>, id: nat)
    requires id in Run(cfg, INITIAL, events).tasks && Run(cfg, INITIAL, events).tasks[id].pc.InVm?
    ensures var s := Run(cfg, INITIAL, events);
            var t := s.tasks[id];
            && t.key in s.shards
            && s.shards[t.key].runtimeEpoch == t.pc.taken.runtimeEpoch == t.epoch
            && s.shards[t.key].state == t.pc.taken.state
  {
    InitialHolds(cfg);
    RunKeeps(cfg, INITIAL, events);
    assert TaskOk(Run(cfg, INITIAL, events), Run(cfg, INITIAL, events).tasks[id]);
  }

  lemma SweepWriteBackFindsItsRecord(cfg: Config, events: seq<Event>)
    requires Run(cfg, INITIAL, events).sweeper.Stopping?
    ensures var s := Run(cfg, INITIAL, events);
            var key := s.sweeper.chore.key;
            && key in s.shards
            && s.shards[key].runtimeEpoch == s.sweeper.taken.runtimeEpoch
            && s.shards[key].state == s.sweeper.taken.state
            && s.shards[key].activeInvocations == 0
  {
    InitialHolds(cfg);
    RunKeeps(cfg, INITIAL, events);
  }

  /** A process handle in a record was produced for that record's epoch, and a runnable record has one. */
  lemma HandlesMatchEpoch(cfg: Config, events: seq<Event>, key: ShardKey)
    requires key in Run(cfg, INITIAL, events).shards
    ensures var r := Run(cfg, INITIAL, events).shards[key];
            && (r.handles.Some? ==> r.handles.value.epoch == r.runtimeEpoch)
            && (Runnable(r) ==> r.handles.Some?)
  {
    InitialHolds(cfg);
    RunKeeps(cfg, INITIAL, events);
    assert RecordOk(Run(cfg, INITIAL, events).shards[key]);
  }
}
