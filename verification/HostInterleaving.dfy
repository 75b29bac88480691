/**
 * The request handlers and the sweeper as programs whose steps interleave.
 *
 * A handler takes the lifecycle barrier for reading, then the gate of its shard's stripe, and keeps
 * both while a VM or guest operation runs with the record lock released. An invocation gives both up
 * before it calls the guest and closes with a touch outside any gate. The sweeper runs under the
 * barrier's write side. Which locks a task holds follows from its program counter.
 */
module HostInterleaving {
  import opened Options
  import opened RuntimeHost

  /** Shards hash onto a fixed number of gates; nothing is assumed about collisions. */
  datatype Config = Config(hash: ShardKey -> nat)

  const SHARD_GATE_STRIPES: nat := 256

  function StripeOf(cfg: Config, key: ShardKey): nat {
    cfg.hash(key) % SHARD_GATE_STRIPES
  }

  /** An authorised request; `Invoke` stands for invoke and critical-section calls alike. */
  datatype Op =
    | EnsureOp(req: EnsureRequest)
    | StartOp
    | ActivateOp(deployment: string)
    | TouchOp(delta: int)
    | InvokeOp(deployment: string)
    | WarmIdleOp
    | HibernateOp
    | TerminateOp

  datatype Pc =
    | Queued
    | Shared
    | Gated
    | InVm(taken: Record)
    | InGuest(taken: Record)
    | Clearing
    | InBracket

  datatype Task = Task(op: Op, key: ShardKey, epoch: nat, pc: Pc)

  datatype Chore = Chore(key: ShardKey, epoch: nat, action: SweepAction)

  datatype Sweeper = Asleep | Sweeping(todo: seq<Chore>) | Stopping(chore: Chore, taken: Record, todo: seq<Chore>)

  /** What activations have shown to be loaded in one epoch of a shard. */
  datatype Observed = Observed(root: string, loaded: set<string>)

  datatype System = System(
    now: nat,
    shards: map<ShardKey, Record>,
    observed: map<(ShardKey, nat), Observed>,
    tasks: map<nat, Task>,
    sweeper: Sweeper)

  datatype Event =
    | Advance
    | Arrive(id: nat, op: Op, key: ShardKey, epoch: nat)
    | EnterBarrier(id: nat)
    | EnterGate(id: nat)
    | Act(id: nat)
    | FinishVm(id: nat, pid: Option<nat>)
    | FinishGuest(id: nat, ok: bool)
    | Clear(id: nat)
    | CloseCall(id: nat)
    | WakeSweeper(order: seq<ShardKey>)
    | SweepNext
    | SweepFinish(ok: bool)

  const INITIAL := System(0, map[], map[], map[], Asleep)

  predicate HoldsGate(t: Task) {
    t.pc.Gated? || t.pc.InVm? || t.pc.InGuest? || t.pc.Clearing?
  }

  predicate HoldsBarrier(t: Task) {
    t.pc.Shared? || HoldsGate(t)
  }

  predicate GateFree(cfg: Config, s: System, key: ShardKey) {
    forall id | id in s.tasks && HoldsGate(s.tasks[id]) :: StripeOf(cfg, s.tasks[id].key) != StripeOf(cfg, key)
  }

  predicate Runnable(r: Record) {
    r.state.Hot? || r.state.WarmIdle?
  }

  /** The deployments a shard may be invoked with: what was observed loaded, else its placement. */
  function Allowed(s: System, key: ShardKey): set<string>
    requires key in s.shards
  {
    var r := s.shards[key];
    if (key, r.runtimeEpoch) in s.observed then s.observed[(key, r.runtimeEpoch)].loaded
    else
      match Normalize(r.deploymentDigest)
      case None => {}
      case Some(digest) => {digest}
  }

  /** The outcome of a handler's first section under its gate; no `pc` means that the handler is done. */
  datatype Acted = Acted(shards: map<ShardKey, Record>, pc: Option<Pc>)

  /** A same-epoch change of the digest is refused while the shard is live. */
  predicate EnsureConflicts(existing: Option<Record>, req: EnsureRequest) {
    && existing.Some?
    && existing.value.runtimeEpoch == req.runtimeEpoch
    && Normalize(existing.value.deploymentDigest) != Normalize(req.deploymentDigest)
    && !existing.value.state.Cold? && !existing.value.state.Terminated?
  }

  predicate EnsureClears(existing: Option<Record>, req: EnsureRequest) {
    || existing.None?
    || existing.value.runtimeEpoch != req.runtimeEpoch
    || Normalize(existing.value.deploymentDigest) != Normalize(req.deploymentDigest)
  }

  function ActEnsure(s: System, req: EnsureRequest): Acted {
    var existing := Lookup(s.shards, req.key);
    if Normalize(req.deploymentDigest).None? || EnsureConflicts(existing, req) then Acted(s.shards, None)
    else
      match EnsureRecord(existing, req, s.now)
      case Err(_) => Acted(s.shards, None)
      case Ok(r) =>
        Acted(s.shards[req.key := r], if EnsureClears(existing, req) then Some(Clearing) else None)
  }

  /** A `Begin` applied to the map: either a VM operation follows or the handler goes on with `done`. */
  function ActBegin(s: System, key: ShardKey, begin: Begin, done: Option<Pc>): Acted {
    match begin
    case RunVm(marked) => Acted(s.shards[key := marked], Some(InVm(marked)))
    case AlreadyDone => Acted(s.shards, done)
    case Refused(_) => Acted(s.shards, None)
  }

  function ActResult(s: System, key: ShardKey, result: Result<Record>, pc: Option<Pc>): Acted {
    match result
    case Ok(r) => Acted(s.shards[key := r], pc)
    case Err(_) => Acted(s.shards, None)
  }

  function ActOn(s: System, t: Task): Acted {
    if t.op.EnsureOp? then ActEnsure(s, t.op.req)
    else if t.key !in s.shards then Acted(s.shards, None)
    else
      var r := s.shards[t.key];
      match t.op
      case StartOp => ActBegin(s, t.key, StartBegin(r, t.epoch), None)
      case HibernateOp => ActBegin(s, t.key, HibernateBegin(r, t.epoch), None)
      case TerminateOp =>
        if r.runtimeEpoch != t.epoch || r.activeInvocations != 0 then Acted(s.shards, None)
        else ActBegin(s, t.key, TerminateBegin(r, t.epoch), Some(Clearing))
      case WarmIdleOp => ActResult(s, t.key, MarkWarmIdle(r, t.epoch), None)
      case TouchOp(delta) =>
        if -1 <= delta <= 1 then ActResult(s, t.key, Touch(r, t.epoch, delta, s.now), None) else Acted(s.shards, None)
      case InvokeOp(deployment) =>
        if r.runtimeEpoch == t.epoch && Runnable(r) && deployment in Allowed(s, t.key) then
          ActResult(s, t.key, Touch(r, t.epoch, 1, s.now), Some(InBracket))
        else Acted(s.shards, None)
      case ActivateOp(_) =>
        Acted(s.shards, if r.runtimeEpoch == t.epoch && Runnable(r) then Some(InGuest(r)) else None)
  }

  function WithPc(s: System, id: nat, pc: Option<Pc>): map<nat, Task>
    requires id in s.tasks
  {
    match pc
    case None => s.tasks - {id}
    case Some(p) => s.tasks[id := s.tasks[id].(pc := p)]
  }

  /** The record after a VM operation; the write-back goes by key and rechecks nothing. */
  function VmWriteBack(r: Record, op: Op, taken: Record, pid: Option<nat>, now: nat): Record {
    match op
    case StartOp =>
      StartEnd(r, match pid case None => None case Some(p) => Some(Handles(taken.runtimeEpoch, p)), now)
    case HibernateOp =>
      if pid.None? then r else if StopsForGood(taken) then TerminateEnd(r) else HibernateEnd(r)
    case _ => if pid.None? then r else TerminateEnd(r)
  }

  function DoFinishVm(s: System, id: nat, pid: Option<nat>): System {
    if id in s.tasks && s.tasks[id].pc.InVm? then
      var t := s.tasks[id];
      var pc := if t.op.TerminateOp? && pid.Some? then Some(Clearing) else None;
      if t.key in s.shards then
        s.(shards := s.shards[t.key := VmWriteBack(s.shards[t.key], t.op, t.pc.taken, pid, s.now)],
           tasks := WithPc(s, id, pc))
      else s.(tasks := WithPc(s, id, None))
    else s
  }

  /** An acknowledged activation: the placement digest is loaded beside the activated one. */
  function Activated(before: Option<Observed>, taken: Record, deployment: string): Observed {
    var loaded := if before.Some? then before.value.loaded else {};
    var placement := match Normalize(taken.deploymentDigest) case None => {} case Some(digest) => {digest};
    Observed(deployment, loaded + placement + {deployment})
  }

  function DoFinishGuest(s: System, id: nat, ok: bool): System {
    if id in s.tasks && s.tasks[id].pc.InGuest? && s.tasks[id].op.ActivateOp? then
      var t := s.tasks[id];
      var entry := (t.key, t.epoch);
      var before := if entry in s.observed then Some(s.observed[entry]) else None;
      s.(tasks := WithPc(s, id, None),
         observed := if ok then s.observed[entry := Activated(before, t.pc.taken, t.op.deployment)] else s.observed)
    else s
  }

  function ClearObserved(observed: map<(ShardKey, nat), Observed>, key: ShardKey): map<(ShardKey, nat), Observed> {
    map entry | entry in observed && entry.0 != key :: observed[entry]
  }

  /** The closing touch, outside barrier and gate. */
  function DoCloseCall(s: System, id: nat): System {
    if id in s.tasks && s.tasks[id].pc.InBracket? then
      var t := s.tasks[id];
      var s' := s.(tasks := WithPc(s, id, None));
      if t.key !in s.shards then s'
      else
        match Touch(s.shards[t.key], t.epoch, -1, s.now)
        case Ok(r) => s'.(shards := s.shards[t.key := r])
        case Err(_) => s'
    else s
  }

  function ChoresOf(s: System, order: seq<ShardKey>): seq<Chore> {
    if order == [] then []
    else
      var rest := ChoresOf(s, order[1..]);
      if order[0] in s.shards && !SweepActionOf(s.shards[order[0]], s.now).Leave? then
        var r := s.shards[order[0]];
        [Chore(order[0], r.runtimeEpoch, SweepActionOf(r, s.now))] + rest
      else rest
  }

  function DoChore(s: System, chore: Chore, rest: seq<Chore>): System {
    var s' := s.(sweeper := Sweeping(rest));
    if chore.key !in s.shards || chore.action.Leave? then s'
    else
      var r := s.shards[chore.key];
      if chore.action.Idle? then
        match MarkWarmIdle(r, chore.epoch)
        case Ok(r') => s'.(shards := s.shards[chore.key := r'])
        case Err(_) => s'
      else
        match if chore.action.Snapshot? then HibernateBegin(r, chore.epoch) else TerminateBegin(r, chore.epoch)
        case RunVm(marked) =>
          s.(shards := s.shards[chore.key := marked], sweeper := Stopping(chore, marked, rest))
        case _ => s'
  }

  function DoSweepNext(s: System): System {
    if s.sweeper.Sweeping? then
      if s.sweeper.todo == [] then s.(sweeper := Asleep)
      else DoChore(s, s.sweeper.todo[0], s.sweeper.todo[1..])
    else s
  }

  function DoSweepFinish(s: System, ok: bool): System {
    if s.sweeper.Stopping? then
      var c := s.sweeper.chore;
      var s' := s.(sweeper := Sweeping(s.sweeper.todo));
      if ok && c.key in s.shards then
        var r := s.shards[c.key];
        s'.(shards := s.shards[c.key :=
              if c.action.Snapshot? && !StopsForGood(s.sweeper.taken) then HibernateEnd(r) else TerminateEnd(r)])
      else s'
    else s
  }

  function DoAct(s: System, id: nat): System {
    if id in s.tasks && s.tasks[id].pc.Gated? then
      var acted := ActOn(s, s.tasks[id]);
      s.(shards := acted.shards, tasks := WithPc(s, id, acted.pc))
    else s
  }

  function DoClear(s: System, id: nat): System {
    if id in s.tasks && s.tasks[id].pc.Clearing? then
      s.(observed := ClearObserved(s.observed, s.tasks[id].key), tasks := WithPc(s, id, None))
    else s
  }

  function DoArrive(s: System, id: nat, op: Op, key: ShardKey, epoch: nat): System {
    if id in s.tasks then s
    else if op.EnsureOp? then s.(tasks := s.tasks[id := Task(op, op.req.key, op.req.runtimeEpoch, Queued)])
    else s.(tasks := s.tasks[id := Task(op, key, epoch, Queued)])
  }

  /** Locks are taken in a fixed order: the barrier's read side, then the stripe's gate. */
  function DoEnter(cfg: Config, s: System, e: Event): System
    requires e.EnterBarrier? || e.EnterGate?
  {
    if e.id !in s.tasks then s
    else if e.EnterBarrier? then
      if s.tasks[e.id].pc.Queued? && s.sweeper.Asleep? then s.(tasks := WithPc(s, e.id, Some(Shared))) else s
    else
      if s.tasks[e.id].pc.Shared? && GateFree(cfg, s, s.tasks[e.id].key) then s.(tasks := WithPc(s, e.id, Some(Gated)))
      else s
  }

  function DoWake(s: System, order: seq<ShardKey>): System {
    if s.sweeper.Asleep? && forall id | id in s.tasks :: !HoldsBarrier(s.tasks[id]) then
      s.(sweeper := Sweeping(ChoresOf(s, order)))
    else s
  }

  /** One step; an event that is not enabled changes nothing. */
  function Next(cfg: Config, s: System, e: Event): System {
    match e
    case Advance => s.(now := s.now + 1)
    case Arrive(id, op, key, epoch) => DoArrive(s, id, op, key, epoch)
    case EnterBarrier(_) => DoEnter(cfg, s, e)
    case EnterGate(_) => DoEnter(cfg, s, e)
    case Act(id) => DoAct(s, id)
    case FinishVm(id, pid) => DoFinishVm(s, id, pid)
    case FinishGuest(id, ok) => DoFinishGuest(s, id, ok)
    case Clear(id) => DoClear(s, id)
    case CloseCall(id) => DoCloseCall(s, id)
    case WakeSweeper(order) => DoWake(s, order)
    case SweepNext => DoSweepNext(s)
    case SweepFinish(ok) => DoSweepFinish(s, ok)
  }

  function Run(cfg: Config, s: System, events: seq<Event>): System
    decreases |events|
  {
    if events == [] then s else Run(cfg, Next(cfg, s, events[0]), events[1..])
  }

  lemma {:induction false} RunAppend(cfg: Config, s: System, before: seq<Event>, after: seq<Event>)
    ensures Run(cfg, s, before + after) == Run(cfg, Run(cfg, s, before), after)
    decreases |before|
  {
    if before == [] {
      assert before + after == after;
    } else {
      assert (before + after)[1..] == before[1..] + after;
      RunAppend(cfg, Next(cfg, s, before[0]), before[1..], after);
    }
  }
}
