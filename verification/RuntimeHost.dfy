/** The runtime host's shard records, and the host operations that read and write them under one lock. */
module RuntimeHost {
  import opened Options
  import opened Identifiers

  const MAX_U32: nat := 0xFFFF_FFFF

  /** A 32-bit counter; the host's arithmetic on it saturates. */
  type U32 = n: nat | n <= MAX_U32

  datatype ExecutionClass = Faas | Phoenix | DurableActor

  datatype ExecutionBackend = BareProcess | Firecracker

  datatype ShardKey = ShardKey(executionClass: ExecutionClass, tenantId: string, shardId: string)

  datatype Lifecycle = Cold | Starting | Hot | WarmIdle | Hibernated | Draining | Terminated

  datatype Policy = Policy(
    vcpuCount: nat, memoryMib: nat, snapshotEnabled: bool, warmIdleMs: nat, hibernateAfterMs: nat, destroyAfterMs: nat)

  /** A process and its sockets, with the epoch they were produced for. */
  datatype Handles = Handles(epoch: nat, pid: nat)

  datatype Record = Record(
    runtimeEpoch: nat,
    deploymentDigest: string,
    userId: string,
    rootDeploymentId: string,
    state: Lifecycle,
    policy: Policy,
    activeInvocations: U32,
    lastActiveMs: nat,
    handles: Option<Handles>,
    failed: bool)

  datatype HostError =
    | UnknownShard
    | StaleEpoch(requested: nat, current: nat)
    | EpochReplacementConflict
    | InvalidState(state: Lifecycle)
    | InvalidPolicy
    | InvalidIdentity
    | IdentityConflict
    | InvalidExecutionTarget
    | VmFailure

  datatype Result<+T> = Ok(value: T) | Err(error: HostError)

  datatype EnsureRequest = EnsureRequest(
    key: ShardKey,
    backend: ExecutionBackend,
    tenantIsolation: string,
    userId: string,
    runtimeEpoch: nat,
    rootDeploymentId: string,
    deploymentDigest: string,
    policy: Policy)

  predicate ValidPolicy(p: Policy) {
    && 0 < p.vcpuCount <= 32
    && 64 <= p.memoryMib
    && 0 < p.warmIdleMs < p.hibernateAfterMs < p.destroyAfterMs
  }

  predicate HexLower(c: char) {
    '0' <= c <= '9' || 'a' <= c <= 'f'
  }

  function WithoutPrefix(digest: string): string {
    if "sha256:" <= digest then digest[7..] else digest
  }

  /** The canonical form of a build digest: 64 lower-case hexadecimal digits without the optional prefix. */
  function Normalize(digest: string): Option<string> {
    var raw := WithoutPrefix(digest);
    if |raw| == 64 && forall i | 0 <= i < |raw| :: HexLower(raw[i]) then Some(raw) else None
  }

  predicate ValidTarget(executionClass: ExecutionClass, backend: ExecutionBackend) {
    backend.Firecracker? && !executionClass.Faas?
  }

  function EnsureError(req: EnsureRequest): Option<HostError> {
    if !ValidTarget(req.key.executionClass, req.backend) || req.tenantIsolation != "single_tenant_microvm" then
      Some(InvalidExecutionTarget)
    else if !ValidPolicy(req.policy) || Normalize(req.deploymentDigest).None?
            || !ValidResourceId(req.key.tenantId) || !ValidResourceId(req.key.shardId) then Some(InvalidPolicy)
    else if !ValidSubject(req.userId) || !ValidSubject(req.rootDeploymentId) then Some(InvalidIdentity)
    else None
  }

  function NewRecord(req: EnsureRequest, now: nat): Record {
    Record(req.runtimeEpoch, req.deploymentDigest, req.userId, req.rootDeploymentId, Cold, req.policy, 0, now, None,
           false)
  }

  function EnsureRecord(existing: Option<Record>, req: EnsureRequest, now: nat): Result<Record> {
    match EnsureError(req)
    case Some(error) => Err(error)
    case None =>
      match existing
      case None => Ok(NewRecord(req, now))
      case Some(r) =>
        if req.runtimeEpoch < r.runtimeEpoch then Err(StaleEpoch(req.runtimeEpoch, r.runtimeEpoch))
        else if r.runtimeEpoch < req.runtimeEpoch then
          if r.state.Terminated? then Ok(NewRecord(req, now)) else Err(EpochReplacementConflict)
        else if r.userId != req.userId || r.rootDeploymentId != req.rootDeploymentId then Err(IdentityConflict)
        else Ok(r.(deploymentDigest := req.deploymentDigest, policy := req.policy, lastActiveMs := now))
  }

  /** The first locked section of an operation that may run the VM with the lock released. */
  datatype Begin = AlreadyDone | Refused(error: HostError) | RunVm(marked: Record)

  function StartBegin(r: Record, epoch: nat): Begin {
    if r.runtimeEpoch != epoch then Refused(StaleEpoch(epoch, r.runtimeEpoch))
    else
      match r.state
      case Hot | Starting => AlreadyDone
      case Cold | Hibernated | Terminated => RunVm(r.(state := Starting, failed := false))
      case state => Refused(InvalidState(state))
  }

  /** The write-back of a start, whatever the record has become meanwhile. */
  function StartEnd(r: Record, vm: Option<Handles>, now: nat): Record {
    match vm
    case Some(handles) => r.(state := Hot, handles := Some(handles), lastActiveMs := now)
    case None => r.(state := Cold, failed := true)
  }

  function TerminateBegin(r: Record, epoch: nat): Begin {
    if r.runtimeEpoch != epoch then Refused(StaleEpoch(epoch, r.runtimeEpoch))
    else if r.state.Terminated? then AlreadyDone
    else RunVm(r.(state := Draining))
  }

  function TerminateEnd(r: Record): Record {
    r.(state := Terminated, handles := None)
  }

  /** With snapshots disabled, hibernating is terminating; `StopsForGood` tells which it is. */
  predicate StopsForGood(r: Record) {
    !r.policy.snapshotEnabled
  }

  /** The second locked section of a hibernate, once snapshots were found enabled; it does not look again. */
  function SnapshotBegin(r: Record, epoch: nat): Begin {
    if r.runtimeEpoch != epoch then Refused(StaleEpoch(epoch, r.runtimeEpoch))
    else if r.activeInvocations != 0 then Refused(InvalidState(r.state))
    else
      match r.state
      case Hot | WarmIdle => RunVm(r)
      case Hibernated => AlreadyDone
      case state => Refused(InvalidState(state))
  }

  /** The locked sections of a hibernate up to its VM operation, as one. */
  function HibernateBegin(r: Record, epoch: nat): Begin {
    if r.runtimeEpoch == epoch && StopsForGood(r) then TerminateBegin(r, epoch) else SnapshotBegin(r, epoch)
  }

  /**
   * Between the section that reads the policy and the one that acts on it, other tasks may change the record
   * as long as its epoch and policy stay: then the two act as one at the later moment. Calls that close in
   * between change neither.
   */
  lemma HibernateInTwoSections(first: Record, second: Record, epoch: nat)
    requires second.runtimeEpoch == first.runtimeEpoch && second.policy == first.policy
    ensures HibernateBegin(second, epoch) ==
            if first.runtimeEpoch != epoch then Refused(StaleEpoch(epoch, first.runtimeEpoch))
            else if StopsForGood(first) then TerminateBegin(second, epoch)
            else SnapshotBegin(second, epoch)
    ensures forall now, delta ::
              var touched := Touch(first, first.runtimeEpoch, delta, now);
              touched.Ok? && touched.value.runtimeEpoch == first.runtimeEpoch && touched.value.policy == first.policy
  {
  }

  function HibernateEnd(r: Record): Record {
    r.(state := Hibernated, handles := None)
  }

  function MarkWarmIdle(r: Record, epoch: nat): Result<Record> {
    if r.runtimeEpoch != epoch then Err(StaleEpoch(epoch, r.runtimeEpoch))
    else if r.activeInvocations != 0 then Err(InvalidState(r.state))
    else
      match r.state
      case Hot | WarmIdle => Ok(r.(state := WarmIdle))
      case state => Err(InvalidState(state))
  }

  function SaturatingAdd(active: U32, delta: int): U32 {
    var sum := active + delta;
    if sum < 0 then 0 else if MAX_U32 < sum then MAX_U32 else sum
  }

  function Touch(r: Record, epoch: nat, delta: int, now: nat): Result<Record> {
    if r.runtimeEpoch != epoch then Err(StaleEpoch(epoch, r.runtimeEpoch))
    else
      var active := SaturatingAdd(r.activeInvocations, delta);
      Ok(r.(activeInvocations := active,
            lastActiveMs := now,
            state := if 0 < active && r.state.WarmIdle? then Hot else r.state))
  }

  /** What one sweep asks of a record. */
  datatype SweepAction = Leave | Idle | Snapshot | Destroy

  function SweepActionOf(r: Record, now: nat): SweepAction {
    var idle := if r.lastActiveMs <= now then now - r.lastActiveMs else 0;
    if r.activeInvocations != 0 then Leave
    else if r.state.Hot? && r.policy.warmIdleMs <= idle then Idle
    else if r.state.WarmIdle? && r.policy.hibernateAfterMs <= idle then Snapshot
    else if r.state.Hibernated? && r.policy.destroyAfterMs <= idle then Destroy
    else Leave
  }

  /** The record after its sweep action, given whether the VM operation succeeds. */
  function SweptRecord(r: Record, now: nat, vmOk: bool): Record {
    match SweepActionOf(r, now)
    case Leave => r
    case Idle => r.(state := WarmIdle)
    case Snapshot =>
      if StopsForGood(r) then
        if vmOk then TerminateEnd(r) else r.(state := Draining)
      else if vmOk then HibernateEnd(r) else r
    case Destroy => if vmOk then TerminateEnd(r) else r.(state := Draining)
  }

  function Swept(shards: map<ShardKey, Record>, now: nat, vmOk: ShardKey -> bool): map<ShardKey, Record> {
    map key | key in shards :: SweptRecord(shards[key], now, vmOk(key))
  }

  function Lookup(shards: map<ShardKey, Record>, key: ShardKey): Option<Record> {
    if key in shards then Some(shards[key]) else None
  }

  /** Once every key of the order is swept, the map is. */
  lemma AllSwept(before: map<ShardKey, Record>, after: map<ShardKey, Record>, order: seq<ShardKey>, now: nat,
                 vmOk: ShardKey -> bool)
    requires after.Keys == before.Keys && forall key :: key in order <==> key in before
    requires forall j | 0 <= j < |order| :: after[order[j]] == SweptRecord(before[order[j]], now, vmOk(order[j]))
    ensures after == Swept(before, now, vmOk)
  {
    forall key | key in after ensures after[key] == SweptRecord(before[key], now, vmOk(key)) {
      var j :| 0 <= j < |order| && order[j] == key;
    }
  }

  /** The locked map of records. A VM operation runs between a `Begin` and an `End` method. */
  class Host {
    var shards: map<ShardKey, Record>

    constructor ()
      ensures shards == map[]
    {
      shards := map[];
    }

    method Ensure(req: EnsureRequest, now: nat) returns (result: Result<Record>)
      modifies this
      ensures result == EnsureRecord(Lookup(old(shards), req.key), req, now)
      ensures shards == if result.Ok? then old(shards)[req.key := result.value] else old(shards)
    {
      var error := EnsureError(req);
      if error.Some? {
        return Err(error.value);
      }
      if req.key in shards {
        var existing := shards[req.key];
        if req.runtimeEpoch < existing.runtimeEpoch {
          return Err(StaleEpoch(req.runtimeEpoch, existing.runtimeEpoch));
        }
        if req.runtimeEpoch > existing.runtimeEpoch {
          if existing.state != Terminated {
            return Err(EpochReplacementConflict);
          }
          existing := NewRecord(req, now);
        } else {
          if existing.userId != req.userId || existing.rootDeploymentId != req.rootDeploymentId {
            return Err(IdentityConflict);
          }
          existing := existing.(deploymentDigest := req.deploymentDigest, policy := req.policy, lastActiveMs := now);
        }
        shards := shards[req.key := existing];
        return Ok(existing);
      }
      var record := NewRecord(req, now);
      shards := shards[req.key := record];
      return Ok(record);
    }

    method BeginStart(key: ShardKey, epoch: nat) returns (begin: Begin)
      modifies this
      ensures key !in old(shards) ==> begin == Refused(UnknownShard)
      ensures key in old(shards) ==> begin == StartBegin(old(shards)[key], epoch)
      ensures shards == if begin.RunVm? then old(shards)[key := begin.marked] else old(shards)
    {
      if key !in shards {
        return Refused(UnknownShard);
      }
      var record := shards[key];
      if record.runtimeEpoch != epoch {
        return Refused(StaleEpoch(epoch, record.runtimeEpoch));
      }
      match record.state {
        case Hot | Starting => return AlreadyDone;
        case Cold | Hibernated | Terminated =>
          record := record.(state := Starting, failed := false);
          shards := shards[key := record];
          return RunVm(record);
        case state => return Refused(InvalidState(state));
      }
    }

    method EndStart(key: ShardKey, vm: Option<Handles>, now: nat) returns (result: Result<Record>)
      modifies this
      ensures key !in old(shards) ==> result == Err(UnknownShard) && shards == old(shards)
      ensures key in old(shards) ==> shards == old(shards)[key := StartEnd(old(shards)[key], vm, now)]
      ensures key in old(shards) ==> result == if vm.Some? then Ok(shards[key]) else Err(VmFailure)
    {
      if key !in shards {
        return Err(UnknownShard);
      }
      var record := shards[key];
      if vm.Some? {
        record := record.(state := Hot, handles := vm, lastActiveMs := now);
        shards := shards[key := record];
        return Ok(record);
      }
      shards := shards[key := record.(state := Cold, failed := true)];
      return Err(VmFailure);
    }

    /** The first locked section of a hibernate: whether snapshots are enabled. */
    method ReadSnapshotPolicy(key: ShardKey, epoch: nat) returns (enabled: Result<bool>)
      ensures enabled ==
              if key !in shards then Err(UnknownShard)
              else if shards[key].runtimeEpoch != epoch then Err(StaleEpoch(epoch, shards[key].runtimeEpoch))
              else Ok(!StopsForGood(shards[key]))
    {
      if key !in shards {
        return Err(UnknownShard);
      }
      if shards[key].runtimeEpoch != epoch {
        return Err(StaleEpoch(epoch, shards[key].runtimeEpoch));
      }
      return Ok(shards[key].policy.snapshotEnabled);
    }

    /** The second, when they are: the record stays as it is while the VM is stopped. */
    method BeginSnapshot(key: ShardKey, epoch: nat) returns (begin: Begin)
      ensures key !in shards ==> begin == Refused(UnknownShard)
      ensures key in shards ==> begin == SnapshotBegin(shards[key], epoch)
      ensures begin.RunVm? ==> begin.marked == shards[key]
    {
      if key !in shards {
        return Refused(UnknownShard);
      }
      var record := shards[key];
      if record.runtimeEpoch != epoch {
        return Refused(StaleEpoch(epoch, record.runtimeEpoch));
      }
      if record.activeInvocations != 0 {
        return Refused(InvalidState(record.state));
      }
      match record.state {
        case Hot | WarmIdle => return RunVm(record);
        case Hibernated => return AlreadyDone;
        case state => return Refused(InvalidState(state));
      }
    }

    /** A hibernate with nothing between its sections. */
    method BeginHibernate(key: ShardKey, epoch: nat) returns (begin: Begin)
      modifies this
      ensures key !in old(shards) ==> begin == Refused(UnknownShard)
      ensures key in old(shards) ==> begin == HibernateBegin(old(shards)[key], epoch)
      ensures shards == if begin.RunVm? then old(shards)[key := begin.marked] else old(shards)
    {
      var enabled := ReadSnapshotPolicy(key, epoch);
      if enabled.Err? {
        return Refused(enabled.error);
      }
      if enabled.value {
        begin := BeginSnapshot(key, epoch);
        assert begin.RunVm? ==> shards[key := begin.marked] == shards;
      } else {
        begin := BeginTerminate(key, epoch);
      }
    }

    method BeginTerminate(key: ShardKey, epoch: nat) returns (begin: Begin)
      modifies this
      ensures key !in old(shards) ==> begin == Refused(UnknownShard)
      ensures key in old(shards) ==> begin == TerminateBegin(old(shards)[key], epoch)
      ensures shards == if begin.RunVm? then old(shards)[key := begin.marked] else old(shards)
    {
      if key !in shards {
        return Refused(UnknownShard);
      }
      var record := shards[key];
      if record.runtimeEpoch != epoch {
        return Refused(StaleEpoch(epoch, record.runtimeEpoch));
      }
      if record.state == Terminated {
        return AlreadyDone;
      }
      record := record.(state := Draining);
      shards := shards[key := record];
      return RunVm(record);
    }

    /** The write-back of a hibernate or terminate whose VM operation succeeded. */
    method EndStop(key: ShardKey, forGood: bool) returns (result: Result<Record>)
      modifies this
      ensures key !in old(shards) ==> result == Err(UnknownShard) && shards == old(shards)
      ensures key in old(shards) ==>
                && result == Ok(if forGood then TerminateEnd(old(shards)[key]) else HibernateEnd(old(shards)[key]))
                && shards == old(shards)[key := result.value]
    {
      if key !in shards {
        return Err(UnknownShard);
      }
      var record := shards[key].(state := if forGood then Terminated else Hibernated, handles := None);
      shards := shards[key := record];
      return Ok(record);
    }

    method WarmIdle(key: ShardKey, epoch: nat) returns (result: Result<Record>)
      modifies this
      ensures key !in old(shards) ==> result == Err(UnknownShard)
      ensures key in old(shards) ==> result == MarkWarmIdle(old(shards)[key], epoch)
      ensures shards == if result.Ok? then old(shards)[key := result.value] else old(shards)
    {
      if key !in shards {
        return Err(UnknownShard);
      }
      var record := shards[key];
      if record.runtimeEpoch != epoch {
        return Err(StaleEpoch(epoch, record.runtimeEpoch));
      }
      if record.activeInvocations != 0 {
        return Err(InvalidState(record.state));
      }
      match record.state {
        case Hot | WarmIdle => record := record.(state := Lifecycle.WarmIdle);
        case state => return Err(InvalidState(state));
      }
      shards := shards[key := record];
      return Ok(record);
    }

    method RecordTouch(key: ShardKey, epoch: nat, delta: int, now: nat) returns (result: Result<Record>)
      modifies this
      ensures key !in old(shards) ==> result == Err(UnknownShard)
      ensures key in old(shards) ==> result == Touch(old(shards)[key], epoch, delta, now)
      ensures shards == if result.Ok? then old(shards)[key := result.value] else old(shards)
    {
      if key !in shards {
        return Err(UnknownShard);
      }
      var record := shards[key];
      if record.runtimeEpoch != epoch {
        return Err(StaleEpoch(epoch, record.runtimeEpoch));
      }
      if delta >= 0 {
        var room := MAX_U32 - record.activeInvocations;
        record := record.(activeInvocations := if delta < room then record.activeInvocations + delta else MAX_U32);
      } else {
        record := record.(activeInvocations :=
          if -delta < record.activeInvocations then record.activeInvocations + delta else 0);
      }
      record := record.(lastActiveMs := now);
      if record.activeInvocations > 0 && record.state == Lifecycle.WarmIdle {
        record := record.(state := Hot);
      }
      shards := shards[key := record];
      return Ok(record);
    }

    /** The action of a sweep on one key, re-reading the record as the host operations do. */
    method SweepKey(key: ShardKey, epoch: nat, action: SweepAction, vmOk: bool)
      requires key in shards && shards[key].runtimeEpoch == epoch
      modifies this
      ensures shards.Keys == old(shards.Keys)
      ensures forall other | other in shards && other != key :: shards[other] == old(shards)[other]
      ensures forall now :: action == SweepActionOf(old(shards)[key], now) ==>
                shards[key] == SweptRecord(old(shards)[key], now, vmOk)
    {
      match action {
        case Leave =>
        case Idle =>
          var marked := WarmIdle(key, epoch);
        case Snapshot =>
          var forGood := !shards[key].policy.snapshotEnabled;
          var begin := BeginHibernate(key, epoch);
          if begin.RunVm? && vmOk {
            var ended := EndStop(key, forGood);
          }
        case Destroy =>
          var begin := BeginTerminate(key, epoch);
          if begin.RunVm? && vmOk {
            var ended := EndStop(key, true);
          }
      }
    }

    /** The actions a sweep is to carry out, read off all records in one locked section. */
    method ReadActions(now: nat, order: seq<ShardKey>) returns (actions: seq<(ShardKey, nat, SweepAction)>)
      requires forall key | key in order :: key in shards
      ensures |actions| == |order|
      ensures forall j | 0 <= j < |order| ::
                actions[j] == (order[j], shards[order[j]].runtimeEpoch, SweepActionOf(shards[order[j]], now))
    {
      actions := [];
      for i := 0 to |order|
        invariant |actions| == i
        invariant forall j | 0 <= j < i ::
            actions[j] == (order[j], shards[order[j]].runtimeEpoch, SweepActionOf(shards[order[j]], now))
      {
        var record := shards[order[i]];
        actions := actions + [(order[i], record.runtimeEpoch, SweepActionOf(record, now))];
      }
    }

    /**
     * One sweep: the actions are read off all records first, then carried out one by one in the order
     * the map happened to yield; the outcome does not depend on that order.
     */
    method SweepOnce(now: nat, order: seq<ShardKey>, vmOk: ShardKey -> bool)
      requires forall key :: key in order <==> key in shards
      requires forall i, j | 0 <= i < j < |order| :: order[i] != order[j]
      modifies this
      ensures shards == Swept(old(shards), now, vmOk)
    {
      ghost var before := shards;
      var actions := ReadActions(now, order);
      for i := 0 to |actions|
        invariant shards.Keys == before.Keys
        invariant forall j | 0 <= j < i :: shards[order[j]] == SweptRecord(before[order[j]], now, vmOk(order[j]))
        invariant forall j | i <= j < |order| :: shards[order[j]] == before[order[j]]
      {
        SweepKey(actions[i].0, actions[i].1, actions[i].2, vmOk(actions[i].0));
      }
      AllSwept(before, shards, order, now, vmOk);
    }
  }
}
