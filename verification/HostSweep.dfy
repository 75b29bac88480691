/** How repeated sweeps move an idle shard towards termination. */
module HostSweep {
  import opened Options
  import opened RuntimeHost

  /** The idle ladder; states off the ladder have no stage. */
  function Stage(state: Lifecycle): int {
    match state
    case Hot => 0
    case WarmIdle => 1
    case Hibernated => 2
    case Terminated => 3
    case _ => -1
  }

  /** How far up the ladder a shard's idle time entitles it. */
  function Entitled(r: Record, now: nat): nat {
    var idle := if r.lastActiveMs <= now then now - r.lastActiveMs else 0;
    if idle < r.policy.warmIdleMs then 0
    else if idle < r.policy.hibernateAfterMs then 1
    else if idle < r.policy.destroyAfterMs then 2
    else 3
  }

  function Min(a: int, b: int): int { if a < b then a else b }

  function Max(a: int, b: int): int { if a < b then b else a }

  /** Sweeping a record at each of the given times, every VM operation succeeding. */
  function SweptAt(r: Record, times: seq<nat>): Record
    decreases |times|
  {
    if times == [] then r else SweptAt(SweptRecord(r, times[0], true), times[1..])
  }

  predicate Quiet(r: Record) {
    ValidPolicy(r.policy) && r.policy.snapshotEnabled && r.activeInvocations == 0 && 0 <= Stage(r.state)
  }

  /** A sweep climbs exactly one stage when the idle time entitles the shard to more, and else leaves it alone. */
  lemma OneSweepClimbsOneStage(r: Record, now: nat)
    requires Quiet(r)
    ensures var r' := SweptRecord(r, now, true);
            && Quiet(r') && r'.policy == r.policy && r'.lastActiveMs == r.lastActiveMs
            && r'.runtimeEpoch == r.runtimeEpoch
            && Stage(r'.state) == (if Stage(r.state) < Entitled(r, now) then Stage(r.state) + 1 else Stage(r.state))
            && (Stage(r.state) >= Entitled(r, now) ==> r' == r)
  {
  }

  lemma EntitledGrows(r: Record, before: nat, after: nat)
    requires ValidPolicy(r.policy) && before <= after
    ensures Entitled(r, before) <= Entitled(r, after)
  {
  }

  /**
   * Convergence: n sweeps at nondecreasing times bring a quiet shard n stages up, but never past what
   * its idle time entitles it to at the last sweep, and at least to what it did at the first.
   */
  lemma {:induction false} SweepsConverge(r: Record, times: seq<nat>)
    requires Quiet(r) && times != []
    requires forall i, j | 0 <= i < j < |times| :: times[i] <= times[j]
    ensures var n := |times|;
            var reached := Stage(SweptAt(r, times).state);
            && Max(Stage(r.state), Min(Stage(r.state) + n, Entitled(r, times[0]))) <= reached
            && reached <= Max(Stage(r.state), Min(Stage(r.state) + n, Entitled(r, times[n - 1])))
    decreases |times|
  {
    var r1 := SweptRecord(r, times[0], true);
    OneSweepClimbsOneStage(r, times[0]);
    EntitledGrows(r, times[0], times[|times| - 1]);
    if |times| == 1 {
      assert SweptAt(r, times) == r1;
    } else {
      assert times[1..][|times| - 2] == times[|times| - 1];
      EntitledGrows(r, times[0], times[1]);
      SweepsConverge(r1, times[1..]);
    }
  }

  /**
   * Three sweeps of the whole map terminate every quiet shard that has been idle long enough, and no sweep
   * fewer would.
   */
  lemma ThreeSweepsTerminate(shards: map<ShardKey, Record>, key: ShardKey, t1: nat, t2: nat, t3: nat)
    requires key in shards && Quiet(shards[key]) && t1 <= t2 <= t3
    requires shards[key].lastActiveMs + shards[key].policy.destroyAfterMs <= t1
    ensures var ok := (k: ShardKey) => true;
            && Swept(Swept(Swept(shards, t1, ok), t2, ok), t3, ok)[key].state == Terminated
            && (shards[key].state.Hot? ==> Swept(Swept(shards, t1, ok), t2, ok)[key].state == Hibernated)
  {
    var r := shards[key];
    OneSweepClimbsOneStage(r, t1);
    var r1 := SweptRecord(r, t1, true);
    OneSweepClimbsOneStage(r1, t2);
    OneSweepClimbsOneStage(SweptRecord(r1, t2, true), t3);
  }

  /** Whatever the VM does and whether or not snapshots are on, a sweep spares the busy and the recently active. */
  lemma SweepSparesTheActive(r: Record, now: nat, vmOk: bool)
    requires ValidPolicy(r.policy)
    requires r.activeInvocations != 0 || now < r.lastActiveMs + r.policy.warmIdleMs
    ensures SweptRecord(r, now, vmOk) == r
  {
  }

  /** A shard that was just started, or touched, is spared for at least its warm-idle time. */
  lemma ActivityDefersSweeps(r: Record, handles: Handles, epoch: nat, delta: int, now: nat, sweep: nat, vmOk: bool)
    requires ValidPolicy(r.policy) && sweep < now + r.policy.warmIdleMs
    ensures var started := StartEnd(r, Some(handles), now);
            started.state.Hot? && SweptRecord(started, sweep, vmOk) == started
    ensures var touched := Touch(r, epoch, delta, now);
            touched.Ok? ==> SweptRecord(touched.value, sweep, vmOk) == touched.value
  {
  }
}
