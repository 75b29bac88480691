/** What each operation of the host makes of a record, case by case. */
module HostOperations {
  import opened Options
  import opened RuntimeHost

  /** 64 digits or letters from a to f. */
  predicate IsDigest(text: string) {
    |text| == 64 && forall i | 0 <= i < 64 :: '0' <= text[i] <= '9' || 'a' <= text[i] <= 'f'
  }

  /** A digest is given bare or behind `sha256:`, and is normalised to its bare form. */
  lemma DigestForms(digest: string, raw: string)
    ensures Normalize(digest) == Some(raw) <==> IsDigest(raw) && (digest == raw || digest == "sha256:" + raw)
  {
    if "sha256:" <= digest {
      assert digest == "sha256:" + digest[7..];
      assert digest[0] == 's';
    }
    if Normalize(digest) == Some(raw) {
      assert |raw| == 64;
      forall i | 0 <= i < 64 ensures '0' <= raw[i] <= '9' || 'a' <= raw[i] <= 'f' {
        assert HexLower(raw[i]);
      }
    }
    if IsDigest(raw) {
      assert raw[0] != 's';
      assert forall i | 0 <= i < |raw| :: HexLower(raw[i]);
      if digest == "sha256:" + raw {
        assert digest[..7] == "sha256:" && digest[7..] == raw;
      }
    }
  }

  /** 1 to 128 letters, digits and characters of `punctuation`. */
  predicate IsName(text: string, punctuation: set<char>) {
    && 0 < |text| <= 128
    && forall i | 0 <= i < |text| ::
         || 'a' <= text[i] <= 'z' || 'A' <= text[i] <= 'Z' || '0' <= text[i] <= '9' || text[i] in punctuation
  }

  predicate IsPlacement(req: EnsureRequest) {
    && req.backend == Firecracker && req.key.executionClass != Faas
    && req.tenantIsolation == "single_tenant_microvm"
  }

  ghost predicate IsWithinPolicy(req: EnsureRequest) {
    && 1 <= req.policy.vcpuCount <= 32 && 64 <= req.policy.memoryMib
    && 0 < req.policy.warmIdleMs < req.policy.hibernateAfterMs < req.policy.destroyAfterMs
    && (exists raw :: IsDigest(raw) && (req.deploymentDigest == raw || req.deploymentDigest == "sha256:" + raw))
    && IsName(req.key.tenantId, {'-', '_'}) && IsName(req.key.shardId, {'-', '_'})
  }

  predicate IsIdentified(req: EnsureRequest) {
    IsName(req.userId, {'.', '-', '_'}) && IsName(req.rootDeploymentId, {'.', '-', '_'})
  }

  /** Which ensure requests are well formed, and what the others are told, first things first. */
  lemma EnsureAdmission(req: EnsureRequest)
    ensures EnsureError(req) ==
            if !IsPlacement(req) then Some(InvalidExecutionTarget)
            else if !IsWithinPolicy(req) then Some(InvalidPolicy)
            else if !IsIdentified(req) then Some(InvalidIdentity)
            else None
  {
    if Normalize(req.deploymentDigest).Some? {
      DigestForms(req.deploymentDigest, Normalize(req.deploymentDigest).value);
    }
    forall raw ensures Normalize(req.deploymentDigest) == Some(raw) <==>
                       IsDigest(raw) && (req.deploymentDigest == raw || req.deploymentDigest == "sha256:" + raw)
    {
      DigestForms(req.deploymentDigest, raw);
    }
  }

  /** What a refused ensure is told. */
  lemma EnsureRefusals(existing: Option<Record>, req: EnsureRequest, now: nat)
    requires EnsureRecord(existing, req, now).Err?
    ensures EnsureRecord(existing, req, now).error ==
            if EnsureError(req).Some? then EnsureError(req).value
            else if req.runtimeEpoch < existing.value.runtimeEpoch then
              StaleEpoch(req.runtimeEpoch, existing.value.runtimeEpoch)
            else if existing.value.runtimeEpoch < req.runtimeEpoch then EpochReplacementConflict
            else IdentityConflict
  {
  }

  /** Of what a start asks: the VM, nothing more, or a refusal. */
  lemma StartDecision(r: Record, epoch: nat)
    ensures var begin := StartBegin(r, epoch);
            if epoch != r.runtimeEpoch then begin == Refused(StaleEpoch(epoch, r.runtimeEpoch))
            else if r.state in {Cold, Hibernated, Terminated} then
              begin == RunVm(r.(state := Starting, failed := false))
            else if r.state in {Hot, Starting} then begin == AlreadyDone
            else begin == Refused(InvalidState(r.state))
  {
  }

  lemma TerminateDecision(r: Record, epoch: nat)
    ensures var begin := TerminateBegin(r, epoch);
            if epoch != r.runtimeEpoch then begin == Refused(StaleEpoch(epoch, r.runtimeEpoch))
            else if r.state == Terminated then begin == AlreadyDone
            else begin == RunVm(r.(state := Draining))
  {
  }

  /** A hibernate spares what is in use or not running, unless it terminates because snapshots are off. */
  lemma HibernateDecision(r: Record, epoch: nat)
    ensures var begin := HibernateBegin(r, epoch);
            if epoch != r.runtimeEpoch then begin == Refused(StaleEpoch(epoch, r.runtimeEpoch))
            else if !r.policy.snapshotEnabled then
              begin == if r.state == Terminated then AlreadyDone else RunVm(r.(state := Draining))
            else if r.activeInvocations == 0 && r.state in {Hot, WarmIdle} then begin == RunVm(r)
            else if r.activeInvocations == 0 && r.state == Hibernated then begin == AlreadyDone
            else begin == Refused(InvalidState(r.state))
  {
  }

  lemma WarmIdleDecision(r: Record, epoch: nat)
    ensures MarkWarmIdle(r, epoch) ==
            if epoch != r.runtimeEpoch then Err(StaleEpoch(epoch, r.runtimeEpoch))
            else if r.activeInvocations == 0 && r.state in {Hot, WarmIdle} then Ok(r.(state := WarmIdle))
            else Err(InvalidState(r.state))
  {
  }

  /** A touch moves the count by the delta as far as 32 bits allow, notes the time, and wakes a warm shard in use. */
  lemma TouchDecision(r: Record, epoch: nat, delta: int, now: nat)
    ensures epoch != r.runtimeEpoch ==> Touch(r, epoch, delta, now) == Err(StaleEpoch(epoch, r.runtimeEpoch))
    ensures epoch == r.runtimeEpoch ==>
              && Touch(r, epoch, delta, now).Ok?
              && var r' := Touch(r, epoch, delta, now).value;
                 && r' == r.(activeInvocations := r'.activeInvocations, lastActiveMs := now, state := r'.state)
                 && (0 <= r.activeInvocations + delta < 0x1_0000_0000 ==>
                     r'.activeInvocations == r.activeInvocations + delta)
                 && (r.activeInvocations + delta < 0 ==> r'.activeInvocations == 0)
                 && (0x1_0000_0000 <= r.activeInvocations + delta ==> r'.activeInvocations == 0xFFFF_FFFF)
                 && (r'.state == if r.state == WarmIdle && r'.activeInvocations != 0 then Hot else r.state)
  {
  }

  /** What the VM operations leave behind. */
  lemma OperationsEnd(r: Record, handles: Handles, now: nat)
    ensures StartEnd(r, Some(handles), now) == r.(state := Hot, handles := Some(handles), lastActiveMs := now)
    ensures StartEnd(r, None, now) == r.(state := Cold, failed := true)
    ensures HibernateEnd(r) == r.(state := Hibernated, handles := None)
    ensures TerminateEnd(r) == r.(state := Terminated, handles := None)
  {
  }

  /** The time since the last activity has reached a threshold. */
  predicate IdleFor(r: Record, now: nat, threshold: nat) {
    threshold == 0 || r.lastActiveMs + threshold <= now
  }

  /**
   * One sweep of any record, snapshots on or off, the VM obliging or not. A shard in use is left alone; one
   * whose time has come moves one stage; if its VM does not stop it stays, or is left draining when it was to
   * be stopped for good.
   */
  lemma SweepDecision(r: Record, now: nat, vmOk: bool)
    ensures var r' := SweptRecord(r, now, vmOk);
            var stopped := r.(state := Terminated, handles := None);
            var draining := r.(state := Draining);
            if r.activeInvocations == 0 && r.state == Hot && IdleFor(r, now, r.policy.warmIdleMs) then
              r' == r.(state := WarmIdle)
            else if r.activeInvocations == 0 && r.state == WarmIdle && IdleFor(r, now, r.policy.hibernateAfterMs) then
              if r.policy.snapshotEnabled then r' == if vmOk then r.(state := Hibernated, handles := None) else r
              else r' == if vmOk then stopped else draining
            else if r.activeInvocations == 0 && r.state == Hibernated && IdleFor(r, now, r.policy.destroyAfterMs) then
              r' == if vmOk then stopped else draining
            else r' == r
  {
  }
}
