/** What is observed to be loaded, and the deployments a shard may be invoked with. */
module HostActivation {
  import opened Options
  import opened RuntimeHost
  import opened HostInterleaving
  import opened HostDiscipline

  /** Some handler has written the record and is about to clear what was observed. */
  ghost predicate BeingCleared(s: System, key: ShardKey) {
    exists id :: id in s.tasks && s.tasks[id].pc.Clearing? && s.tasks[id].key == key
  }

  /** An entry names the shard's current epoch and has its placement and its root loaded. */
  predicate EntryOk(s: System, key: ShardKey, epoch: nat)
    requires (key, epoch) in s.observed
  {
    var entry := s.observed[(key, epoch)];
    && key in s.shards
    && s.shards[key].runtimeEpoch == epoch
    && Normalize(s.shards[key].deploymentDigest).Some?
    && Normalize(s.shards[key].deploymentDigest).value in entry.loaded
    && entry.root in entry.loaded
  }

  ghost predicate Tied(s: System) {
    forall key, epoch | (key, epoch) in s.observed :: EntryOk(s, key, epoch) || BeingCleared(s, key)
  }

  /** A step that leaves observations alone, clears nothing, and keeps each record's epoch and normalised digest. */
  lemma UntouchedStaysTied(s: System, s': System)
    requires Tied(s)
    requires s'.observed == s.observed
    requires forall key | key in s.shards ::
               && key in s'.shards
               && s'.shards[key].runtimeEpoch == s.shards[key].runtimeEpoch
               && s'.shards[key].deploymentDigest == s.shards[key].deploymentDigest
    requires forall id | id in s.tasks && s.tasks[id].pc.Clearing? :: id in s'.tasks && s'.tasks[id] == s.tasks[id]
    ensures Tied(s')
  {
    forall key, epoch | (key, epoch) in s'.observed ensures EntryOk(s', key, epoch) || BeingCleared(s', key) {
      assert EntryOk(s, key, epoch) || BeingCleared(s, key);
    }
  }

  /** Placement changes either keep the normalised digest in the same epoch or are followed by clearing. */
  lemma EnsureFollowsUp(s: System, req: EnsureRequest)
    ensures var acted := ActEnsure(s, req);
            && (forall key | key in s.shards && key != req.key ::
                  key in acted.shards && acted.shards[key] == s.shards[key])
            && (req.key in s.shards ==> req.key in acted.shards)
            && (acted.pc != Some(Clearing) && req.key in s.shards ==>
                && acted.shards[req.key].runtimeEpoch == s.shards[req.key].runtimeEpoch
                && Normalize(acted.shards[req.key].deploymentDigest) == Normalize(s.shards[req.key].deploymentDigest))
            && (acted.pc != Some(Clearing) && req.key !in s.shards ==> acted.shards == s.shards)
  {
  }

  lemma OtherActsKeepPlacement(s: System, t: Task, key: ShardKey)
    requires !t.op.EnsureOp? && key in s.shards
    ensures var acted := ActOn(s, t);
            && key in acted.shards
            && acted.shards[key].runtimeEpoch == s.shards[key].runtimeEpoch
            && acted.shards[key].deploymentDigest == s.shards[key].deploymentDigest
  {
  }

  lemma ActKeepsTied(cfg: Config, s: System, id: nat)
    requires Inv(cfg, s) && Tied(s)
    ensures Tied(DoAct(s, id))
  {
    if id in s.tasks && s.tasks[id].pc.Gated? {
      var t := s.tasks[id];
      var s' := DoAct(s, id);
      assert TaskOk(s, t);
      forall key, epoch | (key, epoch) in s'.observed ensures EntryOk(s', key, epoch) || BeingCleared(s', key) {
        assert EntryOk(s, key, epoch) || BeingCleared(s, key);
        if BeingCleared(s, key) {
          var j :| j in s.tasks && s.tasks[j].pc.Clearing? && s.tasks[j].key == key;
          assert s'.tasks[j] == s.tasks[j];
        } else if t.op.EnsureOp? {
          EnsureFollowsUp(s, t.op.req);
          if ActEnsure(s, t.op.req).pc == Some(Clearing) {
            assert s'.tasks[id].pc.Clearing? && s'.tasks[id].key == t.key;
          }
        } else {
          OtherActsKeepPlacement(s, t, key);
        }
      }
    }
  }

  /** An acknowledged activation records its deployment and the placement as loaded. */
  lemma FinishGuestKeepsTied(cfg: Config, s: System, id: nat, ok: bool)
    requires Inv(cfg, s) && Tied(s)
    ensures Tied(DoFinishGuest(s, id, ok))
  {
    if id in s.tasks && s.tasks[id].pc.InGuest? && s.tasks[id].op.ActivateOp? {
      var t := s.tasks[id];
      var s' := DoFinishGuest(s, id, ok);
      assert TaskOk(s, t);
      assert RecordOk(s.shards[t.key]);
      forall key, epoch | (key, epoch) in s'.observed ensures EntryOk(s', key, epoch) || BeingCleared(s', key) {
        if !(ok && (key, epoch) == (t.key, t.epoch)) {
          assert EntryOk(s, key, epoch) || BeingCleared(s, key);
          if BeingCleared(s, key) {
            var j :| j in s.tasks && s.tasks[j].pc.Clearing? && s.tasks[j].key == key;
            assert s'.tasks[j] == s.tasks[j];
          }
        }
      }
    }
  }

  lemma ClearKeepsTied(s: System, id: nat)
    requires Tied(s)
    ensures Tied(DoClear(s, id))
  {
    if id in s.tasks && s.tasks[id].pc.Clearing? {
      var s' := DoClear(s, id);
      forall key, epoch | (key, epoch) in s'.observed ensures EntryOk(s', key, epoch) || BeingCleared(s', key) {
        assert EntryOk(s, key, epoch) || BeingCleared(s, key);
        if BeingCleared(s, key) {
          var j :| j in s.tasks && s.tasks[j].pc.Clearing? && s.tasks[j].key == key;
          assert s'.tasks[j] == s.tasks[j];
        }
      }
    }
  }

  predicate MovesPlacement(e: Event) {
    e.Act? || e.FinishGuest? || e.Clear?
  }

  /** A step leaves observations, and the record's epoch and digest, alone. */
  predicate KeepsPlacement(s: System, s': System, key: ShardKey)
    requires key in s.shards
  {
    && s'.observed == s.observed
    && key in s'.shards
    && s'.shards[key].runtimeEpoch == s.shards[key].runtimeEpoch
    && s'.shards[key].deploymentDigest == s.shards[key].deploymentDigest
  }

  lemma FinishVmKeepsPlacement(s: System, id: nat, pid: Option<nat>, key: ShardKey)
    requires key in s.shards
    ensures KeepsPlacement(s, DoFinishVm(s, id, pid), key)
  {
  }

  lemma CloseCallKeepsPlacement(s: System, id: nat, key: ShardKey)
    requires key in s.shards
    ensures KeepsPlacement(s, DoCloseCall(s, id), key)
  {
  }

  lemma SweepNextKeepsPlacement(s: System, key: ShardKey)
    requires key in s.shards
    ensures KeepsPlacement(s, DoSweepNext(s), key)
  {
  }

  lemma SweepFinishKeepsPlacement(s: System, ok: bool, key: ShardKey)
    requires key in s.shards
    ensures KeepsPlacement(s, DoSweepFinish(s, ok), key)
  {
  }

  /** Every step but an act, an acknowledged activation and a clearing does so. */
  lemma PlacementStays(cfg: Config, s: System, e: Event, key: ShardKey)
    requires !MovesPlacement(e) && key in s.shards
    ensures KeepsPlacement(s, Next(cfg, s, e), key)
  {
    match e
    case FinishVm(id, pid) => FinishVmKeepsPlacement(s, id, pid, key);
    case CloseCall(id) => CloseCallKeepsPlacement(s, id, key);
    case SweepNext => SweepNextKeepsPlacement(s, key);
    case SweepFinish(ok) => SweepFinishKeepsPlacement(s, ok, key);
    case _ =>
  }

  lemma ClearingStays(cfg: Config, s: System, e: Event, id: nat)
    requires !MovesPlacement(e) && id in s.tasks && s.tasks[id].pc.Clearing?
    ensures id in Next(cfg, s, e).tasks && Next(cfg, s, e).tasks[id] == s.tasks[id]
  {
  }

  lemma ObservedStays(cfg: Config, s: System, e: Event)
    requires !MovesPlacement(e)
    ensures Next(cfg, s, e).observed == s.observed
  {
  }

  lemma OtherStepKeepsTied(cfg: Config, s: System, e: Event)
    requires Tied(s) && !MovesPlacement(e)
    ensures Tied(Next(cfg, s, e))
  {
    ObservedStays(cfg, s, e);
    forall key | key in s.shards
      ensures KeepsPlacement(s, Next(cfg, s, e), key)
    {
      PlacementStays(cfg, s, e, key);
    }
    forall id | id in s.tasks && s.tasks[id].pc.Clearing?
      ensures id in Next(cfg, s, e).tasks && Next(cfg, s, e).tasks[id] == s.tasks[id]
    {
      ClearingStays(cfg, s, e, id);
    }
    UntouchedStaysTied(s, Next(cfg, s, e));
  }

  lemma NextKeepsTied(cfg: Config, s: System, e: Event)
    requires Inv(cfg, s) && Tied(s)
    ensures Tied(Next(cfg, s, e))
  {
    match e
    case Act(id) => ActKeepsTied(cfg, s, id);
    case FinishGuest(id, ok) => FinishGuestKeepsTied(cfg, s, id, ok);
    case Clear(id) => ClearKeepsTied(s, id);
    case _ => OtherStepKeepsTied(cfg, s, e);
  }

  lemma {:induction false} RunKeepsTied(cfg: Config, s: System, events: seq<Event>)
    requires Inv(cfg, s) && Tied(s)
    ensures Inv(cfg, Run(cfg, s, events)) && Tied(Run(cfg, s, events))
    decreases |events|
  {
    if events != [] {
      NextKeeps(cfg, s, events[0]);
      NextKeepsTied(cfg, s, events[0]);
      RunKeepsTied(cfg, Next(cfg, s, events[0]), events[1..]);
    }
  }

  /**
   * Observed activation stays tied to placement: over every run, whenever nobody holds the gate of a
   * shard, each of its entries names the current epoch and has placement and root loaded.
   */
  lemma ObservedMatchesPlacement(cfg: Config, events: seq<Event>, key: ShardKey, epoch: nat)
    requires (key, epoch) in Run(cfg, INITIAL, events).observed
    requires GateFree(cfg, Run(cfg, INITIAL, events), key)
    ensures EntryOk(Run(cfg, INITIAL, events), key, epoch)
  {
    InitialHolds(cfg);
    RunKeepsTied(cfg, INITIAL, events);
  }

  lemma OtherTaskStepsKeepAllowed(s: System, s': System, key: ShardKey)
    requires key in s.shards && key in s'.shards
    requires s'.observed == s.observed
    requires s'.shards[key].runtimeEpoch == s.shards[key].runtimeEpoch
    requires Normalize(s'.shards[key].deploymentDigest) == Normalize(s.shards[key].deploymentDigest)
    ensures Allowed(s', key) == Allowed(s, key)
  {
  }

  /** A live shard's placement moves only within its normalised digest. */
  lemma ActKeepsLivePlacement(cfg: Config, s: System, id: nat, key: ShardKey)
    requires Inv(cfg, s) && key in s.shards && !s.shards[key].state.Cold? && !s.shards[key].state.Terminated?
    ensures var s' := DoAct(s, id);
            && key in s'.shards && s'.observed == s.observed
            && s'.shards[key].runtimeEpoch == s.shards[key].runtimeEpoch
            && Normalize(s'.shards[key].deploymentDigest) == Normalize(s.shards[key].deploymentDigest)
  {
    if id in s.tasks && s.tasks[id].pc.Gated? {
      if s.tasks[id].op.EnsureOp? {
        EnsureFollowsUp(s, s.tasks[id].op.req);
      } else {
        OtherActsKeepPlacement(s, s.tasks[id], key);
      }
    }
  }

  lemma FinishGuestGrowsAllowed(cfg: Config, s: System, id: nat, ok: bool, key: ShardKey)
    requires Inv(cfg, s) && key in s.shards
    ensures Allowed(s, key) <= Allowed(DoFinishGuest(s, id, ok), key)
  {
    if id in s.tasks && s.tasks[id].pc.InGuest? {
      assert TaskOk(s, s.tasks[id]);
    }
  }

  lemma ClearSparesLive(cfg: Config, s: System, id: nat, key: ShardKey)
    requires Inv(cfg, s) && key in s.shards && !s.shards[key].state.Cold? && !s.shards[key].state.Terminated?
    ensures Allowed(DoClear(s, id), key) == Allowed(s, key)
  {
    if id in s.tasks && s.tasks[id].pc.Clearing? {
      assert TaskOk(s, s.tasks[id]);
    }
  }

  lemma OtherStepKeepsAllowed(cfg: Config, s: System, e: Event, key: ShardKey)
    requires key in s.shards && !MovesPlacement(e)
    ensures key in Next(cfg, s, e).shards
    ensures Next(cfg, s, e).shards[key].runtimeEpoch == s.shards[key].runtimeEpoch
    ensures Allowed(Next(cfg, s, e), key) == Allowed(s, key)
  {
    PlacementStays(cfg, s, e, key);
    OtherTaskStepsKeepAllowed(s, Next(cfg, s, e), key);
  }

  /**
   * While a shard is neither Cold nor Terminated, no step takes a deployment away from those it may be
   * invoked with; its epoch cannot change meanwhile.
   */
  lemma AllowedOnlyGrows(cfg: Config, s: System, e: Event, key: ShardKey)
    requires Inv(cfg, s) && key in s.shards && !s.shards[key].state.Cold? && !s.shards[key].state.Terminated?
    ensures key in Next(cfg, s, e).shards
    ensures Next(cfg, s, e).shards[key].runtimeEpoch == s.shards[key].runtimeEpoch
    ensures Allowed(s, key) <= Allowed(Next(cfg, s, e), key)
  {
    match e
    case Act(id) =>
      ActKeepsLivePlacement(cfg, s, id, key);
      OtherTaskStepsKeepAllowed(s, DoAct(s, id), key);
    case FinishGuest(id, ok) => FinishGuestGrowsAllowed(cfg, s, id, ok, key);
    case Clear(id) => ClearSparesLive(cfg, s, id, key);
    case _ => OtherStepKeepsAllowed(cfg, s, e, key);
  }

  /** Along the run the shard is neither Cold nor Terminated. */
  predicate StaysUp(cfg: Config, s: System, events: seq<Event>, key: ShardKey)
    decreases |events|
  {
    && key in s.shards && !s.shards[key].state.Cold? && !s.shards[key].state.Terminated?
    && (events == [] || StaysUp(cfg, Next(cfg, s, events[0]), events[1..], key))
  }

  /**
   * For as long as a shard is up, whatever it may once be invoked with it may be invoked with to the end,
   * and it stays in one epoch.
   */
  lemma {:induction false} AllowedGrowsOverRuns(cfg: Config, s: System, events: seq<Event>, key: ShardKey)
    requires Inv(cfg, s) && StaysUp(cfg, s, events, key)
    ensures var s' := Run(cfg, s, events);
            && key in s'.shards && s'.shards[key].runtimeEpoch == s.shards[key].runtimeEpoch
            && Allowed(s, key) <= Allowed(s', key)
    decreases |events|
  {
    if events != [] {
      AllowedOnlyGrows(cfg, s, events[0], key);
      NextKeeps(cfg, s, events[0]);
      AllowedGrowsOverRuns(cfg, Next(cfg, s, events[0]), events[1..], key);
    }
  }
}
