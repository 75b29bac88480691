/** What holds over the runs in which every commit that lands is answered, however late. */
module LeaseCoherence {
  import opened DurableStore
  import opened LeaseActor
  import opened LeaseProtocol
  import opened LeaseInvariant

  /** A landed commit finds its sender waiting, which then waits for the answer or dies. */
  predicate AnsweredStep(cfg: Config, s: System, e: Event) {
    && (e.Deliver? && Lands(cfg, s, e.message) ==> Awaited(s, e.message))
    && (e.GiveUp? ==> !Unanswered(s, e.id))
  }

  predicate AnsweredRun(cfg: Config, s: System, events: seq<Event>)
    decreases |events|
  {
    events == [] || (AnsweredStep(cfg, s, events[0]) && AnsweredRun(cfg, Next(cfg, s, events[0]), events[1..]))
  }

  predicate IsOwner(cfg: Config, s: System, id: nat) {
    && id in s.actors && !s.actors[id].Claiming?
    && EpochOf(s.actors[id]) == OwnerOf(cfg, s, s.actors[id].key)
  }

  /** The version up to which an actor has written; it learns of the last write with the answer. */
  function WrittenVersion(s: System, id: nat): nat
    requires id in s.actors && !s.actors[id].Claiming?
  {
    s.actors[id].state.version + if Unanswered(s, id) then 1 else 0
  }

  /** The loaded actor whose epoch is current wrote, or loaded, the stored version. */
  ghost predicate OwnerIsUpToDate(cfg: Config, s: System) {
    forall id | IsOwner(cfg, s, id) :: WrittenVersion(s, id) == Version(s.store, s.actors[id].key)
  }

  lemma AnsweredDeliveryKeepsOwner(cfg: Config, s: System, m: Message)
    requires Inv(cfg, s) && OwnerIsUpToDate(cfg, s) && Lands(cfg, s, m) && Awaited(s, m)
    ensures OwnerIsUpToDate(cfg, DoDeliver(cfg, s, m))
  {
    var s' := DoDeliver(cfg, s, m);
    assert ActorOk(cfg, s, m.sender);
    forall id | IsOwner(cfg, s', id) ensures WrittenVersion(s', id) == Version(s'.store, s'.actors[id].key) {
      assert IsOwner(cfg, s, id);
      LandEffect(cfg, s, m, s'.actors[id].key);
    }
  }

  lemma ReplyKeepsOwner(cfg: Config, s: System, id: nat)
    requires Inv(cfg, s) && OwnerIsUpToDate(cfg, s)
    ensures OwnerIsUpToDate(cfg, DoReply(s, id))
  {
    if Unanswered(s, id) {
      assert ActorOk(cfg, s, id);
      var s' := DoReply(s, id);
      forall j | IsOwner(cfg, s', j) ensures WrittenVersion(s', j) == Version(s'.store, s'.actors[j].key) {
        assert IsOwner(cfg, s, j);
      }
    }
  }

  lemma ClaimKeepsOwner(cfg: Config, s: System, id: nat, key: Key, runtimeEpoch: nat, answered: bool)
    requires Inv(cfg, s) && OwnerIsUpToDate(cfg, s)
    ensures OwnerIsUpToDate(cfg, DoClaim(cfg, s, id, key, runtimeEpoch, answered))
  {
    var s' := DoClaim(cfg, s, id, key, runtimeEpoch, answered);
    forall j | IsOwner(cfg, s', j) ensures WrittenVersion(s', j) == Version(s'.store, s'.actors[j].key) {
      assert ActorOk(cfg, s, j) && IsOwner(cfg, s, j);
    }
  }

  lemma ResolvedKeepsOwner(cfg: Config, s: System, id: nat, request: Request, lag: Lag, outcome: Outcome)
    requires OwnerIsUpToDate(cfg, s) && Ready(s, id) && Respects(s.actors[id].state, outcome, s.now)
    ensures OwnerIsUpToDate(cfg, Resolved(s, id, request, lag, outcome))
  {
  }

  lemma CallKeepsOwner(cfg: Config, s: System, id: nat, request: Request, lag: Lag)
    requires Inv(cfg, s) && OwnerIsUpToDate(cfg, s)
    ensures OwnerIsUpToDate(cfg, DoCall(cfg, s, id, request, lag))
  {
    if Ready(s, id) {
      OutcomeRespects(cfg, s, id, request, lag);
      ResolvedKeepsOwner(cfg, s, id, request, lag, OutcomeOf(cfg, s, id, request, lag));
    }
  }

  /** A step that moves no row, and each actor only to a state that wrote or loaded as much. */
  lemma QuietStepKeepsOwner(cfg: Config, s: System, s': System)
    requires OwnerIsUpToDate(cfg, s) && s'.store == s.store
    requires forall id | id in s'.actors && !s'.actors[id].Claiming? ::
               && id in s.actors && s'.actors[id].key == s.actors[id].key
               && EpochOf(s'.actors[id]) == EpochOf(s.actors[id])
               && if s.actors[id].Claiming? then WrittenVersion(s', id) == Version(s.store, s.actors[id].key)
                  else WrittenVersion(s', id) == WrittenVersion(s, id)
    ensures OwnerIsUpToDate(cfg, s')
  {
    forall id | IsOwner(cfg, s', id) ensures WrittenVersion(s', id) == Version(s'.store, s'.actors[id].key) {
      assert !s.actors[id].Claiming? ==> IsOwner(cfg, s, id);
    }
  }

  lemma LoadKeepsOwner(cfg: Config, s: System, id: nat)
    requires OwnerIsUpToDate(cfg, s)
    ensures OwnerIsUpToDate(cfg, DoLoad(s, id))
  {
    QuietStepKeepsOwner(cfg, s, DoLoad(s, id));
  }

  lemma StartKeepsOwner(cfg: Config, s: System, id: nat)
    requires OwnerIsUpToDate(cfg, s)
    ensures OwnerIsUpToDate(cfg, DoStart(s, id))
  {
    QuietStepKeepsOwner(cfg, s, DoStart(s, id));
  }

  lemma GiveUpKeepsOwner(cfg: Config, s: System, id: nat)
    requires OwnerIsUpToDate(cfg, s) && !Unanswered(s, id)
    ensures OwnerIsUpToDate(cfg, DoGiveUp(s, id))
  {
    QuietStepKeepsOwner(cfg, s, DoGiveUp(s, id));
  }

  lemma NextKeepsOwner(cfg: Config, s: System, e: Event)
    requires Inv(cfg, s) && OwnerIsUpToDate(cfg, s) && AnsweredStep(cfg, s, e)
    ensures OwnerIsUpToDate(cfg, Next(cfg, s, e))
  {
    match e
    case Deliver(m) =>
      if Lands(cfg, s, m) {
        AnsweredDeliveryKeepsOwner(cfg, s, m);
      }
    case Reply(id) => ReplyKeepsOwner(cfg, s, id);
    case Claim(id, key, runtimeEpoch, answered) => ClaimKeepsOwner(cfg, s, id, key, runtimeEpoch, answered);
    case Call(id, request, lag) => CallKeepsOwner(cfg, s, id, request, lag);
    case Tick => QuietStepKeepsOwner(cfg, s, Next(cfg, s, e));
    case Load(id) => LoadKeepsOwner(cfg, s, id);
    case Start(id) => StartKeepsOwner(cfg, s, id);
    case GiveUp(id) => GiveUpKeepsOwner(cfg, s, id);
    case Crash(id) => QuietStepKeepsOwner(cfg, s, Next(cfg, s, e));
  }

  lemma {:induction false} RunKeepsOwner(cfg: Config, s: System, events: seq<Event>)
    requires Inv(cfg, s) && OwnerIsUpToDate(cfg, s) && AnsweredRun(cfg, s, events)
    ensures Inv(cfg, Run(cfg, s, events)) && OwnerIsUpToDate(cfg, Run(cfg, s, events))
    decreases |events|
  {
    if events != [] {
      NextKeeps(cfg, s, events[0]);
      NextKeepsOwner(cfg, s, events[0]);
      RunKeepsOwner(cfg, Next(cfg, s, events[0]), events[1..]);
    }
  }

  /**
   * Cache coherence: when every landing is answered, however late, the actor whose owner epoch is current
   * has the stored version and the stored lease, up to clearing an expired one, although claim and load
   * are separate and other keys may share its scope; while it waits for the answer to a landed commit, the
   * store holds that commit.
   */
  lemma CurrentOwnerIsCoherent(cfg: Config, start: nat, events: seq<Event>, id: nat)
    requires AnsweredRun(cfg, Initial(start), events)
    requires IsOwner(cfg, Run(cfg, Initial(start), events), id)
    ensures var s := Run(cfg, Initial(start), events);
            var a := s.actors[id];
            if Unanswered(s, id) then
              && Version(s.store, a.key) == a.state.version + 1
              && Stored(s.store, a.key) == a.waiting.value.candidate.lease
            else
              && Version(s.store, a.key) == a.state.version
              && SameUpToExpiry(a.state.lease, Stored(s.store, a.key), s.now)
  {
    InitialHolds(cfg, start);
    RunKeepsOwner(cfg, Initial(start), events);
    assert ActorOk(cfg, Run(cfg, Initial(start), events), id);
  }
}
