/** Repeating an acquire while the lease is live. */
module LeaseIdempotence {
  import opened Options
  import opened LeaseCodec
  import opened DurableStore
  import opened LeaseActor
  import opened LeaseProtocol
  import opened LeaseInvariant

  /** Actor `id` is running with a live lease. */
  predicate HoldsLive(s: System, id: nat) {
    id in s.actors && s.actors[id].Running? && Live(s.actors[id].state.lease, s.now)
  }

  predicate LiveThroughout(cfg: Config, s: System, events: seq<Event>, id: nat)
    decreases |events|
  {
    HoldsLive(s, id) && (events == [] || LiveThroughout(cfg, Next(cfg, s, events[0]), events[1..], id))
  }

  /** The part of a running actor's state that a live lease pins down. */
  datatype Tenure = Tenure(key: Key, token: Token, holder: Option<Binary>, requestId: Option<Binary>, inherited: bool)

  function TenureOf(s: System, id: nat): Tenure
    requires HoldsLive(s, id)
  {
    var a := s.actors[id];
    Tenure(a.key, Token(a.state.runtimeEpoch, a.state.ownerEpoch, a.state.lease.sequence),
           a.state.lease.holder, a.state.lease.requestId, a.state.inherited)
  }

  lemma CallKeepsTenure(cfg: Config, s: System, caller: nat, request: Request, lag: Lag, id: nat)
    requires Inv(cfg, s) && HoldsLive(s, id)
    ensures var s' := DoCall(cfg, s, caller, request, lag);
            HoldsLive(s', id) && TenureOf(s', id) == TenureOf(s, id)
  {
    if Ready(s, caller) {
      OutcomeRespects(cfg, s, caller, request, lag);
    }
  }

  lemma ReplyKeepsTenure(cfg: Config, s: System, sender: nat, id: nat)
    requires Inv(cfg, s) && HoldsLive(s, id) && HoldsLive(DoReply(s, sender), id)
    ensures TenureOf(DoReply(s, sender), id) == TenureOf(s, id)
  {
    assert ActorOk(cfg, s, id);
    if Unanswered(s, sender) && sender == id {
      assert MessageOk(cfg, s, s.actors[id].waiting.value);
    }
  }

  /** Only its own calls and answers move the state of a running actor. */
  lemma OtherStepKeepsState(cfg: Config, s: System, e: Event, id: nat)
    requires id in s.actors && s.actors[id].Running? && id in Next(cfg, s, e).actors && !e.Call? && !e.Reply?
    ensures var a := Next(cfg, s, e).actors[id];
            a.Running? && a.state == s.actors[id].state && a.key == s.actors[id].key
  {
  }

  /** As long as the lease stays live, no step moves its token, holder, request id or origin. */
  lemma StepKeepsTenure(cfg: Config, s: System, e: Event, id: nat)
    requires Inv(cfg, s) && HoldsLive(s, id) && HoldsLive(Next(cfg, s, e), id)
    ensures TenureOf(Next(cfg, s, e), id) == TenureOf(s, id)
  {
    match e
    case Call(caller, request, lag) => CallKeepsTenure(cfg, s, caller, request, lag, id);
    case Reply(sender) => ReplyKeepsTenure(cfg, s, sender, id);
    case _ => OtherStepKeepsState(cfg, s, e, id);
  }

  lemma {:induction false} TenureLasts(cfg: Config, s: System, events: seq<Event>, id: nat)
    requires Inv(cfg, s) && LiveThroughout(cfg, s, events, id)
    ensures Inv(cfg, Run(cfg, s, events))
    ensures HoldsLive(Run(cfg, s, events), id) && TenureOf(Run(cfg, s, events), id) == TenureOf(s, id)
    decreases |events|
  {
    if events != [] {
      NextKeeps(cfg, s, events[0]);
      StepKeepsTenure(cfg, s, events[0], id);
      TenureLasts(cfg, Next(cfg, s, events[0]), events[1..], id);
    }
  }

  /**
   * Idempotent acquire: however many renewals, rival requests and other actors' steps lie between, as
   * long as the actor's own lease has stayed live, acquiring again with the same holder and request
   * id returns the original token with the lease's current expiry, sends nothing to the store and
   * leaves the cached lease as it is.
   */
  lemma AcquireIsIdempotent(cfg: Config, s: System, events: seq<Event>, id: nat, leaseMs: int, lag: Lag)
    requires Inv(cfg, s) && LiveThroughout(cfg, s, events, id) && Ready(Run(cfg, s, events), id)
    requires !s.actors[id].state.inherited && s.actors[id].state.lease.requestId.Some?
    requires ValidLeaseMs(leaseMs, cfg.maxLeaseMs)
    ensures var s' := Run(cfg, s, events);
            var state := s.actors[id].state;
            var again := Acquire(state.lease.holder.value, state.lease.requestId, leaseMs);
            && OutcomeOf(cfg, s', id, again, lag)
               == Answer(Granted(TenureOf(s, id).token, s'.actors[id].state.lease.expiresAt), s'.actors[id].state)
            && DoCall(cfg, s', id, again, lag).store == s'.store
            && DoCall(cfg, s', id, again, lag).wire == s'.wire
            && DoCall(cfg, s', id, again, lag).actors == s'.actors
  {
    TenureLasts(cfg, s, events, id);
    assert ActorOk(cfg, Run(cfg, s, events), id);
    AcquireDecision(Run(cfg, s, events).actors[id].state, s.actors[id].state.lease.holder.value,
                    s.actors[id].state.lease.requestId, leaseMs, cfg.maxLeaseMs,
                    ReadingsAt(Run(cfg, s, events).now, lag));
  }
}
