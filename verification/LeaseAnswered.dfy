/** Exclusivity with a store that answers every commit, however late. */
module LeaseAnswered {
  import opened DurableStore
  import opened LeaseActor
  import opened LeaseProtocol
  import opened LeaseInvariant
  import opened LeaseCoherence
  import opened LeaseClaims
  import opened LeaseSpeech
  import opened LeaseLanding
  import opened LeaseExclusivity

  /** No renewal lands that leaves its client less time than it was promised. */
  predicate CutsNothing(cfg: Config, s: System, e: Event) {
    e.Deliver? && Lands(cfg, s, e.message) ==> !CutsPromise(s, e.message)
  }

  predicate UncutRun(cfg: Config, s: System, events: seq<Event>)
    decreases |events|
  {
    events == [] || (CutsNothing(cfg, s, events[0]) && UncutRun(cfg, Next(cfg, s, events[0]), events[1..]))
  }

  ghost predicate NoDebts(s: System) {
    forall id :: !Owes(s, id)
  }

  /** A debt is made by a landing alone. */
  lemma QuietStepMakesNoDebt(s: System, s': System, id: nat)
    requires NoDebts(s) && s'.promises == s.promises && s.now <= s'.now
    requires Unanswered(s', id) ==> Unanswered(s, id) && s'.actors[id].waiting == s.actors[id].waiting
    ensures !Owes(s', id)
  {
    assert !Owes(s, id);
  }

  lemma OwnersLandingMakesNoDebt(cfg: Config, s: System, m: Message, id: nat)
    requires NoDebts(s) && Lands(cfg, s, m) && !m.request.Acquire? && !CutsPromise(s, m)
    ensures !Owes(DoDeliver(cfg, s, m), id)
  {
    assert !Owes(s, id);
  }

  lemma DeliverMakesNoDebt(cfg: Config, s: System, m: Message, id: nat)
    requires Inv(cfg, s) && NoDebts(s) && CutsNothing(cfg, s, Deliver(m))
    ensures !Owes(DoDeliver(cfg, s, m), id)
  {
    if Lands(cfg, s, m) && !m.request.Acquire? {
      OwnersLandingMakesNoDebt(cfg, s, m, id);
    } else if Lands(cfg, s, m) && Owes(DoDeliver(cfg, s, m), id) {
      AcquireDebts(cfg, s, m, id);
    }
  }

  lemma ReplyMakesNoDebt(cfg: Config, s: System, sender: nat, id: nat)
    requires Inv(cfg, s) && AllBacked(s) && NoDebts(s)
    ensures !Owes(DoReply(s, sender), id)
  {
    if Unanswered(s, sender) && id == sender {
      ReplyOwnVoice(cfg, s, id);
    } else if Unanswered(s, sender) && Owes(DoReply(s, sender), id) {
      ReplyOtherDebt(cfg, s, sender, id);
    }
  }

  lemma AnswerMakesNoDebt(cfg: Config, s: System, sender: nat, reply: Reply, state: State, id: nat)
    requires Inv(cfg, s) && AllBacked(s) && NoDebts(s) && Ready(s, sender)
    requires Respects(s.actors[sender].state, Answer(reply, state), s.now)
    ensures !Owes(Answered(s, sender, reply, state), id)
  {
    if reply.Granted? {
      assert state == s.actors[sender].state;
      assert s.actors[sender := s.actors[sender].(state := state)] == s.actors;
      TellVoice(cfg, s, sender, id);
    } else {
      QuietStepMakesNoDebt(s, Answered(s, sender, reply, state), id);
    }
  }

  lemma CallMakesNoDebt(cfg: Config, s: System, sender: nat, request: Request, lag: Lag, id: nat)
    requires Inv(cfg, s) && AllBacked(s) && NoDebts(s)
    ensures !Owes(DoCall(cfg, s, sender, request, lag), id)
  {
    if Ready(s, sender) {
      OutcomeRespects(cfg, s, sender, request, lag);
      match OutcomeOf(cfg, s, sender, request, lag)
      case Answer(reply, state) => AnswerMakesNoDebt(cfg, s, sender, reply, state, id);
      case Persist(candidate) =>
        QuietStepMakesNoDebt(s, Sent(s, sender, MessageOf(s, sender, request, lag, candidate)), id);
    }
  }

  lemma OtherStepMakesNoDebt(cfg: Config, s: System, e: Event, id: nat)
    requires NoDebts(s) && !e.Reply? && !e.Deliver? && !e.Call?
    ensures !Owes(Next(cfg, s, e), id)
  {
    QuietStepMakesNoDebt(s, Next(cfg, s, e), id);
  }

  lemma StepMakesNoDebt(cfg: Config, s: System, e: Event, id: nat)
    requires Inv(cfg, s) && AllBacked(s) && NoDebts(s) && CutsNothing(cfg, s, e)
    ensures !Owes(Next(cfg, s, e), id)
  {
    match e
    case Reply(sender) => ReplyMakesNoDebt(cfg, s, sender, id);
    case Deliver(m) => DeliverMakesNoDebt(cfg, s, m, id);
    case Call(sender, request, lag) => CallMakesNoDebt(cfg, s, sender, request, lag, id);
    case _ => OtherStepMakesNoDebt(cfg, s, e, id);
  }

  lemma AnsweredStepIsHarmless(cfg: Config, s: System, e: Event)
    requires NoDebts(s) && AnsweredStep(cfg, s, e)
    ensures HarmlessStep(cfg, s, e)
  {
    assert e.GiveUp? || e.Crash? ==> !Owes(s, e.id);
  }

  lemma {:induction false} AnsweredRunIsHarmless(cfg: Config, s: System, events: seq<Event>)
    requires Inv(cfg, s) && AllBacked(s) && NoDebts(s)
    requires AnsweredRun(cfg, s, events) && UncutRun(cfg, s, events)
    ensures HarmlessRun(cfg, s, events)
    decreases |events|
  {
    if events != [] {
      var s1 := Next(cfg, s, events[0]);
      AnsweredStepIsHarmless(cfg, s, events[0]);
      NextKeeps(cfg, s, events[0]);
      NextBacks(cfg, s, events[0]);
      forall id ensures !Owes(s1, id) {
        StepMakesNoDebt(cfg, s, events[0], id);
      }
      AnsweredRunIsHarmless(cfg, s1, events[1..]);
    }
  }

  /**
   * With a store that answers every commit, however late and in whatever order, and no renewal to less time
   * than promised, the section is exclusive.
   */
  lemma AnsweredRunsAreExclusive(cfg: Config, start: nat, events: seq<Event>)
    requires AnsweredRun(cfg, Initial(start), events) && UncutRun(cfg, Initial(start), events)
    ensures Exclusive(Run(cfg, Initial(start), events))
  {
    InitialHolds(cfg, start);
    InitialIsBacked(start);
    AnsweredRunIsHarmless(cfg, Initial(start), events);
    LeaseExclusivity.LeaseExclusivity(cfg, start, events);
  }

  /** Every acquire and every renewal asks for the same time. */
  predicate SteadyStep(e: Event, leaseMs: nat) {
    e.Call? && (e.request.Acquire? || e.request.Renew?) ==> e.request.leaseMs == leaseMs
  }

  predicate SteadyRun(events: seq<Event>, leaseMs: nat) {
    forall i | 0 <= i < |events| :: SteadyStep(events[i], leaseMs)
  }

  /** A message asks for no less time than any lease had left when its call began. */
  predicate SteadyMessage(s: System, m: Message, leaseMs: nat) {
    && (!m.request.Release? ==> m.candidate.lease.expiresAt == m.sentAt + leaseMs)
    && (m.request.Release? ==> m.candidate.lease.expiresAt == 0)
    && (m.candidate.version == Version(s.store, m.key) ==> Stored(s.store, m.key).expiresAt <= m.checkedAt + leaseMs)
  }

  ghost predicate Steady(s: System, leaseMs: nat) {
    && (forall key :: Stored(s.store, key).expiresAt <= s.now + leaseMs)
    && (forall m | m in s.wire :: SteadyMessage(s, m, leaseMs))
  }

  lemma LandingKeepsSteady(cfg: Config, s: System, m: Message, leaseMs: nat)
    requires Inv(cfg, s) && Steady(s, leaseMs) && Lands(cfg, s, m)
    ensures Steady(DoDeliver(cfg, s, m), leaseMs)
  {
    var s' := DoDeliver(cfg, s, m);
    assert SteadyMessage(s, m, leaseMs);
    forall key ensures Stored(s'.store, key).expiresAt <= s'.now + leaseMs {
      LandEffect(cfg, s, m, key);
      assert key != m.key ==> Stored(s'.store, key) == Stored(s.store, key);
      assert key == m.key ==> Stored(s'.store, key) == m.candidate.lease;
    }
    forall other | other in s'.wire ensures SteadyMessage(s', other, leaseMs) {
      LandEffect(cfg, s, m, other.key);
      assert MessageOk(cfg, s, other);
    }
  }

  lemma CallKeepsSteady(cfg: Config, s: System, id: nat, request: Request, lag: Lag, leaseMs: nat)
    requires Inv(cfg, s) && Steady(s, leaseMs) && SteadyStep(Call(id, request, lag), leaseMs)
    ensures Steady(DoCall(cfg, s, id, request, lag), leaseMs)
  {
    if Ready(s, id) && OutcomeOf(cfg, s, id, request, lag).Persist? {
      var m := MessageOf(s, id, request, lag, OutcomeOf(cfg, s, id, request, lag).candidate);
      SteadyCandidate(s.actors[id].state, request, cfg.maxLeaseMs, ReadingsAt(s.now, lag), leaseMs);
      SendKeepsSteady(s, id, m, leaseMs);
    }
  }

  lemma SteadyCandidate(state: State, request: Request, maxLeaseMs: int, at: Readings, leaseMs: nat)
    requires Handle(state, request, maxLeaseMs, at).Persist?
    requires request.Acquire? || request.Renew? ==> request.leaseMs == leaseMs
    ensures Handle(state, request, maxLeaseMs, at).candidate.lease.expiresAt ==
            if request.Release? then 0 else at.stampAt + leaseMs
  {
  }

  lemma SendKeepsSteady(s: System, id: nat, m: Message, leaseMs: nat)
    requires Steady(s, leaseMs) && Ready(s, id) && m.checkedAt == s.now
    requires m.candidate.lease.expiresAt == if m.request.Release? then 0 else m.sentAt + leaseMs
    ensures Steady(Sent(s, id, m), leaseMs)
  {
    assert SteadyMessage(s, m, leaseMs);
    forall other | other in Sent(s, id, m).wire ensures SteadyMessage(Sent(s, id, m), other, leaseMs) {
      assert SteadyMessage(s, other, leaseMs);
    }
  }

  lemma NextKeepsSteady(cfg: Config, s: System, e: Event, leaseMs: nat)
    requires Inv(cfg, s) && Steady(s, leaseMs) && SteadyStep(e, leaseMs)
    ensures Steady(Next(cfg, s, e), leaseMs)
  {
    if e.Deliver? && Lands(cfg, s, e.message) {
      LandingKeepsSteady(cfg, s, e.message, leaseMs);
    } else if e.Call? {
      CallKeepsSteady(cfg, s, e.id, e.request, e.lag, leaseMs);
    } else {
      StepFrame(cfg, s, e);
      var s' := Next(cfg, s, e);
      forall key ensures Stored(s'.store, key).expiresAt <= s'.now + leaseMs {
        assert Stored(s'.store, key) == Stored(s.store, key);
      }
      forall m | m in s'.wire ensures SteadyMessage(s', m, leaseMs) {
      }
    }
  }

  lemma SteadyCutsNothing(cfg: Config, s: System, e: Event, leaseMs: nat)
    requires Inv(cfg, s) && AllBacked(s) && NoDebts(s) && Steady(s, leaseMs)
    ensures CutsNothing(cfg, s, e)
  {
    if e.Deliver? && Lands(cfg, s, e.message) {
      var m := e.message;
      assert MessageOk(cfg, s, m) && SteadyMessage(s, m, leaseMs);
      if m.request.Renew? && Promised(s, m.key, m.candidate.lease.sequence) {
        assert Covered(s, m.key, m.candidate.lease.sequence);
      }
    }
  }

  lemma {:induction false} SteadyRunIsUncut(cfg: Config, s: System, events: seq<Event>, leaseMs: nat)
    requires Inv(cfg, s) && AllBacked(s) && NoDebts(s) && Steady(s, leaseMs)
    requires AnsweredRun(cfg, s, events) && SteadyRun(events, leaseMs)
    ensures UncutRun(cfg, s, events)
    decreases |events|
  {
    if events != [] {
      var s1 := Next(cfg, s, events[0]);
      SteadyCutsNothing(cfg, s, events[0], leaseMs);
      AnsweredStepIsHarmless(cfg, s, events[0]);
      NextKeeps(cfg, s, events[0]);
      NextBacks(cfg, s, events[0]);
      NextKeepsSteady(cfg, s, events[0], leaseMs);
      forall id ensures !Owes(s1, id) {
        StepMakesNoDebt(cfg, s, events[0], id);
      }
      SteadyRunIsUncut(cfg, s1, events[1..], leaseMs);
    }
  }

  /**
   * In particular, when all clients ask for leases of one length, a store that answers every commit, however
   * late, keeps the section exclusive over every run.
   */
  lemma SteadyLeasesAreExclusive(cfg: Config, start: nat, events: seq<Event>, leaseMs: nat)
    requires AnsweredRun(cfg, Initial(start), events) && SteadyRun(events, leaseMs)
    ensures Exclusive(Run(cfg, Initial(start), events))
  {
    InitialHolds(cfg, start);
    InitialIsBacked(start);
    SteadyRunIsUncut(cfg, Initial(start), events, leaseMs);
    AnsweredRunsAreExclusive(cfg, start, events);
  }
}
