/** Runs that reach the boundaries: the exceptions stated elsewhere do happen. */
module LeaseWitness {
  import opened Options
  import opened LeaseCodec
  import opened DurableStore
  import opened LeaseActor
  import opened LeaseProtocol
  import opened LeaseInvariant
  import opened LeaseCoherence
  import opened LeaseClaims
  import opened LeaseExclusivity
  import opened LeaseBoundary
  import opened LeaseRefinement

  const HOLDER: Binary := [97]
  const LEASE := Lease(1, Some(HOLDER), Some(HOLDER), 10)
  const GRANTED := State(1, 1, 1, LEASE, false)

  /** Nobody dies or gives up, so that nobody misses an answer. */
  predicate LosesNothing(events: seq<Event>) {
    forall i | 0 <= i < |events| :: !events[i].GiveUp? && !events[i].Crash?
  }

  /** The run does no harm, answers every commit, loses nothing, and names every acquire. */
  ghost predicate Blameless(cfg: Config, s: System, events: seq<Event>) {
    HarmlessRun(cfg, s, events) && AnsweredRun(cfg, s, events) && LosesNothing(events) && NamedRun(events)
  }

  lemma {:induction false} AnsweredAppend(cfg: Config, s: System, before: seq<Event>, after: seq<Event>)
    requires AnsweredRun(cfg, s, before) && AnsweredRun(cfg, Run(cfg, s, before), after)
    ensures AnsweredRun(cfg, s, before + after)
    decreases |before|
  {
    if before == [] {
      assert before + after == after;
    } else {
      assert (before + after)[1..] == before[1..] + after;
      AnsweredAppend(cfg, Next(cfg, s, before[0]), before[1..], after);
    }
  }

  lemma ExtendAnswered(cfg: Config, s: System, events: seq<Event>, e: Event)
    requires AnsweredRun(cfg, s, events) && AnsweredStep(cfg, Run(cfg, s, events), e)
    ensures AnsweredRun(cfg, s, events + [e])
    ensures Run(cfg, s, events + [e]) == Next(cfg, Run(cfg, s, events), e)
  {
    assert [e][1..] == [];
    var s' := Run(cfg, s, events);
    assert AnsweredRun(cfg, s', [e]) && Run(cfg, s', [e]) == Next(cfg, s', e);
    AnsweredAppend(cfg, s, events, [e]);
    RunAppend(cfg, s, events, [e]);
  }

  lemma ExtendBlameless(cfg: Config, s: System, events: seq<Event>, e: Event)
    requires Blameless(cfg, s, events) && NamedStep(e) && !e.GiveUp? && !e.Crash?
    requires HarmlessStep(cfg, Run(cfg, s, events), e) && AnsweredStep(cfg, Run(cfg, s, events), e)
    ensures Blameless(cfg, s, events + [e])
    ensures Run(cfg, s, events + [e]) == Next(cfg, Run(cfg, s, events), e)
  {
    Extend(cfg, s, events, e);
    ExtendAnswered(cfg, s, events, e);
  }

  /** Actor 0 has claimed, loaded and started. */
  function Started(cfg: Config, key: Key): System {
    Initial(0).(store := Claimed(EMPTY_STORE, ScopeOf(cfg, key)),
                actors := map[0 := Running(key, State(1, 1, 0, FREE_LEASE, false), None, false)])
  }

  lemma FirstOwner(cfg: Config, key: Key) returns (events: seq<Event>)
    ensures Blameless(cfg, Initial(0), events)
    ensures Run(cfg, Initial(0), events) == Started(cfg, key)
  {
    var s := Initial(0);
    events := [];
    ExtendBlameless(cfg, s, events, Claim(0, key, 1, true));
    events := events + [Claim(0, key, 1, true)];
    ExtendBlameless(cfg, s, events, Load(0));
    events := events + [Load(0)];
    ExtendBlameless(cfg, s, events, Start(0));
    events := events + [Start(0)];
    assert Run(cfg, s, events).actors == Started(cfg, key).actors;
  }

  /** A call that prepares a commit sends it. */
  lemma CallSends(cfg: Config, s: System, id: nat, state: State, request: Request, candidate: State)
    requires Ready(s, id) && s.actors[id].state == state
    requires Handle(state, request, cfg.maxLeaseMs, Readings(s.now, s.now, s.now)) == Persist(candidate)
    ensures Next(cfg, s, Call(id, request, AT_ONCE))
            == Sent(s, id, Message(id, s.actors[id].key, request, candidate, s.now, s.now))
  {
  }

  /** A blameless run goes on with a call and the landing of its commit. */
  lemma ExtendCommit(cfg: Config, s0: System, before: seq<Event>, m: Message) returns (events: seq<Event>)
    requires Blameless(cfg, s0, before) && NamedStep(Call(m.sender, m.request, AT_ONCE))
    requires var s := Run(cfg, s0, before);
             && Ready(s, m.sender)
             && Next(cfg, s, Call(m.sender, m.request, AT_ONCE)) == Sent(s, m.sender, m)
             && Lands(cfg, Sent(s, m.sender, m), m) && Debtless(Sent(s, m.sender, m), m.key)
    ensures Blameless(cfg, s0, events)
    ensures Run(cfg, s0, events) == DoDeliver(cfg, Sent(Run(cfg, s0, before), m.sender, m), m)
  {
    ExtendBlameless(cfg, s0, before, Call(m.sender, m.request, AT_ONCE));
    events := before + [Call(m.sender, m.request, AT_ONCE)];
    ExtendBlameless(cfg, s0, events, Deliver(m));
    events := events + [Deliver(m)];
  }

  /** Actor 0 holds a lease of 10 ms granted at time 0, and its client knows. */
  ghost predicate FirstLeaseHeld(cfg: Config, s: System, key: Key) {
    && s.now == 0
    && s.actors == map[0 := Running(key, GRANTED, None, false)]
    && ScopeOf(cfg, key) in s.store.owners && OwnerOf(cfg, s, key) == 1
    && Version(s.store, key) == 1 && Stored(s.store, key) == LEASE
    && (key, 1) in s.promises && s.promises[(key, 1)] == Promise(Some(HOLDER), 10, false)
  }

  /** The message by which actor 0 asks for it. */
  function FirstBid(key: Key): Message {
    Message(0, key, Acquire(HOLDER, Some(HOLDER), 10), State(1, 1, 0, LEASE, false), 0, 0)
  }

  lemma FirstBidIsPrepared(maxLeaseMs: int)
    requires 10 <= maxLeaseMs
    ensures Handle(State(1, 1, 0, FREE_LEASE, false), Acquire(HOLDER, Some(HOLDER), 10), maxLeaseMs, Readings(0, 0, 0))
            == Persist(State(1, 1, 0, LEASE, false))
  {
    assert BoundedText(HOLDER);
  }

  lemma FirstBidIsSent(cfg: Config, key: Key)
    requires 10 <= cfg.maxLeaseMs
    ensures var s := Started(cfg, key);
            Next(cfg, s, Call(0, FirstBid(key).request, AT_ONCE)) == Sent(s, 0, FirstBid(key))
  {
    FirstBidIsPrepared(cfg.maxLeaseMs);
    var free := State(1, 1, 0, FREE_LEASE, false);
    CallSends(cfg, Started(cfg, key), 0, free, FirstBid(key).request, FirstBid(key).candidate);
  }

  lemma FirstBidLands(cfg: Config, key: Key)
    ensures var s := Sent(Started(cfg, key), 0, FirstBid(key));
            && Lands(cfg, s, FirstBid(key)) && Awaited(s, FirstBid(key)) && Debtless(s, key)
  {
  }

  lemma FirstBidIsAnswered(cfg: Config, key: Key)
    ensures var s := Sent(Started(cfg, key), 0, FirstBid(key));
            FirstLeaseHeld(cfg, DoReply(DoDeliver(cfg, s, FirstBid(key)), 0), key)
  {
    FirstBidLands(cfg, key);
    assert Encodable(LEASE);
    RoundTrip(LEASE);
    CommitIsAnswered(cfg, Sent(Started(cfg, key), 0, FirstBid(key)), FirstBid(key));
  }

  lemma FirstLease(cfg: Config, key: Key) returns (events: seq<Event>)
    requires 10 <= cfg.maxLeaseMs
    ensures Blameless(cfg, Initial(0), events) && FirstLeaseHeld(cfg, Run(cfg, Initial(0), events), key)
  {
    events := FirstOwner(cfg, key);
    FirstBidIsSent(cfg, key);
    FirstBidLands(cfg, key);
    FirstBidIsAnswered(cfg, key);
    events := ExtendCommit(cfg, Initial(0), events, FirstBid(key));
    ExtendBlameless(cfg, Initial(0), events, Reply(0));
    events := events + [Reply(0)];
  }

  /** A commit by which actor 0 frees or changes the first lease. */
  function NextCommit(key: Key, request: Request, next: Lease): Message {
    Message(0, key, request, GRANTED.(lease := next), 0, 0)
  }

  lemma NextCommitIsSent(cfg: Config, s: System, key: Key, request: Request, next: Lease)
    requires FirstLeaseHeld(cfg, s, key)
    requires Handle(GRANTED, request, cfg.maxLeaseMs, Readings(0, 0, 0)) == Persist(GRANTED.(lease := next))
    ensures Next(cfg, s, Call(0, request, AT_ONCE)) == Sent(s, 0, NextCommit(key, request, next))
  {
    CallSends(cfg, s, 0, GRANTED, request, GRANTED.(lease := next));
  }

  lemma NextCommitLands(cfg: Config, s: System, key: Key, request: Request, next: Lease)
    requires FirstLeaseHeld(cfg, s, key)
    ensures var s1 := Sent(s, 0, NextCommit(key, request, next));
            Lands(cfg, s1, NextCommit(key, request, next)) && Debtless(s1, key)
  {
  }

  /** What that leaves: the answer is under way. */
  ghost predicate NextCommitLanded(s: System, key: Key, request: Request, next: Lease) {
    && s.now == 0 && s.actors == map[0 := Running(key, GRANTED, Some(NextCommit(key, request, next)), true)]
    && Stored(s.store, key) == next
    && (key, 1) in s.promises && s.promises[(key, 1)] == Promise(Some(HOLDER), 10, request.Release?)
  }

  lemma NextCommitEffect(cfg: Config, s: System, key: Key, request: Request, next: Lease)
    requires FirstLeaseHeld(cfg, s, key) && next.sequence == 1 && (request.Renew? || request.Release?)
    requires var m := NextCommit(key, request, next);
             Inv(cfg, Sent(s, 0, m)) && Lands(cfg, Sent(s, 0, m), m)
    ensures var m := NextCommit(key, request, next);
            NextCommitLanded(DoDeliver(cfg, Sent(s, 0, m), m), key, request, next)
  {
    var m := NextCommit(key, request, next);
    LandEffect(cfg, Sent(s, 0, m), m, key);
  }

  lemma FirstLeaseCommits(cfg: Config, key: Key, request: Request, next: Lease) returns (events: seq<Event>)
    requires 10 <= cfg.maxLeaseMs && next.sequence == 1 && (request.Renew? || request.Release?)
    requires Handle(GRANTED, request, cfg.maxLeaseMs, Readings(0, 0, 0)) == Persist(GRANTED.(lease := next))
    ensures Blameless(cfg, Initial(0), events)
    ensures Inv(cfg, Run(cfg, Initial(0), events)) && AllBacked(Run(cfg, Initial(0), events))
    ensures NextCommitLanded(Run(cfg, Initial(0), events), key, request, next)
  {
    var s0 := Initial(0);
    events := FirstLease(cfg, key);
    InitialHolds(cfg, 0);
    InitialIsBacked(0);
    RunBacks(cfg, s0, events);
    NextCommitIsSent(cfg, Run(cfg, s0, events), key, request, next);
    NextCommitLands(cfg, Run(cfg, s0, events), key, request, next);
    NextKeeps(cfg, Run(cfg, s0, events), Call(0, request, AT_ONCE));
    NextCommitEffect(cfg, Run(cfg, s0, events), key, request, next);
    events := ExtendCommit(cfg, s0, events, NextCommit(key, request, next));
    RunBacks(cfg, s0, events);
  }

  const TOKEN := Some(Token(1, 1, 1))

  lemma FirstLeaseIsReleased(maxLeaseMs: int)
    ensures Handle(GRANTED, Release(HOLDER, TOKEN), maxLeaseMs, Readings(0, 0, 0))
            == Persist(GRANTED.(lease := Freed(LEASE)))
  {
  }

  lemma FirstLeaseIsRenewed(maxLeaseMs: int, leaseMs: nat)
    requires 0 < leaseMs <= maxLeaseMs
    ensures Handle(GRANTED, Renew(HOLDER, TOKEN, leaseMs), maxLeaseMs, Readings(0, 0, 0))
            == Persist(GRANTED.(lease := LEASE.(expiresAt := leaseMs)))
  {
    assert BoundedText(HOLDER);
  }

  /**
   * A release whose answer is lost: up to the step at which the actor gives it up, and after that step, the
   * run does no harm; then the actor has replayed the grant and a second client is granted the section.
   */
  lemma LostReleaseBreaksExclusivity(cfg: Config, key: Key)
    returns (before: seq<Event>, lost: Event, after: seq<Event>)
    requires 10 <= cfg.maxLeaseMs
    ensures Blameless(cfg, Initial(0), before)
    ensures lost.GiveUp? && GivesBack(Run(cfg, Initial(0), before), lost.id)
    ensures var s := Next(cfg, Run(cfg, Initial(0), before), lost);
            HarmlessRun(cfg, s, after) && !Exclusive(Run(cfg, s, after))
  {
    FirstLeaseIsReleased(cfg.maxLeaseMs);
    before := FirstLeaseCommits(cfg, key, Release(HOLDER, TOKEN), Freed(LEASE));
    lost := GiveUp(0);
    var s := Run(cfg, Initial(0), before);
    ForgettingBreaks(cfg, s, 0);
    after :| HarmlessRun(cfg, DoGiveUp(s, 0), after) && !Exclusive(Run(cfg, DoGiveUp(s, 0), after));
  }

  /**
   * A release whose answer is merely late: the run does no harm and the section stays exclusive, because the
   * first client has given it back; but that client was told of an expiry still to come and of nothing since.
   */
  lemma LateReleaseLeavesTwoTold(cfg: Config, key: Key) returns (events: seq<Event>)
    requires 10 <= cfg.maxLeaseMs
    ensures HarmlessRun(cfg, Initial(0), events)
    ensures var s := Run(cfg, Initial(0), events);
            Exclusive(s) && Told(s, key, 1) && Told(s, key, 2)
  {
    FirstLeaseIsReleased(cfg.maxLeaseMs);
    var before := FirstLeaseCommits(cfg, key, Release(HOLDER, TOKEN), Freed(LEASE));
    var s := Run(cfg, Initial(0), before);
    NewOwnerStarts(cfg, s, key, 1);
    var start := [Claim(1, key, 1, true), Load(1), Start(1)];
    var grant := NewOwnerIsGranted(cfg, s, key, 1);
    HarmlessAppend(cfg, s, start, grant);
    HarmlessAppend(cfg, Initial(0), before, start + grant);
    events := before + (start + grant);
    InitialHolds(cfg, 0);
    InitialIsBacked(0);
    RunBacks(cfg, Initial(0), events);
  }

  /**
   * A renewal to less time whose answer is merely late: every commit of the run finds its sender waiting,
   * nobody dies or gives up, and yet two clients hold the section.
   */
  lemma LateShorteningBreaksExclusivity(cfg: Config, key: Key) returns (events: seq<Event>)
    requires 10 <= cfg.maxLeaseMs
    ensures AnsweredRun(cfg, Initial(0), events) && LosesNothing(events)
    ensures !Exclusive(Run(cfg, Initial(0), events))
  {
    var s0 := Initial(0);
    FirstLeaseIsRenewed(cfg.maxLeaseMs, 1);
    events := FirstLeaseCommits(cfg, key, Renew(HOLDER, TOKEN, 1), LEASE.(expiresAt := 1));
    NextKeeps(cfg, Run(cfg, s0, events), Tick);
    ExtendAnswered(cfg, s0, events, Tick);
    events := events + [Tick];
    var s := Run(cfg, s0, events);
    var rest := NewOwnerIsAnswered(cfg, s, key, 1);
    AnsweredAppend(cfg, s0, events, rest);
    RunAppend(cfg, s0, events, rest);
    events := events + rest;
    assert Promised(Run(cfg, s0, events), key, 1) && Promised(Run(cfg, s0, events), key, 2);
  }

  /** A fresh actor starts and is granted a free section, debts or no debts. */
  lemma NewOwnerIsAnswered(cfg: Config, s: System, key: Key, id: nat) returns (events: seq<Event>)
    requires Inv(cfg, s) && 0 < cfg.maxLeaseMs && id !in s.actors
    requires !Live(Stored(s.store, key), s.now) && Stored(s.store, key).sequence < MAX_FENCING_SEQUENCE
    ensures AnsweredRun(cfg, s, events) && LosesNothing(events)
    ensures Run(cfg, s, events).now == s.now
    ensures Run(cfg, s, events).promises == s.promises[NextEntry(s, key) := Promise(Some([1]), s.now + 1, false)]
  {
    var start := [Claim(id, key, 1, true), Load(id), Start(id)];
    var bid := [Call(id, REQUEST, AT_ONCE), Deliver(Bid(cfg, s, key, id)), Reply(id)];
    NewOwnerStarts(cfg, s, key, id);
    AnsweredThree(cfg, s, start[0], start[1], start[2]);
    BidIsAnswered(cfg, s, key, id);
    AnsweredAppend(cfg, s, start, bid);
    RunAppend(cfg, s, start, bid);
    events := start + bid;
  }

  /** A new owner is granted a free section, debts or no debts. */
  lemma BidIsAnswered(cfg: Config, s: System, key: Key, id: nat)
    requires 0 < cfg.maxLeaseMs && id !in s.actors
    requires !Live(Stored(s.store, key), s.now) && Stored(s.store, key).sequence < MAX_FENCING_SEQUENCE
    ensures var events := [Call(id, REQUEST, AT_ONCE), Deliver(Bid(cfg, s, key, id)), Reply(id)];
            var s' := Run(cfg, WithNewOwner(cfg, s, key, id), events);
            && AnsweredRun(cfg, WithNewOwner(cfg, s, key, id), events)
            && s'.now == s.now
            && s'.promises == s.promises[NextEntry(s, key) := Promise(Some([1]), s.now + 1, false)]
  {
    BidIsSent(cfg, s, key, id);
    BidIsPromised(cfg, s, key, id);
    CallIsAnswered(cfg, WithNewOwner(cfg, s, key, id), Call(id, REQUEST, AT_ONCE), Bid(cfg, s, key, id));
  }

  lemma CallIsAnswered(cfg: Config, s: System, call: Event, m: Message)
    requires call.Call? && Awaited(DoCall(cfg, s, call.id, call.request, call.lag), m)
    ensures var events := [call, Deliver(m), Reply(m.sender)];
            && AnsweredRun(cfg, s, events)
            && Run(cfg, s, events)
               == DoReply(DoDeliver(cfg, DoCall(cfg, s, call.id, call.request, call.lag), m), m.sender)
  {
    var events := [call, Deliver(m), Reply(m.sender)];
    var s1 := DoCall(cfg, s, call.id, call.request, call.lag);
    assert events[1..] == [Deliver(m), Reply(m.sender)] && events[1..][1..] == [Reply(m.sender)];
    assert [Reply(m.sender)][1..] == [];
    assert AnsweredRun(cfg, DoDeliver(cfg, s1, m), [Reply(m.sender)]);
    assert AnsweredRun(cfg, s1, events[1..]);
    RunThree(cfg, s, events[0], events[1], events[2]);
  }

  lemma AnsweredThree(cfg: Config, s: System, a: Event, b: Event, c: Event)
    requires !a.Deliver? && !a.GiveUp? && !b.Deliver? && !b.GiveUp? && !c.Deliver? && !c.GiveUp?
    ensures AnsweredRun(cfg, s, [a, b, c])
  {
    assert [a, b, c][1..] == [b, c] && [b, c][1..] == [c] && [c][1..] == [];
    assert AnsweredRun(cfg, Next(cfg, Next(cfg, s, a), b), [c]);
    assert AnsweredRun(cfg, Next(cfg, s, a), [b, c]);
  }

  lemma {:induction false} WaitTicks(cfg: Config, s: System, ticks: seq<Event>)
    requires forall i | 0 <= i < |ticks| :: ticks[i] == Tick
    ensures Run(cfg, s, ticks) == s.(now := s.now + |ticks|)
    decreases |ticks|
  {
    if ticks != [] {
      WaitTicks(cfg, Next(cfg, s, ticks[0]), ticks[1..]);
    }
  }

  /** A renewal that lands when the lease it renews has expired. */
  lemma LateRenewalHappens(cfg: Config, key: Key) returns (events: seq<Event>, late: Event)
    requires 20 <= cfg.maxLeaseMs
    ensures NamedRun(events)
    ensures LateRenewal(cfg, Run(cfg, Initial(0), events), late, key)
  {
    var s0 := Initial(0);
    var next := LEASE.(expiresAt := 20);
    var call := Call(0, Renew(HOLDER, TOKEN, 20), AT_ONCE);
    events := FirstLease(cfg, key);
    var s := Run(cfg, s0, events);
    FirstLeaseIsRenewed(cfg.maxLeaseMs, 20);
    NextCommitIsSent(cfg, s, key, call.request, next);
    NextCommitLands(cfg, s, key, call.request, next);
    late := Deliver(NextCommit(key, call.request, next));
    events := DelayedCommit(cfg, s0, events, call);
    assert Run(cfg, s0, events) == Sent(s, 0, late.message).(now := 10);
  }

  /** A call, and ten ticks in which its commit does not land. */
  lemma DelayedCommit(cfg: Config, s0: System, before: seq<Event>, call: Event) returns (events: seq<Event>)
    requires NamedRun(before) && NamedStep(call) && call.Call?
    ensures NamedRun(events)
    ensures Run(cfg, s0, events) == Next(cfg, Run(cfg, s0, before), call).(now := Run(cfg, s0, before).now + 10)
  {
    var s1 := Next(cfg, Run(cfg, s0, before), call);
    StepFrame(cfg, Run(cfg, s0, before), call);
    var wait := seq(10, i => Tick);
    WaitTicks(cfg, s1, wait);
    assert ([call] + wait)[1..] == wait;
    assert Run(cfg, Run(cfg, s0, before), [call] + wait) == Run(cfg, s1, wait);
    events := before + ([call] + wait);
    RunAppend(cfg, s0, before, [call] + wait);
  }

  /** An acquire that lands when its own lease has expired. */
  lemma DeadGrantHappens(cfg: Config, key: Key) returns (events: seq<Event>, dead: Event)
    requires 10 <= cfg.maxLeaseMs
    ensures NamedRun(events)
    ensures DeadGrant(cfg, Run(cfg, Initial(0), events), dead, key)
  {
    var s0 := Initial(0);
    var call := Call(0, FirstBid(key).request, AT_ONCE);
    events := FirstOwner(cfg, key);
    FirstBidIsSent(cfg, key);
    FirstBidLands(cfg, key);
    dead := Deliver(FirstBid(key));
    events := DelayedCommit(cfg, s0, events, call);
    assert Run(cfg, s0, events) == Sent(Started(cfg, key), 0, FirstBid(key)).(now := 10);
  }
}
