/** Harmless steps are exactly those after which every harmless continuation is exclusive. */
module LeaseBoundary {
  import opened Options
  import opened LeaseCodec
  import opened DurableStore
  import opened LeaseActor
  import opened LeaseProtocol
  import opened LeaseInvariant
  import opened LeaseClaims
  import opened LeaseSpeech
  import opened LeaseLanding
  import opened LeaseExclusivity

  lemma FreshActor(actors: map<nat, Actor>) returns (id: nat)
    ensures id !in actors
  {
    var ids := actors.Keys;
    id := 0;
    while ids != {}
      invariant forall j | j in actors :: j in ids || j < id
      decreases |ids|
    {
      var j :| j in ids;
      ids := ids - {j};
      id := if j < id then id else j + 1;
    }
  }

  /** Waiting for `n` ticks. */
  lemma Wait(cfg: Config, s: System, n: nat) returns (events: seq<Event>)
    ensures Run(cfg, s, events) == s.(now := s.now + n) && HarmlessRun(cfg, s, events)
    decreases n
  {
    if n == 0 {
      events := [];
    } else {
      var rest := Wait(cfg, Next(cfg, s, Tick), n - 1);
      events := [Tick] + rest;
      assert events[1..] == rest;
    }
  }

  lemma {:induction false} HarmlessAppend(cfg: Config, s: System, before: seq<Event>, after: seq<Event>)
    requires HarmlessRun(cfg, s, before) && HarmlessRun(cfg, Run(cfg, s, before), after)
    ensures HarmlessRun(cfg, s, before + after)
    ensures Run(cfg, s, before + after) == Run(cfg, Run(cfg, s, before), after)
    decreases |before|
  {
    if before == [] {
      assert before + after == after;
    } else {
      assert (before + after)[1..] == before[1..] + after;
      HarmlessAppend(cfg, Next(cfg, s, before[0]), before[1..], after);
    }
  }

  lemma Extend(cfg: Config, s: System, events: seq<Event>, e: Event)
    requires HarmlessRun(cfg, s, events) && HarmlessStep(cfg, Run(cfg, s, events), e)
    ensures HarmlessRun(cfg, s, events + [e])
    ensures Run(cfg, s, events + [e]) == Next(cfg, Run(cfg, s, events), e)
  {
    var s' := Run(cfg, s, events);
    assert [e][1..] == [];
    assert HarmlessRun(cfg, s', [e]) && Run(cfg, s', [e]) == Next(cfg, s', e);
    HarmlessAppend(cfg, s, events, [e]);
  }

  /** Some harmless run from here ends with two clients in the section. */
  ghost predicate Breakable(cfg: Config, s: System) {
    exists events :: HarmlessRun(cfg, s, events) && !Exclusive(Run(cfg, s, events))
  }

  /** Whatever harmless steps follow, the section stays exclusive. */
  ghost predicate StaysExclusive(cfg: Config, s: System) {
    forall events | HarmlessRun(cfg, s, events) :: Exclusive(Run(cfg, s, events))
  }

  lemma BreaksNow(cfg: Config, s: System)
    requires !Exclusive(s)
    ensures Breakable(cfg, s)
  {
    assert HarmlessRun(cfg, s, []) && Run(cfg, s, []) == s;
  }

  lemma BreaksAfterStep(cfg: Config, s: System, e: Event)
    requires HarmlessStep(cfg, s, e) && Breakable(cfg, Next(cfg, s, e))
    ensures Breakable(cfg, s)
  {
    var rest :| HarmlessRun(cfg, Next(cfg, s, e), rest) && !Exclusive(Run(cfg, Next(cfg, s, e), rest));
    assert ([e] + rest)[1..] == rest;
    assert HarmlessRun(cfg, s, [e] + rest) && Run(cfg, s, [e] + rest) == Run(cfg, Next(cfg, s, e), rest);
  }

  lemma BreaksAfterRun(cfg: Config, s: System, events: seq<Event>)
    requires HarmlessRun(cfg, s, events) && Breakable(cfg, Run(cfg, s, events))
    ensures Breakable(cfg, s)
  {
    var s' := Run(cfg, s, events);
    var rest :| HarmlessRun(cfg, s', rest) && !Exclusive(Run(cfg, s', rest));
    HarmlessAppend(cfg, s, events, rest);
  }

  /** Steps that neither land, nor give up, nor crash do no harm. */
  lemma {:induction false} PeacefulIsHarmless(cfg: Config, s: System, events: seq<Event>)
    requires forall i | 0 <= i < |events| :: !events[i].Deliver? && !events[i].GiveUp? && !events[i].Crash?
    ensures HarmlessRun(cfg, s, events)
    decreases |events|
  {
    if events != [] {
      PeacefulIsHarmless(cfg, Next(cfg, s, events[0]), events[1..]);
    }
  }

  lemma RunThree(cfg: Config, s: System, a: Event, b: Event, c: Event)
    ensures Run(cfg, s, [a, b, c]) == Next(cfg, Next(cfg, Next(cfg, s, a), b), c)
  {
    var s2 := Next(cfg, Next(cfg, s, a), b);
    assert [a, b, c][1..] == [b, c] && [b, c][1..] == [c] && [c][1..] == [];
    assert Run(cfg, s2, [c]) == Next(cfg, s2, c);
    assert Run(cfg, Next(cfg, s, a), [b, c]) == Run(cfg, s2, [c]);
  }

  /** A step that tells nobody anything and lands nothing makes no debt. */
  lemma DebtlessStays(s: System, s': System, key: Key)
    requires Debtless(s, key) && s'.promises == s.promises && s.now <= s'.now
    requires forall id | Unanswered(s', id) :: id in s.actors && s'.actors[id] == s.actors[id]
    ensures Debtless(s', key)
  {
    assert forall id | id in s'.actors && Owes(s', id) :: Owes(s, id);
  }

  /** The system once a fresh actor has claimed, loaded a lease that is not live, and started. */
  function WithNewOwner(cfg: Config, s: System, key: Key, id: nat): System {
    var store := Claimed(s.store, ScopeOf(cfg, key));
    var state := State(1, Owner(store, ScopeOf(cfg, key)), Version(s.store, key), Stored(s.store, key), false);
    s.(store := store, actors := s.actors[id := Running(key, state, None, false)])
  }

  lemma NewOwnerSteps(cfg: Config, s: System, key: Key, id: nat)
    requires Loaded(s.store, key).Some? && !Live(Stored(s.store, key), s.now) && id !in s.actors
    ensures DoStart(DoLoad(DoClaim(cfg, s, id, key, 1, true), id), id) == WithNewOwner(cfg, s, key, id)
  {
    var s1 := DoClaim(cfg, s, id, key, 1, true);
    assert Loaded(s1.store, key) == Loaded(s.store, key);
    assert DoStart(DoLoad(s1, id), id).actors == WithNewOwner(cfg, s, key, id).actors;
  }

  lemma NewOwnerStarts(cfg: Config, s: System, key: Key, id: nat)
    requires Inv(cfg, s) && !Live(Stored(s.store, key), s.now) && id !in s.actors
    ensures var events := [Claim(id, key, 1, true), Load(id), Start(id)];
            HarmlessRun(cfg, s, events) && Run(cfg, s, events) == WithNewOwner(cfg, s, key, id)
  {
    var events := [Claim(id, key, 1, true), Load(id), Start(id)];
    PeacefulIsHarmless(cfg, s, events);
    RunThree(cfg, s, events[0], events[1], events[2]);
    assert RowOk(s, key);
    NewOwnerSteps(cfg, s, key, id);
  }

  const AT_ONCE := Lag(0, 0)

  /** Asked for a free section, such an actor prepares the next sequence. */
  lemma FreeSectionIsPrepared(cfg: Config, s: System, id: nat)
    requires 0 < cfg.maxLeaseMs && Ready(s, id) && !s.actors[id].state.inherited
    requires !Live(s.actors[id].state.lease, s.now) && s.actors[id].state.lease.sequence < MAX_FENCING_SEQUENCE
    ensures OutcomeOf(cfg, s, id, Acquire([1], Some([1]), 1), AT_ONCE) == Persist(s.actors[id].state.(
              lease := Lease(s.actors[id].state.lease.sequence + 1, Some([1]), Some([1]), s.now + 1)))
  {
  }

  /** Its commit lands and is answered. */
  lemma CommitIsAnswered(cfg: Config, s: System, m: Message)
    requires Lands(cfg, s, m) && Awaited(s, m) && !m.request.Release?
    ensures var s' := DoReply(DoDeliver(cfg, s, m), m.sender);
            && s'.now == s.now
            && s'.promises == s.promises[(m.key, m.candidate.lease.sequence) :=
                                         Promise(m.candidate.lease.holder, m.candidate.lease.expiresAt, false)]
  {
  }

  lemma CommitCompletes(cfg: Config, s: System, m: Message)
    requires Lands(cfg, s, m) && Awaited(s, m) && Debtless(s, m.key)
    ensures HarmlessRun(cfg, s, [Deliver(m), Reply(m.sender)])
    ensures Run(cfg, s, [Deliver(m), Reply(m.sender)]) == DoReply(DoDeliver(cfg, s, m), m.sender)
  {
    assert [Deliver(m), Reply(m.sender)][1..] == [Reply(m.sender)] && [Reply(m.sender)][1..] == [];
    assert HarmlessRun(cfg, DoDeliver(cfg, s, m), [Reply(m.sender)]);
    assert Run(cfg, DoDeliver(cfg, s, m), [Reply(m.sender)]) == DoReply(DoDeliver(cfg, s, m), m.sender);
  }

  const REQUEST := Acquire([1], Some([1]), 1)

  /** The commit by which such an actor asks for a free section. */
  function Bid(cfg: Config, s: System, key: Key, id: nat): Message {
    var state := WithNewOwner(cfg, s, key, id).actors[id].state;
    var lease := Lease(Stored(s.store, key).sequence + 1, Some([1]), Some([1]), s.now + 1);
    Message(id, key, REQUEST, state.(lease := lease), s.now, s.now)
  }

  lemma BidIsSent(cfg: Config, s: System, key: Key, id: nat)
    requires 0 < cfg.maxLeaseMs
    requires !Live(Stored(s.store, key), s.now) && Stored(s.store, key).sequence < MAX_FENCING_SEQUENCE
    ensures var s1 := WithNewOwner(cfg, s, key, id);
            Ready(s1, id) && DoCall(cfg, s1, id, REQUEST, AT_ONCE) == Sent(s1, id, Bid(cfg, s, key, id))
  {
    FreeSectionIsPrepared(cfg, WithNewOwner(cfg, s, key, id), id);
  }

  /** It lands, and its client is promised the next sequence. */
  lemma BidIsPromised(cfg: Config, s: System, key: Key, id: nat)
    requires id !in s.actors
    ensures var m := Bid(cfg, s, key, id);
            var s2 := Sent(WithNewOwner(cfg, s, key, id), id, m);
            && Lands(cfg, s2, m) && Awaited(s2, m)
            && DoReply(DoDeliver(cfg, s2, m), id).now == s.now
            && DoReply(DoDeliver(cfg, s2, m), id).promises
               == s.promises[NextEntry(s, key) := Promise(Some([1]), s.now + 1, false)]
  {
    CommitIsAnswered(cfg, Sent(WithNewOwner(cfg, s, key, id), id, Bid(cfg, s, key, id)), Bid(cfg, s, key, id));
  }

  lemma BidIsDebtless(cfg: Config, s: System, key: Key, id: nat)
    requires id !in s.actors && Debtless(s, key)
    ensures Debtless(Sent(WithNewOwner(cfg, s, key, id), id, Bid(cfg, s, key, id)), key)
  {
    DebtlessStays(s, Sent(WithNewOwner(cfg, s, key, id), id, Bid(cfg, s, key, id)), key);
  }

  /** Such an actor is granted a free section in one call. */
  lemma NewOwnerIsGranted(cfg: Config, s: System, key: Key, id: nat) returns (events: seq<Event>)
    requires 0 < cfg.maxLeaseMs && Debtless(s, key) && id !in s.actors
    requires !Live(Stored(s.store, key), s.now) && Stored(s.store, key).sequence < MAX_FENCING_SEQUENCE
    ensures HarmlessRun(cfg, WithNewOwner(cfg, s, key, id), events)
    ensures var s' := Run(cfg, WithNewOwner(cfg, s, key, id), events);
            s'.now == s.now && s'.promises == s.promises[NextEntry(s, key) := Promise(Some([1]), s.now + 1, false)]
  {
    BidIsSent(cfg, s, key, id);
    BidIsPromised(cfg, s, key, id);
    BidIsDebtless(cfg, s, key, id);
    events := CallCommits(cfg, WithNewOwner(cfg, s, key, id), Call(id, REQUEST, AT_ONCE), Bid(cfg, s, key, id));
  }

  /** A call whose commit lands and is answered. */
  lemma CallCommits(cfg: Config, s: System, call: Event, m: Message) returns (events: seq<Event>)
    requires call.Call?
    requires var s1 := DoCall(cfg, s, call.id, call.request, call.lag);
             Lands(cfg, s1, m) && Awaited(s1, m) && Debtless(s1, m.key)
    ensures HarmlessRun(cfg, s, events)
    ensures Run(cfg, s, events)
            == DoReply(DoDeliver(cfg, DoCall(cfg, s, call.id, call.request, call.lag), m), m.sender)
  {
    CommitCompletes(cfg, DoCall(cfg, s, call.id, call.request, call.lag), m);
    events := CallThen(cfg, s, call, [Deliver(m), Reply(m.sender)]);
  }

  function NextEntry(s: System, key: Key): (Key, nat) {
    (key, Stored(s.store, key).sequence + 1)
  }

  /** A call before a harmless run. */
  lemma CallThen(cfg: Config, s: System, call: Event, rest: seq<Event>) returns (events: seq<Event>)
    requires call.Call? && HarmlessRun(cfg, DoCall(cfg, s, call.id, call.request, call.lag), rest)
    ensures HarmlessRun(cfg, s, events)
    ensures Run(cfg, s, events) == Run(cfg, DoCall(cfg, s, call.id, call.request, call.lag), rest)
  {
    events := [call] + rest;
    assert events[1..] == rest;
  }

  /** A promise on a section that the store has free is one that another client can be granted over. */
  lemma PromiseOnFreeSectionBreaks(cfg: Config, s: System, key: Key, q: nat)
    requires Inv(cfg, s) && 0 < cfg.maxLeaseMs && Debtless(s, key)
    requires Promised(s, key, q) && !Live(Stored(s.store, key), s.now)
    requires q <= Stored(s.store, key).sequence < MAX_FENCING_SEQUENCE
    ensures Breakable(cfg, s)
  {
    var id := FreshActor(s.actors);
    NewOwnerStarts(cfg, s, key, id);
    var start := [Claim(id, key, 1, true), Load(id), Start(id)];
    var grant := NewOwnerIsGranted(cfg, s, key, id);
    var s' := Run(cfg, WithNewOwner(cfg, s, key, id), grant);
    assert Promised(s', key, q) && Promised(s', key, Stored(s.store, key).sequence + 1);
    HarmlessAppend(cfg, s, start, grant);
  }

  /** So is one that outlives the stored lease, once that has expired. */
  lemma OutlivingBreaks(cfg: Config, s: System, key: Key, q: nat)
    requires Inv(cfg, s) && 0 < cfg.maxLeaseMs && Debtless(s, key)
    requires Promised(s, key, q) && Stored(s.store, key).expiresAt < s.promises[(key, q)].expiresAt
    requires q <= Stored(s.store, key).sequence < MAX_FENCING_SEQUENCE
    ensures Breakable(cfg, s)
  {
    var until := Stored(s.store, key).expiresAt;
    var before := Wait(cfg, s, if s.now < until then until - s.now else 0);
    var s1 := Run(cfg, s, before);
    RunKeeps(cfg, s, before);
    DebtlessStays(s, s1, key);
    PromiseOnFreeSectionBreaks(cfg, s1, key, q);
    BreaksAfterRun(cfg, s, before);
  }

  /** An actor that would replay gives up what it waits for and is asked again. */
  lemma ReplayPromises(cfg: Config, s: System, id: nat)
    requires Inv(cfg, s) && 0 < cfg.maxLeaseMs && Ready(s, id) && CanReplay(s.actors[id].state, s.now)
    ensures var a := s.actors[id];
            var again := Acquire(a.state.lease.holder.value, a.state.lease.requestId, 1);
            DoCall(cfg, s, id, again, AT_ONCE) == Tell(s, a.key, a.state)
  {
    var a := s.actors[id];
    var lease := a.state.lease;
    assert ActorOk(cfg, s, id);
    AcquireDecision(a.state, lease.holder.value, lease.requestId, 1, cfg.maxLeaseMs, ReadingsAt(s.now, AT_ONCE));
    assert s.actors[id := a] == s.actors;
  }

  /** The system once an actor has said what it may say. */
  function SpokenOut(s: System, id: nat): System
    requires Speaks(s, id)
  {
    if Unanswered(s, id) then DoReply(s, id)
    else Tell(DoGiveUp(s, id), s.actors[id].key, s.actors[id].state)
  }

  /** It does no harm by that. */
  lemma SpeakUp(cfg: Config, s: System, id: nat)
    requires Inv(cfg, s) && 0 < cfg.maxLeaseMs && Speaks(s, id)
    ensures Inv(cfg, SpokenOut(s, id))
    ensures Breakable(cfg, SpokenOut(s, id)) ==> Breakable(cfg, s)
  {
    if Unanswered(s, id) {
      ReplyKeeps(cfg, s, id);
      if Breakable(cfg, SpokenOut(s, id)) {
        BreaksAfterStep(cfg, s, Reply(id));
      }
    } else {
      SpeakFromCache(cfg, s, id);
    }
  }

  /** Asked again, a ready actor replays. */
  lemma ReplayFromCache(cfg: Config, s: System, id: nat)
    requires Inv(cfg, s) && 0 < cfg.maxLeaseMs && Ready(s, id) && CanReplay(s.actors[id].state, s.now)
    ensures var s' := Tell(s, s.actors[id].key, s.actors[id].state);
            Inv(cfg, s') && (Breakable(cfg, s') ==> Breakable(cfg, s))
  {
    var lease := s.actors[id].state.lease;
    var again := Acquire(lease.holder.value, lease.requestId, 1);
    ReplayPromises(cfg, s, id);
    CallKeeps(cfg, s, id, again, AT_ONCE);
    if Breakable(cfg, DoCall(cfg, s, id, again, AT_ONCE)) {
      BreaksAfterStep(cfg, s, Call(id, again, AT_ONCE));
    }
  }

  lemma SpeakFromCache(cfg: Config, s: System, id: nat)
    requires Inv(cfg, s) && 0 < cfg.maxLeaseMs && Speaks(s, id) && !Unanswered(s, id)
    ensures Inv(cfg, SpokenOut(s, id))
    ensures Breakable(cfg, SpokenOut(s, id)) ==> Breakable(cfg, s)
  {
    GiveUpKeeps(cfg, s, id);
    ReplayFromCache(cfg, DoGiveUp(s, id), id);
    if Breakable(cfg, DoGiveUp(s, id)) {
      BreaksAfterStep(cfg, s, GiveUp(id));
    }
  }

  function SpokenEntry(s: System, id: nat): (Key, nat)
    requires Speaks(s, id)
  {
    (s.actors[id].key, Spoken(s.actors[id]).sequence)
  }

  /** What it says is a promise, and it says no more. */
  lemma SpeakingPromises(cfg: Config, s: System, id: nat)
    requires Inv(cfg, s) && Speaks(s, id)
    ensures var s' := SpokenOut(s, id);
            var lease := Spoken(s.actors[id]);
            && s'.now == s.now && s'.store == s.store
            && s'.promises == s.promises[SpokenEntry(s, id) := Promise(lease.holder, lease.expiresAt, false)]
            && (forall j | j != id :: j in s'.actors <==> j in s.actors)
            && (forall j | j in s.actors && j != id :: s'.actors[j] == s.actors[j])
            && !Unanswered(s', id)
  {
    assert ActorOk(cfg, s, id);
  }

  lemma SpokenIsPromised(cfg: Config, s: System, id: nat)
    requires Inv(cfg, s) && Speaks(s, id)
    ensures Promised(SpokenOut(s, id), SpokenEntry(s, id).0, SpokenEntry(s, id).1)
  {
    SpeakingPromises(cfg, s, id);
  }

  lemma SpeakingMakesNoDebt(cfg: Config, s: System, id: nat, other: nat)
    requires Inv(cfg, s) && Speaks(s, id) && Owes(SpokenOut(s, id), other)
    ensures other != id && Owes(s, other)
  {
    SpeakingPromises(cfg, s, id);
    assert ActorOk(cfg, s, other);
    if AnsweredEntry(s, other) == SpokenEntry(s, id) {
      SpeakerMarks(s, id);
      SequenceHasOneActor(cfg, s, id, other, SpokenEntry(s, id).0, SpokenEntry(s, id).1);
    }
  }

  /** An actor that says what outlives the stored lease breaks exclusivity in the end. */
  lemma OutlivingVoiceBreaks(cfg: Config, s: System, id: nat)
    requires Inv(cfg, s) && 0 < cfg.maxLeaseMs && Speaks(s, id) && Debtless(s, s.actors[id].key)
    requires var a := s.actors[id];
             && Stored(s.store, a.key).expiresAt < Spoken(a).expiresAt
             && Spoken(a).sequence <= Stored(s.store, a.key).sequence < MAX_FENCING_SEQUENCE
    ensures Breakable(cfg, s)
  {
    var a := s.actors[id];
    var s' := SpokenOut(s, id);
    SpeakUp(cfg, s, id);
    SpeakingPromises(cfg, s, id);
    forall j | j in s'.actors && Owes(s', j) ensures s'.actors[j].key != a.key {
      SpeakingMakesNoDebt(cfg, s, id, j);
    }
    OutlivingBreaks(cfg, s', a.key, Spoken(a).sequence);
  }

  /** One that speaks beside another client's promise breaks it at once. */
  lemma VoiceBesidePromiseBreaks(cfg: Config, s: System, id: nat, q: nat)
    requires Inv(cfg, s) && 0 < cfg.maxLeaseMs && Speaks(s, id)
    requires Promised(s, s.actors[id].key, q) && q != Spoken(s.actors[id]).sequence
    ensures Breakable(cfg, s)
  {
    var s' := SpokenOut(s, id);
    SpeakUp(cfg, s, id);
    SpeakingPromises(cfg, s, id);
    assert Promised(s', s.actors[id].key, q) && Promised(s', s.actors[id].key, Spoken(s.actors[id]).sequence);
    BreaksNow(cfg, s');
  }

  /** So do two that speak for different sequences. */
  lemma TwoVoicesBreak(cfg: Config, s: System, id: nat, other: nat)
    requires Inv(cfg, s) && 0 < cfg.maxLeaseMs && Speaks(s, id) && Speaks(s, other) && other != id
    requires s.actors[other].key == s.actors[id].key
    requires Spoken(s.actors[other]).sequence != Spoken(s.actors[id]).sequence
    ensures Breakable(cfg, s)
  {
    var s' := SpokenOut(s, id);
    SpeakUp(cfg, s, id);
    SpeakingPromises(cfg, s, id);
    SpokenIsPromised(cfg, s, id);
    assert Speaks(s', other);
    VoiceBesidePromiseBreaks(cfg, s', other, Spoken(s.actors[id]).sequence);
  }

  /** Claims on two sequences, one of them a voice, break. */
  lemma ContestedBreaks(cfg: Config, s: System, id: nat, other: nat)
    requires Inv(cfg, s) && 0 < cfg.maxLeaseMs && Speaks(s, id)
    requires Claims(s, s.actors[id].key, other) && other != Spoken(s.actors[id]).sequence
    ensures Breakable(cfg, s)
  {
    if Promised(s, s.actors[id].key, other) {
      VoiceBesidePromiseBreaks(cfg, s, id, other);
    } else {
      var j :| Voices(s, j, s.actors[id].key, other);
      TwoVoicesBreak(cfg, s, id, j);
    }
  }

  /** Giving up a release, an actor adds its voice to those there are. */
  lemma ForgetterSpeaks(s: System, id: nat)
    requires GivesBack(s, id) && CanReplay(s.actors[id].state, s.now)
    ensures var s' := DoGiveUp(s, id);
            && Speaks(s', id) && s'.actors[id].key == s.actors[id].key
            && Spoken(s'.actors[id]) == s.actors[id].state.lease
  {
  }

  lemma ClaimStays(s: System, id: nat, key: Key, q: nat)
    requires GivesBack(s, id) && Claims(s, key, q)
    ensures Claims(DoGiveUp(s, id), key, q)
  {
    if !Promised(s, key, q) {
      var j :| Voices(s, j, key, q);
      assert Voices(DoGiveUp(s, id), j, key, q);
    }
  }

  /** Uncontested, an unanswered release leaves no debt on its key. */
  lemma ForgetterIsDebtless(cfg: Config, s: System, id: nat)
    requires Inv(cfg, s) && GivesBack(s, id) && CanReplay(s.actors[id].state, s.now)
    requires !Contested(s, s.actors[id].key, s.actors[id].state.lease.sequence)
    ensures Debtless(DoGiveUp(s, id), s.actors[id].key)
  {
    var a := s.actors[id];
    forall j | j in s.actors && Owes(DoGiveUp(s, id), j) ensures s.actors[j].key != a.key {
      assert Owes(s, j) && ActorOk(cfg, s, j);
      DebtorMarks(cfg, s, j);
      if s.actors[j].key == a.key {
        SequenceHasOneActor(cfg, s, id, j, a.key, a.state.lease.sequence);
      }
    }
  }

  /** Uncontested, it speaks for what its release found in the store, or an older grant. */
  lemma OutlivingForgetterBreaks(cfg: Config, s: System, id: nat)
    requires Inv(cfg, s) && GivesBack(s, id) && CanReplay(s.actors[id].state, s.now) && 0 < cfg.maxLeaseMs
    requires !Contested(s, s.actors[id].key, s.actors[id].state.lease.sequence)
    requires Stored(s.store, s.actors[id].key).expiresAt < s.actors[id].state.lease.expiresAt
    requires Stored(s.store, s.actors[id].key).sequence < MAX_FENCING_SEQUENCE
    ensures Breakable(cfg, DoGiveUp(s, id))
  {
    var a := s.actors[id];
    GiveUpKeeps(cfg, s, id);
    ForgetterSpeaks(s, id);
    ForgetterIsDebtless(cfg, s, id);
    assert ActorOk(cfg, s, id) && PendingOk(s, id, a, a.waiting.value);
    OutlivingVoiceBreaks(cfg, DoGiveUp(s, id), id);
  }

  lemma ContestedForgetterBreaks(cfg: Config, s: System, id: nat, other: nat)
    requires Inv(cfg, s) && GivesBack(s, id) && CanReplay(s.actors[id].state, s.now) && 0 < cfg.maxLeaseMs
    requires Claims(s, s.actors[id].key, other) && other != s.actors[id].state.lease.sequence
    ensures Breakable(cfg, DoGiveUp(s, id))
  {
    GiveUpKeeps(cfg, s, id);
    ForgetterSpeaks(s, id);
    ClaimStays(s, id, s.actors[id].key, other);
    ContestedBreaks(cfg, DoGiveUp(s, id), id, other);
  }

  /** An actor that forgets a release replays what its client gave back. */
  lemma ForgettingBreaks(cfg: Config, s: System, id: nat)
    requires Inv(cfg, s) && ForgetsRelease(s, id) && 0 < cfg.maxLeaseMs
    requires Stored(s.store, s.actors[id].key).sequence < MAX_FENCING_SEQUENCE
    ensures Breakable(cfg, DoGiveUp(s, id))
  {
    var q := s.actors[id].state.lease.sequence;
    if Contested(s, s.actors[id].key, q) {
      var other :| other != q && Claims(s, s.actors[id].key, other);
      ContestedForgetterBreaks(cfg, s, id, other);
    } else {
      OutlivingForgetterBreaks(cfg, s, id);
    }
  }

  /** What a debt finds in the store: a lease that ends before the promise. */
  lemma DebtOutlives(cfg: Config, s: System, id: nat)
    requires Inv(cfg, s) && AllBacked(s) && Owes(s, id)
    ensures var m := s.actors[id].waiting.value;
            var q := m.candidate.lease.sequence;
            && m.key == s.actors[id].key && Promised(s, m.key, q) && q <= Stored(s.store, m.key).sequence
            && Stored(s.store, m.key).expiresAt < s.promises[(m.key, q)].expiresAt
  {
    var a := s.actors[id];
    assert ActorOk(cfg, s, id) && PendingOk(s, id, a, a.waiting.value);
    assert DebtOk(s, id) && RowOk(s, a.key);
  }

  /** A key has one debtor at most. */
  lemma DebtorIsAlone(cfg: Config, s: System, id: nat, other: nat)
    requires Inv(cfg, s) && AllBacked(s) && Owes(s, id) && Owes(s, other) && s.actors[id].key == s.actors[other].key
    ensures other == id
  {
    assert ActorOk(cfg, s, id) && ActorOk(cfg, s, other);
    DebtorMarks(cfg, s, id);
    DebtorMarks(cfg, s, other);
    SequenceHasOneActor(cfg, s, id, other, s.actors[id].key, AnsweredEntry(s, id).1);
  }

  lemma LosingDebtorLeavesNoDebt(cfg: Config, s: System, s': System, id: nat)
    requires Inv(cfg, s) && AllBacked(s) && Owes(s, id)
    requires s'.promises == s.promises && s'.now == s.now && !Unanswered(s', id)
    requires forall j | j in s'.actors && j != id :: j in s.actors && s'.actors[j] == s.actors[j]
    ensures Debtless(s', s.actors[id].key)
  {
    forall j | j in s'.actors && Owes(s', j) ensures s'.actors[j].key != s.actors[id].key {
      assert Owes(s, j);
      if s.actors[j].key == s.actors[id].key {
        DebtorIsAlone(cfg, s, id, j);
      }
    }
  }

  /** A debtor that gives up or dies leaves its client with more than the store has. */
  lemma LosingDebtorBreaks(cfg: Config, s: System, e: Event, id: nat)
    requires Inv(cfg, s) && AllBacked(s) && Owes(s, id) && (e == GiveUp(id) || e == Crash(id))
    requires 0 < cfg.maxLeaseMs && Stored(s.store, s.actors[id].key).sequence < MAX_FENCING_SEQUENCE
    ensures Breakable(cfg, Next(cfg, s, e))
  {
    NextKeeps(cfg, s, e);
    DebtOutlives(cfg, s, id);
    LosingDebtorLeavesNoDebt(cfg, s, Next(cfg, s, e), id);
    OutlivingBreaks(cfg, Next(cfg, s, e), s.actors[id].key, s.actors[id].waiting.value.candidate.lease.sequence);
  }

  lemma UnawaitedStaysDebtless(cfg: Config, s: System, m: Message)
    requires Lands(cfg, s, m) && !m.request.Acquire? && !Awaited(s, m) && Debtless(s, m.key)
    ensures Debtless(DoDeliver(cfg, s, m), m.key)
  {
    var s' := DoDeliver(cfg, s, m);
    assert forall id | id in s'.actors && Owes(s', id) :: Owes(s, id);
  }

  lemma UnawaitedLeavesNoDebt(cfg: Config, s: System, m: Message)
    requires Inv(cfg, s) && AllBacked(s) && Lands(cfg, s, m) && !m.request.Acquire? && !Awaited(s, m)
    ensures Inv(cfg, DoDeliver(cfg, s, m)) && Debtless(DoDeliver(cfg, s, m), m.key)
  {
    DeliverKeeps(cfg, s, m);
    OwnersLandingFindsNoDebt(cfg, s, m);
    UnawaitedStaysDebtless(cfg, s, m);
  }

  /** A renewal that nobody waits for cuts a promise. */
  lemma UnawaitedCutBreaks(cfg: Config, s: System, m: Message)
    requires Inv(cfg, s) && AllBacked(s) && Lands(cfg, s, m) && !Awaited(s, m) && CutsPromise(s, m)
    requires 0 < cfg.maxLeaseMs && Stored(s.store, m.key).sequence < MAX_FENCING_SEQUENCE
    ensures Breakable(cfg, DoDeliver(cfg, s, m))
  {
    LandEffect(cfg, s, m, m.key);
    OwnersLandingFinds(cfg, s, m);
    UnawaitedLeavesNoDebt(cfg, s, m);
    OutlivingBreaks(cfg, DoDeliver(cfg, s, m), m.key, m.candidate.lease.sequence);
  }

  lemma UnawaitedMovesNoActor(cfg: Config, s: System, m: Message)
    requires !Awaited(s, m)
    ensures DoDeliver(cfg, s, m).actors == s.actors && DoDeliver(cfg, s, m).now == s.now
  {
  }

  lemma SameActorSpeaks(s: System, s': System, id: nat)
    requires id in s.actors && s'.actors == s.actors && s'.now == s.now
    requires s.actors[id].Running? && CanReplay(s.actors[id].state, s.now) && !Unanswered(s, id)
    ensures Speaks(s', id) && (s.actors[id].landed ==> s.actors[id].waiting.None?)
  {
  }

  /** The replayer of what a landing frees is its sender, which waits for no answer. */
  lemma ReplayerOfFreed(cfg: Config, s: System, m: Message) returns (id: nat)
    requires Inv(cfg, s) && AllBacked(s) && Lands(cfg, s, m) && m.request.Release? && !Awaited(s, m)
    requires Replayable(s, m.key, m.candidate.lease.sequence)
    ensures var s' := DoDeliver(cfg, s, m);
            && Speaks(s', id) && s'.actors[id].key == m.key
            && Spoken(s'.actors[id]).sequence == m.candidate.lease.sequence && 0 < Spoken(s'.actors[id]).expiresAt
  {
    OwnersLandingFinds(cfg, s, m);
    id :| id in s.actors && s.actors[id].Running? && s.actors[id].key == m.key
          && CanReplay(s.actors[id].state, s.now) && s.actors[id].state.lease.sequence == m.candidate.lease.sequence;
    LandingIsOwners(cfg, s, m, id);
    UnawaitedMovesNoActor(cfg, s, m);
    SameActorSpeaks(s, DoDeliver(cfg, s, m), id);
  }

  lemma FreedRow(cfg: Config, s: System, m: Message)
    requires Inv(cfg, s) && Lands(cfg, s, m) && m.request.Release?
    ensures var lease := Stored(DoDeliver(cfg, s, m).store, m.key);
            lease.expiresAt == 0 && lease.sequence == m.candidate.lease.sequence == Stored(s.store, m.key).sequence
  {
    LandEffect(cfg, s, m, m.key);
    assert MessageOk(cfg, s, m);
  }

  /** A release that nobody waits for frees a lease under an actor that still replays it. */
  lemma UnawaitedReleaseBreaks(cfg: Config, s: System, m: Message)
    requires Inv(cfg, s) && AllBacked(s) && Lands(cfg, s, m) && m.request.Release? && !Awaited(s, m)
    requires Replayable(s, m.key, m.candidate.lease.sequence)
    requires 0 < cfg.maxLeaseMs && Stored(s.store, m.key).sequence < MAX_FENCING_SEQUENCE
    ensures Breakable(cfg, DoDeliver(cfg, s, m))
  {
    var id := ReplayerOfFreed(cfg, s, m);
    FreedRow(cfg, s, m);
    UnawaitedLeavesNoDebt(cfg, s, m);
    OutlivingVoiceBreaks(cfg, DoDeliver(cfg, s, m), id);
  }

  /** While a debt is open, a commit of the key that lands alive leaves two clients with the section. */
  lemma LandingDuringDebtBreaks(cfg: Config, s: System, m: Message, id: nat)
    requires Inv(cfg, s) && AllBacked(s) && id in s.actors && Owes(s, id) && s.actors[id].key == m.key
    requires Lands(cfg, s, m) && !LandsDead(s, m)
    ensures !Exclusive(DoDeliver(cfg, s, m))
  {
    var q := AnsweredEntry(s, id).1;
    DebtorMarks(cfg, s, id);
    assert ActorOk(cfg, s, id);
    if m.request.Acquire? {
      AcquireFindsExpired(cfg, s, m);
      assert Promised(DoDeliver(cfg, s, m), m.key, q);
      assert Promised(DoDeliver(cfg, s, m), m.key, m.candidate.lease.sequence);
    } else {
      OwnersLandingFindsNoDebt(cfg, s, m);
    }
  }

  lemma HarmfulLandingBreaks(cfg: Config, s: System, m: Message)
    requires Inv(cfg, s) && AllBacked(s) && !HarmlessStep(cfg, s, Deliver(m))
    requires 0 < cfg.maxLeaseMs && Stored(s.store, m.key).sequence < MAX_FENCING_SEQUENCE
    ensures Breakable(cfg, DoDeliver(cfg, s, m))
  {
    if Debtless(s, m.key) && CutsPromise(s, m) {
      UnawaitedCutBreaks(cfg, s, m);
    } else if Debtless(s, m.key) {
      UnawaitedReleaseBreaks(cfg, s, m);
    } else {
      var id :| id in s.actors && Owes(s, id) && s.actors[id].key == m.key;
      LandingDuringDebtBreaks(cfg, s, m, id);
      BreaksNow(cfg, DoDeliver(cfg, s, m));
    }
  }

  /** The key that a step is about. */
  function KeyOf(s: System, e: Event): Key
    requires e.Deliver? || e.Crash? || e.GiveUp?
    requires !e.Deliver? ==> e.id in s.actors
  {
    if e.Deliver? then e.message.key else s.actors[e.id].key
  }

  lemma HarmfulStepBreaks(cfg: Config, s: System, e: Event)
    requires Inv(cfg, s) && AllBacked(s) && !HarmlessStep(cfg, s, e)
    requires 0 < cfg.maxLeaseMs && Stored(s.store, KeyOf(s, e)).sequence < MAX_FENCING_SEQUENCE
    ensures Breakable(cfg, Next(cfg, s, e))
  {
    if e.Deliver? {
      HarmfulLandingBreaks(cfg, s, e.message);
    } else if Owes(s, e.id) {
      LosingDebtorBreaks(cfg, s, e, e.id);
    } else {
      ForgettingBreaks(cfg, s, e.id);
    }
  }

  /**
   * The exact boundary: below the sequence cap, a step leaves every harmless continuation exclusive if and
   * only if it is harmless. So losing the answer to an acquire or an extension never matters; losing that to
   * a shortening renewal always does, and losing that to a release does exactly when its actor lives on to
   * replay the grant beside another's or beyond what the store holds.
   */
  lemma HarmlessBoundary(cfg: Config, s: System, e: Event)
    requires Inv(cfg, s) && AllBacked(s) && 0 < cfg.maxLeaseMs
    requires (e.Deliver? || ((e.GiveUp? || e.Crash?) && e.id in s.actors)) ==>
               Stored(s.store, KeyOf(s, e)).sequence < MAX_FENCING_SEQUENCE
    ensures HarmlessStep(cfg, s, e) <==> StaysExclusive(cfg, Next(cfg, s, e))
  {
    var s' := Next(cfg, s, e);
    if HarmlessStep(cfg, s, e) {
      NextKeeps(cfg, s, e);
      NextBacks(cfg, s, e);
      forall events | HarmlessRun(cfg, s', events) ensures Exclusive(Run(cfg, s', events)) {
        RunBacks(cfg, s', events);
      }
    } else {
      HarmfulStepBreaks(cfg, s, e);
      assert Breakable(cfg, s');
    }
  }
}
