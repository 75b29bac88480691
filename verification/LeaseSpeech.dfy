/** Calls, answers and giving up keep every claim backed. */
module LeaseSpeech {
  import opened DurableStore
  import opened LeaseActor
  import opened LeaseProtocol
  import opened LeaseInvariant
  import opened LeaseClaims

  /** The actor has made, renewed or given back the grant `sequence`, and may yet say so. */
  predicate Marks(s: System, id: nat, key: Key, sequence: nat) {
    && id in s.actors && s.actors[id].Running? && s.actors[id].key == key
    && ((Unanswered(s, id) && s.actors[id].waiting.value.candidate.lease.sequence == sequence)
        || (IsOwnLive(s.actors[id].state, s.now) && s.actors[id].state.lease.sequence == sequence))
  }

  /** Then it is the grant's owner. */
  lemma MarkIsMint(cfg: Config, s: System, id: nat, key: Key, sequence: nat)
    requires Inv(cfg, s) && Marks(s, id, key, sequence)
    ensures 0 < sequence <= |MintsOf(s, key)| && MintsOf(s, key)[sequence - 1].ownerEpoch == EpochOf(s.actors[id])
  {
    var a := s.actors[id];
    assert ActorOk(cfg, s, id);
    if Unanswered(s, id) && a.waiting.value.candidate.lease.sequence == sequence {
      assert PendingOk(s, id, a, a.waiting.value) && MessageOk(cfg, s, a.waiting.value);
    }
  }

  lemma SequenceHasOneActor(cfg: Config, s: System, id: nat, other: nat, key: Key, sequence: nat)
    requires Inv(cfg, s) && Marks(s, id, key, sequence) && Marks(s, other, key, sequence)
    ensures other == id
  {
    MarkIsMint(cfg, s, id, key, sequence);
    MarkIsMint(cfg, s, other, key, sequence);
  }

  /** The owner of the lease that a renewal or release replaces is its sender, whose cache is up to date. */
  lemma LandingIsOwners(cfg: Config, s: System, m: Message, id: nat)
    requires Inv(cfg, s) && Lands(cfg, s, m) && !m.request.Acquire?
    requires Marks(s, id, m.key, Stored(s.store, m.key).sequence)
    ensures id == m.sender && !Unanswered(s, id) && s.actors[id].state.version == Version(s.store, m.key)
  {
    MarkIsMint(cfg, s, id, m.key, Stored(s.store, m.key).sequence);
    assert ActorOk(cfg, s, id) && MessageOk(cfg, s, m);
    assert IsOwn(s.actors[id], id, m);
  }

  lemma SpeakerMarks(s: System, id: nat)
    requires Speaks(s, id)
    ensures Marks(s, id, s.actors[id].key, Spoken(s.actors[id]).sequence)
  {
  }

  lemma DebtorMarks(cfg: Config, s: System, id: nat)
    requires Inv(cfg, s) && Owes(s, id)
    ensures var m := s.actors[id].waiting.value;
            Marks(s, id, m.key, m.candidate.lease.sequence) && Claims(s, m.key, m.candidate.lease.sequence)
  {
    assert ActorOk(cfg, s, id);
  }

  /** A debt lasts as long as its promise runs and its actor is not told. */
  lemma OwedStays(s: System, s': System, key: Key, q: nat)
    requires Owed(s, key, q) && Promised(s', key, q) && s'.promises[(key, q)] == s.promises[(key, q)]
    requires forall id | IsDebtor(s, id, key, q) :: id in s'.actors && s'.actors[id] == s.actors[id]
    ensures Owed(s', key, q)
  {
    var id :| IsDebtor(s, id, key, q);
    assert IsDebtor(s', id, key, q);
  }

  /** Quiet steps: no row and no promise moves, debtors stay, and nobody comes to hold or to await anything new. */

  ghost predicate SameVoice(s: System, s': System, id: nat)
    requires id in s'.actors && s'.actors[id].Running?
  {
    && id in s.actors && s.actors[id].Running? && s'.actors[id].key == s.actors[id].key
    && s'.actors[id].state == s.actors[id].state
    && Unanswered(s', id) == Unanswered(s, id)
    && (Unanswered(s', id) ==> s'.actors[id].waiting == s.actors[id].waiting)
  }

  ghost predicate QuietStep(s: System, s': System) {
    && s'.store.objects == s.store.objects && s.now <= s'.now && s'.promises == s.promises
    && (forall id | Owes(s, id) :: id in s'.actors && s'.actors[id] == s.actors[id])
    && (forall id | id in s'.actors && s'.actors[id].Running?
          && (Unanswered(s', id) || IsOwnLive(s'.actors[id].state, s'.now)) :: SameVoice(s, s', id))
  }

  lemma QuietStepClaims(s: System, s': System)
    requires QuietStep(s, s')
    ensures ClaimsNothingNew(s, s')
  {
    forall id | Speaks(s', id) ensures Claims(s, s'.actors[id].key, Spoken(s'.actors[id]).sequence) {
      assert SameVoice(s, s', id);
      assert Voices(s, id, s'.actors[id].key, Spoken(s'.actors[id]).sequence);
    }
  }

  lemma QuietStepCovers(s: System, s': System, key: Key, q: nat)
    requires AllBacked(s) && QuietStep(s, s')
    ensures Covered(s', key, q)
  {
    assert Covered(s, key, q);
    if Promised(s', key, q) && Owed(s, key, q) {
      OwedStays(s, s', key, q);
    }
  }

  lemma QuietStepVoice(s: System, s': System, id: nat)
    requires AllBacked(s) && QuietStep(s, s')
    ensures DebtOk(s', id) && VoiceOk(s', id)
    ensures id in s'.actors && s'.actors[id].Running? ==> OnlyRepeats(s', id)
  {
    assert DebtOk(s, id) && VoiceOk(s, id);
    if id in s'.actors && s'.actors[id].Running?
       && (Unanswered(s', id) || IsOwnLive(s'.actors[id].state, s'.now)) {
      assert SameVoice(s, s', id) && OnlyRepeats(s, id);
    }
  }

  /** A message that was backed stays so while its row and its promise stand and nobody claims anything new. */
  lemma MessageStaysBacked(s: System, s': System, m: Message)
    requires MessageBacked(s, m) && ClaimsNothingNew(s, s')
    requires s'.store.objects == s.store.objects && s'.promises == s.promises
    ensures MessageBacked(s', m)
  {
    forall q | Claims(s', m.key, q) ensures Claims(s, m.key, q) {
      ClaimsShrink(s, s', m.key, q);
    }
  }

  lemma QuietStepBacks(s: System, s': System)
    requires AllBacked(s) && QuietStep(s, s')
    requires forall m | m in s'.wire && m !in s.wire :: MessageBacked(s, m)
    ensures AllBacked(s')
  {
    QuietStepClaims(s, s');
    SingleStays(s, s');
    forall key, q ensures Covered(s', key, q) {
      QuietStepCovers(s, s', key, q);
    }
    forall id ensures DebtOk(s', id) && VoiceOk(s', id) {
      QuietStepVoice(s, s', id);
    }
    forall id | id in s'.actors && s'.actors[id].Running? ensures OnlyRepeats(s', id) {
      QuietStepVoice(s, s', id);
    }
    forall m | m in s'.wire ensures MessageBacked(s', m) {
      MessageStaysBacked(s, s', m);
    }
  }

  /** Told again from the cache, a client is told what it was told before. */
  lemma TellFrame(s: System, id: nat)
    requires AllBacked(s) && Ready(s, id) && CanReplay(s.actors[id].state, s.now)
    ensures var a := s.actors[id];
            var entry := (a.key, a.state.lease.sequence);
            entry in s.promises
            && Tell(s, a.key, a.state).promises == s.promises[entry := s.promises[entry].(givenBack := false)]
  {
    assert OnlyRepeats(s, id);
  }

  lemma TellClaims(s: System, id: nat)
    requires AllBacked(s) && Ready(s, id) && CanReplay(s.actors[id].state, s.now)
    ensures ClaimsNothingNew(s, Tell(s, s.actors[id].key, s.actors[id].state))
  {
    var a := s.actors[id];
    var s' := Tell(s, a.key, a.state);
    assert Voices(s, id, a.key, a.state.lease.sequence);
    forall j | Speaks(s', j) ensures Claims(s, s'.actors[j].key, Spoken(s'.actors[j]).sequence) {
      assert Voices(s, j, s.actors[j].key, Spoken(s.actors[j]).sequence);
    }
  }

  lemma TellCovers(s: System, id: nat, key: Key, q: nat)
    requires AllBacked(s) && Ready(s, id) && CanReplay(s.actors[id].state, s.now)
    ensures Covered(Tell(s, s.actors[id].key, s.actors[id].state), key, q)
  {
    var s' := Tell(s, s.actors[id].key, s.actors[id].state);
    TellFrame(s, id);
    assert Covered(s, key, q) && VoiceOk(s, id) && Speaks(s, id);
    if (key, q) != (s.actors[id].key, s.actors[id].state.lease.sequence) && Promised(s', key, q) && Owed(s, key, q) {
      OwedStays(s, s', key, q);
    }
  }

  lemma TellVoice(cfg: Config, s: System, id: nat, other: nat)
    requires Inv(cfg, s) && AllBacked(s) && Ready(s, id) && CanReplay(s.actors[id].state, s.now)
    ensures var s' := Tell(s, s.actors[id].key, s.actors[id].state);
            && (Owes(s', other) ==> Owes(s, other)) && DebtOk(s', other) && VoiceOk(s', other)
            && (other in s'.actors && s'.actors[other].Running? ==> OnlyRepeats(s', other))
  {
    var a := s.actors[id];
    var s' := Tell(s, a.key, a.state);
    TellFrame(s, id);
    assert DebtOk(s, other) && VoiceOk(s, other);
    if other in s.actors && s.actors[other].Running? {
      assert OnlyRepeats(s, other) && ActorOk(cfg, s, other);
      if Marks(s, other, a.key, a.state.lease.sequence) {
        SequenceHasOneActor(cfg, s, id, other, a.key, a.state.lease.sequence);
      }
    }
  }

  lemma TellMessage(cfg: Config, s: System, id: nat, m: Message)
    requires Inv(cfg, s) && AllBacked(s) && Ready(s, id) && CanReplay(s.actors[id].state, s.now) && m in s.wire
    ensures MessageBacked(Tell(s, s.actors[id].key, s.actors[id].state), m)
  {
    var s' := Tell(s, s.actors[id].key, s.actors[id].state);
    TellFrame(s, id);
    TellClaims(s, id);
    assert MessageBacked(s, m);
    forall q | Claims(s', m.key, q) ensures Claims(s, m.key, q) {
      ClaimsShrink(s, s', m.key, q);
    }
  }

  lemma TellBacks(cfg: Config, s: System, id: nat)
    requires Inv(cfg, s) && AllBacked(s) && Ready(s, id) && CanReplay(s.actors[id].state, s.now)
    ensures AllBacked(Tell(s, s.actors[id].key, s.actors[id].state))
  {
    var s' := Tell(s, s.actors[id].key, s.actors[id].state);
    TellClaims(s, id);
    SingleStays(s, s');
    forall key, q ensures Covered(s', key, q) {
      TellCovers(s, id, key, q);
    }
    forall other ensures DebtOk(s', other) && VoiceOk(s', other) {
      TellVoice(cfg, s, id, other);
    }
    forall other | other in s'.actors && s'.actors[other].Running? ensures OnlyRepeats(s', other) {
      TellVoice(cfg, s, id, other);
    }
    forall m | m in s'.wire ensures MessageBacked(s', m) {
      TellMessage(cfg, s, id, m);
    }
  }

  lemma ExpiringBacks(s: System, id: nat, state: State)
    requires AllBacked(s) && Ready(s, id) && state.lease.holder.None?
    ensures AllBacked(s.(actors := s.actors[id := s.actors[id].(state := state)]))
  {
    QuietStepBacks(s, s.(actors := s.actors[id := s.actors[id].(state := state)]));
  }

  /** An answer from the cache expires it, and repeats what was told if it grants. */
  lemma AnswerBacks(cfg: Config, s: System, id: nat, reply: LeaseActor.Reply, state: State)
    requires Inv(cfg, s) && AllBacked(s) && Ready(s, id)
    requires Respects(s.actors[id].state, Answer(reply, state), s.now)
    ensures AllBacked(Answered(s, id, reply, state))
  {
    if state.lease.holder.None? {
      ExpiringBacks(s, id, state);
    } else {
      assert state == s.actors[id].state;
      assert s.actors[id := s.actors[id].(state := state)] == s.actors;
      if reply.Granted? {
        TellBacks(cfg, s, id);
      }
    }
  }

  /** A renewal or release is prepared from an up-to-date cache, or cannot land. */
  lemma CandidateIsBacked(cfg: Config, s: System, id: nat, m: Message)
    requires Inv(cfg, s) && AllBacked(s) && Ready(s, id)
    requires m.key == s.actors[id].key && m.candidate.version == s.actors[id].state.version
    requires !m.request.Acquire? ==> IsOwnLive(s.actors[id].state, s.now)
    ensures MessageBacked(s, m)
  {
    var a := s.actors[id];
    assert ActorOk(cfg, s, id) && OnlyRepeats(s, id);
    if !m.request.Acquire? && m.candidate.version == Version(s.store, m.key) {
      assert a.state.lease == Stored(s.store, m.key);
      assert Claims(s, m.key, a.state.lease.sequence);
    }
  }

  lemma SendBacks(cfg: Config, s: System, id: nat, m: Message)
    requires Inv(cfg, s) && AllBacked(s) && Ready(s, id)
    requires m.key == s.actors[id].key && m.candidate.version == s.actors[id].state.version
    requires !m.request.Acquire? ==> IsOwnLive(s.actors[id].state, s.now)
    ensures AllBacked(Sent(s, id, m))
  {
    CandidateIsBacked(cfg, s, id, m);
    QuietStepBacks(s, Sent(s, id, m));
  }

  lemma CallBacks(cfg: Config, s: System, id: nat, request: Request, lag: Lag)
    requires Inv(cfg, s) && AllBacked(s)
    ensures AllBacked(DoCall(cfg, s, id, request, lag))
  {
    if Ready(s, id) {
      OutcomeRespects(cfg, s, id, request, lag);
      match OutcomeOf(cfg, s, id, request, lag)
      case Answer(reply, state) => AnswerBacks(cfg, s, id, reply, state);
      case Persist(candidate) =>
        CandidateIsMadeFromCache(s.actors[id].state, request, cfg.maxLeaseMs, ReadingsAt(s.now, lag));
        SendBacks(cfg, s, id, MessageOf(s, id, request, lag, candidate));
    }
  }

  /** The answer to a landed commit: the actor says what it might say before, or falls silent. */

  function AnsweredEntry(s: System, id: nat): (Key, nat)
    requires Unanswered(s, id)
  {
    var m := s.actors[id].waiting.value;
    (m.key, m.candidate.lease.sequence)
  }

  /** An answer is about one promise. */
  lemma ReplyFrame(s: System, id: nat, entry: (Key, nat))
    requires Unanswered(s, id) && entry != AnsweredEntry(s, id)
    ensures var s' := DoReply(s, id);
            && (entry in s'.promises <==> entry in s.promises)
            && (entry in s.promises ==> s'.promises[entry] == s.promises[entry])
  {
  }

  lemma ReplyPromises(cfg: Config, s: System, id: nat, key: Key, q: nat)
    requires Inv(cfg, s) && Unanswered(s, id) && Promised(DoReply(s, id), key, q)
    ensures Claims(s, key, q)
  {
    assert ActorOk(cfg, s, id);
    if (key, q) == AnsweredEntry(s, id) {
      assert Voices(s, id, key, q);
    } else {
      ReplyFrame(s, id, (key, q));
    }
  }

  lemma ReplyVoices(cfg: Config, s: System, id: nat, other: nat)
    requires Inv(cfg, s) && Unanswered(s, id) && Speaks(DoReply(s, id), other)
    ensures Speaks(s, other) && Spoken(DoReply(s, id).actors[other]) == Spoken(s.actors[other])
    ensures DoReply(s, id).actors[other].key == s.actors[other].key
  {
    assert ActorOk(cfg, s, id);
  }

  lemma ReplyClaims(cfg: Config, s: System, id: nat)
    requires Inv(cfg, s) && Unanswered(s, id)
    ensures ClaimsNothingNew(s, DoReply(s, id))
  {
    var s' := DoReply(s, id);
    forall key: Key, q: nat | Promised(s', key, q) ensures Claims(s, key, q) {
      ReplyPromises(cfg, s, id, key, q);
    }
    forall j | Speaks(s', j) ensures Claims(s, s'.actors[j].key, Spoken(s'.actors[j]).sequence) {
      ReplyVoices(cfg, s, id, j);
      assert Voices(s, j, s'.actors[j].key, Spoken(s'.actors[j]).sequence);
    }
  }

  lemma ReplyCovers(cfg: Config, s: System, id: nat, key: Key, q: nat)
    requires Inv(cfg, s) && AllBacked(s) && Unanswered(s, id)
    ensures Covered(DoReply(s, id), key, q)
  {
    var s' := DoReply(s, id);
    assert ActorOk(cfg, s, id) && Covered(s, key, q);
    if (key, q) != AnsweredEntry(s, id) {
      ReplyFrame(s, id, (key, q));
      if Promised(s', key, q) && Owed(s, key, q) {
        OwedStays(s, s', key, q);
      }
    }
  }

  /** What an answer leaves to the actor that gets it. */
  lemma ReplyOwnVoice(cfg: Config, s: System, id: nat)
    requires Inv(cfg, s) && AllBacked(s) && Unanswered(s, id)
    ensures !Owes(DoReply(s, id), id) && VoiceOk(DoReply(s, id), id) && OnlyRepeats(DoReply(s, id), id)
  {
    assert ActorOk(cfg, s, id) && MessageOk(cfg, s, s.actors[id].waiting.value);
  }

  /** Answers and caches of other actors are about other promises. */
  lemma OtherEntriesDiffer(cfg: Config, s: System, id: nat, other: nat)
    requires Inv(cfg, s) && Unanswered(s, id) && other != id && other in s.actors && s.actors[other].Running?
    ensures Unanswered(s, other) ==> AnsweredEntry(s, other) != AnsweredEntry(s, id)
    ensures IsOwnLive(s.actors[other].state, s.now) ==>
              (s.actors[other].key, s.actors[other].state.lease.sequence) != AnsweredEntry(s, id)
  {
    var entry := AnsweredEntry(s, id);
    assert ActorOk(cfg, s, id) && ActorOk(cfg, s, other);
    if Marks(s, other, entry.0, entry.1) {
      SequenceHasOneActor(cfg, s, id, other, entry.0, entry.1);
    }
  }

  lemma ReplyOtherDebt(cfg: Config, s: System, id: nat, other: nat)
    requires Inv(cfg, s) && Unanswered(s, id) && other != id && Owes(DoReply(s, id), other)
    ensures Owes(s, other)
  {
    OtherEntriesDiffer(cfg, s, id, other);
    ReplyFrame(s, id, AnsweredEntry(s, other));
  }

  lemma ReplyOtherRepeats(cfg: Config, s: System, id: nat, other: nat)
    requires Inv(cfg, s) && AllBacked(s) && Unanswered(s, id) && other != id
    requires other in s.actors && s.actors[other].Running?
    ensures OnlyRepeats(DoReply(s, id), other)
  {
    var b := s.actors[other];
    assert OnlyRepeats(s, other);
    if IsOwnLive(b.state, s.now) {
      OtherEntriesDiffer(cfg, s, id, other);
      ReplyFrame(s, id, (b.key, b.state.lease.sequence));
    }
  }

  lemma ReplyMovesOneActor(s: System, id: nat, other: nat)
    requires Unanswered(s, id) && other != id && other in s.actors
    ensures var s' := DoReply(s, id);
            s'.store == s.store && s'.now == s.now && other in s'.actors && s'.actors[other] == s.actors[other]
  {
  }

  lemma ReplyOtherDebtOk(cfg: Config, s: System, id: nat, other: nat)
    requires Inv(cfg, s) && AllBacked(s) && Unanswered(s, id) && other != id
    ensures DebtOk(DoReply(s, id), other)
  {
    if Owes(DoReply(s, id), other) {
      ReplyOtherDebt(cfg, s, id, other);
      ReplyMovesOneActor(s, id, other);
      assert DebtOk(s, other);
    }
  }

  lemma ReplyOtherVoice(s: System, id: nat, other: nat)
    requires AllBacked(s) && Unanswered(s, id) && other != id
    ensures VoiceOk(DoReply(s, id), other)
  {
    assert VoiceOk(s, other);
  }

  lemma ReplyMessage(cfg: Config, s: System, id: nat, m: Message)
    requires Inv(cfg, s) && AllBacked(s) && Unanswered(s, id) && m in s.wire
    ensures MessageBacked(DoReply(s, id), m)
  {
    var s' := DoReply(s, id);
    var entry := (m.key, Stored(s.store, m.key).sequence);
    assert ActorOk(cfg, s, id) && MessageOk(cfg, s, m) && MessageBacked(s, m);
    ReplyClaims(cfg, s, id);
    if entry != AnsweredEntry(s, id) {
      ReplyFrame(s, id, entry);
    }
    forall q | Claims(s', m.key, q) ensures Claims(s, m.key, q) {
      ClaimsShrink(s, s', m.key, q);
    }
  }

  lemma ReplyKeepsActor(cfg: Config, s: System, id: nat, j: nat)
    requires Inv(cfg, s) && AllBacked(s) && Unanswered(s, id)
    ensures DebtOk(DoReply(s, id), j) && VoiceOk(DoReply(s, id), j)
    ensures j in DoReply(s, id).actors && DoReply(s, id).actors[j].Running? ==> OnlyRepeats(DoReply(s, id), j)
  {
    if j == id {
      ReplyOwnVoice(cfg, s, id);
    } else {
      ReplyOtherDebtOk(cfg, s, id, j);
      ReplyOtherVoice(s, id, j);
      if j in s.actors && s.actors[j].Running? {
        ReplyOtherRepeats(cfg, s, id, j);
      }
    }
  }

  /** However late, an answer does no harm. */
  lemma ReplyBacks(cfg: Config, s: System, id: nat)
    requires Inv(cfg, s) && AllBacked(s)
    ensures AllBacked(DoReply(s, id))
  {
    if Unanswered(s, id) {
      var s' := DoReply(s, id);
      ReplyClaims(cfg, s, id);
      SingleStays(s, s');
      forall key, q ensures Covered(s', key, q) {
        ReplyCovers(cfg, s, id, key, q);
      }
      forall j
        ensures DebtOk(s', j) && VoiceOk(s', j)
        ensures j in s'.actors && s'.actors[j].Running? ==> OnlyRepeats(s', j)
      {
        ReplyKeepsActor(cfg, s, id, j);
      }
      forall m | m in s'.wire ensures MessageBacked(s', m) {
        ReplyMessage(cfg, s, id, m);
      }
    }
  }

  /** Giving up: what an actor may say now is what it would replay. */

  /** The sequence that the actor would replay is promised, or is one that it gave back. */
  lemma GivenUpClaim(s: System, id: nat)
    requires AllBacked(s) && Unanswered(s, id) && CanReplay(s.actors[id].state, s.now)
    ensures GivesBack(s, id) <==> !Promised(s, s.actors[id].key, s.actors[id].state.lease.sequence)
  {
    assert OnlyRepeats(s, id);
  }

  lemma GiveUpClaims(s: System, id: nat, key: Key, q: nat)
    requires AllBacked(s) && Unanswered(s, id) && Claims(DoGiveUp(s, id), key, q)
    ensures Claims(s, key, q)
            || (GivesBack(s, id) && CanReplay(s.actors[id].state, s.now)
                && key == s.actors[id].key && q == s.actors[id].state.lease.sequence)
  {
    var s' := DoGiveUp(s, id);
    if !Promised(s', key, q) {
      var j :| Voices(s', j, key, q);
      if j == id {
        GivenUpClaim(s, id);
      } else {
        assert Voices(s, j, key, q);
      }
    }
  }

  lemma GiveUpVoice(cfg: Config, s: System, id: nat)
    requires Inv(cfg, s) && AllBacked(s) && Unanswered(s, id) && !Owes(s, id) && !ForgetsRelease(s, id)
    ensures VoiceOk(DoGiveUp(s, id), id)
  {
    var a := s.actors[id];
    var q := a.state.lease.sequence;
    if CanReplay(a.state, s.now) && !GivesBack(s, id) {
      GivenUpClaim(s, id);
      assert Covered(s, a.key, q) && OnlyRepeats(s, id);
      forall j ensures !IsDebtor(s, j, a.key, q) {
        if IsDebtor(s, j, a.key, q) {
          DebtorMarks(cfg, s, j);
          SequenceHasOneActor(cfg, s, j, id, a.key, q);
        }
      }
    }
  }

  lemma GiveUpOtherVoice(s: System, id: nat, other: nat)
    requires AllBacked(s) && Unanswered(s, id) && other != id
    ensures DebtOk(DoGiveUp(s, id), other) && VoiceOk(DoGiveUp(s, id), other)
    ensures other in s.actors && s.actors[other].Running? ==> OnlyRepeats(DoGiveUp(s, id), other)
  {
    assert DebtOk(s, other) && VoiceOk(s, other);
    if other in s.actors && s.actors[other].Running? {
      assert OnlyRepeats(s, other);
    }
  }

  lemma GiveUpMessage(s: System, id: nat, m: Message)
    requires AllBacked(s) && Unanswered(s, id) && !ForgetsRelease(s, id) && m in s.wire
    ensures MessageBacked(DoGiveUp(s, id), m)
  {
    var a := s.actors[id];
    var s' := DoGiveUp(s, id);
    var q := Stored(s.store, m.key).sequence;
    assert MessageBacked(s, m);
    if !m.request.Acquire? && m.candidate.version == Version(s.store, m.key) {
      assert s.now < Stored(s.store, m.key).expiresAt ==> Claims(s, m.key, q);
      forall other | Claims(s', m.key, other) ensures other == q {
        GiveUpClaims(s, id, m.key, other);
      }
    }
  }

  lemma GiveUpSingle(s: System, id: nat)
    requires AllBacked(s) && Unanswered(s, id) && !ForgetsRelease(s, id)
    ensures Single(DoGiveUp(s, id))
  {
    var s' := DoGiveUp(s, id);
    forall key, a, b | Claims(s', key, a) && Claims(s', key, b) ensures a == b {
      GiveUpClaims(s, id, key, a);
      GiveUpClaims(s, id, key, b);
    }
  }

  lemma GiveUpCovers(s: System, id: nat, key: Key, q: nat)
    requires AllBacked(s) && Unanswered(s, id) && !Owes(s, id)
    ensures Covered(DoGiveUp(s, id), key, q)
  {
    assert Covered(s, key, q);
    if Promised(s, key, q) && Owed(s, key, q) {
      OwedStays(s, DoGiveUp(s, id), key, q);
    }
  }

  lemma GiveUpAnswerBacks(cfg: Config, s: System, id: nat)
    requires Inv(cfg, s) && AllBacked(s) && Unanswered(s, id) && !Owes(s, id) && !ForgetsRelease(s, id)
    ensures AllBacked(DoGiveUp(s, id))
  {
    var s' := DoGiveUp(s, id);
    GiveUpSingle(s, id);
    forall key, q ensures Covered(s', key, q) {
      GiveUpCovers(s, id, key, q);
    }
    GiveUpVoice(cfg, s, id);
    assert OnlyRepeats(s, id);
    forall j
      ensures DebtOk(s', j) && VoiceOk(s', j)
      ensures j in s'.actors && s'.actors[j].Running? ==> OnlyRepeats(s', j)
    {
      if j != id {
        GiveUpOtherVoice(s, id, j);
      }
    }
    forall m | m in s'.wire ensures MessageBacked(s', m) {
      GiveUpMessage(s, id, m);
    }
  }

  lemma GiveUpIdleBacks(s: System, id: nat)
    requires AllBacked(s) && !Unanswered(s, id)
    ensures AllBacked(DoGiveUp(s, id))
  {
    QuietStepBacks(s, DoGiveUp(s, id));
  }

  lemma GiveUpBacks(cfg: Config, s: System, id: nat)
    requires Inv(cfg, s) && AllBacked(s) && HarmlessStep(cfg, s, GiveUp(id))
    ensures AllBacked(DoGiveUp(s, id))
  {
    if Unanswered(s, id) {
      GiveUpAnswerBacks(cfg, s, id);
    } else {
      GiveUpIdleBacks(s, id);
    }
  }
}
