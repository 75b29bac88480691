/** Landings that do no harm keep every claim backed. */
module LeaseLanding {
  import opened DurableStore
  import opened LeaseProtocol
  import opened LeaseInvariant
  import opened LeaseClaims
  import opened LeaseSpeech

  /** Landings leave other keys and other actors alone. */

  /** Everything of another key, and what is promised of it, stays. */
  ghost predicate SameKey(s: System, s': System, key: Key) {
    && Stored(s'.store, key) == Stored(s.store, key) && Version(s'.store, key) == Version(s.store, key)
    && (forall q :: (key, q) in s'.promises <==> (key, q) in s.promises)
    && (forall q | (key, q) in s.promises :: s'.promises[(key, q)] == s.promises[(key, q)])
    && (forall id | id in s.actors && s.actors[id].key == key :: id in s'.actors && s'.actors[id] == s.actors[id])
    && (forall id | id in s'.actors && s'.actors[id].key == key :: id in s.actors && s'.actors[id] == s.actors[id])
  }

  lemma OtherKeyStays(cfg: Config, s: System, m: Message, key: Key)
    requires Inv(cfg, s) && Lands(cfg, s, m) && key != m.key
    ensures SameKey(s, DoDeliver(cfg, s, m), key)
  {
    LandEffect(cfg, s, m, key);
    if Awaited(s, m) {
      assert ActorOk(cfg, s, m.sender);
    }
  }

  lemma SameKeyClaims(s: System, s': System, key: Key, q: nat)
    requires SameKey(s, s', key) && s'.now == s.now && Claims(s', key, q)
    ensures Claims(s, key, q)
  {
    if !Promised(s', key, q) {
      var id :| Voices(s', id, key, q);
      assert Voices(s, id, key, q);
    }
  }

  lemma SameKeyCovers(cfg: Config, s: System, s': System, key: Key, q: nat)
    requires Inv(cfg, s) && AllBacked(s) && SameKey(s, s', key) && s'.now == s.now
    ensures Covered(s', key, q)
  {
    assert Covered(s, key, q);
    if Promised(s', key, q) && Owed(s, key, q) {
      forall id | IsDebtor(s, id, key, q) ensures id in s'.actors && s'.actors[id] == s.actors[id] {
        assert ActorOk(cfg, s, id);
      }
      OwedStays(s, s', key, q);
    }
  }

  lemma SameKeyVoice(cfg: Config, s: System, s': System, id: nat)
    requires Inv(cfg, s) && AllBacked(s) && s'.now == s.now && id in s'.actors && SameKey(s, s', s'.actors[id].key)
    ensures DebtOk(s', id) && VoiceOk(s', id) && (s'.actors[id].Running? ==> OnlyRepeats(s', id))
  {
    assert ActorOk(cfg, s, id) && DebtOk(s, id) && VoiceOk(s, id);
    if s.actors[id].Running? {
      assert OnlyRepeats(s, id);
    }
  }

  lemma SameKeyMessage(s: System, s': System, m: Message)
    requires AllBacked(s) && SameKey(s, s', m.key) && s'.now == s.now && m in s.wire
    ensures MessageBacked(s', m)
  {
    assert MessageBacked(s, m);
    forall q | Claims(s', m.key, q) ensures Claims(s, m.key, q) {
      SameKeyClaims(s, s', m.key, q);
    }
  }

  /** What a landing must leave of its own key. */
  ghost predicate KeyBacked(s: System, key: Key) {
    && (forall a, b | Claims(s, key, a) && Claims(s, key, b) :: a == b)
    && (forall q :: Covered(s, key, q))
    && ActorsBacked(s, key)
  }

  ghost predicate ActorsBacked(s: System, key: Key) {
    && (forall id | id in s.actors && s.actors[id].key == key :: DebtOk(s, id) && VoiceOk(s, id))
    && (forall id | id in s.actors && s.actors[id].key == key && s.actors[id].Running? :: OnlyRepeats(s, id))
  }

  /** No message is left that could land on the row as it is now. */
  lemma LandingOutdates(cfg: Config, s: System, m: Message, other: Message)
    requires Inv(cfg, s) && Lands(cfg, s, m) && other in s.wire && other.key == m.key
    ensures MessageBacked(DoDeliver(cfg, s, m), other)
  {
    LandEffect(cfg, s, m, m.key);
    assert MessageOk(cfg, s, other);
  }

  lemma LandingBacks(cfg: Config, s: System, m: Message)
    requires Inv(cfg, s) && AllBacked(s) && Lands(cfg, s, m) && KeyBacked(DoDeliver(cfg, s, m), m.key)
    ensures AllBacked(DoDeliver(cfg, s, m))
  {
    var s' := DoDeliver(cfg, s, m);
    forall key, a, b | Claims(s', key, a) && Claims(s', key, b) ensures a == b {
      if key != m.key {
        OtherKeyStays(cfg, s, m, key);
        SameKeyClaims(s, s', key, a);
        SameKeyClaims(s, s', key, b);
      }
    }
    forall key, q ensures Covered(s', key, q) {
      if key != m.key {
        OtherKeyStays(cfg, s, m, key);
        SameKeyCovers(cfg, s, s', key, q);
      }
    }
    forall id | id in s'.actors
      ensures DebtOk(s', id) && VoiceOk(s', id) && (s'.actors[id].Running? ==> OnlyRepeats(s', id))
    {
      if s'.actors[id].key != m.key {
        OtherKeyStays(cfg, s, m, s'.actors[id].key);
        SameKeyVoice(cfg, s, s', id);
      }
    }
    forall other | other in s'.wire ensures MessageBacked(s', other) {
      if other.key == m.key {
        LandingOutdates(cfg, s, m, other);
      } else {
        OtherKeyStays(cfg, s, m, other.key);
        SameKeyMessage(s, s', other);
      }
    }
  }

  /** An acquire lands on a lease that has expired, so that only a debt can still be a claim. */

  lemma AcquireFindsExpired(cfg: Config, s: System, m: Message)
    requires Inv(cfg, s) && Lands(cfg, s, m) && m.request.Acquire?
    ensures Stored(s.store, m.key).expiresAt <= s.now
    ensures m.candidate.lease.sequence == Stored(s.store, m.key).sequence + 1
    ensures forall id :: !Marks(s, id, m.key, m.candidate.lease.sequence)
  {
    assert MessageOk(cfg, s, m) && RowOk(s, m.key);
    forall id ensures !Marks(s, id, m.key, m.candidate.lease.sequence) {
      if Marks(s, id, m.key, m.candidate.lease.sequence) {
        MarkIsMint(cfg, s, id, m.key, m.candidate.lease.sequence);
      }
    }
  }

  lemma AcquireFindsSilence(cfg: Config, s: System, m: Message, id: nat)
    requires Inv(cfg, s) && AllBacked(s) && Lands(cfg, s, m) && m.request.Acquire?
    requires id in s.actors && s.actors[id].key == m.key
    ensures !Speaks(s, id)
  {
    AcquireFindsExpired(cfg, s, m);
    assert VoiceOk(s, id);
  }

  /** Afterwards a claim is on the new lease, if that is live, or on an open debt. */
  lemma AcquirePromises(cfg: Config, s: System, m: Message, q: nat)
    requires Inv(cfg, s) && AllBacked(s) && Lands(cfg, s, m) && m.request.Acquire?
    requires Promised(DoDeliver(cfg, s, m), m.key, q)
    ensures if q == m.candidate.lease.sequence then !LandsDead(s, m)
            else Promised(s, m.key, q) && Owed(s, m.key, q)
  {
    AcquireFindsExpired(cfg, s, m);
    assert Covered(s, m.key, q);
  }

  lemma AcquireVoices(cfg: Config, s: System, m: Message, id: nat)
    requires Inv(cfg, s) && AllBacked(s) && Lands(cfg, s, m) && m.request.Acquire?
    requires id in s.actors && s.actors[id].key == m.key && Speaks(DoDeliver(cfg, s, m), id)
    ensures Spoken(DoDeliver(cfg, s, m).actors[id]) == m.candidate.lease && !LandsDead(s, m)
  {
    AcquireFindsSilence(cfg, s, m, id);
    assert id == m.sender && Awaited(s, m);
  }

  lemma AcquireClaims(cfg: Config, s: System, m: Message, q: nat)
    requires Inv(cfg, s) && AllBacked(s) && Lands(cfg, s, m) && m.request.Acquire?
    requires Claims(DoDeliver(cfg, s, m), m.key, q)
    ensures if q == m.candidate.lease.sequence then !LandsDead(s, m)
            else Promised(s, m.key, q) && Owed(s, m.key, q)
  {
    var s' := DoDeliver(cfg, s, m);
    if Promised(s', m.key, q) {
      AcquirePromises(cfg, s, m, q);
    } else {
      var id :| Voices(s', id, m.key, q);
      AcquireVoices(cfg, s, m, id);
    }
  }

  lemma AcquireSingle(cfg: Config, s: System, m: Message, a: nat, b: nat)
    requires Inv(cfg, s) && AllBacked(s) && Lands(cfg, s, m) && m.request.Acquire?
    requires LandsDead(s, m) || Debtless(s, m.key)
    requires Claims(DoDeliver(cfg, s, m), m.key, a) && Claims(DoDeliver(cfg, s, m), m.key, b)
    ensures a == b
  {
    AcquireClaims(cfg, s, m, a);
    AcquireClaims(cfg, s, m, b);
    DebtlessOwesNothing(cfg, s, m.key, a);
    DebtlessOwesNothing(cfg, s, m.key, b);
    assert Promised(s, m.key, a) ==> Claims(s, m.key, a);
    assert Promised(s, m.key, b) ==> Claims(s, m.key, b);
  }

  lemma DebtlessOwesNothing(cfg: Config, s: System, key: Key, q: nat)
    requires Inv(cfg, s)
    ensures Debtless(s, key) ==> !Owed(s, key, q)
  {
    if Debtless(s, key) {
      forall id | Owes(s, id) ensures !IsDebtor(s, id, key, q) {
        assert ActorOk(cfg, s, id);
      }
    }
  }

  /** The new lease covers its promise. */
  lemma NewLeaseIsCovered(cfg: Config, s: System, m: Message)
    requires Inv(cfg, s) && Lands(cfg, s, m) && m.request.Acquire?
    ensures Covered(DoDeliver(cfg, s, m), m.key, m.candidate.lease.sequence)
  {
    LandEffect(cfg, s, m, m.key);
  }

  /** An open debt stays open. */
  lemma DebtStaysOpen(cfg: Config, s: System, m: Message, q: nat)
    requires Lands(cfg, s, m) && m.request.Acquire? && q != m.candidate.lease.sequence
    requires Owed(s, m.key, q) && Promised(DoDeliver(cfg, s, m), m.key, q)
    ensures Owed(DoDeliver(cfg, s, m), m.key, q)
  {
    OwedStays(s, DoDeliver(cfg, s, m), m.key, q);
  }

  lemma AcquireCovers(cfg: Config, s: System, m: Message, q: nat)
    requires Inv(cfg, s) && AllBacked(s) && Lands(cfg, s, m) && m.request.Acquire?
    ensures Covered(DoDeliver(cfg, s, m), m.key, q)
  {
    if q == m.candidate.lease.sequence {
      NewLeaseIsCovered(cfg, s, m);
    } else if Promised(DoDeliver(cfg, s, m), m.key, q) {
      AcquirePromises(cfg, s, m, q);
      DebtStaysOpen(cfg, s, m, q);
    }
  }

  /** A fresh grant is one that nobody renews yet. */
  lemma AcquireDebts(cfg: Config, s: System, m: Message, id: nat)
    requires Inv(cfg, s) && Lands(cfg, s, m) && m.request.Acquire? && Owes(DoDeliver(cfg, s, m), id)
    ensures Owes(s, id) && s.actors[id] == DoDeliver(cfg, s, m).actors[id]
  {
    AcquireFindsExpired(cfg, s, m);
    assert ActorOk(cfg, s, id);
    assert !Marks(s, id, m.key, m.candidate.lease.sequence);
  }

  lemma AcquireVoice(cfg: Config, s: System, m: Message, id: nat)
    requires Inv(cfg, s) && AllBacked(s) && Lands(cfg, s, m) && m.request.Acquire?
    requires LandsDead(s, m) || Debtless(s, m.key)
    requires id in s.actors && s.actors[id].key == m.key
    ensures DebtOk(DoDeliver(cfg, s, m), id) && VoiceOk(DoDeliver(cfg, s, m), id)
  {
    LandEffect(cfg, s, m, m.key);
    AcquireFindsSilence(cfg, s, m, id);
    if Owes(DoDeliver(cfg, s, m), id) {
      AcquireDebts(cfg, s, m, id);
      assert ActorOk(cfg, s, id);
    }
  }

  lemma AcquireRepeats(cfg: Config, s: System, m: Message, id: nat)
    requires Inv(cfg, s) && AllBacked(s) && Lands(cfg, s, m) && m.request.Acquire?
    requires id in s.actors && s.actors[id].key == m.key && s.actors[id].Running?
    ensures OnlyRepeats(DoDeliver(cfg, s, m), id)
  {
    LandEffect(cfg, s, m, m.key);
    AcquireFindsExpired(cfg, s, m);
    assert OnlyRepeats(s, id) && ActorOk(cfg, s, id) && MessageOk(cfg, s, m);
    assert !Marks(s, id, m.key, m.candidate.lease.sequence);
  }

  lemma AcquireBacksActors(cfg: Config, s: System, m: Message)
    requires Inv(cfg, s) && AllBacked(s) && Lands(cfg, s, m) && m.request.Acquire?
    requires LandsDead(s, m) || Debtless(s, m.key)
    ensures ActorsBacked(DoDeliver(cfg, s, m), m.key)
  {
    var s' := DoDeliver(cfg, s, m);
    forall id | id in s'.actors && s'.actors[id].key == m.key ensures DebtOk(s', id) && VoiceOk(s', id) {
      AcquireVoice(cfg, s, m, id);
    }
    forall id | id in s'.actors && s'.actors[id].key == m.key && s'.actors[id].Running? ensures OnlyRepeats(s', id) {
      AcquireRepeats(cfg, s, m, id);
    }
  }

  lemma AcquireBacksKey(cfg: Config, s: System, m: Message)
    requires Inv(cfg, s) && AllBacked(s) && Lands(cfg, s, m) && m.request.Acquire?
    requires LandsDead(s, m) || Debtless(s, m.key)
    ensures KeyBacked(DoDeliver(cfg, s, m), m.key)
  {
    var s' := DoDeliver(cfg, s, m);
    forall a, b | Claims(s', m.key, a) && Claims(s', m.key, b) ensures a == b {
      AcquireSingle(cfg, s, m, a, b);
    }
    forall q ensures Covered(s', m.key, q) {
      AcquireCovers(cfg, s, m, q);
    }
    AcquireBacksActors(cfg, s, m);
  }

  /** A renewal or a release lands on the only lease that is claimed, and its sender is the only one to speak for it. */

  lemma OwnersLandingFinds(cfg: Config, s: System, m: Message)
    requires Inv(cfg, s) && AllBacked(s) && Lands(cfg, s, m) && !m.request.Acquire?
    ensures var lease := Stored(s.store, m.key);
            var entry := (m.key, lease.sequence);
            && m.candidate.lease.sequence == lease.sequence
            && entry in s.promises && s.promises[entry].expiresAt == lease.expiresAt && !s.promises[entry].givenBack
            && (forall q | Claims(s, m.key, q) :: q == lease.sequence)
  {
    assert MessageOk(cfg, s, m) && MessageBacked(s, m);
  }

  lemma OwnersLandingFindsNoDebt(cfg: Config, s: System, m: Message)
    requires Inv(cfg, s) && AllBacked(s) && Lands(cfg, s, m) && !m.request.Acquire?
    ensures Debtless(s, m.key)
  {
    OwnersLandingFinds(cfg, s, m);
    forall id | id in s.actors && Owes(s, id) ensures s.actors[id].key != m.key {
      DebtorMarks(cfg, s, id);
      assert ActorOk(cfg, s, id);
      if s.actors[id].key == m.key {
        LandingIsOwners(cfg, s, m, id);
      }
    }
  }

  /** Other actors of the key are silent. */
  lemma OthersAreSilent(cfg: Config, s: System, m: Message, id: nat)
    requires Inv(cfg, s) && AllBacked(s) && Lands(cfg, s, m) && !m.request.Acquire?
    requires id in s.actors && s.actors[id].key == m.key && Speaks(s, id)
    ensures id == m.sender && !Unanswered(s, id) && s.actors[id].state.version == Version(s.store, m.key)
    ensures s.actors[id].state.lease.sequence == m.candidate.lease.sequence
  {
    OwnersLandingFinds(cfg, s, m);
    assert Voices(s, id, m.key, Spoken(s.actors[id]).sequence);
    assert Claims(s, m.key, Spoken(s.actors[id]).sequence);
    SpeakerMarks(s, id);
    LandingIsOwners(cfg, s, m, id);
  }

  /** And their caches are about other promises. */
  lemma OthersDiffer(cfg: Config, s: System, m: Message, id: nat)
    requires Inv(cfg, s) && AllBacked(s) && Lands(cfg, s, m) && !m.request.Acquire?
    requires id in s.actors && s.actors[id].Running? && s.actors[id].key == m.key && id != m.sender
    requires IsOwnLive(s.actors[id].state, s.now)
    ensures s.actors[id].state.lease.sequence != m.candidate.lease.sequence
  {
    OwnersLandingFinds(cfg, s, m);
    if s.actors[id].state.lease.sequence == m.candidate.lease.sequence {
      LandingIsOwners(cfg, s, m, id);
    }
  }

  /** Its sender may say what it says now, and others what they said before. */
  lemma OwnersLandingVoices(cfg: Config, s: System, m: Message, id: nat)
    requires Lands(cfg, s, m) && Speaks(DoDeliver(cfg, s, m), id)
    ensures var s' := DoDeliver(cfg, s, m);
            Spoken(s'.actors[id]) == m.candidate.lease
            || (Speaks(s, id) && Spoken(s'.actors[id]) == Spoken(s.actors[id]) && s'.actors[id].key == s.actors[id].key)
  {
  }

  lemma OwnersLandingClaims(cfg: Config, s: System, m: Message, q: nat)
    requires Inv(cfg, s) && AllBacked(s) && Lands(cfg, s, m) && !m.request.Acquire?
    requires Claims(DoDeliver(cfg, s, m), m.key, q)
    ensures q == m.candidate.lease.sequence
  {
    var s' := DoDeliver(cfg, s, m);
    OwnersLandingFinds(cfg, s, m);
    if Promised(s', m.key, q) {
      assert Claims(s, m.key, q);
    } else {
      var id :| Voices(s', id, m.key, q);
      OwnersLandingVoices(cfg, s, m, id);
      if Voices(s, id, m.key, q) {
        assert Claims(s, m.key, q);
      }
    }
  }

  lemma OwnersLandingDebts(cfg: Config, s: System, m: Message, id: nat)
    requires Inv(cfg, s) && AllBacked(s) && Lands(cfg, s, m) && !m.request.Acquire?
    requires id in s.actors && s.actors[id].key == m.key && Owes(DoDeliver(cfg, s, m), id)
    ensures id == m.sender && Awaited(s, m)
  {
    OwnersLandingFindsNoDebt(cfg, s, m);
    assert !Owes(s, id);
  }

  lemma OwnersLandingCovers(cfg: Config, s: System, m: Message, q: nat)
    requires Inv(cfg, s) && AllBacked(s) && Lands(cfg, s, m) && !m.request.Acquire?
    requires Awaited(s, m) || TakesNothingBack(s, m)
    ensures Covered(DoDeliver(cfg, s, m), m.key, q)
  {
    var s' := DoDeliver(cfg, s, m);
    LandEffect(cfg, s, m, m.key);
    OwnersLandingFinds(cfg, s, m);
    if Promised(s', m.key, q) {
      assert Claims(s, m.key, q);
      if CutsPromise(s, m) {
        assert IsDebtor(s', m.sender, m.key, q);
      }
    }
  }

  lemma OwnersLandingVoice(cfg: Config, s: System, m: Message, id: nat)
    requires Inv(cfg, s) && AllBacked(s) && Lands(cfg, s, m) && !m.request.Acquire?
    requires Awaited(s, m) || TakesNothingBack(s, m)
    requires id in s.actors && s.actors[id].key == m.key
    ensures DebtOk(DoDeliver(cfg, s, m), id) && VoiceOk(DoDeliver(cfg, s, m), id)
  {
    var s' := DoDeliver(cfg, s, m);
    LandEffect(cfg, s, m, m.key);
    if Owes(s', id) {
      OwnersLandingDebts(cfg, s, m, id);
    }
    if Speaks(s', id) && !(id == m.sender && Awaited(s, m)) {
      assert s'.actors[id] == s.actors[id];
      OthersAreSilent(cfg, s, m, id);
      OwnersLandingFinds(cfg, s, m);
      assert OnlyRepeats(s, id);
    }
  }

  lemma OwnersLandingRepeats(cfg: Config, s: System, m: Message, id: nat)
    requires Inv(cfg, s) && AllBacked(s) && Lands(cfg, s, m) && !m.request.Acquire?
    requires Awaited(s, m) || TakesNothingBack(s, m)
    requires id in s.actors && s.actors[id].key == m.key && s.actors[id].Running?
    ensures OnlyRepeats(DoDeliver(cfg, s, m), id)
  {
    LandEffect(cfg, s, m, m.key);
    OwnersLandingFinds(cfg, s, m);
    assert OnlyRepeats(s, id) && ActorOk(cfg, s, id);
    if id != m.sender && IsOwnLive(s.actors[id].state, s.now) {
      OthersDiffer(cfg, s, m, id);
    }
  }

  lemma OwnersLandingBacksActors(cfg: Config, s: System, m: Message)
    requires Inv(cfg, s) && AllBacked(s) && Lands(cfg, s, m) && !m.request.Acquire?
    requires Awaited(s, m) || TakesNothingBack(s, m)
    ensures ActorsBacked(DoDeliver(cfg, s, m), m.key)
  {
    var s' := DoDeliver(cfg, s, m);
    forall id | id in s'.actors && s'.actors[id].key == m.key ensures DebtOk(s', id) && VoiceOk(s', id) {
      OwnersLandingVoice(cfg, s, m, id);
    }
    forall id | id in s'.actors && s'.actors[id].key == m.key && s'.actors[id].Running? ensures OnlyRepeats(s', id) {
      OwnersLandingRepeats(cfg, s, m, id);
    }
  }

  lemma OwnersLandingBacksKey(cfg: Config, s: System, m: Message)
    requires Inv(cfg, s) && AllBacked(s) && Lands(cfg, s, m) && !m.request.Acquire?
    requires Awaited(s, m) || TakesNothingBack(s, m)
    ensures KeyBacked(DoDeliver(cfg, s, m), m.key)
  {
    var s' := DoDeliver(cfg, s, m);
    forall a, b | Claims(s', m.key, a) && Claims(s', m.key, b) ensures a == b {
      OwnersLandingClaims(cfg, s, m, a);
      OwnersLandingClaims(cfg, s, m, b);
    }
    forall q ensures Covered(s', m.key, q) {
      OwnersLandingCovers(cfg, s, m, q);
    }
    OwnersLandingBacksActors(cfg, s, m);
  }

  lemma DeliverBacks(cfg: Config, s: System, m: Message)
    requires Inv(cfg, s) && AllBacked(s) && HarmlessStep(cfg, s, Deliver(m))
    ensures AllBacked(DoDeliver(cfg, s, m))
  {
    if Lands(cfg, s, m) {
      if m.request.Acquire? {
        AcquireBacksKey(cfg, s, m);
      } else {
        OwnersLandingBacksKey(cfg, s, m);
      }
      LandingBacks(cfg, s, m);
    }
  }
}
