/** Who was told, or may still be told, that it holds a section; and the steps that do no harm. */
module LeaseClaims {
  import opened LeaseCodec
  import opened DurableStore
  import opened LeaseActor
  import opened LeaseProtocol

  /** Some client was last told, or will be told, that it holds `sequence`, and that has not expired. */
  predicate Told(s: System, key: Key, sequence: nat) {
    (key, sequence) in s.promises && s.now < s.promises[(key, sequence)].expiresAt
  }

  /** The grant was issued, has not expired, and no release of it has been committed since. */
  predicate Promised(s: System, key: Key, sequence: nat) {
    Told(s, key, sequence) && !s.promises[(key, sequence)].givenBack
  }

  ghost predicate Exclusive(s: System) {
    forall key, a, b | Promised(s, key, a) && Promised(s, key, b) :: a == b
  }

  /** The message is a renewal to less time than the client has been promised. */
  predicate CutsPromise(s: System, m: Message) {
    var sequence := m.candidate.lease.sequence;
    && m.request.Renew? && Promised(s, m.key, sequence)
    && m.candidate.lease.expiresAt < s.promises[(m.key, sequence)].expiresAt
  }

  /** The actor's landed renewal cut a promise short, and its client does not know yet. */
  predicate Owes(s: System, id: nat) {
    Unanswered(s, id) && CutsPromise(s, s.actors[id].waiting.value)
  }

  predicate Debtless(s: System, key: Key) {
    forall id | id in s.actors && Owes(s, id) :: s.actors[id].key != key
  }

  /** The actor's landed release is unanswered. */
  predicate GivesBack(s: System, id: nat) {
    Unanswered(s, id) && s.actors[id].waiting.value.request.Release?
  }

  /** Some actor would still replay `sequence` from its cache. */
  predicate Replayable(s: System, key: Key, sequence: nat) {
    exists id | id in s.actors ::
      && s.actors[id].Running? && s.actors[id].key == key
      && CanReplay(s.actors[id].state, s.now) && s.actors[id].state.lease.sequence == sequence
  }

  /** The lease an actor may tell its client of: that of a landed commit, or else that of its cache. */
  function Spoken(a: Actor): Lease
    requires a.Running?
  {
    if a.waiting.Some? && a.landed then a.waiting.value.candidate.lease else a.state.lease
  }

  /** The actor may yet tell its client that it holds the section. */
  predicate Speaks(s: System, id: nat) {
    && id in s.actors && s.actors[id].Running?
    && if Unanswered(s, id) then !GivesBack(s, id) && Live(Spoken(s.actors[id]), s.now)
       else CanReplay(s.actors[id].state, s.now)
  }

  predicate Voices(s: System, id: nat, key: Key, sequence: nat) {
    Speaks(s, id) && s.actors[id].key == key && Spoken(s.actors[id]).sequence == sequence
  }

  /** Someone was told, or may yet be told without further harm, that it holds `sequence`. */
  ghost predicate Claims(s: System, key: Key, sequence: nat) {
    Promised(s, key, sequence) || exists id :: Voices(s, id, key, sequence)
  }

  ghost predicate Contested(s: System, key: Key, sequence: nat) {
    exists other :: other != sequence && Claims(s, key, other)
  }

  /**
   * The actor's landed release is unanswered, its cache would replay the grant, and the replay would outlive
   * the stored lease or contradict what another client was told or may be told.
   */
  ghost predicate ForgetsRelease(s: System, id: nat) {
    && GivesBack(s, id) && CanReplay(s.actors[id].state, s.now)
    && (Stored(s.store, s.actors[id].key).expiresAt < s.actors[id].state.lease.expiresAt
        || Contested(s, s.actors[id].key, s.actors[id].state.lease.sequence))
  }

  /** A landing that nobody waits for neither cuts a promise nor frees a lease that an actor still replays. */
  predicate TakesNothingBack(s: System, m: Message) {
    && !CutsPromise(s, m)
    && (m.request.Release? ==> !Replayable(s, m.key, m.candidate.lease.sequence))
  }

  /** An acquire lands when its own lease has already expired. */
  predicate LandsDead(s: System, m: Message) {
    m.request.Acquire? && m.candidate.lease.expiresAt <= s.now
  }

  /**
   * A lost answer does no harm unless the commit took promised time back; a late one does none unless the
   * commit cut a promise and the key is granted afresh before it.
   */
  ghost predicate HarmlessStep(cfg: Config, s: System, e: Event) {
    && (e.Deliver? && Lands(cfg, s, e.message) ==>
        || LandsDead(s, e.message)
        || (Debtless(s, e.message.key) && (Awaited(s, e.message) || TakesNothingBack(s, e.message))))
    && (e.GiveUp? ==> !Owes(s, e.id) && !ForgetsRelease(s, e.id))
    && (e.Crash? ==> !Owes(s, e.id))
  }

  ghost predicate HarmlessRun(cfg: Config, s: System, events: seq<Event>)
    decreases |events|
  {
    events == [] || (HarmlessStep(cfg, s, events[0]) && HarmlessRun(cfg, Next(cfg, s, events[0]), events[1..]))
  }

  predicate IsDebtor(s: System, id: nat, key: Key, sequence: nat) {
    Owes(s, id) && s.actors[id].waiting.value.key == key
    && s.actors[id].waiting.value.candidate.lease.sequence == sequence
  }

  ghost predicate Owed(s: System, key: Key, sequence: nat) {
    exists id :: IsDebtor(s, id, key, sequence)
  }

  /** Nobody has a claim beside another's. */
  ghost predicate Single(s: System) {
    forall key, a, b | Claims(s, key, a) && Claims(s, key, b) :: a == b
  }

  /** The stored lease, whoever's it is, outlasts the promise, or its own client's renewal cut it. */
  ghost predicate Covered(s: System, key: Key, sequence: nat) {
    Promised(s, key, sequence) ==>
      s.promises[(key, sequence)].expiresAt <= Stored(s.store, key).expiresAt || Owed(s, key, sequence)
  }

  /** While a debt is open, what is stored is the lease that made it, or a lease that never lived. */
  ghost predicate DebtOk(s: System, id: nat) {
    Owes(s, id) ==>
      var m := s.actors[id].waiting.value;
      Stored(s.store, m.key).sequence == m.candidate.lease.sequence || !Live(Stored(s.store, m.key), s.now)
  }

  /** The stored lease outlasts what an actor may tell. */
  ghost predicate VoiceOk(s: System, id: nat) {
    Speaks(s, id) ==> Spoken(s.actors[id]).expiresAt <= Stored(s.store, s.actors[id].key).expiresAt
  }

  predicate IsOwnLive(state: State, now: nat) {
    Live(state.lease, now) && !state.inherited
  }

  /**
   * What an actor has in its cache, up to date or fit for a replay, is what its client was last told. Only a
   * release of its own, which left the cache out of date, can have given it back.
   */
  ghost predicate OnlyRepeats(s: System, id: nat)
    requires id in s.actors && s.actors[id].Running?
  {
    var a := s.actors[id];
    var entry := (a.key, a.state.lease.sequence);
    IsOwnLive(a.state, s.now) && (a.state.lease.requestId.Some? || a.state.version == Version(s.store, a.key)) ==>
      && entry in s.promises
      && s.promises[entry].holder == a.state.lease.holder && s.promises[entry].expiresAt == a.state.lease.expiresAt
      && (s.promises[entry].givenBack ==> a.state.version < Version(s.store, a.key))
      && (Unanswered(s, id) ==> (s.promises[entry].givenBack <==> GivesBack(s, id)))
  }

  /**
   * A renewal or release that can still land was made when its client had been told of the stored lease, and
   * nobody claims another one.
   */
  ghost predicate MessageBacked(s: System, m: Message) {
    !m.request.Acquire? && m.candidate.version == Version(s.store, m.key) ==>
      var lease := Stored(s.store, m.key);
      var entry := (m.key, lease.sequence);
      && entry in s.promises && s.promises[entry].expiresAt == lease.expiresAt && !s.promises[entry].givenBack
      && (forall q | Claims(s, m.key, q) :: q == lease.sequence)
  }

  /** What harmless steps keep. */
  ghost predicate AllBacked(s: System) {
    && Single(s)
    && (forall key, sequence :: Covered(s, key, sequence))
    && (forall id :: DebtOk(s, id))
    && (forall id :: VoiceOk(s, id))
    && (forall id | id in s.actors && s.actors[id].Running? :: OnlyRepeats(s, id))
    && (forall m | m in s.wire :: MessageBacked(s, m))
  }

  lemma BackedIsExclusive(s: System)
    requires AllBacked(s)
    ensures Exclusive(s)
  {
    forall key, a, b | Promised(s, key, a) && Promised(s, key, b) ensures a == b {
      assert Claims(s, key, a) && Claims(s, key, b);
    }
  }

  /** No step but a landing, or giving up a release, makes a claim that was not made before. */
  ghost predicate ClaimsNothingNew(s: System, s': System) {
    && (forall key, q | Promised(s', key, q) :: Claims(s, key, q))
    && (forall id | Speaks(s', id) :: Claims(s, s'.actors[id].key, Spoken(s'.actors[id]).sequence))
  }

  lemma ClaimsShrink(s: System, s': System, key: Key, q: nat)
    requires ClaimsNothingNew(s, s') && Claims(s', key, q)
    ensures Claims(s, key, q)
  {
    if !Promised(s', key, q) {
      var id :| Voices(s', id, key, q);
    }
  }

  lemma SingleStays(s: System, s': System)
    requires Single(s) && ClaimsNothingNew(s, s')
    ensures Single(s')
  {
    forall key, a, b | Claims(s', key, a) && Claims(s', key, b) ensures a == b {
      ClaimsShrink(s, s', key, a);
      ClaimsShrink(s, s', key, b);
    }
  }
}
