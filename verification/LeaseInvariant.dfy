/** What every reachable state of the protocol keeps, whatever is lost, delayed or repeated. */
module LeaseInvariant {
  import opened Options
  import opened LeaseCodec
  import opened DurableStore
  import opened LeaseActor
  import opened LeaseProtocol

  /** Grants of a key are numbered 1, 2, 3, ... in commit order, under owner epochs that never fall. */
  ghost predicate MintsOk(cfg: Config, s: System, key: Key) {
    var mints := MintsOf(s, key);
    && (forall i | 0 <= i < |mints| :: mints[i].sequence == i + 1 && 0 < mints[i].ownerEpoch <= OwnerOf(cfg, s, key))
    && (forall i, j | 0 <= i < j < |mints| :: mints[i].ownerEpoch <= mints[j].ownerEpoch)
  }

  /** The row decodes, to a lease that is the last grant or that grant given back. */
  ghost predicate RowOk(s: System, key: Key) {
    var lease := Stored(s.store, key);
    var mints := MintsOf(s, key);
    && Loaded(s.store, key).Some?
    && (key in s.store.objects ==> s.store.objects[key].payload == Encode(lease) && 0 < s.store.objects[key].version)
    && WellFormed(lease)
    && lease.sequence == |mints|
    && (lease.holder.Some? ==>
        mints[|mints| - 1].holder == lease.holder && mints[|mints| - 1].requestId == lease.requestId)
  }

  /** A state cached at the stored version is a copy of the stored lease. */
  ghost predicate Coherent(s: System, key: Key, state: State) {
    && state.version <= Version(s.store, key)
    && (state.version == Version(s.store, key) ==> SameUpToExpiry(state.lease, Stored(s.store, key), s.now))
  }

  ghost predicate IsMint(s: System, key: Key, mint: Mint) {
    0 < mint.sequence <= |MintsOf(s, key)| && MintsOf(s, key)[mint.sequence - 1] == mint
  }

  /** A live lease that is not inherited was granted by the actor itself. */
  ghost predicate OwnGrant(s: System, key: Key, state: State) {
    !state.inherited && Live(state.lease, s.now) ==> IsMint(s, key, MintOf(state))
  }

  function EpochOf(actor: Actor): nat {
    if actor.Claiming? then actor.ownerEpoch else actor.state.ownerEpoch
  }

  /** How a call's candidate lease relates to the lease it replaces. */
  predicate Makes(request: Request, lease: Lease, next: Lease, checkedAt: nat) {
    match request
    case Acquire(holder, requestId, _) =>
      && !Live(lease, checkedAt)
      && next.sequence == lease.sequence + 1
      && next.holder == Some(holder) && next.requestId == requestId
    case Renew(holder, _, _) =>
      lease.holder == Some(holder) && next == lease.(expiresAt := next.expiresAt)
    case Release(holder, _) =>
      lease.holder == Some(holder) && next == Freed(lease)
    case Status => false
  }

  /** The candidate was made from `lease`, and only the actor that granted a lease renews or frees it. */
  ghost predicate MadeFrom(s: System, m: Message, lease: Lease) {
    && Makes(m.request, lease, m.candidate.lease, m.checkedAt)
    && (!m.request.Acquire? ==>
        IsMint(s, m.key, Mint(m.candidate.ownerEpoch, lease.sequence, lease.holder, lease.requestId)))
  }

  ghost predicate ActorOk(cfg: Config, s: System, id: nat)
    requires id in s.actors
  {
    var a := s.actors[id];
    && 0 < EpochOf(a) <= OwnerOf(cfg, s, a.key)
    && (!a.Claiming? ==> WellFormed(a.state.lease) && Coherent(s, a.key, a.state))
    && (a.Running? ==> OwnGrant(s, a.key, a.state))
    && (a.Running? && a.waiting.Some? ==> PendingOk(s, id, a, a.waiting.value))
    && (a.Running? && a.waiting.None? ==> !a.landed)
  }

  /** A commit under way was made from the cache, which does not move meanwhile. */
  ghost predicate PendingOk(s: System, id: nat, a: Actor, m: Message)
    requires a.Running?
  {
    && m in s.wire && m.sender == id && m.key == a.key
    && m.candidate.ownerEpoch == a.state.ownerEpoch && m.candidate.runtimeEpoch == a.state.runtimeEpoch
    && m.candidate.version == a.state.version
    && Makes(m.request, a.state.lease, m.candidate.lease, m.checkedAt)
    && (!m.request.Acquire? ==> !a.state.inherited && IsMint(s, a.key, MintOf(a.state)))
    && (a.landed ==> LandedOk(s, m))
  }

  /**
   * However late its sender learns of it, a landed lease stays in the store until it has expired and the key
   * is granted afresh.
   */
  ghost predicate LandedOk(s: System, m: Message) {
    && m.candidate.version < Version(s.store, m.key)
    && m.candidate.lease.sequence <= Stored(s.store, m.key).sequence
    && (Stored(s.store, m.key).sequence == m.candidate.lease.sequence
        || Version(s.store, m.key) == m.candidate.version + 1
        || Live(m.candidate.lease, s.now) ==>
        Stored(s.store, m.key) == m.candidate.lease)
    && (!m.request.Release? ==> IsMint(s, m.key, MintOf(m.candidate)))
  }

  /** Messages under an actor's epoch are its own, and none is at a later version than its cache. */
  ghost predicate OwnMessages(cfg: Config, s: System) {
    forall m, id | m in s.wire && id in s.actors
        && ScopeOf(cfg, m.key) == ScopeOf(cfg, s.actors[id].key) && m.candidate.ownerEpoch == EpochOf(s.actors[id]) ::
      IsOwn(s.actors[id], id, m)
  }

  ghost predicate IsOwn(a: Actor, id: nat, m: Message) {
    a.Running? && m.sender == id && m.key == a.key && m.candidate.version <= a.state.version
  }

  /** Ownership epochs are never shared, not even by actors of different keys on one shard. */
  ghost predicate EpochsDiffer(cfg: Config, s: System) {
    forall i, j | i in s.actors && j in s.actors && i != j
        && ScopeOf(cfg, s.actors[i].key) == ScopeOf(cfg, s.actors[j].key) ::
      EpochOf(s.actors[i]) != EpochOf(s.actors[j])
  }

  ghost predicate MessageOk(cfg: Config, s: System, m: Message) {
    && 0 < m.candidate.ownerEpoch <= OwnerOf(cfg, s, m.key)
    && m.checkedAt <= s.now && m.checkedAt <= m.sentAt
    && !m.candidate.inherited
    && !m.request.Status?
    && WellFormed(m.candidate.lease)
    && m.candidate.version <= Version(s.store, m.key)
    && (m.candidate.version == Version(s.store, m.key) ==> MadeFrom(s, m, Stored(s.store, m.key)))
  }

  /** Every token a client holds is one recorded grant. */
  ghost predicate IssuesOk(s: System) {
    forall i | i in s.issued :: IsMint(s, i.key, i.mint)
  }

  ghost predicate Inv(cfg: Config, s: System) {
    && (forall key :: MintsOk(cfg, s, key))
    && (forall key :: RowOk(s, key))
    && (forall id | id in s.actors :: ActorOk(cfg, s, id))
    && EpochsDiffer(cfg, s)
    && (forall m | m in s.wire :: MessageOk(cfg, s, m))
    && OwnMessages(cfg, s)
    && IssuesOk(s)
  }

  lemma InitialHolds(cfg: Config, now: nat)
    ensures Inv(cfg, Initial(now))
  {
  }

  lemma TickKeepsActor(cfg: Config, s: System, id: nat)
    requires Inv(cfg, s) && id in s.actors
    ensures ActorOk(cfg, s.(now := s.now + 1), id)
  {
    assert ActorOk(cfg, s, id);
  }

  lemma TickKeepsRows(cfg: Config, s: System, key: Key)
    requires Inv(cfg, s)
    ensures MintsOk(cfg, s.(now := s.now + 1), key) && RowOk(s.(now := s.now + 1), key)
  {
    assert MintsOk(cfg, s, key) && RowOk(s, key);
  }

  lemma TickKeepsMessage(cfg: Config, s: System, m: Message)
    requires Inv(cfg, s) && m in s.wire
    ensures MessageOk(cfg, s.(now := s.now + 1), m)
  {
    assert MessageOk(cfg, s, m);
  }

  lemma TickKeeps(cfg: Config, s: System)
    requires Inv(cfg, s)
    ensures Inv(cfg, s.(now := s.now + 1))
  {
    var s' := s.(now := s.now + 1);
    forall key ensures MintsOk(cfg, s', key) && RowOk(s', key) {
      TickKeepsRows(cfg, s, key);
    }
    forall id | id in s'.actors ensures ActorOk(cfg, s', id) {
      TickKeepsActor(cfg, s, id);
    }
    forall m | m in s'.wire ensures MessageOk(cfg, s', m) {
      TickKeepsMessage(cfg, s, m);
    }
    forall i | i in s'.issued ensures IsMint(s', i.key, i.mint) {
      assert IsMint(s, i.key, i.mint);
    }
  }

  /** Everything but the actors is untouched, except that the message set may have grown. */
  ghost predicate OnlyActorsMove(s: System, s': System) {
    s'.now == s.now && s'.store == s.store && s'.mints == s.mints && s.wire <= s'.wire
  }

  /** An untouched actor stays fine as long as no row or grant moves and no epoch falls. */
  lemma OtherActor(cfg: Config, s: System, s': System, id: nat)
    requires Inv(cfg, s) && id in s.actors && id in s'.actors && s'.actors[id] == s.actors[id]
    requires s'.now == s.now && s'.store.objects == s.store.objects && s'.mints == s.mints && s.wire <= s'.wire
    requires OwnerOf(cfg, s, s.actors[id].key) <= OwnerOf(cfg, s', s.actors[id].key)
    ensures ActorOk(cfg, s', id)
  {
    assert ActorOk(cfg, s, id);
  }

  /** Such a step keeps messages with their senders. */
  lemma OneActorOwnMessages(cfg: Config, s: System, s': System, id: nat)
    requires Inv(cfg, s) && OnlyActorsMove(s, s')
    requires forall j | j in s'.actors && j != id :: j in s.actors && s'.actors[j] == s.actors[j]
    requires id in s'.actors ==>
               && id in s.actors && s'.actors[id].key == s.actors[id].key
               && EpochOf(s'.actors[id]) == EpochOf(s.actors[id])
    requires id in s'.actors && s.actors[id].Running? ==>
               s'.actors[id].Running? && s.actors[id].state.version <= s'.actors[id].state.version
    requires forall m | m in s'.wire && m !in s.wire ::
               id in s'.actors && IsOwn(s'.actors[id], id, m) && m.candidate.ownerEpoch == EpochOf(s'.actors[id])
    ensures OwnMessages(cfg, s')
  {
    forall m, j | m in s'.wire && j in s'.actors
        && ScopeOf(cfg, m.key) == ScopeOf(cfg, s'.actors[j].key) && m.candidate.ownerEpoch == EpochOf(s'.actors[j])
      ensures IsOwn(s'.actors[j], j, m)
    {
      if m in s.wire {
        assert IsOwn(s.actors[j], j, m);
      }
    }
  }

  lemma OnlyActorsMoveRows(cfg: Config, s: System, s': System)
    requires Inv(cfg, s) && OnlyActorsMove(s, s')
    ensures forall key :: MintsOk(cfg, s', key) && RowOk(s', key)
    ensures forall m | m in s.wire :: MessageOk(cfg, s', m)
    ensures forall m | MessageOk(cfg, s, m) :: MessageOk(cfg, s', m)
    ensures forall key, mint | IsMint(s, key, mint) :: IsMint(s', key, mint)
  {
    forall key ensures MintsOk(cfg, s', key) && RowOk(s', key) {
      assert MintsOk(cfg, s, key) && RowOk(s, key);
    }
    forall m | m in s.wire ensures MessageOk(cfg, s', m) {
      assert MessageOk(cfg, s, m);
    }
  }

  /** A step that moves at most one actor, and gives that one a good state, keeps the invariant. */
  lemma OneActorMoves(cfg: Config, s: System, s': System, id: nat)
    requires Inv(cfg, s) && OnlyActorsMove(s, s')
    requires forall j | j in s'.actors && j != id :: j in s.actors && s'.actors[j] == s.actors[j]
    requires id in s'.actors ==> ActorOk(cfg, s', id)
    requires id in s'.actors ==>
               && id in s.actors && s'.actors[id].key == s.actors[id].key
               && EpochOf(s'.actors[id]) == EpochOf(s.actors[id])
    requires id in s'.actors && s.actors[id].Running? ==>
               s'.actors[id].Running? && s.actors[id].state.version <= s'.actors[id].state.version
    requires forall m | m in s'.wire && m !in s.wire ::
               && MessageOk(cfg, s, m)
               && id in s'.actors && IsOwn(s'.actors[id], id, m) && m.candidate.ownerEpoch == EpochOf(s'.actors[id])
    requires forall i | i in s'.issued && i !in s.issued :: IsMint(s, i.key, i.mint)
    ensures Inv(cfg, s')
  {
    OnlyActorsMoveRows(cfg, s, s');
    forall j | j in s'.actors ensures ActorOk(cfg, s', j) {
      if j != id {
        OtherActor(cfg, s, s', j);
      }
    }
    assert IssuesOk(s);
    OneActorOwnMessages(cfg, s, s', id);
  }

  lemma ClaimKeepsActor(cfg: Config, s: System, id: nat, key: Key, runtimeEpoch: nat, answered: bool, j: nat)
    requires Inv(cfg, s) && j in DoClaim(cfg, s, id, key, runtimeEpoch, answered).actors
    ensures ActorOk(cfg, DoClaim(cfg, s, id, key, runtimeEpoch, answered), j)
  {
    var s' := DoClaim(cfg, s, id, key, runtimeEpoch, answered);
    if j in s.actors {
      OtherActor(cfg, s, s', j);
    } else {
      assert s'.actors[j].Claiming?;
    }
  }

  /** A claimed epoch is above every epoch in use on its scope. */
  lemma ClaimKeepsEpochs(cfg: Config, s: System, id: nat, key: Key, runtimeEpoch: nat, answered: bool)
    requires Inv(cfg, s)
    ensures EpochsDiffer(cfg, DoClaim(cfg, s, id, key, runtimeEpoch, answered))
  {
    var s' := DoClaim(cfg, s, id, key, runtimeEpoch, answered);
    forall i | i in s.actors
      ensures i in s'.actors && s'.actors[i] == s.actors[i]
      ensures EpochOf(s.actors[i]) <= OwnerOf(cfg, s, s.actors[i].key)
    {
      assert ActorOk(cfg, s, i);
    }
  }

  /** A fresh owner's epoch is on no message yet. */
  lemma ClaimKeepsOwnMessages(cfg: Config, s: System, id: nat, key: Key, runtimeEpoch: nat, answered: bool)
    requires Inv(cfg, s)
    ensures OwnMessages(cfg, DoClaim(cfg, s, id, key, runtimeEpoch, answered))
  {
    var s' := DoClaim(cfg, s, id, key, runtimeEpoch, answered);
    forall m, j | m in s'.wire && j in s'.actors
        && ScopeOf(cfg, m.key) == ScopeOf(cfg, s'.actors[j].key) && m.candidate.ownerEpoch == EpochOf(s'.actors[j])
      ensures IsOwn(s'.actors[j], j, m)
    {
      assert MessageOk(cfg, s, m);
      if j in s.actors {
        assert IsOwn(s.actors[j], j, m);
      }
    }
  }

  lemma ClaimKeepsMessage(cfg: Config, s: System, id: nat, key: Key, runtimeEpoch: nat, answered: bool, m: Message)
    requires Inv(cfg, s) && m in s.wire
    ensures MessageOk(cfg, DoClaim(cfg, s, id, key, runtimeEpoch, answered), m)
  {
    assert MessageOk(cfg, s, m);
  }

  lemma ClaimKeepsRows(cfg: Config, s: System, id: nat, key: Key, runtimeEpoch: nat, answered: bool, k: Key)
    requires Inv(cfg, s)
    ensures var s' := DoClaim(cfg, s, id, key, runtimeEpoch, answered);
            MintsOk(cfg, s', k) && RowOk(s', k)
  {
    assert MintsOk(cfg, s, k) && RowOk(s, k);
  }

  lemma ClaimKeeps(cfg: Config, s: System, id: nat, key: Key, runtimeEpoch: nat, answered: bool)
    requires Inv(cfg, s)
    ensures Inv(cfg, DoClaim(cfg, s, id, key, runtimeEpoch, answered))
  {
    var s' := DoClaim(cfg, s, id, key, runtimeEpoch, answered);
    forall k ensures MintsOk(cfg, s', k) && RowOk(s', k) {
      ClaimKeepsRows(cfg, s, id, key, runtimeEpoch, answered, k);
    }
    forall j | j in s'.actors ensures ActorOk(cfg, s', j) {
      ClaimKeepsActor(cfg, s, id, key, runtimeEpoch, answered, j);
    }
    forall m | m in s'.wire ensures MessageOk(cfg, s', m) {
      ClaimKeepsMessage(cfg, s, id, key, runtimeEpoch, answered, m);
    }
    ClaimKeepsEpochs(cfg, s, id, key, runtimeEpoch, answered);
    ClaimKeepsOwnMessages(cfg, s, id, key, runtimeEpoch, answered);
    assert IssuesOk(s') by {
      forall i | i in s'.issued ensures IsMint(s', i.key, i.mint) {
        assert IsMint(s, i.key, i.mint);
      }
    }
  }

  lemma LoadKeeps(cfg: Config, s: System, id: nat)
    requires Inv(cfg, s)
    ensures Inv(cfg, DoLoad(s, id))
  {
    if id in s.actors && s.actors[id].Claiming? {
      assert ActorOk(cfg, s, id);
      assert RowOk(s, s.actors[id].key);
      OneActorMoves(cfg, s, DoLoad(s, id), id);
    }
  }

  lemma StartKeeps(cfg: Config, s: System, id: nat)
    requires Inv(cfg, s)
    ensures Inv(cfg, DoStart(s, id))
  {
    if id in s.actors && s.actors[id].Loading? {
      assert ActorOk(cfg, s, id);
      OneActorMoves(cfg, s, DoStart(s, id), id);
    }
  }

  /** A candidate is made from the cached lease. */
  lemma CandidateIsMadeFromCache(state0: State, request: Request, maxLeaseMs: int, at: Readings)
    requires Handle(state0, request, maxLeaseMs, at).Persist?
    ensures var candidate := Handle(state0, request, maxLeaseMs, at).candidate;
            && Makes(request, state0.lease, candidate.lease, at.expireAt)
            && (!request.Acquire? ==> !state0.inherited && Live(state0.lease, at.expireAt))
  {
  }

  /** A candidate prepared from a coherent cache is made from the stored lease. */
  lemma CandidateIsMadeFromStored(cfg: Config, s: System, id: nat, request: Request, lag: Lag)
    requires Inv(cfg, s) && Ready(s, id) && OutcomeOf(cfg, s, id, request, lag).Persist?
    ensures var candidate := OutcomeOf(cfg, s, id, request, lag).candidate;
            MessageOk(cfg, s, MessageOf(s, id, request, lag, candidate))
  {
    var a := s.actors[id];
    assert ActorOk(cfg, s, id);
    assert RowOk(s, a.key);
    HandleRespects(a.state, request, cfg.maxLeaseMs, ReadingsAt(s.now, lag));
  }

  /** An actor whose cache moved only by clearing an expired lease is still fine. */
  lemma ExpiredActorOk(cfg: Config, s: System, id: nat, state: State)
    requires Inv(cfg, s) && Ready(s, id)
    requires WellFormed(state.lease) && SameUpToExpiry(state.lease, s.actors[id].state.lease, s.now)
    requires state.version == s.actors[id].state.version && state.ownerEpoch == s.actors[id].state.ownerEpoch
    requires state.lease.holder.Some? ==> state.inherited == s.actors[id].state.inherited
    ensures ActorOk(cfg, s.(actors := s.actors[id := s.actors[id].(state := state)]), id)
  {
    assert ActorOk(cfg, s, id);
  }

  /** Telling a client of a recorded grant. */
  lemma TellKeeps(cfg: Config, s: System, key: Key, state: State)
    requires Inv(cfg, s) && IsMint(s, key, MintOf(state))
    ensures Inv(cfg, Tell(s, key, state))
  {
    var s' := Tell(s, key, state);
    forall k ensures MintsOk(cfg, s', k) && RowOk(s', k) {
      assert MintsOk(cfg, s, k) && RowOk(s, k);
    }
    forall id | id in s'.actors ensures ActorOk(cfg, s', id) {
      OtherActor(cfg, s, s', id);
    }
    forall m | m in s'.wire ensures MessageOk(cfg, s', m) {
      assert MessageOk(cfg, s, m);
    }
    forall i | i in s'.issued ensures IsMint(s', i.key, i.mint) {
      assert i in s.issued ==> IsMint(s, i.key, i.mint);
    }
  }

  lemma AnswerKeeps(cfg: Config, s: System, id: nat, reply: Reply, state: State)
    requires Inv(cfg, s) && Ready(s, id)
    requires Respects(s.actors[id].state, Answer(reply, state), s.now)
    ensures Inv(cfg, Answered(s, id, reply, state))
  {
    var s' := s.(actors := s.actors[id := s.actors[id].(state := state)]);
    ExpiredActorOk(cfg, s, id, state);
    assert ActorOk(cfg, s', id);
    OneActorMoves(cfg, s, s', id);
    if reply.Granted? {
      TellKeeps(cfg, s', s.actors[id].key, state);
    }
  }

  lemma SendKeeps(cfg: Config, s: System, id: nat, m: Message)
    requires Inv(cfg, s) && Ready(s, id) && MessageOk(cfg, s, m)
    requires var a := s.actors[id];
             && m.sender == id && m.key == a.key
             && m.candidate.(lease := a.state.lease, inherited := a.state.inherited) == a.state
             && Makes(m.request, a.state.lease, m.candidate.lease, m.checkedAt)
             && (!m.request.Acquire? ==> !a.state.inherited && Live(a.state.lease, s.now))
    ensures Inv(cfg, Sent(s, id, m))
  {
    var s' := Sent(s, id, m);
    assert ActorOk(cfg, s, id);
    assert ActorOk(cfg, s', id);
    OneActorMoves(cfg, s, s', id);
  }

  lemma ResolvedKeeps(cfg: Config, s: System, id: nat, request: Request, lag: Lag, outcome: Outcome)
    requires Inv(cfg, s) && Ready(s, id) && Respects(s.actors[id].state, outcome, s.now)
    requires outcome.Persist? ==>
               && MessageOk(cfg, s, MessageOf(s, id, request, lag, outcome.candidate))
               && Makes(request, s.actors[id].state.lease, outcome.candidate.lease, s.now)
               && (!request.Acquire? ==> !s.actors[id].state.inherited && Live(s.actors[id].state.lease, s.now))
    ensures Inv(cfg, Resolved(s, id, request, lag, outcome))
  {
    match outcome
    case Answer(reply, state) => AnswerKeeps(cfg, s, id, reply, state);
    case Persist(candidate) => SendKeeps(cfg, s, id, MessageOf(s, id, request, lag, candidate));
  }

  /** A running actor's calls respect its cache. */
  lemma OutcomeRespects(cfg: Config, s: System, id: nat, request: Request, lag: Lag)
    requires Inv(cfg, s) && Ready(s, id)
    ensures Respects(s.actors[id].state, OutcomeOf(cfg, s, id, request, lag), s.now)
  {
    assert ActorOk(cfg, s, id);
    HandleRespects(s.actors[id].state, request, cfg.maxLeaseMs, ReadingsAt(s.now, lag));
  }

  lemma CallKeeps(cfg: Config, s: System, id: nat, request: Request, lag: Lag)
    requires Inv(cfg, s)
    ensures Inv(cfg, DoCall(cfg, s, id, request, lag))
  {
    if Ready(s, id) {
      OutcomeRespects(cfg, s, id, request, lag);
      if OutcomeOf(cfg, s, id, request, lag).Persist? {
        CandidateIsMadeFromCache(s.actors[id].state, request, cfg.maxLeaseMs, ReadingsAt(s.now, lag));
        CandidateIsMadeFromStored(cfg, s, id, request, lag);
      }
      ResolvedKeeps(cfg, s, id, request, lag, OutcomeOf(cfg, s, id, request, lag));
    }
  }

  lemma GiveUpKeeps(cfg: Config, s: System, id: nat)
    requires Inv(cfg, s)
    ensures Inv(cfg, DoGiveUp(s, id))
  {
    if id in s.actors && s.actors[id].Running? {
      assert ActorOk(cfg, s, id);
      OneActorMoves(cfg, s, DoGiveUp(s, id), id);
    }
  }

  lemma CrashKeeps(cfg: Config, s: System, id: nat)
    requires Inv(cfg, s)
    ensures Inv(cfg, Next(cfg, s, Crash(id)))
  {
    OneActorMoves(cfg, s, Next(cfg, s, Crash(id)), id);
  }

  /** What a landing does to its own key and leaves alone elsewhere. */
  lemma LandEffect(cfg: Config, s: System, m: Message, key: Key)
    requires Inv(cfg, s) && Lands(cfg, s, m)
    ensures var s' := Land(cfg, s, m);
            && OwnerOf(cfg, s', key) == OwnerOf(cfg, s, key)
            && (key != m.key ==>
                && Loaded(s'.store, key) == Loaded(s.store, key)
                && RowOf(s'.store, key) == RowOf(s.store, key)
                && MintsOf(s', key) == MintsOf(s, key))
            && (key == m.key ==>
                && Loaded(s'.store, key) == Some(m.candidate.lease)
                && Version(s'.store, key) == Version(s.store, key) + 1
                && MadeFrom(s, m, Stored(s.store, key))
                && MintsOf(s', key) == MintsOf(s, key) + if m.request.Acquire? then [MintOf(m.candidate)] else [])
  {
    assert MessageOk(cfg, s, m);
    RoundTrip(m.candidate.lease);
  }

  lemma LandGrowsMints(cfg: Config, s: System, m: Message, key: Key, mint: Mint)
    requires Inv(cfg, s) && Lands(cfg, s, m) && IsMint(s, key, mint)
    ensures IsMint(Land(cfg, s, m), key, mint)
  {
    LandEffect(cfg, s, m, key);
  }

  lemma LandKeepsMints(cfg: Config, s: System, m: Message, key: Key)
    requires Inv(cfg, s) && Lands(cfg, s, m)
    ensures MintsOk(cfg, Land(cfg, s, m), key)
  {
    LandEffect(cfg, s, m, key);
    assert MessageOk(cfg, s, m) && MintsOk(cfg, s, key) && RowOk(s, key);
  }

  lemma LandKeepsRow(cfg: Config, s: System, m: Message, key: Key)
    requires Inv(cfg, s) && Lands(cfg, s, m)
    ensures RowOk(Land(cfg, s, m), key)
  {
    LandEffect(cfg, s, m, key);
    assert MessageOk(cfg, s, m) && RowOk(s, key);
  }

  /** Nobody can write over a live lease but the actor that granted it. */
  lemma LandKeepsLanded(cfg: Config, s: System, m: Message, id: nat)
    requires Inv(cfg, s) && Lands(cfg, s, m) && Unanswered(s, id)
    ensures LandedOk(Land(cfg, s, m), s.actors[id].waiting.value)
  {
    var a := s.actors[id];
    var own := a.waiting.value;
    assert ActorOk(cfg, s, id) && PendingOk(s, id, a, own) && MessageOk(cfg, s, m);
    LandEffect(cfg, s, m, own.key);
    if !own.request.Release? {
      LandGrowsMints(cfg, s, m, own.key, MintOf(own.candidate));
    }
    assert m.key == own.key && m.candidate.ownerEpoch == EpochOf(a) ==> IsOwn(a, id, m);
  }

  lemma LandKeepsActor(cfg: Config, s: System, m: Message, id: nat)
    requires Inv(cfg, s) && Lands(cfg, s, m) && id in s.actors
    ensures ActorOk(cfg, Land(cfg, s, m), id)
  {
    var a := s.actors[id];
    assert ActorOk(cfg, s, id);
    LandEffect(cfg, s, m, a.key);
    if a.Running? && IsMint(s, a.key, MintOf(a.state)) {
      LandGrowsMints(cfg, s, m, a.key, MintOf(a.state));
    }
    if Unanswered(s, id) {
      LandKeepsLanded(cfg, s, m, id);
    }
  }

  lemma LandKeepsMessage(cfg: Config, s: System, m: Message, other: Message)
    requires Inv(cfg, s) && Lands(cfg, s, m) && other in s.wire
    ensures MessageOk(cfg, Land(cfg, s, m), other)
  {
    assert MessageOk(cfg, s, other);
    LandEffect(cfg, s, m, other.key);
  }

  lemma LandKeeps(cfg: Config, s: System, m: Message)
    requires Inv(cfg, s) && Lands(cfg, s, m)
    ensures Inv(cfg, Land(cfg, s, m))
  {
    var s' := Land(cfg, s, m);
    forall key ensures MintsOk(cfg, s', key) && RowOk(s', key) {
      LandKeepsMints(cfg, s, m, key);
      LandKeepsRow(cfg, s, m, key);
    }
    forall id | id in s'.actors ensures ActorOk(cfg, s', id) {
      LandKeepsActor(cfg, s, m, id);
    }
    forall other | other in s'.wire ensures MessageOk(cfg, s', other) {
      LandKeepsMessage(cfg, s, m, other);
    }
    forall i | i in s'.issued ensures IsMint(s', i.key, i.mint) {
      assert IsMint(s, i.key, i.mint);
      LandGrowsMints(cfg, s, m, i.key, i.mint);
    }
  }

  /** Right after landing, the candidate's own grant is on record. */
  lemma LandedGrant(cfg: Config, s: System, m: Message)
    requires Inv(cfg, s) && Lands(cfg, s, m)
    ensures LandedOk(Land(cfg, s, m), m)
  {
    LandEffect(cfg, s, m, m.key);
    assert MessageOk(cfg, s, m);
    assert RowOk(s, m.key);
  }

  lemma DeliverKeeps(cfg: Config, s: System, m: Message)
    requires Inv(cfg, s)
    ensures Inv(cfg, DoDeliver(cfg, s, m))
  {
    if Lands(cfg, s, m) {
      var s1 := Land(cfg, s, m);
      LandKeeps(cfg, s, m);
      if Awaited(s, m) {
        LandedGrant(cfg, s, m);
        assert ActorOk(cfg, s1, m.sender);
        OneActorMoves(cfg, s1, DoDeliver(cfg, s, m), m.sender);
      }
    }
  }

  /** An actor that learns of its landed commit is fine, and its grant is recorded. */
  lemma RepliedActorOk(cfg: Config, s: System, id: nat)
    requires Inv(cfg, s) && Unanswered(s, id)
    ensures ActorOk(cfg, DoReply(s, id), id)
    ensures forall i | i in DoReply(s, id).issued && i !in s.issued :: IsMint(s, i.key, i.mint)
  {
    assert ActorOk(cfg, s, id);
    assert MessageOk(cfg, s, s.actors[id].waiting.value);
  }

  lemma ReplyKeeps(cfg: Config, s: System, id: nat)
    requires Inv(cfg, s)
    ensures Inv(cfg, DoReply(s, id))
  {
    if Unanswered(s, id) {
      RepliedActorOk(cfg, s, id);
      assert ActorOk(cfg, s, id);
      OneActorMoves(cfg, s, DoReply(s, id), id);
    }
  }

  /** Every step keeps the invariant. */
  lemma NextKeeps(cfg: Config, s: System, e: Event)
    requires Inv(cfg, s)
    ensures Inv(cfg, Next(cfg, s, e))
  {
    match e
    case Tick => TickKeeps(cfg, s);
    case Claim(id, key, runtimeEpoch, answered) => ClaimKeeps(cfg, s, id, key, runtimeEpoch, answered);
    case Load(id) => LoadKeeps(cfg, s, id);
    case Start(id) => StartKeeps(cfg, s, id);
    case Call(id, request, lag) => CallKeeps(cfg, s, id, request, lag);
    case Deliver(m) => DeliverKeeps(cfg, s, m);
    case Reply(id) => ReplyKeeps(cfg, s, id);
    case GiveUp(id) => GiveUpKeeps(cfg, s, id);
    case Crash(id) => CrashKeeps(cfg, s, id);
  }

  lemma {:induction false} RunKeeps(cfg: Config, s: System, events: seq<Event>)
    requires Inv(cfg, s)
    ensures Inv(cfg, Run(cfg, s, events))
    decreases |events|
  {
    if events != [] {
      NextKeeps(cfg, s, events[0]);
      RunKeeps(cfg, Next(cfg, s, events[0]), events[1..]);
    }
  }

  /** The states the protocol can reach from an empty store, over every run. */
  lemma Reachable(cfg: Config, start: nat, events: seq<Event>)
    ensures Inv(cfg, Run(cfg, Initial(start), events))
  {
    InitialHolds(cfg, start);
    RunKeeps(cfg, Initial(start), events);
  }
}
