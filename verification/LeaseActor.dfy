/** The actor of one critical section: how each call is answered from its cached lease. */
module LeaseActor {
  import opened Options
  import opened LeaseCodec

  /** The fencing token a client is given. */
  datatype Token = Token(runtimeEpoch: nat, ownerEpoch: nat, sequence: nat)

  /** A call; a token that is not of the expected shape is `None`. */
  datatype Request =
    | Acquire(holder: Binary, requestId: Option<Binary>, leaseMs: int)
    | Renew(holder: Binary, token: Option<Token>, leaseMs: int)
    | Release(holder: Binary, token: Option<Token>)
    | Status

  /** The actor's cached state. An inherited lease was granted by an earlier owner. */
  datatype State = State(runtimeEpoch: nat, ownerEpoch: nat, version: nat, lease: Lease, inherited: bool)

  datatype Reply =
    | Granted(token: Token, expiresAt: nat)
    | Released
    | Busy(remainingMs: nat)
    | InvalidAcquire
    | InvalidRenew
    | FencingExhausted
    | StaleOrNotOwner
    | CurrentStatus(state: State, remainingMs: nat)

  /** Either the call is answered at once, or a candidate state must be committed first. */
  datatype Outcome = Answer(reply: Reply, state: State) | Persist(candidate: State)

  /**
   * When one call reads the clock: to expire the cached lease, then to test ownership or measure what is
   * left of the lease, then for the new expiry.
   */
  datatype Readings = Readings(expireAt: nat, testAt: nat, stampAt: nat)

  predicate ValidRequestId(requestId: Option<Binary>) {
    BoundedOptional(requestId)
  }

  predicate ValidLeaseMs(leaseMs: int, maxLeaseMs: int) {
    0 < leaseMs <= maxLeaseMs
  }

  predicate Live(lease: Lease, now: nat) {
    lease.holder.Some? && now < lease.expiresAt
  }

  function Freed(lease: Lease): Lease {
    lease.(holder := None, requestId := None, expiresAt := 0)
  }

  function Init(runtimeEpoch: nat, ownerEpoch: nat, version: nat, loaded: Lease, now: nat): State {
    State(runtimeEpoch, ownerEpoch, version, loaded, Live(loaded, now))
  }

  function Expire(state: State, now: nat): State {
    if state.lease.holder.Some? && state.lease.expiresAt <= now then
      state.(lease := Freed(state.lease), inherited := false)
    else state
  }

  predicate Owns(state: State, holder: Binary, token: Option<Token>, now: nat) {
    && token.Some?
    && state.lease.holder == Some(holder)
    && state.runtimeEpoch == token.value.runtimeEpoch
    && state.ownerEpoch == token.value.ownerEpoch
    && state.lease.sequence == token.value.sequence
    && !state.inherited
    && now < state.lease.expiresAt
  }

  function Grant(state: State): Reply {
    Granted(Token(state.runtimeEpoch, state.ownerEpoch, state.lease.sequence), state.lease.expiresAt)
  }

  function RemainingMs(state: State, now: nat): nat {
    if now < state.lease.expiresAt then state.lease.expiresAt - now else 0
  }

  /** One call. */
  function Handle(state0: State, request: Request, maxLeaseMs: int, at: Readings): Outcome {
    match request
    case Acquire(holder, requestId, leaseMs) =>
      if !(BoundedText(holder) && ValidRequestId(requestId) && ValidLeaseMs(leaseMs, maxLeaseMs)) then
        Answer(InvalidAcquire, state0)
      else
        var state := Expire(state0, at.expireAt);
        if state.lease.holder.None? then
          if state.lease.sequence == MAX_FENCING_SEQUENCE then Answer(FencingExhausted, state)
          else
            Persist(state.(
              lease := Lease(state.lease.sequence + 1, Some(holder), requestId, at.stampAt + leaseMs),
              inherited := false))
        else if state.lease.holder == Some(holder)
                && !state.inherited
                && requestId.Some? && requestId == state.lease.requestId then
          Answer(Grant(state), state)
        else Answer(Busy(RemainingMs(state, at.testAt)), state)
    case Renew(holder, token, leaseMs) =>
      if !(BoundedText(holder) && ValidLeaseMs(leaseMs, maxLeaseMs)) then
        Answer(InvalidRenew, state0)
      else
        var state := Expire(state0, at.expireAt);
        if Owns(state, holder, token, at.testAt) then
          Persist(state.(lease := state.lease.(expiresAt := at.stampAt + leaseMs)))
        else Answer(StaleOrNotOwner, state)
    case Release(holder, token) =>
      var state := Expire(state0, at.expireAt);
      if Owns(state, holder, token, at.testAt) then Persist(state.(lease := Freed(state.lease)))
      else Answer(StaleOrNotOwner, state)
    case Status =>
      var state := Expire(state0, at.expireAt);
      Answer(CurrentStatus(state, RemainingMs(state, at.testAt)), state)
  }

  /** The reply once the candidate is committed; only a candidate of these three calls exists. */
  function CommittedReply(request: Request, next: State): Reply {
    if request.Release? then Released else Grant(next)
  }

  /** The state an actor may hold: a free lease carries nothing, a held one is within bounds. */
  predicate WellFormed(lease: Lease) {
    && Encodable(lease)
    && (lease.holder.None? ==> lease.requestId.None? && lease.expiresAt == 0)
    && (lease.holder.Some? ==> 0 < lease.sequence && 0 < lease.expiresAt)
  }

  /** Asked again under the same request id, the actor would hand out its token from the cache. */
  predicate CanReplay(state: State, now: nat) {
    Live(state.lease, now) && !state.inherited && state.lease.requestId.Some?
  }

  /** The cached lease agrees with the stored one, except that an expired one may have been cleared. */
  predicate SameUpToExpiry(cached: Lease, stored: Lease, now: nat) {
    cached == stored || (stored.expiresAt <= now && cached == Freed(stored))
  }

  /**
   * What any call keeps: the cache moves only by expiring, a candidate stays within bounds, the version
   * and the epochs stay, and a token is handed out without a commit only for a live lease of the
   * actor's own.
   */
  predicate Respects(state0: State, outcome: Outcome, checkedAt: nat) {
    match outcome
    case Answer(reply, state) =>
      && WellFormed(state.lease)
      && SameUpToExpiry(state.lease, state0.lease, checkedAt)
      && state.(lease := state0.lease, inherited := state0.inherited) == state0
      && (state.lease.holder.Some? ==> state.inherited == state0.inherited)
      && (reply.Granted? ==> CanReplay(state, checkedAt) && reply == Grant(state))
    case Persist(candidate) =>
      && WellFormed(candidate.lease)
      && candidate.(lease := state0.lease, inherited := state0.inherited) == state0
      && !candidate.inherited
  }

  lemma HandleRespects(state0: State, request: Request, maxLeaseMs: int, at: Readings)
    requires WellFormed(state0.lease)
    ensures Respects(state0, Handle(state0, request, maxLeaseMs, at), at.expireAt)
  {
    if request.Acquire? {
      assert Handle(state0, request, maxLeaseMs, at).Persist? ==>
          Expire(state0, at.expireAt).lease.sequence < MAX_FENCING_SEQUENCE;
    }
  }

  /**
   * The decision table of a valid acquire: a fresh grant only on a free lease below the sequence cap,
   * a replay only of the actor's own live grant under the same request id, otherwise busy for what is
   * left of the lease.
   */
  lemma AcquireDecision(state0: State, holder: Binary, requestId: Option<Binary>, leaseMs: int, maxLeaseMs: int,
                        at: Readings)
    requires 0 < |holder| <= 256 && 0 !in holder && 0 < leaseMs <= maxLeaseMs
    requires requestId.Some? ==> 0 < |requestId.value| <= 256 && 0 !in requestId.value
    requires WellFormed(state0.lease)
    ensures var outcome := Handle(state0, Acquire(holder, requestId, leaseMs), maxLeaseMs, at);
            var mine := state0.lease.holder == Some(holder) && requestId.Some? && state0.lease.requestId == requestId;
            && (outcome.Persist? <==>
                !Live(state0.lease, at.expireAt) && state0.lease.sequence < MAX_FENCING_SEQUENCE)
            && (outcome.Persist? ==>
                && outcome.candidate.lease.sequence == state0.lease.sequence + 1
                && outcome.candidate.lease.holder == Some(holder)
                && outcome.candidate.lease.requestId == requestId
                && outcome.candidate.lease.expiresAt == at.stampAt + leaseMs)
            && (outcome.Answer? && outcome.reply.Granted? <==>
                Live(state0.lease, at.expireAt) && mine && !state0.inherited)
            && (outcome.Answer? && outcome.reply.Granted? ==>
                && outcome.reply.expiresAt == state0.lease.expiresAt
                && outcome.reply.token == Token(state0.runtimeEpoch, state0.ownerEpoch, state0.lease.sequence))
            && (outcome.Answer? && outcome.reply.Busy? <==>
                Live(state0.lease, at.expireAt) && !(mine && !state0.inherited))
            && (outcome.Answer? && outcome.reply.Busy? ==>
                if at.testAt < state0.lease.expiresAt then
                  at.testAt + outcome.reply.remainingMs == state0.lease.expiresAt
                else outcome.reply.remainingMs == 0)
            && (outcome.Answer? && outcome.reply.FencingExhausted? <==>
                !Live(state0.lease, at.expireAt) && state0.lease.sequence == MAX_FENCING_SEQUENCE)
  {
  }

  /**
   * The decision table of a valid renewal: the lease is touched only for the holder of the very token this
   * actor would hand out for its live lease, and only if the actor granted it itself. It moves the expiry
   * alone.
   */
  lemma RenewDecision(state0: State, holder: Binary, token: Option<Token>, leaseMs: int, maxLeaseMs: int, at: Readings)
    requires 0 < |holder| <= 256 && 0 !in holder && 0 < leaseMs <= maxLeaseMs
    ensures var renewed := Handle(state0, Renew(holder, token, leaseMs), maxLeaseMs, at);
            var expired := state0.(lease := Lease(state0.lease.sequence, None, None, 0), inherited := false);
            if IsHeldBy(state0, holder, token, at) then
              renewed == Persist(state0.(lease := state0.lease.(expiresAt := at.stampAt + leaseMs)))
            else
              renewed == Answer(StaleOrNotOwner,
                                if state0.lease.holder.Some? && !Live(state0.lease, at.expireAt) then expired
                                else state0)
  {
  }

  /** The holder names the token of this actor's own lease, which is live at both readings. */
  predicate IsHeldBy(state: State, holder: Binary, token: Option<Token>, at: Readings) {
    && Live(state.lease, at.expireAt) && Live(state.lease, at.testAt) && !state.inherited
    && state.lease.holder == Some(holder)
    && token == Some(Token(state.runtimeEpoch, state.ownerEpoch, state.lease.sequence))
  }

  /** A release frees the lease under the same condition, whatever holder it names, and leaves the sequence alone. */
  lemma ReleaseDecision(state0: State, holder: Binary, token: Option<Token>, maxLeaseMs: int, at: Readings)
    ensures var released := Handle(state0, Release(holder, token), maxLeaseMs, at);
            var freed := state0.(lease := Lease(state0.lease.sequence, None, None, 0));
            if IsHeldBy(state0, holder, token, at) then released == Persist(freed)
            else
              released == Answer(StaleOrNotOwner,
                                 if state0.lease.holder.Some? && !Live(state0.lease, at.expireAt) then
                                   freed.(inherited := false)
                                 else state0)
  {
  }

  /** A status answers with the cache, expired if it is due, and what is left of the lease; it commits nothing. */
  lemma StatusDecision(state0: State, maxLeaseMs: int, at: Readings)
    requires WellFormed(state0.lease)
    ensures var outcome := Handle(state0, Status, maxLeaseMs, at);
            && outcome.Answer? && outcome.reply == CurrentStatus(outcome.state, outcome.reply.remainingMs)
            && (Live(state0.lease, at.expireAt) || state0.lease.holder.None? ==> outcome.state == state0)
            && (state0.lease.holder.Some? && state0.lease.expiresAt <= at.expireAt ==>
                outcome.state == state0.(lease := Lease(state0.lease.sequence, None, None, 0), inherited := false))
            && (if Live(outcome.state.lease, at.testAt) then
                  at.testAt + outcome.reply.remainingMs == outcome.state.lease.expiresAt
                else outcome.reply.remainingMs == 0)
  {
  }

  /**
   * Which calls are well formed: an acquire or a renewal that asks for no time, for more than the maximum, or
   * by a name of more than 256 bytes, of none, or with a NUL, is refused as invalid and touches nothing; no
   * other call is.
   */
  lemma MalformedCalls(state0: State, holder: Binary, requestId: Option<Binary>, token: Option<Token>, leaseMs: int,
                       maxLeaseMs: int, at: Readings)
    ensures var acquired := Handle(state0, Acquire(holder, requestId, leaseMs), maxLeaseMs, at);
            var renewed := Handle(state0, Renew(holder, token, leaseMs), maxLeaseMs, at);
            var badHolder := |holder| == 0 || 256 < |holder| || 0 in holder;
            var badRequest := requestId.Some?
                              && (|requestId.value| == 0 || 256 < |requestId.value| || 0 in requestId.value);
            var badLength := leaseMs <= 0 || maxLeaseMs < leaseMs;
            && (badHolder || badRequest || badLength ==> acquired == Answer(InvalidAcquire, state0))
            && (acquired.Answer? && acquired.reply.InvalidAcquire? ==> badHolder || badRequest || badLength)
            && (badHolder || badLength ==> renewed == Answer(InvalidRenew, state0))
            && (renewed.Answer? && renewed.reply.InvalidRenew? ==> badHolder || badLength)
  {
  }

  /** No call asks the store for a lease of no time or of more than the maximum, counted from its last clock reading. */
  lemma CandidateLength(state0: State, request: Request, maxLeaseMs: int, at: Readings)
    requires Handle(state0, request, maxLeaseMs, at).Persist?
    ensures var lease := Handle(state0, request, maxLeaseMs, at).candidate.lease;
            lease.holder.Some? ==> at.stampAt < lease.expiresAt <= at.stampAt + maxLeaseMs
  {
  }

  /**
   * What a client is told after a commit is its token and expiry, which renew and release then accept; after a
   * release it is told that.
   */
  lemma GrantedTokenIsAccepted(committed: State, request: Request, leaseMs: int, maxLeaseMs: int, at: Readings)
    requires Live(committed.lease, at.expireAt) && Live(committed.lease, at.testAt) && !committed.inherited
    requires var holder := committed.lease.holder.value; 0 < |holder| <= 256 && 0 !in holder
    requires 0 < leaseMs <= maxLeaseMs
    ensures CommittedReply(request, committed).Released? <==> request.Release?
    ensures var reply := CommittedReply(request, committed);
            var holder := committed.lease.holder.value;
            !request.Release? ==>
              && reply.Granted? && reply.expiresAt == committed.lease.expiresAt
              && Handle(committed, Renew(holder, Some(reply.token), leaseMs), maxLeaseMs, at).Persist?
              && Handle(committed, Release(holder, Some(reply.token)), maxLeaseMs, at).Persist?
  {
  }
}
