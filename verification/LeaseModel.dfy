/**
 * The repository's own abstraction of lease failover, which it explores up to time 4, epoch 3 and
 * sequence 4. Here time, epochs and holders are unbounded, the sequence is bounded by the real cap, and
 * the length of a lease, at least 1, is chosen by each action instead of being the constant 2.
 */
module LeaseModel {
  import opened Options
  import opened LeaseCodec

  datatype State = State(
    now: nat,
    currentOwnerEpoch: nat,
    leaseOwnerEpoch: nat,
    sequence: nat,
    holder: Option<Binary>,
    requestId: Option<Binary>,
    expiresAt: nat,
    inherited: bool)

  datatype Action =
    | Tick
    | Failover
    | Acquire(holder: Binary, requestId: Option<Binary>, until: nat)
    | Renew(holder: Binary, ownerEpoch: nat, sequence: nat, until: nat)
    | Release(holder: Binary, ownerEpoch: nat, sequence: nat)

  function Initial(now: nat): State {
    State(now, 1, 0, 0, None, None, 0, false)
  }

  function Expire(s: State): State {
    if s.holder.Some? && s.expiresAt <= s.now then
      s.(holder := None, requestId := None, expiresAt := 0, inherited := false)
    else s
  }

  predicate Owns(s: State, holder: Binary, ownerEpoch: nat, sequence: nat) {
    && s.holder == Some(holder)
    && !s.inherited
    && s.leaseOwnerEpoch == ownerEpoch
    && s.currentOwnerEpoch == ownerEpoch
    && s.sequence == sequence
    && s.now < s.expiresAt
  }

  predicate Invariant(s: State) {
    && 0 < s.currentOwnerEpoch
    && s.sequence <= MAX_FENCING_SEQUENCE
    && match s.holder
       case None => s.expiresAt == 0 && !s.inherited && s.requestId.None?
       case Some(_) =>
         && s.now < s.expiresAt
         && s.requestId.Some?
         && 0 < s.leaseOwnerEpoch <= s.currentOwnerEpoch
         && (s.inherited <==> s.leaseOwnerEpoch < s.currentOwnerEpoch)
  }

  /** `None` when the action is not enabled. An acquire or a renewal leaves a live lease. */
  function Step(input: State, action: Action): Option<State> {
    var s := Expire(input);
    match action
    case Tick => Some(Expire(s.(now := s.now + 1)))
    case Failover => Some(s.(currentOwnerEpoch := s.currentOwnerEpoch + 1, inherited := s.holder.Some?))
    case Acquire(holder, requestId, until) =>
      if requestId.Some? && s.holder.None? && s.sequence < MAX_FENCING_SEQUENCE && s.now < until then
        Some(s.(holder := Some(holder), requestId := requestId, leaseOwnerEpoch := s.currentOwnerEpoch,
                sequence := s.sequence + 1, expiresAt := until, inherited := false))
      else if requestId.Some? && !s.inherited && s.holder == Some(holder) && s.requestId == requestId then Some(s)
      else None
    case Renew(holder, ownerEpoch, sequence, until) =>
      if Owns(s, holder, ownerEpoch, sequence) && s.now < until then Some(s.(expiresAt := until)) else None
    case Release(holder, ownerEpoch, sequence) =>
      if Owns(s, holder, ownerEpoch, sequence) then
        Some(s.(holder := None, requestId := None, expiresAt := 0, inherited := false))
      else None
  }

  /** The model's own assertions: a step keeps the invariant and never lowers the epoch or the sequence. */
  lemma StepKeepsInvariant(s: State, action: Action)
    requires Invariant(s) && Step(s, action).Some?
    ensures var next := Step(s, action).value;
            && Invariant(next)
            && s.currentOwnerEpoch <= next.currentOwnerEpoch
            && s.sequence <= next.sequence
            && (next.sequence != s.sequence ==> next.sequence == s.sequence + 1 && s.holder.None?)
  {
  }

  /** On a free section a step makes a lease exactly when it spends a sequence. */
  lemma LeaseCostsSequence(s: State, action: Action, next: State)
    requires s.holder.None? && Step(s, action) == Some(next)
    ensures next.holder.Some? <==> next.sequence == s.sequence + 1
  {
  }

  /** On a free section, a lease is made or a sequence spent, but not both. */
  predicate MakesOneAlone(s: State, next: State) {
    s.holder.None? && (next.holder.Some? <==> next.sequence != s.sequence + 1)
  }

  /** `next` is `s` itself or a step away. */
  ghost predicate StepOrStutter(s: State, next: State) {
    next == s || exists action :: Step(s, action) == Some(next)
  }

  /** No step does that. */
  lemma NoStepMakesOneAlone(s: State, next: State)
    requires MakesOneAlone(s, next)
    ensures !StepOrStutter(s, next)
  {
    forall action ensures Step(s, action) != Some(next) {
      if Step(s, action) == Some(next) {
        LeaseCostsSequence(s, action, next);
      }
    }
  }

  /**
   * When each action is enabled: time and failovers always; an acquire on a free section below the cap, or as
   * the replay of one's own lease under its request id, which changes nothing; a renewal or release for the
   * holder of the current owner's token.
   */
  lemma EnabledActions(s: State, action: Action)
    requires Invariant(s)
    ensures Step(s, action).Some? <==>
            match action
            case Tick => true
            case Failover => true
            case Acquire(holder, requestId, until) =>
              && requestId.Some?
              && ((s.holder.None? && s.sequence < 9007199254740991 && s.now < until)
                  || (!s.inherited && s.holder == Some(holder) && s.requestId == requestId))
            case Renew(holder, ownerEpoch, sequence, until) =>
              && !s.inherited && s.holder == Some(holder) && s.currentOwnerEpoch == ownerEpoch
              && s.sequence == sequence && s.now < until
            case Release(holder, ownerEpoch, sequence) =>
              && !s.inherited && s.holder == Some(holder) && s.currentOwnerEpoch == ownerEpoch
              && s.sequence == sequence
    ensures action.Acquire? && s.holder.Some? && Step(s, action).Some? ==> Step(s, action) == Some(s)
  {
  }

  /** A live inherited lease enables nothing but ticks and further failovers, replay included. */
  lemma InheritedEnablesNothing(s: State, action: Action)
    requires Invariant(s) && s.inherited
    ensures Step(s, action).Some? <==> action.Tick? || action.Failover?
  {
  }

  function Run(s: State, actions: seq<Action>): Option<State>
    decreases |actions|
  {
    if actions == [] then Some(s)
    else
      match Step(s, actions[0])
      case None => None
      case Some(next) => Run(next, actions[1..])
  }

  lemma {:induction false} RunKeepsInvariant(s: State, actions: seq<Action>)
    requires Invariant(s) && Run(s, actions).Some?
    ensures Invariant(Run(s, actions).value)
    ensures s.currentOwnerEpoch <= Run(s, actions).value.currentOwnerEpoch
    ensures s.sequence <= Run(s, actions).value.sequence
    decreases |actions|
  {
    if actions != [] {
      StepKeepsInvariant(s, actions[0]);
      RunKeepsInvariant(Step(s, actions[0]).value, actions[1..]);
    }
  }

  /** One more step at the end of a run. */
  lemma {:induction false} RunThenStep(s: State, actions: seq<Action>, action: Action)
    requires Run(s, actions).Some?
    ensures Run(s, actions + [action]) == Step(Run(s, actions).value, action)
    decreases |actions|
  {
    if actions == [] {
      assert [action][1..] == [];
      assert actions + [action] == [action];
    } else {
      assert (actions + [action])[1..] == actions[1..] + [action];
      RunThenStep(Step(s, actions[0]).value, actions[1..], action);
    }
  }
}
