/** The actors and the store, seen through one key, refine the abstract model of lease failover. */
module LeaseRefinement {
  import opened Options
  import opened DurableStore
  import opened LeaseActor
  import opened LeaseProtocol
  import opened LeaseInvariant
  import opened LeaseFencing
  import LeaseModel

  /** The stored lease with expiry applied, the scope's epoch, and the epoch of the granting owner. */
  function Abstract(cfg: Config, s: System, key: Key): LeaseModel.State {
    var lease := Stored(s.store, key);
    var owner := OwnerOf(cfg, s, key);
    if Live(lease, s.now) then
      LeaseModel.State(s.now, owner, GrantorOf(s, key), lease.sequence, lease.holder, lease.requestId, lease.expiresAt,
                       GrantorOf(s, key) < owner)
    else LeaseModel.State(s.now, owner, GrantorOf(s, key), lease.sequence, None, None, 0, false)
  }

  /** Every acquire carries a request id, as the wire protocol makes sure. */
  predicate NamedStep(e: Event) {
    e.Call? && e.request.Acquire? ==> e.request.requestId.Some?
  }

  ghost predicate Named(s: System) {
    && (forall m | m in s.wire && m.request.Acquire? :: m.request.requestId.Some?)
    && (forall key :: Stored(s.store, key).holder.Some? ==> Stored(s.store, key).requestId.Some?)
  }

  lemma StepKeepsNamedRow(cfg: Config, s: System, e: Event, key: Key)
    requires Inv(cfg, s) && Named(s)
    ensures var lease := Stored(Next(cfg, s, e).store, key);
            lease.holder.Some? ==> lease.requestId.Some?
  {
    StepFrame(cfg, s, e);
    assert Stored(s.store, key).holder.Some? ==> Stored(s.store, key).requestId.Some?;
    if e.Deliver? && Lands(cfg, s, e.message) {
      LandEffect(cfg, s, e.message, key);
    }
  }

  /** Only a call adds to the messages, and only its own request. */
  lemma StepKeepsNamedWire(cfg: Config, s: System, e: Event)
    requires Named(s) && NamedStep(e)
    ensures forall m | m in Next(cfg, s, e).wire && m.request.Acquire? :: m.request.requestId.Some?
  {
    StepFrame(cfg, s, e);
  }

  lemma StepKeepsNamed(cfg: Config, s: System, e: Event)
    requires Inv(cfg, s) && Named(s) && NamedStep(e)
    ensures Named(Next(cfg, s, e))
  {
    StepKeepsNamedWire(cfg, s, e);
    forall key
      ensures Stored(Next(cfg, s, e).store, key).holder.Some? ==> Stored(Next(cfg, s, e).store, key).requestId.Some?
    {
      StepKeepsNamedRow(cfg, s, e, key);
    }
  }

  /** A renewal checked before its lease expired, but landing after, brings the expired lease back. */
  predicate LateRenewal(cfg: Config, s: System, e: Event, key: Key) {
    && e.Deliver? && Lands(cfg, s, e.message) && e.message.key == key && e.message.request.Renew?
    && Stored(s.store, key).expiresAt <= s.now < e.message.candidate.lease.expiresAt
  }

  /** An acquire that lands when its own lease has already expired spends a sequence and leaves no lease. */
  predicate DeadGrant(cfg: Config, s: System, e: Event, key: Key) {
    && e.Deliver? && Lands(cfg, s, e.message) && e.message.key == key && e.message.request.Acquire?
    && e.message.candidate.lease.expiresAt <= s.now
  }

  /** The landings that the abstract machine, where a commit takes no time, does not have. */
  predicate Untimely(cfg: Config, s: System, e: Event, key: Key) {
    LateRenewal(cfg, s, e, key) || DeadGrant(cfg, s, e, key)
  }

  /** The abstract action of a concrete step; `None` for a stutter. A renewal into the past is a release. */
  function ActionOf(cfg: Config, s: System, e: Event, key: Key): Option<LeaseModel.Action> {
    if e.Tick? then Some(LeaseModel.Tick)
    else if e.Claim? then
      if e.id !in s.actors && e.runtimeEpoch != 0 && ScopeOf(cfg, e.key) == ScopeOf(cfg, key) then
        Some(LeaseModel.Failover)
      else None
    else if e.Deliver? && Lands(cfg, s, e.message) && e.message.key == key then
      var next := e.message.candidate.lease;
      var epoch := e.message.candidate.ownerEpoch;
      match e.message.request
      case Acquire(holder, requestId, _) => Some(LeaseModel.Acquire(holder, requestId, next.expiresAt))
      case Renew(holder, _, _) =>
        if !Live(Stored(s.store, key), s.now) then None
        else if next.expiresAt <= s.now then Some(LeaseModel.Release(holder, epoch, next.sequence))
        else Some(LeaseModel.Renew(holder, epoch, next.sequence, next.expiresAt))
      case Release(holder, _) =>
        if Live(Stored(s.store, key), s.now) then Some(LeaseModel.Release(holder, epoch, next.sequence)) else None
      case Status => None
    else None
  }

  predicate Matches(before: LeaseModel.State, action: Option<LeaseModel.Action>, after: LeaseModel.State) {
    match action
    case None => after == before
    case Some(a) => LeaseModel.Step(before, a) == Some(after)
  }

  /** What a step shows of the key is what its action does to the abstract state. */
  predicate Refines(cfg: Config, s: System, e: Event, key: Key) {
    Matches(Abstract(cfg, s, key), ActionOf(cfg, s, e, key), Abstract(cfg, Next(cfg, s, e), key))
  }

  lemma AcquireLandingRefines(cfg: Config, s: System, m: Message)
    requires Inv(cfg, s) && Named(s) && Lands(cfg, s, m) && m.request.Acquire?
    requires !DeadGrant(cfg, s, Deliver(m), m.key)
    ensures Matches(Abstract(cfg, s, m.key), ActionOf(cfg, s, Deliver(m), m.key), Abstract(cfg, Land(cfg, s, m), m.key))
  {
    LandEffect(cfg, s, m, m.key);
    assert MessageOk(cfg, s, m) && RowOk(s, m.key);
  }

  lemma RenewalLandingRefines(cfg: Config, s: System, m: Message)
    requires Inv(cfg, s) && Lands(cfg, s, m) && m.request.Renew?
    requires !LateRenewal(cfg, s, Deliver(m), m.key)
    ensures Matches(Abstract(cfg, s, m.key), ActionOf(cfg, s, Deliver(m), m.key), Abstract(cfg, Land(cfg, s, m), m.key))
  {
    LandEffect(cfg, s, m, m.key);
    assert MessageOk(cfg, s, m) && RowOk(s, m.key);
  }

  lemma ReleaseLandingRefines(cfg: Config, s: System, m: Message)
    requires Inv(cfg, s) && Lands(cfg, s, m) && m.request.Release?
    ensures Matches(Abstract(cfg, s, m.key), ActionOf(cfg, s, Deliver(m), m.key), Abstract(cfg, Land(cfg, s, m), m.key))
  {
    LandEffect(cfg, s, m, m.key);
    assert MessageOk(cfg, s, m) && RowOk(s, m.key);
  }

  lemma OtherLandingStutters(cfg: Config, s: System, m: Message, key: Key)
    requires Inv(cfg, s) && Lands(cfg, s, m) && m.key != key
    ensures Abstract(cfg, Land(cfg, s, m), key) == Abstract(cfg, s, key)
  {
    LandEffect(cfg, s, m, key);
  }

  lemma LandingRefines(cfg: Config, s: System, m: Message, key: Key)
    requires Inv(cfg, s) && Named(s) && Lands(cfg, s, m) && !Untimely(cfg, s, Deliver(m), key)
    ensures Matches(Abstract(cfg, s, key), ActionOf(cfg, s, Deliver(m), key), Abstract(cfg, Land(cfg, s, m), key))
  {
    assert MessageOk(cfg, s, m);
    if m.key != key {
      OtherLandingStutters(cfg, s, m, key);
    } else if m.request.Acquire? {
      AcquireLandingRefines(cfg, s, m);
    } else if m.request.Renew? {
      RenewalLandingRefines(cfg, s, m);
    } else {
      ReleaseLandingRefines(cfg, s, m);
    }
  }

  /** The abstract state depends on the rows, the grants, the owners and the clock alone. */
  lemma SameView(cfg: Config, s: System, s': System, key: Key)
    requires s'.store == s.store && s'.mints == s.mints && s'.now == s.now
    ensures Abstract(cfg, s', key) == Abstract(cfg, s, key)
  {
  }

  /** A delivery is seen as what it lands, or not at all. */
  lemma DeliveryView(cfg: Config, s: System, m: Message, key: Key)
    ensures Abstract(cfg, DoDeliver(cfg, s, m), key)
            == if Lands(cfg, s, m) then Abstract(cfg, Land(cfg, s, m), key) else Abstract(cfg, s, key)
  {
    if Lands(cfg, s, m) {
      SameView(cfg, Land(cfg, s, m), DoDeliver(cfg, s, m), key);
    }
  }

  lemma DeliverRefines(cfg: Config, s: System, m: Message, key: Key)
    requires Inv(cfg, s) && Named(s) && !Untimely(cfg, s, Deliver(m), key)
    ensures Refines(cfg, s, Deliver(m), key)
  {
    DeliveryView(cfg, s, m, key);
    if Lands(cfg, s, m) {
      LandingRefines(cfg, s, m, key);
    }
  }

  lemma ClaimRefines(cfg: Config, s: System, e: Event, key: Key)
    requires Inv(cfg, s) && e.Claim?
    ensures Refines(cfg, s, e, key)
  {
    assert MintsOk(cfg, s, key) && RowOk(s, key);
  }

  lemma TickRefines(cfg: Config, s: System, key: Key)
    requires Inv(cfg, s)
    ensures Refines(cfg, s, Tick, key)
  {
    assert RowOk(s, key);
  }

  /** Every other step is a stutter. */
  lemma ActorStepStutters(cfg: Config, s: System, e: Event, key: Key)
    requires !e.Tick? && !e.Claim? && !e.Deliver?
    ensures Refines(cfg, s, e, key)
  {
    StepFrame(cfg, s, e);
    SameView(cfg, s, Next(cfg, s, e), key);
  }

  lemma StepRefines(cfg: Config, s: System, e: Event, key: Key)
    requires Inv(cfg, s) && Named(s) && !Untimely(cfg, s, e, key)
    ensures Refines(cfg, s, e, key)
  {
    match e
    case Tick => TickRefines(cfg, s, key);
    case Claim(_, _, _, _) => ClaimRefines(cfg, s, e, key);
    case Deliver(m) => DeliverRefines(cfg, s, m, key);
    case _ => ActorStepStutters(cfg, s, e, key);
  }

  /** An untimely landing makes a lease without a new sequence, or spends a sequence without making a lease. */
  lemma UntimelyEffect(cfg: Config, s: System, m: Message)
    requires Inv(cfg, s) && Untimely(cfg, s, Deliver(m), m.key)
    ensures LeaseModel.MakesOneAlone(Abstract(cfg, s, m.key), Abstract(cfg, Land(cfg, s, m), m.key))
  {
    LandEffect(cfg, s, m, m.key);
    assert MessageOk(cfg, s, m) && RowOk(s, m.key);
  }

  lemma UntimelyView(cfg: Config, s: System, m: Message)
    requires Inv(cfg, s) && Untimely(cfg, s, Deliver(m), m.key)
    ensures LeaseModel.MakesOneAlone(Abstract(cfg, s, m.key), Abstract(cfg, DoDeliver(cfg, s, m), m.key))
  {
    UntimelyEffect(cfg, s, m);
    DeliveryView(cfg, s, m, m.key);
  }

  /** So it is no abstract step at all. */
  lemma UntimelyIsNoStep(cfg: Config, s: System, m: Message)
    requires Inv(cfg, s) && Untimely(cfg, s, Deliver(m), m.key)
    ensures !LeaseModel.StepOrStutter(Abstract(cfg, s, m.key), Abstract(cfg, DoDeliver(cfg, s, m), m.key))
  {
    UntimelyView(cfg, s, m);
    LeaseModel.NoStepMakesOneAlone(Abstract(cfg, s, m.key), Abstract(cfg, DoDeliver(cfg, s, m), m.key));
  }

  lemma RefinesIsStep(cfg: Config, s: System, e: Event, key: Key)
    requires Refines(cfg, s, e, key)
    ensures LeaseModel.StepOrStutter(Abstract(cfg, s, key), Abstract(cfg, Next(cfg, s, e), key))
  {
  }

  /**
   * The refinement, exactly: a concrete step is a step of the repository's abstract machine or a stutter if
   * and only if it is neither a renewal that lands after the lease has expired nor an acquire that lands
   * after its own expiry.
   */
  lemma RefinementBoundary(cfg: Config, s: System, e: Event, key: Key)
    requires Inv(cfg, s) && Named(s)
    ensures !Untimely(cfg, s, e, key) <==>
            LeaseModel.StepOrStutter(Abstract(cfg, s, key), Abstract(cfg, Next(cfg, s, e), key))
  {
    if Untimely(cfg, s, e, key) {
      assert e == Deliver(e.message) && Next(cfg, s, e) == DoDeliver(cfg, s, e.message) && key == e.message.key;
      UntimelyIsNoStep(cfg, s, e.message);
    } else {
      StepRefines(cfg, s, e, key);
      RefinesIsStep(cfg, s, e, key);
    }
  }

  /** Before its first claim a scope is outside the model; the claim brings it to the initial state. */
  lemma FirstClaimIsInitial(cfg: Config, s: System, e: Event, key: Key)
    requires Inv(cfg, s) && OwnerOf(cfg, s, key) == 0 && OwnerOf(cfg, Next(cfg, s, e), key) != 0
    ensures Abstract(cfg, Next(cfg, s, e), key) == LeaseModel.Initial(s.now)
  {
    assert MintsOk(cfg, s, key) && RowOk(s, key);
    if e.Deliver? && Lands(cfg, s, e.message) {
      LandEffect(cfg, s, e.message, key);
    }
  }

  predicate TimelyRun(cfg: Config, s: System, events: seq<Event>, key: Key)
    decreases |events|
  {
    events == []
    || (NamedStep(events[0]) && !Untimely(cfg, s, events[0], key)
        && TimelyRun(cfg, Next(cfg, s, events[0]), events[1..], key))
  }

  predicate NamedRun(events: seq<Event>) {
    forall i | 0 <= i < |events| :: NamedStep(events[i])
  }

  /** What the run has shown so far of the abstract model: nothing before the first claim, then a run of it. */
  ghost predicate Shown(cfg: Config, s: System, key: Key, start: nat, actions: seq<LeaseModel.Action>) {
    0 < OwnerOf(cfg, s, key) ==> LeaseModel.Run(LeaseModel.Initial(start), actions) == Some(Abstract(cfg, s, key))
  }

  lemma StepShows(cfg: Config, s: System, e: Event, key: Key, start: nat, actions: seq<LeaseModel.Action>)
    returns (start': nat, actions': seq<LeaseModel.Action>)
    requires Inv(cfg, s) && Named(s) && !Untimely(cfg, s, e, key) && Shown(cfg, s, key, start, actions)
    ensures Shown(cfg, Next(cfg, s, e), key, start', actions')
  {
    if OwnerOf(cfg, s, key) == 0 {
      start', actions' := s.now, [];
      if OwnerOf(cfg, Next(cfg, s, e), key) != 0 {
        FirstClaimIsInitial(cfg, s, e, key);
      }
    } else {
      StepRefines(cfg, s, e, key);
      MintsNeverShrink(cfg, s, e, key);
      start', actions' := start, actions;
      if ActionOf(cfg, s, e, key).Some? {
        actions' := actions + [ActionOf(cfg, s, e, key).value];
        LeaseModel.RunThenStep(LeaseModel.Initial(start), actions, ActionOf(cfg, s, e, key).value);
      }
    }
  }

  lemma {:induction false} RunShows(cfg: Config, s: System, events: seq<Event>, key: Key, start: nat,
                                    actions: seq<LeaseModel.Action>)
    returns (start': nat, actions': seq<LeaseModel.Action>)
    requires Inv(cfg, s) && Named(s) && TimelyRun(cfg, s, events, key) && Shown(cfg, s, key, start, actions)
    ensures Shown(cfg, Run(cfg, s, events), key, start', actions')
    decreases |events|
  {
    if events == [] {
      start', actions' := start, actions;
    } else {
      var t, shown := StepShows(cfg, s, events[0], key, start, actions);
      NextKeeps(cfg, s, events[0]);
      StepKeepsNamed(cfg, s, events[0]);
      start', actions' := RunShows(cfg, Next(cfg, s, events[0]), events[1..], key, t, shown);
    }
  }

  /** Refinement over whole runs: a run without untimely landings is, for each claimed key, a run of the model. */
  lemma RunRefines(cfg: Config, start: nat, events: seq<Event>, key: Key)
    returns (start': nat, actions: seq<LeaseModel.Action>)
    requires TimelyRun(cfg, Initial(start), events, key)
    requires 0 < OwnerOf(cfg, Run(cfg, Initial(start), events), key)
    ensures LeaseModel.Run(LeaseModel.Initial(start'), actions)
            == Some(Abstract(cfg, Run(cfg, Initial(start), events), key))
  {
    InitialHolds(cfg, start);
    start', actions := RunShows(cfg, Initial(start), events, key, start, []);
  }

  lemma {:induction false} RunKeepsNamed(cfg: Config, s: System, events: seq<Event>)
    requires Inv(cfg, s) && Named(s) && NamedRun(events)
    ensures Inv(cfg, Run(cfg, s, events)) && Named(Run(cfg, s, events))
    decreases |events|
  {
    if events != [] {
      NextKeeps(cfg, s, events[0]);
      StepKeepsNamed(cfg, s, events[0]);
      RunKeepsNamed(cfg, Next(cfg, s, events[0]), events[1..]);
    }
  }

  /** The model's invariant holds of every claimed key in every reachable state, untimely landings included. */
  lemma ModelInvariantHolds(cfg: Config, start: nat, events: seq<Event>, key: Key)
    requires NamedRun(events) && 0 < OwnerOf(cfg, Run(cfg, Initial(start), events), key)
    ensures LeaseModel.Invariant(Abstract(cfg, Run(cfg, Initial(start), events), key))
  {
    InitialHolds(cfg, start);
    RunKeepsNamed(cfg, Initial(start), events);
    var s := Run(cfg, Initial(start), events);
    assert MintsOk(cfg, s, key) && RowOk(s, key);
  }
}
