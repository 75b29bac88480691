/**
 * Any number of actors and one store under one nondecreasing clock.
 *
 * Claim, load and start are separate steps. A commit travels as a message: once sent it may be
 * delivered at any later time, any number of times, or never, whether or not its sender still waits
 * for it or still lives. The answer travels too: a sender that still waits learns at any time after the
 * landing that its commit landed, or never does and gives up. The record of what clients were told is
 * kept beside the state and never read by a step.
 */
module LeaseProtocol {
  import opened Options
  import opened LeaseCodec
  import opened DurableStore
  import LeaseActor

  datatype Config = Config(hash: Key -> nat, maxLeaseMs: int)

  function ScopeOf(cfg: Config, key: Key): Scope {
    ScopeFor(cfg.hash, key)
  }

  /** A commit in flight: `candidate` carries the owner epoch, the expected version and the new lease. */
  datatype Message = Message(
    sender: nat, key: Key, request: LeaseActor.Request, candidate: LeaseActor.State, checkedAt: nat, sentAt: nat)

  datatype Actor =
    | Claiming(key: Key, runtimeEpoch: nat, ownerEpoch: nat)
    | Loading(key: Key, state: LeaseActor.State)
    | Running(key: Key, state: LeaseActor.State, waiting: Option<Message>, landed: bool)

  /** A landed fresh grant. */
  datatype Mint = Mint(ownerEpoch: nat, sequence: nat, holder: Option<Binary>, requestId: Option<Binary>)

  /** How much later than the first the second and the third clock reading of a call are. */
  datatype Lag = Lag(test: nat, stamp: nat)

  /**
   * What a client was last told about a sequence, or will be told of its committed acquire: it holds the
   * section until `expiresAt`. The client has given it back once its release has been committed.
   */
  datatype Promise = Promise(holder: Option<Binary>, expiresAt: nat, givenBack: bool)

  /** A token handed to a client. */
  datatype Issue = Issue(key: Key, mint: Mint)

  datatype System = System(
    now: nat,
    store: Store,
    actors: map<nat, Actor>,
    wire: set<Message>,
    mints: map<Key, seq<Mint>>,
    promises: map<(Key, nat), Promise>,
    issued: set<Issue>)

  datatype Event =
    | Tick
    | Claim(id: nat, key: Key, runtimeEpoch: nat, answered: bool)
    | Load(id: nat)
    | Start(id: nat)
    | Call(id: nat, request: LeaseActor.Request, lag: Lag)
    | Deliver(message: Message)
    | Reply(id: nat)
    | GiveUp(id: nat)
    | Crash(id: nat)

  function Initial(now: nat): System {
    System(now, EMPTY_STORE, map[], {}, map[], map[], {})
  }

  function MintsOf(s: System, key: Key): seq<Mint> {
    if key in s.mints then s.mints[key] else []
  }

  /** The stored lease as a loader sees it; `None` when the row does not decode. */
  function Loaded(store: Store, key: Key): Option<Lease> {
    match RowOf(store, key)
    case None => Some(FREE_LEASE)
    case Some(row) =>
      match Decode(row.payload)
      case Decoded(lease) => Some(lease)
      case _ => None
  }

  function Stored(store: Store, key: Key): Lease {
    Loaded(store, key).GetOr(FREE_LEASE)
  }

  function OwnerOf(cfg: Config, s: System, key: Key): nat {
    Owner(s.store, ScopeOf(cfg, key))
  }

  function MintOf(state: LeaseActor.State): Mint {
    Mint(state.ownerEpoch, state.lease.sequence, state.lease.holder, state.lease.requestId)
  }

  /** A client is told that the lease in `state` is its own. */
  function Tell(s: System, key: Key, state: LeaseActor.State): System {
    s.(promises := s.promises[(key, state.lease.sequence) := Promise(state.lease.holder, state.lease.expiresAt, false)],
       issued := s.issued + {Issue(key, MintOf(state))})
  }

  function DoClaim(cfg: Config, s: System, id: nat, key: Key, runtimeEpoch: nat, answered: bool): System {
    if id in s.actors || runtimeEpoch == 0 then s
    else
      var store := Claimed(s.store, ScopeOf(cfg, key));
      var actor := Claiming(key, runtimeEpoch, Owner(store, ScopeOf(cfg, key)));
      s.(store := store, actors := if answered then s.actors[id := actor] else s.actors)
  }

  function DoLoad(s: System, id: nat): System {
    if id in s.actors && s.actors[id].Claiming? then
      var a := s.actors[id];
      match Loaded(s.store, a.key)
      case None => s.(actors := s.actors - {id})
      case Some(lease) =>
        var state := LeaseActor.State(a.runtimeEpoch, a.ownerEpoch, Version(s.store, a.key), lease, false);
        s.(actors := s.actors[id := Loading(a.key, state)])
    else s
  }

  function DoStart(s: System, id: nat): System {
    if id in s.actors && s.actors[id].Loading? then
      var a := s.actors[id];
      var state := LeaseActor.Init(a.state.runtimeEpoch, a.state.ownerEpoch, a.state.version, a.state.lease, s.now);
      s.(actors := s.actors[id := Running(a.key, state, None, false)])
    else s
  }

  predicate Ready(s: System, id: nat) {
    id in s.actors && s.actors[id].Running? && s.actors[id].waiting.None?
  }

  function Answered(s: System, id: nat, reply: LeaseActor.Reply, state: LeaseActor.State): System
    requires Ready(s, id)
  {
    var s' := s.(actors := s.actors[id := s.actors[id].(state := state)]);
    if reply.Granted? then Tell(s', s.actors[id].key, state) else s'
  }

  function Sent(s: System, id: nat, m: Message): System
    requires Ready(s, id)
  {
    s.(actors := s.actors[id := s.actors[id].(waiting := Some(m), landed := false)], wire := s.wire + {m})
  }

  function ReadingsAt(now: nat, lag: Lag): LeaseActor.Readings {
    LeaseActor.Readings(now, now + lag.test, now + lag.test + lag.stamp)
  }

  function MessageOf(s: System, id: nat, request: LeaseActor.Request, lag: Lag, candidate: LeaseActor.State): Message
    requires Ready(s, id)
  {
    Message(id, s.actors[id].key, request, candidate, s.now, ReadingsAt(s.now, lag).stampAt)
  }

  function Resolved(s: System, id: nat, request: LeaseActor.Request, lag: Lag, outcome: LeaseActor.Outcome): System
    requires Ready(s, id)
  {
    match outcome
    case Answer(reply, state) => Answered(s, id, reply, state)
    case Persist(candidate) => Sent(s, id, MessageOf(s, id, request, lag, candidate))
  }

  function OutcomeOf(cfg: Config, s: System, id: nat, request: LeaseActor.Request, lag: Lag): LeaseActor.Outcome
    requires Ready(s, id)
  {
    LeaseActor.Handle(s.actors[id].state, request, cfg.maxLeaseMs, ReadingsAt(s.now, lag))
  }

  /** An actor serves one call at a time and is blocked while its commit is under way. */
  function DoCall(cfg: Config, s: System, id: nat, request: LeaseActor.Request, lag: Lag): System {
    if Ready(s, id) then Resolved(s, id, request, lag, OutcomeOf(cfg, s, id, request, lag)) else s
  }

  /** The store accepts the message. */
  predicate Lands(cfg: Config, s: System, m: Message) {
    && m in s.wire && m.sentAt <= s.now
    && CommitAnswer(s.store, m.key, m.candidate.version, ScopeOf(cfg, m.key), m.candidate.ownerEpoch).Committed?
  }

  /** The row changes; a landed acquire is a grant and a promise, and a landed release gives back what was promised. */
  function Land(cfg: Config, s: System, m: Message): System {
    var store := CommitEffect(s.store, m.key, m.candidate.version, ScopeOf(cfg, m.key), m.candidate.ownerEpoch,
                              Encode(m.candidate.lease));
    var mints := if m.request.Acquire? then s.mints[m.key := MintsOf(s, m.key) + [MintOf(m.candidate)]] else s.mints;
    var entry := (m.key, m.candidate.lease.sequence);
    var promises :=
      if m.request.Acquire? then
        s.promises[entry := Promise(m.candidate.lease.holder, m.candidate.lease.expiresAt, false)]
      else if m.request.Release? && entry in s.promises then
        s.promises[entry := s.promises[entry].(givenBack := true)]
      else s.promises;
    s.(store := store, mints := mints, promises := promises)
  }

  predicate Awaited(s: System, m: Message) {
    m.sender in s.actors && s.actors[m.sender].Running? && s.actors[m.sender].waiting == Some(m)
  }

  function DoDeliver(cfg: Config, s: System, m: Message): System {
    if !Lands(cfg, s, m) then s
    else
      var s' := Land(cfg, s, m);
      if Awaited(s, m) then s'.(actors := s'.actors[m.sender := s'.actors[m.sender].(landed := true)]) else s'
  }

  /** The actor waits for the answer to a commit that has landed. */
  predicate Unanswered(s: System, id: nat) {
    id in s.actors && s.actors[id].Running? && s.actors[id].waiting.Some? && s.actors[id].landed
  }

  /** The sender learns that its commit landed and replies to its client. */
  function DoReply(s: System, id: nat): System {
    if Unanswered(s, id) then
      var m := s.actors[id].waiting.value;
      var next := m.candidate.(version := m.candidate.version + 1);
      var s' := s.(actors := s.actors[id := Running(s.actors[id].key, next, None, false)]);
      if m.request.Release? then s'.(promises := s'.promises - {(m.key, next.lease.sequence)})
      else Tell(s', m.key, next)
    else s
  }

  /** The waiting call fails and the actor goes on with the state it had. */
  function DoGiveUp(s: System, id: nat): System {
    if id in s.actors && s.actors[id].Running? then
      s.(actors := s.actors[id := s.actors[id].(waiting := None, landed := false)])
    else s
  }

  /** One step; an event that is not enabled changes nothing. */
  function Next(cfg: Config, s: System, e: Event): System {
    match e
    case Tick => s.(now := s.now + 1)
    case Claim(id, key, runtimeEpoch, answered) => DoClaim(cfg, s, id, key, runtimeEpoch, answered)
    case Load(id) => DoLoad(s, id)
    case Start(id) => DoStart(s, id)
    case Call(id, request, lag) => DoCall(cfg, s, id, request, lag)
    case Deliver(m) => DoDeliver(cfg, s, m)
    case Reply(id) => DoReply(s, id)
    case GiveUp(id) => DoGiveUp(s, id)
    case Crash(id) => s.(actors := s.actors - {id})
  }

  /** Only a landing moves rows and grants, only a claim moves owners, only a tick moves the clock. */
  lemma StepFrame(cfg: Config, s: System, e: Event)
    ensures var s' := Next(cfg, s, e);
            && (if e.Deliver? && Lands(cfg, s, e.message) then
                  s'.store == Land(cfg, s, e.message).store && s'.mints == Land(cfg, s, e.message).mints
                else s'.store.objects == s.store.objects && s'.mints == s.mints)
            && (!e.Claim? ==> s'.store.owners == s.store.owners)
            && s'.now == (if e.Tick? then s.now + 1 else s.now)
            && (forall m | m in s'.wire && m !in s.wire :: e.Call? && m.request == e.request)
  {
  }

  function Run(cfg: Config, s: System, events: seq<Event>): System
    decreases |events|
  {
    if events == [] then s else Run(cfg, Next(cfg, s, events[0]), events[1..])
  }

  lemma {:induction false} RunAppend(cfg: Config, s: System, before: seq<Event>, after: seq<Event>)
    ensures Run(cfg, s, before + after) == Run(cfg, Run(cfg, s, before), after)
    decreases |before|
  {
    if before == [] {
      assert before + after == after;
    } else {
      assert (before + after)[1..] == before[1..] + after;
      RunAppend(cfg, Next(cfg, s, before[0]), before[1..], after);
    }
  }
}
