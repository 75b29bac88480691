/** The per-VM registry: which actor serves a key, and how it is watched and replaced. */
module Registry {
  import opened Options
  import opened LeaseCodec
  import opened DurableStore

  datatype Entry = Entry(pid: nat, monitor: nat, runtimeEpoch: nat, ownerEpoch: nat, version: nat)

  datatype State = State(tenant: Option<Binary>, actors: map<Key, Entry>, monitors: map<nat, Key>)

  /** What `claim_and_load` and starting the process came to. */
  datatype Start = Started(pid: nat, monitor: nat, ownerEpoch: nat, version: nat) | NotStarted

  datatype Answer =
    | Serve(pid: nat)
    | InvalidRuntimeEpoch
    | InvalidIdentity
    | TenantMismatch(tenant: Binary)
    | StaleRuntimeEpoch(current: nat)
    | StartFailed

  const EMPTY := State(None, map[], map[])

  predicate Text(value: Binary, max: nat) {
    0 < |value| <= max && 0 !in value
  }

  predicate NamespaceByte(b: Byte) {
    48 <= b <= 57 || 65 <= b <= 90 || 97 <= b <= 122 || b == 45 || b == 46 || b == 95
  }

  /** The pattern's `$` also matches before one final newline. */
  function WithoutNewline(value: Binary): Binary {
    if value != [] && value[|value| - 1] == 10 then value[..|value| - 1] else value
  }

  predicate Namespace(value: Binary) {
    var body := WithoutNewline(value);
    Text(value, 128) && body != [] && forall i | 0 <= i < |body| :: NamespaceByte(body[i])
  }

  predicate ValidKey(key: Key) {
    Text(key.tenant, 1024) && Namespace(key.namespace) && Text(key.objectKey, 4096)
  }

  function RemoveActor(s: State, key: Key, entry: Entry): State {
    s.(actors := s.actors - {key}, monitors := s.monitors - {entry.monitor})
  }

  function StartActor(s: State, key: Key, runtimeEpoch: nat, start: Start): (State, Answer) {
    match start
    case NotStarted => (s, StartFailed)
    case Started(pid, monitor, ownerEpoch, version) =>
      (s.(actors := s.actors[key := Entry(pid, monitor, runtimeEpoch, ownerEpoch, version)],
          monitors := s.monitors[monitor := key]),
       Serve(pid))
  }

  function EnsureActor(s: State, key: Key, runtimeEpoch: nat, alive: bool, start: Start): (State, Answer) {
    if key !in s.actors then StartActor(s, key, runtimeEpoch, start)
    else
      var entry := s.actors[key];
      if !alive then StartActor(RemoveActor(s, key, entry), key, runtimeEpoch, start)
      else if runtimeEpoch == entry.runtimeEpoch then (s, Serve(entry.pid))
      else if entry.runtimeEpoch < runtimeEpoch then StartActor(RemoveActor(s, key, entry), key, runtimeEpoch, start)
      else (s, StaleRuntimeEpoch(entry.runtimeEpoch))
  }

  /** Whether the call goes on to claim the key and start an actor. */
  predicate Starts(s: State, key: Key, runtimeEpoch: nat, alive: bool) {
    && 0 < runtimeEpoch && ValidKey(key)
    && (s.tenant == None || s.tenant == Some(key.tenant))
    && (key in s.actors ==> !alive || s.actors[key].runtimeEpoch < runtimeEpoch)
  }

  function WithActor(s: State, key: Key, runtimeEpoch: nat, alive: bool, start: Start): (State, Answer) {
    if runtimeEpoch == 0 then (s, InvalidRuntimeEpoch)
    else if !ValidKey(key) then (s, InvalidIdentity)
    else if s.tenant.Some? && s.tenant != Some(key.tenant) then (s, TenantMismatch(s.tenant.value))
    else EnsureActor(s.(tenant := Some(key.tenant)), key, runtimeEpoch, alive, start)
  }

  /** A watched process died. */
  function Down(s: State, monitor: nat): State {
    if monitor in s.monitors then
      s.(monitors := s.monitors - {monitor}, actors := s.actors - {s.monitors[monitor]})
    else s
  }

  /** The registry with the store and the source of fresh references; `history` records every started actor. */
  datatype World = World(registry: State, store: Store, nextRef: nat, history: seq<(Key, nat)>)

  datatype Event =
    | Use(key: Key, runtimeEpoch: nat, alive: bool, claimed: bool, started: bool)
    | ProcessDown(monitor: nat)
    | ClaimElsewhere(scope: Scope)

  const INITIAL := World(EMPTY, EMPTY_STORE, 0, [])

  /** A used key may be claimed without its actor starting. */
  function UseStart(hash: Key -> nat, w: World, e: Event): Start
    requires e.Use?
  {
    if e.claimed && e.started && Starts(w.registry, e.key, e.runtimeEpoch, e.alive) then
      Started(w.nextRef, w.nextRef + 1, Owner(w.store, ScopeFor(hash, e.key)) + 1, Version(w.store, e.key))
    else NotStarted
  }

  /** The store, the fresh references and the history after a use. */
  function UseSurroundings(hash: Key -> nat, w: World, e: Event): World
    requires e.Use?
  {
    if e.claimed && Starts(w.registry, e.key, e.runtimeEpoch, e.alive) then
      var w' := w.(store := Claimed(w.store, ScopeFor(hash, e.key)));
      if e.started then
        w'.(nextRef := w.nextRef + 2, history := w.history + [(e.key, Owner(w'.store, ScopeFor(hash, e.key)))])
      else w'
    else w
  }

  function Next(hash: Key -> nat, w: World, e: Event): World {
    match e
    case ProcessDown(monitor) => w.(registry := Down(w.registry, monitor))
    case ClaimElsewhere(scope) => w.(store := Claimed(w.store, scope))
    case Use(key, runtimeEpoch, alive, claimed, started) =>
      UseSurroundings(hash, w, e).(
        registry := WithActor(w.registry, key, runtimeEpoch, alive, UseStart(hash, w, e)).0)
  }

  function Run(hash: Key -> nat, w: World, events: seq<Event>): World
    decreases |events|
  {
    if events == [] then w else Run(hash, Next(hash, w, events[0]), events[1..])
  }

  /** `actors` and `monitors` are inverse to each other, and every key is the one tenant's. */
  ghost predicate Consistent(s: State) {
    && (forall key | key in s.actors :: s.actors[key].monitor in s.monitors && s.monitors[s.actors[key].monitor] == key)
    && (forall m | m in s.monitors :: s.monitors[m] in s.actors && s.actors[s.monitors[m]].monitor == m)
    && (forall key | key in s.actors :: s.tenant == Some(key.tenant))
  }

  ghost predicate HistoryOk(hash: Key -> nat, w: World) {
    && (forall i | 0 <= i < |w.history| :: w.history[i].1 <= Owner(w.store, ScopeFor(hash, w.history[i].0)))
    && (forall i, j | 0 <= i < j < |w.history| && w.history[i].0 == w.history[j].0 :: w.history[i].1 < w.history[j].1)
  }

  ghost predicate Inv(hash: Key -> nat, w: World) {
    && Consistent(w.registry)
    && (forall key | key in w.registry.actors :: (key, w.registry.actors[key].ownerEpoch) in w.history)
    && (forall m | m in w.registry.monitors :: m < w.nextRef)
    && HistoryOk(hash, w)
  }

  lemma RemoveKeepsConsistent(s: State, key: Key)
    requires Consistent(s) && key in s.actors
    ensures Consistent(RemoveActor(s, key, s.actors[key]))
  {
  }

  lemma WithActorKeepsConsistent(s: State, key: Key, runtimeEpoch: nat, alive: bool, start: Start)
    requires Consistent(s) && (start.Started? ==> start.monitor !in s.monitors)
    ensures Consistent(WithActor(s, key, runtimeEpoch, alive, start).0)
  {
    if key in s.actors {
      RemoveKeepsConsistent(s, key);
    }
  }

  /** A call watches nothing but what was watched before and the process it starts. */
  lemma WithActorWatches(s: State, key: Key, runtimeEpoch: nat, alive: bool, start: Start, m: nat)
    requires m in WithActor(s, key, runtimeEpoch, alive, start).0.monitors
    ensures m in s.monitors || (start.Started? && m == start.monitor)
  {
  }

  /** A call leaves every entry as it was or enters the actor it started. */
  lemma WithActorEnters(s: State, key: Key, runtimeEpoch: nat, alive: bool, start: Start, k: Key)
    requires k in WithActor(s, key, runtimeEpoch, alive, start).0.actors
    ensures var entry := WithActor(s, key, runtimeEpoch, alive, start).0.actors[k];
            || (k in s.actors && entry == s.actors[k])
            || (k == key && start.Started? && Starts(s, key, runtimeEpoch, alive)
                && entry == Entry(start.pid, start.monitor, runtimeEpoch, start.ownerEpoch, start.version))
  {
  }

  lemma UseKeepsRegistry(w: World, key: Key, runtimeEpoch: nat, alive: bool, start: Start, nextRef: nat)
    requires Consistent(w.registry) && (forall m | m in w.registry.monitors :: m < w.nextRef)
    requires w.nextRef <= nextRef && (start.Started? ==> w.nextRef <= start.monitor < nextRef)
    ensures var s' := WithActor(w.registry, key, runtimeEpoch, alive, start).0;
            Consistent(s') && forall m | m in s'.monitors :: m < nextRef
  {
    WithActorKeepsConsistent(w.registry, key, runtimeEpoch, alive, start);
    var s' := WithActor(w.registry, key, runtimeEpoch, alive, start).0;
    forall m | m in s'.monitors ensures m < nextRef {
      WithActorWatches(w.registry, key, runtimeEpoch, alive, start, m);
    }
  }

  /** A started actor's epoch is above every earlier one of its key. */
  lemma UseExtendsHistory(hash: Key -> nat, w: World, e: Event)
    requires HistoryOk(hash, w) && e.Use?
    ensures HistoryOk(hash, UseSurroundings(hash, w, e))
  {
  }

  lemma UseKeeps(hash: Key -> nat, w: World, e: Event)
    requires Inv(hash, w) && e.Use?
    ensures Inv(hash, Next(hash, w, e))
  {
    var surroundings := UseSurroundings(hash, w, e);
    var start := UseStart(hash, w, e);
    UseExtendsHistory(hash, w, e);
    UseKeepsRegistry(w, e.key, e.runtimeEpoch, e.alive, start, surroundings.nextRef);
    var s' := WithActor(w.registry, e.key, e.runtimeEpoch, e.alive, start).0;
    forall k | k in s'.actors ensures (k, s'.actors[k].ownerEpoch) in surroundings.history {
      WithActorEnters(w.registry, e.key, e.runtimeEpoch, e.alive, start, k);
    }
    assert Next(hash, w, e) == surroundings.(registry := s');
  }

  lemma DownKeeps(hash: Key -> nat, w: World, monitor: nat)
    requires Inv(hash, w)
    ensures Inv(hash, w.(registry := Down(w.registry, monitor)))
  {
  }

  lemma ClaimElsewhereKeeps(hash: Key -> nat, w: World, scope: Scope)
    requires Inv(hash, w)
    ensures Inv(hash, w.(store := Claimed(w.store, scope)))
  {
  }

  lemma NextKeeps(hash: Key -> nat, w: World, e: Event)
    requires Inv(hash, w)
    ensures Inv(hash, Next(hash, w, e))
  {
    match e
    case ProcessDown(monitor) => DownKeeps(hash, w, monitor);
    case ClaimElsewhere(scope) => ClaimElsewhereKeeps(hash, w, scope);
    case Use(_, _, _, _, _) => UseKeeps(hash, w, e);
  }

  lemma {:induction false} RunKeeps(hash: Key -> nat, w: World, events: seq<Event>)
    requires Inv(hash, w)
    ensures Inv(hash, Run(hash, w, events))
    decreases |events|
  {
    if events != [] {
      NextKeeps(hash, w, events[0]);
      RunKeeps(hash, Next(hash, w, events[0]), events[1..]);
    }
  }

  /**
   * Registry consistency: over every run from an empty registry the two maps stay inverse, one tenant owns
   * every key, an entry holds an epoch its key's actor was started with, and the successive actors of a key
   * have strictly increasing owner epochs, whoever else claims meanwhile.
   */
  lemma RegistryConsistency(hash: Key -> nat, events: seq<Event>)
    ensures var w := Run(hash, INITIAL, events);
            && (forall key, m :: (key in w.registry.actors && w.registry.actors[key].monitor == m)
                                 <==> (m in w.registry.monitors && w.registry.monitors[m] == key))
            && (forall key | key in w.registry.actors :: w.registry.tenant == Some(key.tenant))
            && (forall key | key in w.registry.actors :: (key, w.registry.actors[key].ownerEpoch) in w.history)
            && (forall i, j | 0 <= i < j < |w.history| && w.history[i].0 == w.history[j].0 ::
                  w.history[i].1 < w.history[j].1)
  {
    RunKeeps(hash, INITIAL, events);
  }

  /** A death notice removes a key's actor exactly when it is about that actor; one about a predecessor does nothing. */
  lemma DownRemovesOnlyItsOwn(s: State, key: Key, monitor: nat)
    requires Consistent(s) && key in s.actors
    ensures key !in Down(s, monitor).actors <==> monitor == s.actors[key].monitor
    ensures key in Down(s, monitor).actors ==> Down(s, monitor).actors[key] == s.actors[key]
    ensures Down(s, monitor).monitors == s.monitors - {monitor} && Down(s, monitor).tenant == s.tenant
  {
  }

  /** The bound tenant never changes, and another tenant's calls leave the registry as it is. */
  lemma TenantIsBound(s: State, key: Key, runtimeEpoch: nat, alive: bool, start: Start)
    requires s.tenant.Some?
    ensures var (s', answer) := WithActor(s, key, runtimeEpoch, alive, start);
            && s'.tenant == s.tenant
            && (s.tenant != Some(key.tenant) ==> s' == s && !answer.Serve?)
  {
  }

  /** A live actor is replaced only for a higher runtime epoch, and an older caller is turned away. */
  lemma ReplacementNeedsHigherEpoch(s: State, key: Key, runtimeEpoch: nat, start: Start)
    requires Consistent(s) && key in s.actors && ValidKey(key) && 0 < runtimeEpoch
    ensures var (s', answer) := WithActor(s, key, runtimeEpoch, true, start);
            && (answer.StaleRuntimeEpoch? <==> runtimeEpoch < s.actors[key].runtimeEpoch)
            && (!(key in s'.actors && s'.actors[key] == s.actors[key]) ==> s.actors[key].runtimeEpoch < runtimeEpoch)
            && (runtimeEpoch == s.actors[key].runtimeEpoch ==> s' == s && answer == Serve(s.actors[key].pid))
  {
  }

  /** 1 to `max` bytes without NUL. */
  predicate IsText(value: Binary, max: nat) {
    0 < |value| <= max && forall i | 0 <= i < |value| :: value[i] != 0
  }

  /** A letter, a digit, a dot, an underscore or a dash. */
  predicate IsNameByte(b: Byte) {
    || 'a' as int <= b as int <= 'z' as int || 'A' as int <= b as int <= 'Z' as int
    || '0' as int <= b as int <= '9' as int || b as int in {'.' as int, '_' as int, '-' as int}
  }

  /** Up to 128 such bytes, the last of several possibly a newline instead. */
  predicate IsNamespace(value: Binary) {
    && 0 < |value| <= 128
    && forall i | 0 <= i < |value| :: IsNameByte(value[i]) || (0 < i == |value| - 1 && value[i] == 10)
  }

  predicate IsWellFormed(key: Key) {
    IsText(key.tenant, 1024) && IsNamespace(key.namespace) && IsText(key.objectKey, 4096)
  }

  lemma NamespaceFormat(value: Binary)
    ensures Namespace(value) <==> IsNamespace(value)
  {
    var n := |value|;
    var body := WithoutNewline(value);
    if Namespace(value) {
      forall i | 0 <= i < n ensures IsNameByte(value[i]) || (0 < i == n - 1 && value[i] == 10) {
        if i < |body| {
          assert NamespaceByte(body[i]);
        }
      }
    }
    if IsNamespace(value) {
      assert IsNameByte(value[0]);
      forall i | 0 <= i < |body| ensures NamespaceByte(body[i]) {
        assert body[i] == value[i];
      }
      forall i | 0 <= i < n ensures value[i] != 0 {
        assert IsNameByte(value[i]) || value[i] == 10;
      }
    }
  }

  lemma WellFormedKeys(key: Key)
    ensures ValidKey(key) <==> IsWellFormed(key)
  {
    NamespaceFormat(key.namespace);
  }

  /** Refusals before any actor is asked for, in order: no epoch, a malformed key, another tenant's key. */
  lemma CallIsRefused(s: State, key: Key, runtimeEpoch: nat, alive: bool, start: Start)
    ensures var (s', answer) := WithActor(s, key, runtimeEpoch, alive, start);
            && (answer.InvalidRuntimeEpoch? <==> runtimeEpoch == 0)
            && (answer.InvalidIdentity? <==> 0 < runtimeEpoch && !IsWellFormed(key))
            && (answer.TenantMismatch? <==>
                0 < runtimeEpoch && IsWellFormed(key) && s.tenant.Some? && s.tenant.value != key.tenant)
            && (answer.TenantMismatch? ==> answer.tenant == s.tenant.value)
            && (answer.InvalidRuntimeEpoch? || answer.InvalidIdentity? || answer.TenantMismatch? ==> s' == s)
            && (!answer.InvalidRuntimeEpoch? && !answer.InvalidIdentity? ==> s'.tenant.Some?)
  {
    WellFormedKeys(key);
  }

  /** The call passes those checks. */
  predicate IsAdmitted(s: State, key: Key, runtimeEpoch: nat) {
    0 < runtimeEpoch && IsWellFormed(key) && (s.tenant.None? || s.tenant.value == key.tenant)
  }

  /** Nobody serves the key, or somebody dead or of an older runtime. */
  predicate NeedsActor(s: State, key: Key, runtimeEpoch: nat, alive: bool) {
    key in s.actors ==> !alive || s.actors[key].runtimeEpoch < runtimeEpoch
  }

  /**
   * An admitted call on a key that needs an actor is served by the one that starts, which takes the key over
   * from its predecessor; if none starts, the key is left without.
   */
  lemma CallStartsActor(s: State, key: Key, runtimeEpoch: nat, alive: bool, start: Start)
    requires Consistent(s) && IsAdmitted(s, key, runtimeEpoch) && NeedsActor(s, key, runtimeEpoch, alive)
    requires start.Started? ==> start.monitor !in s.monitors
    ensures var (s', answer) := WithActor(s, key, runtimeEpoch, alive, start);
            var others := s.monitors - (if key in s.actors then {s.actors[key].monitor} else {});
            && s'.tenant == Some(key.tenant)
            && match start
               case Started(pid, monitor, ownerEpoch, version) =>
                 && answer == Serve(pid)
                 && s'.actors == s.actors[key := Entry(pid, monitor, runtimeEpoch, ownerEpoch, version)]
                 && s'.monitors == others[monitor := key]
               case NotStarted =>
                 answer == StartFailed && s'.actors == s.actors - {key} && s'.monitors == others
  {
    WellFormedKeys(key);
  }

  /**
   * Any other admitted call is served by the live actor of its own runtime epoch, or turned away because the
   * actor's is higher; the registry stays as it is.
   */
  lemma CallFindsActor(s: State, key: Key, runtimeEpoch: nat, start: Start)
    requires Consistent(s) && IsAdmitted(s, key, runtimeEpoch) && !NeedsActor(s, key, runtimeEpoch, true)
    ensures var entry := s.actors[key];
            WithActor(s, key, runtimeEpoch, true, start)
            == (s, if entry.runtimeEpoch == runtimeEpoch then Serve(entry.pid)
                   else StaleRuntimeEpoch(entry.runtimeEpoch))
  {
    WellFormedKeys(key);
  }

  /**
   * Over a step of the world: an admitted call on a key that needs an actor claims the key and, if its actor
   * starts, leaves it registered under the claimed epoch and the loaded version, watched, and on record.
   */
  lemma UseServesKey(hash: Key -> nat, w: World, key: Key, runtimeEpoch: nat, alive: bool, started: bool)
    requires Inv(hash, w) && IsAdmitted(w.registry, key, runtimeEpoch)
    requires NeedsActor(w.registry, key, runtimeEpoch, alive)
    ensures var w' := Next(hash, w, Use(key, runtimeEpoch, alive, true, started));
            var claimed := Owner(w.store, ScopeFor(hash, key)) + 1;
            && w'.store == Claimed(w.store, ScopeFor(hash, key))
            && (key in w'.registry.actors <==> started)
            && (started ==>
                && w'.registry.actors[key]
                   == Entry(w.nextRef, w.nextRef + 1, runtimeEpoch, claimed, Version(w.store, key))
                && w.nextRef + 1 in w'.registry.monitors && w'.registry.monitors[w.nextRef + 1] == key
                && w'.history == w.history + [(key, claimed)])
  {
    WellFormedKeys(key);
    var e := Use(key, runtimeEpoch, alive, true, started);
    assert Starts(w.registry, key, runtimeEpoch, alive);
    CallStartsActor(w.registry, key, runtimeEpoch, alive, UseStart(hash, w, e));
  }

  /** A use that is refused, or finds its actor, touches neither the store nor the record of started actors. */
  lemma UseWithoutStart(hash: Key -> nat, w: World, e: Event)
    requires e.Use? && !(IsAdmitted(w.registry, e.key, e.runtimeEpoch)
                         && NeedsActor(w.registry, e.key, e.runtimeEpoch, e.alive))
    ensures Next(hash, w, e) == w.(registry := Next(hash, w, e).registry)
    ensures Next(hash, w, e).registry.actors == w.registry.actors
    ensures Next(hash, w, e).registry.monitors == w.registry.monitors
  {
    WellFormedKeys(e.key);
  }
}
