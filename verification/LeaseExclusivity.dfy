/** At any instant at most one client holds a section, along every harmless run. */
module LeaseExclusivity {
  import opened DurableStore
  import opened LeaseProtocol
  import opened LeaseInvariant
  import opened LeaseClaims
  import opened LeaseSpeech
  import opened LeaseLanding

  /** A starting actor treats a live lease it did not grant as inherited. */
  lemma StartBacks(s: System, id: nat)
    requires AllBacked(s)
    ensures AllBacked(DoStart(s, id))
  {
    QuietStepBacks(s, DoStart(s, id));
  }

  lemma ClaimBacks(cfg: Config, s: System, id: nat, key: Key, runtimeEpoch: nat, answered: bool)
    requires AllBacked(s)
    ensures AllBacked(DoClaim(cfg, s, id, key, runtimeEpoch, answered))
  {
    QuietStepBacks(s, DoClaim(cfg, s, id, key, runtimeEpoch, answered));
  }

  lemma LoadBacks(s: System, id: nat)
    requires AllBacked(s)
    ensures AllBacked(DoLoad(s, id))
  {
    QuietStepBacks(s, DoLoad(s, id));
  }

  lemma CrashBacks(cfg: Config, s: System, id: nat)
    requires AllBacked(s) && !Owes(s, id)
    ensures AllBacked(Next(cfg, s, Crash(id)))
  {
    QuietStepBacks(s, Next(cfg, s, Crash(id)));
  }

  lemma TickBacks(cfg: Config, s: System)
    requires AllBacked(s)
    ensures AllBacked(Next(cfg, s, Tick))
  {
    QuietStepBacks(s, Next(cfg, s, Tick));
  }

  lemma NextBacks(cfg: Config, s: System, e: Event)
    requires Inv(cfg, s) && AllBacked(s) && HarmlessStep(cfg, s, e)
    ensures AllBacked(Next(cfg, s, e))
  {
    match e
    case Deliver(m) => DeliverBacks(cfg, s, m);
    case Reply(id) => ReplyBacks(cfg, s, id);
    case Call(id, request, lag) => CallBacks(cfg, s, id, request, lag);
    case Claim(id, key, runtimeEpoch, answered) => ClaimBacks(cfg, s, id, key, runtimeEpoch, answered);
    case Load(id) => LoadBacks(s, id);
    case Start(id) => StartBacks(s, id);
    case Tick => TickBacks(cfg, s);
    case GiveUp(id) => GiveUpBacks(cfg, s, id);
    case Crash(id) => CrashBacks(cfg, s, id);
  }

  /** Along a harmless run from a backed state, every state is backed and so exclusive. */
  lemma {:induction false} RunBacks(cfg: Config, s: System, events: seq<Event>)
    requires Inv(cfg, s) && AllBacked(s) && HarmlessRun(cfg, s, events)
    ensures Inv(cfg, Run(cfg, s, events)) && AllBacked(Run(cfg, s, events)) && Exclusive(Run(cfg, s, events))
    decreases |events|
  {
    if events == [] {
      BackedIsExclusive(s);
    } else {
      NextKeeps(cfg, s, events[0]);
      NextBacks(cfg, s, events[0]);
      RunBacks(cfg, Next(cfg, s, events[0]), events[1..]);
    }
  }

  lemma InitialIsBacked(start: nat)
    ensures AllBacked(Initial(start))
  {
  }

  /**
   * Lease exclusivity: whatever actors, claims, crashes, delays, lost answers and replays a run contains, if
   * every step is harmless then at any instant at most one sequence of a key is issued, unexpired and
   * unreleased.
   */
  lemma LeaseExclusivity(cfg: Config, start: nat, events: seq<Event>)
    requires HarmlessRun(cfg, Initial(start), events)
    ensures Exclusive(Run(cfg, Initial(start), events))
  {
    InitialHolds(cfg, start);
    InitialIsBacked(start);
    RunBacks(cfg, Initial(start), events);
  }
}
