/** No lease lasts longer than the configured maximum. */
module LeaseLengths {
  import opened DurableStore
  import opened LeaseActor
  import opened LeaseProtocol
  import opened LeaseInvariant

  /** Every lease on its way to the store ends after its clock reading, and within the maximum of it. */
  ghost predicate WireBounded(cfg: Config, s: System) {
    forall m | m in s.wire && m.candidate.lease.holder.Some? ::
      m.sentAt < m.candidate.lease.expiresAt <= m.sentAt + cfg.maxLeaseMs
  }

  /** Every stored lease ends within the maximum from now. */
  ghost predicate RowsBounded(cfg: Config, s: System) {
    forall key :: Stored(s.store, key).holder.Some? ==> Stored(s.store, key).expiresAt <= s.now + cfg.maxLeaseMs
  }

  lemma CallKeepsWire(cfg: Config, s: System, id: nat, request: Request, lag: Lag)
    requires WireBounded(cfg, s)
    ensures WireBounded(cfg, DoCall(cfg, s, id, request, lag))
  {
    if Ready(s, id) && OutcomeOf(cfg, s, id, request, lag).Persist? {
      CandidateLength(s.actors[id].state, request, cfg.maxLeaseMs, ReadingsAt(s.now, lag));
    }
  }

  lemma StepKeepsWire(cfg: Config, s: System, e: Event)
    requires WireBounded(cfg, s)
    ensures WireBounded(cfg, Next(cfg, s, e))
  {
    if e.Call? {
      CallKeepsWire(cfg, s, e.id, e.request, e.lag);
    } else {
      StepFrame(cfg, s, e);
    }
  }

  lemma StepKeepsRow(cfg: Config, s: System, e: Event, key: Key)
    requires Inv(cfg, s) && WireBounded(cfg, s) && RowsBounded(cfg, s)
    ensures var s' := Next(cfg, s, e);
            Stored(s'.store, key).holder.Some? ==> Stored(s'.store, key).expiresAt <= s'.now + cfg.maxLeaseMs
  {
    StepFrame(cfg, s, e);
    assert Stored(s.store, key).holder.Some? ==> Stored(s.store, key).expiresAt <= s.now + cfg.maxLeaseMs;
    if e.Deliver? && Lands(cfg, s, e.message) {
      LandEffect(cfg, s, e.message, key);
    }
  }

  /**
   * Over every run no message asks for a lease that ends more than the maximum after its clock reading, and no
   * stored lease has more than the maximum left.
   */
  lemma {:induction false} LeasesAreShort(cfg: Config, s: System, events: seq<Event>)
    requires Inv(cfg, s) && WireBounded(cfg, s) && RowsBounded(cfg, s)
    ensures WireBounded(cfg, Run(cfg, s, events)) && RowsBounded(cfg, Run(cfg, s, events))
    decreases |events|
  {
    if events != [] {
      var s1 := Next(cfg, s, events[0]);
      NextKeeps(cfg, s, events[0]);
      StepKeepsWire(cfg, s, events[0]);
      forall key
        ensures Stored(s1.store, key).holder.Some? ==> Stored(s1.store, key).expiresAt <= s1.now + cfg.maxLeaseMs
      {
        StepKeepsRow(cfg, s, events[0], key);
      }
      LeasesAreShort(cfg, s1, events[1..]);
    }
  }

  lemma ReachableLeasesAreShort(cfg: Config, start: nat, events: seq<Event>)
    ensures WireBounded(cfg, Run(cfg, Initial(start), events)) && RowsBounded(cfg, Run(cfg, Initial(start), events))
  {
    InitialHolds(cfg, start);
    LeasesAreShort(cfg, Initial(start), events);
  }
}
