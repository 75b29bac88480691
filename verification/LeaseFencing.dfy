/** What holds over every run, whatever is lost, delayed or repeated. */
module LeaseFencing {
  import opened Options
  import opened LeaseCodec
  import opened DurableStore
  import opened LeaseActor
  import opened LeaseProtocol
  import opened LeaseInvariant

  /**
   * Fencing: the grants of a key are numbered without gaps, below the cap, under owner epochs that
   * never fall; and no sequence of a key is ever handed to two holders, requests or owners.
   */
  lemma Fencing(cfg: Config, start: nat, events: seq<Event>)
    ensures var s := Run(cfg, Initial(start), events);
            && (forall key, i | 0 <= i < |MintsOf(s, key)| ::
                  MintsOf(s, key)[i].sequence == i + 1 <= 9007199254740991)
            && (forall key, i, j | 0 <= i < j < |MintsOf(s, key)| ::
                  MintsOf(s, key)[i].ownerEpoch <= MintsOf(s, key)[j].ownerEpoch <= OwnerOf(cfg, s, key))
            && (forall a, b | a in s.issued && b in s.issued && a.key == b.key && a.mint.sequence == b.mint.sequence ::
                  a == b)
  {
    Reachable(cfg, start, events);
    var s := Run(cfg, Initial(start), events);
    forall key, i | 0 <= i < |MintsOf(s, key)|
      ensures MintsOf(s, key)[i].sequence == i + 1 <= 9007199254740991
    {
      assert MintsOk(cfg, s, key) && RowOk(s, key);
    }
    forall key, i, j | 0 <= i < j < |MintsOf(s, key)|
      ensures MintsOf(s, key)[i].ownerEpoch <= MintsOf(s, key)[j].ownerEpoch <= OwnerOf(cfg, s, key)
    {
      assert MintsOk(cfg, s, key);
    }
    forall a, b | a in s.issued && b in s.issued && a.key == b.key && a.mint.sequence == b.mint.sequence
      ensures a == b
    {
      assert IsMint(s, a.key, a.mint) && IsMint(s, b.key, b.mint);
    }
  }

  /** A step that changes a row delivers a message of the scope's current owner; nobody else can write. */
  lemma OnlyCurrentOwnerWrites(cfg: Config, s: System, e: Event, key: Key)
    requires RowOf(Next(cfg, s, e).store, key) != RowOf(s.store, key)
    ensures e.Deliver? && e.message.key == key
    ensures e.message.candidate.ownerEpoch == OwnerOf(cfg, s, key)
    ensures e.message.candidate.version == Version(s.store, key)
    ensures Version(Next(cfg, s, e).store, key) == Version(s.store, key) + 1
  {
  }

  /** Whatever an actor commits can be loaded again, exactly as it was encoded. */
  lemma CommittedCanBeLoaded(cfg: Config, start: nat, events: seq<Event>, key: Key)
    requires key in Run(cfg, Initial(start), events).store.objects
    ensures var payload := Run(cfg, Initial(start), events).store.objects[key].payload;
            Decode(payload).Decoded? && Encode(Decode(payload).lease) == payload && WellFormed(Decode(payload).lease)
  {
    Reachable(cfg, start, events);
    assert RowOk(Run(cfg, Initial(start), events), key);
  }

  /** A landing stores a payload that decodes to the very lease its sender prepared. */
  lemma LandingStoresCandidate(cfg: Config, start: nat, events: seq<Event>, m: Message)
    requires Lands(cfg, Run(cfg, Initial(start), events), m)
    ensures Loaded(Land(cfg, Run(cfg, Initial(start), events), m).store, m.key) == Some(m.candidate.lease)
  {
    Reachable(cfg, start, events);
    LandEffect(cfg, Run(cfg, Initial(start), events), m, m.key);
  }

  /** The epoch of the owner that made the key's latest grant; 0 before the first. */
  function GrantorOf(s: System, key: Key): nat {
    var mints := MintsOf(s, key);
    if mints == [] then 0 else mints[|mints| - 1].ownerEpoch
  }

  /** A held lease was granted by an owner that has since been succeeded. */
  ghost predicate Inherited(cfg: Config, s: System, key: Key) {
    Stored(s.store, key).holder.Some? && GrantorOf(s, key) < OwnerOf(cfg, s, key)
  }

  lemma MintsNeverShrink(cfg: Config, s: System, e: Event, key: Key)
    requires Inv(cfg, s)
    ensures MintsOf(s, key) <= MintsOf(Next(cfg, s, e), key)
    ensures OwnerOf(cfg, s, key) <= OwnerOf(cfg, Next(cfg, s, e), key)
    ensures s.now <= Next(cfg, s, e).now
  {
    StepFrame(cfg, s, e);
    if e.Deliver? && Lands(cfg, s, e.message) {
      LandEffect(cfg, s, e.message, key);
    }
  }

  lemma {:induction false} RunNeverShrinks(cfg: Config, s: System, events: seq<Event>, key: Key)
    requires Inv(cfg, s)
    ensures MintsOf(s, key) <= MintsOf(Run(cfg, s, events), key)
    ensures OwnerOf(cfg, s, key) <= OwnerOf(cfg, Run(cfg, s, events), key)
    ensures s.now <= Run(cfg, s, events).now
    decreases |events|
  {
    if events != [] {
      NextKeeps(cfg, s, events[0]);
      MintsNeverShrink(cfg, s, events[0], key);
      RunNeverShrinks(cfg, Next(cfg, s, events[0]), events[1..], key);
    }
  }

  /** Only a fresh grant can replace an inherited lease, and only once it has expired. */
  lemma OnlyGrantsReplaceInherited(cfg: Config, s: System, m: Message)
    requires Inv(cfg, s) && Inherited(cfg, s, m.key) && Lands(cfg, s, m)
    ensures m.request.Acquire? && Stored(s.store, m.key).expiresAt <= s.now
  {
    assert MessageOk(cfg, s, m) && RowOk(s, m.key);
  }

  /** A step leaves an inherited lease alone, or is the grant that follows its expiry. */
  lemma StepLeavesInherited(cfg: Config, s: System, e: Event, key: Key)
    requires Inv(cfg, s) && Inherited(cfg, s, key)
    ensures var s' := Next(cfg, s, e);
            || (RowOf(s'.store, key) == RowOf(s.store, key) && MintsOf(s', key) == MintsOf(s, key))
            || (Stored(s.store, key).expiresAt <= s.now && |MintsOf(s, key)| < |MintsOf(s', key)|)
  {
    StepFrame(cfg, s, e);
    if e.Deliver? && Lands(cfg, s, e.message) {
      LandEffect(cfg, s, e.message, key);
      if e.message.key == key {
        OnlyGrantsReplaceInherited(cfg, s, e.message);
      }
    }
  }

  /** The key was granted again, not before the old lease's expiry, and first under the next sequence. */
  ghost predicate SucceededFairly(s: System, s': System, key: Key) {
    var n := |MintsOf(s, key)|;
    && Stored(s.store, key).expiresAt <= s'.now
    && n < |MintsOf(s', key)|
    && MintsOf(s', key)[n].sequence == Stored(s.store, key).sequence + 1
  }

  /**
   * An inherited lease is frozen: along every run from a state with an inherited lease, its row
   * (version, holder, request id, sequence, expiry) stays as it is until the expiry has passed and
   * the key is granted afresh, and that grant gets exactly the next sequence.
   */
  lemma {:induction false} InheritedLeaseIsFrozen(cfg: Config, s: System, events: seq<Event>, key: Key)
    requires Inv(cfg, s) && Inherited(cfg, s, key)
    ensures var s' := Run(cfg, s, events);
            || (RowOf(s'.store, key) == RowOf(s.store, key) && MintsOf(s', key) == MintsOf(s, key))
            || SucceededFairly(s, s', key)
    decreases |events|
  {
    if events != [] {
      var s1 := Next(cfg, s, events[0]);
      NextKeeps(cfg, s, events[0]);
      MintsNeverShrink(cfg, s, events[0], key);
      StepLeavesInherited(cfg, s, events[0], key);
      if MintsOf(s1, key) == MintsOf(s, key) {
        InheritedLeaseIsFrozen(cfg, s1, events[1..], key);
      } else {
        RunKeeps(cfg, s1, events[1..]);
        RunNeverShrinks(cfg, s1, events[1..], key);
        assert RowOk(s, key);
        assert MintsOk(cfg, Run(cfg, s1, events[1..]), key);
      }
    }
  }
}
