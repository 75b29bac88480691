/** What each step of the protocol does, case by case. */
module LeaseSteps {
  import opened Options
  import opened LeaseCodec
  import opened DurableStore
  import opened LeaseActor
  import opened LeaseProtocol

  /** Two keys are fenced together only within one tenant and namespace, and exactly on one virtual shard there. */
  lemma KeysShareScope(cfg: Config, a: Key, b: Key)
    ensures ScopeOf(cfg, a) == ScopeOf(cfg, b) <==>
            a.tenant == b.tenant && a.namespace == b.namespace && cfg.hash(a) == cfg.hash(b)
  {
  }

  /** A claim for a fresh actor raises the epoch of its key's scope; the actor learns of it if it is answered. */
  lemma ClaimEffect(cfg: Config, s: System, id: nat, key: Key, runtimeEpoch: nat, answered: bool)
    requires id !in s.actors && 0 < runtimeEpoch
    ensures var s' := Next(cfg, s, Claim(id, key, runtimeEpoch, answered));
            && OwnerOf(cfg, s', key) == OwnerOf(cfg, s, key) + 1
            && s'.store.objects == s.store.objects
            && (forall scope | scope != ScopeOf(cfg, key) :: Owner(s'.store, scope) == Owner(s.store, scope))
            && s' == s.(store := s'.store, actors := s'.actors)
            && s'.actors == if answered then s.actors[id := Claiming(key, runtimeEpoch, OwnerOf(cfg, s', key))]
                            else s.actors
  {
  }

  /**
   * A claimed actor loads the row as it is now, or a free lease at version 0; it is gone if the row does not
   * decode.
   */
  lemma LoadEffect(cfg: Config, s: System, id: nat)
    requires id in s.actors && s.actors[id].Claiming?
    ensures var a := s.actors[id];
            var s' := Next(cfg, s, Load(id));
            && s' == s.(actors := s'.actors)
            && (a.key !in s.store.objects ==>
                s'.actors == s.actors[id := Loading(a.key, State(a.runtimeEpoch, a.ownerEpoch, 0, FREE_LEASE, false))])
            && (a.key in s.store.objects ==>
                var row := s.store.objects[a.key];
                s'.actors ==
                match Decode(row.payload)
                case Decoded(lease) =>
                  s.actors[id := Loading(a.key, State(a.runtimeEpoch, a.ownerEpoch, row.version, lease, false))]
                case _ => s.actors - {id})
  {
  }

  /** A starting actor takes a live lease for inherited, and waits for nothing. */
  lemma StartEffect(cfg: Config, s: System, id: nat)
    requires id in s.actors && s.actors[id].Loading?
    ensures var a := s.actors[id];
            var inherited := a.state.lease.holder.Some? && s.now < a.state.lease.expiresAt;
            Next(cfg, s, Start(id)) ==
            s.(actors := s.actors[id := Running(a.key, a.state.(inherited := inherited), None, false)])
  {
  }

  /** A call is handled by an actor that waits for nothing, and by no other; a candidate is sent and waited for. */
  lemma CallEffect(cfg: Config, s: System, id: nat, request: Request, lag: Lag)
    requires id in s.actors && s.actors[id].Running?
    ensures var a := s.actors[id];
            var s' := Next(cfg, s, Call(id, request, lag));
            var at := Readings(s.now, s.now + lag.test, s.now + lag.test + lag.stamp);
            if a.waiting.Some? then s' == s
            else
              match Handle(a.state, request, cfg.maxLeaseMs, at)
              case Answer(reply, state) =>
                && s'.actors == s.actors[id := a.(state := state)] && s'.wire == s.wire && s'.store == s.store
                && (reply.Granted? ==> Issue(a.key, MintOf(state)) in s'.issued)
                && (!reply.Granted? ==> s'.issued == s.issued && s'.promises == s.promises)
              case Persist(candidate) =>
                var m := Message(id, a.key, request, candidate, s.now, at.stampAt);
                s' == s.(actors := s.actors[id := a.(waiting := Some(m), landed := false)], wire := s.wire + {m})
  {
  }

  /** A message lands exactly under the scope's epoch, at the row's version, once its clock reading has come. */
  lemma DeliverEffect(cfg: Config, s: System, m: Message)
    requires m in s.wire && ScopeOf(cfg, m.key) in s.store.owners
    ensures var s' := Next(cfg, s, Deliver(m));
            var row := Row(m.candidate.version + 1, Encode(m.candidate.lease));
            if m.sentAt <= s.now && m.candidate.ownerEpoch == OwnerOf(cfg, s, m.key)
               && m.candidate.version == Version(s.store, m.key) then
              && s'.store == s.store.(objects := s.store.objects[m.key := row])
              && s'.wire == s.wire && s'.issued == s.issued
              && (forall id :: Unanswered(s', id) <==> Unanswered(s, id) || (id == m.sender && Awaited(s, m)))
            else s' == s
  {
  }

  /**
   * An answer hands the actor its candidate at the next version and its client the token, or the news of the
   * release.
   */
  lemma ReplyEffect(cfg: Config, s: System, id: nat)
    requires Unanswered(s, id)
    ensures var m := s.actors[id].waiting.value;
            var s' := Next(cfg, s, Reply(id));
            var next := m.candidate.(version := m.candidate.version + 1);
            && s'.actors == s.actors[id := Running(s.actors[id].key, next, None, false)]
            && s'.store == s.store && s'.wire == s.wire
            && s'.issued == if m.request.Release? then s.issued else s.issued + {Issue(m.key, MintOf(m.candidate))}
  {
  }

  /** An actor that gives up goes on with the state it had; one that dies is gone. Neither tells anybody anything. */
  lemma LossEffect(cfg: Config, s: System, id: nat)
    requires id in s.actors && s.actors[id].Running?
    ensures var a := s.actors[id];
            Next(cfg, s, GiveUp(id)) == s.(actors := s.actors[id := Running(a.key, a.state, None, false)])
    ensures Next(cfg, s, Crash(id)) == s.(actors := s.actors - {id})
  {
  }
}
